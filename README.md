# Parrot drone façade: verified model of its command, tracking and window logic

This project models the `Parrot` class of `src/parrot/parrot.py`, the façade over an
AR Parrot 2.0 quadcopter. It covers three parts of that class.

- The constructor defaults: the neutral command template, the address, ports and camera
  ids, the front camera as active camera, and the 15 x 7 window grid with overlap 0.5.
- The pilot-intent builders `land`, `takeoff`, `stop`, `turn_left`, `turn_right`,
  `fly_up`, `fly_down`, `fly_forward`, `fly_backward`, `fly_left` and `fly_right`, and
  `send_cmd`. Each builder copies the neutral template, overrides exactly one key with a
  sign that depends on the intent, and puts the result on the outgoing command queue.
- The bounding-box validation of `init_tracking`, which seeds the CamShift tracker.
- The window loop of `get_visual_features`: rows outside, columns inside, with each of
  the three visual extractors' rows stacked per window.

Files:

- `wrappers.dfy`: `Option` (Python's `None`) and `Result` (a value or a raised error).
- `commands.dfy`: the eight-field `Command` record, its dictionary view (`Key`, `Value`,
  `Get`), the `Intent`s and `Build`, the "template except one key" rule.
- `tracking.dfy`: `CheckBox`, the three rejection conditions of `init_tracking`, and the
  `CamShift` tracker record.
- `window_grid.dfy`: `VisitOrder`, the row-major visit of the window grid, and the
  stacking of feature rows (`Extract`, `VStack`, `StackRows`).
- `parrot.dfy`: the class `Parrot` with the source's fields and methods.

Queues are modelled by what went through them: `cmdQueue` is the sequence of commands
put on the outgoing queue, oldest first. The JSON encoding of a command is abstracted
away; the model keeps the record itself.

## Model

| member | source | states |
|---|---|---|
| `Drone.Parrot.constructor` | src/parrot/parrot.py:42-75 | A new drone has the neutral template (speeds 0.0, camera 0, flags false), address 192.168.1.1, ports 5554/5555/5556, cameras FRONT 0, BOTTOM 3, CUSTOM 4, the FRONT camera active, window grid (15, 7), overlap 0.5, and no image, telemetry or tracker |
| `Drone.Parrot.InitController` | src/parrot/parrot.py:101-107 | Initialising the controller creates a fresh, empty outgoing command queue, which every builder needs |
| `Drone.Parrot.InitCamera` | src/parrot/parrot.py:89-99 | The first frame delivered by the camera becomes the current image |
| `Drone.Parrot.InitTracking` | src/parrot/parrot.py:120-132 | Needs a current image. A malformed box raises `BoundingBoxError` and leaves the tracker unchanged. Otherwise the tracker is seeded from the image and the two two-coordinate corners. Only the tracker field can change |
| `Tracking.CheckBox` | src/parrot/parrot.py:126-132 | Rejects a missing box, a box that does not hold exactly two points, and a point that does not hold two coordinates. Accepts every other box, and the accepted corners reassemble into the given box |
| `Tracking.CheckBoxAccepts` | src/parrot/parrot.py:126-132 | Any two two-coordinate corners are accepted, and checking the box assembled from them returns the same corners (round trip) |
| `Tracking.CheckBoxExactly` | src/parrot/parrot.py:126-132 | The check succeeds if and only if the box is some pair of two-coordinate points |
| `Tracking.MalformedBoxes` | src/parrot/parrot.py:126-131 | No box, a one-point box, and a box with a corner that is not two-dimensional are each rejected |
| `Drone.Parrot.GetVisualFeatures` | src/parrot/parrot.py:195-216 | The loop visits exactly the windows of `VisitOrder(window_size[1], window_size[0])`, in that order. Each returned feature stack is the stacking of its extractor's rows for the windows of that visit, in visit order |
| `Drone.VisitRow` | src/parrot/parrot.py:196-216 | The inner loop over row r stacks, onto the features of the windows visited so far, the features of the row's windows from column 0 to cols - 1 |
| `Drone.RowFeaturesStep` | src/parrot/parrot.py:196-216 | One more inner-loop iteration stacks the features of window (r, c) onto the features gathered up to column c |
| `WindowGrid.RowStep` | src/parrot/parrot.py:196 | One more inner-loop iteration visits window (r, c) after the first c windows of row r |
| `Drone.FeaturesStep` | src/parrot/parrot.py:206-216 | Visiting one more window stacks exactly one more row onto each of the three feature stacks |
| `WindowGrid.VisitOrder` | src/parrot/parrot.py:195-196 | The visit of a non-empty grid ends at the bottom-right window (rows - 1, cols - 1) |
| `WindowGrid.RowOf` | src/parrot/parrot.py:196 | The inner loop over row r visits cols windows and ends at window (r, cols - 1) |
| `WindowGrid.RowOfAt` | src/parrot/parrot.py:196-199 | The inner loop over row r visits columns 0 to cols-1, left to right |
| `WindowGrid.VisitOrderLength` | src/parrot/parrot.py:195-199 | The visit holds rows * cols windows |
| `WindowGrid.VisitOrderIndex` | src/parrot/parrot.py:195-199 | Every grid window (r, c) is visited, as window number r * cols + c |
| `WindowGrid.VisitOrderInGrid` | src/parrot/parrot.py:195-199 | Every visited window lies in the grid: row below rows, column below cols |
| `WindowGrid.VisitOrderRowMajor` | src/parrot/parrot.py:195-199 | The visit is strictly increasing in row-major order: rows outside, columns inside |
| `WindowGrid.VisitOrderCovers` | src/parrot/parrot.py:195-196 | Every window (r, c) of the grid is visited |
| `WindowGrid.VisitOrderDistinct` | src/parrot/parrot.py:195-196 | No window is visited twice |
| `WindowGrid.VisitOrderExactlyOnce` | src/parrot/parrot.py:195-199 | Each grid window is visited, and no window is visited twice |
| `WindowGrid.DefaultWindowCount` | src/parrot/parrot.py:67 | The default grid of 15 columns and 7 rows has 105 windows |
| `WindowGrid.ExtractAt` | src/parrot/parrot.py:206-216 | Extracted row k is the extractor's output for the k-th visited window |
| `WindowGrid.Size` | src/parrot/parrot.py:208 | The number of values held by a stack (numpy's `.size`); a stack whose last row is non-empty holds at least one value |
| `WindowGrid.VStack` | src/parrot/parrot.py:208 | One stacking step (`vstack if size else new row`): the new row is always the last row. An accumulator holding no values is replaced by the new row alone; otherwise the row is added below the accumulator, which is kept unchanged |
| `WindowGrid.StackRows` | src/parrot/parrot.py:206-216 | Stacking rows one by one onto an empty stack keeps at most one row per input row, and the last input row is the last row kept |
| `WindowGrid.StackRowsPositiveWidth` | src/parrot/parrot.py:208 | When every row has the same positive width, the size-tested stacking keeps every row, in order |
| `WindowGrid.StackRowsZeroWidth` | src/parrot/parrot.py:208 | When every row is empty, the size test makes each row replace the last, and only the final row is left |
| `WindowGrid.StackedFeatures` | src/parrot/parrot.py:206-216 | With an extractor of fixed positive width, the stack holds one row per visited window, in order |
| `WindowGrid.FeatureRowsInGridOrder` | src/parrot/parrot.py:195-216 | With an extractor of fixed positive width, the stack has rows * cols rows, and row r * cols + c is the features of window (r, c) |
| `Commands.Get` | src/parrot/parrot.py:43-52 | Dictionary lookup: X, Y, Z and R hold floats, C an integer, T, L and S booleans |
| `Commands.NeutralValues` | src/parrot/parrot.py:43-52 | The neutral template holds 0.0 under every speed key, camera 0, and false under every flag |
| `Commands.KeysDetermineCommand` | src/parrot/parrot.py:43-52 | The eight keys determine a command: equal values under every key means equal commands |
| `Commands.Build` | src/parrot/parrot.py:268-333 | A built command holds the intent's value under the intent's key and agrees with the template under every other key |
| `Commands.BuildUnique` | src/parrot/parrot.py:268-333 | "Template except one key" determines the command: any command with the intent's value under its key that agrees elsewhere equals the built one |
| `Commands.OppositeIntents` | src/parrot/parrot.py:287-333 | Left and right turn, down and up, backward and forward, left and right flight store opposite values in the same field (R, Z, Y, X) |
| `Commands.ActionsFromNeutral` | src/parrot/parrot.py:268-285 | From the neutral template, land, takeoff and stop raise only L, T and S. All speeds stay 0.0, the camera 0, the other flags false |
| `Commands.MovesFromNeutral` | src/parrot/parrot.py:287-333 | From the neutral template, each movement intent sets only its own field. turn_left sets R = -s and turn_right R = s; fly_up Z = s and fly_down Z = -s; fly_forward Y = s and fly_backward Y = -s; fly_right X = s and fly_left X = -s |
| `Commands.BuildKeepsCamera` | src/parrot/parrot.py:268-333 | No builder changes the camera id C |
| `Drone.Parrot.SendCmd` | src/parrot/parrot.py:261-266 | Appends its argument, unchanged, as exactly one new entry of the command queue; nothing else changes |
| `Drone.Parrot.Land` | src/parrot/parrot.py:268-272 | Appends exactly one command: the template with L true and every other key unchanged. The template itself and every other field are unchanged |
| `Drone.Parrot.Takeoff` | src/parrot/parrot.py:274-278 | Appends exactly one command: the template with T true and every other key unchanged; nothing else changes |
| `Drone.Parrot.Stop` | src/parrot/parrot.py:280-285 | Appends exactly one command: the template with S true and every other key unchanged; nothing else changes |
| `Drone.Parrot.TurnLeft` | src/parrot/parrot.py:287-291 | Appends exactly one command: the template with R = -speed and every other key unchanged; nothing else changes |
| `Drone.Parrot.TurnRight` | src/parrot/parrot.py:293-297 | Appends exactly one command: the template with R = speed and every other key unchanged; nothing else changes |
| `Drone.Parrot.FlyUp` | src/parrot/parrot.py:299-303 | Appends exactly one command: the template with Z = speed and every other key unchanged; nothing else changes |
| `Drone.Parrot.FlyDown` | src/parrot/parrot.py:305-309 | Appends exactly one command: the template with Z = -speed and every other key unchanged; nothing else changes |
| `Drone.Parrot.FlyForward` | src/parrot/parrot.py:311-315 | Appends exactly one command: the template with Y = speed and every other key unchanged; nothing else changes |
| `Drone.Parrot.FlyBackward` | src/parrot/parrot.py:317-321 | Appends exactly one command: the template with Y = -speed and every other key unchanged; nothing else changes |
| `Drone.Parrot.FlyLeft` | src/parrot/parrot.py:323-327 | Appends exactly one command: the template with X = -speed and every other key unchanged; nothing else changes |
| `Drone.Parrot.FlyRight` | src/parrot/parrot.py:329-333 | Appends exactly one command: the template with X = speed and every other key unchanged; nothing else changes |
| `Drone.SuccessiveIntents` | src/parrot/parrot.py:268-291 | A left turn followed by a landing queues two commands, each built from the neutral template. The landing command carries no yaw from the turn, and the template is still neutral afterwards |

## Left out

- Threads and blocking queue reads: `init_remote`, `init_receiver`, `get_image`, `get_navdata`
  and `get_cmd` (src/parrot/parrot.py:77-118, 237-259) are thread start-up and blocking
  `get` calls. `init_camera` and `init_controller` are kept only for their effect on the
  object's fields, with the first frame as a parameter.
- Queue capacity: the outgoing queue is created with capacity one, and `put` with default
  arguments blocks while it is full. It does not overwrite the pending item. The model keeps
  every command put, in order, and says nothing about when the controller thread takes them.
- `json.dumps`: the encoding of a command to JSON text is a library call; the model keeps
  the record. Python floats are modelled as `real`: a speed is only ever negated, never
  rounded. `-0.0` and `0.0` are the same value here, although JSON writes them differently.
- `init_feature_extract` and the extractor internals (optical flow, Hough transform, Laws
  masks, command and telemetry histories, `cv2.resize`): foreign numeric code. Each
  extractor is a parameter mapping a grid position to that window's feature row.
- `Drone.Parrot.GetVisualFeatures`: the extractor for a window depends only on the grid
  position. The optical-flow extractor keeps state from one call to the next, and that
  state is not modelled.
- `Drone.Parrot.GetVisualFeatures`: the source asserts that the three extractors exist.
  The model has no extractor fields, so those checks are not stated.
- `camera.Camera.get_windows` (the pixel rectangles of each window, with the overlap) lives
  in a module that is not part of this model. The window geometry is not modelled, only
  the order of the visit.
- `get_visual_features` as written stops with an `AttributeError` at line 190 (`np.arrary`),
  before the loop runs. The model gives the loop that follows.
- The final stacking and transpose (src/parrot/parrot.py:219-224) are not modelled. They
  stack vertically the three feature matrices, whose widths may differ.
- `Drone.Parrot.GetVisualFeatures`: numpy's `vstack` fails on rows of different widths.
  The model appends such rows without failing. `StackRowsPositiveWidth` and
  `StackRowsZeroWidth` state the result for extractors of fixed width.
- `check_remote` (src/parrot/parrot.py:153-172): it depends on thread liveness, and it
  catches `Queue.empty`, which is not the exception class `Queue.Empty`.
- `change_camera` (src/parrot/parrot.py:335-339): it reads `self.fly.default_cmd`, which
  does not exist, so every call raises `AttributeError`. No intended camera override is
  modelled.
- `get_nav_features` (src/parrot/parrot.py:226-235) only returns `None`. `_test_parrot` and
  the script entry point are file, GUI and debugger I/O.
- The CamShift constructor is opaque: the tracker is recorded as the frame and corners it
  was seeded with. The code does not reject a degenerate box (both corners equal), and
  neither does the model.
- `ParrotError` is never raised by the modelled code and is not modelled.
