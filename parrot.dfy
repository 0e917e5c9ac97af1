/** The Parrot class: the state of one AR Parrot 2.0 drone connection, the
    pilot-intent builders that queue commands for the controller thread, the
    seeding of the tracker, and the window loop of visual feature extraction.
    The threads behind the queues are not part of this model: a queue is the
    sequence of items that went through it. */
module Drone {
  import opened Wrappers
  import Cmd = Commands
  import opened Tracking
  import opened WindowGrid

  /** A telemetry sample as delivered by the receiver thread; this model never
      looks inside it. */
  type NavData = map<string, real>

  /** The per-window feature stacks of the three visual extractors: optical
      flow, Hough transform and Laws texture masks. */
  datatype VisualFeatures = VisualFeatures(flow: seq<seq<real>>, hough: seq<seq<real>>, laws: seq<seq<real>>)

  /** The three feature stacks after visiting the windows `ws`. */
  function FeaturesOf(flow: GridPos -> seq<real>, hough: GridPos -> seq<real>,
                      laws: GridPos -> seq<real>, ws: seq<GridPos>): VisualFeatures
  {
    VisualFeatures(StackRows(Extract(flow, ws)), StackRows(Extract(hough, ws)), StackRows(Extract(laws, ws)))
  }

  /** Visiting one more window stacks one more row onto each stack. */
  lemma FeaturesStep(flow: GridPos -> seq<real>, hough: GridPos -> seq<real>,
                     laws: GridPos -> seq<real>, ws: seq<GridPos>, w: GridPos)
    ensures FeaturesOf(flow, hough, laws, ws + [w]) ==
      var f := FeaturesOf(flow, hough, laws, ws);
      VisualFeatures(VStack(f.flow, flow(w)), VStack(f.hough, hough(w)), VStack(f.laws, laws(w)))
  {
  }

  /** Stacking the features of window (r, c) onto those of `done` and the
      first c windows of row r gives the features of the first c + 1. */
  lemma RowFeaturesStep(flow: GridPos -> seq<real>, hough: GridPos -> seq<real>,
                        laws: GridPos -> seq<real>, done: seq<GridPos>, r: nat, c: nat)
    ensures var f := FeaturesOf(flow, hough, laws, done + RowOf(r, c));
      var w := GridPos(r, c);
      FeaturesOf(flow, hough, laws, done + RowOf(r, c + 1)) ==
      VisualFeatures(VStack(f.flow, flow(w)), VStack(f.hough, hough(w)), VStack(f.laws, laws(w)))
  {
    RowStep(done, r, c);
    FeaturesStep(flow, hough, laws, done + RowOf(r, c), GridPos(r, c));
  }

  /** The inner loop of the feature loop: visits the `cols` windows of row
      `r`, stacking their features onto `acc`, the features of `done`. */
  method VisitRow(flow: GridPos -> seq<real>, hough: GridPos -> seq<real>,
                  laws: GridPos -> seq<real>, ghost done: seq<GridPos>, r: nat, cols: nat,
                  acc: VisualFeatures)
    returns (feats: VisualFeatures)
    requires acc == FeaturesOf(flow, hough, laws, done)
    ensures feats == FeaturesOf(flow, hough, laws, done + RowOf(r, cols))
  {
    feats := acc;
    var c := 0;
    assert done + RowOf(r, 0) == done;
    while c < cols
      invariant c <= cols
      invariant feats == FeaturesOf(flow, hough, laws, done + RowOf(r, c))
    {
      var w := GridPos(r, c);
      feats := VisualFeatures(VStack(feats.flow, flow(w)), VStack(feats.hough, hough(w)),
                              VStack(feats.laws, laws(w)));
      RowFeaturesStep(flow, hough, laws, done, r, c);
      c := c + 1;
    }
  }

  class Parrot {
    /** The neutral template every intent builder copies. */
    var defaultCmd: Cmd.Command
    var address: string
    /** Port per channel name: NAVDATA, VIDEO, CMD. */
    var ports: map<string, int>
    /** Camera id per camera name: FRONT, BOTTOM, CUSTOM. */
    var cameras: map<string, int>
    var activeCamera: int
    /** The window grid as (columns, rows). */
    var windowSize: (nat, nat)
    var overlap: real
    /** The latest frame, absent until the camera is initialised. */
    var image: Option<Frame>
    var navdata: Option<NavData>
    var tracking: Option<Tracker>
    /** Whether the outgoing command queue exists (it is created when the
        controller is initialised). */
    var controllerStarted: bool
    /** Every command put on the outgoing queue, oldest first. */
    var cmdQueue: seq<Cmd.Command>

    constructor ()
      ensures defaultCmd == Cmd.Neutral
      ensures defaultCmd.X == 0.0 && defaultCmd.Y == 0.0 && defaultCmd.Z == 0.0 && defaultCmd.R == 0.0
      ensures defaultCmd.C == 0 && !defaultCmd.T && !defaultCmd.L && !defaultCmd.S
      ensures address == "192.168.1.1"
      ensures ports == map["NAVDATA" := 5554, "VIDEO" := 5555, "CMD" := 5556]
      ensures cameras == map["FRONT" := 0, "BOTTOM" := 3, "CUSTOM" := 4]
      ensures "FRONT" in cameras && activeCamera == cameras["FRONT"] == 0
      ensures windowSize == (15, 7) && overlap == 0.5
      ensures image == None && navdata == None && tracking == None
      ensures !controllerStarted && cmdQueue == []
    {
      defaultCmd := Cmd.Command(0.0, 0.0, 0.0, 0.0, 0, false, false, false);
      address := "192.168.1.1";
      ports := map["NAVDATA" := 5554, "VIDEO" := 5555, "CMD" := 5556];
      cameras := map["FRONT" := 0, "BOTTOM" := 3, "CUSTOM" := 4];
      activeCamera := 0;
      windowSize := (15, 7);
      overlap := 0.5;
      image := None;
      navdata := None;
      tracking := None;
      controllerStarted := false;
      cmdQueue := [];
    }

    /** Creates a fresh, empty outgoing command queue (the controller thread
        that drains it is not modelled). */
    method InitController()
      modifies this`controllerStarted, this`cmdQueue
      ensures controllerStarted && cmdQueue == []
    {
      controllerStarted := true;
      cmdQueue := [];
    }

    /** Stores the first frame the camera thread delivers (the thread itself
        is not modelled; the frame is a parameter). */
    method InitCamera(first: Frame)
      modifies this`image
      ensures image == Some(first)
    {
      image := Some(first);
    }

    /** Seeds the tracker from the current frame and a bounding box; returns
        the error raised, if any. A malformed box raises and leaves the tracker
        as it was. */
    method InitTracking(box: Option<seq<Point>>) returns (raised: Option<BoxError>)
      requires image.Some?
      modifies this`tracking
      ensures raised.None? <==> CheckBox(box).Success?
      ensures raised.Some? ==> raised == Some(BoundingBoxError) && tracking == old(tracking)
      ensures raised.None? ==>
                tracking == Some(CamShift(image.value, box.value[0], box.value[1])) &&
                |box.value[0]| == 2 && |box.value[1]| == 2
    {
      var checked := CheckBox(box);
      if checked.Failure? {
        return Some(checked.error);
      }
      tracking := Some(CamShift(image.value, box.value[0], box.value[1]));
      raised := None;
    }

    /** The rows each extractor produces, window by window, over the grid of
        the current frame. The extractors are parameters: each maps a grid
        position to the feature row of that window. Returns the three feature
        stacks; the ghost `visits` records the windows in visit order. */
    method GetVisualFeatures(flow: GridPos -> seq<real>, hough: GridPos -> seq<real>,
                             laws: GridPos -> seq<real>)
      returns (ghost visits: seq<GridPos>, feats: VisualFeatures)
      requires image.Some?
      ensures visits == VisitOrder(windowSize.1, windowSize.0)
      ensures feats == FeaturesOf(flow, hough, laws, VisitOrder(windowSize.1, windowSize.0))
    {
      var rows, cols := windowSize.1, windowSize.0;
      feats := VisualFeatures([], [], []);
      visits := [];
      var r := 0;
      while r < rows
        invariant r <= rows
        invariant visits == VisitOrder(r, cols)
        invariant feats == FeaturesOf(flow, hough, laws, visits)
      {
        feats := VisitRow(flow, hough, laws, visits, r, cols, feats);
        visits := visits + RowOf(r, cols);
        r := r + 1;
      }
    }

    /** Queues `cmd` unchanged. */
    method SendCmd(cmd: Cmd.Command)
      requires controllerStarted
      modifies this`cmdQueue
      ensures cmdQueue == old(cmdQueue) + [cmd]
    {
      cmdQueue := cmdQueue + [cmd];
    }

    method Land()
      requires controllerStarted
      modifies this`cmdQueue
      ensures cmdQueue == old(cmdQueue) + [Cmd.Build(defaultCmd, Cmd.Land)]
      ensures cmdQueue[|cmdQueue| - 1].L
      ensures Cmd.AgreeExcept(cmdQueue[|cmdQueue| - 1], defaultCmd, Cmd.KeyL)
    {
      var cmd := defaultCmd;
      cmd := cmd.(L := true);
      cmdQueue := cmdQueue + [cmd];
    }

    method Takeoff()
      requires controllerStarted
      modifies this`cmdQueue
      ensures cmdQueue == old(cmdQueue) + [Cmd.Build(defaultCmd, Cmd.Takeoff)]
      ensures cmdQueue[|cmdQueue| - 1].T
      ensures Cmd.AgreeExcept(cmdQueue[|cmdQueue| - 1], defaultCmd, Cmd.KeyT)
    {
      var cmd := defaultCmd;
      cmd := cmd.(T := true);
      cmdQueue := cmdQueue + [cmd];
    }

    method Stop()
      requires controllerStarted
      modifies this`cmdQueue
      ensures cmdQueue == old(cmdQueue) + [Cmd.Build(defaultCmd, Cmd.Stop)]
      ensures cmdQueue[|cmdQueue| - 1].S
      ensures Cmd.AgreeExcept(cmdQueue[|cmdQueue| - 1], defaultCmd, Cmd.KeyS)
    {
      var cmd := defaultCmd;
      cmd := cmd.(S := true);
      cmdQueue := cmdQueue + [cmd];
    }

    method TurnLeft(speed: real)
      requires controllerStarted
      modifies this`cmdQueue
      ensures cmdQueue == old(cmdQueue) + [Cmd.Build(defaultCmd, Cmd.TurnLeft(speed))]
      ensures cmdQueue[|cmdQueue| - 1].R == -speed
      ensures Cmd.AgreeExcept(cmdQueue[|cmdQueue| - 1], defaultCmd, Cmd.KeyR)
    {
      var cmd := defaultCmd;
      cmd := cmd.(R := -speed);
      cmdQueue := cmdQueue + [cmd];
    }

    method TurnRight(speed: real)
      requires controllerStarted
      modifies this`cmdQueue
      ensures cmdQueue == old(cmdQueue) + [Cmd.Build(defaultCmd, Cmd.TurnRight(speed))]
      ensures cmdQueue[|cmdQueue| - 1].R == speed
      ensures Cmd.AgreeExcept(cmdQueue[|cmdQueue| - 1], defaultCmd, Cmd.KeyR)
    {
      var cmd := defaultCmd;
      cmd := cmd.(R := speed);
      cmdQueue := cmdQueue + [cmd];
    }

    method FlyUp(speed: real)
      requires controllerStarted
      modifies this`cmdQueue
      ensures cmdQueue == old(cmdQueue) + [Cmd.Build(defaultCmd, Cmd.FlyUp(speed))]
      ensures cmdQueue[|cmdQueue| - 1].Z == speed
      ensures Cmd.AgreeExcept(cmdQueue[|cmdQueue| - 1], defaultCmd, Cmd.KeyZ)
    {
      var cmd := defaultCmd;
      cmd := cmd.(Z := speed);
      cmdQueue := cmdQueue + [cmd];
    }

    method FlyDown(speed: real)
      requires controllerStarted
      modifies this`cmdQueue
      ensures cmdQueue == old(cmdQueue) + [Cmd.Build(defaultCmd, Cmd.FlyDown(speed))]
      ensures cmdQueue[|cmdQueue| - 1].Z == -speed
      ensures Cmd.AgreeExcept(cmdQueue[|cmdQueue| - 1], defaultCmd, Cmd.KeyZ)
    {
      var cmd := defaultCmd;
      cmd := cmd.(Z := -speed);
      cmdQueue := cmdQueue + [cmd];
    }

    method FlyForward(speed: real)
      requires controllerStarted
      modifies this`cmdQueue
      ensures cmdQueue == old(cmdQueue) + [Cmd.Build(defaultCmd, Cmd.FlyForward(speed))]
      ensures cmdQueue[|cmdQueue| - 1].Y == speed
      ensures Cmd.AgreeExcept(cmdQueue[|cmdQueue| - 1], defaultCmd, Cmd.KeyY)
    {
      var cmd := defaultCmd;
      cmd := cmd.(Y := speed);
      cmdQueue := cmdQueue + [cmd];
    }

    method FlyBackward(speed: real)
      requires controllerStarted
      modifies this`cmdQueue
      ensures cmdQueue == old(cmdQueue) + [Cmd.Build(defaultCmd, Cmd.FlyBackward(speed))]
      ensures cmdQueue[|cmdQueue| - 1].Y == -speed
      ensures Cmd.AgreeExcept(cmdQueue[|cmdQueue| - 1], defaultCmd, Cmd.KeyY)
    {
      var cmd := defaultCmd;
      cmd := cmd.(Y := -speed);
      cmdQueue := cmdQueue + [cmd];
    }

    method FlyLeft(speed: real)
      requires controllerStarted
      modifies this`cmdQueue
      ensures cmdQueue == old(cmdQueue) + [Cmd.Build(defaultCmd, Cmd.FlyLeft(speed))]
      ensures cmdQueue[|cmdQueue| - 1].X == -speed
      ensures Cmd.AgreeExcept(cmdQueue[|cmdQueue| - 1], defaultCmd, Cmd.KeyX)
    {
      var cmd := defaultCmd;
      cmd := cmd.(X := -speed);
      cmdQueue := cmdQueue + [cmd];
    }

    method FlyRight(speed: real)
      requires controllerStarted
      modifies this`cmdQueue
      ensures cmdQueue == old(cmdQueue) + [Cmd.Build(defaultCmd, Cmd.FlyRight(speed))]
      ensures cmdQueue[|cmdQueue| - 1].X == speed
      ensures Cmd.AgreeExcept(cmdQueue[|cmdQueue| - 1], defaultCmd, Cmd.KeyX)
    {
      var cmd := defaultCmd;
      cmd := cmd.(X := speed);
      cmdQueue := cmdQueue + [cmd];
    }
  }

  /** Two successive intents on a fresh drone: the second command is built
      from the untouched neutral template, so nothing of the first (here the
      left turn) carries over into it. */
  method SuccessiveIntents(p: Parrot, s: real)
    requires p.controllerStarted && p.defaultCmd == Cmd.Neutral
    modifies p`cmdQueue
    ensures p.cmdQueue == old(p.cmdQueue) + [Cmd.Build(Cmd.Neutral, Cmd.TurnLeft(s)), Cmd.Build(Cmd.Neutral, Cmd.Land)]
    ensures p.defaultCmd == Cmd.Neutral
    ensures p.cmdQueue[|p.cmdQueue| - 1] == Cmd.Command(0.0, 0.0, 0.0, 0.0, 0, false, true, false)
  {
    p.TurnLeft(s);
    p.Land();
  }
}
