/** The command record sent to the drone and the intent builders that fill it.

    A command is the eight-key dictionary that the Parrot class serialises
    and hands to its controller: the speeds X (lateral), Y (longitudinal),
    Z (vertical) and R (yaw rate), the camera id C, and the takeoff, land and
    emergency-stop flags T, L and S. */
module Commands {

  datatype Command = Command(X: real, Y: real, Z: real, R: real, C: int, T: bool, L: bool, S: bool)

  /** The neutral template: every speed 0.0, camera 0, every flag false. */
  const Neutral: Command := Command(0.0, 0.0, 0.0, 0.0, 0, false, false, false)

  /** The keys of the command dictionary. */
  datatype Key = KeyX | KeyY | KeyZ | KeyR | KeyC | KeyT | KeyL | KeyS

  /** A dictionary value: a float speed, an integer camera id or a boolean flag. */
  datatype Value = FloatVal(f: real) | IntVal(i: int) | BoolVal(b: bool)

  /** Dictionary lookup `cmd[k]`: the four speeds are floats, the camera id
      is an integer, the three flags are booleans. */
  function Get(cmd: Command, k: Key): (v: Value)
    ensures v.FloatVal? <==> k == KeyX || k == KeyY || k == KeyZ || k == KeyR
    ensures v.IntVal? <==> k == KeyC
    ensures v.BoolVal? <==> k == KeyT || k == KeyL || k == KeyS
  {
    match k
    case KeyX => FloatVal(cmd.X)
    case KeyY => FloatVal(cmd.Y)
    case KeyZ => FloatVal(cmd.Z)
    case KeyR => FloatVal(cmd.R)
    case KeyC => IntVal(cmd.C)
    case KeyT => BoolVal(cmd.T)
    case KeyL => BoolVal(cmd.L)
    case KeyS => BoolVal(cmd.S)
  }

  /** `a` and `b` hold the same value under every key other than `k`. */
  predicate AgreeExcept(a: Command, b: Command, k: Key)
  {
    forall k' :: k' != k ==> Get(a, k') == Get(b, k')
  }

  /** Every key of the neutral template holds its neutral value: 0.0 for a
      speed, camera 0, false for a flag. */
  lemma NeutralValues()
    ensures forall k :: Get(Neutral, k).FloatVal? ==> Get(Neutral, k) == FloatVal(0.0)
    ensures Get(Neutral, KeyC) == IntVal(0)
    ensures forall k :: Get(Neutral, k).BoolVal? ==> Get(Neutral, k) == BoolVal(false)
  {
  }

  /** The eight keys determine a command: two commands with the same value
      under every key are the same command. */
  lemma KeysDetermineCommand(a: Command, b: Command)
    requires forall k :: Get(a, k) == Get(b, k)
    ensures a == b
  {
    assert Get(a, KeyX) == Get(b, KeyX) && Get(a, KeyY) == Get(b, KeyY);
    assert Get(a, KeyZ) == Get(b, KeyZ) && Get(a, KeyR) == Get(b, KeyR);
    assert Get(a, KeyC) == Get(b, KeyC) && Get(a, KeyT) == Get(b, KeyT);
    assert Get(a, KeyL) == Get(b, KeyL) && Get(a, KeyS) == Get(b, KeyS);
  }

  /** The pilot intents of the Parrot class, one per builder method. */
  datatype Intent =
    | Land
    | Takeoff
    | Stop
    | TurnLeft(speed: real)
    | TurnRight(speed: real)
    | FlyUp(speed: real)
    | FlyDown(speed: real)
    | FlyForward(speed: real)
    | FlyBackward(speed: real)
    | FlyLeft(speed: real)
    | FlyRight(speed: real)

  /** The one key an intent overrides. */
  function KeyOf(i: Intent): Key
  {
    match i
    case Land => KeyL
    case Takeoff => KeyT
    case Stop => KeyS
    case TurnLeft(_) => KeyR
    case TurnRight(_) => KeyR
    case FlyUp(_) => KeyZ
    case FlyDown(_) => KeyZ
    case FlyForward(_) => KeyY
    case FlyBackward(_) => KeyY
    case FlyLeft(_) => KeyX
    case FlyRight(_) => KeyX
  }

  /** The value an intent stores under its key: `True` for the three actions,
      the speed for right, up, forward and right turns, the negated speed for
      their opposites. */
  function ValueOf(i: Intent): Value
  {
    match i
    case Land => BoolVal(true)
    case Takeoff => BoolVal(true)
    case Stop => BoolVal(true)
    case TurnLeft(s) => FloatVal(-s)
    case TurnRight(s) => FloatVal(s)
    case FlyUp(s) => FloatVal(s)
    case FlyDown(s) => FloatVal(-s)
    case FlyForward(s) => FloatVal(s)
    case FlyBackward(s) => FloatVal(-s)
    case FlyLeft(s) => FloatVal(-s)
    case FlyRight(s) => FloatVal(s)
  }

  /** A copy of `template` with the intent's one key overridden: the command
      every builder method of the Parrot class enqueues. */
  function Build(template: Command, i: Intent): (cmd: Command)
    ensures Get(cmd, KeyOf(i)) == ValueOf(i)
    ensures AgreeExcept(cmd, template, KeyOf(i))
  {
    match i
    case Land => template.(L := true)
    case Takeoff => template.(T := true)
    case Stop => template.(S := true)
    case TurnLeft(s) => template.(R := -s)
    case TurnRight(s) => template.(R := s)
    case FlyUp(s) => template.(Z := s)
    case FlyDown(s) => template.(Z := -s)
    case FlyForward(s) => template.(Y := s)
    case FlyBackward(s) => template.(Y := -s)
    case FlyLeft(s) => template.(X := -s)
    case FlyRight(s) => template.(X := s)
  }

  /** "The template except one key" pins the command down: any command that
      agrees with the template off the intent's key and holds the intent's
      value on it is the built command. */
  lemma BuildUnique(template: Command, i: Intent, cmd: Command)
    requires Get(cmd, KeyOf(i)) == ValueOf(i)
    requires AgreeExcept(cmd, template, KeyOf(i))
    ensures cmd == Build(template, i)
  {
    var b := Build(template, i);
    forall k ensures Get(cmd, k) == Get(b, k) {
      if k != KeyOf(i) {
        assert Get(cmd, k) == Get(template, k) == Get(b, k);
      }
    }
    KeysDetermineCommand(cmd, b);
  }

  /** Opposite intents store opposite values under the same key. */
  lemma OppositeIntents(template: Command, s: real)
    ensures Build(template, TurnLeft(s)).R == -Build(template, TurnRight(s)).R
    ensures Build(template, FlyDown(s)).Z == -Build(template, FlyUp(s)).Z
    ensures Build(template, FlyBackward(s)).Y == -Build(template, FlyForward(s)).Y
    ensures Build(template, FlyLeft(s)).X == -Build(template, FlyRight(s)).X
  {
  }

  /** From the neutral template, the three actions raise exactly their own
      flag: every speed stays 0.0, the camera stays 0, the other flags stay
      false. */
  lemma ActionsFromNeutral()
    ensures Build(Neutral, Land) == Command(0.0, 0.0, 0.0, 0.0, 0, false, true, false)
    ensures Build(Neutral, Takeoff) == Command(0.0, 0.0, 0.0, 0.0, 0, true, false, false)
    ensures Build(Neutral, Stop) == Command(0.0, 0.0, 0.0, 0.0, 0, false, false, true)
  {
  }

  /** From the neutral template, a movement intent sets exactly its own speed
      (signed by the intent) and leaves everything else neutral. */
  lemma MovesFromNeutral(s: real)
    ensures Build(Neutral, TurnLeft(s)) == Command(0.0, 0.0, 0.0, -s, 0, false, false, false)
    ensures Build(Neutral, TurnRight(s)) == Command(0.0, 0.0, 0.0, s, 0, false, false, false)
    ensures Build(Neutral, FlyUp(s)) == Command(0.0, 0.0, s, 0.0, 0, false, false, false)
    ensures Build(Neutral, FlyDown(s)) == Command(0.0, 0.0, -s, 0.0, 0, false, false, false)
    ensures Build(Neutral, FlyForward(s)) == Command(0.0, s, 0.0, 0.0, 0, false, false, false)
    ensures Build(Neutral, FlyBackward(s)) == Command(0.0, -s, 0.0, 0.0, 0, false, false, false)
    ensures Build(Neutral, FlyLeft(s)) == Command(-s, 0.0, 0.0, 0.0, 0, false, false, false)
    ensures Build(Neutral, FlyRight(s)) == Command(s, 0.0, 0.0, 0.0, 0, false, false, false)
  {
  }

  /** A builder never touches the camera id: it keeps the template's. */
  lemma BuildKeepsCamera(template: Command, i: Intent)
    ensures Build(template, i).C == template.C
  {
  }
}
