/** spotmicro/motion_controller/motion_controller.py: the older motion
    controller. It owns its two boards and twelve leg servos itself, reads
    every event as a dictionary, and only sends abort-queue tokens and writes
    three hard-coded postures. Its board and servo attributes are held here in
    an object of the setup class's shape, whose board, servo and write
    operations behave as this file's code does. */
module LegacyMotionController {
  import opened Common
  import opened Platform
  import opened MotionControllerSetup
  import MotionController

  /** An event dictionary. Buttons are Python booleans, which compare and
      test as the numbers 0 and 1, so every value is a number. */
  type LEvent = map<string, real>

  // ------------------------------------------------------------ postures

  /** `rest_position`. */
  const Rest: map<Joint, int> := map[
    RearShoulderLeft := 0, RearLegLeft := 75, RearFeetLeft := 30,
    RearShoulderRight := 102, RearLegRight := 120, RearFeetRight := 160,
    FrontShoulderLeft := 105, FrontLegLeft := 65, FrontFeetLeft := 40,
    FrontShoulderRight := 105, FrontLegRight := 140, FrontFeetRight := 165]

  /** `move_forward`. */
  const Forward: map<Joint, int> := map[
    RearShoulderLeft := 85 + 20, RearLegLeft := 75 + 20, RearFeetLeft := 30 + 20,
    RearShoulderRight := 102 - 20, RearLegRight := 120 - 20, RearFeetRight := 160 - 20,
    FrontShoulderLeft := 105 + 20, FrontLegLeft := 65 + 20, FrontFeetLeft := 40 + 20,
    FrontShoulderRight := 105 - 20, FrontLegRight := 140 - 20, FrontFeetRight := 165 - 20]

  /** `move_backwards`. */
  const Backwards: map<Joint, int> := map[
    RearShoulderLeft := 85 + 20, RearLegLeft := 75 + 20, RearFeetLeft := 30 + 20,
    RearShoulderRight := 102 - 20, RearLegRight := 120 - 20, RearFeetRight := 160 - 20,
    FrontShoulderLeft := 105 + 20, FrontLegLeft := 65 + 20, FrontFeetLeft := 40 + 20,
    FrontShoulderRight := 105 - 20, FrontLegRight := 140 - 20, FrontFeetRight := 165 - 20]

  /** Each posture gives an angle to exactly the twelve leg joints. */
  lemma PosturesCoverTheLegs(j: Joint)
    ensures j in Rest <==> j in LegOrder
    ensures j in Forward <==> j in LegOrder
    ensures j in Backwards <==> j in LegOrder
  {
    LegOrderIsTheLegs(j);
  }

  /** Walking forward and backwards assign the same angle to every servo,
      and neither is the rest posture. */
  lemma ForwardIsBackwards()
    ensures Forward == Backwards
    ensures Forward != Rest && Forward[RearShoulderLeft] == 105 && Rest[RearShoulderLeft] == 0
  {
    forall j ensures (j in Forward <==> j in Backwards) && (j in Forward ==> Forward[j] == Backwards[j]) {
      PosturesCoverTheLegs(j);
    }
    assert Forward[RearShoulderLeft] != Rest[RearShoulderLeft];
  }

  /** The twelve assignments of a posture, in source order. */
  function WritePose(d: Dev, p: map<Joint, int>, rig: Rig): DevRes {
    WriteRun(d, LegOrder, Angles(p), false, rig)
  }

  /** A posture completes exactly when the twelve servos exist and accept
      their angles; it then writes those twelve angles in order, and each
      servo reads back its angle. */
  lemma WritePoseSpec(d: Dev, p: map<Joint, int>, rig: Rig)
    requires forall j :: j in LegOrder ==> j in p
    ensures var r := WritePose(d, p, rig);
      r.dev.setup == d.setup &&
      (r.out == Ok <==> forall j :: j in LegOrder ==> j in d.setup.servo && rig.accepts(j, Some(p[j]))) &&
      (r.out.Raised? ==> r.out.exc == AttributeError || r.out.exc == ValueError) &&
      (r.out == Ok ==>
         r.dev.hw.log == d.hw.log + Written(LegOrder, Angles(p)) &&
         forall j :: j in LegOrder ==> ReadBack(r.dev.hw, j) == Some(p[j]))
  {
    assert Distinct(LegOrder);
    UnguardedRun(d, LegOrder, Angles(p), rig);
    PoseRaises(d, LegOrder, p, rig);
  }

  lemma {:induction false} PoseRaises(d: Dev, js: seq<Joint>, p: map<Joint, int>, rig: Rig)
    requires forall j :: j in js ==> j in p
    ensures var r := WriteRun(d, js, Angles(p), false, rig);
      r.out.Raised? ==> r.out.exc == AttributeError || r.out.exc == ValueError
    decreases |js|
  {
    if js != [] {
      var r := WriteStep(d, js[0], Angles(p), false, rig);
      if r.out.Ok? {
        PoseRaises(r.dev, js[1..], p, rig);
      }
    }
  }

  // ---------------------------------------------------------- event diff

  /** The `event_diff` the loop computes: empty when there is no previous
      event; otherwise the entries of the event whose values differ from the
      previous event's, or KeyError when the previous event lacks one of the
      event's keys. */
  function EventDiff(e: LEvent, prev: LEvent): Result<LEvent> {
    if prev == map[] then Success(map[])
    else if !(e.Keys <= prev.Keys) then Failure(KeyError)
    else Success(map k | k in e && e[k] != prev[k] :: e[k])
  }

  /** The `for key in event` loop, over the keys in any order. */
  method ComputeEventDiff(e: LEvent, prev: LEvent) returns (r: Result<LEvent>)
    ensures r == EventDiff(e, prev)
  {
    if prev == map[] {
      return Success(map[]);
    }
    var diff: LEvent := map[];
    var todo := e.Keys;
    while todo != {}
      invariant todo <= e.Keys
      invariant forall k :: k in e && k !in todo ==> k in prev
      invariant forall k :: k in diff <==> k in e && k !in todo && e[k] != prev[k]
      invariant forall k :: k in diff ==> diff[k] == e[k]
      decreases todo
    {
      var k :| k in todo;
      if k !in prev {
        return Failure(KeyError);
      }
      if e[k] != prev[k] {
        diff := diff[k := e[k]];
      }
      todo := todo - {k};
    }
    assert e.Keys <= prev.Keys;
    assert diff == map k | k in e && e[k] != prev[k] :: e[k];
    return Success(diff);
  }

  /** The diff patches the previous event into the current one: on every key
      of the event, the previous event updated with the diff agrees with the
      event, and the diff holds no entry that was already equal. */
  lemma DiffPatches(e: LEvent, prev: LEvent)
    requires prev != map[] && EventDiff(e, prev).Success?
    ensures var d := EventDiff(e, prev).value;
      d.Keys <= e.Keys &&
      (forall k :: k in e ==> k in prev + d && (prev + d)[k] == e[k]) &&
      (forall k :: k in d ==> prev[k] != d[k])
  {
  }

  /** The diff is empty when there is no previous event, and for a repeated
      event; it fails exactly when the previous event lacks one of the keys. */
  lemma DiffCases(e: LEvent, prev: LEvent)
    ensures prev == map[] ==> EventDiff(e, prev) == Success(map[])
    ensures prev != map[] ==> (EventDiff(e, prev).Failure? <==> exists k :: k in e && k !in prev)
    ensures e != map[] ==> EventDiff(e, e) == Success(map[])
  {
    if e != map[] {
      var m := EventDiff(e, e).value;
      assert m.Keys == {};
    }
  }

  // ------------------------------------------------------------ dispatch

  datatype Sign = Below | Above

  /** The condition of one `if` of the loop body: `event[key]`, or
      `event[first] < 0 or event[second] < 0` (or `> 0`), which reads the
      second key only when the first test fails. */
  datatype Cond = Pressed(key: string) | Either(first: string, second: string, sign: Sign)

  /** What the `if` does: put a token on the abort queue, assign a posture,
      or only print. */
  datatype Body = Send(command: AbortCommand) | Posture(angles: map<Joint, int>) | Report

  function Holds(v: real, s: Sign): bool {
    if s == Below then v < 0.0 else v > 0.0
  }

  function Eval(e: LEvent, c: Cond): Result<bool> {
    match c
    case Pressed(k) => if k in e then Success(e[k] != 0.0) else Failure(KeyError)
    case Either(k1, k2, s) =>
      if k1 !in e then Failure(KeyError)
      else if Holds(e[k1], s) then Success(true)
      else if k2 !in e then Failure(KeyError)
      else Success(Holds(e[k2], s))
  }

  /** The `if` statements of the loop body, in source order. */
  const Table: seq<(Cond, Body)> := [
    (Pressed("start"), Send(ActivateServos)),
    (Pressed("y"), Send(Abort)),
    (Pressed("a"), Posture(Rest)),
    (Pressed("b"), Report),
    (Either("ly", "hat0y", Below), Posture(Forward)),
    (Either("ly", "hat0y", Above), Posture(Backwards)),
    (Either("lx", "hat0x", Above), Report),
    (Either("lx", "hat0x", Below), Report)]

  function Exec(d: Dev, b: Body, rig: Rig): DevRes {
    match b
    case Send(c) => DevRes(d.(hw := d.hw.(log := d.hw.log + [ToAbort(c)])), Ok)
    case Posture(p) => WritePose(d, p, rig)
    case Report => DevRes(d, Ok)
  }

  /** A run of `if` statements; the first exception, from a condition or a
      body, ends it. */
  function RunTable(d: Dev, e: LEvent, ts: seq<(Cond, Body)>, rig: Rig): DevRes
    decreases |ts|
  {
    if ts == [] then DevRes(d, Ok)
    else
      match Eval(e, ts[0].0)
      case Failure(x) => DevRes(d, Raised(x))
      case Success(c) =>
        var r := if c then Exec(d, ts[0].1, rig) else DevRes(d, Ok);
        if r.out.Raised? then r else RunTable(r.dev, e, ts[1..], rig)
  }

  lemma {:induction false} RunTableAppend(d: Dev, e: LEvent, xs: seq<(Cond, Body)>, ys: seq<(Cond, Body)>, rig: Rig)
    ensures RunTable(d, e, xs + ys, rig) ==
      var r := RunTable(d, e, xs, rig);
      if r.out.Raised? then r else RunTable(r.dev, e, ys, rig)
    decreases |xs|
  {
    if xs == [] {
      assert xs + ys == ys;
    } else {
      assert (xs + ys)[0] == xs[0];
      assert (xs + ys)[1..] == xs[1..] + ys;
      if Eval(e, xs[0].0).Success? {
        var r := if Eval(e, xs[0].0).value then Exec(d, xs[0].1, rig) else DevRes(d, Ok);
        if r.out.Ok? {
          RunTableAppend(r.dev, e, xs[1..], ys, rig);
        }
      }
    }
  }

  /** One pass of the loop body: the diff, the `if` statements, and
      `self._previous_event = event` when nothing raised. */
  function Iteration(d: Dev, prev: LEvent, e: LEvent, rig: Rig): (DevRes, LEvent) {
    match EventDiff(e, prev)
    case Failure(x) => (DevRes(d, Raised(x)), prev)
    case Success(_) =>
      var r := RunTable(d, e, Table, rig);
      (r, if r.out.Ok? then e else prev)
  }

  /** After every completed pass the previous event is that event; a pass
      that raises leaves it as it was. */
  lemma IterationRemembers(d: Dev, prev: LEvent, e: LEvent, rig: Rig)
    ensures var (r, p) := Iteration(d, prev, e, rig);
      (r.out == Ok ==> p == e) && (r.out.Raised? ==> p == prev)
  {
  }

  /** START and Y together: the activate token is put on the abort queue
      first and the abort token right after it. */
  lemma StartBeforeAbort(d: Dev, prev: LEvent, e: LEvent, rig: Rig)
    requires EventDiff(e, prev).Success?
    requires "start" in e && e["start"] != 0.0 && "y" in e && e["y"] != 0.0
    ensures var log := Iteration(d, prev, e, rig).0.dev.hw.log;
      |log| >= |d.hw.log| + 2 &&
      log[|d.hw.log|..|d.hw.log| + 2] == [ToAbort(ActivateServos), ToAbort(Abort)]
  {
    var first := Table[..2];
    assert Table == first + Table[2..];
    RunTableAppend(d, e, first, Table[2..], rig);
    assert first[1..][1..] == [];
    var d1 := Exec(d, Send(ActivateServos), rig).dev;
    var d2 := Exec(d1, Send(Abort), rig).dev;
    assert RunTable(d, e, first, rig) == RunTable(d1, e, first[1..], rig);
    assert RunTable(d1, e, first[1..], rig) == DevRes(d2, Ok);
    var r := RunTable(d, e, first, rig);
    assert r.dev.hw.log == d.hw.log + [ToAbort(ActivateServos), ToAbort(Abort)];
    TableKeepsPrefix(r.dev, e, Table[2..], rig);
  }

  lemma {:induction false} TableKeepsPrefix(d: Dev, e: LEvent, ts: seq<(Cond, Body)>, rig: Rig)
    ensures var r := RunTable(d, e, ts, rig);
      |r.dev.hw.log| >= |d.hw.log| && r.dev.hw.log[..|d.hw.log|] == d.hw.log
    decreases |ts|
  {
    if ts != [] && Eval(e, ts[0].0).Success? {
      var r := if Eval(e, ts[0].0).value then Exec(d, ts[0].1, rig) else DevRes(d, Ok);
      if ts[0].1.Posture? {
        WriteQuiet(d, LegOrder, Angles(ts[0].1.angles), rig);
      }
      if r.out.Ok? {
        TableKeepsPrefix(r.dev, e, ts[1..], rig);
        assert r.dev.hw.log[..|d.hw.log|] == d.hw.log;
      }
    }
  }

  /** `event[key]` exists and is released (0, False). */
  predicate Released(e: LEvent, k: string) {
    k in e && e[k] == 0.0
  }

  /** With the four buttons released, their `if` statements do nothing. */
  lemma ButtonsReleased(d: Dev, e: LEvent, rig: Rig)
    requires Released(e, "start") && Released(e, "y") && Released(e, "a") && Released(e, "b")
    ensures RunTable(d, e, Table[..4], rig) == DevRes(d, Ok)
  {
    var ts := Table[..4];
    RunTableSkip(d, e, ts, rig);
    RunTableSkip(d, e, ts[1..], rig);
    RunTableSkip(d, e, ts[2..], rig);
    RunTableSkip(d, e, ts[3..], rig);
    assert ts[1..][1..] == ts[2..] && ts[2..][1..] == ts[3..] && ts[3..][1..] == [];
  }

  /** A test that fails skips its body. */
  lemma RunTableSkip(d: Dev, e: LEvent, ts: seq<(Cond, Body)>, rig: Rig)
    requires ts != [] && Eval(e, ts[0].0) == Success(false)
    ensures RunTable(d, e, ts, rig) == RunTable(d, e, ts[1..], rig)
  {
  }

  /** With lx and hat0x at 0, the two spin tests only read. */
  lemma SpinsReleased(d: Dev, e: LEvent, rig: Rig)
    requires Released(e, "lx") && Released(e, "hat0x")
    ensures RunTable(d, e, Table[6..], rig) == DevRes(d, Ok)
  {
    var ts := Table[6..];
    RunTableSkip(d, e, ts, rig);
    RunTableSkip(d, e, ts[1..], rig);
    assert ts[1..][1..] == [];
  }

  /** ly pushed up and hat0y pushed down satisfy both movement tests. */
  lemma BothMoves(d: Dev, e: LEvent, rig: Rig)
    requires "ly" in e && e["ly"] < 0.0 && "hat0y" in e && e["hat0y"] > 0.0
    ensures RunTable(d, e, Table[4..6], rig) ==
      var r := WritePose(d, Forward, rig);
      if r.out.Raised? then r else WritePose(r.dev, Backwards, rig)
  {
    var ts := Table[4..6];
    assert ts[0] == (Either("ly", "hat0y", Below), Posture(Forward));
    assert ts[1..][0] == (Either("ly", "hat0y", Above), Posture(Backwards));
    assert ts[1..][1..] == [];
    assert Eval(e, ts[0].0) == Success(true);
    assert Eval(e, ts[1..][0].0) == Success(true);
    var r := WritePose(d, Forward, rig);
    if r.out.Ok? {
      assert RunTable(d, e, ts, rig) == RunTable(r.dev, e, ts[1..], rig);
    }
  }

  /** An event that is released apart from ly pushed up (negative) and hat0y
      pushed down (positive) moves forward and then backwards: two full
      posture writes, forward first. */
  lemma ForwardThenBackwards(d: Dev, prev: LEvent, e: LEvent, rig: Rig)
    requires EventDiff(e, prev).Success?
    requires Released(e, "start") && Released(e, "y") && Released(e, "a") && Released(e, "b")
    requires Released(e, "lx") && Released(e, "hat0x")
    requires "ly" in e && e["ly"] < 0.0 && "hat0y" in e && e["hat0y"] > 0.0
    requires forall j :: j in LegOrder ==> j in d.setup.servo && rig.accepts(j, Some(Forward[j]))
    ensures var r := Iteration(d, prev, e, rig).0;
      r.out == Ok &&
      r.dev.hw.log == d.hw.log + Written(LegOrder, Angles(Forward)) + Written(LegOrder, Angles(Backwards))
  {
    forall j | j in LegOrder ensures j in Forward {
      PosturesCoverTheLegs(j);
    }
    ForwardIsBackwards();
    assert Table == Table[..4] + (Table[4..6] + Table[6..]);
    RunTableAppend(d, e, Table[..4], Table[4..6] + Table[6..], rig);
    ButtonsReleased(d, e, rig);
    RunTableAppend(d, e, Table[4..6], Table[6..], rig);
    BothMoves(d, e, rig);
    WritePoseSpec(d, Forward, rig);
    var r1 := WritePose(d, Forward, rig);
    WritePoseSpec(r1.dev, Backwards, rig);
    var r2 := WritePose(r1.dev, Backwards, rig);
    SpinsReleased(r2.dev, e, rig);
  }

  // -------------------------------------------------------- the finally

  /** The `finally` block: board 1 is always deinitialised; board 2 only
      when two boards were detected, and only if board 1's `deinit()`
      returned. */
  function Finally(d: Dev, boards: int, rig: Rig): DevRes {
    var d1 := d.(hw := d.hw.(log := d.hw.log + [Deinit(Board1)]));
    if !rig.deinits(Board1) then DevRes(d1, Raised(DeinitError(Board1)))
    else if boards != 2 then DevRes(d1, Ok)
    else
      DevRes(d1.(hw := d1.hw.(log := d1.hw.log + [Deinit(Board2)])),
             if rig.deinits(Board2) then Ok else Raised(DeinitError(Board2)))
  }

  lemma FinallySpec(d: Dev, boards: int, rig: Rig)
    ensures var r := Finally(d, boards, rig);
      r.dev.setup == d.setup && r.dev.hw.readback == d.hw.readback &&
      |r.dev.hw.log| >= |d.hw.log| + 1 &&
      r.dev.hw.log[..|d.hw.log| + 1] == d.hw.log + [Deinit(Board1)] &&
      (Deinit(Board2) in r.dev.hw.log[|d.hw.log|..] <==> boards == 2 && rig.deinits(Board1)) &&
      (r.out == Ok <==> rig.deinits(Board1) && (boards == 2 ==> rig.deinits(Board2)))
  {
    var r := Finally(d, boards, rig);
    if boards == 2 && rig.deinits(Board1) {
      assert r.dev.hw.log[|d.hw.log|..] == [Deinit(Board1), Deinit(Board2)];
    } else {
      assert r.dev.hw.log[|d.hw.log|..] == [Deinit(Board1)];
    }
  }

  // ------------------------------------------------------------ the loop

  /** Where the loop stands after some receives: the exception that ended
      it, if any (the `finally` has then run), and what escaped
      `do_process_events_from_queues` (only a `deinit()` failure does). */
  datatype Ended = Ended(dev: Dev, prev: LEvent, cause: Option<Exc>, out: Outcome)

  /** The blocking loop over a finite prefix of the events; every exception
      ends it, being caught only by the outer `except Exception`. */
  function Run(d: Dev, prev: LEvent, evs: seq<LEvent>, boards: int, rig: Rig): Ended
    decreases |evs|
  {
    if evs == [] then Ended(d, prev, None, Ok)
    else
      var (r, p) := Iteration(d, prev, evs[0], rig);
      if r.out.Raised? then
        var f := Finally(r.dev, boards, rig);
        Ended(f.dev, p, Some(r.out.exc), f.out)
      else Run(r.dev, p, evs[1..], boards, rig)
  }

  /** An event lacking a key the loop reads ends the loop, and the boards
      are then deinitialised. */
  lemma MissingKeyEndsLoop(d: Dev, prev: LEvent, e: LEvent, evs: seq<LEvent>, boards: int, rig: Rig)
    requires "start" !in e
    ensures var s := Run(d, prev, [e] + evs, boards, rig);
      s.cause == Some(KeyError) && s.prev == prev &&
      s.dev.hw.log == Finally(d, boards, rig).dev.hw.log
  {
    assert ([e] + evs)[0] == e;
  }

  // ------------------------------------------------- the constructor

  datatype InitRes = InitRes(dev: Dev, boards: int, out: Outcome)

  /** Any exception inside `__init__` lands in its handler, whose first
      statement reads `self._lcd_screen_queue`: that attribute is assigned
      only after the last statement that can raise, so the handler itself
      raises AttributeError and no token is sent. */
  function Failed(d: Dev, boards: int): InitRes {
    InitRes(d, boards, Raised(AttributeError))
  }

  function LegacyHandle(b: BoardId, bc: BoardConfig): Handle
    requires bc.address.Some? && bc.clock.Some? && bc.frequency.Some?
  {
    Handle(b, bc.address.value, bc.clock.value, bc.frequency.value)
  }

  function WithBoard(d: Dev, b: BoardId, h: Handle): Dev {
    Dev(Hw(d.hw.log + [Opened(h)], d.hw.readback), WithHandle(d.setup, b, Some(h)))
  }

  /** Board 1 always; board 2 when its configured address is not 0, and
      only then is `boards` set to 2. */
  function OpenBoards(d: Dev, cfg: Config, rig: Rig): InitRes {
    var bc1 := cfg.board1;
    var bc2 := cfg.board2;
    if !(bc1.address.Some? && bc1.clock.Some? && bc1.frequency.Some?) || !rig.opens(Board1) then Failed(d, 1)
    else
      var d1 := WithBoard(d, Board1, LegacyHandle(Board1, bc1));
      if bc2.address.None? then Failed(d1, 1)
      else if bc2.address.value == 0 then InitRes(d1, 1, Ok)
      else if !(bc2.clock.Some? && bc2.frequency.Some?) || !rig.opens(Board2) then Failed(d1, 1)
      else InitRes(WithBoard(d1, Board2, LegacyHandle(Board2, bc2)), 2, Ok)
  }

  /** The two tokens sent after a completed setup. */
  function InitTokens(cfg: Config): seq<Effect>
    requires cfg.board2.address.Some?
  {
    [ToLcd(MotionController.StatusToken(Board1, true)),
     ToLcd(MotionController.StatusToken(Board2, cfg.board2.address.value != 0))]
  }

  /** `__init__`: the boards, the twelve servo blocks, the rest position,
      then the status tokens. */
  function LegacyInit(d: Dev, env: Env): InitRes {
    var o := OpenBoards(d, env.cfg, env.rig);
    if o.out.Raised? then o else ServoSetup(o.dev, o.boards, env)
  }

  /** What follows the boards: the servo blocks, the rest position and the
      tokens. */
  function ServoSetup(d: Dev, boards: int, env: Env): InitRes
    requires env.cfg.board2.address.Some?
  {
    var b := BindAll(d, LegOrder, env.cfg);
    if b.out.Raised? then Failed(b.dev, boards)
    else
      var w := WritePose(b.dev, Rest, env.rig);
      if w.out.Raised? then Failed(w.dev, boards)
      else InitRes(w.dev.(hw := w.dev.hw.(log := w.dev.hw.log + InitTokens(env.cfg))), boards, Ok)
  }

  /** Two boards are used exactly when board 2's address is not 0, and the
      tokens then report both boards OK; with one board they report board 1
      OK and board 2 NOK. */
  lemma InitBoardsAndTokens(d: Dev, env: Env)
    requires d.setup.pca2.None?
    ensures var r := LegacyInit(d, env);
      r.out == Ok ==>
        env.cfg.board2.address.Some? &&
        (r.boards == 2 <==> env.cfg.board2.address.value != 0) &&
        (r.dev.setup.pca2.Some? <==> r.boards == 2) &&
        r.dev.setup.pca1 == Some(LegacyHandle(Board1, env.cfg.board1)) &&
        |r.dev.hw.log| >= 2 &&
        r.dev.hw.log[|r.dev.hw.log| - 2..] ==
          if r.boards == 2 then [ToLcd("motion_controller_1 OK"), ToLcd("motion_controller_2 OK")]
          else [ToLcd("motion_controller_1 OK"), ToLcd("motion_controller_2 NOK")]
  {
    var o := OpenBoards(d, env.cfg, env.rig);
    if o.out.Ok? {
      var b := BindAll(o.dev, LegOrder, env.cfg);
      BindAllSpec(o.dev, LegOrder, env.cfg);
      var w := WritePose(b.dev, Rest, env.rig);
      forall j | j in LegOrder ensures j in Rest {
        PosturesCoverTheLegs(j);
      }
      WritePoseSpec(b.dev, Rest, env.rig);
    }
  }

  /** A setup that raises sends no status token at all, and what escapes
      `__init__` is the handler's AttributeError. */
  lemma InitFailureIsSilent(d: Dev, env: Env)
    ensures var r := LegacyInit(d, env);
      r.out.Raised? ==> r.out == Raised(AttributeError) && Quiet(d.hw.log, r.dev.hw.log)
  {
    var o := OpenBoards(d, env.cfg, env.rig);
    OpenQuiet(d, env.cfg, env.rig);
    if o.out.Ok? {
      var b := BindAll(o.dev, LegOrder, env.cfg);
      BindQuiet(o.dev, LegOrder, env.cfg);
      QuietTrans(d.hw.log, o.dev.hw.log, b.dev.hw.log);
      if b.out.Ok? {
        var w := WritePose(b.dev, Rest, env.rig);
        WriteQuiet(b.dev, LegOrder, Angles(Rest), env.rig);
        QuietTrans(d.hw.log, b.dev.hw.log, w.dev.hw.log);
      }
    }
  }

  /** `after` extends `before` with no token for the LCD queue. */
  predicate Quiet(before: seq<Effect>, after: seq<Effect>) {
    |after| >= |before| && after[..|before|] == before &&
    forall i :: |before| <= i < |after| ==> !after[i].ToLcd?
  }

  lemma QuietTrans(a: seq<Effect>, b: seq<Effect>, c: seq<Effect>)
    requires Quiet(a, b) && Quiet(b, c)
    ensures Quiet(a, c)
  {
    assert c[..|a|] == c[..|b|][..|a|];
  }

  lemma OpenQuiet(d: Dev, cfg: Config, rig: Rig)
    ensures Quiet(d.hw.log, OpenBoards(d, cfg, rig).dev.hw.log)
  {
    var o := OpenBoards(d, cfg, rig);
    assert o.dev.hw.log == d.hw.log || (exists h :: o.dev.hw.log == d.hw.log + [Opened(h)]) ||
      exists h1, h2 :: o.dev.hw.log == d.hw.log + [Opened(h1)] + [Opened(h2)];
  }

  lemma {:induction false} BindQuiet(d: Dev, js: seq<Joint>, cfg: Config)
    ensures Quiet(d.hw.log, BindAll(d, js, cfg).dev.hw.log)
    decreases |js|
  {
    if js != [] {
      var r := BindOne(d, js[0], cfg);
      if r.out.Ok? {
        BindQuiet(r.dev, js[1..], cfg);
        QuietTrans(d.hw.log, r.dev.hw.log, BindAll(r.dev, js[1..], cfg).dev.hw.log);
      }
    }
  }

  lemma {:induction false} WriteQuiet(d: Dev, js: seq<Joint>, t: Targets, rig: Rig)
    ensures Quiet(d.hw.log, WriteRun(d, js, t, false, rig).dev.hw.log)
    decreases |js|
  {
    if js != [] {
      var r := WriteStep(d, js[0], t, false, rig);
      assert Quiet(d.hw.log, r.dev.hw.log);
      if r.out.Ok? {
        WriteQuiet(r.dev, js[1..], t, rig);
        QuietTrans(d.hw.log, r.dev.hw.log, WriteRun(r.dev, js[1..], t, false, rig).dev.hw.log);
      }
    }
  }

  // ------------------------------------------------------------ the class

  class LegacyController {
    /** The `pca9685_1/2` and `servo_*` attributes and the hardware. */
    const setup: MotionControllerSetup
    var boards: int
    var previousEvent: LEvent
    /** What escaped `__init__`; the object is only usable when Ok. */
    var initOutcome: Outcome

    function Device(): Dev
      reads setup, setup.bus
    {
      setup.Device()
    }

    constructor (setup: MotionControllerSetup)
      modifies setup, setup.bus
      ensures this.setup == setup
      ensures InitRes(setup.Device(), boards, initOutcome) == LegacyInit(old(setup.Device()), setup.bus.env)
      ensures previousEvent == map[]
    {
      this.setup := setup;
      boards := 1;
      previousEvent := map[];
      initOutcome := Ok;
      new;
      var out := OpenPca9685Boards();
      if out.Raised? {
        initOutcome := out;
        return;
      }
      initOutcome := SetUpServos();
    }

    /** The servo blocks, `rest_position()` and the two tokens. */
    method SetUpServos() returns (out: Outcome)
      requires setup.bus.env.cfg.board2.address.Some?
      modifies setup, setup.bus
      ensures InitRes(Device(), boards, out) == ServoSetup(old(Device()), boards, setup.bus.env)
    {
      out := setup.BindLegServos();
      if out.Raised? {
        return Raised(AttributeError);
      }
      out := RestPosition();
      if out.Raised? {
        return Raised(AttributeError);
      }
      var addr2 := setup.bus.env.cfg.board2.address.value;
      setup.bus.Emit(ToLcd(MotionController.StatusToken(Board1, true)));
      setup.bus.Emit(ToLcd(MotionController.StatusToken(Board2, addr2 != 0)));
    }

    /** One `PCA9685(...)` with its frequency. */
    method OpenBoard(b: BoardId, h: Handle)
      modifies setup, setup.bus
      ensures Device() == WithBoard(old(Device()), b, h)
    {
      setup.SetHandle(b, Some(h));
      setup.bus.Emit(Opened(h));
    }

    /** The board part of `__init__`. */
    method OpenPca9685Boards() returns (out: Outcome)
      modifies this, setup, setup.bus
      ensures InitRes(Device(), boards, out) == OpenBoards(old(Device()), setup.bus.env.cfg, setup.bus.env.rig)
      ensures previousEvent == old(previousEvent) && initOutcome == old(initOutcome)
    {
      var cfg := setup.bus.env.cfg;
      var rig := setup.bus.env.rig;
      var bc1, bc2 := cfg.board1, cfg.board2;
      boards := 1;
      if !(bc1.address.Some? && bc1.clock.Some? && bc1.frequency.Some?) || !rig.opens(Board1) {
        return Raised(AttributeError);
      }
      OpenBoard(Board1, LegacyHandle(Board1, bc1));
      if bc2.address.None? {
        return Raised(AttributeError);
      }
      if bc2.address.value != 0 {
        if !(bc2.clock.Some? && bc2.frequency.Some?) || !rig.opens(Board2) {
          return Raised(AttributeError);
        }
        OpenBoard(Board2, LegacyHandle(Board2, bc2));
        boards := 2;
      }
      out := Ok;
    }

    method RestPosition() returns (out: Outcome)
      modifies setup.bus
      ensures DevRes(Device(), out) == WritePose(old(Device()), Rest, setup.bus.env.rig)
    {
      out := setup.WriteLegs(Angles(Rest), false);
    }

    method MoveForward() returns (out: Outcome)
      modifies setup.bus
      ensures DevRes(Device(), out) == WritePose(old(Device()), Forward, setup.bus.env.rig)
    {
      out := setup.WriteLegs(Angles(Forward), false);
    }

    method MoveBackwards() returns (out: Outcome)
      modifies setup.bus
      ensures DevRes(Device(), out) == WritePose(old(Device()), Backwards, setup.bus.env.rig)
    {
      out := setup.WriteLegs(Angles(Backwards), false);
    }

    method Activate()
      modifies setup.bus
      ensures DevRes(Device(), Ok) == Exec(old(Device()), Send(ActivateServos), setup.bus.env.rig)
    {
      setup.bus.Emit(ToAbort(ActivateServos));
    }

    method SendAbort()
      modifies setup.bus
      ensures DevRes(Device(), Ok) == Exec(old(Device()), Send(Abort), setup.bus.env.rig)
    {
      setup.bus.Emit(ToAbort(Abort));
    }

    /** One `if` of the loop body, seen as the head of the rest. */
    method Guard(e: LEvent, c: Cond, b: Body, ghost rest: seq<(Cond, Body)>) returns (out: Outcome)
      requires rest != [] && rest[0] == (c, b)
      modifies setup.bus
      ensures out.Raised? ==> RunTable(old(Device()), e, rest, setup.bus.env.rig) == DevRes(Device(), out)
      ensures out.Ok? ==> RunTable(old(Device()), e, rest, setup.bus.env.rig) == RunTable(Device(), e, rest[1..], setup.bus.env.rig)
    {
      var v := Eval(e, c);
      if v.Failure? {
        return Raised(v.exc);
      }
      out := Ok;
      if v.value {
        match b
        case Send(cmd) =>
          if cmd == ActivateServos { Activate(); } else { SendAbort(); }
        case Posture(p) =>
          out := setup.WriteLegs(Angles(p), false);
        case Report =>
      }
    }

    /** The buttons: start, y, a, b. */
    method Buttons(e: LEvent) returns (out: Outcome)
      modifies setup.bus
      ensures out.Raised? ==> RunTable(old(Device()), e, Table, setup.bus.env.rig) == DevRes(Device(), out)
      ensures out.Ok? ==> RunTable(old(Device()), e, Table, setup.bus.env.rig) == RunTable(Device(), e, Table[4..], setup.bus.env.rig)
    {
      ghost var rest := Table;
      out := Guard(e, Pressed("start"), Send(ActivateServos), rest); if out.Raised? { return; } rest := rest[1..];
      out := Guard(e, Pressed("y"), Send(Abort), rest); if out.Raised? { return; } rest := rest[1..];
      out := Guard(e, Pressed("a"), Posture(Rest), rest); if out.Raised? { return; } rest := rest[1..];
      out := Guard(e, Pressed("b"), Report, rest); if out.Raised? { return; } rest := rest[1..];
      assert rest == Table[4..];
    }

    /** The axes: forward, backwards, and the two spins that only print. */
    method Axes(e: LEvent) returns (out: Outcome)
      modifies setup.bus
      ensures DevRes(Device(), out) == RunTable(old(Device()), e, Table[4..], setup.bus.env.rig)
    {
      ghost var rest := Table[4..];
      out := Guard(e, Either("ly", "hat0y", Below), Posture(Forward), rest); if out.Raised? { return; } rest := rest[1..];
      out := Guard(e, Either("ly", "hat0y", Above), Posture(Backwards), rest); if out.Raised? { return; } rest := rest[1..];
      out := Guard(e, Either("lx", "hat0x", Above), Report, rest); if out.Raised? { return; } rest := rest[1..];
      out := Guard(e, Either("lx", "hat0x", Below), Report, rest); if out.Raised? { return; } rest := rest[1..];
      assert rest == [];
    }

    /** One pass of the loop body. */
    method ProcessEvent(e: LEvent) returns (out: Outcome)
      modifies this, setup.bus
      ensures (DevRes(Device(), out), previousEvent) == Iteration(old(Device()), old(previousEvent), e, setup.bus.env.rig)
      ensures boards == old(boards) && initOutcome == old(initOutcome)
    {
      var diff := ComputeEventDiff(e, previousEvent);
      if diff.Failure? {
        return Raised(diff.exc);
      }
      out := Buttons(e);
      if out.Raised? { return; }
      out := Axes(e);
      if out.Raised? { return; }
      previousEvent := e;
    }

    /** The `finally` block. */
    method DeinitBoards() returns (out: Outcome)
      modifies setup.bus
      ensures DevRes(Device(), out) == Finally(old(Device()), boards, setup.bus.env.rig)
    {
      out := setup.bus.DeinitBoard(Board1);
      if out.Raised? { return; }
      if boards == 2 {
        out := setup.bus.DeinitBoard(Board2);
      }
    }

    /** `do_process_events_from_queues` over the given events: it goes on
        until they are used up or an exception ends the loop. */
    method DoProcessEventsFromQueues(events: seq<LEvent>) returns (cause: Option<Exc>, out: Outcome)
      modifies this, setup.bus
      ensures Ended(Device(), previousEvent, cause, out) ==
        Run(old(Device()), old(previousEvent), events, boards, setup.bus.env.rig)
      ensures boards == old(boards)
    {
      var i := 0;
      cause, out := None, Ok;
      while i < |events| && cause.None?
        invariant 0 <= i <= |events| && boards == old(boards)
        invariant cause.None? ==> out == Ok
        invariant Run(old(Device()), old(previousEvent), events, boards, setup.bus.env.rig) ==
          if cause.Some? then Ended(Device(), previousEvent, cause, out)
          else Run(Device(), previousEvent, events[i..], boards, setup.bus.env.rig)
        decreases |events| - i
      {
        assert events[i..][1..] == events[i + 1..];
        var r := ProcessEvent(events[i]);
        if r.Raised? {
          cause := Some(r.exc);
          out := DeinitBoards();
        }
        i := i + 1;
      }
      if cause.None? {
        assert events[i..] == [];
      }
    }
  }
}
