/** The motion controller's event loop: a two-state machine on
    `is_activated` that turns controller events into abort-queue tokens,
    board (de)activation and the leg and arm primitives, in a fixed order. A
    receive from the motion queue is an `Option<Event>`: None is the queue's
    60-second timeout. */
module MotionController {
  import opened Common
  import opened Platform
  import opened MotionControllerSetup
  import opened LegsMoves
  import opened ArmMoves

  /** One event from the remote controller: the buttons and the axes the
      loop reads. An axis counts as pressed when it is non-zero. */
  datatype Event = Event(
    start: bool, a: bool, b: bool, x: bool, y: bool, tl: bool, tr: bool, tl2: bool,
    hat0x: real, hat0y: real, lx: real, ly: real, rx: real, ry: real)

  /** Everything the loop acts on: the legs' fields together with the setup
      object and the hardware, and the activation flag. */
  datatype World = World(legs: Legs, activated: bool)

  /** The world after one receive, and whether an exception escaped the loop. */
  datatype Step = Step(world: World, crashed: bool)

  // ------------------------------------------------------------ actions

  /** The primitives the loop calls on the moves objects. */
  datatype Action =
    | RestAll                       // legs rest_position, then arm rest_position
    | UpDownBy(raw: real)
    | LeftRightBy(raw: real)
    | UpDownAnalogBy(raw: real)
    | LeftRightAnalogBy(raw: real)
    | Pose(posture: Posture)
    | SetRotation(raw: real)
    | SetLift(raw: real)
    | SetRange(raw: real)
    | SetCamTilt(raw: real)
    | MoveLegs
    | MoveArm

  /** An arm primitive's result, seen from the legs' view of the world. */
  function OnDev(l: Legs, r: DevRes): LegsRes {
    LegsRes(l.(dev := r.dev), r.out)
  }

  /** The legs' rest position (which only assigns attributes of the setup
      object) followed by the arm's rest position. */
  function RestBoth(l: Legs, env: Env): LegsRes {
    var l1 := AssignRest(l, env.cfg);
    OnDev(l1, ArmRest(l1.dev, env))
  }

  function Perform(l: Legs, act: Action, env: Env): LegsRes {
    match act
    case RestAll => RestBoth(l, env)
    case UpDownBy(raw) => UpDown(l, raw, env.cfg)
    case LeftRightBy(raw) => LeftRight(l, raw, env.cfg)
    case UpDownAnalogBy(raw) => LegsRes(l.(angle := UpDownAnalog(l.angle, raw, env)), Ok)
    case LeftRightAnalogBy(raw) => LegsRes(l.(angle := LeftRightAnalog(l.angle, raw, env.maprange)), Ok)
    case Pose(p) => WritePosture(l, p, env.rig)
    case SetRotation(raw) => OnDev(l, WriteIfChanged(l.dev, ArmRotation, RotationTarget(raw, env.maprange), env.rig))
    case SetLift(raw) => OnDev(l, WriteIfChanged(l.dev, ArmLift, ReversedTarget(raw, env.maprange), env.rig))
    case SetRange(raw) => OnDev(l, WriteIfChanged(l.dev, ArmRange, ReversedTarget(raw, env.maprange), env.rig))
    case SetCamTilt(raw) => OnDev(l, SetTilt(l.dev, TiltTarget(raw, env.maprange)))
    case MoveLegs => LegsMove(l, env.rig)
    case MoveArm => OnDev(l, ArmMove(l.dev, env))
  }

  /** Actions in order; the first exception ends the run. */
  function RunActions(l: Legs, acts: seq<Action>, env: Env): LegsRes
    decreases |acts|
  {
    if acts == [] then LegsRes(l, Ok)
    else
      var r := Perform(l, acts[0], env);
      if r.out.Raised? then r else RunActions(r.legs, acts[1..], env)
  }

  // ----------------------------------------------------------- dispatch

  /** The dispatch part of an iteration as the source writes it: one `if`
      per entry, in this order, and then the two `move()` calls. The
      `hat0x and tl2` entry does nothing and is not listed. */
  function Triggers(e: Event): seq<(bool, Action)> {
    [(e.a, RestAll), (e.hat0y != 0.0, UpDownBy(e.hat0y)), (e.hat0x != 0.0, LeftRightBy(e.hat0x)),
     (e.ry != 0.0, UpDownAnalogBy(e.ry)), (e.rx != 0.0, LeftRightAnalogBy(e.rx)), (e.y, Pose(Standing)),
     (e.b, Pose(PositionRight)), (e.x, Pose(PositionLeft)), (e.tl, SetRotation(e.lx)),
     (e.tl, SetLift(e.ly)), (e.tr, SetRange(e.ly)), (e.tr, SetCamTilt(e.ry)),
     (true, MoveLegs), (true, MoveArm)]
  }

  /** A run of `if c: action` statements, stopping at the first exception. */
  function RunGuarded(l: Legs, gs: seq<(bool, Action)>, env: Env): LegsRes
    decreases |gs|
  {
    if gs == [] then LegsRes(l, Ok)
    else
      var r := if gs[0].0 then Perform(l, gs[0].1, env) else LegsRes(l, Ok);
      if r.out.Raised? then r else RunGuarded(r.legs, gs[1..], env)
  }

  /** The actions whose condition holds, in order. */
  function Fired(gs: seq<(bool, Action)>): seq<Action>
    decreases |gs|
  {
    if gs == [] then [] else (if gs[0].0 then [gs[0].1] else []) + Fired(gs[1..])
  }

  /** The dispatch does exactly the actions whose condition holds, in order. */
  lemma {:induction false} RunGuardedFired(l: Legs, gs: seq<(bool, Action)>, env: Env)
    ensures RunGuarded(l, gs, env) == RunActions(l, Fired(gs), env)
    decreases |gs|
  {
    if gs != [] {
      var r := if gs[0].0 then Perform(l, gs[0].1, env) else LegsRes(l, Ok);
      if r.out.Ok? {
        RunGuardedFired(r.legs, gs[1..], env);
      }
      if gs[0].0 {
        var f := Fired(gs);
        assert f == [gs[0].1] + Fired(gs[1..]);
        assert f != [] && f[0] == gs[0].1 && f[1..] == Fired(gs[1..]);
        assert RunActions(l, f, env) ==
          if r.out.Raised? then r else RunActions(r.legs, Fired(gs[1..]), env);
      } else {
        assert Fired(gs) == [] + Fired(gs[1..]) == Fired(gs[1..]);
      }
    }
  }

  /** The position of an action in the dispatch order. */
  function Rank(act: Action): nat {
    match act
    case RestAll => 0
    case UpDownBy(_) => 1
    case LeftRightBy(_) => 2
    case UpDownAnalogBy(_) => 3
    case LeftRightAnalogBy(_) => 4
    case Pose(p) => if p == Standing then 5 else if p == PositionRight then 6 else 7
    case SetRotation(_) => 8
    case SetLift(_) => 9
    case SetRange(_) => 10
    case SetCamTilt(_) => 11
    case MoveLegs => 12
    case MoveArm => 13
  }

  /** Entry `i` of the run holds an action of rank `offset + i`. */
  predicate RankedAt(gs: seq<(bool, Action)>, offset: nat) {
    forall i :: 0 <= i < |gs| ==> Rank(gs[i].1) == offset + i
  }

  predicate Increasing(acts: seq<Action>) {
    forall i, k :: 0 <= i < k < |acts| ==> Rank(acts[i]) < Rank(acts[k])
  }

  lemma RankedTail(gs: seq<(bool, Action)>, offset: nat)
    requires gs != [] && RankedAt(gs, offset)
    ensures RankedAt(gs[1..], offset + 1)
  {
    forall i | 0 <= i < |gs[1..]| ensures Rank(gs[1..][i].1) == offset + 1 + i {
      assert gs[1..][i] == gs[i + 1];
    }
  }

  /** Filtering a run ranked by position keeps the ranks increasing and
      within the run's range. */
  lemma {:induction false} FiredIncreasing(gs: seq<(bool, Action)>, offset: nat)
    requires RankedAt(gs, offset)
    ensures Increasing(Fired(gs))
    ensures forall act :: act in Fired(gs) ==> offset <= Rank(act) < offset + |gs|
    decreases |gs|
  {
    if gs != [] {
      RankedTail(gs, offset);
      FiredIncreasing(gs[1..], offset + 1);
      var head := if gs[0].0 then [gs[0].1] else [];
      assert Fired(gs) == head + Fired(gs[1..]);
    }
  }

  /** In a run ranked by position, an action is kept exactly when the entry
      at its rank holds it with a true condition. */
  lemma {:induction false} FiredMember(gs: seq<(bool, Action)>, offset: nat, act: Action)
    requires RankedAt(gs, offset)
    ensures act in Fired(gs) <==>
      offset <= Rank(act) < offset + |gs| && gs[Rank(act) - offset] == (true, act)
    decreases |gs|
  {
    if gs != [] {
      RankedTail(gs, offset);
      FiredMember(gs[1..], offset + 1, act);
      FiredIncreasing(gs[1..], offset + 1);
      var head := if gs[0].0 then [gs[0].1] else [];
      assert Fired(gs) == head + Fired(gs[1..]);
      if offset + 1 <= Rank(act) < offset + |gs| {
        assert gs[1..][Rank(act) - (offset + 1)] == gs[Rank(act) - offset];
      }
    }
  }

  /** Every entry of the dispatch table sits at its action's rank. */
  lemma TriggersRanked(e: Event)
    ensures |Triggers(e)| == 14 && RankedAt(Triggers(e), 0)
  {
    var gs := Triggers(e);
    forall i | 0 <= i < 14 ensures Rank(gs[i].1) == i {
      if i < 7 {
        if i == 0 {} else if i == 1 {} else if i == 2 {} else if i == 3 {}
        else if i == 4 {} else if i == 5 {} else {}
      } else {
        if i == 7 {} else if i == 8 {} else if i == 9 {} else if i == 10 {}
        else if i == 11 {} else if i == 12 {} else {}
      }
    }
  }

  /** The dispatch order is fixed: whatever the buttons, the actions that
      run do so in the order a, hat0y, hat0x, ry, rx, y, b, x, tl, tr. */
  lemma DispatchIncreasing(e: Event)
    ensures Increasing(Fired(Triggers(e)))
    ensures forall act :: act in Fired(Triggers(e)) ==> Rank(act) < 14
  {
    TriggersRanked(e);
    FiredIncreasing(Triggers(e), 0);
  }

  /** Which actions an event fires: each button or axis its own primitive,
      with the raw value the source passes. The buttons and axes that move
      the body: */
  lemma DispatchBodyMembers(e: Event)
    ensures RestAll in Fired(Triggers(e)) <==> e.a
    ensures forall raw :: UpDownBy(raw) in Fired(Triggers(e)) <==> e.hat0y != 0.0 && raw == e.hat0y
    ensures forall raw :: LeftRightBy(raw) in Fired(Triggers(e)) <==> e.hat0x != 0.0 && raw == e.hat0x
  {
    var gs := Triggers(e);
    TriggersRanked(e);
    FiredMember(gs, 0, RestAll);
    forall raw ensures UpDownBy(raw) in Fired(gs) <==> e.hat0y != 0.0 && raw == e.hat0y {
      FiredMember(gs, 0, UpDownBy(raw));
    }
    forall raw ensures LeftRightBy(raw) in Fired(gs) <==> e.hat0x != 0.0 && raw == e.hat0x {
      FiredMember(gs, 0, LeftRightBy(raw));
    }
  }

  /** The analog axes: */
  lemma DispatchAnalogMembers(e: Event)
    ensures forall raw :: UpDownAnalogBy(raw) in Fired(Triggers(e)) <==> e.ry != 0.0 && raw == e.ry
    ensures forall raw :: LeftRightAnalogBy(raw) in Fired(Triggers(e)) <==> e.rx != 0.0 && raw == e.rx
  {
    var gs := Triggers(e);
    TriggersRanked(e);
    forall raw ensures UpDownAnalogBy(raw) in Fired(gs) <==> e.ry != 0.0 && raw == e.ry {
      FiredMember(gs, 0, UpDownAnalogBy(raw));
    }
    forall raw ensures LeftRightAnalogBy(raw) in Fired(gs) <==> e.rx != 0.0 && raw == e.rx {
      FiredMember(gs, 0, LeftRightAnalogBy(raw));
    }
  }

  /** The postures: y stands, b leans right, x leans left. */
  lemma DispatchPoseMembers(e: Event)
    ensures Pose(Standing) in Fired(Triggers(e)) <==> e.y
    ensures Pose(PositionRight) in Fired(Triggers(e)) <==> e.b
    ensures Pose(PositionLeft) in Fired(Triggers(e)) <==> e.x
  {
    var gs := Triggers(e);
    TriggersRanked(e);
    FiredMember(gs, 0, Pose(Standing));
    FiredMember(gs, 0, Pose(PositionRight));
    FiredMember(gs, 0, Pose(PositionLeft));
  }

  /** The arm: tl sets rotation from lx and lift from ly, tr sets range
      from ly and the cam tilt from ry. */
  lemma DispatchArmMembers(e: Event)
    ensures forall raw :: SetRotation(raw) in Fired(Triggers(e)) <==> e.tl && raw == e.lx
    ensures forall raw :: SetLift(raw) in Fired(Triggers(e)) <==> e.tl && raw == e.ly
  {
    var gs := Triggers(e);
    TriggersRanked(e);
    forall raw ensures SetRotation(raw) in Fired(gs) <==> e.tl && raw == e.lx {
      FiredMember(gs, 0, SetRotation(raw));
    }
    forall raw ensures SetLift(raw) in Fired(gs) <==> e.tl && raw == e.ly {
      FiredMember(gs, 0, SetLift(raw));
    }
  }

  lemma DispatchRangeTiltMembers(e: Event)
    ensures forall raw :: SetRange(raw) in Fired(Triggers(e)) <==> e.tr && raw == e.ly
    ensures forall raw :: SetCamTilt(raw) in Fired(Triggers(e)) <==> e.tr && raw == e.ry
  {
    var gs := Triggers(e);
    TriggersRanked(e);
    forall raw ensures SetRange(raw) in Fired(gs) <==> e.tr && raw == e.ly {
      FiredMember(gs, 0, SetRange(raw));
    }
    forall raw ensures SetCamTilt(raw) in Fired(gs) <==> e.tr && raw == e.ry {
      FiredMember(gs, 0, SetCamTilt(raw));
    }
  }

  /** Both moves are always fired. */
  lemma DispatchMovesFired(e: Event)
    ensures MoveLegs in Fired(Triggers(e)) && MoveArm in Fired(Triggers(e))
  {
    TriggersRanked(e);
    FiredMember(Triggers(e), 0, MoveLegs);
    FiredMember(Triggers(e), 0, MoveArm);
  }

  /** An increasing run of ranks below 14 that holds both moves ends with
      them. */
  lemma EndsWithMoves(f: seq<Action>)
    requires Increasing(f) && MoveLegs in f && MoveArm in f
    requires forall act :: act in f ==> Rank(act) < 14
    ensures |f| >= 2 && f[|f| - 2..] == [MoveLegs, MoveArm]
  {
    var n := |f|;
    var i :| 0 <= i < n && f[i] == MoveArm;
    var k :| 0 <= k < n && f[k] == MoveLegs;
    assert i == n - 1 by {
      assert f[n - 1] in f;
    }
    assert k == n - 2 by {
      assert f[n - 2] in f;
    }
  }

  /** The two `move()` calls close every dispatch. */
  lemma DispatchEndsWithMoves(e: Event)
    ensures var f := Fired(Triggers(e));
      |f| >= 2 && f[|f| - 2..] == [MoveLegs, MoveArm]
  {
    DispatchIncreasing(e);
    DispatchMovesFired(e);
    EndsWithMoves(Fired(Triggers(e)));
  }

  // ---------------------------------------------------------- iteration

  /** A token put on a queue the loop does not read back. */
  function Put(l: Legs, e: Effect): Legs {
    l.(dev := l.dev.(hw := l.dev.hw.(log := l.dev.hw.log + [e])))
  }

  /** Rest position for legs and arm, then `deactivate_pca9685_boards`: the
      common part of START while activated and of a timeout. */
  function Shutdown(l: Legs, env: Env): LegsRes {
    var r := RestBoth(l, env);
    if r.out.Raised? then r
    else
      var dr := Deactivate(r.legs.dev, env.rig);
      LegsRes(r.legs.(dev := dr.dev), dr.out)
  }

  /** START while activated: shut down, then the abort token. */
  function Restart(l: Legs, env: Env): LegsRes {
    var r := Shutdown(l, env);
    if r.out.Raised? then r else LegsRes(Put(r.legs, ToAbort(Abort)), Ok)
  }

  /** START while deactivated: the activate token, the boards, the servos,
      then the rest position. */
  function Activate(l: Legs, env: Env): LegsRes {
    var l1 := Put(l, ToAbort(ActivateServos));
    var l2 := l1.(dev := ActivateBoards(l1.dev, env));
    var b := BindServos(l2.dev, env.cfg);
    if b.out.Raised? then LegsRes(l2.(dev := b.dev), b.out)
    else RestBoth(l2.(dev := b.dev), env)
  }

  /** The `if event['start']` block. The flag is set before the servos are
      bound, and the activated branch never clears it. */
  function Start(w: World, env: Env): (World, Outcome) {
    var r := if w.activated then Restart(w.legs, env) else Activate(w.legs, env);
    (World(r.legs, true), r.out)
  }

  /** The `except queue.Empty` block. An exception raised inside it is not
      caught by the sibling `except Exception`, so it leaves the loop with
      the flag still set. */
  function Timeout(w: World, env: Env): Step {
    if !w.activated then Step(w, false)
    else
      var r := Shutdown(w.legs, env);
      Step(World(r.legs, r.out.Raised?), r.out.Raised?)
  }

  /** One pass of the `while True` body. An exception in the `try` block is
      caught by `except Exception` and the loop goes on from the state the
      exception left. */
  function Iterate(w: World, ev: Option<Event>, env: Env): Step {
    match ev
    case None => Timeout(w, env)
    case Some(e) =>
      var (w1, out) := if e.start then Start(w, env) else (w, Ok);
      if out.Raised? || !w1.activated then Step(w1, false)
      else Step(World(RunGuarded(w1.legs, Triggers(e), env).legs, true), false)
  }

  /** The loop over a finite prefix of the receives; it stops early only
      when an exception escapes. */
  function Run(w: World, evs: seq<Option<Event>>, env: Env): Step
    decreases |evs|
  {
    if evs == [] then Step(w, false)
    else
      var s := Iterate(w, evs[0], env);
      if s.crashed then s else Run(s.world, evs[1..], env)
  }

  // ------------------------------------------------------------ lemmas

  /** While deactivated, an event without START changes nothing at all:
      the iteration ends before the dispatch. */
  lemma DeactivatedIgnores(w: World, e: Event, env: Env)
    requires !w.activated && !e.start
    ensures Iterate(w, Some(e), env) == Step(w, false)
  {
  }

  lemma {:induction false} BindAllKeepsPrefix(d: Dev, js: seq<Joint>, cfg: Config)
    ensures var r := BindAll(d, js, cfg);
      |r.dev.hw.log| >= |d.hw.log| && r.dev.hw.log[..|d.hw.log|] == d.hw.log
    decreases |js|
  {
    if js != [] {
      var r := BindOne(d, js[0], cfg);
      if r.out.Ok? {
        BindAllKeepsPrefix(r.dev, js[1..], cfg);
        assert r.dev.hw.log[..|d.hw.log|] == d.hw.log;
      }
    }
  }

  /** Binding servos changes no setup attribute but the servo table, and
      only appends to the log. */
  lemma BindServosKeepsBoards(d: Dev, cfg: Config)
    ensures var r := BindServos(d, cfg);
      r.dev.setup == d.setup.(servo := r.dev.setup.servo) &&
      |r.dev.hw.log| >= |d.hw.log| && r.dev.hw.log[..|d.hw.log|] == d.hw.log
  {
    BindAllSpec(d, LegOrder, cfg);
    var legs := if d.setup.legsEnabled then BindAll(d, LegOrder, cfg) else DevRes(d, Ok);
    BindAllSpec(legs.dev, ArmOrder, cfg);
    BindAllKeepsPrefix(d, LegOrder, cfg);
    BindAllKeepsPrefix(legs.dev, ArmOrder, cfg);
  }

  lemma {:induction false} RunKeepsPrefix(d: Dev, js: seq<Joint>, t: Targets, guarded: bool, rig: Rig)
    ensures var r := WriteRun(d, js, t, guarded, rig);
      |r.dev.hw.log| >= |d.hw.log| && r.dev.hw.log[..|d.hw.log|] == d.hw.log
    decreases |js|
  {
    if js != [] {
      var r := WriteStep(d, js[0], t, guarded, rig);
      if r.out.Ok? {
        RunKeepsPrefix(r.dev, js[1..], t, guarded, rig);
        assert r.dev.hw.log[..|d.hw.log|] == d.hw.log;
      }
    }
  }

  /** Resting both keeps the legs' fields, sets the twelve leg rest
      attributes of the setup object, only appends to the log, and completes
      exactly when the four arm servos are bound and accept their rest
      angles. */
  lemma RestBothSpec(l: Legs, env: Env)
    ensures var r := RestBoth(l, env);
      r.legs.angle == l.angle &&
      r.legs.dev.setup == l.dev.setup.(restAttr := l.dev.setup.restAttr + LegRestAngles(env.cfg)) &&
      |r.legs.dev.hw.log| >= |l.dev.hw.log| && r.legs.dev.hw.log[..|l.dev.hw.log|] == l.dev.hw.log &&
      (r.out == Ok <==> forall j :: IsArm(j) ==>
         j in l.dev.setup.servo && env.rig.accepts(j, Some(env.cfg.servo(j).restAngle)))
  {
    var l1 := AssignRest(l, env.cfg);
    ArmRestSpec(l1.dev, env);
    RunKeepsPrefix(l1.dev, ArmOrder, Angles(RestAngles(env.cfg)), false, env.rig);
  }

  /** The boards are deactivated only after a completed rest position, and
      the shutdown completes exactly when both steps do. */
  lemma ShutdownSpec(l: Legs, env: Env)
    ensures var r := Shutdown(l, env);
      var rb := RestBoth(l, env);
      r.legs.angle == l.angle &&
      r.legs.dev.setup == l.dev.setup.(restAttr := l.dev.setup.restAttr + LegRestAngles(env.cfg)) &&
      (r.out == Ok <==> rb.out == Ok && Deactivate(rb.legs.dev, env.rig).out == Ok) &&
      (rb.out == Ok ==> r.legs.dev.hw.log == rb.legs.dev.hw.log + DeinitEffects(rb.legs.dev.setup)) &&
      (rb.out.Raised? ==> r == rb)
  {
    RestBothSpec(l, env);
  }

  /** The setup object after a completed activation, starting from the legs
      `l`: the legs' fields and the enable flags as they were; both boards
      opened as configured; the twelve leg rest attributes assigned; every
      servo of an enabled group bound as configured and every other one as
      it was. */
  ghost predicate SetUpAsConfigured(l: Legs, r: Legs, env: Env) {
    var s := l.dev.setup;
    var t := r.dev.setup;
    r.angle == l.angle &&
    t.legsEnabled == s.legsEnabled && t.armEnabled == s.armEnabled &&
    t.pca1 == NewHandle(Board1, env.cfg.board1, env.rig, s.pca1) &&
    t.pca2 == NewHandle(Board2, env.cfg.board2, env.rig, s.pca2) &&
    t.restAttr == s.restAttr + LegRestAngles(env.cfg) &&
    (forall j :: GroupEnabled(s, j) ==> j in t.servo && t.servo[j] == Binding(env.cfg.servo(j))) &&
    (forall j :: !GroupEnabled(s, j) ==>
       (j in t.servo <==> j in s.servo) && (j in s.servo ==> t.servo[j] == s.servo[j]))
  }

  /** The hardware after a completed activation: each arm servo reads back
      its rest angle, and the log holds, after what was there, the activate
      token, the board openings, the servo bindings and the four arm rest
      writes, in that order. */
  ghost predicate DrivenAsConfigured(l: Legs, r: Legs, env: Env) {
    var boards := OpenEffects(Board1, env.cfg.board1, env.rig) + OpenEffects(Board2, env.cfg.board2, env.rig);
    (forall j :: IsArm(j) ==> ReadBack(r.dev.hw, j) == Some(env.cfg.servo(j).restAngle)) &&
    r.dev.hw.log == l.dev.hw.log + [ToAbort(ActivateServos)] + boards +
      ServoBindings(l.dev.setup, env.cfg) + Written(ArmOrder, Angles(RestAngles(env.cfg)))
  }

  /** Everything a completed activation leaves behind. */
  ghost predicate ActivatedAsConfigured(l: Legs, r: Legs, env: Env) {
    SetUpAsConfigured(l, r, env) && DrivenAsConfigured(l, r, env)
  }

  /** Activation puts the activate token first, then the board opening
      effects, and keeps the legs' fields. When it completes, it has bound
      the servos, assigned the rest attributes and written the arm's rest
      position, as `ActivatedAsConfigured` says. */
  lemma ActivateSpec(l: Legs, env: Env)
    ensures var r := Activate(l, env);
      var boards := OpenEffects(Board1, env.cfg.board1, env.rig) + OpenEffects(Board2, env.cfg.board2, env.rig);
      |r.legs.dev.hw.log| >= |l.dev.hw.log| + 1 + |boards| &&
      r.legs.dev.hw.log[..|l.dev.hw.log| + 1 + |boards|] == l.dev.hw.log + [ToAbort(ActivateServos)] + boards &&
      r.legs.dev.setup.pca1 == NewHandle(Board1, env.cfg.board1, env.rig, l.dev.setup.pca1) &&
      r.legs.dev.setup.pca2 == NewHandle(Board2, env.cfg.board2, env.rig, l.dev.setup.pca2) &&
      r.legs.angle == l.angle
    ensures var r := Activate(l, env);
      r.out == Ok ==> ActivatedAsConfigured(l, r.legs, env)
  {
    ActivationOpens(l, env);
    ActivationSetsUp(l, env);
    ActivationDrives(l, env);
  }

  /** The part of an activation that holds whether or not it completes. */
  lemma ActivationOpens(l: Legs, env: Env)
    ensures var r := Activate(l, env);
      var boards := OpenEffects(Board1, env.cfg.board1, env.rig) + OpenEffects(Board2, env.cfg.board2, env.rig);
      |r.legs.dev.hw.log| >= |l.dev.hw.log| + 1 + |boards| &&
      r.legs.dev.hw.log[..|l.dev.hw.log| + 1 + |boards|] == l.dev.hw.log + [ToAbort(ActivateServos)] + boards &&
      r.legs.dev.setup.pca1 == NewHandle(Board1, env.cfg.board1, env.rig, l.dev.setup.pca1) &&
      r.legs.dev.setup.pca2 == NewHandle(Board2, env.cfg.board2, env.rig, l.dev.setup.pca2) &&
      r.legs.angle == l.angle
  {
    var l1 := Put(l, ToAbort(ActivateServos));
    var l2 := l1.(dev := ActivateBoards(l1.dev, env));
    var b := BindServos(l2.dev, env.cfg);
    BindServosKeepsBoards(l2.dev, env.cfg);
    var prefix := l.dev.hw.log + [ToAbort(ActivateServos)] +
      (OpenEffects(Board1, env.cfg.board1, env.rig) + OpenEffects(Board2, env.cfg.board2, env.rig));
    assert l2.dev.hw.log == prefix;
    if b.out.Ok? {
      RestBothSpec(l2.(dev := b.dev), env);
    }
  }

  /** The setup half of a completed activation. */
  lemma ActivationSetsUp(l: Legs, env: Env)
    ensures var r := Activate(l, env);
      r.out == Ok ==> SetUpAsConfigured(l, r.legs, env)
  {
    var l1 := Put(l, ToAbort(ActivateServos));
    var l2 := l1.(dev := ActivateBoards(l1.dev, env));
    var b := BindServos(l2.dev, env.cfg);
    if b.out.Ok? {
      BindServosKeepsBoards(l2.dev, env.cfg);
      forall j | true
        ensures GroupEnabled(l.dev.setup, j) ==>
          j in b.dev.setup.servo && b.dev.setup.servo[j] == Binding(env.cfg.servo(j))
        ensures !GroupEnabled(l.dev.setup, j) ==>
          (j in b.dev.setup.servo <==> j in l.dev.setup.servo) &&
          (j in l.dev.setup.servo ==> b.dev.setup.servo[j] == l.dev.setup.servo[j])
      {
        ActivateServosRouting(l2.dev, env.cfg, j);
      }
      RestBothSpec(l2.(dev := b.dev), env);
    }
  }

  /** The hardware half of a completed activation. */
  lemma ActivationDrives(l: Legs, env: Env)
    ensures var r := Activate(l, env);
      r.out == Ok ==> DrivenAsConfigured(l, r.legs, env)
  {
    var l1 := Put(l, ToAbort(ActivateServos));
    var l2 := l1.(dev := ActivateBoards(l1.dev, env));
    var b := BindServos(l2.dev, env.cfg);
    if b.out.Ok? {
      var boards := OpenEffects(Board1, env.cfg.board1, env.rig) + OpenEffects(Board2, env.cfg.board2, env.rig);
      assert l2.dev.hw.log == l.dev.hw.log + [ToAbort(ActivateServos)] + boards;
      assert l2.dev.setup.legsEnabled == l.dev.setup.legsEnabled;
      assert l2.dev.setup.armEnabled == l.dev.setup.armEnabled;
      BindServosLog(l2.dev, env.cfg);
      assert b.dev.hw.log == l2.dev.hw.log + ServoBindings(l.dev.setup, env.cfg);
      var l4 := AssignRest(l2.(dev := b.dev), env.cfg);
      assert l4.dev.hw == b.dev.hw;
      var a := ArmRest(l4.dev, env);
      assert Activate(l, env) == LegsRes(l4.(dev := a.dev), a.out);
      ArmRestSpec(l4.dev, env);
      ArmRestWrites(env.cfg);
    }
  }

  /** START while deactivated: the activate token goes out first, then the
      boards are opened, and the controller is activated before the servos
      are bound, so it stays activated even when binding or the rest
      position raises. When it completes, the controller is activated as
      configured. */
  lemma StartWhenDeactivated(w: World, env: Env)
    requires !w.activated
    ensures var (w1, out) := Start(w, env);
      var log := w.legs.dev.hw.log;
      var boards := OpenEffects(Board1, env.cfg.board1, env.rig) + OpenEffects(Board2, env.cfg.board2, env.rig);
      w1.activated &&
      |w1.legs.dev.hw.log| >= |log| + 1 + |boards| &&
      w1.legs.dev.hw.log[..|log| + 1 + |boards|] == log + [ToAbort(ActivateServos)] + boards &&
      w1.legs.dev.setup.pca1 == NewHandle(Board1, env.cfg.board1, env.rig, w.legs.dev.setup.pca1) &&
      w1.legs.dev.setup.pca2 == NewHandle(Board2, env.cfg.board2, env.rig, w.legs.dev.setup.pca2) &&
      w1.legs.angle == w.legs.angle
    ensures var (w1, out) := Start(w, env);
      out == Ok ==> ActivatedAsConfigured(w.legs, w1.legs, env)
  {
    ActivateSpec(w.legs, env);
  }

  /** A START that activates the controller is followed in the same pass by
      the dispatch of that event's buttons and axes on the freshly activated
      legs; an exception from the activation skips the dispatch, and the
      loop goes on with the controller activated. */
  lemma ActivationThenDispatch(w: World, e: Event, env: Env)
    requires !w.activated && e.start
    ensures var (w1, out) := Start(w, env);
      out == Ok ==>
        ActivatedAsConfigured(w.legs, w1.legs, env) &&
        Iterate(w, Some(e), env) == Step(World(RunGuarded(w1.legs, Triggers(e), env).legs, true), false)
    ensures var (w1, out) := Start(w, env);
      out.Raised? ==> Iterate(w, Some(e), env) == Step(World(w1.legs, true), false)
  {
    StartWhenDeactivated(w, env);
  }

  /** START while activated rest-positions legs and arm, deactivates the
      boards and only then sends the abort token, but leaves the controller
      activated, so the dispatch still runs in that iteration. */
  lemma StartWhenActivated(w: World, env: Env)
    requires w.activated
    ensures var (w1, out) := Start(w, env);
      var r := RestBoth(w.legs, env);
      w1.activated && w1.legs.angle == w.legs.angle &&
      (forall j :: j in LegOrder ==>
         j in w1.legs.dev.setup.restAttr && w1.legs.dev.setup.restAttr[j] == env.cfg.servo(j).restAngle) &&
      (out == Ok <==> r.out == Ok && Deactivate(r.legs.dev, env.rig).out == Ok) &&
      (out == Ok ==>
         w1.legs.dev.hw.log == r.legs.dev.hw.log + DeinitEffects(r.legs.dev.setup) + [ToAbort(Abort)])
  {
    ShutdownSpec(w.legs, env);
  }

  /** At a timeout a deactivated controller does nothing; an activated one
      rest-positions, deactivates the boards and only then clears the flag.
      If either raises, the exception ends the loop with the flag still set. */
  lemma TimeoutSpec(w: World, env: Env)
    ensures !w.activated ==> Iterate(w, None, env) == Step(w, false)
    ensures w.activated ==> var s := Iterate(w, None, env);
      var r := RestBoth(w.legs, env);
      s.world.legs.angle == w.legs.angle &&
      (s.crashed <==> s.world.activated) &&
      (!s.crashed <==> r.out == Ok && Deactivate(r.legs.dev, env.rig).out == Ok) &&
      (!s.crashed ==> s.world.legs.dev.hw.log == r.legs.dev.hw.log + DeinitEffects(r.legs.dev.setup))
  {
    ShutdownSpec(w.legs, env);
  }

  /** Only a timeout clears the flag: no event does, START included. */
  lemma EventsKeepActivation(w: World, e: Event, env: Env)
    requires w.activated || e.start
    ensures Iterate(w, Some(e), env).world.activated
  {
    if !e.start {
      var r := RunGuarded(w.legs, Triggers(e), env);
      assert Iterate(w, Some(e), env) == Step(World(r.legs, true), false);
    }
  }

  /** An event never ends the loop: whatever it raises is caught. */
  lemma EventsNeverCrash(w: World, e: Event, env: Env)
    ensures !Iterate(w, Some(e), env).crashed
  {
  }

  /** A run of receives without a timeout never stops the loop. */
  lemma {:induction false} RunWithoutTimeouts(w: World, evs: seq<Option<Event>>, env: Env)
    requires forall k :: 0 <= k < |evs| ==> evs[k].Some?
    ensures !Run(w, evs, env).crashed
    decreases |evs|
  {
    if evs != [] {
      EventsNeverCrash(w, evs[0].value, env);
      RunWithoutTimeouts(Iterate(w, evs[0], env).world, evs[1..], env);
    }
  }

  /** An activated controller stays activated through any run of events
      without a timeout. */
  lemma {:induction false} ActivatedUntilTimeout(w: World, evs: seq<Option<Event>>, env: Env)
    requires w.activated
    requires forall k :: 0 <= k < |evs| ==> evs[k].Some?
    ensures Run(w, evs, env).world.activated
    decreases |evs|
  {
    if evs != [] {
      EventsKeepActivation(w, evs[0].value, env);
      ActivatedUntilTimeout(Iterate(w, evs[0], env).world, evs[1..], env);
    }
  }

  /** A deactivated controller that never sees START changes nothing, over
      any run of receives. */
  lemma {:induction false} DeactivatedUntilStart(w: World, evs: seq<Option<Event>>, env: Env)
    requires !w.activated
    requires forall k :: 0 <= k < |evs| ==> evs[k].None? || !evs[k].value.start
    ensures Run(w, evs, env) == Step(w, false)
    decreases |evs|
  {
    if evs != [] {
      if evs[0].Some? {
        DeactivatedIgnores(w, evs[0].value, env);
      }
      DeactivatedUntilStart(w, evs[1..], env);
    }
  }

  // ------------------------------------------------------ status tokens

  /** The `motion_controller_N OK` / `NOK` token for a board. */
  function StatusToken(b: BoardId, present: bool): string {
    match b
    case Board1 => if present then "motion_controller_1 OK" else "motion_controller_1 NOK"
    case Board2 => if present then "motion_controller_2 OK" else "motion_controller_2 NOK"
  }

  /** The two tokens `__init__` puts on the LCD queue. */
  function StatusTokens(s: SetupState): seq<Effect> {
    [ToLcd(StatusToken(Board1, s.pca1.Some?)), ToLcd(StatusToken(Board2, s.pca2.Some?))]
  }

  /** Each token reports OK exactly when its board object exists, the two
      boards' tokens never coincide, and on a setup object that has not
      activated its boards both report NOK. */
  lemma StatusTokensReport(s: SetupState, cfg: Config)
    ensures StatusTokens(s)[0] == ToLcd("motion_controller_1 OK") <==> s.pca1.Some?
    ensures StatusTokens(s)[1] == ToLcd("motion_controller_2 OK") <==> s.pca2.Some?
    ensures StatusTokens(s)[0] != StatusTokens(s)[1]
    ensures StatusTokens(Initial(cfg)) ==
      [ToLcd("motion_controller_1 NOK"), ToLcd("motion_controller_2 NOK")]
  {
    var t1 := StatusToken(Board1, s.pca1.Some?);
    var t2 := StatusToken(Board2, s.pca2.Some?);
    assert t1[18] == '1' && t2[18] == '2';
    if s.pca1.None? {
      assert |t1| != |"motion_controller_1 OK"|;
    }
    if s.pca2.None? {
      assert |t2| != |"motion_controller_2 OK"|;
    }
  }

  // ---------------------------------------------------------- the class

  class MotionController {
    const setup: MotionControllerSetup
    const legs: MotionControllerLegsMoves
    const arm: MotionControllerArmMoves
    var isActivated: bool

    /** The moves objects work on this controller's setup object. */
    predicate Valid() {
      legs.setup == setup && arm.setup == setup
    }

    function WorldOf(): World
      reads this, legs, setup, setup.bus
      requires Valid()
    {
      World(legs.View(), isActivated)
    }

    /** `__init__`: starts deactivated and reports both boards to the LCD. */
    constructor (setup: MotionControllerSetup, legs: MotionControllerLegsMoves, arm: MotionControllerArmMoves)
      requires legs.setup == setup && arm.setup == setup
      modifies setup.bus
      ensures this.setup == setup && this.legs == legs && this.arm == arm && Valid()
      ensures !isActivated
      ensures setup.bus.log == old(setup.bus.log) + StatusTokens(setup.State())
      ensures setup.bus.readback == old(setup.bus.readback)
    {
      this.setup := setup;
      this.legs := legs;
      this.arm := arm;
      isActivated := false;
      new;
      if setup.pca1.Some? {
        setup.bus.Emit(ToLcd(StatusToken(Board1, true)));
      } else {
        setup.bus.Emit(ToLcd(StatusToken(Board1, false)));
      }
      if setup.pca2.Some? {
        setup.bus.Emit(ToLcd(StatusToken(Board2, true)));
      } else {
        setup.bus.Emit(ToLcd(StatusToken(Board2, false)));
      }
    }

    /** `exit_gracefully`, up to the exit. */
    method ExitGracefully() returns (out: Outcome)
      modifies setup.bus
      ensures DevRes(setup.Device(), out) == Deactivate(old(setup.Device()), setup.bus.env.rig)
    {
      out := setup.DeactivatePca9685Boards();
    }

    method RestBothPositions() returns (out: Outcome)
      requires Valid()
      modifies setup, setup.bus
      ensures LegsRes(legs.View(), out) == RestBoth(old(legs.View()), setup.bus.env)
    {
      legs.RestPosition();
      out := arm.RestPosition();
    }

    method Do(act: Action) returns (out: Outcome)
      requires Valid()
      modifies legs, setup, setup.bus
      ensures LegsRes(legs.View(), out) == Perform(old(legs.View()), act, setup.bus.env)
    {
      match act
      case RestAll => out := RestBothPositions();
      case UpDownBy(raw) => out := legs.BodyMoveBodyUpAndDown(raw);
      case LeftRightBy(raw) => out := legs.BodyMoveBodyLeftRight(raw);
      case UpDownAnalogBy(raw) => legs.BodyMoveBodyUpAndDownAnalog(raw); out := Ok;
      case LeftRightAnalogBy(raw) => legs.BodyMoveBodyLeftRightAnalog(raw); out := Ok;
      case Pose(p) =>
        if p == Standing {
          out := legs.StandingPosition();
        } else if p == PositionRight {
          out := legs.BodyMovePositionRight();
        } else {
          out := legs.BodyMovePositionLeft();
        }
      case SetRotation(raw) => out := arm.ArmSetRotation(raw);
      case SetLift(raw) => out := arm.ArmSetLift(raw);
      case SetRange(raw) => out := arm.ArmSetRange(raw);
      case SetCamTilt(raw) => out := arm.ArmSetCamTilt(raw);
      case MoveLegs => out := legs.Move();
      case MoveArm => out := arm.Move();
    }

    /** One `if c: action` of the dispatch, seen as the head of the rest. */
    method Fire(c: bool, act: Action, ghost rest: seq<(bool, Action)>) returns (out: Outcome)
      requires Valid() && rest != [] && rest[0] == (c, act)
      modifies legs, setup, setup.bus
      ensures out.Raised? ==> RunGuarded(old(legs.View()), rest, setup.bus.env) == LegsRes(legs.View(), out)
      ensures out.Ok? ==> RunGuarded(old(legs.View()), rest, setup.bus.env) == RunGuarded(legs.View(), rest[1..], setup.bus.env)
    {
      if c {
        out := Do(act);
      } else {
        out := Ok;
      }
    }

    /** Three consecutive `if` statements of the dispatch, seen as the head
        of the rest. */
    method FireThree(g0: (bool, Action), g1: (bool, Action), g2: (bool, Action),
                     ghost rest: seq<(bool, Action)>) returns (out: Outcome)
      requires Valid() && |rest| >= 3 && rest[0] == g0 && rest[1] == g1 && rest[2] == g2
      modifies legs, setup, setup.bus
      ensures out.Raised? ==> RunGuarded(old(legs.View()), rest, setup.bus.env) == LegsRes(legs.View(), out)
      ensures out.Ok? ==> RunGuarded(old(legs.View()), rest, setup.bus.env) == RunGuarded(legs.View(), rest[3..], setup.bus.env)
    {
      ghost var r := rest;
      out := Fire(g0.0, g0.1, r); if out.Raised? { return; } r := r[1..];
      out := Fire(g1.0, g1.1, r); if out.Raised? { return; } r := r[1..];
      out := Fire(g2.0, g2.1, r); if out.Raised? { return; } r := r[1..];
      assert r == rest[3..];
    }

    /** The six leg buttons and axes of the dispatch. */
    method PressLegButtons(e: Event, ghost rest: seq<(bool, Action)>) returns (out: Outcome)
      requires Valid() && rest == Triggers(e)
      modifies legs, setup, setup.bus
      ensures out.Raised? ==> RunGuarded(old(legs.View()), rest, setup.bus.env) == LegsRes(legs.View(), out)
      ensures out.Ok? ==> RunGuarded(old(legs.View()), rest, setup.bus.env) == RunGuarded(legs.View(), rest[6..], setup.bus.env)
    {
      ghost var r := rest;
      out := FireThree((e.a, RestAll), (e.hat0y != 0.0, UpDownBy(e.hat0y)), (e.hat0x != 0.0, LeftRightBy(e.hat0x)), r);
      if out.Raised? { return; }
      r := r[3..];
      out := FireThree((e.ry != 0.0, UpDownAnalogBy(e.ry)), (e.rx != 0.0, LeftRightAnalogBy(e.rx)), (e.y, Pose(Standing)), r);
      if out.Raised? { return; }
      assert r[3..] == rest[6..];
    }

    /** The side poses and the arm buttons of the dispatch. */
    method PressArmButtons(e: Event, ghost rest: seq<(bool, Action)>) returns (out: Outcome)
      requires Valid() && rest == Triggers(e)[6..]
      modifies legs, setup, setup.bus
      ensures out.Raised? ==> RunGuarded(old(legs.View()), rest, setup.bus.env) == LegsRes(legs.View(), out)
      ensures out.Ok? ==> RunGuarded(old(legs.View()), rest, setup.bus.env) == RunGuarded(legs.View(), rest[6..], setup.bus.env)
    {
      ghost var r := rest;
      out := FireThree((e.b, Pose(PositionRight)), (e.x, Pose(PositionLeft)), (e.tl, SetRotation(e.lx)), r);
      if out.Raised? { return; }
      r := r[3..];
      out := FireThree((e.tl, SetLift(e.ly)), (e.tr, SetRange(e.ly)), (e.tr, SetCamTilt(e.ry)), r);
      if out.Raised? { return; }
      assert r[3..] == rest[6..];
    }

    /** Lines `if event['a']` to the end of the `try` block. */
    method Dispatch(e: Event) returns (out: Outcome)
      requires Valid()
      modifies legs, setup, setup.bus
      ensures LegsRes(legs.View(), out) == RunGuarded(old(legs.View()), Triggers(e), setup.bus.env)
    {
      ghost var rest := Triggers(e);
      out := PressLegButtons(e, rest);
      if out.Raised? { return; }
      rest := rest[6..];
      out := PressArmButtons(e, rest);
      if out.Raised? { return; }
      rest := rest[6..];
      out := Fire(true, MoveLegs, rest); if out.Raised? { return; } rest := rest[1..];
      out := Fire(true, MoveArm, rest); if out.Raised? { return; } rest := rest[1..];
      assert rest == [];
    }

    /** Rest position for legs and arm, then the boards' deactivation. */
    method RestAndDeactivate() returns (out: Outcome)
      requires Valid()
      modifies setup, setup.bus
      ensures LegsRes(legs.View(), out) == Shutdown(old(legs.View()), setup.bus.env)
    {
      out := RestBothPositions();
      if out.Raised? { return; }
      out := setup.DeactivatePca9685Boards();
    }

    /** The `if event['start']` block. */
    method StartPressed() returns (out: Outcome)
      requires Valid()
      modifies this, setup, setup.bus
      ensures (WorldOf(), out) == Start(old(WorldOf()), setup.bus.env)
    {
      if isActivated {
        out := RestAndDeactivate();
        if out.Raised? { return; }
        setup.bus.Emit(ToAbort(Abort));
      } else {
        setup.bus.Emit(ToAbort(ActivateServos));
        setup.ActivatePca9685Boards();
        isActivated := true;
        out := setup.ActivateServos();
        if out.Raised? { return; }
        out := RestBothPositions();
      }
    }

    /** The `except queue.Empty` block; true when an exception escapes it. */
    method TimedOut() returns (crashed: bool)
      requires Valid()
      modifies this, setup, setup.bus
      ensures Step(WorldOf(), crashed) == Timeout(old(WorldOf()), setup.bus.env)
    {
      crashed := false;
      if isActivated {
        var out := RestAndDeactivate();
        if out.Raised? { return true; }
        isActivated := false;
      }
    }

    /** One pass of the `while True` body. */
    method ProcessOne(ev: Option<Event>) returns (crashed: bool)
      requires Valid()
      modifies this, legs, setup, setup.bus
      ensures Step(WorldOf(), crashed) == Iterate(old(WorldOf()), ev, setup.bus.env)
    {
      if ev.None? {
        crashed := TimedOut();
        return;
      }
      var e := ev.value;
      crashed := false;
      var out := Ok;
      if e.start {
        out := StartPressed();
      }
      if out.Raised? {
        return;   // except Exception: logged
      }
      if !isActivated {
        return;   // continue
      }
      out := Dispatch(e);
    }

    /** `do_process_events_from_queues` over the given receives: it goes on
        until they are used up or an exception escapes the loop. */
    method DoProcessEventsFromQueues(receives: seq<Option<Event>>) returns (crashed: bool)
      requires Valid()
      modifies this, legs, setup, setup.bus
      ensures Step(WorldOf(), crashed) == Run(old(WorldOf()), receives, setup.bus.env)
    {
      var i := 0;
      crashed := false;
      while i < |receives| && !crashed
        invariant 0 <= i <= |receives|
        invariant Run(old(WorldOf()), receives, setup.bus.env) ==
          if crashed then Step(WorldOf(), true) else Run(WorldOf(), receives[i..], setup.bus.env)
        decreases |receives| - i
      {
        assert receives[i..][1..] == receives[i + 1..];
        crashed := ProcessOne(receives[i]);
        i := i + 1;
      }
      if !crashed {
        assert receives[i..] == [];
      }
    }
  }
}
