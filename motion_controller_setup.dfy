/** spotmicroai/motion_controller/motion_controller_setup.py: the singleton
    that owns the two PCA9685 boards and the sixteen servo objects. */
module MotionControllerSetup {
  import opened Common
  import opened Platform

  /** The fields of the setup object as a value. `restAttr` holds the
      `servo_*_angle` attributes that the legs' `rest_position` assigns on this
      object (see LegsMoves). */
  datatype SetupState = SetupState(
    legsEnabled: bool, armEnabled: bool,
    pca1: Option<Handle>, pca2: Option<Handle>,
    servo: map<Joint, Servo>,
    restAttr: map<Joint, int>)

  /** The setup object together with the hardware it drives. */
  datatype Dev = Dev(hw: Hw, setup: SetupState)

  datatype DevRes = DevRes(dev: Dev, out: Outcome)

  /** Channels of one PCA9685 board. */
  const Channels := 16

  /** The state right after construction: the class attributes are None and
      the two flags are read from the configuration. */
  function Initial(cfg: Config): (s: SetupState)
    ensures s.pca1 == None && s.pca2 == None && s.servo == map[] && s.restAttr == map[]
    ensures s.legsEnabled == cfg.legsEnabled && s.armEnabled == cfg.armEnabled
  {
    SetupState(cfg.legsEnabled, cfg.armEnabled, None, None, map[], map[])
  }

  function HandleOf(s: SetupState, b: BoardId): Option<Handle> {
    if b == Board1 then s.pca1 else s.pca2
  }

  function WithHandle(s: SetupState, b: BoardId, h: Option<Handle>): SetupState {
    if b == Board1 then s.(pca1 := h) else s.(pca2 := h)
  }

  // ---------------------------------------------------------------- boards

  /** The value one board's field holds after its `try` block in
      `activate_pca9685_boards`, given its previous value. */
  function NewHandle(b: BoardId, bc: BoardConfig, rig: Rig, prev: Option<Handle>): (r: Option<Handle>)
    ensures !Converted(bc) ==> r == None
    ensures Converted(bc) && bc.enabled.value == 0 ==> r == prev
    ensures r.Some? && r != prev ==>
      bc.enabled.Some? && bc.enabled.value != 0 && rig.opens(b) &&
      r.value == Handle(b, bc.address.value, bc.clock.value, bc.frequency.value)
    ensures Converted(bc) && bc.enabled.value != 0 ==> (r.Some? <==> rig.opens(b))
  {
    if !Converted(bc) then None
    else if bc.enabled.value == 0 then prev
    else if rig.opens(b) then Some(Handle(b, bc.address.value, bc.clock.value, bc.frequency.value))
    else None
  }

  /** The board objects created by that block. */
  function OpenEffects(b: BoardId, bc: BoardConfig, rig: Rig): seq<Effect> {
    if Converted(bc) && bc.enabled.value != 0 && rig.opens(b)
    then [Opened(Handle(b, bc.address.value, bc.clock.value, bc.frequency.value))]
    else []
  }

  function ActivateBoard(d: Dev, b: BoardId, env: Env): Dev {
    var bc := BoardConfigOf(env.cfg, b);
    Dev(Hw(d.hw.log + OpenEffects(b, bc, env.rig), d.hw.readback),
        WithHandle(d.setup, b, NewHandle(b, bc, env.rig, HandleOf(d.setup, b))))
  }

  /** `activate_pca9685_boards`: board 1's block, then board 2's; each
      catches its own failure, so the call never raises. */
  function ActivateBoards(d: Dev, env: Env): (r: Dev)
    ensures r.setup.pca1 == NewHandle(Board1, env.cfg.board1, env.rig, d.setup.pca1)
    ensures r.setup.pca2 == NewHandle(Board2, env.cfg.board2, env.rig, d.setup.pca2)
    ensures r.setup == d.setup.(pca1 := r.setup.pca1, pca2 := r.setup.pca2)
    ensures r.hw == Hw(d.hw.log + OpenEffects(Board1, env.cfg.board1, env.rig)
                                + OpenEffects(Board2, env.cfg.board2, env.rig), d.hw.readback)
  {
    ActivateBoard(ActivateBoard(d, Board1, env), Board2, env)
  }

  /** The `deinit()` calls `deactivate_pca9685_boards` makes. */
  function DeinitEffects(s: SetupState): seq<Effect> {
    (if s.pca1.Some? then [Deinit(Board1)] else []) + (if s.pca2.Some? then [Deinit(Board2)] else [])
  }

  /** `deactivate_pca9685_boards`: board 2 is attempted in a `finally`, so
      whether board 1's deinit raised does not matter to it; an exception
      from board 2 replaces one from board 1. No field is cleared. */
  function Deactivate(d: Dev, rig: Rig): (r: DevRes)
    ensures r.dev.setup == d.setup && r.dev.hw.readback == d.hw.readback
    ensures r.dev.hw.log == d.hw.log + DeinitEffects(d.setup)
    ensures d.setup.pca2.Some? ==> Deinit(Board2) in r.dev.hw.log[|d.hw.log|..]
    ensures r.out == Ok <==>
      (d.setup.pca1.Some? ==> rig.deinits(Board1)) && (d.setup.pca2.Some? ==> rig.deinits(Board2))
    ensures d.setup.pca2.Some? && !rig.deinits(Board2) ==> r.out == Raised(DeinitError(Board2))
  {
    var first := if d.setup.pca1.Some? && !rig.deinits(Board1) then Raised(DeinitError(Board1)) else Ok;
    var second := if d.setup.pca2.Some? && !rig.deinits(Board2) then Raised(DeinitError(Board2)) else Ok;
    DevRes(Dev(Hw(d.hw.log + DeinitEffects(d.setup), d.hw.readback), d.setup),
           if second.Raised? then second else first)
  }

  // ---------------------------------------------------------------- servos

  /** `if servo_x_pca9685 == 1: pca9685_1 else pca9685_2`. */
  function Route(sc: ServoConfig): (b: BoardId)
    ensures b == Board1 <==> sc.pca9685 == 1
  {
    if sc.pca9685 == 1 then Board1 else Board2
  }

  /** The servo object bound for a joint, with its configured pulse range. */
  function Binding(sc: ServoConfig): Servo {
    Servo(Route(sc), sc.channel, sc.minPulse, sc.maxPulse, None)
  }

  /** The board a joint is routed to exists and has the configured channel. */
  predicate Bindable(s: SetupState, sc: ServoConfig) {
    HandleOf(s, Route(sc)).Some? && 0 <= sc.channel < Channels
  }

  /** One joint's block of `activate_servos`: `.channels` of a missing board
      raises AttributeError, an unknown channel IndexError. */
  function BindOne(d: Dev, j: Joint, cfg: Config): DevRes {
    var sc := cfg.servo(j);
    if HandleOf(d.setup, Route(sc)).None? then DevRes(d, Raised(AttributeError))
    else if !(0 <= sc.channel < Channels) then DevRes(d, Raised(IndexError))
    else DevRes(Dev(Hw(d.hw.log + [Bound(j, Binding(sc))], d.hw.readback),
                    d.setup.(servo := d.setup.servo[j := Binding(sc)])), Ok)
  }

  /** A run of joint blocks, in order, stopping at the first that raises. */
  function BindAll(d: Dev, js: seq<Joint>, cfg: Config): DevRes
    decreases |js|
  {
    if js == [] then DevRes(d, Ok)
    else
      var r := BindOne(d, js[0], cfg);
      if r.out.Raised? then r else BindAll(r.dev, js[1..], cfg)
  }

  /** A run of blocks changes only the servo table; it completes exactly when
      every joint in it is bindable, and then binds each of them as
      configured; raising, it raises AttributeError or IndexError; joints
      outside the run keep their entries. */
  lemma {:induction false} BindAllSpec(d: Dev, js: seq<Joint>, cfg: Config)
    ensures var r := BindAll(d, js, cfg);
      r.dev.setup == d.setup.(servo := r.dev.setup.servo) &&
      r.dev.hw.readback == d.hw.readback &&
      (r.out == Ok <==> forall j :: j in js ==> Bindable(d.setup, cfg.servo(j))) &&
      (r.out.Raised? ==> r.out.exc == AttributeError || r.out.exc == IndexError) &&
      (forall j :: j !in js ==>
        (j in r.dev.setup.servo <==> j in d.setup.servo) &&
        (j in d.setup.servo ==> r.dev.setup.servo[j] == d.setup.servo[j])) &&
      (r.out == Ok ==> forall j :: j in js ==>
        j in r.dev.setup.servo && r.dev.setup.servo[j] == Binding(cfg.servo(j)))
    decreases |js|
  {
    if js != [] {
      var r := BindOne(d, js[0], cfg);
      if r.out.Ok? {
        BindAllSpec(r.dev, js[1..], cfg);
      }
    }
  }

  /** Running two lists of blocks one after the other is running their
      concatenation. */
  lemma {:induction false} BindAllAppend(d: Dev, xs: seq<Joint>, ys: seq<Joint>, cfg: Config)
    ensures BindAll(d, xs + ys, cfg) ==
      var r := BindAll(d, xs, cfg);
      if r.out.Raised? then r else BindAll(r.dev, ys, cfg)
    decreases |xs|
  {
    if xs == [] {
      assert xs + ys == ys;
    } else {
      assert (xs + ys)[0] == xs[0];
      assert (xs + ys)[1..] == xs[1..] + ys;
      var r := BindOne(d, xs[0], cfg);
      if r.out.Ok? {
        BindAllAppend(r.dev, xs[1..], ys, cfg);
      }
    }
  }

  /** `activate_servos`: the twelve leg servos when the legs are enabled,
      then the four arm servos when the arm is enabled. */
  function BindServos(d: Dev, cfg: Config): DevRes {
    var legs := if d.setup.legsEnabled then BindAll(d, LegOrder, cfg) else DevRes(d, Ok);
    if legs.out.Raised? || !d.setup.armEnabled then legs
    else BindAll(legs.dev, ArmOrder, cfg)
  }

  /** Routing: after a successful `activate_servos`, each joint of an enabled
      group is bound to board 1 exactly when its `pca9685` entry is 1, with
      its configured channel and pulse range; joints of a disabled group keep
      whatever they had. */
  lemma ActivateServosRouting(d: Dev, cfg: Config, j: Joint)
    ensures var r := BindServos(d, cfg);
      ((IsArm(j) && !d.setup.armEnabled) || (!IsArm(j) && !d.setup.legsEnabled)) ==>
        (j in r.dev.setup.servo <==> j in d.setup.servo) &&
        (j in d.setup.servo ==> r.dev.setup.servo[j] == d.setup.servo[j])
    ensures var r := BindServos(d, cfg);
      r.out == Ok && ((IsArm(j) && d.setup.armEnabled) || (!IsArm(j) && d.setup.legsEnabled)) ==>
        j in r.dev.setup.servo &&
        (r.dev.setup.servo[j].board == Board1 <==> cfg.servo(j).pca9685 == 1) &&
        r.dev.setup.servo[j].channel == cfg.servo(j).channel &&
        r.dev.setup.servo[j].minPulse == cfg.servo(j).minPulse &&
        r.dev.setup.servo[j].maxPulse == cfg.servo(j).maxPulse
    ensures var r := BindServos(d, cfg);
      r.out == Ok && GroupEnabled(d.setup, j) ==>
        j in r.dev.setup.servo && r.dev.setup.servo[j] == Binding(cfg.servo(j))
  {
    LegOrderIsTheLegs(j);
    BindAllSpec(d, LegOrder, cfg);
    var legs := if d.setup.legsEnabled then BindAll(d, LegOrder, cfg) else DevRes(d, Ok);
    BindAllSpec(legs.dev, ArmOrder, cfg);
  }

  /** A joint's group (legs or arm) is enabled in the setup object. */
  predicate GroupEnabled(s: SetupState, j: Joint) {
    if IsArm(j) then s.armEnabled else s.legsEnabled
  }

  /** The effects of a completed run of joint blocks: one binding per
      joint, in the run's order. */
  function Bindings(js: seq<Joint>, cfg: Config): seq<Effect> {
    if js == [] then [] else [Bound(js[0], Binding(cfg.servo(js[0])))] + Bindings(js[1..], cfg)
  }

  /** The effects of a completed `activate_servos`: the legs' bindings when
      the legs are enabled, then the arm's when the arm is enabled. */
  function ServoBindings(s: SetupState, cfg: Config): seq<Effect> {
    (if s.legsEnabled then Bindings(LegOrder, cfg) else []) +
    (if s.armEnabled then Bindings(ArmOrder, cfg) else [])
  }

  /** A completed run of blocks logs one binding per joint, in order, and
      nothing else. */
  lemma {:induction false} BindAllLog(d: Dev, js: seq<Joint>, cfg: Config)
    ensures var r := BindAll(d, js, cfg);
      r.out == Ok ==> r.dev.hw.log == d.hw.log + Bindings(js, cfg)
    decreases |js|
  {
    if js != [] {
      var r := BindOne(d, js[0], cfg);
      if r.out.Ok? {
        BindAllLog(r.dev, js[1..], cfg);
        assert r.dev.hw.log == d.hw.log + [Bound(js[0], Binding(cfg.servo(js[0])))];
      }
    }
  }

  /** A completed `activate_servos` logs the bindings, the legs' before the
      arm's, and nothing else. */
  lemma BindServosLog(d: Dev, cfg: Config)
    ensures var r := BindServos(d, cfg);
      r.out == Ok ==> r.dev.hw.log == d.hw.log + ServoBindings(d.setup, cfg)
  {
    var legs := if d.setup.legsEnabled then BindAll(d, LegOrder, cfg) else DevRes(d, Ok);
    var legsEffects := if d.setup.legsEnabled then Bindings(LegOrder, cfg) else [];
    if d.setup.legsEnabled {
      BindAllLog(d, LegOrder, cfg);
    }
    assert legs.out == Ok ==> legs.dev.hw.log == d.hw.log + legsEffects;
    if legs.out.Ok? && d.setup.armEnabled {
      BindAllLog(legs.dev, ArmOrder, cfg);
    }
  }

  // ------------------------------------------------------ servo attributes

  /** `servo_x.angle = v`: on a servo that was never bound (None) it raises
      AttributeError. */
  function WriteAngle(d: Dev, j: Joint, v: Option<int>, rig: Rig): (r: DevRes)
    ensures r.dev.setup == d.setup
    ensures j !in d.setup.servo ==> r == DevRes(d, Raised(AttributeError))
    ensures j in d.setup.servo ==> (r.dev.hw, r.out) == Actuate(d.hw, j, v, rig)
  {
    if j !in d.setup.servo then DevRes(d, Raised(AttributeError))
    else
      var (hw, out) := Actuate(d.hw, j, v, rig);
      DevRes(Dev(hw, d.setup), out)
  }

  /** `int(servo_x.angle)`: AttributeError on an unbound servo, TypeError
      when the servo reads back None. */
  function ReadAngle(d: Dev, j: Joint): (r: Result<int>)
    ensures r.Success? <==> j in d.setup.servo && ReadBack(d.hw, j).Some?
    ensures r.Success? ==> ReadBack(d.hw, j) == Some(r.value)
    ensures j !in d.setup.servo ==> r == Failure(AttributeError)
    ensures j in d.setup.servo && ReadBack(d.hw, j).None? ==> r == Failure(TypeError)
  {
    if j !in d.setup.servo then Failure(AttributeError)
    else if j !in d.hw.readback then Failure(TypeError)
    else Success(d.hw.readback[j])
  }

  /** `servo_x.angel = v`: the misspelled assignment only creates an
      attribute on the servo object, so no hardware changes; on an unbound
      servo it raises AttributeError. */
  function WriteAngel(d: Dev, j: Joint, v: int): (r: DevRes)
    ensures r.dev.hw == d.hw
    ensures j !in d.setup.servo ==> r == DevRes(d, Raised(AttributeError))
    ensures j in d.setup.servo ==> (r.out == Ok && r.dev.setup.servo.Keys == d.setup.servo.Keys &&
      r.dev.setup.servo[j] == d.setup.servo[j].(angel := Some(v)) &&
      forall k :: k in d.setup.servo && k != j ==> r.dev.setup.servo[k] == d.setup.servo[k])
    ensures r.dev.setup == d.setup.(servo := r.dev.setup.servo)
  {
    if j !in d.setup.servo then DevRes(d, Raised(AttributeError))
    else DevRes(d.(setup := d.setup.(servo := d.setup.servo[j := d.setup.servo[j].(angel := Some(v))])), Ok)
  }

  // ------------------------------------------------- runs of angle writes

  /** Where the angle written to each joint comes from: an angle store whose
      absent entries are None (written as they are), or an angle store plus a
      fixed offset per joint (`self.x_angle + k`, a TypeError on None). */
  datatype Targets =
    | Angles(angle: map<Joint, int>)
    | Shifted(angle: map<Joint, int>, offset: map<Joint, int>)

  function Offset(offset: map<Joint, int>, j: Joint): int {
    if j in offset then offset[j] else 0
  }

  /** The right-hand side of one assignment, evaluated before its target. */
  function Target(t: Targets, j: Joint): Result<Option<int>> {
    match t
    case Angles(a) => Success(if j in a then Some(a[j]) else None)
    case Shifted(a, off) => if j in a then Success(Some(a[j] + Offset(off, j))) else Failure(TypeError)
  }

  /** One assignment `servo_j.angle = <target>`; when guarded, inside
      `try: ... except ValueError`. */
  function WriteStep(d: Dev, j: Joint, t: Targets, guarded: bool, rig: Rig): DevRes {
    match Target(t, j)
    case Failure(e) => DevRes(d, Raised(e))
    case Success(v) =>
      var r := WriteAngle(d, j, v, rig);
      if guarded && r.out == Raised(ValueError) then DevRes(r.dev, Ok) else r
  }

  /** A straight run of such assignments; the first exception that escapes
      its statement ends the run. */
  function WriteRun(d: Dev, js: seq<Joint>, t: Targets, guarded: bool, rig: Rig): DevRes
    decreases |js|
  {
    if js == [] then DevRes(d, Ok)
    else
      var r := WriteStep(d, js[0], t, guarded, rig);
      if r.out.Raised? then r else WriteRun(r.dev, js[1..], t, guarded, rig)
  }

  lemma {:induction false} WriteRunAppend(d: Dev, xs: seq<Joint>, ys: seq<Joint>, t: Targets, guarded: bool, rig: Rig)
    ensures WriteRun(d, xs + ys, t, guarded, rig) ==
      var r := WriteRun(d, xs, t, guarded, rig);
      if r.out.Raised? then r else WriteRun(r.dev, ys, t, guarded, rig)
    decreases |xs|
  {
    if xs == [] {
      assert xs + ys == ys;
    } else {
      assert (xs + ys)[0] == xs[0];
      assert (xs + ys)[1..] == xs[1..] + ys;
      var r := WriteStep(d, xs[0], t, guarded, rig);
      if r.out.Ok? {
        WriteRunAppend(r.dev, xs[1..], ys, t, guarded, rig);
      }
    }
  }

  predicate Distinct(js: seq<Joint>) {
    forall i, k :: 0 <= i < k < |js| ==> js[i] != js[k]
  }

  /** The accepted writes a run makes when every one of them is accepted. */
  function Written(js: seq<Joint>, t: Targets): seq<Effect>
    decreases |js|
  {
    if js == [] || Target(t, js[0]).Failure? then []
    else [Wrote(js[0], Target(t, js[0]).value)] + Written(js[1..], t)
  }

  /** A run, guarded or not, never changes the setup object nor a servo
      outside it. */
  lemma {:induction false} RunFrame(d: Dev, js: seq<Joint>, t: Targets, guarded: bool, rig: Rig)
    ensures var r := WriteRun(d, js, t, guarded, rig);
      r.dev.setup == d.setup &&
      forall j :: j !in js ==> ReadBack(r.dev.hw, j) == ReadBack(d.hw, j)
    decreases |js|
  {
    if js != [] {
      var r := WriteStep(d, js[0], t, guarded, rig);
      if r.out.Ok? {
        RunFrame(r.dev, js[1..], t, guarded, rig);
        assert forall j :: j in js[1..] ==> j in js;
      }
    }
  }

  /** Without the ValueError guard a run completes exactly when every target
      evaluates, every servo exists and accepts its angle. */
  lemma {:induction false} UnguardedOutcome(d: Dev, js: seq<Joint>, t: Targets, rig: Rig)
    ensures WriteRun(d, js, t, false, rig).out == Ok <==> forall j :: j in js ==>
      Target(t, j).Success? && j in d.setup.servo && rig.accepts(j, Target(t, j).value)
    decreases |js|
  {
    if js != [] {
      var r := WriteStep(d, js[0], t, false, rig);
      if r.out.Ok? {
        UnguardedOutcome(r.dev, js[1..], t, rig);
        assert forall j :: j in js ==> j == js[0] || j in js[1..];
      }
    }
  }

  /** A completed unguarded run has made exactly the writes of the run, in
      order, and (the joints being distinct) every servo of the run reads
      back its target. */
  lemma {:induction false} UnguardedWrites(d: Dev, js: seq<Joint>, t: Targets, rig: Rig)
    requires Distinct(js)
    requires WriteRun(d, js, t, false, rig).out == Ok
    ensures var r := WriteRun(d, js, t, false, rig);
      r.dev.hw.log == d.hw.log + Written(js, t) &&
      forall j :: j in js ==> Target(t, j).Success? && ReadBack(r.dev.hw, j) == Target(t, j).value
    decreases |js|
  {
    UnguardedOutcome(d, js, t, rig);
    if js != [] {
      var r := WriteStep(d, js[0], t, false, rig);
      assert Distinct(js[1..]) by {
        forall i, k | 0 <= i < k < |js[1..]| ensures js[1..][i] != js[1..][k] {
          assert js[1..][i] == js[i + 1] && js[1..][k] == js[k + 1];
        }
      }
      UnguardedWrites(r.dev, js[1..], t, rig);
      RunFrame(r.dev, js[1..], t, false, rig);
      forall j | j in js[1..] ensures j != js[0] {
        var i :| 0 <= i < |js[1..]| && js[1..][i] == j;
        assert js[i + 1] == j;
      }
      assert forall j :: j in js ==> j == js[0] || j in js[1..];
    }
  }

  /** A run never changes the setup object nor a servo outside it. Without
      the ValueError guard it completes exactly when every target evaluates,
      every servo exists and accepts its angle; then it has made exactly the
      writes of the run, in order, and (the joints being distinct) every
      servo of the run reads back its target. */
  lemma {:induction false} UnguardedRun(d: Dev, js: seq<Joint>, t: Targets, rig: Rig)
    requires Distinct(js)
    ensures var r := WriteRun(d, js, t, false, rig);
      r.dev.setup == d.setup &&
      (forall j :: j !in js ==> ReadBack(r.dev.hw, j) == ReadBack(d.hw, j)) &&
      (r.out == Ok <==> forall j :: j in js ==>
         Target(t, j).Success? && j in d.setup.servo && rig.accepts(j, Target(t, j).value)) &&
      (r.out == Ok ==>
         r.dev.hw.log == d.hw.log + Written(js, t) &&
         forall j :: j in js ==> ReadBack(r.dev.hw, j) == Target(t, j).value)
  {
    RunFrame(d, js, t, false, rig);
    UnguardedOutcome(d, js, t, rig);
    if WriteRun(d, js, t, false, rig).out == Ok {
      UnguardedWrites(d, js, t, rig);
    }
  }

  /** With the ValueError guard and targets that always evaluate, a run
      raises only AttributeError, exactly when one of its servos does not
      exist. */
  lemma {:induction false} GuardedOutcome(d: Dev, js: seq<Joint>, t: Targets, rig: Rig)
    requires forall j :: j in js ==> Target(t, j).Success?
    ensures var r := WriteRun(d, js, t, true, rig);
      (r.out == Ok <==> forall j :: j in js ==> j in d.setup.servo) &&
      (r.out.Raised? ==> r.out.exc == AttributeError)
    decreases |js|
  {
    if js != [] {
      var r := WriteStep(d, js[0], t, true, rig);
      if r.out.Ok? {
        GuardedOutcome(r.dev, js[1..], t, rig);
        assert forall j :: j in js ==> j == js[0] || j in js[1..];
      }
    }
  }

  /** A rejected angle does not stop a guarded run, so a completed one has
      attempted every joint of the run exactly once, in order. */
  lemma {:induction false} GuardedWrites(d: Dev, js: seq<Joint>, t: Targets, rig: Rig)
    requires forall j :: j in js ==> Target(t, j).Success?
    requires WriteRun(d, js, t, true, rig).out == Ok
    ensures var r := WriteRun(d, js, t, true, rig);
      |r.dev.hw.log| == |d.hw.log| + |js| && r.dev.hw.log[..|d.hw.log|] == d.hw.log &&
      forall i :: 0 <= i < |js| ==>
        r.dev.hw.log[|d.hw.log| + i] ==
          (if rig.accepts(js[i], Target(t, js[i]).value) then Wrote(js[i], Target(t, js[i]).value)
           else Rejected(js[i], Target(t, js[i]).value))
    decreases |js|
  {
    if js != [] {
      var r := WriteStep(d, js[0], t, true, rig);
      GuardedWrites(r.dev, js[1..], t, rig);
      var r2 := WriteRun(r.dev, js[1..], t, true, rig);
      forall i | 0 <= i < |js|
        ensures r2.dev.hw.log[|d.hw.log| + i] ==
          (if rig.accepts(js[i], Target(t, js[i]).value) then Wrote(js[i], Target(t, js[i]).value)
           else Rejected(js[i], Target(t, js[i]).value))
      {
        if i > 0 {
          assert js[1..][i - 1] == js[i];
        } else {
          assert r2.dev.hw.log[..|r.dev.hw.log|] == r.dev.hw.log;
          assert |r.dev.hw.log| == |d.hw.log| + 1;
        }
      }
    }
  }

  /** With the ValueError guard and targets that always evaluate, a run
      raises only AttributeError, exactly when one of its servos does not
      exist; a rejected angle does not stop it, so when every servo exists it
      completes having attempted every joint of the run exactly once. */
  lemma {:induction false} GuardedRun(d: Dev, js: seq<Joint>, t: Targets, rig: Rig)
    requires forall j :: j in js ==> Target(t, j).Success?
    ensures var r := WriteRun(d, js, t, true, rig);
      r.dev.setup == d.setup &&
      (r.out == Ok <==> forall j :: j in js ==> j in d.setup.servo) &&
      (r.out.Raised? ==> r.out.exc == AttributeError) &&
      (r.out == Ok ==>
         (|r.dev.hw.log| == |d.hw.log| + |js| && r.dev.hw.log[..|d.hw.log|] == d.hw.log &&
          forall i :: 0 <= i < |js| ==>
            r.dev.hw.log[|d.hw.log| + i] ==
              (if rig.accepts(js[i], Target(t, js[i]).value) then Wrote(js[i], Target(t, js[i]).value)
               else Rejected(js[i], Target(t, js[i]).value))))
  {
    RunFrame(d, js, t, true, rig);
    GuardedOutcome(d, js, t, rig);
    if WriteRun(d, js, t, true, rig).out == Ok {
      GuardedWrites(d, js, t, rig);
    }
  }

  // ------------------------------------------------------------- the class

  class MotionControllerSetup {
    const bus: Bus
    const legsAreEnabled: bool
    const armIsEnabled: bool
    var pca1: Option<Handle>
    var pca2: Option<Handle>
    var servo: map<Joint, Servo>
    var restAttr: map<Joint, int>

    function State(): SetupState
      reads this
    {
      SetupState(legsAreEnabled, armIsEnabled, pca1, pca2, servo, restAttr)
    }

    function Device(): Dev
      reads this, bus
    {
      Dev(bus.Snapshot(), State())
    }

    /** `__init__`: the two enable flags are read once, here. */
    constructor (bus: Bus)
      ensures this.bus == bus && State() == Initial(bus.env.cfg)
    {
      this.bus := bus;
      legsAreEnabled := bus.env.cfg.legsEnabled;
      armIsEnabled := bus.env.cfg.armEnabled;
      pca1, pca2 := None, None;
      servo, restAttr := map[], map[];
    }

    method SetHandle(b: BoardId, h: Option<Handle>)
      modifies this
      ensures State() == WithHandle(old(State()), b, h)
    {
      if b == Board1 { pca1 := h; } else { pca2 := h; }
    }

    /** One board's `try` / `except` block. */
    method ActivatePca9685(b: BoardId)
      modifies this, bus
      ensures Device() == ActivateBoard(old(Device()), b, bus.env)
    {
      var bc := BoardConfigOf(bus.env.cfg, b);
      if !Converted(bc) {
        SetHandle(b, None);
        return;
      }
      if bc.enabled.value != 0 {
        if bus.env.rig.opens(b) {
          var h := Handle(b, bc.address.value, bc.clock.value, bc.frequency.value);
          bus.Emit(Opened(h));
          SetHandle(b, Some(h));
        } else {
          SetHandle(b, None);
        }
      }
    }

    method ActivatePca9685Boards()
      modifies this, bus
      ensures Device() == ActivateBoards(old(Device()), bus.env)
    {
      ActivatePca9685(Board1);
      ActivatePca9685(Board2);
    }

    method DeactivatePca9685Boards() returns (out: Outcome)
      modifies bus
      ensures DevRes(Device(), out) == Deactivate(old(Device()), bus.env.rig)
    {
      ghost var d := Device();
      var first := Ok;
      if pca1.Some? {
        first := bus.DeinitBoard(Board1);
      }
      assert bus.log == d.hw.log + (if pca1.Some? then [Deinit(Board1)] else []);
      // finally:
      var second := Ok;
      if pca2.Some? {
        second := bus.DeinitBoard(Board2);
      }
      assert bus.log == d.hw.log + DeinitEffects(State());
      out := if second.Raised? then second else first;
    }

    method BindServo(j: Joint) returns (out: Outcome)
      modifies this, bus
      ensures DevRes(Device(), out) == BindOne(old(Device()), j, bus.env.cfg)
    {
      var sc := bus.env.cfg.servo(j);
      var b := Route(sc);
      if (if b == Board1 then pca1 else pca2).None? {
        return Raised(AttributeError);
      }
      if !(0 <= sc.channel < Channels) {
        return Raised(IndexError);
      }
      servo := servo[j := Binding(sc)];
      bus.Emit(Bound(j, Binding(sc)));
      out := Ok;
    }

    /** One joint's block, seen as the head of a run of blocks. */
    method BindNext(j: Joint, ghost rest: seq<Joint>) returns (out: Outcome)
      requires rest != [] && rest[0] == j
      modifies this, bus
      ensures out.Raised? ==> BindAll(old(Device()), rest, bus.env.cfg) == DevRes(Device(), out)
      ensures out.Ok? ==> BindAll(old(Device()), rest, bus.env.cfg) == BindAll(Device(), rest[1..], bus.env.cfg)
    {
      out := BindServo(j);
    }

    /** `activate_servos`: the leg servos when the legs are enabled, then the
        arm servos when the arm is enabled. */
    method ActivateServos() returns (out: Outcome)
      modifies this, bus
      ensures DevRes(Device(), out) == BindServos(old(Device()), bus.env.cfg)
    {
      out := Ok;
      if legsAreEnabled {
        out := BindLegServos();
        if out.Raised? { return; }
      }
      if armIsEnabled {
        out := BindArmServos();
      }
    }

    /** The twelve leg blocks of `activate_servos`: rear left, rear right,
        front left, front right. */
    method BindLegServos() returns (out: Outcome)
      modifies this, bus
      ensures DevRes(Device(), out) == BindAll(old(Device()), LegOrder, bus.env.cfg)
    {
      var cfg := bus.env.cfg;
      BindAllAppend(Device(), RearOrder, FrontOrder, cfg);
      BindAllAppend(Device(), RearLeft, RearRight, cfg);
      out := BindCorner(RearShoulderLeft, RearLegLeft, RearFeetLeft);
      if out.Raised? { return; }
      out := BindCorner(RearShoulderRight, RearLegRight, RearFeetRight);
      if out.Raised? { return; }
      BindAllAppend(Device(), FrontLeft, FrontRight, cfg);
      out := BindCorner(FrontShoulderLeft, FrontLegLeft, FrontFeetLeft);
      if out.Raised? { return; }
      out := BindCorner(FrontShoulderRight, FrontLegRight, FrontFeetRight);
    }

    /** Three consecutive blocks (one leg: shoulder, leg, feet). */
    method BindCorner(first: Joint, second: Joint, third: Joint) returns (out: Outcome)
      modifies this, bus
      ensures DevRes(Device(), out) == BindAll(old(Device()), [first, second, third], bus.env.cfg)
    {
      ghost var rest := [first, second, third];
      out := BindNext(first, rest); if out.Raised? { return; } rest := rest[1..];
      out := BindNext(second, rest); if out.Raised? { return; } rest := rest[1..];
      out := BindNext(third, rest); if out.Raised? { return; } rest := rest[1..];
    }

    /** The four arm blocks of `activate_servos`. */
    method BindArmServos() returns (out: Outcome)
      modifies this, bus
      ensures DevRes(Device(), out) == BindAll(old(Device()), ArmOrder, bus.env.cfg)
    {
      BindAllAppend(Device(), [ArmRotation, ArmLift, ArmRange], [ArmCamTilt], bus.env.cfg);
      assert ArmOrder == [ArmRotation, ArmLift, ArmRange] + [ArmCamTilt];
      out := BindCorner(ArmRotation, ArmLift, ArmRange);
      if out.Raised? { return; }
      out := BindNext(ArmCamTilt, [ArmCamTilt]);
    }

    /** One assignment of a run, seen as the head of the rest of the run. */
    method WriteNext(j: Joint, t: Targets, guarded: bool, ghost rest: seq<Joint>) returns (out: Outcome)
      requires rest != [] && rest[0] == j
      modifies bus
      ensures out.Raised? ==> WriteRun(old(Device()), rest, t, guarded, bus.env.rig) == DevRes(Device(), out)
      ensures out.Ok? ==> WriteRun(old(Device()), rest, t, guarded, bus.env.rig) == WriteRun(Device(), rest[1..], t, guarded, bus.env.rig)
    {
      var v := Target(t, j);
      if v.Failure? {
        return Raised(v.exc);
      }
      out := SetServoAngle(j, v.value);
      if guarded && out == Raised(ValueError) {
        out := Ok;
      }
    }

    /** The twelve leg assignments the moves classes make through this
        object: rear left, rear right, front left, front right. */
    method WriteLegs(t: Targets, guarded: bool) returns (out: Outcome)
      modifies bus
      ensures DevRes(Device(), out) == WriteRun(old(Device()), LegOrder, t, guarded, bus.env.rig)
    {
      var rig := bus.env.rig;
      WriteRunAppend(Device(), RearOrder, FrontOrder, t, guarded, rig);
      WriteRunAppend(Device(), RearLeft, RearRight, t, guarded, rig);
      out := WriteCorner(RearShoulderLeft, RearLegLeft, RearFeetLeft, t, guarded);
      if out.Raised? { return; }
      out := WriteCorner(RearShoulderRight, RearLegRight, RearFeetRight, t, guarded);
      if out.Raised? { return; }
      WriteRunAppend(Device(), FrontLeft, FrontRight, t, guarded, rig);
      out := WriteCorner(FrontShoulderLeft, FrontLegLeft, FrontFeetLeft, t, guarded);
      if out.Raised? { return; }
      out := WriteCorner(FrontShoulderRight, FrontLegRight, FrontFeetRight, t, guarded);
    }

    /** Three consecutive assignments (one leg: shoulder, leg, feet). */
    method WriteCorner(first: Joint, second: Joint, third: Joint, t: Targets, guarded: bool) returns (out: Outcome)
      modifies bus
      ensures DevRes(Device(), out) == WriteRun(old(Device()), [first, second, third], t, guarded, bus.env.rig)
    {
      ghost var rest := [first, second, third];
      out := WriteNext(first, t, guarded, rest); if out.Raised? { return; } rest := rest[1..];
      out := WriteNext(second, t, guarded, rest); if out.Raised? { return; } rest := rest[1..];
      out := WriteNext(third, t, guarded, rest); if out.Raised? { return; } rest := rest[1..];
    }

    /** The four arm assignments. */
    method WriteArm(t: Targets, guarded: bool) returns (out: Outcome)
      modifies bus
      ensures DevRes(Device(), out) == WriteRun(old(Device()), ArmOrder, t, guarded, bus.env.rig)
    {
      WriteRunAppend(Device(), [ArmRotation, ArmLift, ArmRange], [ArmCamTilt], t, guarded, bus.env.rig);
      assert ArmOrder == [ArmRotation, ArmLift, ArmRange] + [ArmCamTilt];
      out := WriteCorner(ArmRotation, ArmLift, ArmRange, t, guarded);
      if out.Raised? { return; }
      out := WriteNext(ArmCamTilt, t, guarded, [ArmCamTilt]);
    }

    /** `servo_x.angle = v`. */
    method SetServoAngle(j: Joint, v: Option<int>) returns (out: Outcome)
      modifies bus
      ensures DevRes(Device(), out) == WriteAngle(old(Device()), j, v, bus.env.rig)
    {
      if j !in servo {
        return Raised(AttributeError);
      }
      out := bus.SetAngle(j, v);
    }

    /** `servo_x.angel = v`. */
    method SetServoAngel(j: Joint, v: int) returns (out: Outcome)
      modifies this
      ensures DevRes(Device(), out) == WriteAngel(old(Device()), j, v)
    {
      if j !in servo {
        return Raised(AttributeError);
      }
      servo := servo[j := servo[j].(angel := Some(v))];
      out := Ok;
    }

    /** `int(servo_x.angle)`. */
    method ServoAngle(j: Joint) returns (r: Result<int>)
      ensures r == ReadAngle(Device(), j)
    {
      if j !in servo {
        return Failure(AttributeError);
      }
      if j !in bus.readback {
        return Failure(TypeError);
      }
      r := Success(bus.readback[j]);
    }
  }

  /** The `Singleton` metaclass: the first call constructs the object, every
      later call returns that same object. */
  class Singleton {
    var instance: MotionControllerSetup?

    constructor ()
      ensures instance == null
    {
      instance := null;
    }

    method Call(bus: Bus) returns (s: MotionControllerSetup)
      modifies this
      ensures old(instance) != null ==> s == old(instance)
      ensures old(instance) == null ==> fresh(s) && s.bus == bus && s.State() == Initial(bus.env.cfg)
      ensures instance == s
    {
      if instance == null {
        instance := new MotionControllerSetup(bus);
      }
      s := instance;
    }
  }
}
