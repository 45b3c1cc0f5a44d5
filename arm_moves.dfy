/** The arm primitives: the rest position of the four arm servos, the four
    setters that write a servo only when its target changed, and `move()`,
    sixteen guarded writes of the rest angles. The servo objects are those
    the setup object bound, and `*_rest_angle` are the configured rest
    angles. */
module ArmMoves {
  import opened Common
  import opened Platform
  import opened MotionControllerSetup

  /** The configured rest angle of every servo. */
  function RestAngles(cfg: Config): (m: map<Joint, int>)
    ensures forall j :: j in m && m[j] == cfg.servo(j).restAngle
  {
    var m := map j | j in LegOrder + ArmOrder :: cfg.servo(j).restAngle;
    assert forall j :: j in m by {
      forall j ensures j in LegOrder + ArmOrder {
        LegOrderIsTheLegs(j);
      }
    }
    m
  }

  // ------------------------------------------------------- rest position

  /** `rest_position`: the four arm servos, unguarded, in the order rotation,
      lift, range, cam tilt. */
  function ArmRest(d: Dev, env: Env): DevRes {
    WriteRun(d, ArmOrder, Angles(RestAngles(env.cfg)), false, env.rig)
  }

  /** The arm rest position changes no setup attribute and no leg servo. It
      completes exactly when the four arm servos are bound and accept their
      rest angles; it has then written exactly those four angles, in order,
      and each arm servo reads back its rest angle. */
  lemma {:induction false} ArmRestSpec(d: Dev, env: Env)
    ensures var r := ArmRest(d, env);
      r.dev.setup == d.setup &&
      (forall j :: !IsArm(j) ==> ReadBack(r.dev.hw, j) == ReadBack(d.hw, j)) &&
      (r.out == Ok <==> forall j :: IsArm(j) ==>
         j in d.setup.servo && env.rig.accepts(j, Some(env.cfg.servo(j).restAngle))) &&
      (r.out == Ok ==>
         r.dev.hw.log == d.hw.log + [
           Wrote(ArmRotation, Some(env.cfg.servo(ArmRotation).restAngle)),
           Wrote(ArmLift, Some(env.cfg.servo(ArmLift).restAngle)),
           Wrote(ArmRange, Some(env.cfg.servo(ArmRange).restAngle)),
           Wrote(ArmCamTilt, Some(env.cfg.servo(ArmCamTilt).restAngle))] &&
         forall j :: IsArm(j) ==> ReadBack(r.dev.hw, j) == Some(env.cfg.servo(j).restAngle))
  {
    var t := Angles(RestAngles(env.cfg));
    assert Distinct(ArmOrder);
    assert forall j :: Target(t, j) == Success(Some(env.cfg.servo(j).restAngle));
    forall j ensures j in ArmOrder <==> IsArm(j) {
      LegOrderIsTheLegs(j);
    }
    UnguardedRun(d, ArmOrder, t, env.rig);
    ArmRestWrites(env.cfg);
  }

  /** The four writes of a completed arm rest position. */
  lemma ArmRestWrites(cfg: Config)
    ensures Written(ArmOrder, Angles(RestAngles(cfg))) == [
      Wrote(ArmRotation, Some(cfg.servo(ArmRotation).restAngle)),
      Wrote(ArmLift, Some(cfg.servo(ArmLift).restAngle)),
      Wrote(ArmRange, Some(cfg.servo(ArmRange).restAngle)),
      Wrote(ArmCamTilt, Some(cfg.servo(ArmCamTilt).restAngle))]
  {
    var t := Angles(RestAngles(cfg));
    assert ArmOrder[1..] == [ArmLift, ArmRange, ArmCamTilt];
    assert ArmOrder[2..] == [ArmRange, ArmCamTilt];
    assert ArmOrder[3..] == [ArmCamTilt];
    assert Written([ArmCamTilt], t) == [Wrote(ArmCamTilt, Some(cfg.servo(ArmCamTilt).restAngle))];
  }

  // ---------------------------------------------------------------- move

  /** `move()`: the twelve leg servos and then the four arm servos get their
      rest angles, each assignment guarded against ValueError. */
  function ArmMove(d: Dev, env: Env): DevRes {
    WriteRun(d, LegOrder + ArmOrder, Angles(RestAngles(env.cfg)), true, env.rig)
  }

  /** `move()` changes no setup attribute; it raises only AttributeError,
      exactly when one of the sixteen servos is unbound; a rejected angle
      skips nothing, so when all sixteen are bound it makes sixteen attempts
      in order, each accepted or rejected as the servo decides. */
  lemma {:induction false} ArmMoveSpec(d: Dev, env: Env)
    ensures var r := ArmMove(d, env);
      var js := LegOrder + ArmOrder;
      r.dev.setup == d.setup &&
      (r.out == Ok <==> forall j :: j in d.setup.servo) &&
      (r.out.Raised? ==> r.out.exc == AttributeError) &&
      (r.out == Ok ==>
         |r.dev.hw.log| == |d.hw.log| + 16 && r.dev.hw.log[..|d.hw.log|] == d.hw.log &&
         forall i :: 0 <= i < 16 ==>
           var v := Some(env.cfg.servo(js[i]).restAngle);
           r.dev.hw.log[|d.hw.log| + i] ==
             (if env.rig.accepts(js[i], v) then Wrote(js[i], v) else Rejected(js[i], v)))
  {
    var t := Angles(RestAngles(env.cfg));
    var js := LegOrder + ArmOrder;
    assert forall j :: Target(t, j) == Success(Some(env.cfg.servo(j).restAngle));
    forall j ensures j in js {
      LegOrderIsTheLegs(j);
    }
    GuardedRun(d, js, t, env.rig);
  }

  // ------------------------------------------------------------- setters

  /** `int(maprange((-1, 1), (0, 180), raw_value / 2))`. */
  function RotationTarget(raw: real, mr: MapRange): int {
    Int(mr(Span(-1.0, 1.0), Span(0.0, 180.0), raw / 2.0))
  }

  /** `int(maprange((-1, 1), (180, 0), raw_value / 2))`, shared by lift and
      range. */
  function ReversedTarget(raw: real, mr: MapRange): int {
    Int(mr(Span(-1.0, 1.0), Span(180.0, 0.0), raw / 2.0))
  }

  /** `int(maprange((-1, 1), (100, 150), raw_value))`. */
  function TiltTarget(raw: real, mr: MapRange): int {
    Int(mr(Span(-1.0, 1.0), Span(100.0, 150.0), raw))
  }

  /** `if int(servo.angle) != target: servo.angle = target`. */
  function WriteIfChanged(d: Dev, j: Joint, target: int, rig: Rig): DevRes {
    match ReadAngle(d, j)
    case Failure(e) => DevRes(d, Raised(e))
    case Success(current) =>
      if current != target then WriteAngle(d, j, Some(target), rig) else DevRes(d, Ok)
  }

  /** A setter never changes the setup object nor another servo. It raises
      what reading the angle raises; when the servo already reads back the
      target it changes nothing; otherwise it makes exactly one write
      attempt, which completes when the servo accepts the target and leaves
      the servo reading back the target. */
  lemma WriteIfChangedSpec(d: Dev, j: Joint, target: int, rig: Rig)
    ensures var r := WriteIfChanged(d, j, target, rig);
      r.dev.setup == d.setup &&
      (forall k :: k != j ==> ReadBack(r.dev.hw, k) == ReadBack(d.hw, k)) &&
      (ReadAngle(d, j).Failure? ==> r == DevRes(d, Raised(ReadAngle(d, j).exc))) &&
      (ReadAngle(d, j) == Success(target) ==> r == DevRes(d, Ok)) &&
      (ReadAngle(d, j).Success? && ReadAngle(d, j).value != target ==>
         r.dev.hw.log == d.hw.log + [if rig.accepts(j, Some(target)) then Wrote(j, Some(target)) else Rejected(j, Some(target))] &&
         (r.out == Ok <==> rig.accepts(j, Some(target))) &&
         (r.out.Raised? ==> r.out.exc == ValueError)) &&
      (r.out == Ok ==> ReadAngle(r.dev, j) == Success(target))
  {
  }

  /** Write-only-on-change: once a setter has completed, a second call with
      the same target makes no write and changes nothing. */
  lemma WriteIfChangedIdempotent(d: Dev, j: Joint, target: int, rig: Rig)
    requires WriteIfChanged(d, j, target, rig).out == Ok
    ensures var r := WriteIfChanged(d, j, target, rig);
      WriteIfChanged(r.dev, j, target, rig) == DevRes(r.dev, Ok)
  {
    WriteIfChangedSpec(d, j, target, rig);
  }

  /** `arm_set_cam_tilt`: the same comparison, but the assignment goes to
      the misspelled `angel`. */
  function SetTilt(d: Dev, target: int): DevRes {
    match ReadAngle(d, ArmCamTilt)
    case Failure(e) => DevRes(d, Raised(e))
    case Success(current) =>
      if current != target then WriteAngel(d, ArmCamTilt, target) else DevRes(d, Ok)
  }

  /** The cam tilt setter never touches the hardware, so no servo's angle
      changes through it; it raises what reading the angle raises, and when
      the angle differs from the target it records the target in the stray
      `angel` attribute of the cam tilt servo and in nothing else. */
  lemma SetTiltSpec(d: Dev, target: int)
    ensures var r := SetTilt(d, target);
      r.dev.hw == d.hw &&
      (forall j :: ReadAngle(r.dev, j) == ReadAngle(d, j)) &&
      (r.out == Ok <==> ReadAngle(d, ArmCamTilt).Success?) &&
      (r.out.Raised? ==> r.out == Raised(ReadAngle(d, ArmCamTilt).exc)) &&
      r.dev.setup == d.setup.(servo := r.dev.setup.servo) &&
      r.dev.setup.servo.Keys == d.setup.servo.Keys &&
      (forall j :: j in d.setup.servo && j != ArmCamTilt ==> r.dev.setup.servo[j] == d.setup.servo[j]) &&
      (ReadAngle(d, ArmCamTilt).Success? && ReadAngle(d, ArmCamTilt).value != target ==>
         r.dev.setup.servo[ArmCamTilt] == d.setup.servo[ArmCamTilt].(angel := Some(target)))
  {
  }

  // ----------------------------------------------------------- the class

  /** The arm moves object; it holds nothing of its own and works on the
      servos of the setup object. */
  class MotionControllerArmMoves {
    const setup: MotionControllerSetup

    constructor (setup: MotionControllerSetup)
      ensures this.setup == setup
    {
      this.setup := setup;
    }

    method RestPosition() returns (out: Outcome)
      modifies setup.bus
      ensures DevRes(setup.Device(), out) == ArmRest(old(setup.Device()), setup.bus.env)
    {
      out := setup.WriteArm(Angles(RestAngles(setup.bus.env.cfg)), false);
    }

    method Move() returns (out: Outcome)
      modifies setup.bus
      ensures DevRes(setup.Device(), out) == ArmMove(old(setup.Device()), setup.bus.env)
    {
      var t := Angles(RestAngles(setup.bus.env.cfg));
      WriteRunAppend(setup.Device(), LegOrder, ArmOrder, t, true, setup.bus.env.rig);
      out := setup.WriteLegs(t, true);
      if out.Raised? { return; }
      out := setup.WriteArm(t, true);
    }

    /** The body the three angle setters share. */
    method SetIfChanged(j: Joint, target: int) returns (out: Outcome)
      modifies setup.bus
      ensures DevRes(setup.Device(), out) == WriteIfChanged(old(setup.Device()), j, target, setup.bus.env.rig)
    {
      var current := setup.ServoAngle(j);
      if current.Failure? {
        return Raised(current.exc);
      }
      if current.value != target {
        out := setup.SetServoAngle(j, Some(target));
      } else {
        out := Ok;
      }
    }

    method ArmSetRotation(raw: real) returns (out: Outcome)
      modifies setup.bus
      ensures DevRes(setup.Device(), out) ==
        WriteIfChanged(old(setup.Device()), ArmRotation, RotationTarget(raw, setup.bus.env.maprange), setup.bus.env.rig)
    {
      out := SetIfChanged(ArmRotation, RotationTarget(raw, setup.bus.env.maprange));
    }

    method ArmSetLift(raw: real) returns (out: Outcome)
      modifies setup.bus
      ensures DevRes(setup.Device(), out) ==
        WriteIfChanged(old(setup.Device()), ArmLift, ReversedTarget(raw, setup.bus.env.maprange), setup.bus.env.rig)
    {
      out := SetIfChanged(ArmLift, ReversedTarget(raw, setup.bus.env.maprange));
    }

    method ArmSetRange(raw: real) returns (out: Outcome)
      modifies setup.bus
      ensures DevRes(setup.Device(), out) ==
        WriteIfChanged(old(setup.Device()), ArmRange, ReversedTarget(raw, setup.bus.env.maprange), setup.bus.env.rig)
    {
      out := SetIfChanged(ArmRange, ReversedTarget(raw, setup.bus.env.maprange));
    }

    method ArmSetCamTilt(raw: real) returns (out: Outcome)
      modifies setup
      ensures DevRes(setup.Device(), out) == SetTilt(old(setup.Device()), TiltTarget(raw, setup.bus.env.maprange))
    {
      var target := TiltTarget(raw, setup.bus.env.maprange);
      var current := setup.ServoAngle(ArmCamTilt);
      if current.Failure? {
        return Raised(current.exc);
      }
      if current.value != target {
        out := setup.SetServoAngel(ArmCamTilt, target);
      } else {
        out := Ok;
      }
    }
  }
}
