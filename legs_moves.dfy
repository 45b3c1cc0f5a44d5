/** spotmicroai/motion_controller/legs_moves.py: the twelve leg angle fields
    and the moves that change them or write them to the servos. */
module LegsMoves {
  import opened Common
  import opened Platform
  import opened MotionControllerSetup

  /** The angle fields (a joint absent from the map holds None) together with
      the setup object and hardware the moves act on. */
  datatype Legs = Legs(angle: map<Joint, int>, dev: Dev)

  datatype LegsRes = LegsRes(legs: Legs, out: Outcome)

  // ------------------------------------------------------------ rest_position

  /** The twelve configured leg rest angles. */
  function LegRestAngles(cfg: Config): (m: map<Joint, int>)
    ensures forall j :: j in m <==> j in LegOrder
    ensures forall j :: j in m ==> m[j] == cfg.servo(j).restAngle
  {
    map j | j in LegOrder :: cfg.servo(j).restAngle
  }

  /** `rest_position` assigns the rest angles to attributes of the setup
      object, not to this object's fields, and writes no servo. */
  function AssignRest(l: Legs, cfg: Config): Legs {
    l.(dev := l.dev.(setup := l.dev.setup.(restAttr := l.dev.setup.restAttr + LegRestAngles(cfg))))
  }

  // ---------------------------------------------------- relative moves

  /** A straight run of `self.x_angle += k`; `None += k` raises TypeError,
      and the updates before it stay made. */
  function Shift(a: map<Joint, int>, ds: seq<(Joint, int)>): (map<Joint, int>, Outcome)
    decreases |ds|
  {
    if ds == [] then (a, Ok)
    else if ds[0].0 !in a then (a, Raised(TypeError))
    else Shift(a[ds[0].0 := a[ds[0].0] + ds[0].1], ds[1..])
  }

  lemma {:induction false} ShiftAppend(a: map<Joint, int>, xs: seq<(Joint, int)>, ys: seq<(Joint, int)>)
    ensures Shift(a, xs + ys) == var (b, out) := Shift(a, xs); if out.Raised? then (b, out) else Shift(b, ys)
    decreases |xs|
  {
    if xs == [] {
      assert xs + ys == ys;
    } else {
      assert (xs + ys)[0] == xs[0];
      assert (xs + ys)[1..] == xs[1..] + ys;
      if xs[0].0 in a {
        ShiftAppend(a[xs[0].0 := a[xs[0].0] + xs[0].1], xs[1..], ys);
      }
    }
  }

  /** The total change a run makes to one joint. */
  function Delta(ds: seq<(Joint, int)>, j: Joint): int
    decreases |ds|
  {
    if ds == [] then 0 else (if ds[0].0 == j then ds[0].1 else 0) + Delta(ds[1..], j)
  }

  /** `es` is `ds` with every change negated. */
  predicate Opposite(ds: seq<(Joint, int)>, es: seq<(Joint, int)>) {
    |ds| == |es| && forall i :: 0 <= i < |ds| ==> es[i] == (ds[i].0, -ds[i].1)
  }

  predicate Mentions(ds: seq<(Joint, int)>, j: Joint) {
    exists i :: 0 <= i < |ds| && ds[i].0 == j
  }

  lemma MentionsTail(ds: seq<(Joint, int)>, j: Joint)
    requires ds != [] && Mentions(ds[1..], j)
    ensures Mentions(ds, j)
  {
    var i :| 0 <= i < |ds[1..]| && ds[1..][i].0 == j;
    assert ds[i + 1].0 == j;
  }

  /** Opposite runs touch the same fields. */
  lemma MentionsOpposite(ds: seq<(Joint, int)>, es: seq<(Joint, int)>, j: Joint)
    requires Opposite(ds, es)
    ensures Mentions(es, j) <==> Mentions(ds, j)
  {
    if Mentions(ds, j) {
      var i :| 0 <= i < |ds| && ds[i].0 == j;
      assert es[i].0 == j;
    }
    if Mentions(es, j) {
      var i :| 0 <= i < |es| && es[i].0 == j;
      assert ds[i].0 == j;
    }
  }

  /** A run keeps the set of defined fields; it completes exactly when every
      field it touches is defined, raising TypeError otherwise; completed, it
      has added its total change to every field; a field it does not touch is
      unchanged even when it raises. */
  lemma {:induction false} ShiftSpec(a: map<Joint, int>, ds: seq<(Joint, int)>)
    ensures Shift(a, ds).0.Keys == a.Keys
    ensures Shift(a, ds).1 == Ok <==> forall i :: 0 <= i < |ds| ==> ds[i].0 in a
    ensures Shift(a, ds).1.Raised? ==> Shift(a, ds).1.exc == TypeError
    ensures Shift(a, ds).1 == Ok ==> forall j :: j in a ==> Shift(a, ds).0[j] == a[j] + Delta(ds, j)
    ensures forall j :: j in a && !Mentions(ds, j) ==> Shift(a, ds).0[j] == a[j]
    decreases |ds|
  {
    if ds != [] && ds[0].0 in a {
      var a' := a[ds[0].0 := a[ds[0].0] + ds[0].1];
      ShiftSpec(a', ds[1..]);
      assert forall i :: 0 < i < |ds| ==> ds[i] == ds[1..][i - 1];
      forall j | Mentions(ds[1..], j) ensures Mentions(ds, j) {
        MentionsTail(ds, j);
      }
    }
  }

  lemma {:induction false} DeltaUnmentioned(ds: seq<(Joint, int)>, j: Joint)
    requires !Mentions(ds, j)
    ensures Delta(ds, j) == 0
    decreases |ds|
  {
    if ds != [] {
      if Mentions(ds[1..], j) {
        MentionsTail(ds, j);
      }
      DeltaUnmentioned(ds[1..], j);
    }
  }

  /** The change a run makes to a joint it mentions once. */
  lemma {:induction false} DeltaAt(ds: seq<(Joint, int)>, i: nat)
    requires i < |ds|
    requires forall k :: 0 <= k < |ds| && k != i ==> ds[k].0 != ds[i].0
    ensures Delta(ds, ds[i].0) == ds[i].1
    decreases i
  {
    if i == 0 {
      assert !Mentions(ds[1..], ds[0].0) by {
        forall k | 0 <= k < |ds[1..]| ensures ds[1..][k].0 != ds[0].0 {
          assert ds[1..][k] == ds[k + 1];
        }
      }
      DeltaUnmentioned(ds[1..], ds[0].0);
    } else {
      assert ds[0].0 != ds[i].0;
      assert ds[1..][i - 1] == ds[i];
      DeltaAt(ds[1..], i - 1);
    }
  }

  lemma {:induction false} DeltaOpposite(ds: seq<(Joint, int)>, es: seq<(Joint, int)>, j: Joint)
    requires Opposite(ds, es)
    ensures Delta(es, j) == -Delta(ds, j)
    decreases |ds|
  {
    if ds != [] {
      DeltaOpposite(ds[1..], es[1..], j);
    }
  }

  /** A completed run followed by its opposite restores every field. */
  lemma ShiftUndo(a: map<Joint, int>, ds: seq<(Joint, int)>, es: seq<(Joint, int)>)
    requires Opposite(ds, es)
    requires Shift(a, ds).1 == Ok
    ensures Shift(Shift(a, ds).0, es) == (a, Ok)
  {
    var b := Shift(a, ds).0;
    ShiftSpec(a, ds);
    ShiftSpec(b, es);
    var c := Shift(b, es).0;
    assert Shift(b, es).1 == Ok;
    forall j | j in a ensures c[j] == a[j] {
      DeltaOpposite(ds, es, j);
    }
    assert c == a;
  }

  const Range := 10
  const Range2 := 15
  const SideRange := 5

  /** `body_move_body_up_and_down` with a negative value (lines 124-131). */
  const UpDownNegative: seq<(Joint, int)> := [
    (RearLegLeft, -Range), (RearFeetLeft, Range2), (RearLegRight, Range), (RearFeetRight, -Range2),
    (FrontLegLeft, -Range), (FrontFeetLeft, Range2), (FrontLegRight, Range), (FrontFeetRight, -Range2)]

  /** The same with a positive value (lines 134-141). */
  const UpDownPositive: seq<(Joint, int)> := [
    (RearLegLeft, Range), (RearFeetLeft, -Range2), (RearLegRight, -Range), (RearFeetRight, Range2),
    (FrontLegLeft, Range), (FrontFeetLeft, -Range2), (FrontLegRight, -Range), (FrontFeetRight, Range2)]

  /** `body_move_body_left_right` with a negative value. */
  const LeftRightNegative: seq<(Joint, int)> := [
    (RearShoulderLeft, -SideRange), (RearShoulderRight, -SideRange),
    (FrontShoulderLeft, SideRange), (FrontShoulderRight, SideRange)]

  /** The same with a positive value. */
  const LeftRightPositive: seq<(Joint, int)> := [
    (RearShoulderLeft, SideRange), (RearShoulderRight, SideRange),
    (FrontShoulderLeft, -SideRange), (FrontShoulderRight, -SideRange)]

  lemma OppositeDirections()
    ensures Opposite(UpDownNegative, UpDownPositive) && Opposite(UpDownPositive, UpDownNegative)
    ensures Opposite(LeftRightNegative, LeftRightPositive) && Opposite(LeftRightPositive, LeftRightNegative)
  {
  }

  function Apply(l: Legs, ds: seq<(Joint, int)>): LegsRes {
    var (a, out) := Shift(l.angle, ds);
    LegsRes(l.(angle := a), out)
  }

  function UpDown(l: Legs, raw: real, cfg: Config): LegsRes {
    if raw < 0.0 then Apply(l, UpDownNegative)
    else if raw > 0.0 then Apply(l, UpDownPositive)
    else LegsRes(AssignRest(l, cfg), Ok)
  }

  function LeftRight(l: Legs, raw: real, cfg: Config): LegsRes {
    if raw < 0.0 then Apply(l, LeftRightNegative)
    else if raw > 0.0 then Apply(l, LeftRightPositive)
    else LegsRes(AssignRest(l, cfg), Ok)
  }

  lemma MentionedIn(ds: seq<(Joint, int)>, a: map<Joint, int>)
    ensures (forall i :: 0 <= i < |ds| ==> ds[i].0 in a) <==> (forall j :: Mentions(ds, j) ==> j in a)
  {
  }

  /** Which fields the up/down runs touch, and by how much. */
  lemma UpDownTable(j: Joint)
    ensures Mentions(UpDownNegative, j) <==> !IsArm(j) && !IsShoulder(j)
    ensures Mentions(UpDownPositive, j) <==> !IsArm(j) && !IsShoulder(j)
  {
    OppositeDirections();
    MentionsOpposite(UpDownNegative, UpDownPositive, j);
    match j
    case RearLegLeft => assert UpDownNegative[0].0 == j;
    case RearFeetLeft => assert UpDownNegative[1].0 == j;
    case RearLegRight => assert UpDownNegative[2].0 == j;
    case RearFeetRight => assert UpDownNegative[3].0 == j;
    case FrontLegLeft => assert UpDownNegative[4].0 == j;
    case FrontFeetLeft => assert UpDownNegative[5].0 == j;
    case FrontLegRight => assert UpDownNegative[6].0 == j;
    case FrontFeetRight => assert UpDownNegative[7].0 == j;
    case _ =>
      assert !Mentions(UpDownNegative, j) by {
        forall i | 0 <= i < |UpDownNegative| ensures UpDownNegative[i].0 != j {
        }
      }
  }

  /** Up/down: a non-zero value moves the eight leg and feet fields by ±10
      and ±15 (those of UpDownNegative for a negative value, their negation
      for a positive one), never touches a shoulder field, the hardware or the
      setup object, and raises TypeError exactly when one of the eight is
      None; zero keeps every field and assigns the rest angles to the setup
      object. */
  lemma UpDownMoves(l: Legs, raw: real, cfg: Config)
    ensures var r := UpDown(l, raw, cfg);
      (raw != 0.0 ==> r.legs.dev == l.dev && r.legs.angle.Keys == l.angle.Keys) &&
      (raw != 0.0 ==> (r.out == Ok <==> forall j :: !IsArm(j) && !IsShoulder(j) ==> j in l.angle)) &&
      (r.out.Raised? ==> r.out.exc == TypeError) &&
      (forall j :: IsShoulder(j) && j in l.angle ==> r.legs.angle[j] == l.angle[j]) &&
      (raw < 0.0 && r.out == Ok ==> forall j :: j in l.angle ==>
         r.legs.angle[j] == l.angle[j] + Delta(UpDownNegative, j)) &&
      (raw > 0.0 && r.out == Ok ==> forall j :: j in l.angle ==>
         r.legs.angle[j] == l.angle[j] - Delta(UpDownNegative, j)) &&
      (raw == 0.0 ==> (r.out == Ok && r.legs.angle == l.angle &&
         forall j :: j in LegOrder ==> r.legs.dev.setup.restAttr[j] == cfg.servo(j).restAngle))
  {
    forall j ensures (Mentions(UpDownNegative, j) <==> !IsArm(j) && !IsShoulder(j)) &&
                     (Mentions(UpDownPositive, j) <==> !IsArm(j) && !IsShoulder(j)) &&
                     Delta(UpDownPositive, j) == -Delta(UpDownNegative, j) {
      UpDownTable(j);
      OppositeDirections();
      DeltaOpposite(UpDownNegative, UpDownPositive, j);
    }
    if raw < 0.0 {
      ShiftSpec(l.angle, UpDownNegative);
      MentionedIn(UpDownNegative, l.angle);
    } else if raw > 0.0 {
      ShiftSpec(l.angle, UpDownPositive);
      MentionedIn(UpDownPositive, l.angle);
    }
  }

  /** A completed move down followed by a move up, or up followed by down,
      restores all twelve fields. */
  lemma UpDownRoundTrip(l: Legs, raw1: real, raw2: real, cfg: Config)
    requires (raw1 < 0.0 && raw2 > 0.0) || (raw1 > 0.0 && raw2 < 0.0)
    requires UpDown(l, raw1, cfg).out == Ok
    ensures UpDown(UpDown(l, raw1, cfg).legs, raw2, cfg) == LegsRes(l, Ok)
  {
    OppositeDirections();
    if raw1 < 0.0 {
      var r1 := Apply(l, UpDownNegative);
      assert UpDown(l, raw1, cfg) == r1;
      ShiftUndo(l.angle, UpDownNegative, UpDownPositive);
      assert UpDown(r1.legs, raw2, cfg) == Apply(r1.legs, UpDownPositive);
    } else {
      var r1 := Apply(l, UpDownPositive);
      assert UpDown(l, raw1, cfg) == r1;
      ShiftUndo(l.angle, UpDownPositive, UpDownNegative);
      assert UpDown(r1.legs, raw2, cfg) == Apply(r1.legs, UpDownNegative);
    }
  }


  /** Which fields the left/right runs touch, and by how much. */
  lemma LeftRightTable(j: Joint)
    ensures Mentions(LeftRightNegative, j) <==> IsShoulder(j)
    ensures Mentions(LeftRightPositive, j) <==> IsShoulder(j)
    ensures Delta(LeftRightNegative, j) == if !IsShoulder(j) then 0 else if IsRear(j) then -SideRange else SideRange
    ensures Delta(LeftRightPositive, j) == -Delta(LeftRightNegative, j)
  {
    OppositeDirections();
    DeltaOpposite(LeftRightNegative, LeftRightPositive, j);
    MentionsOpposite(LeftRightNegative, LeftRightPositive, j);
    var ds := LeftRightNegative;
    match j
    case RearShoulderLeft => DeltaAt(ds, 0);
    case RearShoulderRight => DeltaAt(ds, 1);
    case FrontShoulderLeft => DeltaAt(ds, 2);
    case FrontShoulderRight => DeltaAt(ds, 3);
    case _ =>
      assert !Mentions(ds, j) by {
        forall i | 0 <= i < |ds| ensures ds[i].0 != j {
        }
      }
      DeltaUnmentioned(ds, j);
  }

  /** Left/right: a non-zero value moves the rear shoulders one way and the
      front shoulders the other by 5 and touches no leg or feet field; zero
      keeps every field. */
  lemma LeftRightMoves(l: Legs, raw: real, cfg: Config)
    ensures var r := LeftRight(l, raw, cfg);
      (raw != 0.0 ==> r.legs.dev == l.dev && r.legs.angle.Keys == l.angle.Keys) &&
      (raw != 0.0 ==> (r.out == Ok <==> forall j :: IsShoulder(j) ==> j in l.angle)) &&
      (r.out.Raised? ==> r.out.exc == TypeError) &&
      (forall j :: !IsShoulder(j) && j in l.angle ==> r.legs.angle[j] == l.angle[j]) &&
      (raw != 0.0 && r.out == Ok ==> forall j :: IsShoulder(j) ==>
         r.legs.angle[j] == l.angle[j] +
           (if (raw < 0.0) == IsRear(j) then -SideRange else SideRange)) &&
      (raw == 0.0 ==> r.out == Ok && r.legs.angle == l.angle)
  {
    forall j ensures (Mentions(LeftRightNegative, j) <==> IsShoulder(j)) &&
                     (Mentions(LeftRightPositive, j) <==> IsShoulder(j)) &&
                     Delta(LeftRightNegative, j) == (if !IsShoulder(j) then 0 else if IsRear(j) then -SideRange else SideRange) &&
                     Delta(LeftRightPositive, j) == -Delta(LeftRightNegative, j) {
      LeftRightTable(j);
    }
    if raw < 0.0 {
      ShiftSpec(l.angle, LeftRightNegative);
      MentionedIn(LeftRightNegative, l.angle);
    } else if raw > 0.0 {
      ShiftSpec(l.angle, LeftRightPositive);
      MentionedIn(LeftRightPositive, l.angle);
    }
  }

  lemma LeftRightRoundTrip(l: Legs, raw1: real, raw2: real, cfg: Config)
    requires (raw1 < 0.0 && raw2 > 0.0) || (raw1 > 0.0 && raw2 < 0.0)
    requires LeftRight(l, raw1, cfg).out == Ok
    ensures LeftRight(LeftRight(l, raw1, cfg).legs, raw2, cfg) == LegsRes(l, Ok)
  {
    OppositeDirections();
    if raw1 < 0.0 {
      var r1 := Apply(l, LeftRightNegative);
      assert LeftRight(l, raw1, cfg) == r1;
      ShiftUndo(l.angle, LeftRightNegative, LeftRightPositive);
      assert LeftRight(r1.legs, raw2, cfg) == Apply(r1.legs, LeftRightPositive);
    } else {
      var r1 := Apply(l, LeftRightPositive);
      assert LeftRight(l, raw1, cfg) == r1;
      ShiftUndo(l.angle, LeftRightPositive, LeftRightNegative);
      assert LeftRight(r1.legs, raw2, cfg) == Apply(r1.legs, LeftRightNegative);
    }
  }


  // ------------------------------------------------------- analog moves

  /** The `*_max_angle` locals of `body_move_body_up_and_down_analog`. */
  const MaxAngle: map<Joint, int> := map[
    RearLegLeft := 38, RearFeetLeft := 70, RearLegRight := 126, RearFeetRight := 102,
    FrontLegLeft := 57, FrontFeetLeft := 85, FrontLegRight := 130, FrontFeetRight := 120]

  /** `int(maprange((1, -1), (rest angle, max angle), raw))` for one joint. */
  function AnalogHeight(j: Joint, max: int, raw: real, env: Env): int {
    Int(env.maprange(Span(1.0, -1.0), Span(env.cfg.servo(j).restAngle as real, max as real), raw))
  }

  /** `int(maprange((-1, 1), (30, 150), raw))` for the rear shoulders and
      `(150, 30)` for the front ones. */
  function AnalogSide(j: Joint, raw: real, mr: MapRange): int {
    if IsRear(j) then Int(mr(Span(-1.0, 1.0), Span(30.0, 150.0), raw))
    else Int(mr(Span(-1.0, 1.0), Span(150.0, 30.0), raw))
  }

  /** The eight values `body_move_body_up_and_down_analog` assigns. */
  function HeightTargets(raw: real, env: Env): map<Joint, int> {
    map[RearLegLeft := AnalogHeight(RearLegLeft, 38, raw, env),
        RearFeetLeft := AnalogHeight(RearFeetLeft, 70, raw, env),
        RearLegRight := AnalogHeight(RearLegRight, 126, raw, env),
        RearFeetRight := AnalogHeight(RearFeetRight, 102, raw, env),
        FrontLegLeft := AnalogHeight(FrontLegLeft, 57, raw, env),
        FrontFeetLeft := AnalogHeight(FrontFeetLeft, 85, raw, env),
        FrontLegRight := AnalogHeight(FrontLegRight, 130, raw, env),
        FrontFeetRight := AnalogHeight(FrontFeetRight, 120, raw, env)]
  }

  /** The four values `body_move_body_left_right_analog` assigns. */
  function SideTargets(raw: real, mr: MapRange): map<Joint, int> {
    var deltaA := AnalogSide(RearShoulderLeft, raw, mr);
    var deltaB := AnalogSide(FrontShoulderLeft, raw, mr);
    map[RearShoulderLeft := deltaA, RearShoulderRight := deltaA,
        FrontShoulderLeft := deltaB, FrontShoulderRight := deltaB]
  }

  function UpDownAnalog(a: map<Joint, int>, raw: real, env: Env): map<Joint, int> {
    a + HeightTargets(raw, env)
  }

  function LeftRightAnalog(a: map<Joint, int>, raw: real, mr: MapRange): map<Joint, int> {
    a + SideTargets(raw, mr)
  }

  /** The analog up/down move assigns each of the eight leg and feet fields
      from its rest angle and its maximum angle, so afterwards none of them
      is None. */
  lemma UpDownAnalogAssigns(a: map<Joint, int>, raw: real, env: Env, j: Joint)
    requires j in MaxAngle
    ensures var b := UpDownAnalog(a, raw, env);
      j in b && b[j] == AnalogHeight(j, MaxAngle[j], raw, env)
  {
    match j
    case RearLegLeft =>
    case RearFeetLeft =>
    case RearLegRight =>
    case RearFeetRight =>
    case FrontLegLeft =>
    case FrontFeetLeft =>
    case FrontLegRight =>
    case FrontFeetRight =>
  }

  /** The analog up/down move keeps every other field, None included. */
  lemma UpDownAnalogKeeps(a: map<Joint, int>, raw: real, env: Env, j: Joint)
    requires j !in MaxAngle
    ensures var b := UpDownAnalog(a, raw, env);
      (j in b <==> j in a) && (j in a ==> b[j] == a[j])
  {
  }

  /** The maximum angles belong to exactly the eight leg and feet joints. */
  lemma MaxAngleJoints(j: Joint)
    ensures j in MaxAngle <==> !IsArm(j) && !IsShoulder(j)
  {
  }

  /** The analog left/right move gives both rear shoulders one value and both
      front shoulders another, and keeps every other field. */
  lemma LeftRightAnalogAssigns(a: map<Joint, int>, raw: real, mr: MapRange)
    ensures var b := LeftRightAnalog(a, raw, mr);
      (forall j :: IsShoulder(j) ==> j in b) &&
      b[RearShoulderLeft] == b[RearShoulderRight] &&
      b[FrontShoulderLeft] == b[FrontShoulderRight] &&
      (forall j :: !IsShoulder(j) ==> (j in b <==> j in a) && (j in a ==> b[j] == a[j]))
  {
  }

  /** After both analog moves no leg field is None, so nothing that adds an
      offset to them raises TypeError. */
  lemma AnalogDefinesAll(a: map<Joint, int>, raw1: real, raw2: real, env: Env)
    ensures forall j :: j in LegOrder ==> j in LeftRightAnalog(UpDownAnalog(a, raw1, env), raw2, env.maprange)
  {
    forall j | j in LegOrder
      ensures j in LeftRightAnalog(UpDownAnalog(a, raw1, env), raw2, env.maprange)
    {
      LegOrderIsTheLegs(j);
    }
  }

  // ----------------------------------------------------------- postures

  datatype Posture = Standing | PositionRight | PositionLeft

  const VariationLeg := 50
  const VariationFeet := 70
  const Move := 20

  /** The offsets `standing_position` adds to each field. */
  const StandingOffsets: map<Joint, int> := map[
    RearShoulderLeft := 10, RearLegLeft := -VariationLeg, RearFeetLeft := VariationFeet,
    RearShoulderRight := -10, RearLegRight := VariationLeg, RearFeetRight := -VariationFeet,
    FrontShoulderLeft := -10, FrontLegLeft := -VariationLeg + 5, FrontFeetLeft := VariationFeet - 5,
    FrontShoulderRight := 10, FrontLegRight := VariationLeg - 5, FrontFeetRight := -VariationFeet + 5]

  function Offsets(p: Posture): map<Joint, int> {
    match p
    case Standing => StandingOffsets
    case PositionRight => StandingOffsets[
      RearShoulderLeft := 10 + Move][RearShoulderRight := -10 + Move]
      [FrontShoulderLeft := -10 - Move][FrontShoulderRight := 10 - Move]
    case PositionLeft => StandingOffsets[
      RearShoulderLeft := 10 - Move][RearShoulderRight := -10 - Move]
      [FrontShoulderLeft := -10 + Move][FrontShoulderRight := 10 + Move]
  }

  function PostureTargets(l: Legs, p: Posture): Targets {
    Shifted(l.angle, Offsets(p))
  }

  /** A posture: twelve unguarded writes of field plus offset, rear legs
      first. */
  function WritePosture(l: Legs, p: Posture, rig: Rig): LegsRes {
    var r := WriteRun(l.dev, LegOrder, PostureTargets(l, p), false, rig);
    LegsRes(l.(dev := r.dev), r.out)
  }

  lemma LegOrderDistinct()
    ensures Distinct(LegOrder)
  {
  }

  lemma {:induction false} WrittenAppend(xs: seq<Joint>, ys: seq<Joint>, t: Targets)
    requires forall j :: j in xs ==> Target(t, j).Success?
    ensures Written(xs + ys, t) == Written(xs, t) + Written(ys, t)
    decreases |xs|
  {
    if xs == [] {
      assert xs + ys == ys;
    } else {
      assert (xs + ys)[0] == xs[0];
      assert (xs + ys)[1..] == xs[1..] + ys;
      WrittenAppend(xs[1..], ys, t);
    }
  }

  /** Unguarded writes of field plus offset to distinct joints complete
      exactly when every field is defined and every servo exists and accepts
      its value; each servo then reads back its field plus offset. */
  lemma {:induction false} ShiftedWrites(d: Dev, js: seq<Joint>, a: map<Joint, int>, off: map<Joint, int>, rig: Rig)
    requires Distinct(js)
    ensures var r := WriteRun(d, js, Shifted(a, off), false, rig);
      r.dev.setup == d.setup &&
      (r.out == Ok <==> forall j :: j in js ==>
         j in a && j in d.setup.servo && rig.accepts(j, Some(a[j] + Offset(off, j)))) &&
      (r.out == Ok ==>
         r.dev.hw.log == d.hw.log + Written(js, Shifted(a, off)) &&
         forall j :: j in js ==> ReadBack(r.dev.hw, j) == Some(a[j] + Offset(off, j)))
  {
    var t := Shifted(a, off);
    assert forall j ::
      (Target(t, j).Success? <==> j in a) && (j in a ==> Target(t, j).value == Some(a[j] + Offset(off, j)));
    UnguardedRun(d, js, t, rig);
  }

  /** A posture changes no field and no setup attribute. It completes exactly
      when every leg field is defined and every leg servo exists and accepts
      field plus offset; each leg servo then reads back its field plus the
      posture's offset. */
  lemma {:induction false} PostureSpec(l: Legs, p: Posture, rig: Rig)
    ensures var r := WritePosture(l, p, rig);
      r.legs.angle == l.angle && r.legs.dev.setup == l.dev.setup &&
      (r.out == Ok <==> forall j :: j in LegOrder ==>
         j in l.angle && j in l.dev.setup.servo && rig.accepts(j, Some(l.angle[j] + Offset(Offsets(p), j)))) &&
      (r.out == Ok ==>
         forall j :: j in LegOrder ==> ReadBack(r.legs.dev.hw, j) == Some(l.angle[j] + Offset(Offsets(p), j)))
  {
    LegOrderDistinct();
    ShiftedWrites(l.dev, LegOrder, l.angle, Offsets(p), rig);
  }

  /** A completed posture has written the six rear servos, in order, before
      the six front ones. */
  lemma {:induction false} PostureOrder(l: Legs, p: Posture, rig: Rig)
    requires WritePosture(l, p, rig).out == Ok
    ensures WritePosture(l, p, rig).legs.dev.hw.log ==
      l.dev.hw.log + Written(RearOrder, PostureTargets(l, p)) + Written(FrontOrder, PostureTargets(l, p))
  {
    var t := PostureTargets(l, p);
    LegOrderDistinct();
    ShiftedWrites(l.dev, LegOrder, l.angle, Offsets(p), rig);
    WrittenAppend(RearOrder, FrontOrder, t);
  }

  /** The side postures' offsets agree with the standing ones except on the
      shoulders, where right minus left is 40 at the rear and -40 at the front. */
  lemma PostureOffsetTable(j: Joint)
    ensures !IsShoulder(j) ==>
      Offset(Offsets(PositionRight), j) == Offset(Offsets(Standing), j) &&
      Offset(Offsets(PositionLeft), j) == Offset(Offsets(Standing), j)
    ensures IsShoulder(j) ==>
      Offset(Offsets(PositionRight), j) - Offset(Offsets(PositionLeft), j) == if IsRear(j) then 40 else -40
  {
  }

  /** `body_move_position_right` and `body_move_position_left` write the same
      leg and feet values; on each rear shoulder the right posture writes 40
      more than the left one, on each front shoulder 40 less. */
  lemma {:induction false} SidePosturesDiffer(l: Legs, rig: Rig)
    requires WritePosture(l, PositionRight, rig).out == Ok
    requires WritePosture(l, PositionLeft, rig).out == Ok
    ensures var right := WritePosture(l, PositionRight, rig).legs.dev.hw;
      var left := WritePosture(l, PositionLeft, rig).legs.dev.hw;
      forall j :: j in LegOrder ==>
        ReadBack(right, j).Some? && ReadBack(left, j).Some? &&
        ReadBack(right, j).value - ReadBack(left, j).value ==
          (if !IsShoulder(j) then 0 else if IsRear(j) then 40 else -40)
  {
    PostureSpec(l, PositionRight, rig);
    PostureSpec(l, PositionLeft, rig);
    forall j | j in LegOrder
      ensures Offset(Offsets(PositionRight), j) - Offset(Offsets(PositionLeft), j) ==
        (if !IsShoulder(j) then 0 else if IsRear(j) then 40 else -40)
    {
      PostureOffsetTable(j);
    }
  }

  /** `body_move_position_right` writes the leg and feet values
      `standing_position` writes (and so, by SidePosturesDiffer, does
      `body_move_position_left`). */
  lemma {:induction false} RightPostureStands(l: Legs, rig: Rig)
    requires WritePosture(l, PositionRight, rig).out == Ok
    requires WritePosture(l, Standing, rig).out == Ok
    ensures var right := WritePosture(l, PositionRight, rig).legs.dev.hw;
      var standing := WritePosture(l, Standing, rig).legs.dev.hw;
      forall j :: j in LegOrder && !IsShoulder(j) ==> ReadBack(right, j) == ReadBack(standing, j)
  {
    forall j | j in LegOrder && !IsShoulder(j)
      ensures ReadBack(WritePosture(l, PositionRight, rig).legs.dev.hw, j) ==
        ReadBack(WritePosture(l, Standing, rig).legs.dev.hw, j)
    {
      PostureOffsetTable(j);
      PostureReadsBack(l, PositionRight, rig, j);
      PostureReadsBack(l, Standing, rig, j);
    }
  }

  /** After a completed posture a leg servo reads back its field plus the
      posture's offset. */
  lemma {:induction false} PostureReadsBack(l: Legs, p: Posture, rig: Rig, j: Joint)
    requires WritePosture(l, p, rig).out == Ok && j in LegOrder
    ensures j in l.angle && ReadBack(WritePosture(l, p, rig).legs.dev.hw, j) == Some(l.angle[j] + Offset(Offsets(p), j))
  {
    PostureSpec(l, p, rig);
  }

  // ------------------------------------------------------------------ move

  /** `move()`: nothing when the setup object has the legs disabled;
      otherwise twelve writes of the fields as they are (None included), each
      guarded against ValueError. */
  function LegsMove(l: Legs, rig: Rig): LegsRes {
    if !l.dev.setup.legsEnabled then LegsRes(l, Ok)
    else
      var r := WriteRun(l.dev, LegOrder, Angles(l.angle), true, rig);
      LegsRes(l.(dev := r.dev), r.out)
  }

  /** `move()` changes no field. With the legs disabled it does nothing at
      all. Otherwise it raises only AttributeError, when a leg servo is
      missing; a rejected angle does not stop it, so with every servo bound it
      makes exactly twelve attempts, one per leg servo in order, each writing
      that servo's field (None when the field is unset) and each accepted or
      rejected as the servo decides. */
  lemma LegsMoveSpec(l: Legs, rig: Rig)
    ensures var r := LegsMove(l, rig);
      r.legs.angle == l.angle &&
      (!l.dev.setup.legsEnabled ==> r == LegsRes(l, Ok)) &&
      (r.out.Raised? ==> r.out.exc == AttributeError) &&
      (l.dev.setup.legsEnabled ==>
        (r.out == Ok <==> forall j :: j in LegOrder ==> j in l.dev.setup.servo)) &&
      (l.dev.setup.legsEnabled && r.out == Ok ==>
        |r.legs.dev.hw.log| == |l.dev.hw.log| + 12 &&
        r.legs.dev.hw.log[..|l.dev.hw.log|] == l.dev.hw.log &&
        forall i :: 0 <= i < 12 ==>
          var j := LegOrder[i];
          var v := if j in l.angle then Some(l.angle[j]) else None;
          r.legs.dev.hw.log[|l.dev.hw.log| + i] ==
            (if rig.accepts(j, v) then Wrote(j, v) else Rejected(j, v)))
  {
    var t := Angles(l.angle);
    GuardedRun(l.dev, LegOrder, t, rig);
  }

  // ------------------------------------------------------------- the class

  class MotionControllerLegsMoves {
    const setup: MotionControllerSetup
    var angle: map<Joint, int>

    function View(): Legs
      reads this, setup, setup.bus
    {
      Legs(angle, setup.Device())
    }

    /** The class attributes: every field starts as None. */
    constructor (setup: MotionControllerSetup)
      ensures this.setup == setup && angle == map[]
    {
      this.setup := setup;
      angle := map[];
    }

    method Move() returns (out: Outcome)
      modifies setup.bus
      ensures LegsRes(View(), out) == LegsMove(old(View()), setup.bus.env.rig)
    {
      if !setup.legsAreEnabled {
        return Ok;
      }
      out := setup.WriteLegs(Angles(angle), true);
    }

    method RestPosition()
      modifies setup
      ensures View() == AssignRest(old(View()), setup.bus.env.cfg)
    {
      setup.restAttr := setup.restAttr + LegRestAngles(setup.bus.env.cfg);
    }

    /** One `self.x_angle += k` of a run, seen as its head. */
    method AddNext(j: Joint, k: int, ghost rest: seq<(Joint, int)>) returns (out: Outcome)
      requires rest != [] && rest[0] == (j, k)
      modifies this
      ensures out.Raised? ==> Shift(old(angle), rest) == (angle, out)
      ensures out.Ok? ==> Shift(old(angle), rest) == Shift(angle, rest[1..])
    {
      if j !in angle {
        return Raised(TypeError);
      }
      angle := angle[j := angle[j] + k];
      out := Ok;
    }

    /** Four `+=` statements in a row. */
    method AddFour(j1: Joint, k1: int, j2: Joint, k2: int, j3: Joint, k3: int, j4: Joint, k4: int)
      returns (out: Outcome)
      modifies this
      ensures (angle, out) == Shift(old(angle), [(j1, k1), (j2, k2), (j3, k3), (j4, k4)])
    {
      ghost var rest := [(j1, k1), (j2, k2), (j3, k3), (j4, k4)];
      out := AddNext(j1, k1, rest); if out.Raised? { return; } rest := rest[1..];
      out := AddNext(j2, k2, rest); if out.Raised? { return; } rest := rest[1..];
      out := AddNext(j3, k3, rest); if out.Raised? { return; } rest := rest[1..];
      out := AddNext(j4, k4, rest); if out.Raised? { return; } rest := rest[1..];
    }

    method BodyMoveBodyUpAndDown(raw: real) returns (out: Outcome)
      modifies this, setup
      ensures LegsRes(View(), out) == UpDown(old(View()), raw, setup.bus.env.cfg)
    {
      out := Ok;
      if raw < 0.0 {
        ShiftAppend(angle, UpDownNegative[..4], UpDownNegative[4..]);
        assert UpDownNegative[..4] + UpDownNegative[4..] == UpDownNegative;
        assert UpDownNegative[..4] == [(RearLegLeft, -Range), (RearFeetLeft, Range2), (RearLegRight, Range), (RearFeetRight, -Range2)];
        assert UpDownNegative[4..] == [(FrontLegLeft, -Range), (FrontFeetLeft, Range2), (FrontLegRight, Range), (FrontFeetRight, -Range2)];
        out := AddFour(RearLegLeft, -Range, RearFeetLeft, Range2, RearLegRight, Range, RearFeetRight, -Range2);
        if out.Raised? { return; }
        out := AddFour(FrontLegLeft, -Range, FrontFeetLeft, Range2, FrontLegRight, Range, FrontFeetRight, -Range2);
      } else if raw > 0.0 {
        ShiftAppend(angle, UpDownPositive[..4], UpDownPositive[4..]);
        assert UpDownPositive[..4] + UpDownPositive[4..] == UpDownPositive;
        assert UpDownPositive[..4] == [(RearLegLeft, Range), (RearFeetLeft, -Range2), (RearLegRight, -Range), (RearFeetRight, Range2)];
        assert UpDownPositive[4..] == [(FrontLegLeft, Range), (FrontFeetLeft, -Range2), (FrontLegRight, -Range), (FrontFeetRight, Range2)];
        out := AddFour(RearLegLeft, Range, RearFeetLeft, -Range2, RearLegRight, -Range, RearFeetRight, Range2);
        if out.Raised? { return; }
        out := AddFour(FrontLegLeft, Range, FrontFeetLeft, -Range2, FrontLegRight, -Range, FrontFeetRight, Range2);
      } else {
        RestPosition();
      }
    }

    method BodyMoveBodyLeftRight(raw: real) returns (out: Outcome)
      modifies this, setup
      ensures LegsRes(View(), out) == LeftRight(old(View()), raw, setup.bus.env.cfg)
    {
      out := Ok;
      if raw < 0.0 {
        out := AddFour(RearShoulderLeft, -SideRange, RearShoulderRight, -SideRange,
                       FrontShoulderLeft, SideRange, FrontShoulderRight, SideRange);
      } else if raw > 0.0 {
        out := AddFour(RearShoulderLeft, SideRange, RearShoulderRight, SideRange,
                       FrontShoulderLeft, -SideRange, FrontShoulderRight, -SideRange);
      } else {
        RestPosition();
      }
    }

    method BodyMoveBodyUpAndDownAnalog(raw: real)
      modifies this
      ensures angle == UpDownAnalog(old(angle), raw, setup.bus.env)
    {
      var env := setup.bus.env;
      var deltaRearLegLeft := AnalogHeight(RearLegLeft, 38, raw, env);
      var deltaRearFeetLeft := AnalogHeight(RearFeetLeft, 70, raw, env);
      var deltaRearLegRight := AnalogHeight(RearLegRight, 126, raw, env);
      var deltaRearFeetRight := AnalogHeight(RearFeetRight, 102, raw, env);
      var deltaFrontLegLeft := AnalogHeight(FrontLegLeft, 57, raw, env);
      var deltaFrontFeetLeft := AnalogHeight(FrontFeetLeft, 85, raw, env);
      var deltaFrontLegRight := AnalogHeight(FrontLegRight, 130, raw, env);
      var deltaFrontFeetRight := AnalogHeight(FrontFeetRight, 120, raw, env);
      angle := angle + map[
        RearLegLeft := deltaRearLegLeft, RearFeetLeft := deltaRearFeetLeft,
        RearLegRight := deltaRearLegRight, RearFeetRight := deltaRearFeetRight,
        FrontLegLeft := deltaFrontLegLeft, FrontFeetLeft := deltaFrontFeetLeft,
        FrontLegRight := deltaFrontLegRight, FrontFeetRight := deltaFrontFeetRight];
    }

    method BodyMoveBodyLeftRightAnalog(raw: real)
      modifies this
      ensures angle == LeftRightAnalog(old(angle), raw, setup.bus.env.maprange)
    {
      var mr := setup.bus.env.maprange;
      var deltaA := AnalogSide(RearShoulderLeft, raw, mr);
      var deltaB := AnalogSide(FrontShoulderLeft, raw, mr);
      angle := angle + map[
        RearShoulderLeft := deltaA, RearShoulderRight := deltaA,
        FrontShoulderLeft := deltaB, FrontShoulderRight := deltaB];
    }

    method StandingPosition() returns (out: Outcome)
      modifies setup.bus
      ensures LegsRes(View(), out) == WritePosture(old(View()), Standing, setup.bus.env.rig)
    {
      out := setup.WriteLegs(PostureTargets(View(), Standing), false);
    }

    method BodyMovePositionRight() returns (out: Outcome)
      modifies setup.bus
      ensures LegsRes(View(), out) == WritePosture(old(View()), PositionRight, setup.bus.env.rig)
    {
      out := setup.WriteLegs(PostureTargets(View(), PositionRight), false);
    }

    method BodyMovePositionLeft() returns (out: Outcome)
      modifies setup.bus
      ensures LegsRes(View(), out) == WritePosture(old(View()), PositionLeft, setup.bus.env.rig)
    {
      out := setup.WriteLegs(PostureTargets(View(), PositionLeft), false);
    }
  }
}
