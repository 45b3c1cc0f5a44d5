/** Vocabulary shared by every controller: optional values, the Python
    exceptions the core raises or catches, the sixteen joints, and Python's
    `int()` on a float. */
module Common {

  datatype Option<+T> = None | Some(value: T)

  /** The exceptions the core's code raises or lets propagate.
      DeinitError stands for whatever `deinit()` of a board raises. */
  datatype Exc =
    | ValueError       // a servo refused an angle
    | TypeError        // arithmetic on, or `int()` of, None
    | AttributeError   // an attribute read or write on None
    | IndexError       // a channel number a board does not have
    | KeyError         // a dictionary lookup of a missing key
    | DeinitError(board: BoardId)

  /** The result of a Python statement sequence: it completed, or it raised. */
  datatype Outcome = Ok | Raised(exc: Exc)

  /** The result of a Python expression: a value, or the exception it raised. */
  datatype Result<+T> = Success(value: T) | Failure(exc: Exc)

  datatype BoardId = Board1 | Board2

  /** Twelve leg joints and four arm joints. In the source every joint is a
      separately named attribute (`servo_rear_shoulder_left`, ...). */
  datatype Joint =
    | RearShoulderLeft | RearLegLeft | RearFeetLeft
    | RearShoulderRight | RearLegRight | RearFeetRight
    | FrontShoulderLeft | FrontLegLeft | FrontFeetLeft
    | FrontShoulderRight | FrontLegRight | FrontFeetRight
    | ArmRotation | ArmLift | ArmRange | ArmCamTilt

  predicate IsArm(j: Joint) {
    j.ArmRotation? || j.ArmLift? || j.ArmRange? || j.ArmCamTilt?
  }

  predicate IsShoulder(j: Joint) {
    j.RearShoulderLeft? || j.RearShoulderRight? || j.FrontShoulderLeft? || j.FrontShoulderRight?
  }

  predicate IsRear(j: Joint) {
    j.RearShoulderLeft? || j.RearLegLeft? || j.RearFeetLeft? ||
    j.RearShoulderRight? || j.RearLegRight? || j.RearFeetRight?
  }

  /** The twelve leg joints in the order the source visits them everywhere:
      rear left, rear right, front left, front right; shoulder, leg, feet. */
  const LegOrder: seq<Joint> := RearOrder + FrontOrder

  const RearOrder: seq<Joint> := RearLeft + RearRight
  const FrontOrder: seq<Joint> := FrontLeft + FrontRight

  const RearLeft: seq<Joint> := [RearShoulderLeft, RearLegLeft, RearFeetLeft]
  const RearRight: seq<Joint> := [RearShoulderRight, RearLegRight, RearFeetRight]
  const FrontLeft: seq<Joint> := [FrontShoulderLeft, FrontLegLeft, FrontFeetLeft]
  const FrontRight: seq<Joint> := [FrontShoulderRight, FrontLegRight, FrontFeetRight]

  const ArmOrder: seq<Joint> := [ArmRotation, ArmLift, ArmRange, ArmCamTilt]

  lemma LegOrderIsTheLegs(j: Joint)
    ensures j in LegOrder <==> !IsArm(j)
    ensures j in ArmOrder <==> IsArm(j)
    ensures j in RearOrder <==> IsRear(j)
  {
  }

  /** A pair `(from, to)` as passed to `General().maprange`. */
  datatype Span = Span(from: real, to: real)

  /** `General().maprange(a, b, s)`: its definition is not part of this model,
      so it is a parameter and nothing is claimed about its values. */
  type MapRange = (Span, Span, real) -> real

  /** Python's `int()` of a float: truncation toward zero. */
  function Int(x: real): (r: int)
    ensures 0.0 <= x ==> r as real <= x < r as real + 1.0
    ensures x < 0.0 ==> r as real - 1.0 < x <= r as real
  {
    if x >= 0.0 then x.Floor else -((-x).Floor)
  }

  lemma IntOfWhole(n: int)
    ensures Int(n as real) == n
  {
  }
}
