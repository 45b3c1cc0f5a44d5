/** What the motion controllers run on and cannot see into: the configuration
    file (read as constant values), the PCA9685 boards and servos of the
    adafruit libraries, and the queues to the other processes. Everything the
    core does to them is appended to one log, so the order of hardware writes
    and queue tokens can be stated. */
module Platform {
  import opened Common

  /** One board's entries in the configuration after `int(..., 0)` or
      `int(...)`; None where that conversion raises. */
  datatype BoardConfig = BoardConfig(
    enabled: Option<int>, address: Option<int>, clock: Option<int>, frequency: Option<int>)

  predicate Converted(bc: BoardConfig) {
    bc.enabled.Some? && bc.address.Some? && bc.clock.Some? && bc.frequency.Some?
  }

  /** One servo's entries: the board it is on (`pca9685`), its channel, its
      pulse-width range and its rest angle. */
  datatype ServoConfig = ServoConfig(
    pca9685: int, channel: int, minPulse: int, maxPulse: int, restAngle: int)

  /** The configuration values the core reads. The two flags are the
      truthiness of `legs_are_enabled` and `arm_is_enabled`. */
  datatype Config = Config(
    legsEnabled: bool, armEnabled: bool,
    board1: BoardConfig, board2: BoardConfig,
    servo: Joint -> ServoConfig)

  function BoardConfigOf(cfg: Config, b: BoardId): BoardConfig {
    if b == Board1 then cfg.board1 else cfg.board2
  }

  /** What the hardware libraries decide: whether `PCA9685(...)` and its
      frequency setter succeed for a board, whether its `deinit()` returns
      normally, and whether a servo's angle setter accepts a value (it raises
      ValueError otherwise). */
  datatype Rig = Rig(
    opens: BoardId -> bool,
    deinits: BoardId -> bool,
    accepts: (Joint, Option<int>) -> bool)

  /** Constant inputs of a run: configuration, hardware behaviour and
      `General().maprange`. */
  datatype Env = Env(cfg: Config, rig: Rig, maprange: MapRange)

  /** A PCA9685 driver object. */
  datatype Handle = Handle(board: BoardId, address: int, clock: int, frequency: int)

  /** A `servo.Servo` object: the channel it drives, its pulse range, and the
      stray attribute `angel` that a misspelled assignment creates on it. */
  datatype Servo = Servo(board: BoardId, channel: int, minPulse: int, maxPulse: int, angel: Option<int>)

  /** The two commands of the abort controller's queue: the strings
      'activate_servos' and 'abort'. */
  datatype AbortCommand = ActivateServos | Abort

  datatype Effect =
    | Opened(handle: Handle)                        // a board object was created
    | Deinit(board: BoardId)                        // deinit() was called on a board
    | Bound(joint: Joint, servo: Servo)             // a servo object was bound to a channel
    | Wrote(joint: Joint, angle: Option<int>)       // an angle assignment was accepted
    | Rejected(joint: Joint, angle: Option<int>)    // an angle assignment raised ValueError
    | ToAbort(command: AbortCommand)                // a token put on the abort queue
    | ToLcd(token: string)                          // a token put on the LCD queue

  /** The hardware as a value: the effect log, and the angle each servo reads
      back (a joint absent from the map reads back None). */
  datatype Hw = Hw(log: seq<Effect>, readback: map<Joint, int>)

  function ReadBack(hw: Hw, j: Joint): Option<int> {
    if j in hw.readback then Some(hw.readback[j]) else None
  }

  /** `servo.angle = v` on a servo that exists: the value is accepted and is
      what the servo reads back from then on, or it is refused with ValueError
      and nothing changes but the log. */
  function Actuate(hw: Hw, j: Joint, v: Option<int>, rig: Rig): (r: (Hw, Outcome))
    ensures r.1 == Ok <==> rig.accepts(j, v)
    ensures r.1 != Ok ==> r.1 == Raised(ValueError) && r.0.readback == hw.readback
    ensures r.1 == Ok ==> ReadBack(r.0, j) == v
    ensures forall k :: k != j ==> ReadBack(r.0, k) == ReadBack(hw, k)
    ensures |r.0.log| == |hw.log| + 1 && r.0.log[..|hw.log|] == hw.log
  {
    if rig.accepts(j, v) then
      var rb := if v.Some? then hw.readback[j := v.value] else hw.readback - {j};
      (Hw(hw.log + [Wrote(j, v)], rb), Ok)
    else
      (Hw(hw.log + [Rejected(j, v)], hw.readback), Raised(ValueError))
  }

  /** The hardware side: bus, boards and queues. */
  class Bus {
    const env: Env
    var log: seq<Effect>
    var readback: map<Joint, int>

    function Snapshot(): Hw
      reads this
    {
      Hw(log, readback)
    }

    constructor (env: Env, readback: map<Joint, int>)
      ensures this.env == env && log == [] && this.readback == readback
    {
      this.env := env;
      log := [];
      this.readback := readback;
    }

    /** A side effect on a queue or a board that the core does not observe. */
    method Emit(e: Effect)
      modifies this
      ensures log == old(log) + [e] && readback == old(readback)
    {
      log := log + [e];
    }

    /** `deinit()` on a board object. */
    method DeinitBoard(b: BoardId) returns (out: Outcome)
      modifies this
      ensures log == old(log) + [Deinit(b)] && readback == old(readback)
      ensures out == if env.rig.deinits(b) then Ok else Raised(DeinitError(b))
    {
      log := log + [Deinit(b)];
      out := if env.rig.deinits(b) then Ok else Raised(DeinitError(b));
    }

    /** An angle assignment on an existing servo. */
    method SetAngle(j: Joint, v: Option<int>) returns (out: Outcome)
      modifies this
      ensures (Snapshot(), out) == Actuate(old(Snapshot()), j, v, env.rig)
    {
      if env.rig.accepts(j, v) {
        log := log + [Wrote(j, v)];
        readback := if v.Some? then readback[j := v.value] else readback - {j};
        out := Ok;
      } else {
        log := log + [Rejected(j, v)];
        out := Raised(ValueError);
      }
    }
  }
}
