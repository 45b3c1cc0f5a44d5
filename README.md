# SpotMicro motion control, modelled in Dafny

This project models the motion-control layer of the SpotMicro quadruped robot and proves properties of that model. The layer has two generations, and both are modelled. The LCD status screen that consumes their status tokens is modelled too.

- **`spotmicroai`**. The current controller is four cooperating classes. `MotionControllerSetup` (`spotmicroai/motion_controller/motion_controller_setup.py:19`) and `MotionControllerLegsMoves` (`spotmicroai/motion_controller/legs_moves.py:21`) are singletons through a `Singleton` metaclass; the arm-moves class (`spotmicroai/motion_controller/arm_moves.py:9`) and the loop's `MotionController` (`spotmicroai/motion_controller/motion_controller.py:19`) are plain classes.
  - `MotionControllerSetup` owns the two PCA9685 PWM boards and the sixteen servo bindings: twelve leg joints and four arm joints.
  - `MotionControllerLegsMoves` keeps twelve mutable leg angles. It shifts them by fixed deltas and writes postures.
  - The arm-moves class holds the four arm setters and the arm's rest position.
  - `MotionController` runs the event loop. This is a two-state machine on `is_activated` that reacts to START, to the 60-second receive timeout, and to the buttons and axes of a remote-control event.
- **`spotmicro`**. The older `MotionController` opens its boards and binds its servos inside `__init__`, and counts them in `boards`. Its event loop computes an event difference, dispatches on a dictionary event and deinitialises the boards in a `finally`.
- **`LCDScreenController`**. It parses `prefix value` tokens into four status fields and chooses one icon per field.

## How the model is built

- **Modules.** Each source file is one module.
  - `Common` holds the joints, `Option`/`Result`, the exception kinds and Python's `int()` on floats.
  - `Platform` holds the configuration record and the hardware.
- **Hardware.** The hardware is a `Bus` object. Its `log` records every board open and deinit, servo binding, angle write or rejection, and queue token. Its `readback` holds what each servo reports as its angle.
- **Foreign libraries.** What the hardware libraries decide is an oracle, `Rig`: whether a board opens, whether `deinit()` returns, and whether a servo accepts an angle. The servo raises ValueError when it refuses one. `maprange` is an uninterpreted function.
- **Exceptions.** Python exceptions are the `Outcome` value `Raised(kind)`.
- **Specification functions.** Each piece of straight-line source code has a specification function over values: `BindAll`, `WriteRun`, `Shift`, `RunGuarded`, `RunTable`, `Process`.
  - Each source class is a Dafny class holding its state, with these differences:
    - the twelve leg-angle fields of `MotionControllerLegsMoves` are one map, `angle`;
    - the setup object's `i2c` attribute is not modelled;
    - the sixteen `servo_*` attributes of the setup object are one map, `servo`, and the `servo_*_angle` attributes that the legs' `rest_position` assigns on it (`spotmicroai/motion_controller/legs_moves.py:103-116`) are one map, `restAttr`;
    - the legacy `spotmicro` controller keeps its boards and servos in a setup-shaped object, `setup`, rather than in attributes of its own.
  - Its methods perform the steps one statement at a time.
  - Each method's `ensures` ties the new state to the specification function.
  - Lemmas about those functions state what the source promises.

## Behaviour worth noting

- **START while activated.** It rests the servos, deinitialises the boards and sends `abort`, but leaves `is_activated` true (`spotmicroai/motion_controller/motion_controller.py:78-83`). Only the timeout clears the flag (`spotmicroai/motion_controller/motion_controller.py:140-148`).
- **`start` triggering.** Every event's `start` value is tested as it is (`spotmicroai/motion_controller/motion_controller.py:77`), so an event with `start` set runs the START branch even when the previous event had it set too.
- **Board failure.**
  - In `spotmicroai`, `activate_pca9685_boards` catches the failure of each board separately and carries on (`spotmicroai/motion_controller/motion_controller_setup.py:51-85`).
  - In `spotmicro`, any failure in `__init__` reaches a handler that first reads `self._lcd_screen_queue`. That attribute is not yet set (it is assigned at `spotmicro/motion_controller/motion_controller.py:262`), so the handler itself raises AttributeError and no `NOK` token is ever sent. `LegacyMotionController.InitFailureIsSilent` states this.
- **Board fields after deinit.** `deactivate_pca9685_boards` deinitialises the boards but never clears `pca9685_1`/`pca9685_2` (`spotmicroai/motion_controller/motion_controller_setup.py:87-99`).

## Model

| member | source | states |
|---|---|---|
| Common.LegOrderIsTheLegs | spotmicroai/motion_controller/motion_controller_setup.py:27-45 | the twelve leg fields, the four arm fields and the six rear fields are exactly the joints the names say |
| Common.Int | spotmicroai/motion_controller/arm_moves.py:105 | Python `int()` on a float truncates toward zero: the result is within 1 of the value, at or below it when non-negative, at or above it when negative |
| Platform.Actuate | spotmicroai/motion_controller/legs_moves.py:43-46 | `servo.angle = v` succeeds exactly when the servo accepts `v`. The servo then reads back `v`; otherwise ValueError is raised and no servo's angle changes. Other servos never change, and the log only grows by one entry |
| Platform.Bus.constructor | spotmicroai/motion_controller/motion_controller_setup.py:20-45 | the hardware starts with an empty log and the given servo readings |
| Platform.Bus.DeinitBoard | spotmicroai/motion_controller/motion_controller_setup.py:91 | `deinit()` is recorded, and it raises exactly when the board's deinit fails |
| Platform.Bus.SetAngle | spotmicroai/motion_controller/legs_moves.py:43-46 | an angle assignment on a bound servo behaves as `Actuate` |
| MotionControllerSetup.Initial | spotmicroai/motion_controller/motion_controller_setup.py:19-49 | a new setup object has no boards and no servos, and takes the legs/arm enable flags from the configuration |
| MotionControllerSetup.NewHandle | spotmicroai/motion_controller/motion_controller_setup.py:55-85 | a board's field is None when a configuration entry does not convert. It keeps its previous value when the board is disabled; when enabled, it gets a handle exactly when the board opens. A new handle carries the configured address, clock and frequency |
| MotionControllerSetup.ActivateBoards | spotmicroai/motion_controller/motion_controller_setup.py:51-85 | activating the boards sets each board field independently by `NewHandle` and changes nothing else. It logs board 1's open, then board 2's |
| MotionControllerSetup.Deactivate | spotmicroai/motion_controller/motion_controller_setup.py:87-99 | deinit is attempted on board 1, then board 2, for each board that exists; board 2 is attempted even when board 1 raised. No field is cleared. The call completes exactly when every attempted deinit succeeds, and a failure of board 2 is the exception that escapes |
| MotionControllerSetup.Route | spotmicroai/motion_controller/motion_controller_setup.py:110-113 | a joint goes to board 1 exactly when its `pca9685` entry is 1 |
| MotionControllerSetup.BindAllSpec | spotmicroai/motion_controller/motion_controller_setup.py:105-236 | a run of servo blocks completes exactly when every joint's board exists and has its channel. Failures are AttributeError or IndexError. Joints outside the run keep their bindings, and after success each joint of the run is bound by its configuration |
| MotionControllerSetup.BindAllAppend | spotmicroai/motion_controller/motion_controller_setup.py:105-236 | binding two runs one after the other is binding their concatenation, stopping at the first exception |
| MotionControllerSetup.ActivateServosRouting | spotmicroai/motion_controller/motion_controller_setup.py:101-282 | after `activate_servos`, joints of a disabled group keep their bindings. After success, each joint of an enabled group is bound as its configuration says: to board 1 exactly when its `pca9685` is 1, with its configured channel and pulse range |
| MotionControllerSetup.BindAllLog | spotmicroai/motion_controller/motion_controller_setup.py:105-236 | a completed run of servo blocks logs one binding per joint, in the run's order, and nothing else |
| MotionControllerSetup.BindServosLog | spotmicroai/motion_controller/motion_controller_setup.py:101-282 | a completed `activate_servos` logs the twelve leg bindings when the legs are enabled, then the four arm bindings when the arm is enabled, and nothing else |
| MotionControllerSetup.WriteAngle | spotmicroai/motion_controller/legs_moves.py:43-46 | writing an angle to a servo that was never bound raises AttributeError and changes nothing. On a bound servo it behaves as `Actuate`; the setup object never changes |
| MotionControllerSetup.ReadAngle | spotmicroai/motion_controller/arm_moves.py:107 | reading `int(servo.angle)` returns the angle the servo reports. It raises AttributeError on an unbound servo and TypeError when the servo reports None |
| MotionControllerSetup.WriteAngel | spotmicroai/motion_controller/arm_moves.py:129 | assigning the misspelled `angel` leaves the hardware untouched. It only records the value on that servo's object, or raises AttributeError when the servo is unbound |
| MotionControllerSetup.WriteRunAppend | spotmicroai/motion_controller/legs_moves.py:38-101 | running two write sequences one after the other is running their concatenation, stopping at the first escaping exception |
| MotionControllerSetup.RunFrame | spotmicroai/motion_controller/legs_moves.py:204-225 | a write run never changes the setup object, nor a servo outside the run |
| MotionControllerSetup.UnguardedOutcome | spotmicroai/motion_controller/legs_moves.py:204-225 | an unguarded run completes exactly when every target evaluates and every servo is bound and accepts its target |
| MotionControllerSetup.UnguardedWrites | spotmicroai/motion_controller/legs_moves.py:204-225 | a completed unguarded run over distinct joints writes exactly the targets, in order, and each servo reads back its target |
| MotionControllerSetup.UnguardedRun | spotmicroai/motion_controller/legs_moves.py:204-225 | combines the three preceding facts for an unguarded run over distinct joints |
| MotionControllerSetup.GuardedOutcome | spotmicroai/motion_controller/legs_moves.py:43-101 | a run whose writes each catch ValueError completes exactly when every servo is bound; otherwise it raises AttributeError |
| MotionControllerSetup.GuardedWrites | spotmicroai/motion_controller/legs_moves.py:43-101 | a completed guarded run makes exactly one attempt per joint, in order; each attempt is a write or a rejection as the servo decides |
| MotionControllerSetup.GuardedRun | spotmicroai/motion_controller/legs_moves.py:43-101 | combines the guarded outcome and the guarded writes, and the setup object is unchanged |
| MotionControllerSetup.MotionControllerSetup.constructor | spotmicroai/motion_controller/motion_controller_setup.py:47-49 | a new setup object is in the `Initial` state of its configuration |
| MotionControllerSetup.MotionControllerSetup.SetHandle | spotmicroai/motion_controller/motion_controller_setup.py:62-68 | assigning a board field changes that field only |
| MotionControllerSetup.MotionControllerSetup.ActivatePca9685 | spotmicroai/motion_controller/motion_controller_setup.py:55-69 | one board's `try` block has the effect `NewHandle` and the open log give |
| MotionControllerSetup.MotionControllerSetup.ActivatePca9685Boards | spotmicroai/motion_controller/motion_controller_setup.py:51-85 | the method's new state is `ActivateBoards` of the old one |
| MotionControllerSetup.MotionControllerSetup.DeactivatePca9685Boards | spotmicroai/motion_controller/motion_controller_setup.py:87-99 | the method's outcome and new state are `Deactivate` of the old state |
| MotionControllerSetup.MotionControllerSetup.BindServo | spotmicroai/motion_controller/motion_controller_setup.py:105-115 | one servo block binds the joint by its configuration, or raises AttributeError or IndexError and changes nothing |
| MotionControllerSetup.MotionControllerSetup.BindNext | spotmicroai/motion_controller/motion_controller_setup.py:105-115 | one block is the first step of the remaining run of blocks |
| MotionControllerSetup.MotionControllerSetup.ActivateServos | spotmicroai/motion_controller/motion_controller_setup.py:101-282 | `activate_servos` binds the legs when they are enabled, then the arm when it is enabled, stopping at the first exception |
| MotionControllerSetup.MotionControllerSetup.BindLegServos | spotmicroai/motion_controller/motion_controller_setup.py:103-236 | the twelve leg blocks run in source order |
| MotionControllerSetup.MotionControllerSetup.BindCorner | spotmicroai/motion_controller/motion_controller_setup.py:105-148 | three consecutive blocks, for one corner of the robot |
| MotionControllerSetup.MotionControllerSetup.BindArmServos | spotmicroai/motion_controller/motion_controller_setup.py:238-282 | the four arm blocks run in source order |
| MotionControllerSetup.MotionControllerSetup.WriteNext | spotmicroai/motion_controller/legs_moves.py:43-46 | one (possibly guarded) assignment is the first step of the remaining write run |
| MotionControllerSetup.MotionControllerSetup.WriteLegs | spotmicroai/motion_controller/legs_moves.py:43-101 | the twelve leg assignments run in source order |
| MotionControllerSetup.MotionControllerSetup.WriteCorner | spotmicroai/motion_controller/legs_moves.py:209-215 | three consecutive assignments, for one corner |
| MotionControllerSetup.MotionControllerSetup.WriteArm | spotmicroai/motion_controller/arm_moves.py:96-101 | the four arm assignments run in source order |
| MotionControllerSetup.MotionControllerSetup.SetServoAngle | spotmicroai/motion_controller/arm_moves.py:108 | a single assignment behaves as `WriteAngle` |
| MotionControllerSetup.MotionControllerSetup.SetServoAngel | spotmicroai/motion_controller/arm_moves.py:129 | a single `angel` assignment behaves as `WriteAngel` |
| MotionControllerSetup.MotionControllerSetup.ServoAngle | spotmicroai/motion_controller/arm_moves.py:107 | reading a servo's angle changes nothing and returns `ReadAngle` |
| MotionControllerSetup.Singleton.constructor | spotmicroai/motion_controller/motion_controller_setup.py:10-11 | the instance registry starts empty |
| MotionControllerSetup.Singleton.Call | spotmicroai/motion_controller/motion_controller_setup.py:13-16 | the first call creates a fresh setup object in its initial state; every later call returns that same object |
| LegsMoves.LegRestAngles | spotmicroai/motion_controller/legs_moves.py:105-116 | the twelve rest-angle attributes are exactly the leg joints, each with its configured rest angle |
| LegsMoves.ShiftAppend | spotmicroai/motion_controller/legs_moves.py:123-141 | two runs of `+=` statements compose as their concatenation, stopping at the first TypeError |
| LegsMoves.ShiftSpec | spotmicroai/motion_controller/legs_moves.py:123-141 | a run of `+=` completes exactly when every named field is set, and otherwise raises TypeError. On success each field has moved by its total delta; unnamed fields never change |
| LegsMoves.ShiftUndo | spotmicroai/motion_controller/legs_moves.py:123-141 | after a completed run, the run of opposite deltas restores every field |
| LegsMoves.OppositeDirections | spotmicroai/motion_controller/legs_moves.py:118-192 | the raw>0 statements are the raw<0 statements with every delta negated, for both up/down and left/right |
| LegsMoves.UpDownTable | spotmicroai/motion_controller/legs_moves.py:123-141 | up/down touches exactly the eight leg and feet fields |
| LegsMoves.UpDownMoves | spotmicroai/motion_controller/legs_moves.py:118-144 | raw≠0 shifts the eight leg/feet fields by the table deltas (negated for raw>0) and never a shoulder; it raises only TypeError, exactly when one of those fields is None. raw=0 changes no angle field and assigns the rest angles on the setup object |
| LegsMoves.UpDownRoundTrip | spotmicroai/motion_controller/legs_moves.py:123-141 | a completed down move followed by an up move (or the reverse) restores the original state |
| LegsMoves.LeftRightTable | spotmicroai/motion_controller/legs_moves.py:179-189 | left/right touches exactly the shoulders. For raw<0 the rear ones move by −5 and the front ones by +5, and raw>0 negates this |
| LegsMoves.LeftRightMoves | spotmicroai/motion_controller/legs_moves.py:175-192 | raw≠0 moves each shoulder by ±5 by direction and rear/front and nothing else; it raises TypeError exactly when a shoulder is None. raw=0 changes no angle field |
| LegsMoves.LeftRightRoundTrip | spotmicroai/motion_controller/legs_moves.py:179-189 | a completed left move followed by a right move (or the reverse) restores the original state |
| LegsMoves.UpDownAnalogAssigns | spotmicroai/motion_controller/legs_moves.py:146-173 | the analog up/down move sets each of the eight leg/feet fields from `maprange` between its rest angle and its own maximum angle |
| LegsMoves.UpDownAnalogKeeps | spotmicroai/motion_controller/legs_moves.py:146-173 | the analog up/down move leaves every other field as it was |
| LegsMoves.MaxAngleJoints | spotmicroai/motion_controller/legs_moves.py:148-155 | the maximum-angle table names exactly the eight leg and feet joints |
| LegsMoves.LeftRightAnalogAssigns | spotmicroai/motion_controller/legs_moves.py:194-202 | the analog left/right move sets all four shoulders: both rear ones to one value and both front ones to another. Nothing else changes |
| LegsMoves.AnalogDefinesAll | spotmicroai/motion_controller/legs_moves.py:146-202 | after both analog moves, none of the twelve fields is None |
| LegsMoves.ShiftedWrites | spotmicroai/motion_controller/legs_moves.py:204-225 | writing field+offset to distinct joints completes exactly when every field is set and every servo is bound and accepts it. It then writes those values in order, and the servos read them back |
| LegsMoves.PostureSpec | spotmicroai/motion_controller/legs_moves.py:204-275 | a posture changes no angle field and no setup attribute. It completes exactly when all twelve fields are set and the servos accept field+offset, and each servo then reads back field+offset |
| LegsMoves.PostureOrder | spotmicroai/motion_controller/legs_moves.py:209-225 | a completed posture writes the six rear servos before the six front ones |
| LegsMoves.PostureOffsetTable | spotmicroai/motion_controller/legs_moves.py:204-275 | right and left postures use the standing offsets on legs and feet; on each shoulder they differ by 40, with opposite signs front and rear |
| LegsMoves.SidePosturesDiffer | spotmicroai/motion_controller/legs_moves.py:227-275 | after the right and left postures, each servo's readings differ by 0 on legs/feet and by ±40 on shoulders |
| LegsMoves.RightPostureStands | spotmicroai/motion_controller/legs_moves.py:204-250 | the right posture leaves legs and feet where the standing posture puts them |
| LegsMoves.PostureReadsBack | spotmicroai/motion_controller/legs_moves.py:204-275 | after a completed posture, each leg servo reads back its field plus its offset |
| LegsMoves.LegsMoveSpec | spotmicroai/motion_controller/legs_moves.py:38-101 | `move()` changes no field and does nothing with the legs disabled. Otherwise it raises only AttributeError, exactly when a leg servo is unbound. When all are bound it makes exactly twelve attempts, one per servo in order, each writing that servo's field (None when unset) and each accepted or rejected as the servo decides |
| LegsMoves.MotionControllerLegsMoves.constructor | spotmicroai/motion_controller/legs_moves.py:21-36 | all twelve angle fields start as None |
| LegsMoves.MotionControllerLegsMoves.Move | spotmicroai/motion_controller/legs_moves.py:38-101 | the method behaves as `LegsMove` |
| LegsMoves.MotionControllerLegsMoves.RestPosition | spotmicroai/motion_controller/legs_moves.py:103-116 | `rest_position` assigns the setup object's rest attributes and no angle field |
| LegsMoves.MotionControllerLegsMoves.AddNext | spotmicroai/motion_controller/legs_moves.py:124 | one `+=` is the first step of the remaining run |
| LegsMoves.MotionControllerLegsMoves.AddFour | spotmicroai/motion_controller/legs_moves.py:180-183 | four consecutive `+=` statements |
| LegsMoves.MotionControllerLegsMoves.BodyMoveBodyUpAndDown | spotmicroai/motion_controller/legs_moves.py:118-144 | the method behaves as `UpDown` |
| LegsMoves.MotionControllerLegsMoves.BodyMoveBodyLeftRight | spotmicroai/motion_controller/legs_moves.py:175-192 | the method behaves as `LeftRight` |
| LegsMoves.MotionControllerLegsMoves.BodyMoveBodyUpAndDownAnalog | spotmicroai/motion_controller/legs_moves.py:146-173 | the method behaves as `UpDownAnalog` |
| LegsMoves.MotionControllerLegsMoves.BodyMoveBodyLeftRightAnalog | spotmicroai/motion_controller/legs_moves.py:194-202 | the method behaves as `LeftRightAnalog` |
| LegsMoves.MotionControllerLegsMoves.StandingPosition | spotmicroai/motion_controller/legs_moves.py:204-225 | the method writes the standing posture |
| LegsMoves.MotionControllerLegsMoves.BodyMovePositionRight | spotmicroai/motion_controller/legs_moves.py:227-250 | the method writes the right posture |
| LegsMoves.MotionControllerLegsMoves.BodyMovePositionLeft | spotmicroai/motion_controller/legs_moves.py:252-275 | the method writes the left posture |
| ArmMoves.RestAngles | spotmicroai/motion_controller/arm_moves.py:14-101 | every servo's `*_rest_angle` is its configured rest angle |
| ArmMoves.ArmRestSpec | spotmicroai/motion_controller/arm_moves.py:96-101 | the arm rest position changes no setup attribute and no leg servo. It completes exactly when the four arm servos are bound and accept their rest angles; it then writes those four in order, and each reads back its rest angle |
| ArmMoves.ArmRestWrites | spotmicroai/motion_controller/arm_moves.py:98-101 | the arm rest writes are rotation, lift, range, cam tilt, each with its configured angle |
| ArmMoves.ArmMoveSpec | spotmicroai/motion_controller/arm_moves.py:14-94 | `move()` raises only AttributeError, exactly when one of the sixteen servos is unbound. Otherwise it makes sixteen attempts in order, each a write or a rejection as the servo decides |
| ArmMoves.WriteIfChangedSpec | spotmicroai/motion_controller/arm_moves.py:103-122 | a setter raises what reading the angle raises. It changes nothing when the servo already reads the target; otherwise it makes exactly one attempt, which succeeds exactly when the servo accepts. After success the servo reads the target, and no other servo or setup attribute changes |
| ArmMoves.WriteIfChangedIdempotent | spotmicroai/motion_controller/arm_moves.py:103-122 | repeating a completed setter call with the same target writes nothing |
| ArmMoves.SetTiltSpec | spotmicroai/motion_controller/arm_moves.py:124-129 | the cam tilt setter never touches the hardware, so no servo's angle changes. It fails exactly when the angle cannot be read; on a change it sets only the cam tilt servo's `angel` |
| ArmMoves.MotionControllerArmMoves.constructor | spotmicroai/motion_controller/arm_moves.py:11-12 | the arm object uses the setup object's servos |
| ArmMoves.MotionControllerArmMoves.RestPosition | spotmicroai/motion_controller/arm_moves.py:96-101 | the method behaves as `ArmRest` |
| ArmMoves.MotionControllerArmMoves.Move | spotmicroai/motion_controller/arm_moves.py:14-94 | the method behaves as `ArmMove` |
| ArmMoves.MotionControllerArmMoves.SetIfChanged | spotmicroai/motion_controller/arm_moves.py:107-108 | compare, then write only on a change |
| ArmMoves.MotionControllerArmMoves.ArmSetRotation | spotmicroai/motion_controller/arm_moves.py:103-108 | the rotation setter with target `int(maprange((-1,1),(0,180),raw/2))` |
| ArmMoves.MotionControllerArmMoves.ArmSetLift | spotmicroai/motion_controller/arm_moves.py:110-115 | the lift setter with the reversed interval (180, 0) |
| ArmMoves.MotionControllerArmMoves.ArmSetRange | spotmicroai/motion_controller/arm_moves.py:117-122 | the range setter with the reversed interval (180, 0) |
| ArmMoves.MotionControllerArmMoves.ArmSetCamTilt | spotmicroai/motion_controller/arm_moves.py:124-129 | the cam tilt setter behaves as `SetTilt` |
| MotionController.RunGuardedFired | spotmicroai/motion_controller/motion_controller.py:96-138 | a run of `if c: action` statements performs exactly the actions whose conditions hold, in order |
| MotionController.FiredIncreasing | spotmicroai/motion_controller/motion_controller.py:96-138 | the performed actions keep the order of the statements |
| MotionController.FiredMember | spotmicroai/motion_controller/motion_controller.py:96-138 | an action is performed exactly when its statement's condition holds |
| MotionController.TriggersRanked | spotmicroai/motion_controller/motion_controller.py:96-138 | the dispatch has fourteen statements, in the fixed source order |
| MotionController.DispatchIncreasing | spotmicroai/motion_controller/motion_controller.py:96-135 | dispatch order is a, hat0y, hat0x, ry, rx, y, b, x, tl, tl, tr, tr, then the two moves |
| MotionController.DispatchBodyMembers | spotmicroai/motion_controller/motion_controller.py:96-104 | the rest positions run exactly when `a` is set, up/down exactly when hat0y≠0 (with hat0y), left/right exactly when hat0x≠0 (with hat0x) |
| MotionController.DispatchAnalogMembers | spotmicroai/motion_controller/motion_controller.py:106-110 | the analog moves run exactly when ry≠0 and rx≠0, with those values |
| MotionController.DispatchPoseMembers | spotmicroai/motion_controller/motion_controller.py:116-123 | standing, right and left postures run exactly when y, b and x are set |
| MotionController.DispatchArmMembers | spotmicroai/motion_controller/motion_controller.py:125-129 | with `tl`, rotation takes lx and lift takes ly, and only then |
| MotionController.DispatchRangeTiltMembers | spotmicroai/motion_controller/motion_controller.py:131-135 | with `tr`, range takes ly and cam tilt takes ry, and only then |
| MotionController.DispatchMovesFired | spotmicroai/motion_controller/motion_controller.py:137-138 | the legs' and the arm's `move()` run in every dispatch |
| MotionController.DispatchEndsWithMoves | spotmicroai/motion_controller/motion_controller.py:137-138 | every dispatch ends with legs `move()` then arm `move()`, whatever the buttons |
| MotionController.EndsWithMoves | spotmicroai/motion_controller/motion_controller.py:137-138 | in any ordered run that contains both moves, they are the last two actions |
| MotionController.DeactivatedIgnores | spotmicroai/motion_controller/motion_controller.py:92-94 | while deactivated, an event without START changes nothing |
| MotionController.BindAllKeepsPrefix | spotmicroai/motion_controller/motion_controller_setup.py:105-236 | binding servos only appends to the log |
| MotionController.BindServosKeepsBoards | spotmicroai/motion_controller/motion_controller_setup.py:101-282 | `activate_servos` changes no setup attribute but the servo table, and only appends to the log |
| MotionController.RunKeepsPrefix | spotmicroai/motion_controller/legs_moves.py:38-101 | a write run only appends to the log |
| MotionController.RestBothSpec | spotmicroai/motion_controller/motion_controller.py:79-80 | the two rest positions keep the leg angles, assign the legs' rest attributes on the setup object and only append to the log. They complete exactly when the arm servos are bound and accept their rest angles |
| MotionController.ShutdownSpec | spotmicroai/motion_controller/motion_controller.py:79-82 | rest then deactivate: it completes exactly when both steps do, and after the rest position it logs the deinits of the present boards. If the rest position raises, the boards are not touched |
| MotionController.ActivateSpec | spotmicroai/motion_controller/motion_controller.py:85-90 | START while deactivated sends `activate_servos` before opening the boards; the board fields become `NewHandle` of their configuration and the leg angles are kept. When it completes, every servo of an enabled group is bound as configured and the others are kept, the twelve leg rest attributes are assigned, each arm servo reads back its rest angle, and the log continues after the board opens with the bindings and then the four arm rest writes |
| MotionController.StartWhenDeactivated | spotmicroai/motion_controller/motion_controller.py:84-90 | START while deactivated sets the flag and logs the activate token then the board opens, whatever happens later. When it completes, the controller is set up and driven as `ActivateSpec` says |
| MotionController.ActivationOpens | spotmicroai/motion_controller/motion_controller.py:85-87 | the activate token and the board opens come first, whether or not the activation completes |
| MotionController.ActivationSetsUp | spotmicroai/motion_controller/motion_controller.py:86-90 | a completed activation opens the boards, binds the servos of the enabled groups as configured, keeps the others and assigns the leg rest attributes |
| MotionController.ActivationDrives | spotmicroai/motion_controller/motion_controller.py:85-90 | a completed activation logs the activate token, the board opens, the bindings and the four arm rest writes, in that order, and leaves each arm servo at its rest angle |
| MotionController.ActivationThenDispatch | spotmicroai/motion_controller/motion_controller.py:77-138 | after a START that activates the controller, the same pass dispatches that event's buttons and axes on the freshly activated state; if the activation raises, the dispatch is skipped and the controller stays activated |
| MotionController.StartWhenActivated | spotmicroai/motion_controller/motion_controller.py:78-83 | START while activated rests, assigns the rest attributes and deactivates the boards, then sends `abort`; it leaves `is_activated` true |
| MotionController.TimeoutSpec | spotmicroai/motion_controller/motion_controller.py:140-148 | a timeout while deactivated changes nothing. While activated it rests and deactivates; the flag is cleared exactly when both complete, and an exception there escapes the loop |
| MotionController.EventsKeepActivation | spotmicroai/motion_controller/motion_controller.py:77-94 | after an event that has START, or arrives while activated, the controller is activated |
| MotionController.EventsNeverCrash | spotmicroai/motion_controller/motion_controller.py:150-152 | an exception while processing an event is caught and the loop goes on |
| MotionController.RunWithoutTimeouts | spotmicroai/motion_controller/motion_controller.py:69-152 | a run of received events, without timeouts, never leaves the loop |
| MotionController.ActivatedUntilTimeout | spotmicroai/motion_controller/motion_controller.py:69-138 | once activated, the controller stays activated until a timeout |
| MotionController.DeactivatedUntilStart | spotmicroai/motion_controller/motion_controller.py:92-148 | while deactivated, receives without START change nothing, timeouts included |
| MotionController.StatusTokensReport | spotmicroai/motion_controller/motion_controller.py:39-47 | each token reports `OK` exactly when its board object exists. The two tokens differ, and before the boards are activated both read `NOK` |
| MotionController.MotionController.constructor | spotmicroai/motion_controller/motion_controller.py:22-49 | the controller starts deactivated and sends the two status tokens |
| MotionController.MotionController.ExitGracefully | spotmicroai/motion_controller/motion_controller.py:60-65 | the signal handler deactivates the boards |
| MotionController.MotionController.RestBothPositions | spotmicroai/motion_controller/motion_controller.py:79-80 | the method behaves as `RestBoth` |
| MotionController.MotionController.Do | spotmicroai/motion_controller/motion_controller.py:96-138 | each dispatched call behaves as its action |
| MotionController.MotionController.Fire | spotmicroai/motion_controller/motion_controller.py:96-98 | one `if c: action` is the first step of the remaining dispatch |
| MotionController.MotionController.FireThree | spotmicroai/motion_controller/motion_controller.py:96-104 | three consecutive dispatch statements |
| MotionController.MotionController.PressLegButtons | spotmicroai/motion_controller/motion_controller.py:96-117 | the first six dispatch statements |
| MotionController.MotionController.PressArmButtons | spotmicroai/motion_controller/motion_controller.py:119-135 | the next six dispatch statements |
| MotionController.MotionController.Dispatch | spotmicroai/motion_controller/motion_controller.py:96-138 | the dispatch behaves as `RunGuarded` over the fourteen statements |
| MotionController.MotionController.RestAndDeactivate | spotmicroai/motion_controller/motion_controller.py:79-147 | the method behaves as `Shutdown` |
| MotionController.MotionController.StartPressed | spotmicroai/motion_controller/motion_controller.py:77-90 | the START block behaves as `Start` |
| MotionController.MotionController.TimedOut | spotmicroai/motion_controller/motion_controller.py:140-148 | the timeout handler behaves as `Timeout` |
| MotionController.MotionController.ProcessOne | spotmicroai/motion_controller/motion_controller.py:71-152 | one receive behaves as `Iterate` |
| MotionController.MotionController.DoProcessEventsFromQueues | spotmicroai/motion_controller/motion_controller.py:67-152 | the loop over the receives behaves as `Run` |
| LegacyMotionController.PosturesCoverTheLegs | spotmicro/motion_controller/motion_controller.py:373-428 | the rest, forward and backward postures each assign exactly the twelve leg servos |
| LegacyMotionController.ForwardIsBackwards | spotmicro/motion_controller/motion_controller.py:394-428 | `move_forward` and `move_backwards` assign identical angles, which differ from the rest posture |
| LegacyMotionController.WritePoseSpec | spotmicro/motion_controller/motion_controller.py:373-428 | a posture completes exactly when the twelve servos exist and accept their angles, and raises only AttributeError or ValueError. It then writes the twelve angles in order, and each servo reads back its angle |
| LegacyMotionController.PoseRaises | spotmicro/motion_controller/motion_controller.py:373-389 | posture writes raise only AttributeError or ValueError |
| LegacyMotionController.ComputeEventDiff | spotmicro/motion_controller/motion_controller.py:299-303 | the `for key in event` loop computes `EventDiff`, raising KeyError on a key the previous event lacks |
| LegacyMotionController.DiffPatches | spotmicro/motion_controller/motion_controller.py:299-303 | a non-empty previous event patched by the diff gives the new event on every key, and the diff holds only changed values |
| LegacyMotionController.DiffCases | spotmicro/motion_controller/motion_controller.py:299-303 | with no previous event the diff is empty; otherwise it fails exactly when the event has a key the previous one lacks; an event's diff with itself is empty |
| LegacyMotionController.RunTableAppend | spotmicro/motion_controller/motion_controller.py:321-348 | two runs of `if` statements compose as their concatenation |
| LegacyMotionController.IterationRemembers | spotmicro/motion_controller/motion_controller.py:350 | after a completed iteration the previous event is that event; one that raises leaves it unchanged |
| LegacyMotionController.StartBeforeAbort | spotmicro/motion_controller/motion_controller.py:321-371 | with both START and Y pressed, `activate_servos` is queued, then `abort` |
| LegacyMotionController.ButtonsReleased | spotmicro/motion_controller/motion_controller.py:321-334 | with start, y, a and b released, their statements do nothing |
| LegacyMotionController.SpinsReleased | spotmicro/motion_controller/motion_controller.py:344-348 | with lx and hat0x at zero, the spin statements do nothing |
| LegacyMotionController.BothMoves | spotmicro/motion_controller/motion_controller.py:336-342 | with ly<0 and hat0y>0 both conditions hold: the forward posture runs, then the backward one |
| LegacyMotionController.ForwardThenBackwards | spotmicro/motion_controller/motion_controller.py:321-350 | such an event, with the servos accepting, completes after writing the forward posture and then the backward posture |
| LegacyMotionController.FinallySpec | spotmicro/motion_controller/motion_controller.py:362-365 | on loop exit board 1 is deinitialised; board 2 is deinitialised exactly when `boards == 2` and board 1's deinit returned |
| LegacyMotionController.MissingKeyEndsLoop | spotmicro/motion_controller/motion_controller.py:321-365 | an event without `start` ends the loop with KeyError, keeps the previous event and runs the `finally` |
| LegacyMotionController.InitBoardsAndTokens | spotmicro/motion_controller/motion_controller.py:32-269 | after a completed `__init__`, `boards` is 2 exactly when board 2's address is non-zero, and board 2 exists exactly then. Board 1 carries its configured address, clock and frequency. The last two tokens are "1 OK, 2 OK" with two boards and "1 OK, 2 NOK" with one |
| LegacyMotionController.InitFailureIsSilent | spotmicro/motion_controller/motion_controller.py:275-279 | when `__init__` fails, the handler raises AttributeError and no LCD token is sent from the point of failure on |
| LegacyMotionController.OpenQuiet | spotmicro/motion_controller/motion_controller.py:32-58 | opening the boards sends no LCD token |
| LegacyMotionController.BindQuiet | spotmicro/motion_controller/motion_controller.py:61-256 | binding the servos sends no LCD token |
| LegacyMotionController.WriteQuiet | spotmicro/motion_controller/motion_controller.py:373-389 | a posture sends no LCD token |
| LegacyMotionController.LegacyController.constructor | spotmicro/motion_controller/motion_controller.py:20-279 | `__init__` behaves as `LegacyInit` and leaves the previous event empty |
| LegacyMotionController.LegacyController.SetUpServos | spotmicro/motion_controller/motion_controller.py:61-269 | the servo blocks, the rest position and the tokens behave as `ServoSetup` |
| LegacyMotionController.LegacyController.OpenBoard | spotmicro/motion_controller/motion_controller.py:39-41 | opening a board records it in its field and in the log |
| LegacyMotionController.LegacyController.OpenPca9685Boards | spotmicro/motion_controller/motion_controller.py:32-58 | the board part of `__init__` behaves as `OpenBoards` |
| LegacyMotionController.LegacyController.RestPosition | spotmicro/motion_controller/motion_controller.py:373-389 | writes the rest posture |
| LegacyMotionController.LegacyController.MoveForward | spotmicro/motion_controller/motion_controller.py:394-410 | writes the forward posture |
| LegacyMotionController.LegacyController.MoveBackwards | spotmicro/motion_controller/motion_controller.py:412-428 | writes the backward posture |
| LegacyMotionController.LegacyController.Activate | spotmicro/motion_controller/motion_controller.py:367-368 | `activate` queues `activate_servos` |
| LegacyMotionController.LegacyController.SendAbort | spotmicro/motion_controller/motion_controller.py:370-371 | `abort` queues `abort` |
| LegacyMotionController.LegacyController.Guard | spotmicro/motion_controller/motion_controller.py:321-323 | one `if` statement is the first step of the remaining table |
| LegacyMotionController.LegacyController.Buttons | spotmicro/motion_controller/motion_controller.py:321-334 | the four button statements |
| LegacyMotionController.LegacyController.Axes | spotmicro/motion_controller/motion_controller.py:336-348 | the four axis statements |
| LegacyMotionController.LegacyController.ProcessEvent | spotmicro/motion_controller/motion_controller.py:295-350 | one loop body behaves as `Iteration` and keeps `boards` |
| LegacyMotionController.LegacyController.DeinitBoards | spotmicro/motion_controller/motion_controller.py:362-365 | the `finally` behaves as `Finally` |
| LegacyMotionController.LegacyController.DoProcessEventsFromQueues | spotmicro/motion_controller/motion_controller.py:285-365 | the loop over the events, its `except` and its `finally` behave as `Run` |
| LcdScreenController.PrefixesExclusive | spotmicro/lcd_screen_controller/lcd_screen_controller.py:66-76 | no token starts with two of the four prefixes |
| LcdScreenController.ApplySetsOneField | spotmicro/lcd_screen_controller/lcd_screen_controller.py:66-76 | a token with a prefix sets exactly that prefix's field to the rest of the token; any other token changes nothing |
| LcdScreenController.RemoteIcon | spotmicro/lcd_screen_controller/lcd_screen_controller.py:157-162 | the remote icon is 1 exactly for `OK`, 7 exactly for `SEARCHING`, and 6 otherwise |
| LcdScreenController.StatusIcon | spotmicro/lcd_screen_controller/lcd_screen_controller.py:166-181 | the abort and motion icons are 1 exactly for `OK` and 6 otherwise |
| LcdScreenController.UnknownShowsProblems | spotmicro/lcd_screen_controller/lcd_screen_controller.py:18-181 | before any token every icon is the problem icon |
| LcdScreenController.StatusTokenRoundTrip | spotmicro/lcd_screen_controller/lcd_screen_controller.py:72-181 | a motion controller's status token sets its field to `OK`/`NOK`, changes nothing else, and shows icon 1/6 |
| LcdScreenController.TokensNeverDraw | spotmicro/lcd_screen_controller/lcd_screen_controller.py:63-80 | receiving tokens never redraws the screen; only an empty receive does |
| LcdScreenController.ProcessAppend | spotmicro/lcd_screen_controller/lcd_screen_controller.py:61-80 | processing two runs of receives is processing their concatenation |
| LcdScreenController.RedrawAfterToken | spotmicro/lcd_screen_controller/lcd_screen_controller.py:63-80 | the redraw after a token shows the icons of the updated status |
| LcdScreenController.LcdScreen.constructor | spotmicro/lcd_screen_controller/lcd_screen_controller.py:16-47 | all fields start unknown; the screen is drawn once and alive exactly when it starts |
| LcdScreenController.LcdScreen.UpdateLcdScreen | spotmicro/lcd_screen_controller/lcd_screen_controller.py:94-181 | a redraw shows `Icons` of the current status and changes no field |
| LcdScreenController.LcdScreen.HandleToken | spotmicro/lcd_screen_controller/lcd_screen_controller.py:66-76 | one token updates the fields as `Apply` and draws nothing |
| LcdScreenController.LcdScreen.DoProcessEventsFromQueue | spotmicro/lcd_screen_controller/lcd_screen_controller.py:54-83 | a screen that is not alive returns at once and changes nothing; otherwise the loop behaves as `Process` |

## Left out

- **Hardware I/O and timing.**
  - No I2C or PWM signal is modelled, and no delay.
  - `time.sleep` calls are dropped; only the order of the writes they separate is kept.
  - The Adafruit board and servo libraries are the oracle `Rig`. The servo's ValueError range check is the `accepts` predicate, and a servo reads back exactly the value it accepted (no pulse-width quantisation).
- **Configuration.**
  - Configuration is a constant record, and JSON file reading is not modelled.
  - The legacy `int(config, 0)` parse is a configuration value that is present or absent.
- **`maprange`.** `General().maprange` is not part of this model and is an uninterpreted function. No numeric result about it is claimed.
- **Process control.**
  - Signal registration is not modelled.
  - `sys.exit` is not modelled.
  - The multiprocessing queues are not modelled; tokens put on a queue are log entries.
  - The loops' infinite `while True` is modelled over a finite sequence of receives. A timeout receive is `None`.
- **Servo tables.**
  - Servo channel indices are valid when in 0..15. Python's negative indexing of `channels` is not modelled: a negative index is IndexError here.
  - A channel's `set_pulse_width_range` cannot fail here.
- **Event values.** An event's buttons are booleans in `spotmicroai`. The legacy dictionary event holds reals, so a button is a real compared with 0.
- **`spotmicroai` as written cannot run its loop.** The model's event loop is the program with the following three defects repaired:
  - `spotmicroai/motion_controller/motion_controller.py:13` imports `MotionControllerArmMoves` from `arm_moves.py`, but that file defines only a class named `MotionController` (`spotmicroai/motion_controller/arm_moves.py:9`). The model names the arm class `MotionControllerArmMoves`.
  - Every `MotionControllerArmMoves()` call in the loop (`spotmicroai/motion_controller/motion_controller.py:80-145`) passes no argument, although the class's `__init__` requires `communication_queues` (`spotmicroai/motion_controller/arm_moves.py:11`). The model's arm constructor takes the setup object instead. Because the arm class is not a singleton, each such call builds a new arm object; the model keeps one, which makes no difference because the arm object holds no state of its own beyond the setup object it reads.
  - The arm class's servo and `*_rest_angle` attributes are never set. The model reads its servos as the setup object's bindings and each `*_rest_angle` as the configured rest angle.
- **The setup object's `i2c`.** It is the class attribute `None` (`spotmicroai/motion_controller/motion_controller_setup.py:20`); the loop assigns `busio.I2C(...)` to its own object (`spotmicroai/motion_controller/motion_controller.py:33`), not to the setup object. So `PCA9685(self.i2c, ...)` (`spotmicroai/motion_controller/motion_controller_setup.py:62`, `:78`) receives None. The model does not track the bus argument: whether a board opens is the oracle `Rig.opens`, which may say it does.
- **Shared PWM channels.** A servo's readback is kept per joint. Two joints configured on the same board and channel are therefore independent in the model, although in the source they drive one PWM output and read back the same angle.
- **`spotmicroai` `__init__` except branch.** The branch at `spotmicroai/motion_controller/motion_controller.py:51-58` is reached only when the I2C bus, a signal registration or a queue lookup fails. None of these is modelled, so `MotionController.MotionController.constructor` always completes.
- **`_previous_event`.** In `spotmicroai` it is assigned but never read, so it is not modelled there.
- **`hat0x and tl2`.** The statement at `spotmicroai/motion_controller/motion_controller.py:112-114` is a `pass` and does nothing, so it is not modelled.
- **Legacy queue.** The legacy loop's `get()` has no timeout, so its `queue.Empty` branch (`spotmicro/motion_controller/motion_controller.py:352-357`) cannot run and is not modelled. The legacy `exit_gracefully` only exits; `move_to_position_xxx` is empty.
- **Legacy rest and init tokens.** The `print` calls are not modelled. The `abort_controller` and `remote_controller_connected` tokens come from other processes, which are not part of this model.
- **LCD.**
  - The LCD character-write sequence, the icon bitmaps and the temperature reading are not modelled. A redraw is the four icon indices it chooses, in the order remote, abort, motion 1, motion 2.
  - Whether the screen hardware starts is the constructor's parameter `screenStarts`.
  - `turn_on`/`turn_off` and the outer `except` are not modelled.
- **Missing event keys.** A `spotmicroai` event is a record with every field, so the KeyError a missing key would raise there is not modelled. A missing key in a legacy dictionary event is modelled.
