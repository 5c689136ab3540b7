# Cable robot: proprioceptive homing, supervisor, controller modes and pulleys

A Dafny model of the core of a cable-driven parallel robot controller written in C++/Qt.
It covers:

- the proprioceptive homing procedure (`HomingProprioceptive`): a nine-state machine.
  For every active actuator in turn it loads a torque ramp on the cable, records the motor
  position reached at each torque set point while coiling, replays those positions
  backwards while uncoiling, and then hands the logged measurements to an optimiser. The
  optimiser's result sets the robot's home configuration.
- the robot supervisor (`CableRobot`): its seven-state machine, the enable/disable
  requests towards the actuators and their acknowledgement bookkeeping, fault clearing,
  measurement collection and the dispatch of a controller's actions to the enabled
  actuators.
- the motor and mode table of `ControllerBase`.
- the pulley angle bookkeeping of `PulleysSystem`.

Both state machines run on the same small engine. An external event has a transition
table, one entry per current state: go to a state, ignore the event, or "cannot happen".
When the event is accepted:

1. the guard of the target state runs;
2. the entry action runs, only if the target differs from the current state;
3. the state is set;
4. the state action runs.

An internal event (`InternalEvent(ST_X)`) is modelled as a direct call to the method
standing for "go to X".

## Modules and files

| file | module | what it holds |
|---|---|---|
| `robot_types.dfy` | `RobotTypes`, `Seqs`, `StateMachine` | Fixed-width integers. C++ truncating division, `qint16` wrap-around and `size_t` arithmetic. Actuator states and statuses, control modes, the transition outcome datatype. |
| `controller_base.dfy` | `Controller` | `ControllerBase` as a class over `motors_id_` / `modes_`. |
| `pulleys_system.dfy` | `Pulleys` | `PulleysSystem` as a class, angles as reals. |
| `cable_robot.dfy` | `Robot` | The supervisor's transition maps (functions), the actuator bookkeeping (pure functions) and the `CableRobot` class. |
| `homing_states.dfy` | `HomingStates` | The homing states, the state map (guards and entry actions), event data and constants. |
| `homing_tables.dfy` | `HomingTables` | The external-event transition maps of the homing machine and `IsCollectingData`. |
| `homing_ramp.dfy` | `HomingRamp` | The torque ramp of one cable and the measurement counts. |
| `homing.dfy` | `Homing` | The `HomingProprioceptive` class. |

The class invariant `HomingProprioceptive.Valid` ties the acquisition counters together.
For each acquisition state it states:

- how many set points have been measured for the working cable;
- that the ghost history `coiled` of motor positions recorded while coiling lies in
  `reg_pos_`;
- that the ghost history `replayed` of position targets commanded while uncoiling is
  `coiled` read backwards from its last-but-one entry;
- that the ghost count `total_meas` of measurements dumped so far equals `(2M - 1)` per
  finished cable plus the steps of the working one.

Here M is `num_meas_` and N the number of active actuators. The transition methods keep
this invariant. When a run ends, `GoSwitchCable`, `GoUncoiling` and `Start` report
`complete`, and then `total_meas == num_tot_meas_ == (2M - 1) * N`.

Behaviour of the code that is easy to misread:

- `EventSuccess` takes the supervisor from Error to Enabled. Error is not left only through
  `stop`.
- Uncoiling replays M - 1 positions per cable, not M: steps M + 1 .. 2M - 1 replay
  `reg_pos_[M - 2] .. reg_pos_[0]`, and step 2M restores torque control. So a cable gives
  2M - 1 measurements.
- The SwitchCable action resets `meas_step_` before its blocking waits, not after them.
- The guard of Idle out of Fault never waits for faults to clear. Its test compares the
  stored actuator states against the homing machine's own `ST_FAULT` value, not the
  actuator's, so it never holds. A fault status is never stored anyway: a fault report
  triggers `FaultTrigger` instead. The guard can fail only through its clock timeout,
  which is why its outcome is left open.

## Model

| member | source | states |
|---|---|---|
| RobotTypes.TruncDiv | src/homing/homing_proprioceptive.cpp:406-408 | The quotient of `int` division truncates toward zero: the remainder has the dividend's sign and is smaller than the divisor in magnitude. |
| RobotTypes.Wrap16 | src/homing/homing_proprioceptive.cpp:406-410 | Conversion to `qint16` keeps every value in range and otherwise differs from the value by a multiple of 2^16. |
| RobotTypes.SizeT | src/homing/homing_proprioceptive.cpp:342 | A `size_t` value stays below 2^64 and equals the exact value whenever that is in range. |
| Controller.SetModeOnlyAffectsId | src/ctrl/controller_base.cpp:46-60 | Setting the mode of one listed motor changes the mode read back for that motor only. |
| Controller.SetAllModesReadBack | src/ctrl/controller_base.cpp:36-44 | After setting every mode, each listed motor reads back that mode and an unlisted one reads `NONE`. |
| Controller.SetMotorIDAsWritten | src/ctrl/controller_base.cpp:18-25 | As written, `SetMotorID` leaves one motor id and an empty mode vector: `reserve` does not change the size. |
| Controller.SetModeIndexAsWritten | src/ctrl/controller_base.cpp:36-44 | After the as-written `SetMotorID`, the index 0 that `SetMode` writes is a valid motor index but not a valid index of `modes_`. |
| Controller.SetMotorsIDAsWritten | src/ctrl/controller_base.cpp:27-34 | As written, `SetMotorsID` (and the constructor from a list) keeps the ids but leaves the mode vector empty. |
| Controller.SetModesIndexAsWritten | src/ctrl/controller_base.cpp:36-44 | After the as-written `SetMotorsID` with at least one motor, every index `SetMode` writes is a valid motor index and none is a valid index of `modes_`. |
| Controller.ControllerBase.constructor | src/ctrl/controller_base.cpp:3-7 | One motor, its mode slot present and set to none. |
| Controller.ControllerBase.OfMotors | src/ctrl/controller_base.cpp:9-12 | The given motors, every mode slot none. |
| Controller.ControllerBase.SetMotorID | src/ctrl/controller_base.cpp:18-25 | The motor list becomes exactly the given motor, with one mode slot (none). |
| Controller.ControllerBase.SetMotorsID | src/ctrl/controller_base.cpp:27-34 | The motor list becomes the given one, every mode slot none. |
| Controller.ControllerBase.SetMode | src/ctrl/controller_base.cpp:36-44 | The motor list is unchanged and every motor's mode is the given one; an empty list changes nothing. |
| Controller.ControllerBase.SetModeOf | src/ctrl/controller_base.cpp:46-60 | Only the first slot of the given motor changes; an unlisted motor changes nothing. |
| Controller.ControllerBase.GetMode | src/ctrl/controller_base.cpp:62-68 | The mode of the first slot of the motor, or `NONE` for an unlisted motor. |
| Pulleys.CountsToAngleLinear | src/robot/components/pulleys_system.cpp:36-39 | The counts-to-angle conversion is linear: zero at zero, additive, odd. |
| Pulleys.AngleShift | src/robot/components/pulleys_system.cpp:26-29 | Moving by `d` counts moves the pulley angle by the conversion of `d` alone. |
| Pulleys.PulleysSystem.constructor | src/robot/components/pulleys_system.cpp:10-12 | Only the id and the pulley parameters (their two angle factors) are stored; the home reference and the angle are left uninitialised. |
| Pulleys.PulleysSystem.UpdateHomeConfig | src/robot/components/pulleys_system.cpp:20-24 | Home counts and home angle take the given values; the current angle is untouched. |
| Pulleys.PulleysSystem.UpdateConfig | src/robot/components/pulleys_system.cpp:26-29 | The angle is the home angle plus the conversion of the count offset from home; at the home count it is the home angle. |
| Pulleys.PulleysSystem.GetAngleRad | src/robot/components/pulleys_system.cpp:14-18 | Updates the angle from the counts and returns it. |
| Robot.EnterCalibrationModeTable | src/robot/cablerobot.cpp:248-262 | Accepted from Enabled and Ready, ignored in Calibration, impossible elsewhere. |
| Robot.EnterHomingModeTable | src/robot/cablerobot.cpp:264-278 | Accepted from Enabled and Ready, towards Homing; ignored in Homing; impossible elsewhere. |
| Robot.EventSuccessTable | src/robot/cablerobot.cpp:280-294 | Homing and Operational go to Ready; Idle, Calibration and Error go to Enabled; impossible in Enabled and Ready; never ignored. |
| Robot.EventFailureTable | src/robot/cablerobot.cpp:296-310 | Calibration and Homing fall back to Enabled, Operational goes to Error, ignored in Error, impossible elsewhere. |
| Robot.StopTable | src/robot/cablerobot.cpp:312-326 | Operational goes to Ready; Calibration, Homing, Ready and Error go to Enabled; ignored in Enabled; impossible in Idle. |
| Robot.LoopTable | src/robot/cablerobot.cpp:436-444 | The loop's event re-enters the current state, whatever it is. |
| Robot.ModeExits | src/robot/cablerobot.cpp:280-326 | Calibration and Homing are left only through success, failure or stop. Failure and stop lead to Enabled; success leads to Ready from Homing and to Enabled from Calibration. |
| Robot.ActiveIds | src/robot/cablerobot.cpp:178-184 | The active motor ids name active actuators and are no more than the actuators. |
| Robot.ActiveIdsIncreasing | src/robot/cablerobot.cpp:178-184 | The active ids are strictly increasing, so they are listed in actuator order without repetition. |
| Robot.ActiveIdsComplete | src/robot/cablerobot.cpp:178-184 | Every active actuator's id is listed. |
| Robot.ActiveIdsIgnoreState | src/robot/cablerobot.cpp:178-184 | The list depends only on the active flags, not on the actuators' states. |
| Robot.FaultedActiveIds | src/robot/cablerobot.cpp:186-191 | The actuators that get a fault reset are active and in fault, listed in increasing order. |
| Robot.FaultedActiveIdsComplete | src/robot/cablerobot.cpp:186-191 | Every active actuator in fault gets its reset. |
| Robot.ActiveAmong | src/robot/cablerobot.cpp:123-131 | An id is requested exactly when it is among the given ids and its actuator is active. |
| Robot.MotorsEnabled | src/robot/cablerobot.cpp:97-103 | True exactly when every active actuator is enabled. |
| Robot.AnyMotorEnabled | src/robot/cablerobot.cpp:89-95 | True exactly when some active actuator is enabled. |
| Robot.AllEnabledImpliesAny | src/robot/cablerobot.cpp:89-103 | With at least one active actuator, all enabled implies some enabled. |
| Robot.ActionCommand | src/robot/cablerobot.cpp:465-481 | One set point for a control action with a mode, none for mode `NONE`. |
| Robot.ControlCommands | src/robot/cablerobot.cpp:453-483 | Every command issued goes to an enabled actuator and comes from one of the actions; there are no more commands than actions. |
| Robot.ControlCommandsAllEnabled | src/robot/cablerobot.cpp:453-483 | When every targeted actuator is enabled and every action has a mode, there is one command per action, in order: command `k` is the one of action `k`. |
| Robot.ControlCommandsAppend | src/robot/cablerobot.cpp:456-482 | Dispatching two lists one after the other issues the commands of the first, then those of the second. |
| Robot.ControlCommandsSplit | src/robot/cablerobot.cpp:456-482 | The dispatch is an ordered filter. The commands of action `k` sit between those of the actions before it and those after it. They are its command exactly when its actuator is enabled, so a non-enabled actuator skips only its own action. |
| Robot.ControlCommandsComplete | src/robot/cablerobot.cpp:456-482 | An action on an enabled actuator contributes its command, whatever the states of the other actions' actuators. |
| Robot.CableRobot.constructor | src/robot/cablerobot.cpp:12-45 | One idle actuator per configuration entry with its active flag, in Idle, with no acknowledgement pending. |
| Robot.CableRobot.RequestMotor | src/robot/cablerobot.cpp:105-112 | An active actuator gets the request and its acknowledgement bit is set; an inactive one gets nothing. |
| Robot.CableRobot.RequestLoop | src/robot/cablerobot.cpp:114-121 | One request per active actuator, in actuator order, each with its acknowledgement bit set, and no other bit. |
| Robot.CableRobot.RequestMotors | src/robot/cablerobot.cpp:114-121 | As `RequestLoop`, on the robot's own actuators and pending set. |
| Robot.CableRobot.RequestListLoop | src/robot/cablerobot.cpp:123-131 | One request per active actuator among the given ids, in their order, and exactly their bits set. |
| Robot.CableRobot.RequestMotorsList | src/robot/cablerobot.cpp:123-131 | As `RequestListLoop`, on the robot's own actuators and pending set. |
| Robot.CableRobot.EnableMotor | src/robot/cablerobot.cpp:105-112 | Enable request for an active actuator (bit set), nothing for an inactive one. |
| Robot.CableRobot.DisableMotor | src/robot/cablerobot.cpp:133-140 | Disable request for an active actuator (bit set), nothing for an inactive one. |
| Robot.CableRobot.EnableMotors | src/robot/cablerobot.cpp:114-121 | Enable requests to exactly the active actuators, in order. |
| Robot.CableRobot.DisableMotors | src/robot/cablerobot.cpp:142-149 | Disable requests to exactly the active actuators, in order. |
| Robot.CableRobot.EnableMotorsList | src/robot/cablerobot.cpp:123-131 | Enable requests to exactly the active ones among the given ids. |
| Robot.CableRobot.DisableMotorsList | src/robot/cablerobot.cpp:151-159 | Disable requests to exactly the active ones among the given ids. |
| Robot.CableRobot.HandleActuatorStateChanged | src/robot/cablerobot.cpp:380-400 | The actuator's acknowledgement bit is cleared; the request is satisfied exactly when no bit is left. |
| Robot.CableRobot.ActuatorStateChanged | src/robot/cablerobot.cpp:380-400 | The actuator takes its new state; for an active one its bit is cleared and the request is satisfied exactly when no bit is left; an inactive one changes no bit and never satisfies. |
| Robot.CableRobot.ClearFaults | src/robot/cablerobot.cpp:186-191 | A fault reset to every active actuator in fault, in order. |
| Robot.CableRobot.CollectMeas | src/robot/cablerobot.cpp:193-203 | The measurement vector holds the status of each active actuator, in order. |
| Robot.CableRobot.UpdateHomeConfigAll | src/robot/cablerobot.cpp:72-76 | Every active actuator gets the same home cable length and pulley angle. |
| Robot.CableRobot.UpdateHomeConfig | src/robot/cablerobot.cpp:78-82 | The named actuator gets its home cable length and pulley angle. |
| Robot.CableRobot.GoHome | src/robot/cablerobot.cpp:212-237 | The move home is attempted and reported successful exactly when every active motor is enabled. |
| Robot.CableRobot.SetController | src/robot/cablerobot.cpp:239-244 | The installed controller is the given one (possibly none). |
| Robot.CableRobot.ControlStep | src/robot/cablerobot.cpp:453-483 | The commands are those of the controller's actions on enabled actuators; each goes to an enabled actuator. |
| Robot.CableRobot.RunStateAction | src/robot/cablerobot.cpp:330-376 | Only Enabled and Homing with an installed controller run a control step; every other state issues nothing. |
| Robot.CableRobot.Apply | src/robot/cablerobot.cpp:436-444 | An accepted transition sets the state and runs its action. Only a transition into Enabled or Homing with a controller installed issues commands, exactly the control step's. Every other transition issues nothing, and an ignored or impossible one also leaves the state unchanged. |
| Robot.CableRobot.LoopFunction | src/robot/cablerobot.cpp:430-449 | The cycle keeps the state. In Enabled or Homing with a controller it issues the control step's commands, and in every other case none. |
| Robot.CableRobot.EnterCalibrationMode | src/robot/cablerobot.cpp:248-262 | The state becomes Calibration when the table accepts the event, and stays otherwise. |
| Robot.CableRobot.EnterHomingMode | src/robot/cablerobot.cpp:264-278 | The state becomes Homing when the table accepts the event. Entering Homing with a controller runs a control step; otherwise nothing is issued. |
| Robot.CableRobot.EventSuccess | src/robot/cablerobot.cpp:280-294 | The state follows the success table. Entering Enabled with a controller runs a control step; every other outcome issues nothing. |
| Robot.CableRobot.EventFailure | src/robot/cablerobot.cpp:296-310 | The state follows the failure table. Entering Enabled with a controller runs a control step; every other outcome issues nothing. |
| Robot.CableRobot.Stop | src/robot/cablerobot.cpp:312-326 | The state follows the stop table. Entering Enabled with a controller runs a control step; every other outcome issues nothing. |
| HomingStates.Index | inc/homing/homing_proprioceptive.h:57-66 | Each state has its enum value below `ST_MAX_STATES`. |
| HomingStates.StateOf | inc/homing/homing_proprioceptive.h:57-66 | Each enum value below `ST_MAX_STATES` names the state with that value. |
| HomingStates.IndexBijective | inc/homing/homing_proprioceptive.h:57-66 | The enum values are distinct and `StateOf` inverts `Index`. |
| HomingStates.StateMap | inc/homing/homing_proprioceptive.h:171-183 | Idle, Enabled and SwitchCable have guards; Coiling and Uncoiling have entry actions; no state has both. |
| HomingTables.StartTable | src/homing/homing_proprioceptive.cpp:123-133 | Idle → Enabled → StartUp → SwitchCable → Coiling; Coiling stays Coiling, Uncoiling stays Uncoiling; impossible in Optimizing, Home and Fault; never ignored. |
| HomingTables.DisableTable | src/homing/homing_proprioceptive.cpp:157-167 | Idle, Enabled, Optimizing and Home go to Idle; the acquisition states and Fault ignore it. |
| HomingTables.OptimizeTable | src/homing/homing_proprioceptive.cpp:175-185 | Accepted only in Enabled, towards Optimizing; impossible in Idle and Fault. |
| HomingTables.GoHomeTable | src/homing/homing_proprioceptive.cpp:193-203 | Accepted only in Enabled, towards Home; ignored in Home; impossible elsewhere. |
| HomingTables.FaultTriggerTable | src/homing/homing_proprioceptive.cpp:211-221 | Every state but Fault goes to Fault; Fault ignores it. |
| HomingTables.FaultResetTable | src/homing/homing_proprioceptive.cpp:225-229 | Always towards Idle. |
| HomingTables.IsCollectingDataExactly | src/homing/homing_proprioceptive.cpp:78-96 | Data are being collected exactly in StartUp, SwitchCable, Coiling and Uncoiling. |
| HomingTables.CollectingEvents | src/homing/homing_proprioceptive.cpp:123-203 | While collecting, Start stays in the acquisition states; Disable and Optimize are ignored; GoHome cannot happen. |
| HomingTables.GatesOnlyFromEnabled | src/homing/homing_proprioceptive.cpp:171-205 | Optimizing and Home are requested only from Enabled, which is not an acquisition state. |
| HomingTables.StartChain | src/homing/homing_proprioceptive.cpp:123-128 | Successive Start events walk Idle, Enabled, StartUp, SwitchCable and reach Coiling. |
| HomingRamp.TorqueRamp | src/homing/homing_proprioceptive.cpp:405-411 | M set points; the first M - 1 step from the initial torque by the truncated delta, and the last is the maximum torque. |
| HomingRamp.QuotientBounds | src/homing/homing_proprioceptive.cpp:406-408 | With at least three set points the truncated delta fits in `qint16`; its multiples stay within the torque span. |
| HomingRamp.RampExact | src/homing/homing_proprioceptive.cpp:405-411 | No `qint16` wrap-around happens: each ramp value is exactly `init + i * trunc((max - init) / (M - 1))` and lies between the initial and the maximum torque. |
| HomingRamp.RampMonotone | src/homing/homing_proprioceptive.cpp:405-411 | The ramp is non-decreasing towards a larger maximum and non-increasing towards a smaller one. |
| HomingRamp.RampEnds | src/homing/homing_proprioceptive.cpp:405-411 | The ramp starts at the initial torque and ends at the maximum exactly. |
| HomingRamp.RampExample | src/homing/homing_proprioceptive.cpp:405-411 | Three set points from 10 to 50 give 10, 30, 50. |
| HomingRamp.RampTruncatesTowardZero | src/homing/homing_proprioceptive.cpp:406-408 | A decreasing ramp uses the quotient truncated toward zero (50, 37, 24, then 10), not the floored one. |
| HomingRamp.NumTotMeas | src/homing/homing_proprioceptive.cpp:342 | The total count is a `size_t`. |
| HomingRamp.NumTotMeasExact | src/homing/homing_proprioceptive.cpp:342 | For 1 ≤ M ≤ 255 and N ≤ 256 the total is exactly `(2M - 1) * N`, and dividing it by N gives `2M - 1`. |
| HomingRamp.NumTotMeasZeroWraps | src/homing/homing_proprioceptive.cpp:342 | With M = 0 the unsigned `2M - 1` wraps, and the total is 2^64 - N. |
| HomingRamp.NumTotMeasValue | src/homing/homing_proprioceptive.cpp:342 | The `size_t` total equals the wrap-free count `TotalMeasCount` for every M < 256 and N ≤ 256. |
| HomingRamp.ReplayOffset | src/homing/homing_proprioceptive.cpp:502 | The replay offset `num_tot_meas_ / N` is `2M - 1`. |
| HomingRamp.ReplayIndex | src/homing/homing_proprioceptive.cpp:502-507 | Uncoiling steps M + 1 .. 2M - 1 replay the recorded indices M - 2 down to 0, one per step, last-but-one first. |
| Homing.Resized | src/homing/homing_proprioceptive.cpp:345-346 | `vector::resize`: the new length, the old prefix kept, new slots value-initialised. |
| Homing.HomingProprioceptive.constructor | src/homing/homing_proprioceptive.cpp:50-67 | Idle, `num_meas_` at its minimum of 1, no disable request, one default status per active actuator; the invariant holds. |
| Homing.HomingProprioceptive.GetActuatorStatus | src/homing/homing_proprioceptive.cpp:98-111 | The stored status of the first slot of an active id; a default status for any other id. |
| Homing.HomingProprioceptive.WaitUntilPlatformSteady | src/homing/homing_proprioceptive.cpp:624-674 | With no active actuator the wait can only time out; with a stop or disable request pending it returns interrupted. |
| Homing.HomingProprioceptive.SetpointSettled | src/homing/homing_proprioceptive.cpp:426-427 | Both waits succeed only with an active actuator and no stop or disable request. |
| Homing.HomingProprioceptive.DumpMeasAndMoveNext | src/homing/homing_proprioceptive.cpp:676-687 | The step counter and the count of dumped measurements each go up by one. |
| Homing.HomingProprioceptive.ComputeNumTotMeas | src/homing/homing_proprioceptive.cpp:342 | The `size_t` total `(2M - 1) * N`, as the wrap-free count. |
| Homing.HomingProprioceptive.DriveAloneInTorque | src/homing/homing_proprioceptive.cpp:413-416 | The controller drives exactly the given motor, in torque mode. |
| Homing.HomingProprioceptive.ApplyInitialTorques | src/homing/homing_proprioceptive.cpp:348-364 | The initial torques recorded are a prefix of the requested ones, one per actuator reached; all of them when every wait succeeded. |
| Homing.HomingProprioceptive.LoadTorqueRamp | src/homing/homing_proprioceptive.cpp:405-411 | The ramp loop computes exactly `TorqueRamp` over the buffer's length. |
| Homing.HomingProprioceptive.GoIdle | src/homing/homing_proprioceptive.cpp:254-297 | Out of any state but Fault the guard passes and Idle clears the disable request; out of Fault a failed guard changes nothing. |
| Homing.HomingProprioceptive.GoEnabled | src/homing/homing_proprioceptive.cpp:299-330 | A failed guard changes nothing. Otherwise the stop request is cleared and the state is Enabled, or Idle (with both requests cleared) when a disable was pending. |
| Homing.HomingProprioceptive.BeginStartUp | src/homing/homing_proprioceptive.cpp:332-347 | The run's parameters are stored: M, the maximum torques, the working index 0, the `size_t` total, the buffers resized to M. |
| Homing.HomingProprioceptive.GoStartUp | src/homing/homing_proprioceptive.cpp:332-377 | As `BeginStartUp`, then the initial torques applied one actuator at a time; any failed wait falls back to Enabled (or Idle). |
| Homing.HomingProprioceptive.GoSwitchCable | src/homing/homing_proprioceptive.cpp:379-396 | The run is complete exactly when coming from Uncoiling with every cable done. Then `(2M - 1) * N` measurements were dumped, matching `num_tot_meas_`, and the procedure leaves acquisition for Enabled (or Idle, or stays put when the Enabled guard fails). Otherwise, in SwitchCable, the working cable is kept and the step counter is reset. |
| Homing.HomingProprioceptive.EnterSwitchCable | src/homing/homing_proprioceptive.cpp:398-411 | SwitchCable with the ramp of the working cable loaded and the step counter reset. |
| Homing.HomingProprioceptive.SetupFirstSetpoint | src/homing/homing_proprioceptive.cpp:413-417 | The controller drives the working motor alone, in torque mode, at the ramp's first set point. |
| Homing.HomingProprioceptive.SwitchCableAction | src/homing/homing_proprioceptive.cpp:398-433 | The cable is loaded and driven at its first set point; a failed wait falls back to Enabled (or Idle). |
| Homing.HomingProprioceptive.EnterCoiling | src/homing/homing_proprioceptive.cpp:435-442 | The first position is recorded and one measurement dumped; Coiling at step 1. |
| Homing.HomingProprioceptive.RecordCoiledPosition | src/homing/homing_proprioceptive.cpp:463-470 | The position reached is recorded in the slot of the current step, which then advances. |
| Homing.HomingProprioceptive.CoilingAction | src/homing/homing_proprioceptive.cpp:444-475 | Uncoiling is reached only after M steps. A step that advances in Coiling has commanded the torque set point `torques_[step]`. A failed wait falls back to Enabled or Idle. |
| Homing.HomingProprioceptive.GoCoiling | src/homing/homing_proprioceptive.cpp:435-475 | From SwitchCable or Coiling the procedure stays in Coiling, moves to Uncoiling or falls back to Enabled or Idle, and the invariant holds in every outcome. |
| Homing.HomingProprioceptive.EnterUncoiling | src/homing/homing_proprioceptive.cpp:477 | The step counter goes from M to M + 1 on entering Uncoiling. |
| Homing.HomingProprioceptive.CommandReplayedPosition | src/homing/homing_proprioceptive.cpp:502-508 | Position control, with the target `reg_pos_[kOffset - step]`, which is the position recorded at coiling step `2M - 1 - step`. |
| Homing.HomingProprioceptive.RecordReplayedPosition | src/homing/homing_proprioceptive.cpp:512-523 | The replayed target is appended to the replay history and the step advances. |
| Homing.HomingProprioceptive.ReplayStep | src/homing/homing_proprioceptive.cpp:502-527 | The commanded target is the coiled position mirrored about the offset; on success it joins the replay history. |
| Homing.HomingProprioceptive.FinishCable | src/homing/homing_proprioceptive.cpp:484-499 | After the last uncoiling step the procedure moves on to the next cable or falls back, keeping the invariant. Reaching SwitchCable means the working index advanced by one and the step restarted at 0. A completed run has the totals matching and leaves for Enabled (or Idle, or stays in Uncoiling when the Enabled guard fails). |
| Homing.HomingProprioceptive.GoUncoiling | src/homing/homing_proprioceptive.cpp:477-528 | Arriving from Coiling stays in Uncoiling or falls back; completion happens only from Uncoiling, with the totals matching, and leads to Enabled, Idle or (failed guard) Uncoiling. Reaching SwitchCable means the working index advanced by one and the step restarted at 0. |
| Homing.HomingProprioceptive.GoOptimizing | src/homing/homing_proprioceptive.cpp:530-589 | Home is reached only with one result row per actuator. Each actuator's home update takes its length and angle from the row of its id. An engine failure or a wrong row count falls back without updates. |
| Homing.HomingProprioceptive.GoHomeState | src/homing/homing_proprioceptive.cpp:591-613 | A successful move home updates every active actuator's home with its own length and angle; a failed one falls back without updates. |
| Homing.HomingProprioceptive.GoFault | src/homing/homing_proprioceptive.cpp:615-620 | The state is Fault. |
| Homing.HomingProprioceptive.Start | src/homing/homing_proprioceptive.cpp:115-135 | Follows the Start table. Impossible states change nothing. Idle reaches Enabled or stays. Enabled reaches StartUp or falls back. The acquisition states never leave acquisition except by falling back. Completion happens only from Uncoiling, with the totals matching, and leads to Enabled, Idle or (failed guard) Uncoiling. Reaching SwitchCable from Uncoiling advances the working index by one; from StartUp it keeps the index; either way the step restarts at 0. |
| Homing.HomingProprioceptive.Stop | src/homing/homing_proprioceptive.cpp:137-145 | The stop request is raised. |
| Homing.HomingProprioceptive.Disable | src/homing/homing_proprioceptive.cpp:147-169 | Where the table accepts it, the procedure goes to Idle with the request cleared. Where it ignores it, the state stays and the request is left raised for the running wait. |
| Homing.HomingProprioceptive.Optimize | src/homing/homing_proprioceptive.cpp:171-187 | Only Enabled accepts it; an engine failure or a wrong row count never reaches Home. |
| Homing.HomingProprioceptive.GoHome | src/homing/homing_proprioceptive.cpp:189-205 | Only Enabled accepts it; a completed move ends in Home with one update per actuator. |
| Homing.HomingProprioceptive.FaultTrigger | src/homing/homing_proprioceptive.cpp:207-223 | From every state the procedure ends in Fault. |
| Homing.HomingProprioceptive.FaultReset | src/homing/homing_proprioceptive.cpp:225-229 | Out of any state but Fault it goes to Idle; out of Fault it goes to Idle or changes nothing. |
| Homing.HomingProprioceptive.HandleActuatorStatusUpdate | src/homing/homing_proprioceptive.cpp:233-250 | An unknown id changes nothing. A fault of an active actuator triggers Fault, without storing the status. Any other status overwrites the slot of its id and keeps the state. |

## Left out

- Qt signals, console messages, logging, the progress percentage and its rounding: observation only, no effect on the state.
- Mutexes and the concurrency between the command thread and the real-time thread: the model is sequential. `Stop` and `Disable` arriving during a wait are modelled by the wait reading the request flags.
- Blocking waits and their clocks (`WaitUntilTargetReached`, the guards' enable and fault-clearing timeouts, the low-pass filtered steadiness test of `WaitUntilPlatformSteady`): each is a nondeterministic outcome, constrained only by what the code decides without the clock. The timestamp `CollectMeas` writes into each measurement header from the robot's clock is not modelled either.
- The MATLAB engine call of Optimizing: its result is a parameter (`OptimizationResult`). Only the dimension check and the distribution of the rows are modelled.
- Calls from the homing procedure into the robot (`SetController`, `EnableMotors`/`DisableMotors` in the Idle and Enabled states, `SetMotorsOpMode`, `ClearFaults`, `CollectMeas`/`DumpMeas`, `UpdateHomeConfig(0, 0)` after start-up): the procedure holds no robot object. These calls are modelled on the `CableRobot` class on their own.
- The `static` list of active motor ids in the SwitchCable action, filled only on its first run: the model uses the procedure's own `active_actuators_id_` throughout.
- The set points given to the controller (`SetMotorTorqueTarget`, `SetMotorPosTarget` with its velocity arguments, the tolerance `kTorqueSsErrTol_`): the model records the last target in `torque_target_` / `pos_target_`, not the controller's set-point state.
- The EtherCAT slaves (`ReadInputs`/`WriteOutputs`), the actuators' own state machine, the robot's motion loop in `GoHome` and the controller's `CalcCableSetPoint`: not part of this model. Their outcomes are parameters (`ControlAction`s, `ActuatorStateChanged`).
- The acknowledgement bitfield `motors_waiting4ack_` is an 8-bit `Bitfield8`; the model keeps it as a set of ids and does not bound ids to 8.
- `CannotHappen` entries of the transition maps: the engine reports them as fatal; the model leaves the state unchanged.
- `vector::resize` reallocation and the destructors: no observable effect in the model.
- Homing.HomingProprioceptive.constructor: the initial value of `stop_cmd_recv_` and of the counters is left unspecified, because the source does not initialise them. It requires at most 256 active actuators, the range in which the `size_t` total is proved exact.
- Homing.HomingProprioceptive.GoOptimizing: requires every active motor id to be below N. The Home state indexes the N optimised rows by motor id without checking.
- Pulleys.PulleysSystem.UpdateConfig: requires the count offset to fit in `int`, because the source's `int` subtraction overflows otherwise.
- Homing.HomingProprioceptive.GoIdle: whether the guard passes out of Fault is nondeterministic, because its only failure is the clock timeout of its wait loop and clocks are not modelled. Its fault test never holds: it compares against the homing `ST_FAULT`, and fault statuses are never stored.
- Homing.HomingProprioceptive.Start: in StartUp it requires what `CanSwitchCable` states, because without it the SwitchCable action is undefined in the source. That is M >= 2 (the ramp divides by `M - 1`), N >= 1 (the motor list is indexed at 0), and at least N maximum and N initial torques (both are indexed by the working actuator). The maximum torques of the start data are never length-checked. The initial torques fall short on a reachable path: a failed wait partway through the StartUp action leaves fewer than N of them, and when the Enabled guard then fails too, the procedure stays in StartUp. The next Start then indexes `init_torques_` out of range. The model does not cover that call.
- Homing.HomingProprioceptive.GoStartUp: requires at least N initial torques in the start data, which the source reads without checking.
- Homing.HomingProprioceptive.GoHomeState: requires the home data to hold an entry for every active motor id, which the source indexes without checking.
- Robot.CableRobot.constructor: says nothing about the installed controller, because the constructor does not set `controller_` and the class declaration holding its initialiser is not part of this model.
- Pulleys.PulleysSystem.constructor: says nothing about the home counts, home angle and angle, because the source's constructor does not initialise them and the class declaration is not part of this model.
- Floating point: lengths and angles are reals, so rounding is not modelled.

## Findings

| source | as written | input that shows it | evidently intended | confidence | as-written member | corrected member |
|---|---|---|---|---|---|---|
| src/ctrl/controller_base.cpp:18-25 | `SetMotorID` (and the constructor from one id) only `reserve`s `modes_`, so its size stays 0. `SetMode` then writes `modes_[0]`, and `GetMode` reads it. | `SetMotorID(3)` then `SetMode(MOTOR_TORQUE)`: writes `modes_[0]` of an empty vector. | `modes_` has one slot per motor id: `resize(1, ControlMode::NONE)` instead of `reserve(1)`. | not executed | Controller.SetModeIndexAsWritten | Controller.ControllerBase.SetMotorID |
| src/ctrl/controller_base.cpp:27-34 | `SetMotorsID` (and the constructor from a list) only `reserve`s `modes_`, so its size stays 0. `SetMode` then writes `modes_[i]` for every motor index. | `SetMotorsID({0, 1})` then `SetMode(MOTOR_TORQUE)`: writes `modes_[0]` and `modes_[1]` of an empty vector. | `resize(n, ControlMode::NONE)` instead of `reserve(n)`. | not executed | Controller.SetModesIndexAsWritten | Controller.ControllerBase.SetMotorsID |
