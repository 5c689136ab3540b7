/** The robot supervisor (robot/cablerobot.cpp): its seven-state transition maps,
    the bookkeeping over its actuators (active flags, enable/disable acknowledgements,
    measurements) and the dispatch of a controller's actions to the actuators.

    Actuators are records indexed by their id. What the supervisor asks of an actuator
    (enable, disable, fault reset, a setpoint, a new home configuration) is returned as a
    sequence of `ActuatorCommand`s; the actuator's own state machine is declared in
    robot/components/actuator.h without bodies, so the effect of a command on the actuator
    is not part of this model. An actuator's change of state reaches the supervisor through
    `ActuatorStateChanged`. */
module Robot {
  import opened RobotTypes
  import opened StateMachine
  import Controller

  /** `CableRobot::States`, in table-row order. */
  datatype RobotState = Idle | Enabled | Calibration | Homing | Ready | Operational | Error

  //--------- Transition maps -------------------------------------------------------//

  function EnterCalibrationModeTable(s: RobotState): (t: Transition<RobotState>)
    ensures t == GoTo(Calibration) <==> s == Enabled || s == Ready
    ensures t == EventIgnored <==> s == Calibration
    ensures t == CannotHappen <==> s in {Idle, Homing, Operational, Error}
  {
    match s
    case Idle => CannotHappen
    case Enabled => GoTo(Calibration)
    case Calibration => EventIgnored
    case Homing => CannotHappen
    case Ready => GoTo(Calibration)
    case Operational => CannotHappen
    case Error => CannotHappen
  }

  function EnterHomingModeTable(s: RobotState): (t: Transition<RobotState>)
    ensures t == GoTo(Homing) <==> s == Enabled || s == Ready
    ensures t == EventIgnored <==> s == Homing
    ensures t == CannotHappen <==> s in {Idle, Calibration, Operational, Error}
    ensures t.GoTo? ==> t.target == Homing
  {
    match s
    case Idle => CannotHappen
    case Enabled => GoTo(Homing)
    case Calibration => CannotHappen
    case Homing => EventIgnored
    case Ready => GoTo(Homing)
    case Operational => CannotHappen
    case Error => CannotHappen
  }

  function EventSuccessTable(s: RobotState): (t: Transition<RobotState>)
    ensures t == CannotHappen <==> s == Enabled || s == Ready
    ensures t == GoTo(Ready) <==> s == Homing || s == Operational
    ensures t == GoTo(Enabled) <==> s == Idle || s == Calibration || s == Error
    ensures t != EventIgnored
  {
    match s
    case Idle => GoTo(Enabled)
    case Enabled => CannotHappen
    case Calibration => GoTo(Enabled)
    case Homing => GoTo(Ready)
    case Ready => CannotHappen
    case Operational => GoTo(Ready)
    case Error => GoTo(Enabled)
  }

  function EventFailureTable(s: RobotState): (t: Transition<RobotState>)
    ensures t == GoTo(Enabled) <==> s == Calibration || s == Homing
    ensures t == GoTo(Error) <==> s == Operational
    ensures t == EventIgnored <==> s == Error
    ensures t == CannotHappen <==> s == Idle || s == Enabled || s == Ready
  {
    match s
    case Idle => CannotHappen
    case Enabled => CannotHappen
    case Calibration => GoTo(Enabled)
    case Homing => GoTo(Enabled)
    case Ready => CannotHappen
    case Operational => GoTo(Error)
    case Error => EventIgnored
  }

  function StopTable(s: RobotState): (t: Transition<RobotState>)
    ensures t == GoTo(Ready) <==> s == Operational
    ensures t == GoTo(Enabled) <==> s in {Calibration, Homing, Ready, Error}
    ensures t == EventIgnored <==> s == Enabled
    ensures t == CannotHappen <==> s == Idle
  {
    match s
    case Idle => CannotHappen
    case Enabled => EventIgnored
    case Calibration => GoTo(Enabled)
    case Homing => GoTo(Enabled)
    case Ready => GoTo(Enabled)
    case Operational => GoTo(Ready)
    case Error => GoTo(Enabled)
  }

  /** The per-cycle map of `LoopFunction`: a self-transition in every state. */
  function LoopTable(s: RobotState): (t: Transition<RobotState>)
    ensures t == GoTo(s)
  {
    match s
    case Idle => GoTo(Idle)
    case Enabled => GoTo(Enabled)
    case Calibration => GoTo(Calibration)
    case Homing => GoTo(Homing)
    case Ready => GoTo(Ready)
    case Operational => GoTo(Operational)
    case Error => GoTo(Error)
  }

  /** Leaving calibration or homing: success, failure and stop all lead back to
      Enabled, except that a successful homing makes the robot Ready; no event of the
      supervisor's command surface leads from one mode straight into the other. */
  lemma ModeExits(s: RobotState)
    requires s == Calibration || s == Homing
    ensures EventFailureTable(s) == GoTo(Enabled) && StopTable(s) == GoTo(Enabled)
    ensures EventSuccessTable(s) == GoTo(if s == Homing then Ready else Enabled)
    ensures !EnterCalibrationModeTable(s).GoTo? && !EnterHomingModeTable(s).GoTo?
  {
  }

  //--------- Actuators -------------------------------------------------------------//

  datatype Actuator = Actuator(id: ID, active: bool, state: ActuatorState, status: ActuatorStatus)

  /** What the supervisor asks of one actuator. */
  datatype ActuatorCommand =
    | Enable(id: ID)
    | Disable(id: ID)
    | FaultReset(id: ID)
    | SetCableLength(id: ID, length: real)
    | SetMotorPos(id: ID, position: int32)
    | SetMotorSpeed(id: ID, speed: int32)
    | SetMotorTorque(id: ID, torque: int16)
    | UpdateHome(id: ID, cable_len: real, pulley_angle: real)

  /** Enable and disable requests share their bookkeeping. */
  datatype Request = EnableRequest | DisableRequest

  function RequestCommand(r: Request, id: ID): ActuatorCommand
  {
    match r
    case EnableRequest => Enable(id)
    case DisableRequest => Disable(id)
  }

  /** One control action computed by a controller for one motor (`ControlAction`). */
  datatype ControlAction = ControlAction(
    motor_id: ID,
    ctrl_mode: ControlMode,
    cable_length: real,
    motor_position: int32,
    motor_speed: int32,
    motor_torque: int16)

  /** The actuator at position `i` carries id `i`, as the constructor builds them. */
  ghost predicate IdsAreIndices(acts: seq<Actuator>)
  {
    forall i :: 0 <= i < |acts| ==> acts[i].id == i
  }

  ghost predicate StrictlyIncreasing(s: seq<ID>)
  {
    forall j, k :: 0 <= j < k < |s| ==> s[j] < s[k]
  }

  /** Appending an id above every element keeps a list strictly increasing. */
  lemma AppendIncreasing(s: seq<ID>, n: ID)
    requires StrictlyIncreasing(s) && forall k :: 0 <= k < |s| ==> s[k] < n
    ensures StrictlyIncreasing(s + [n])
  {
  }

  /** `GetActiveMotorsID`: ids of the active actuators, in configuration order. */
  function ActiveIds(acts: seq<Actuator>): (ids: seq<ID>)
    requires IdsAreIndices(acts)
    ensures forall k :: 0 <= k < |ids| ==> ids[k] < |acts| && acts[ids[k]].active
    ensures |ids| <= |acts|
  {
    if acts == [] then []
    else
      var n := |acts| - 1;
      var init := ActiveIds(acts[..n]);
      if acts[n].active then init + [n] else init
  }

  /** Ids of the active actuators that are in fault, in configuration order. */
  function FaultedActiveIds(acts: seq<Actuator>): (ids: seq<ID>)
    requires IdsAreIndices(acts)
    ensures forall k :: 0 <= k < |ids| ==> ids[k] < |acts| && acts[ids[k]].active && acts[ids[k]].state == ActFault
    ensures StrictlyIncreasing(ids)
  {
    if acts == [] then []
    else
      var n := |acts| - 1;
      var init := FaultedActiveIds(acts[..n]);
      if acts[n].active && acts[n].state == ActFault then AppendIncreasing(init, n); init + [n] else init
  }

  /** The ids of `ids` whose actuator is active, in the order given. */
  function ActiveAmong(acts: seq<Actuator>, ids: seq<ID>): (r: seq<ID>)
    requires forall k :: 0 <= k < |ids| ==> ids[k] < |acts|
    ensures forall id :: id in r <==> id in ids && acts[id].active
    ensures |r| <= |ids|
  {
    if ids == [] then []
    else
      var n := |ids| - 1;
      var init := ActiveAmong(acts, ids[..n]);
      if acts[ids[n]].active then init + [ids[n]] else init
  }

  /** `MotorsEnabled`: every active actuator is enabled (true when none is active). */
  function MotorsEnabled(acts: seq<Actuator>): (r: bool)
    ensures r <==> forall i :: 0 <= i < |acts| && acts[i].active ==> acts[i].state == ActEnabled
  {
    if acts == [] then true
    else (!acts[0].active || acts[0].state == ActEnabled) && MotorsEnabled(acts[1..])
  }

  /** `AnyMotorEnabled`: some active actuator is enabled. */
  function AnyMotorEnabled(acts: seq<Actuator>): (r: bool)
    ensures r <==> exists i :: 0 <= i < |acts| && acts[i].active && acts[i].state == ActEnabled
  {
    if acts == [] then false
    else (acts[0].active && acts[0].state == ActEnabled) || AnyMotorEnabled(acts[1..])
  }

  /** With at least one active actuator, all enabled implies some enabled. */
  lemma {:induction false} AllEnabledImpliesAny(acts: seq<Actuator>)
    requires IdsAreIndices(acts) && ActiveIds(acts) != []
    ensures MotorsEnabled(acts) ==> AnyMotorEnabled(acts)
  {
    var id := ActiveIds(acts)[0];
    assert id in ActiveIds(acts);
    assert acts[id].active;
  }

  /** The command one control action turns into, by its mode; `NoMode` gives none. */
  function ActionCommand(a: ControlAction): (cmds: seq<ActuatorCommand>)
    ensures |cmds| <= 1
    ensures cmds == [] <==> a.ctrl_mode == NoMode
  {
    match a.ctrl_mode
    case CableLength => [SetCableLength(a.motor_id, a.cable_length)]
    case MotorPosition => [SetMotorPos(a.motor_id, a.motor_position)]
    case MotorSpeed => [SetMotorSpeed(a.motor_id, a.motor_speed)]
    case MotorTorque => [SetMotorTorque(a.motor_id, a.motor_torque)]
    case NoMode => []
  }

  /** The commands `ControlStep` issues for `actions`: an action whose actuator is not
      enabled is skipped, the others are dispatched by mode. */
  function ControlCommands(acts: seq<Actuator>, actions: seq<ControlAction>): (cmds: seq<ActuatorCommand>)
    requires forall k :: 0 <= k < |actions| ==> actions[k].motor_id < |acts|
    ensures |cmds| <= |actions|
    ensures forall c :: c in cmds ==> c.id < |acts| && acts[c.id].state == ActEnabled
    ensures forall c :: c in cmds ==> exists k :: 0 <= k < |actions| && c in ActionCommand(actions[k])
  {
    if actions == [] then []
    else
      var n := |actions| - 1;
      var init := ControlCommands(acts, actions[..n]);
      var a := actions[n];
      if acts[a.motor_id].state != ActEnabled then init else init + ActionCommand(a)
  }

  /** The commands of one action: its `ActionCommand` when its actuator is enabled,
      none otherwise. */
  function StepCommand(acts: seq<Actuator>, a: ControlAction): seq<ActuatorCommand>
    requires a.motor_id < |acts|
  {
    if acts[a.motor_id].state == ActEnabled then ActionCommand(a) else []
  }

  /** Dispatching two lists one after the other issues the commands of the first,
      then those of the second. */
  lemma {:induction false} ControlCommandsAppend(acts: seq<Actuator>, a: seq<ControlAction>, b: seq<ControlAction>)
    requires forall k :: 0 <= k < |a| ==> a[k].motor_id < |acts|
    requires forall k :: 0 <= k < |b| ==> b[k].motor_id < |acts|
    ensures ControlCommands(acts, a + b) == ControlCommands(acts, a) + ControlCommands(acts, b)
    decreases |b|
  {
    if b == [] {
      assert a + b == a;
    } else {
      var n := |b| - 1;
      assert (a + b)[..|a + b| - 1] == a + b[..n];
      assert (a + b)[|a + b| - 1] == b[n];
      ControlCommandsAppend(acts, a, b[..n]);
    }
  }

  /** `ControlCommands` is an ordered filter: the commands of action `k` sit between
      those of the actions before it and those of the actions after it, and they are
      its `ActionCommand` exactly when its actuator is enabled. A non-enabled actuator
      skips only its own action. */
  lemma ControlCommandsSplit(acts: seq<Actuator>, actions: seq<ControlAction>, k: nat)
    requires forall j :: 0 <= j < |actions| ==> actions[j].motor_id < |acts|
    requires k < |actions|
    ensures ControlCommands(acts, actions)
            == ControlCommands(acts, actions[..k]) + StepCommand(acts, actions[k]) + ControlCommands(acts, actions[k + 1..])
  {
    var front, after := actions[..k + 1], actions[k + 1..];
    assert actions == front + after;
    ControlCommandsAppend(acts, front, after);
    ControlCommandsPrefixStep(acts, actions, k);
  }

  /** The prefix through action `k` adds the commands of action `k` to the prefix before it. */
  lemma ControlCommandsPrefixStep(acts: seq<Actuator>, actions: seq<ControlAction>, k: nat)
    requires forall j :: 0 <= j < |actions| ==> actions[j].motor_id < |acts|
    requires k < |actions|
    ensures ControlCommands(acts, actions[..k + 1]) == ControlCommands(acts, actions[..k]) + StepCommand(acts, actions[k])
  {
    assert actions[..k + 1][..k] == actions[..k];
  }

  /** An action on an enabled actuator contributes its command, whatever the other
      actions' actuators are doing. */
  lemma ControlCommandsComplete(acts: seq<Actuator>, actions: seq<ControlAction>, k: nat)
    requires forall j :: 0 <= j < |actions| ==> actions[j].motor_id < |acts|
    requires k < |actions| && acts[actions[k].motor_id].state == ActEnabled
    ensures forall c :: c in ActionCommand(actions[k]) ==> c in ControlCommands(acts, actions)
  {
    ControlCommandsSplit(acts, actions, k);
  }

  /** A list of actions whose actuators are all enabled is dispatched in full and in
      order: command `k` is the one of action `k`. */
  lemma {:induction false} ControlCommandsAllEnabled(acts: seq<Actuator>, actions: seq<ControlAction>)
    requires forall k :: 0 <= k < |actions| ==> actions[k].motor_id < |acts|
    requires forall k :: 0 <= k < |actions| ==> acts[actions[k].motor_id].state == ActEnabled
    requires forall k :: 0 <= k < |actions| ==> actions[k].ctrl_mode != NoMode
    ensures |ControlCommands(acts, actions)| == |actions|
    ensures forall k :: 0 <= k < |actions| ==> [ControlCommands(acts, actions)[k]] == ActionCommand(actions[k])
  {
    if actions != [] {
      var n := |actions| - 1;
      ControlCommandsAllEnabled(acts, actions[..n]);
      var a := actions[n];
      assert |ActionCommand(a)| == 1;
      var c := ControlCommands(acts, actions);
      assert c == ControlCommands(acts, actions[..n]) + ActionCommand(a);
      forall k | 0 <= k < |actions|
        ensures [c[k]] == ActionCommand(actions[k])
      {
        if k < n {
          assert actions[..n][k] == actions[k];
        }
      }
    }
  }

  //--------- The supervisor --------------------------------------------------------//

  class CableRobot {
    var state: RobotState
    var prev_state_: RobotState
    var actuators_: seq<Actuator>
    /** `motors_waiting4ack_`, as the set of ids whose bit is on. */
    var motors_waiting4ack_: set<ID>
    var meas_: seq<ActuatorStatus>
    var controller_: Controller.ControllerBase?

    ghost predicate Valid()
      reads this`actuators_, this`meas_, this`motors_waiting4ack_, this`state, this`prev_state_
    {
      && IdsAreIndices(actuators_)
      && |meas_| == |ActiveIds(actuators_)|
      && (forall id :: id in motors_waiting4ack_ ==> id < |actuators_| && actuators_[id].active)
      && prev_state_ == state
    }

    /** Builds one idle actuator per configuration entry; `active[i]` is the
        configuration's active flag of actuator `i`. */
    constructor (active: seq<bool>)
      ensures Valid() && state == Idle && |actuators_| == |active|
      ensures forall i :: 0 <= i < |active| ==> actuators_[i].active == active[i] && actuators_[i].state == ActIdle
      ensures motors_waiting4ack_ == {}
    {
      state, prev_state_ := Idle, Idle;
      actuators_ := seq(|active|, i requires 0 <= i < |active| => Actuator(i, active[i], ActIdle, DefaultStatus));
      motors_waiting4ack_ := {};
      // The constructor does not set the controller; its initial value is not modelled.
      controller_ := *;
      new;
      meas_ := seq(|ActiveIds(actuators_)|, _ => DefaultStatus);
    }

    //--------- Enable / disable requests ---------------------------------------------//

    /** `EnableMotor(id)` / `DisableMotor(id)`: acts only on an active actuator. */
    method RequestMotor(r: Request, id: ID) returns (cmds: seq<ActuatorCommand>)
      requires Valid() && id < |actuators_|
      modifies this`motors_waiting4ack_
      ensures Valid()
      ensures actuators_[id].active ==> cmds == [RequestCommand(r, id)] && motors_waiting4ack_ == old(motors_waiting4ack_) + {id}
      ensures !actuators_[id].active ==> cmds == [] && motors_waiting4ack_ == old(motors_waiting4ack_)
    {
      cmds := [];
      if actuators_[id].active {
        cmds := [RequestCommand(r, id)];
        motors_waiting4ack_ := motors_waiting4ack_ + {id};
      }
    }

    /** The loop of `EnableMotors()` / `DisableMotors()` over the actuators: one
        request per active actuator, in order, and its acknowledgement bit set. */
    static method RequestLoop(r: Request, acts: seq<Actuator>, waiting0: set<ID>) returns (cmds: seq<ActuatorCommand>, waiting: set<ID>)
      requires IdsAreIndices(acts)
      ensures |cmds| == |ActiveIds(acts)|
      ensures forall k :: 0 <= k < |cmds| ==> cmds[k] == RequestCommand(r, ActiveIds(acts)[k])
      ensures forall id: ID :: id in waiting <==> id in waiting0 || (id < |acts| && acts[id].active)
    {
      cmds, waiting := [], waiting0;
      var i := 0;
      while i < |acts|
        invariant 0 <= i <= |acts|
        invariant |cmds| == |ActiveIds(acts[..i])|
        invariant forall k :: 0 <= k < |cmds| ==> cmds[k] == RequestCommand(r, ActiveIds(acts[..i])[k])
        invariant forall id: ID :: id in waiting <==> id in waiting0 || (id < i && acts[id].active)
      {
        ActiveIdsStep(acts, i);
        if acts[i].active {
          cmds := cmds + [RequestCommand(r, i)];
          waiting := waiting + {i};
        }
        i := i + 1;
      }
      assert acts[..i] == acts;
    }

    /** `EnableMotors()` / `DisableMotors()`: every active actuator, in order, and
        its acknowledgement bit set. */
    method RequestMotors(r: Request) returns (cmds: seq<ActuatorCommand>)
      requires Valid()
      modifies this`motors_waiting4ack_
      ensures Valid()
      ensures |cmds| == |ActiveIds(actuators_)|
      ensures forall k :: 0 <= k < |cmds| ==> cmds[k] == RequestCommand(r, ActiveIds(actuators_)[k])
      ensures forall id: ID :: id in motors_waiting4ack_ <==> id in old(motors_waiting4ack_) || (id < |actuators_| && actuators_[id].active)
    {
      cmds, motors_waiting4ack_ := RequestLoop(r, actuators_, motors_waiting4ack_);
    }

    /** The loop of `EnableMotors(ids)` / `DisableMotors(ids)`: one request per active
        actuator among `ids`, in the order of `ids`. */
    static method RequestListLoop(r: Request, acts: seq<Actuator>, ids: seq<ID>, waiting0: set<ID>) returns (cmds: seq<ActuatorCommand>, waiting: set<ID>)
      requires forall k :: 0 <= k < |ids| ==> ids[k] < |acts|
      ensures |cmds| == |ActiveAmong(acts, ids)|
      ensures forall k :: 0 <= k < |cmds| ==> cmds[k] == RequestCommand(r, ActiveAmong(acts, ids)[k])
      ensures forall id: ID :: id in waiting <==> id in waiting0 || (id in ids && acts[id].active)
    {
      cmds, waiting := [], waiting0;
      var i := 0;
      while i < |ids|
        invariant 0 <= i <= |ids|
        invariant |cmds| == |ActiveAmong(acts, ids[..i])|
        invariant forall k :: 0 <= k < |cmds| ==> cmds[k] == RequestCommand(r, ActiveAmong(acts, ids[..i])[k])
        invariant forall id: ID :: id in waiting <==> id in waiting0 || (id in ids[..i] && acts[id].active)
      {
        assert ids[..i + 1][..i] == ids[..i];
        if acts[ids[i]].active {
          cmds := cmds + [RequestCommand(r, ids[i])];
          waiting := waiting + {ids[i]};
        }
        i := i + 1;
      }
      assert ids[..i] == ids;
    }

    /** `EnableMotors(ids)` / `DisableMotors(ids)`: the active ones among `ids`. */
    method RequestMotorsList(r: Request, ids: seq<ID>) returns (cmds: seq<ActuatorCommand>)
      requires Valid() && forall k :: 0 <= k < |ids| ==> ids[k] < |actuators_|
      modifies this`motors_waiting4ack_
      ensures Valid()
      ensures |cmds| == |ActiveAmong(actuators_, ids)|
      ensures forall k :: 0 <= k < |cmds| ==> cmds[k] == RequestCommand(r, ActiveAmong(actuators_, ids)[k])
      ensures forall id: ID :: id in motors_waiting4ack_ <==> id in old(motors_waiting4ack_) || (id in ids && actuators_[id].active)
    {
      cmds, motors_waiting4ack_ := RequestListLoop(r, actuators_, ids, motors_waiting4ack_);
    }

    method EnableMotor(id: ID) returns (cmds: seq<ActuatorCommand>)
      requires Valid() && id < |actuators_|
      modifies this`motors_waiting4ack_
      ensures Valid()
      ensures actuators_[id].active ==> cmds == [Enable(id)] && motors_waiting4ack_ == old(motors_waiting4ack_) + {id}
      ensures !actuators_[id].active ==> cmds == [] && motors_waiting4ack_ == old(motors_waiting4ack_)
    {
      cmds := RequestMotor(EnableRequest, id);
    }

    method DisableMotor(id: ID) returns (cmds: seq<ActuatorCommand>)
      requires Valid() && id < |actuators_|
      modifies this`motors_waiting4ack_
      ensures Valid()
      ensures actuators_[id].active ==> cmds == [Disable(id)] && motors_waiting4ack_ == old(motors_waiting4ack_) + {id}
      ensures !actuators_[id].active ==> cmds == [] && motors_waiting4ack_ == old(motors_waiting4ack_)
    {
      cmds := RequestMotor(DisableRequest, id);
    }

    method EnableMotors() returns (cmds: seq<ActuatorCommand>)
      requires Valid()
      modifies this`motors_waiting4ack_
      ensures Valid()
      ensures |cmds| == |ActiveIds(actuators_)|
      ensures forall k :: 0 <= k < |cmds| ==> cmds[k] == RequestCommand(EnableRequest, ActiveIds(actuators_)[k])
      ensures forall id: ID :: id in motors_waiting4ack_ <==> id in old(motors_waiting4ack_) || (id < |actuators_| && actuators_[id].active)
    {
      cmds := RequestMotors(EnableRequest);
    }

    method DisableMotors() returns (cmds: seq<ActuatorCommand>)
      requires Valid()
      modifies this`motors_waiting4ack_
      ensures Valid()
      ensures |cmds| == |ActiveIds(actuators_)|
      ensures forall k :: 0 <= k < |cmds| ==> cmds[k] == RequestCommand(DisableRequest, ActiveIds(actuators_)[k])
      ensures forall id: ID :: id in motors_waiting4ack_ <==> id in old(motors_waiting4ack_) || (id < |actuators_| && actuators_[id].active)
    {
      cmds := RequestMotors(DisableRequest);
    }

    method EnableMotorsList(ids: seq<ID>) returns (cmds: seq<ActuatorCommand>)
      requires Valid() && forall k :: 0 <= k < |ids| ==> ids[k] < |actuators_|
      modifies this`motors_waiting4ack_
      ensures Valid()
      ensures |cmds| == |ActiveAmong(actuators_, ids)|
      ensures forall k :: 0 <= k < |cmds| ==> cmds[k] == RequestCommand(EnableRequest, ActiveAmong(actuators_, ids)[k])
      ensures forall id: ID :: id in motors_waiting4ack_ <==> id in old(motors_waiting4ack_) || (id in ids && actuators_[id].active)
    {
      cmds := RequestMotorsList(EnableRequest, ids);
    }

    method DisableMotorsList(ids: seq<ID>) returns (cmds: seq<ActuatorCommand>)
      requires Valid() && forall k :: 0 <= k < |ids| ==> ids[k] < |actuators_|
      modifies this`motors_waiting4ack_
      ensures Valid()
      ensures |cmds| == |ActiveAmong(actuators_, ids)|
      ensures forall k :: 0 <= k < |cmds| ==> cmds[k] == RequestCommand(DisableRequest, ActiveAmong(actuators_, ids)[k])
      ensures forall id: ID :: id in motors_waiting4ack_ <==> id in old(motors_waiting4ack_) || (id in ids && actuators_[id].active)
    {
      cmds := RequestMotorsList(DisableRequest, ids);
    }

    /** `handleActuatorStateChanged`: clears the acknowledgement bit of `id`;
        `satisfied` tells whether `requestSatisfied` is emitted (no bit left on). */
    method HandleActuatorStateChanged(id: ID, new_state: ActuatorState) returns (satisfied: bool)
      requires Valid()
      modifies this`motors_waiting4ack_
      ensures Valid()
      ensures motors_waiting4ack_ == old(motors_waiting4ack_) - {id}
      ensures satisfied <==> motors_waiting4ack_ == {}
    {
      motors_waiting4ack_ := motors_waiting4ack_ - {id};
      satisfied := motors_waiting4ack_ == {};
    }

    /** The actuator `id` has entered `new_state` and emitted `stateChanged`, which is
        connected to the supervisor only for active actuators. */
    method ActuatorStateChanged(id: ID, new_state: ActuatorState) returns (satisfied: bool)
      requires Valid() && id < |actuators_|
      modifies this`actuators_, this`motors_waiting4ack_
      ensures Valid()
      ensures actuators_ == old(actuators_)[id := old(actuators_)[id].(state := new_state)]
      ensures actuators_[id].active ==> motors_waiting4ack_ == old(motors_waiting4ack_) - {id}
      ensures !actuators_[id].active ==> motors_waiting4ack_ == old(motors_waiting4ack_) && !satisfied
      ensures actuators_[id].active ==> (satisfied <==> motors_waiting4ack_ == {})
    {
      ghost var before := actuators_;
      actuators_ := actuators_[id := actuators_[id].(state := new_state)];
      ActiveIdsIgnoreState(before, actuators_);
      satisfied := false;
      if actuators_[id].active {
        satisfied := HandleActuatorStateChanged(id, new_state);
      }
    }

    //--------- Queries and bookkeeping -----------------------------------------------//

    /** `ClearFaults`: a fault reset for every active actuator in fault, in order. */
    method ClearFaults() returns (cmds: seq<ActuatorCommand>)
      requires Valid()
      ensures |cmds| == |FaultedActiveIds(actuators_)|
      ensures forall k :: 0 <= k < |cmds| ==> cmds[k] == FaultReset(FaultedActiveIds(actuators_)[k])
    {
      var acts := actuators_;
      cmds := [];
      var i := 0;
      while i < |acts|
        invariant 0 <= i <= |acts|
        invariant |cmds| == |FaultedActiveIds(acts[..i])|
        invariant forall k :: 0 <= k < |cmds| ==> cmds[k] == FaultReset(FaultedActiveIds(acts[..i])[k])
      {
        assert acts[..i + 1][..i] == acts[..i];
        if acts[i].active && acts[i].state == ActFault {
          cmds := cmds + [FaultReset(i)];
        }
        i := i + 1;
      }
      assert acts[..i] == acts;
    }

    /** `CollectMeas`: `meas_[k]` is the status of the k-th active actuator. */
    method CollectMeas()
      requires Valid()
      modifies this`meas_
      ensures Valid()
      ensures |meas_| == |ActiveIds(actuators_)|
      ensures forall k :: 0 <= k < |meas_| ==> meas_[k] == actuators_[ActiveIds(actuators_)[k]].status
    {
      var acts := actuators_;
      var all := ActiveIds(acts);
      var i, j := 0, 0;
      while i < |acts|
        invariant 0 <= i <= |acts| && |meas_| == |all|
        invariant j == |ActiveIds(acts[..i])| && ActiveIds(acts[..i]) <= all
        invariant forall k :: 0 <= k < j ==> meas_[k] == acts[all[k]].status
      {
        ActiveIdsStep(acts, i);
        ActiveIdsPrefix(acts, i + 1);
        if acts[i].active {
          assert all[j] == i;
          meas_ := meas_[j := acts[i].status];
          j := j + 1;
        }
        i := i + 1;
      }
      assert acts[..i] == acts;
    }

    /** `UpdateHomeConfig(cable_len, pulley_angle)`: the same home configuration for
        every active actuator. */
    method UpdateHomeConfigAll(cable_len: real, pulley_angle: real) returns (cmds: seq<ActuatorCommand>)
      requires Valid()
      ensures |cmds| == |ActiveIds(actuators_)|
      ensures forall k :: 0 <= k < |cmds| ==> cmds[k] == UpdateHome(ActiveIds(actuators_)[k], cable_len, pulley_angle)
    {
      var ids := ActiveIds(actuators_);
      cmds := [];
      var k := 0;
      while k < |ids|
        invariant 0 <= k <= |ids| && |cmds| == k
        invariant forall m :: 0 <= m < k ==> cmds[m] == UpdateHome(ids[m], cable_len, pulley_angle)
      {
        cmds := cmds + [UpdateHome(ids[k], cable_len, pulley_angle)];
        k := k + 1;
      }
    }

    /** `UpdateHomeConfig(motor_id, cable_len, pulley_angle)`: that actuator only. */
    method UpdateHomeConfig(motor_id: ID, cable_len: real, pulley_angle: real) returns (cmds: seq<ActuatorCommand>)
      requires Valid() && motor_id < |actuators_|
      ensures cmds == [UpdateHome(motor_id, cable_len, pulley_angle)]
    {
      cmds := [UpdateHome(motor_id, cable_len, pulley_angle)];
    }

    /** `GoHome`: refuses (false) unless every active motor is enabled; the motion
        itself, under a temporary controller that is then restored, is not modelled. */
    method GoHome() returns (ok: bool)
      requires Valid()
      ensures ok <==> forall i :: 0 <= i < |actuators_| && actuators_[i].active ==> actuators_[i].state == ActEnabled
    {
      if !MotorsEnabled(actuators_) {
        return false;
      }
      return true;
    }

    method SetController(controller: Controller.ControllerBase?)
      requires Valid()
      modifies this`controller_
      ensures Valid() && controller_ == controller
    {
      controller_ := controller;
    }

    //--------- Control step, loop and events -----------------------------------------//

    /** `ControlStep`: dispatches the installed controller's `actions`; an action for an
        actuator that is not enabled issues nothing. */
    method ControlStep(actions: seq<ControlAction>) returns (cmds: seq<ActuatorCommand>)
      requires Valid() && forall k :: 0 <= k < |actions| ==> actions[k].motor_id < |actuators_|
      ensures cmds == ControlCommands(actuators_, actions)
      ensures forall c :: c in cmds ==> actuators_[c.id].state == ActEnabled
    {
      cmds := [];
      var k := 0;
      while k < |actions|
        invariant 0 <= k <= |actions|
        invariant cmds == ControlCommands(actuators_, actions[..k])
      {
        assert actions[..k + 1][..k] == actions[..k];
        var a := actions[k];
        if actuators_[a.motor_id].state == ActEnabled {
          cmds := cmds + ActionCommand(a);
        }
        k := k + 1;
      }
      assert actions[..k] == actions;
    }

    /** The state action of the current state: Enabled and Homing run a control step
        when a controller is installed. */
    method RunStateAction(actions: seq<ControlAction>) returns (cmds: seq<ActuatorCommand>)
      requires forall k :: 0 <= k < |actions| ==> actions[k].motor_id < |actuators_|
      requires IdsAreIndices(actuators_) && |meas_| == |ActiveIds(actuators_)|
      requires forall id :: id in motors_waiting4ack_ ==> id < |actuators_| && actuators_[id].active
      modifies this`prev_state_
      ensures Valid()
      ensures (state == Enabled || state == Homing) && controller_ != null ==> cmds == ControlCommands(actuators_, actions)
      ensures !((state == Enabled || state == Homing) && controller_ != null) ==> cmds == []
    {
      prev_state_ := state;
      cmds := [];
      if (state == Enabled || state == Homing) && controller_ != null {
        cmds := ControlStep(actions);
      }
    }

    /** Applies one transition-map entry: `CannotHappen` halts the transition and
        `EventIgnored` drops the event, both leaving the state unchanged. */
    method Apply(t: Transition<RobotState>, actions: seq<ControlAction>) returns (cmds: seq<ActuatorCommand>)
      requires Valid() && forall k :: 0 <= k < |actions| ==> actions[k].motor_id < |actuators_|
      modifies this`state, this`prev_state_
      ensures Valid()
      ensures state == if t.GoTo? then t.target else old(state)
      ensures !t.GoTo? ==> cmds == []
      ensures t.GoTo? && (state == Enabled || state == Homing) && controller_ != null ==> cmds == ControlCommands(actuators_, actions)
      ensures !(t.GoTo? && (state == Enabled || state == Homing) && controller_ != null) ==> cmds == []
    {
      cmds := [];
      if t.GoTo? {
        state := t.target;
        cmds := RunStateAction(actions);
      }
    }

    /** One real-time cycle (fieldbus input/output excluded): the state never changes. */
    method LoopFunction(actions: seq<ControlAction>) returns (cmds: seq<ActuatorCommand>)
      requires Valid() && forall k :: 0 <= k < |actions| ==> actions[k].motor_id < |actuators_|
      modifies this`state, this`prev_state_
      ensures Valid() && state == old(state)
      ensures (state == Enabled || state == Homing) && controller_ != null ==> cmds == ControlCommands(actuators_, actions)
      ensures !((state == Enabled || state == Homing) && controller_ != null) ==> cmds == []
    {
      cmds := Apply(LoopTable(state), actions);
    }

    method EnterCalibrationMode()
      requires Valid()
      modifies this`state, this`prev_state_
      ensures Valid() && state == (if EnterCalibrationModeTable(old(state)).GoTo? then Calibration else old(state))
    {
      var _ := Apply(EnterCalibrationModeTable(state), []);
    }

    method EnterHomingMode(actions: seq<ControlAction>) returns (cmds: seq<ActuatorCommand>)
      requires Valid() && forall k :: 0 <= k < |actions| ==> actions[k].motor_id < |actuators_|
      modifies this`state, this`prev_state_
      ensures Valid() && state == (if EnterHomingModeTable(old(state)).GoTo? then Homing else old(state))
      ensures state == Homing && old(state) != Homing && controller_ != null ==> cmds == ControlCommands(actuators_, actions)
      ensures !(state == Homing && old(state) != Homing && controller_ != null) ==> cmds == []
    {
      cmds := Apply(EnterHomingModeTable(state), actions);
    }

    method EventSuccess(actions: seq<ControlAction>) returns (cmds: seq<ActuatorCommand>)
      requires Valid() && forall k :: 0 <= k < |actions| ==> actions[k].motor_id < |actuators_|
      modifies this`state, this`prev_state_
      ensures Valid()
      ensures state == (var t := EventSuccessTable(old(state)); if t.GoTo? then t.target else old(state))
      ensures EventSuccessTable(old(state)).GoTo? && (state == Enabled || state == Homing) && controller_ != null ==>
                cmds == ControlCommands(actuators_, actions)
      ensures !(EventSuccessTable(old(state)).GoTo? && (state == Enabled || state == Homing) && controller_ != null) ==> cmds == []
    {
      cmds := Apply(EventSuccessTable(state), actions);
    }

    method EventFailure(actions: seq<ControlAction>) returns (cmds: seq<ActuatorCommand>)
      requires Valid() && forall k :: 0 <= k < |actions| ==> actions[k].motor_id < |actuators_|
      modifies this`state, this`prev_state_
      ensures Valid()
      ensures state == (var t := EventFailureTable(old(state)); if t.GoTo? then t.target else old(state))
      ensures EventFailureTable(old(state)).GoTo? && (state == Enabled || state == Homing) && controller_ != null ==>
                cmds == ControlCommands(actuators_, actions)
      ensures !(EventFailureTable(old(state)).GoTo? && (state == Enabled || state == Homing) && controller_ != null) ==> cmds == []
    {
      cmds := Apply(EventFailureTable(state), actions);
    }

    method Stop(actions: seq<ControlAction>) returns (cmds: seq<ActuatorCommand>)
      requires Valid() && forall k :: 0 <= k < |actions| ==> actions[k].motor_id < |actuators_|
      modifies this`state, this`prev_state_
      ensures Valid()
      ensures state == (var t := StopTable(old(state)); if t.GoTo? then t.target else old(state))
      ensures StopTable(old(state)).GoTo? && (state == Enabled || state == Homing) && controller_ != null ==>
                cmds == ControlCommands(actuators_, actions)
      ensures !(StopTable(old(state)).GoTo? && (state == Enabled || state == Homing) && controller_ != null) ==> cmds == []
    {
      cmds := Apply(StopTable(state), actions);
    }
  }

  /** Changing actuator states leaves the active list alone. */
  lemma {:induction false} ActiveIdsIgnoreState(a: seq<Actuator>, b: seq<Actuator>)
    requires IdsAreIndices(a) && IdsAreIndices(b) && |a| == |b|
    requires forall i :: 0 <= i < |a| ==> a[i].active == b[i].active
    ensures ActiveIds(a) == ActiveIds(b)
  {
    if a != [] {
      var n := |a| - 1;
      ActiveIdsIgnoreState(a[..n], b[..n]);
    }
  }

  /** `GetActiveMotorsID` lists the ids in increasing order, each once. */
  lemma {:induction false} ActiveIdsIncreasing(acts: seq<Actuator>)
    requires IdsAreIndices(acts)
    ensures StrictlyIncreasing(ActiveIds(acts))
  {
    if acts != [] {
      var n := |acts| - 1;
      ActiveIdsIncreasing(acts[..n]);
      if acts[n].active {
        AppendIncreasing(ActiveIds(acts[..n]), n);
      }
    }
  }

  /** Every active actuator is listed by `ActiveIds`. */
  lemma {:induction false} ActiveIdsComplete(acts: seq<Actuator>, id: ID)
    requires IdsAreIndices(acts) && id < |acts| && acts[id].active
    ensures id in ActiveIds(acts)
  {
    var n := |acts| - 1;
    if id < n {
      ActiveIdsComplete(acts[..n], id);
    }
  }

  /** Every active actuator in fault is listed by `FaultedActiveIds`. */
  lemma {:induction false} FaultedActiveIdsComplete(acts: seq<Actuator>, id: ID)
    requires IdsAreIndices(acts) && id < |acts| && acts[id].active && acts[id].state == ActFault
    ensures id in FaultedActiveIds(acts)
  {
    var n := |acts| - 1;
    if id < n {
      FaultedActiveIdsComplete(acts[..n], id);
    }
  }

  /** `ActiveIds` of a prefix one longer. */
  lemma ActiveIdsStep(acts: seq<Actuator>, i: nat)
    requires IdsAreIndices(acts) && i < |acts|
    ensures ActiveIds(acts[..i + 1]) == if acts[i].active then ActiveIds(acts[..i]) + [i] else ActiveIds(acts[..i])
  {
    assert acts[..i + 1][..i] == acts[..i];
  }

  /** The active ids of a prefix of the actuators are a prefix of the active ids. */
  lemma {:induction false} ActiveIdsPrefix(acts: seq<Actuator>, i: nat)
    requires IdsAreIndices(acts) && i <= |acts|
    ensures ActiveIds(acts[..i]) <= ActiveIds(acts)
    decreases |acts| - i
  {
    if i == |acts| {
      assert acts[..i] == acts;
    } else {
      var a, b, c := ActiveIds(acts[..i]), ActiveIds(acts[..i + 1]), ActiveIds(acts);
      ActiveIdsStep(acts, i);
      assert a <= b;
      ActiveIdsPrefix(acts, i + 1);
      assert c[..|a|] == c[..|b|][..|a|];
    }
  }
}
