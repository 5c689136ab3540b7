/** The proprioceptive homing procedure (src/homing/homing_proprioceptive.cpp).

    The event-driven state-machine library it is built on is not part of this model;
    its engine is modelled as follows. An external event looks up the transition map of
    the current state: `EventIgnored` drops the event, `CannotHappen` halts the
    transition (the state is left unchanged) and `GoTo(s)` runs the guard of `s`, if
    any; when the guard passes, the entry action of `s` runs only if `s` differs from
    the current state, then `s` becomes the current state and its state action runs.
    An internal event raised by an action or a guard is handled right after it, which is
    modelled as a call of the method `Go<s>` of the target state.

    Every blocking wait of the robot, the guards' timeouts and the robot's readings are
    nondeterministic outcomes; the commands the procedure sends to the robot are left out,
    except the new home configuration, which is returned. */
module Homing {
  import opened RobotTypes
  import opened StateMachine
  import opened HomingStates
  import opened HomingTables
  import opened HomingRamp
  import Seqs
  import Controller
  import Robot

  /** What the external optimisation returns: a failure, or one (angle, length) row per
      cable. */
  datatype OptimizationResult = EngineFailure | Results(rows: seq<(real, real)>)

  /** `std::vector::resize`: the first elements are kept, new ones are `fill`. */
  function Resized<T>(s: seq<T>, n: nat, fill: T): (r: seq<T>)
    ensures |r| == n
    ensures forall k :: 0 <= k < n ==> r[k] == if k < |s| then s[k] else fill
  {
    if n <= |s| then s[..n] else s + seq(n - |s|, _ => fill)
  }

  class HomingProprioceptive {
    var state: State
    var prev_state_: State

    var num_meas_: nat
    var num_tot_meas_: nat
    var working_actuator_idx_: nat
    var meas_step_: nat
    var init_torques_: seq<int16>
    var max_torques_: seq<int16>
    var torques_: seq<int16>
    var reg_pos_: seq<int32>

    var stop_cmd_recv_: bool
    var disable_cmd_recv_: bool

    const active_actuators_id_: seq<ID>
    var actuators_status_: seq<ActuatorStatus>

    /** The single-drive controller the procedure installs; its id/mode table is a
        `ControllerBase`, while the two set points it is given are kept here. */
    const controller_: Controller.ControllerBase
    var torque_target_: int16
    var pos_target_: int32

    /** The positions recorded while coiling the current cable, in recording order. */
    ghost var coiled: seq<int32>
    /** The positions commanded and measured while uncoiling it, in replay order. */
    ghost var replayed: seq<int32>
    /** Measurements dumped since the start-up phase. */
    ghost var total_meas: nat

    /** Number of active actuators (N). */
    function NumActuators(): nat
    {
      |active_actuators_id_|
    }

    /** Per-cable measurement count 2M - 1 of the current run. */
    function PerCable(): int
      reads this`num_meas_
    {
      MeasPerCable(num_meas_)
    }

    //--------- Invariants ------------------------------------------------------------//

    /** What holds in every state. A stored status is never in fault: a fault report
        fires `FaultTrigger` instead of being stored. */
    ghost predicate BaseValid()
      reads this`state, this`prev_state_, this`num_meas_, this`actuators_status_
    {
      && prev_state_ == state
      && NumActuators() <= 0x100
      && num_meas_ < 0x100
      && |actuators_status_| == NumActuators()
      && (forall k :: 0 <= k < |actuators_status_| ==> actuators_status_[k].state != ActFault)
    }

    /** The buffers and the total count of a run, fixed by the start-up phase. */
    ghost predicate RunValid()
      reads this`num_meas_, this`num_tot_meas_, this`torques_, this`reg_pos_
    {
      && |torques_| == num_meas_ && |reg_pos_| == num_meas_
      && num_tot_meas_ == TotalMeasCount(num_meas_, NumActuators())
    }

    /** What switching to a cable needs: at least two set points (the ramp divides by
        M - 1), at least one actuator and a torque pair for each. */
    ghost predicate CanSwitchCable()
      reads this`num_meas_, this`init_torques_, this`max_torques_
    {
      num_meas_ >= 2 && NumActuators() >= 1 && |init_torques_| >= NumActuators() && |max_torques_| >= NumActuators()
    }

    /** The torque ramp of the working cable is in `torques_`. */
    ghost predicate RampLoaded()
      reads this`num_meas_, this`init_torques_, this`max_torques_, this`working_actuator_idx_, this`torques_
    {
      && CanSwitchCable() && working_actuator_idx_ < NumActuators()
      && torques_ == TorqueRamp(init_torques_[working_actuator_idx_], max_torques_[working_actuator_idx_], num_meas_)
    }

    /** The positions recorded so far are the first entries of `reg_pos_`. */
    ghost predicate Recorded()
      reads this`coiled, this`reg_pos_
    {
      |coiled| <= |reg_pos_| && forall k :: 0 <= k < |coiled| ==> reg_pos_[k] == coiled[k]
    }

    /** Uncoiling replays the coiled positions backwards from the last but one. */
    ghost predicate ReplayedBackwards()
      reads this`coiled, this`replayed
    {
      |replayed| <= |coiled| - 1 && forall j :: 0 <= j < |replayed| ==> replayed[j] == coiled[|coiled| - 2 - j]
    }

    /** StartUp: a new run, nothing measured yet. */
    ghost predicate StartUpValid()
      reads this`num_meas_, this`num_tot_meas_, this`init_torques_, this`max_torques_, this`torques_, this`reg_pos_,
               this`working_actuator_idx_, this`meas_step_, this`coiled, this`replayed, this`total_meas
    {
      RunValid() && working_actuator_idx_ == 0 && total_meas == 0
    }

    /** SwitchCable: the ramp of the working cable is loaded and nothing is measured yet
        for it; 2M - 1 measurements were taken for each earlier cable. */
    ghost predicate SwitchCableValid()
      reads this`num_meas_, this`num_tot_meas_, this`init_torques_, this`max_torques_, this`torques_, this`reg_pos_,
               this`working_actuator_idx_, this`meas_step_, this`coiled, this`replayed, this`total_meas
    {
      && RunValid() && RampLoaded()
      && meas_step_ == 0 && coiled == [] && replayed == []
      && total_meas == PerCable() * working_actuator_idx_
    }

    /** Coiling: `meas_step_` counts the set points measured so far for this cable. */
    ghost predicate CoilingValid()
      reads this`num_meas_, this`num_tot_meas_, this`init_torques_, this`max_torques_, this`torques_, this`reg_pos_,
               this`working_actuator_idx_, this`meas_step_, this`coiled, this`replayed, this`total_meas
    {
      && RunValid() && RampLoaded()
      && 1 <= meas_step_ <= num_meas_
      && |coiled| == meas_step_ && Recorded() && replayed == []
      && total_meas == PerCable() * working_actuator_idx_ + meas_step_
    }

    /** Uncoiling: M positions were recorded and `meas_step_ - M - 1` of them replayed.
        Once every cable is done the step counter rests at 2M. */
    ghost predicate UncoilingValid()
      reads this`num_meas_, this`num_tot_meas_, this`init_torques_, this`max_torques_, this`torques_, this`reg_pos_,
               this`working_actuator_idx_, this`meas_step_, this`coiled, this`replayed, this`total_meas
    {
      && RunValid() && CanSwitchCable()
      && num_meas_ + 1 <= meas_step_ <= 2 * num_meas_
      && |coiled| == num_meas_ && Recorded()
      && |replayed| == meas_step_ - num_meas_ - 1 && ReplayedBackwards()
      && (working_actuator_idx_ < NumActuators() ==>
            total_meas == PerCable() * working_actuator_idx_ + meas_step_ - 1)
      && (working_actuator_idx_ >= NumActuators() ==>
            meas_step_ == 2 * num_meas_ && total_meas == PerCable() * NumActuators())
    }

    /** The invariant of the acquisition state the procedure is in. */
    ghost predicate StateValid()
      reads this`state, this`num_meas_, this`num_tot_meas_, this`init_torques_, this`max_torques_, this`torques_, this`reg_pos_,
               this`working_actuator_idx_, this`meas_step_, this`coiled, this`replayed, this`total_meas
    {
      match state
      case StartUp => StartUpValid()
      case SwitchCable => SwitchCableValid()
      case Coiling => CoilingValid()
      case Uncoiling => UncoilingValid()
      case _ => true
    }

    ghost predicate Valid()
      reads this`state, this`prev_state_, this`num_meas_, this`actuators_status_, controller_
      reads this`num_tot_meas_, this`init_torques_, this`max_torques_, this`torques_, this`reg_pos_
      reads this`working_actuator_idx_, this`meas_step_, this`coiled, this`replayed, this`total_meas
    {
      BaseValid() && controller_.Valid() && StateValid()
    }

    /** What `GoSwitchCable` needs: coming from the start-up phase, or from the end of
        the uncoiling of a cable with the cable counter already advanced. */
    ghost predicate SwitchCablePre()
      reads this, controller_
    {
      && BaseValid() && controller_.Valid() && RunValid() && CanSwitchCable()
      && ((state == StartUp && working_actuator_idx_ == 0 && total_meas == 0)
          || (&& state == Uncoiling
              && meas_step_ == 2 * num_meas_
              && |coiled| == num_meas_ && Recorded()
              && |replayed| == num_meas_ - 1 && ReplayedBackwards()
              && working_actuator_idx_ >= 1
              && (working_actuator_idx_ <= NumActuators() ==> total_meas == PerCable() * working_actuator_idx_)
              && (working_actuator_idx_ > NumActuators() ==> total_meas == PerCable() * NumActuators())))
    }

    /** What the action of SwitchCable needs: a cable left to calibrate, and 2M - 1
        measurements taken for each earlier one. */
    ghost predicate SwitchCableReady()
      reads this, controller_
    {
      && BaseValid() && controller_.Valid() && RunValid() && CanSwitchCable()
      && (state == StartUp || state == Uncoiling)
      && working_actuator_idx_ < NumActuators()
      && total_meas == PerCable() * working_actuator_idx_
    }

    //--------- Construction and queries ----------------------------------------------//

    /** Starts in Idle with the active actuators of the robot. At most 256 of them are
        admitted: the range in which the `size_t` total of a run is proved exact. The
        stop flag is left uninitialised by the source. */
    constructor (active_ids: seq<ID>)
      requires |active_ids| <= 0x100
      ensures Valid() && state == Idle && num_meas_ == kNumMeasMin && !disable_cmd_recv_
      ensures active_actuators_id_ == active_ids
      ensures actuators_status_ == seq(|active_ids|, _ => DefaultStatus)
    {
      state, prev_state_ := Idle, Idle;
      num_meas_ := kNumMeasMin;
      num_tot_meas_, working_actuator_idx_, meas_step_ := *, *, *;
      init_torques_, max_torques_ := [], [];
      torques_, reg_pos_ := [], [];
      stop_cmd_recv_ := *;
      disable_cmd_recv_ := false;
      active_actuators_id_ := active_ids;
      actuators_status_ := seq(|active_ids|, _ => DefaultStatus);
      // The single-drive controller's initial motor list is not part of this model.
      // Nothing in this model reads the controller before the StartUp action sets its
      // motor with `SetMotorID`, so an empty list has no effect.
      controller_ := new Controller.ControllerBase.OfMotors([]);
      torque_target_, pos_target_ := 0, 0;
      coiled, replayed, total_meas := [], [], 0;
    }

    /** `GetActuatorStatus`: the stored status of `id`, a default one if `id` is not an
        active actuator. */
    method GetActuatorStatus(id: ID) returns (status: ActuatorStatus)
      requires |actuators_status_| == NumActuators()
      ensures id in active_actuators_id_ ==>
                status == actuators_status_[Seqs.FirstIndex(active_actuators_id_, id)]
      ensures id !in active_actuators_id_ ==> status == DefaultStatus
    {
      status := DefaultStatus;
      var i := 0;
      while i < |active_actuators_id_|
        invariant 0 <= i <= |active_actuators_id_|
        invariant forall k :: 0 <= k < i ==> active_actuators_id_[k] != id
      {
        if active_actuators_id_[i] == id {
          assert Seqs.FirstIndex(active_actuators_id_, id) == i by {
            var f := Seqs.FirstIndex(active_actuators_id_, id);
            assert !(f < i) && !(i < f);
          }
          return actuators_status_[i];
        }
        i := i + 1;
      }
    }

    //--------- Robot and engine outcomes ---------------------------------------------//

    /** The robot's wait for the controller's set point (not part of this model). */
    method WaitUntilTargetReached() returns (ret: RetVal)
    {
      ret := *;
    }

    /** `WaitUntilPlatformSteady`: with no actuator the steadiness loop never runs and
        the wait times out; a pending stop or disable request interrupts it at once;
        otherwise the filtered pulley angles decide (not modelled). */
    method WaitUntilPlatformSteady() returns (ret: RetVal)
      ensures NumActuators() == 0 ==> ret == ETIMEOUT
      ensures NumActuators() > 0 && (stop_cmd_recv_ || disable_cmd_recv_) ==> ret == EINT
    {
      if NumActuators() == 0 {
        return ETIMEOUT;
      }
      if stop_cmd_recv_ || disable_cmd_recv_ {
        return EINT;
      }
      ret := *;
    }

    /** Set point reached and platform steady, the condition every acquisition step
        waits for; it never holds while a stop or disable request is pending. */
    method SetpointSettled() returns (ok: bool)
      ensures ok ==> NumActuators() > 0 && !stop_cmd_recv_ && !disable_cmd_recv_
    {
      var r := WaitUntilTargetReached();
      if r != OK {
        return false;
      }
      var s := WaitUntilPlatformSteady();
      return s == OK;
    }

    /** The motor position the robot reports for an actuator (not part of this model). */
    method ReadMotorPosition(id: ID) returns (pos: int32)
    {
      pos := *;
    }

    /** `DumpMeasAndMoveNext`: one more measurement logged and one more step. */
    method DumpMeasAndMoveNext()
      modifies this`meas_step_, this`total_meas
      ensures meas_step_ == old(meas_step_) + 1 && total_meas == old(total_meas) + 1
    {
      meas_step_ := meas_step_ + 1;
      total_meas := total_meas + 1;
    }

    /** `num_tot_meas_` as StartUp computes it in `size_t`, for M < 256. */
    method ComputeNumTotMeas(m: nat) returns (t: nat)
      requires m < 0x100 && NumActuators() <= 0x100
      ensures t == TotalMeasCount(m, NumActuators())
    {
      t := NumTotMeas(m, NumActuators());
      NumTotMeasValue(m, NumActuators());
    }

    /** The controller drives motor `id` alone, in torque control. */
    method DriveAloneInTorque(id: ID)
      requires controller_.Valid()
      modifies controller_
      ensures controller_.Valid()
      ensures controller_.motors_id_ == [id] && controller_.modes_ == [MotorTorque]
    {
      controller_.SetMotorID(id);
      controller_.SetMode(MotorTorque);
    }

    /** The loop of StartUp: the initial torque of each actuator in turn is recorded and
        applied in torque control, until a wait fails. */
    method ApplyInitialTorques(init_torques: seq<int16>) returns (ret: RetVal)
      requires |init_torques| >= NumActuators() && controller_.Valid()
      modifies this`init_torques_, this`torque_target_, controller_
      ensures controller_.Valid()
      ensures |init_torques_| <= NumActuators() && init_torques_ == init_torques[..|init_torques_|]
      ensures ret == OK ==> |init_torques_| == NumActuators()
    {
      init_torques_ := [];
      ret := OK;
      var i := 0;
      while i < NumActuators() && ret == OK
        invariant 0 <= i <= NumActuators()
        invariant init_torques_ == init_torques[..i]
        invariant controller_.Valid()
      {
        init_torques_ := init_torques_ + [init_torques[i]];
        DriveAloneInTorque(active_actuators_id_[i]);
        torque_target_ := init_torques[i];
        ret := WaitUntilTargetReached();
        i := i + 1;
      }
    }

    /** The ramp loop of SwitchCable: the first M - 1 set points step from `init` by the
        truncated delta, the last one is `max`. */
    method LoadTorqueRamp(buf: seq<int16>, init: int16, max: int16) returns (r: seq<int16>)
      requires |buf| >= 2
      ensures r == TorqueRamp(init, max, |buf|)
    {
      var m := |buf|;
      var delta := RampDelta(init, max, m);
      r := buf;
      var i := 0;
      while i < m - 1
        invariant 0 <= i <= m - 1 && |r| == m
        invariant forall k :: 0 <= k < i ==> r[k] == RampAt(init, delta, k)
      {
        r := r[i := RampAt(init, delta, i)];
        i := i + 1;
      }
      r := r[m - 1 := max];
    }

    //--------- Transitions into each state -------------------------------------------//

    /** Guard and action of Idle. The guard passes unless the procedure is in Fault and
        the faults of the actuators do not clear in time. */
    method GoIdle()
      requires Valid()
      modifies this`state, this`prev_state_, this`disable_cmd_recv_
      ensures Valid()
      ensures old(state) != Fault ==> state == Idle
      ensures state == Idle ==> !disable_cmd_recv_
      ensures state != Idle ==> state == old(state) && disable_cmd_recv_ == old(disable_cmd_recv_)
    {
      var pass := true;
      if prev_state_ == Fault {
        pass := *;
      }
      if pass {
        state := Idle;
        prev_state_ := Idle;
        disable_cmd_recv_ := false;
      }
    }

    /** Guard and action of Enabled. The guard passes when the robot enables every
        motor in time; a pending disable request then leads on to Idle. */
    method GoEnabled()
      requires Valid()
      modifies this`state, this`prev_state_, this`stop_cmd_recv_, this`disable_cmd_recv_
      ensures Valid()
      ensures (state == old(state) && stop_cmd_recv_ == old(stop_cmd_recv_) && disable_cmd_recv_ == old(disable_cmd_recv_))
              || (!stop_cmd_recv_ && !disable_cmd_recv_ && state == if old(disable_cmd_recv_) then Idle else Enabled)
    {
      var pass: bool := *;
      if pass {
        state := Enabled;
        prev_state_ := Enabled;
        stop_cmd_recv_ := false;
        if disable_cmd_recv_ {
          GoIdle();
        }
      }
    }

    /** Action of StartUp, first part: a new run with M = `num_meas` set points per cable,
        its buffers resized to M and its total count computed. */
    method BeginStartUp(data: StartData)
      requires Valid()
      modifies this
      ensures Valid() && state == StartUp
      ensures num_meas_ == data.num_meas as nat && max_torques_ == data.max_torques
      ensures working_actuator_idx_ == 0 && num_tot_meas_ == TotalMeasCount(num_meas_, NumActuators())
      ensures |torques_| == |reg_pos_| == num_meas_
      ensures stop_cmd_recv_ == old(stop_cmd_recv_) && disable_cmd_recv_ == old(disable_cmd_recv_)
    {
      state := StartUp;
      prev_state_ := StartUp;
      working_actuator_idx_ := 0;
      num_meas_ := data.num_meas as nat;
      num_tot_meas_ := ComputeNumTotMeas(num_meas_);
      max_torques_ := data.max_torques;
      torques_ := Resized(torques_, num_meas_, 0);
      reg_pos_ := Resized(reg_pos_, num_meas_, 0);
      total_meas := 0;
    }

    /** Action of StartUp: after the new run is set up, the initial torque of each cable
        is applied in turn; a failed wait leads back to Enabled. */
    method GoStartUp(data: StartData)
      requires Valid() && |data.init_torques| >= NumActuators()
      modifies this, controller_
      ensures Valid()
      ensures state == StartUp || state == Enabled || state == Idle
      ensures num_meas_ == data.num_meas as nat && max_torques_ == data.max_torques
      ensures working_actuator_idx_ == 0 && num_tot_meas_ == TotalMeasCount(num_meas_, NumActuators())
      ensures |torques_| == |reg_pos_| == num_meas_
      ensures |init_torques_| <= NumActuators() && init_torques_ == data.init_torques[..|init_torques_|]
    {
      BeginStartUp(data);
      var ret := ApplyInitialTorques(data.init_torques);
      if ret == OK {
        ret := WaitUntilPlatformSteady();
      }
      if ret != OK {
        GoEnabled();
      }
    }

    /** Guard of SwitchCable: it passes from StartUp and while some cable is left. Once
        every cable is done it reports the acquisition complete (`complete`), after
        exactly (2M - 1) * N measurements, and leads to Enabled. */
    method GoSwitchCable() returns (complete: bool)
      requires SwitchCablePre()
      modifies this, controller_
      ensures Valid() && (IsCollectingData(state) || state == Enabled || state == Idle)
      ensures complete <==> old(state) == Uncoiling && old(working_actuator_idx_) >= NumActuators()
      ensures complete ==> total_meas == num_tot_meas_ == PerCable() * NumActuators()
      ensures complete ==> state == Enabled || state == Idle || state == old(state)
      ensures state == SwitchCable ==> working_actuator_idx_ == old(working_actuator_idx_) && meas_step_ == 0
    {
      complete := !(prev_state_ == StartUp || working_actuator_idx_ < NumActuators());
      if complete {
        GoEnabled();
      } else {
        SwitchCableAction();
      }
    }

    /** First part of the action of SwitchCable: the ramp of the working cable is
        computed and the measurement step reset. */
    method EnterSwitchCable()
      requires SwitchCableReady()
      modifies this`state, this`prev_state_, this`torques_, this`meas_step_, this`coiled, this`replayed
      ensures Valid() && state == SwitchCable && meas_step_ == 0
      ensures torques_ == TorqueRamp(init_torques_[working_actuator_idx_], max_torques_[working_actuator_idx_], num_meas_)
    {
      state := SwitchCable;
      prev_state_ := SwitchCable;
      var idx := working_actuator_idx_;
      torques_ := LoadTorqueRamp(torques_, init_torques_[idx], max_torques_[idx]);
      meas_step_ := 0;
      coiled, replayed := [], [];
      assert RunValid() && RampLoaded();
    }

    /** Second part: the controller drives the working motor alone, in torque control,
        towards the first set point of the ramp. */
    method SetupFirstSetpoint()
      requires Valid() && state == SwitchCable
      modifies this`torque_target_, controller_
      ensures Valid()
      ensures controller_.motors_id_ == [active_actuators_id_[working_actuator_idx_]]
      ensures controller_.modes_ == [MotorTorque] && torque_target_ == torques_[0]
    {
      DriveAloneInTorque(active_actuators_id_[working_actuator_idx_]);
      torque_target_ := torques_[0];
    }

    /** Action of SwitchCable: the cable is loaded and its first set point awaited; a
        failed wait leads back to Enabled. */
    method SwitchCableAction()
      requires SwitchCableReady()
      modifies this, controller_
      ensures Valid() && (state == SwitchCable || state == Enabled || state == Idle)
      ensures working_actuator_idx_ == old(working_actuator_idx_)
      ensures state == SwitchCable ==>
                && meas_step_ == 0
                && torques_ == TorqueRamp(init_torques_[working_actuator_idx_], max_torques_[working_actuator_idx_], num_meas_)
                && controller_.motors_id_ == [active_actuators_id_[working_actuator_idx_]]
                && controller_.modes_ == [MotorTorque] && torque_target_ == torques_[0]
    {
      EnterSwitchCable();
      SetupFirstSetpoint();
      var ok := SetpointSettled();
      if !ok {
        GoEnabled();
      }
    }

    /** Entry action of Coiling, then the state change: the position the working motor
        reached at the first set point is recorded and the first measurement dumped. */
    method EnterCoiling()
      requires Valid() && state == SwitchCable
      modifies this
      ensures Valid() && state == Coiling && meas_step_ == 1 && |coiled| == 1
      ensures working_actuator_idx_ == old(working_actuator_idx_) && total_meas == old(total_meas) + 1
    {
      var pos := ReadMotorPosition(active_actuators_id_[working_actuator_idx_]);
      reg_pos_ := reg_pos_[0 := pos];
      coiled := [pos];
      DumpMeasAndMoveNext();
      state := Coiling;
      prev_state_ := Coiling;
    }

    /** A Coiling step once its set point is reached: the position of the working motor
        is recorded and a measurement dumped. */
    method RecordCoiledPosition()
      requires Valid() && state == Coiling && meas_step_ < num_meas_
      modifies this`reg_pos_, this`coiled, this`meas_step_, this`total_meas
      ensures Valid() && state == Coiling
      ensures meas_step_ == old(meas_step_) + 1 && total_meas == old(total_meas) + 1
      ensures coiled == old(coiled) + [reg_pos_[old(meas_step_)]]
    {
      var pos := ReadMotorPosition(active_actuators_id_[working_actuator_idx_]);
      reg_pos_ := reg_pos_[meas_step_ := pos];
      coiled := coiled + [pos];
      DumpMeasAndMoveNext();
    }

    /** Action of Coiling: after M measurements the cable is uncoiled; before, the next
        set point of the ramp is applied and the position it reaches recorded. */
    method CoilingAction()
      requires Valid() && state == Coiling
      modifies this, controller_
      ensures Valid() && (state == Coiling || state == Uncoiling || state == Enabled || state == Idle)
      ensures state == Uncoiling ==> old(meas_step_) == old(num_meas_)
      ensures state == Coiling && meas_step_ != old(meas_step_) ==>
                meas_step_ == old(meas_step_) + 1 && torque_target_ == torques_[old(meas_step_)]
    {
      if meas_step_ == num_meas_ {
        var complete := GoUncoiling();
        return;
      }
      torque_target_ := torques_[meas_step_];
      var ok := SetpointSettled();
      if ok {
        RecordCoiledPosition();
      } else {
        GoEnabled();
      }
    }

    /** Entry action (when coming from SwitchCable) and action of Coiling. */
    method GoCoiling()
      requires Valid() && (state == SwitchCable || state == Coiling)
      modifies this, controller_
      ensures Valid() && (state == Coiling || state == Uncoiling || state == Enabled || state == Idle)
    {
      if state != Coiling {
        EnterCoiling();
      }
      CoilingAction();
    }

    /** Entry action of Uncoiling, then the state change: one more step. */
    method EnterUncoiling()
      requires Valid() && state == Coiling && meas_step_ == num_meas_
      modifies this`meas_step_, this`state, this`prev_state_
      ensures Valid() && state == Uncoiling && meas_step_ == num_meas_ + 1
    {
      meas_step_ := meas_step_ + 1;
      state := Uncoiling;
      prev_state_ := Uncoiling;
    }

    /** An Uncoiling step before step 2M, first part: in position control, the position
        recorded at coiling step `kOffset - meas_step_` is commanded, `kOffset` being
        2M - 1: the last but one first. */
    method CommandReplayedPosition()
      requires Valid() && state == Uncoiling && meas_step_ < 2 * num_meas_
      modifies this`pos_target_, controller_
      ensures Valid()
      ensures pos_target_ == reg_pos_[PerCable() - meas_step_] == coiled[PerCable() - meas_step_]
      ensures controller_.motors_id_ == old(controller_.motors_id_)
      ensures controller_.modes_ == seq(|controller_.motors_id_|, _ => MotorPosition)
    {
      var kOffset := num_tot_meas_ / NumActuators();
      ReplayOffset(num_meas_, NumActuators());
      controller_.SetMode(MotorPosition);
      pos_target_ := reg_pos_[kOffset - meas_step_];
    }

    /** An Uncoiling step once its position is reached: the replayed position is logged
        and a measurement dumped. */
    method RecordReplayedPosition()
      requires Valid() && state == Uncoiling && meas_step_ < 2 * num_meas_
      requires pos_target_ == coiled[PerCable() - meas_step_]
      modifies this`replayed, this`meas_step_, this`total_meas
      ensures Valid() && state == Uncoiling
      ensures meas_step_ == old(meas_step_) + 1 && total_meas == old(total_meas) + 1
      ensures replayed == old(replayed) + [pos_target_]
    {
      replayed := replayed + [pos_target_];
      DumpMeasAndMoveNext();
    }

    /** Action of Uncoiling before step 2M: the replayed position is commanded and a
        measurement dumped once it is reached. */
    method ReplayStep()
      requires Valid() && state == Uncoiling && meas_step_ < 2 * num_meas_
      modifies this, controller_
      ensures Valid() && (state == Uncoiling || state == Enabled || state == Idle)
      ensures pos_target_ == old(coiled[PerCable() - meas_step_])
      ensures state == Uncoiling && meas_step_ != old(meas_step_) ==>
                meas_step_ == old(meas_step_) + 1 && replayed == old(replayed) + [pos_target_]
    {
      CommandReplayedPosition();
      var ok := SetpointSettled();
      if ok {
        RecordReplayedPosition();
      } else {
        GoEnabled();
      }
    }

    /** Action of Uncoiling at step 2M: the first torque set point is restored in torque
        control and, once settled, the next cable is switched to. */
    method FinishCable() returns (complete: bool)
      requires Valid() && state == Uncoiling && meas_step_ == 2 * num_meas_
      modifies this, controller_
      ensures Valid() && (IsCollectingData(state) || state == Enabled || state == Idle)
      ensures complete ==> total_meas == num_tot_meas_ == PerCable() * NumActuators()
      ensures complete ==> state == Enabled || state == Idle || state == Uncoiling
      ensures state == SwitchCable ==> working_actuator_idx_ == old(working_actuator_idx_) + 1 && meas_step_ == 0
    {
      controller_.SetMode(MotorTorque);
      torque_target_ := torques_[0];
      var ok := SetpointSettled();
      if ok {
        ghost var p := PerCable();
        assert working_actuator_idx_ < NumActuators() ==>
                 p * working_actuator_idx_ + meas_step_ - 1 == p * (working_actuator_idx_ + 1);
        working_actuator_idx_ := working_actuator_idx_ + 1;
        complete := GoSwitchCable();
      } else {
        complete := false;
        GoEnabled();
      }
    }

    /** Entry action (when coming from Coiling) and action of Uncoiling. `complete` tells
        that this finished the acquisition, which only a Start in Uncoiling can do. */
    method GoUncoiling() returns (complete: bool)
      requires Valid() && ((state == Coiling && meas_step_ == num_meas_) || state == Uncoiling)
      modifies this, controller_
      ensures Valid() && (IsCollectingData(state) || state == Enabled || state == Idle)
      ensures old(state) == Coiling ==> state == Uncoiling || state == Enabled || state == Idle
      ensures complete ==> old(state) == Uncoiling && total_meas == num_tot_meas_ == PerCable() * NumActuators()
      ensures complete ==> state == Enabled || state == Idle || state == Uncoiling
      ensures state == SwitchCable ==> working_actuator_idx_ == old(working_actuator_idx_) + 1 && meas_step_ == 0
    {
      if state != Uncoiling {
        EnterUncoiling();
      }
      if meas_step_ == 2 * num_meas_ {
        complete := FinishCable();
      } else {
        complete := false;
        ReplayStep();
      }
    }

    /** Action of Optimizing: a failed optimisation, or one whose row count is not the
        number of actuators, leads back to Enabled; otherwise its rows become the home
        data and the procedure goes Home. */
    method GoOptimizing(result: OptimizationResult) returns (complete: bool, updates: seq<Robot.ActuatorCommand>)
      requires Valid()
      requires result.Results? && |result.rows| == NumActuators() ==>
                 forall k :: 0 <= k < NumActuators() ==> active_actuators_id_[k] < NumActuators()
      modifies this`state, this`prev_state_, this`stop_cmd_recv_, this`disable_cmd_recv_
      ensures Valid()
      ensures complete ==> result.Results? && |result.rows| == NumActuators() && state == Home
      ensures complete ==>
                && |updates| == NumActuators()
                && forall k :: 0 <= k < NumActuators() ==>
                     var id := active_actuators_id_[k];
                     updates[k] == Robot.UpdateHome(id, result.rows[id].1, result.rows[id].0)
      ensures !complete ==> updates == []
      ensures result.EngineFailure? || |result.rows| != NumActuators() ==> state != Home
    {
      state := Optimizing;
      prev_state_ := Optimizing;
      complete, updates := false, [];
      if result.EngineFailure? || |result.rows| != NumActuators() {
        GoEnabled();
        return;
      }
      var n := NumActuators();
      var lengths, angles := [], [];
      var i := 0;
      while i < n
        invariant 0 <= i <= n && |lengths| == i && |angles| == i
        invariant forall k :: 0 <= k < i ==> lengths[k] == result.rows[k].1 && angles[k] == result.rows[k].0
      {
        angles := angles + [result.rows[i].0];
        lengths := lengths + [result.rows[i].1];
        i := i + 1;
      }
      complete, updates := GoHomeState(HomeData(lengths, angles));
    }

    /** Action of Home: if the robot reaches its home configuration, every active
        actuator gets the home cable length and pulley angle the data give for its id
        (`complete`); otherwise the procedure goes back to Enabled. */
    method GoHomeState(data: HomeData) returns (complete: bool, updates: seq<Robot.ActuatorCommand>)
      requires Valid()
      requires forall k :: 0 <= k < NumActuators() ==>
                 active_actuators_id_[k] < |data.init_lengths| && active_actuators_id_[k] < |data.init_angles|
      modifies this`state, this`prev_state_, this`stop_cmd_recv_, this`disable_cmd_recv_
      ensures Valid()
      ensures complete ==>
                && state == Home && |updates| == NumActuators()
                && forall k :: 0 <= k < NumActuators() ==>
                     var id := active_actuators_id_[k];
                     updates[k] == Robot.UpdateHome(id, data.init_lengths[id], data.init_angles[id])
      ensures !complete ==> updates == []
    {
      state := Home;
      prev_state_ := Home;
      complete, updates := false, [];
      var reached: bool := *;
      if reached {
        var k := 0;
        while k < NumActuators()
          invariant 0 <= k <= NumActuators() && |updates| == k
          invariant forall j :: 0 <= j < k ==>
                      var id := active_actuators_id_[j];
                      updates[j] == Robot.UpdateHome(id, data.init_lengths[id], data.init_angles[id])
        {
          var id := active_actuators_id_[k];
          updates := updates + [Robot.UpdateHome(id, data.init_lengths[id], data.init_angles[id])];
          k := k + 1;
        }
        complete := true;
      } else {
        GoEnabled();
      }
    }

    /** Action of Fault. */
    method GoFault()
      requires Valid()
      modifies this`state, this`prev_state_
      ensures Valid() && state == Fault
    {
      state := Fault;
      prev_state_ := Fault;
    }

    //--------- External events -------------------------------------------------------//

    /** `Start`: advances the procedure along the Start transition map. Entering
        StartUp needs an initial torque per actuator; switching to the first cable needs
        what `CanSwitchCable` states. `complete` tells that the acquisition finished. */
    method Start(data: StartData) returns (complete: bool)
      requires Valid()
      requires state == Enabled ==> |data.init_torques| >= NumActuators()
      requires state == StartUp ==> CanSwitchCable()
      modifies this, controller_
      ensures Valid()
      ensures StartTable(old(state)) == CannotHappen ==> unchanged(this)
      ensures old(state) == Idle ==> state == Enabled || state == Idle
      ensures old(state) == Enabled ==> state == StartUp || state == Enabled || state == Idle
      ensures IsCollectingData(old(state)) ==> IsCollectingData(state) || state == Enabled || state == Idle
      ensures complete ==> old(state) == Uncoiling && total_meas == num_tot_meas_ == PerCable() * NumActuators()
      ensures complete ==> state == Enabled || state == Idle || state == Uncoiling
      ensures old(state) == Uncoiling && state == SwitchCable ==>
                working_actuator_idx_ == old(working_actuator_idx_) + 1 && meas_step_ == 0
      ensures old(state) == StartUp && state == SwitchCable ==>
                working_actuator_idx_ == old(working_actuator_idx_) && meas_step_ == 0
    {
      complete := false;
      var t := StartTable(state);
      if t == GoTo(Enabled) {
        GoEnabled();
      } else if t == GoTo(StartUp) {
        GoStartUp(data);
      } else if t == GoTo(SwitchCable) {
        complete := GoSwitchCable();
      } else if t == GoTo(Coiling) {
        GoCoiling();
      } else if t == GoTo(Uncoiling) {
        complete := GoUncoiling();
      }
    }

    /** `Stop`: only raises the stop request, which interrupts the next steadiness wait. */
    method Stop()
      modifies this`stop_cmd_recv_
      ensures stop_cmd_recv_
    {
      stop_cmd_recv_ := true;
    }

    /** `Disable`: raises the disable request, then follows the Disable map; going to
        Idle clears the request again. */
    method Disable()
      requires Valid()
      modifies this`state, this`prev_state_, this`disable_cmd_recv_
      ensures Valid()
      ensures DisableTable(old(state)) == GoTo(Idle) ==> state == Idle && !disable_cmd_recv_
      ensures DisableTable(old(state)) == EventIgnored ==> state == old(state) && disable_cmd_recv_
    {
      disable_cmd_recv_ := true;
      if DisableTable(state) == GoTo(Idle) {
        GoIdle();
      }
    }

    /** `Optimize`: accepted only in Enabled. */
    method Optimize(result: OptimizationResult) returns (complete: bool, updates: seq<Robot.ActuatorCommand>)
      requires Valid()
      requires state == Enabled && result.Results? && |result.rows| == NumActuators() ==>
                 forall k :: 0 <= k < NumActuators() ==> active_actuators_id_[k] < NumActuators()
      modifies this`state, this`prev_state_, this`stop_cmd_recv_, this`disable_cmd_recv_
      ensures Valid()
      ensures old(state) != Enabled ==> unchanged(this) && !complete
      ensures complete ==> old(state) == Enabled && state == Home && |updates| == NumActuators()
      ensures result.EngineFailure? || |result.rows| != NumActuators() ==>
                !complete && updates == [] && (old(state) == Enabled ==> state != Home)
    {
      complete, updates := false, [];
      if OptimizeTable(state).GoTo? {
        complete, updates := GoOptimizing(result);
      }
    }

    /** `GoHome`: accepted only in Enabled; the home data are indexed by motor id. */
    method GoHome(data: HomeData) returns (complete: bool, updates: seq<Robot.ActuatorCommand>)
      requires Valid()
      requires state == Enabled ==> forall k :: 0 <= k < NumActuators() ==>
                 active_actuators_id_[k] < |data.init_lengths| && active_actuators_id_[k] < |data.init_angles|
      modifies this`state, this`prev_state_, this`stop_cmd_recv_, this`disable_cmd_recv_
      ensures Valid()
      ensures old(state) != Enabled ==> unchanged(this) && !complete
      ensures complete ==> old(state) == Enabled && state == Home && |updates| == NumActuators()
    {
      complete, updates := false, [];
      if GoHomeTable(state).GoTo? {
        complete, updates := GoHomeState(data);
      }
    }

    /** `FaultTrigger`: every state but Fault goes to Fault. */
    method FaultTrigger()
      requires Valid()
      modifies this`state, this`prev_state_
      ensures Valid() && state == Fault
    {
      if FaultTriggerTable(state).GoTo? {
        GoFault();
      }
    }

    /** `FaultReset`: towards Idle from any state; from Fault only once the faults clear. */
    method FaultReset()
      requires Valid()
      modifies this`state, this`prev_state_, this`stop_cmd_recv_, this`disable_cmd_recv_
      ensures Valid()
      ensures old(state) != Fault ==> state == Idle
      ensures state == Idle || unchanged(this)
    {
      GoIdle();
    }

    /** `handleActuatorStatusUpdate`: a status for an active actuator in fault fires
        `FaultTrigger` and is not stored; any other status of an active actuator
        overwrites that actuator's slot only; a status of another id changes nothing. */
    method HandleActuatorStatusUpdate(status: ActuatorStatus)
      requires Valid()
      modifies this`state, this`prev_state_, this`actuators_status_
      ensures Valid()
      ensures status.id !in active_actuators_id_ ==> unchanged(this)
      ensures status.id in active_actuators_id_ && status.state == ActFault ==>
                state == Fault && actuators_status_ == old(actuators_status_)
      ensures status.id in active_actuators_id_ && status.state != ActFault ==>
                && state == old(state)
                && actuators_status_ == old(actuators_status_)[Seqs.FirstIndex(active_actuators_id_, status.id) := status]
    {
      var i := 0;
      while i < |active_actuators_id_|
        invariant 0 <= i <= |active_actuators_id_|
        invariant forall k :: 0 <= k < i ==> active_actuators_id_[k] != status.id
      {
        if active_actuators_id_[i] == status.id {
          assert Seqs.FirstIndex(active_actuators_id_, status.id) == i by {
            var f := Seqs.FirstIndex(active_actuators_id_, status.id);
            assert !(f < i) && !(i < f);
          }
          if status.state == ActFault {
            FaultTrigger();
            return;
          }
          actuators_status_ := actuators_status_[i := status];
          return;
        }
        i := i + 1;
      }
    }
  }
}
