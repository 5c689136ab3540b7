/** The declarations of the proprioceptive homing procedure
    (inc/homing/homing_proprioceptive.h): its states in enum order, the state map
    binding guards and entry actions to states, the event-data records and the
    tuning constants. */
module HomingStates {
  import opened RobotTypes

  /** `HomingProprioceptive::States`, in enum order (= transition-table row order). */
  datatype State = Idle | Enabled | StartUp | SwitchCable | Coiling | Uncoiling | Optimizing | Home | Fault

  /** `ST_MAX_STATES`. */
  const MaxStates: nat := 9

  /** The enum value of a state. */
  function Index(s: State): (i: nat)
    ensures i < MaxStates
  {
    match s
    case Idle => 0
    case Enabled => 1
    case StartUp => 2
    case SwitchCable => 3
    case Coiling => 4
    case Uncoiling => 5
    case Optimizing => 6
    case Home => 7
    case Fault => 8
  }

  /** The state an enum value names (what `static_cast<States>` gives). */
  function StateOf(i: nat): (s: State)
    requires i < MaxStates
    ensures Index(s) == i
  {
    if i == 0 then Idle
    else if i == 1 then Enabled
    else if i == 2 then StartUp
    else if i == 3 then SwitchCable
    else if i == 4 then Coiling
    else if i == 5 then Uncoiling
    else if i == 6 then Optimizing
    else if i == 7 then Home
    else Fault
  }

  /** The enum values are distinct and exactly 0 .. ST_MAX_STATES - 1. */
  lemma IndexBijective(s: State, t: State)
    ensures StateOf(Index(s)) == s
    ensures Index(s) == Index(t) ==> s == t
  {
  }

  /** One row of the state map: whether the state has a guard and an entry action
      (no state of this machine has an exit action). */
  datatype StateMapRow = StateMapRow(has_guard: bool, has_entry: bool)

  function StateMap(s: State): (row: StateMapRow)
    ensures row.has_guard <==> s == Idle || s == Enabled || s == SwitchCable
    ensures row.has_entry <==> s == Coiling || s == Uncoiling
    ensures !(row.has_guard && row.has_entry)
  {
    match s
    case Idle => StateMapRow(true, false)
    case Enabled => StateMapRow(true, false)
    case StartUp => StateMapRow(false, false)
    case SwitchCable => StateMapRow(true, false)
    case Coiling => StateMapRow(false, true)
    case Uncoiling => StateMapRow(false, true)
    case Optimizing => StateMapRow(false, false)
    case Home => StateMapRow(false, false)
    case Fault => StateMapRow(false, false)
  }

  /** `kNumMeasMin_`, the default of `num_meas_`. */
  const kNumMeasMin: nat := 1
  /** `kTorqueSsErrTol_`, the steady-state torque tolerance given to the controller. */
  const kTorqueSsErrTol: int16 := 5

  /** `HomingProprioceptiveStartData`. */
  datatype StartData = StartData(init_torques: seq<int16>, max_torques: seq<int16>, num_meas: uint8)

  /** `HomingProprioceptiveHomeData`. */
  datatype HomeData = HomeData(init_lengths: seq<real>, init_angles: seq<real>)
}
