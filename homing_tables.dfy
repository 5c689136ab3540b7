/** The external-event transition maps of the proprioceptive homing procedure
    (src/homing/homing_proprioceptive.cpp) and the `IsCollectingData` query. */
module HomingTables {
  import opened StateMachine
  import opened HomingStates

  /** `Start`: walks Idle -> Enabled -> StartUp -> SwitchCable -> Coiling and repeats
      Coiling and Uncoiling; impossible once the data are collected or in a fault. */
  function StartTable(s: State): (t: Transition<State>)
    ensures s == Idle <==> t == GoTo(Enabled)
    ensures s == Enabled <==> t == GoTo(StartUp)
    ensures s == StartUp <==> t == GoTo(SwitchCable)
    ensures s == SwitchCable || s == Coiling <==> t == GoTo(Coiling)
    ensures s == Uncoiling <==> t == GoTo(Uncoiling)
    ensures s == Optimizing || s == Home || s == Fault <==> t == CannotHappen
    ensures t != EventIgnored
  {
    match s
    case Idle => GoTo(Enabled)
    case Enabled => GoTo(StartUp)
    case StartUp => GoTo(SwitchCable)
    case SwitchCable => GoTo(Coiling)
    case Coiling => GoTo(Coiling)
    case Uncoiling => GoTo(Uncoiling)
    case Optimizing => CannotHappen
    case Home => CannotHappen
    case Fault => CannotHappen
  }

  /** `Disable`: back to Idle from Idle, Enabled, Optimizing and Home; ignored while
      collecting data (the flag it raises interrupts the running wait instead) and in Fault. */
  function DisableTable(s: State): (t: Transition<State>)
    ensures t == GoTo(Idle) <==> s == Idle || s == Enabled || s == Optimizing || s == Home
    ensures t == EventIgnored <==> s == StartUp || s == SwitchCable || s == Coiling || s == Uncoiling || s == Fault
    ensures t == GoTo(Idle) || t == EventIgnored
  {
    match s
    case Idle => GoTo(Idle)
    case Enabled => GoTo(Idle)
    case StartUp => EventIgnored
    case SwitchCable => EventIgnored
    case Coiling => EventIgnored
    case Uncoiling => EventIgnored
    case Optimizing => GoTo(Idle)
    case Home => GoTo(Idle)
    case Fault => EventIgnored
  }

  /** `Optimize`: accepted only in Enabled. */
  function OptimizeTable(s: State): (t: Transition<State>)
    ensures t.GoTo? <==> s == Enabled
    ensures t.GoTo? ==> t.target == Optimizing
    ensures t == CannotHappen <==> s == Idle || s == Fault
  {
    match s
    case Idle => CannotHappen
    case Enabled => GoTo(Optimizing)
    case StartUp => EventIgnored
    case SwitchCable => EventIgnored
    case Coiling => EventIgnored
    case Uncoiling => EventIgnored
    case Optimizing => EventIgnored
    case Home => EventIgnored
    case Fault => CannotHappen
  }

  /** `GoHome`: accepted only in Enabled, ignored in Home, impossible elsewhere. */
  function GoHomeTable(s: State): (t: Transition<State>)
    ensures t.GoTo? <==> s == Enabled
    ensures t.GoTo? ==> t.target == Home
    ensures t == EventIgnored <==> s == Home
  {
    match s
    case Idle => CannotHappen
    case Enabled => GoTo(Home)
    case StartUp => CannotHappen
    case SwitchCable => CannotHappen
    case Coiling => CannotHappen
    case Uncoiling => CannotHappen
    case Optimizing => CannotHappen
    case Home => EventIgnored
    case Fault => CannotHappen
  }

  /** `FaultTrigger`: every state but Fault goes to Fault; ignored in Fault. */
  function FaultTriggerTable(s: State): (t: Transition<State>)
    ensures s != Fault <==> t == GoTo(Fault)
    ensures s == Fault <==> t == EventIgnored
  {
    match s
    case Idle => GoTo(Fault)
    case Enabled => GoTo(Fault)
    case StartUp => GoTo(Fault)
    case SwitchCable => GoTo(Fault)
    case Coiling => GoTo(Fault)
    case Uncoiling => GoTo(Fault)
    case Optimizing => GoTo(Fault)
    case Home => GoTo(Fault)
    case Fault => EventIgnored
  }

  /** `FaultReset` is an unconditional external event towards Idle, from any state. */
  function FaultResetTable(s: State): (t: Transition<State>)
    ensures t == GoTo(Idle)
  {
    GoTo(Idle)
  }

  /** `IsCollectingData`: the states of the acquisition phase. */
  predicate IsCollectingData(s: State)
  {
    match s
    case Idle => false
    case Enabled => false
    case Fault => false
    case Optimizing => false
    case Home => false
    case _ => true
  }

  /** Data are collected exactly in StartUp, SwitchCable, Coiling and Uncoiling. */
  lemma IsCollectingDataExactly(s: State)
    ensures IsCollectingData(s) <==> s in {StartUp, SwitchCable, Coiling, Uncoiling}
  {
  }

  /** While data are collected, Start keeps collecting (it never leaves the
      acquisition states), Disable and Optimize are ignored and GoHome cannot happen. */
  lemma CollectingEvents(s: State)
    requires IsCollectingData(s)
    ensures StartTable(s).GoTo? && IsCollectingData(StartTable(s).target)
    ensures DisableTable(s) == EventIgnored && OptimizeTable(s) == EventIgnored
    ensures GoHomeTable(s) == CannotHappen
  {
  }

  /** The optimisation and the final homing motion can only be requested in Enabled,
      which is not a data-collection state. */
  lemma GatesOnlyFromEnabled(s: State)
    ensures OptimizeTable(s).GoTo? || GoHomeTable(s).GoTo? ==> s == Enabled && !IsCollectingData(s)
  {
  }

  /** Four Start events take an idle procedure to Coiling. */
  lemma StartChain()
    ensures StartTable(Idle) == GoTo(Enabled)
    ensures StartTable(StartTable(Idle).target) == GoTo(StartUp)
    ensures StartTable(StartUp) == GoTo(SwitchCable) && StartTable(SwitchCable) == GoTo(Coiling)
  {
  }
}
