/** The run engine: a thin object over the shared `runMachine` that seeds
    its current state and asks it to cancel. */
module RunEngines {
  import opened StateMachines
  import opened RunStateMachine

  class RunEngine {
    /** The shared run machine; every engine holds the same one. */
    const machine: StateMachine

    /** Seeds the shared machine with the engine's initial status. Every
        status is declared, so `setInitialState` never throws here. */
    constructor (runMachine: StateMachine, initialState: TaskRunStatus)
      requires IsRunMachine(runMachine)
      modifies runMachine
      ensures machine == runMachine && IsRunMachine(machine)
      ensures runMachine.CurrentState() == Some(Name(initialState))
    {
      machine := runMachine;
      new;
      RunStatesAreStatusNames();
      var outcome := runMachine.SetInitialState(Name(initialState));
    }

    /** Asks the machine to move to CANCELED and reports true whatever the
        machine answered: from PENDING the run becomes CANCELED, from any
        other state it stays where it was. */
    method CancelRun() returns (r: bool)
      requires IsRunMachine(machine)
      modifies machine
      ensures r
      ensures old(machine.state) == Some(Name(TaskRunStatus.PENDING))
          ==> machine.state == Some(Name(TaskRunStatus.CANCELED))
      ensures old(machine.state) != Some(Name(TaskRunStatus.PENDING))
          ==> machine.state == old(machine.state)
    {
      var result := machine.Transition(Name(TaskRunStatus.CANCELED));
      if old(machine.state) == Some(Name(TaskRunStatus.PENDING)) {
        FromPending(Name(TaskRunStatus.CANCELED));
      } else {
        FromOtherThanPending(old(machine.state), Name(TaskRunStatus.CANCELED));
      }
      return true;
    }
  }

  /** Engines alias the one machine: building a second engine overwrites
      the state the first one sees. */
  method SecondEngineOverwritesFirst(runMachine: StateMachine, a: TaskRunStatus, b: TaskRunStatus)
    returns (first: RunEngine, second: RunEngine)
    requires IsRunMachine(runMachine)
    modifies runMachine
    ensures first.machine == second.machine == runMachine
    ensures first.machine.CurrentState() == Some(Name(b))
  {
    first := new RunEngine(runMachine, a);
    second := new RunEngine(runMachine, b);
  }
}
