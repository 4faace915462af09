/**
 * The wallet-wide admission gate: one outbox run at a time, and none while a
 * wallet mutation holds a lease.
 */
module ExecutionGate {
  import opened Common

  datatype GateState = GateState(running: bool, leases: set<string>)

  const OPEN_GATE := GateState(false, {})

  predicate Admits(g: GateState) {
    !g.running && g.leases == {}
  }

  /** The prefix of the leases retired by `discardStopLeases`. */
  function StopPrefix(network: Option<string>, accountUuid: Option<string>): string {
    if network.Some? && accountUuid.Some? then "stop:" + network.value + ":" + accountUuid.value + ":" else "stop:"
  }

  function WithoutStopLeases(leases: set<string>, network: Option<string>, accountUuid: Option<string>): set<string> {
    set l | l in leases && !(StopPrefix(network, accountUuid) <= l)
  }

  /** The gate's fields and the operations made under its lock; waiting is a step of the outbox world. */
  class Gate {
    var running: bool
    var mutationLeases: set<string>

    ghost function View(): GateState
      reads this
    {
      GateState(running, mutationLeases)
    }

    constructor ()
      ensures View() == OPEN_GATE
    {
      running := false;
      mutationLeases := {};
    }

    /** Admits a run exactly when none is active and no lease is held. */
    method TryBeginRun() returns (admitted: bool)
      modifies this
      ensures admitted == old(Admits(View()))
      ensures View() == if admitted then old(View()).(running := true) else old(View())
    {
      if running || mutationLeases != {} {
        return false;
      }
      running := true;
      return true;
    }

    method FinishRun()
      modifies this
      ensures View() == old(View()).(running := false)
    {
      running := false;
    }

    /** Registering a lease again changes nothing. */
    method Pause(leaseId: string)
      modifies this
      ensures View() == old(View()).(leases := old(mutationLeases) + {leaseId})
      ensures leaseId in old(mutationLeases) ==> View() == old(View())
    {
      mutationLeases := mutationLeases + {leaseId};
    }

    /** Releases this lease only; a foreign or repeated release leaves every other lease in place. */
    method Resume(leaseId: string) returns (idle: bool)
      modifies this
      ensures View() == old(View()).(leases := old(mutationLeases) - {leaseId})
      ensures leaseId !in old(mutationLeases) ==> View() == old(View())
      ensures idle == (mutationLeases == {})
    {
      mutationLeases := mutationLeases - {leaseId};
      idle := mutationLeases == {};
    }

    /** Retires stop leases only, and with a scope only those of that scope; never admits a lease or ends a run. */
    method DiscardStopLeases(network: Option<string>, accountUuid: Option<string>)
      modifies this
      ensures View() == old(View()).(leases := WithoutStopLeases(old(mutationLeases), network, accountUuid))
      ensures forall l :: l in old(mutationLeases) && !("stop:" <= l) ==> l in mutationLeases
      ensures forall l :: l in mutationLeases ==> !(StopPrefix(network, accountUuid) <= l)
      ensures mutationLeases <= old(mutationLeases) && running == old(running)
    {
      var prefix := StopPrefix(network, accountUuid);
      mutationLeases := set l | l in mutationLeases && !(prefix <= l);
    }
  }
}
