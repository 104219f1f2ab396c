/** What an operator can rely on. */
module Guarantees {
  // What the invariant means to somebody who looks at the tables during or after any run.

  import opened Tables
  import opened Ledger
  import opened Protocol
  import opened ProtocolInv
  import opened StepKeeps
  import opened Keeps
  import opened Runs

  /** Both resources of every host stay between zero and the total, though the guarded update
      tests only the upper side. */
  lemma NeverOutsideTotals(s: State, h: nat)
    requires Reachable(s) && h in s.hosts
    ensures 0 <= s.hosts[h].vcpu <= s.hosts[h].vcpuTotal && 0 <= s.hosts[h].mem <= s.hosts[h].memTotal
  {
    ReachableInv(s);
    assert BookOk(s, h);
  }

  /** A live task that is COMPLETE has freed its source, though the worker stores COMPLETE without
      looking: every release that is owed succeeds. A FAILED one keeps no claim. */
  lemma FinishedTasksOweNothing(s: State, t: nat)
    requires Reachable(s) && t in s.tasks && s.tasks[t].tag == Live
    ensures s.tasks[t].status == Complete ==>
              s.tasks[t].srcTaken && s.tasks[t].srcFree && s.tasks[t].srcUndefined && ChargeOf(s, DstOwner(t)).vcpu == 0
    ensures s.tasks[t].status == Failed ==> ChargeOf(s, DstOwner(t)) == NOTHING && ChargeOf(s, SrcOwner(t)) == NOTHING
  {
    ReachableInv(s);
    assert TaskOk(s, t);
  }

  predicate Primary(s: State, v: nat, ip: nat) { IsNormal(s, v) && s.vms[v].ip == Some(ip) }

  /** With no operation in flight, an address is used exactly when it is the primary address of
      one NORMAL VM or has an attachment row, never two of these. A shelved VM owns no address,
      whatever its `last_ip` says. */
  lemma AddressesAtRest(s: State, ip: nat)
    requires Reachable(s) && s.ops == map[] && (forall a | a in s.attached :: s.attached[a].stage == Stored)
    ensures ip in s.ips && s.ips[ip].used <==> ip in s.attached || exists v :: Primary(s, v, ip)
    ensures forall v, w | Primary(s, v, ip) && Primary(s, w, ip) :: v == w
    ensures ip in s.attached ==> !exists v :: Primary(s, v, ip)
  {
    ReachableInv(s);
    assert AddressOk(s, ip);
    forall v ensures Primary(s, v, ip) == OwnsIp(s, v, ip) {
    }
  }

  /** Every NORMAL VM sits on a host of the group its address belongs to, and every mounted PCI
      device on the host of its VM, in the middle of other operations as well. */
  lemma PlacementIsCoherent(s: State, v: nat, dev: nat)
    requires Reachable(s)
    ensures v in s.vms && s.vms[v].status == Normal
        ==> IsNormal(s, v) && SameGroup(s, s.vms[v].ip.value, s.vms[v].host.value)
    ensures dev in s.devices && s.devices[dev].vm == Some(v)
        ==> IsNormal(s, v) && s.vms[v].host == Some(s.devices[dev].host)
  {
    ReachableInv(s);
    assert RowOk(s, v) && DeviceOk(s, dev);
  }

  /** With nothing in flight and no source left behind, the counters of every host are what a
      count over the NORMAL rows gives. */
  lemma CountersAtRest(s: State, h: nat)
    requires Reachable(s) && h in s.hosts && s.ops == map[]
    requires forall t | t in s.tasks :: s.tasks[t].status in {Complete, Failed, Dropped}
                                       && s.tasks[t].worker == Resting
                                       && (s.tasks[t].status == Complete ==> s.tasks[t].srcUncounted)
    ensures s.hosts[h].vcpu == RowLoad(s, h, Vcpu) && s.hosts[h].mem == RowLoad(s, h, Mem)
    ensures s.hosts[h].vmCreated == RowLoad(s, h, Count)
  {
    ReachableInv(s);
    forall t | t in s.tasks
      ensures s.tasks[t].dst == h ==> s.tasks[t].dstTaken || s.tasks[t].dstCounted
      ensures s.tasks[t].src == h && s.tasks[t].switched ==> s.tasks[t].srcTaken && s.tasks[t].srcUncounted
    {
      assert TaskOk(s, t);
    }
    QuietRecount(s, h);
    assert Recounted(s, h).hosts[h] == s.hosts[h];
  }
}
