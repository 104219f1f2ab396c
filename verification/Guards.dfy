/** When a request can take its first step. */
module Guards {
  // The conditions of the steps that take something or begin an operation, on the fields of the rows: what
  // the code tests before it takes an address, a share of a host, a device or a whole VM.
  import opened Tables
  import opened Protocol
  import opened ProtocolInv

  /** A new VM needs a size and a free, enabled address. */
  lemma BeginCreateExactly(s: State, v: nat, ip: nat, vcpu: int, mem: int)
    ensures Next(s, BeginCreate(v, ip, vcpu, mem)).Some?
      <==> && v !in s.vms && v !in s.ops && (forall t | t in s.tasks :: s.tasks[t].vm != v) && vcpu > 0 && mem > 0
           && ip in s.ips && s.ips[ip].enabled && !s.ips[ip].used
    ensures var r := Next(s, BeginCreate(v, ip, vcpu, mem));
      r.Some? ==> && r.value.ips == s.ips[ip := s.ips[ip].(used := true)]
                  && r.value.hosts == s.hosts && r.value.vms == s.vms
  {
  }

  /** So does a shelved one, at the size in its row. */
  lemma BeginUnshelveExactly(s: State, v: nat, ip: nat)
    ensures Next(s, BeginUnshelve(v, ip)).Some?
      <==> && v in s.vms && s.vms[v].status == Shelved && v !in s.ops
           && ip in s.ips && s.ips[ip].enabled && !s.ips[ip].used
    ensures var r := Next(s, BeginUnshelve(v, ip));
      r.Some? ==> && r.value.ips == s.ips[ip := s.ips[ip].(used := true)] && v in r.value.ops
                  && r.value.ops[v].vcpu == s.vms[v].vcpu && r.value.ops[v].mem == s.vms[v].mem
  {
  }

  /** The request that starts a VM holds an address and nothing else yet; a host of the group of that
      address is claimed if and only if it is below its VM limit and has room in both resources. */
  lemma ClaimHostExactly(s: State, v: nat, h: nat)
    requires Inv(s)
    ensures Next(s, ClaimHost(v, h)).Some?
      <==> && v in s.ops && (s.ops[v].kind == Creating || s.ops[v].kind == Unshelving)
           && s.ops[v].ipHeld && !s.ops[v].charged && !s.ops[v].saved
           && s.ops[v].ip in s.ips && s.ips[s.ops[v].ip].vlan in s.vlans && h in s.hosts
           && s.vlans[s.ips[s.ops[v].ip].vlan].group == s.hosts[h].group
           && s.hosts[h].vmCreated < s.hosts[h].vmLimit
           && s.hosts[h].vcpu + s.ops[v].vcpu <= s.hosts[h].vcpuTotal
           && s.hosts[h].mem + s.ops[v].mem <= s.hosts[h].memTotal
    ensures var r := Next(s, ClaimHost(v, h));
      r.Some? ==> && r.value.ops[v] == s.ops[v].(host := h, charged := true)
                  && r.value.hosts == s.hosts[h := s.hosts[h].(vcpu := s.hosts[h].vcpu + s.ops[v].vcpu,
                                                              mem := s.hosts[h].mem + s.ops[v].mem)]
  {
    assert OpOk(s, v);
  }

  /** A VM without devices and further addresses may be moved to another host of its group, under the
      same three tests. */
  lemma ClaimDstExactly(s: State, t: nat, v: nat, dst: nat, tag: Tag)
    requires Inv(s)
    ensures Next(s, ClaimDst(t, v, dst, tag)).Some?
      <==> && t !in s.tasks && v in s.vms && s.vms[v].status == Normal && v !in s.ops
           && (forall ip | ip in s.attached :: s.attached[ip].vm != v)
           && (forall dev | dev in s.devices :: s.devices[dev].vm != Some(v))
           && dst in s.hosts && s.vms[v].host.Some? && s.vms[v].host.value in s.hosts && dst != s.vms[v].host.value
           && s.hosts[dst].group == s.hosts[s.vms[v].host.value].group
           && s.hosts[dst].vmCreated < s.hosts[dst].vmLimit
           && s.hosts[dst].vcpu + s.vms[v].vcpu <= s.hosts[dst].vcpuTotal
           && s.hosts[dst].mem + s.vms[v].mem <= s.hosts[dst].memTotal
    ensures var r := Next(s, ClaimDst(t, v, dst, tag));
      r.Some? ==> r.value.hosts == s.hosts[dst := s.hosts[dst].(vcpu := s.hosts[dst].vcpu + s.vms[v].vcpu,
                                                               mem := s.hosts[dst].mem + s.vms[v].mem)]
  {
    assert RowOk(s, v);
  }

  /** A NORMAL VM without further addresses can be deleted, and one that has no devices either can be
      shelved. */
  lemma LeavingExactly(s: State, v: nat)
    requires Inv(s)
    ensures Next(s, DeleteRow(v)).Some?
      <==> && v in s.vms && s.vms[v].status == Normal && v !in s.ops
           && (forall ip | ip in s.attached :: s.attached[ip].vm != v)
    ensures Next(s, BeginShelve(v)).Some?
      <==> && v in s.vms && s.vms[v].status == Normal && v !in s.ops
           && (forall ip | ip in s.attached :: s.attached[ip].vm != v)
           && (forall dev | dev in s.devices :: s.devices[dev].vm != Some(v))
  {
    assert RowOk(s, v);
  }

  /** What grows must have room; the VM limit plays no part. */
  lemma ResizeExactly(s: State, v: nat, vcpu: int, mem: int)
    requires Inv(s)
    ensures Next(s, Resize(v, vcpu, mem)).Some?
      <==> && v in s.vms && s.vms[v].status == Normal && v !in s.ops && vcpu >= 0 && mem >= 0
           && s.vms[v].host.Some? && s.vms[v].host.value in s.hosts
           && (vcpu > s.vms[v].vcpu ==> s.hosts[s.vms[v].host.value].vcpu + (vcpu - s.vms[v].vcpu)
                                        <= s.hosts[s.vms[v].host.value].vcpuTotal)
           && (mem > s.vms[v].mem ==> s.hosts[s.vms[v].host.value].mem + (mem - s.vms[v].mem)
                                      <= s.hosts[s.vms[v].host.value].memTotal)
  {
    assert RowOk(s, v);
    if v in s.vms && s.vms[v].host.Some? && s.vms[v].host.value in s.hosts {
      assert BookOk(s, s.vms[v].host.value);
    }
  }

  /** A further address must be free, enabled and without a row; a device free, enabled, of a known kind
      and on the host of the VM. */
  lemma FurtherExactly(s: State, v: nat, ip: nat, dev: nat)
    requires Inv(s)
    ensures Next(s, ReserveAttach(v, ip)).Some?
      <==> && v in s.vms && s.vms[v].status == Normal && v !in s.ops && ip !in s.attached
           && ip in s.ips && s.ips[ip].enabled && !s.ips[ip].used
    ensures Next(s, MountDevice(v, dev)).Some?
      <==> && v in s.vms && s.vms[v].status == Normal && v !in s.ops && dev in s.devices
           && s.devices[dev].enabled && s.devices[dev].kind != Unknown && s.devices[dev].vm.None?
           && s.vms[v].host == Some(s.devices[dev].host)
  {
    assert RowOk(s, v);
  }

  /** A thread looks at the status alone, and loads the VM as it is then, or dies; a request gives a claim
      back where a task waits and nobody is at work on it. */
  lemma OnWaitingExactly(s: State, t: nat)
    requires t in s.tasks && s.tasks[t].dst in s.hosts
    ensures Next(s, PickUp(t)).Some? <==> s.tasks[t].status == Waiting
    ensures var r, v := Next(s, PickUp(t)), s.tasks[t].vm;
      r.Some? ==> r.value == s.(tasks := s.tasks[t :=
        if v in s.vms then s.tasks[t].(status := InProcess, worker := Running,
                                       knownVcpu := s.vms[v].vcpu, knownMem := s.vms[v].mem)
        else s.tasks[t].(status := InProcess, worker := Crashed)])
    ensures s.tasks[t].status == Waiting && !s.tasks[t].switched ==>
              (Next(s, FailFree(t)).Some? <==> !s.tasks[t].worker.Active() && s.tasks[t].vm in s.vms)
  {
  }

  /** A request gives the source back, or closes what needs nothing more, where a task is left to do and
      nobody is at work on it. */
  lemma OnTodoExactly(s: State, t: nat)
    requires t in s.tasks && s.tasks[t].src in s.hosts
    ensures Next(s, CleanFree(t)).Some?
      <==> && s.tasks[t].status == SomeTodo && !s.tasks[t].worker.Active() && !s.tasks[t].srcFree
           && s.tasks[t].vm in s.vms
    ensures Next(s, CleanDone(t)).Some?
      <==> && s.tasks[t].status == SomeTodo && !s.tasks[t].worker.Active() && s.tasks[t].srcFree
           && s.tasks[t].srcUndefined && s.tasks[t].vm in s.vms
  {
  }

  /** What is stored after a release is what the release returned. */
  lemma MarkedExactly(s: State, t: nat, freed: bool)
    requires t in s.tasks
    ensures s.tasks[t].worker == Failing(freed) ==>
      Next(s, FailMark(t)) == Some(s.(tasks := s.tasks[t :=
        s.tasks[t].(status := Failed, worker := Resting, dstClaim := s.tasks[t].dstClaim && !freed)]))
    ensures s.tasks[t].worker == Cleaning(freed) ==>
      Next(s, CleanMark(t)) == Some(s.(tasks := s.tasks[t :=
        s.tasks[t].(worker := Resting, srcFree := s.tasks[t].srcFree || freed)]))
  {
  }

  /** Which tasks the other requests have to fear, on the fields. */
  lemma ExpectedOnFields(s: State, v: nat)
    ensures Expected(s, v)
      <==> exists t | t in s.tasks ::
             && s.tasks[t].vm == v && !s.tasks[t].switched && !s.tasks[t].dstTaken
             && (s.tasks[t].worker == Running || s.tasks[t].status == Waiting)
    ensures BeingMoved(s, v)
      <==> exists t | t in s.tasks ::
             && s.tasks[t].vm == v && !s.tasks[t].switched && !s.tasks[t].dstTaken
             && s.tasks[t].worker == Running && s.tasks[t].status == InProcess
    ensures IsMeasured(s, v)
      <==> exists t | t in s.tasks ::
             && s.tasks[t].vm == v
             && if !s.tasks[t].switched then
                  !s.tasks[t].dstTaken && (s.tasks[t].worker == Running || s.tasks[t].status == Waiting)
                else
                  && s.tasks[t].tag == Live && !s.tasks[t].srcTaken
                  && (s.tasks[t].worker == Running || s.tasks[t].status == SomeTodo)
  {
  }

  /** And the steps that do harm are these. */
  lemma HarmfulOnFields(s: State, l: Label)
    ensures Harmful(s, l)
      <==> || (TaskOf(l).Some? && TaskOf(l).value in s.tasks
               && (((l.FailFree? || l.SwitchHost?) && s.tasks[TaskOf(l).value].dstTaken)
                   || (l.CleanFree? && s.tasks[TaskOf(l).value].srcTaken)))
           || (l.DeleteRow? && BeingMoved(s, l.v))
           || ((l.BeginShelve? || l.ClaimDst? || l.MountDevice?) && Expected(s, l.v))
           || (l.Resize? && IsMeasured(s, l.v) && l.v in s.vms
               && ((l.vcpu > 0 && l.vcpu != s.vms[l.v].vcpu) || (l.mem > 0 && l.mem != s.vms[l.v].mem)))
  {
  }
}
