/** Rows of the database tables, and the arithmetic of one host row. */
module Tables {

  datatype Option<+T> = None | Some(value: T)

  /** Result of an operation that may raise; the message text is not modelled. */
  datatype Result<+T> = Ok(value: T) | Raised

  /** The three counters of a host row. */
  datatype Dim = Vcpu | Mem | Count

  /** A host row. `vcpu` and `mem` are the allocated amounts. */
  datatype Host = Host(group: nat, enabled: bool,
                       vcpuTotal: int, vcpu: int,
                       memTotal: int, mem: int,
                       vmLimit: int, vmCreated: int)
  {
    predicate WithinTotals() {
      0 <= vcpu <= vcpuTotal && 0 <= mem <= memTotal
    }

    predicate MeetNeeds(needVcpu: int, needMem: int, checkVmLimit: bool := true) {
      && !(checkVmLimit && vmCreated >= vmLimit)
      && needVcpu <= vcpuTotal - vcpu
      && needMem <= memTotal - mem
    }

    /** The guarded update: a resource whose delta is zero is neither tested nor changed. */
    function DeductDelta(vcpuDelta: int, memDelta: int): Option<Host> {
      if vcpuDelta == 0 && memDelta == 0 then Some(this)
      else if vcpuDelta != 0 && vcpuTotal < vcpu + vcpuDelta then None
      else if memDelta != 0 && memTotal < mem + memDelta then None
      else Some(this.(vcpu := vcpu + vcpuDelta, mem := mem + memDelta))
    }

    function Claim(needVcpu: int, needMem: int): Option<Host> {
      if needVcpu <= 0 && needMem <= 0 then Some(this)
      else DeductDelta(if needVcpu > 0 then needVcpu else 0, if needMem > 0 then needMem else 0)
    }

    function Free(freeVcpu: int, freeMem: int): Option<Host> {
      if freeVcpu <= 0 && freeMem <= 0 then Some(this)
      else DeductDelta(if freeVcpu > 0 then -freeVcpu else 0, if freeMem > 0 then -freeMem else 0)
    }

    /** The locked test-then-claim transaction. */
    function ClaimIfMeets(needVcpu: int, needMem: int): Option<Host> {
      if MeetNeeds(needVcpu, needMem) then Claim(needVcpu, needMem) else None
    }

    function CountBy(n: int): Host {
      this.(vmCreated := vmCreated + n)
    }
  }

  datatype Vlan = Vlan(group: nat, public: bool, enabled: bool)

  datatype Ip = Ip(vlan: nat, enabled: bool, used: bool)
  {
    predicate CanUsed() { !used && enabled }
  }

  datatype VmStatus = Normal | Shelved

  datatype Vm = Vm(status: VmStatus, host: Option<nat>, ip: Option<nat>, lastIp: Option<nat>,
                   vcpu: int, mem: int)

  datatype DeviceKind = Gpu | NetworkCard | PhysicalDisk | LocalDisk | Unknown

  datatype Device = Device(host: nat, enabled: bool, kind: DeviceKind, vm: Option<nat>)

  /** `Reserved`: address taken, row not yet stored. `Closing`: address freed, row not yet deleted. */
  datatype AttachStage = Reserved | Stored | Closing
  datatype Attachment = Attachment(vm: nat, stage: AttachStage)

  datatype Tag = Live | Static

  /** `Draft` is a task object not yet stored; `Dropped` is one whose row was deleted again. */
  datatype TaskStatus = Draft | Waiting | InProcess | SomeTodo | Complete | Failed | Dropped

  /** What the thread or request that works on a task is doing. A release and the record of it are
      two commits, so there is a state of its own between the two; `freed` is what the release
      returned. */
  datatype Worker =
    | Resting
    | Running
    | Dropping
    | Failing(freed: bool)
    | Marking
    | Cleaning(freed: bool)
    | Crashed
  {
    predicate Active() { this != Resting && this != Crashed }
  }

  /** A migration task. `dstClaim`, `srcUndefined`, `srcFree` and `status` are stored. `dstTaken`
      and `srcTaken` say what was really given back to the destination and to the source, whether
      or not that was recorded. `vcpu` and `mem` remember what was claimed on the destination,
      `knownVcpu` and `knownMem` are the size in the VM object that the thread has loaded. The
      others say how far that thread has come. */
  datatype Task = Task(vm: nat, src: nat, dst: nat, tag: Tag, vcpu: int, mem: int, knownVcpu: int, knownMem: int,
                       status: TaskStatus, worker: Worker,
                       dstClaim: bool, dstTaken: bool, switched: bool, dstCounted: bool,
                       srcUndefined: bool, srcUncounted: bool, freeTried: bool, srcTaken: bool, srcFree: bool)
  {
    /** The task still holds its claim, and may move the VM. */
    predicate Expecting() { !switched && !dstTaken && (worker == Running || status == Waiting) }

    /** A later step may release something at the size that is then in the VM row. */
    predicate Measured() {
      Expecting() || (tag == Live && switched && !srcTaken && (worker == Running || status == SomeTodo))
    }

    /** Something was given back, the record of it is not stored yet, and whoever reads the
        stored row will give it back again. */
    predicate InWindow() {
      || (status == Waiting && (worker == Dropping || worker.Failing?))
      || (status == SomeTodo && (worker == Marking || worker.Cleaning?))
    }
  }

  /** The task object of a migration that has just claimed its destination. */
  function NewTask(v: nat, src: nat, dst: nat, tag: Tag, vcpu: int, mem: int): Task {
    Task(v, src, dst, tag, vcpu, mem, vcpu, mem, Draft, Running,
         true, false, false, false, false, false, false, false, false)
  }

  datatype OpKind = Creating | Unshelving | Deleting | Shelving

  /** An operation in flight on one VM: what its request thread has taken and not yet handed
      over to a stored row or given back. */
  datatype Op = Op(kind: OpKind, vcpu: int, mem: int,
                   host: nat, charged: bool, counted: bool,
                   ip: nat, ipHeld: bool, saved: bool)

  // ---------- host arithmetic ----------

  /** A claim that succeeds adds exactly the request and stays inside the totals. */
  lemma ClaimIfMeetsIsExact(r: Host, v: int, m: int)
    requires v > 0 && m > 0 && r.WithinTotals()
    ensures r.ClaimIfMeets(v, m).Some? <==>
              r.vmCreated < r.vmLimit && r.vcpu + v <= r.vcpuTotal && r.mem + m <= r.memTotal
    ensures r.ClaimIfMeets(v, m).Some? ==>
              && r.ClaimIfMeets(v, m).value == r.(vcpu := r.vcpu + v, mem := r.mem + m)
              && r.ClaimIfMeets(v, m).value.WithinTotals()
  {
  }

  /** The two guards on their own: the VM limit counts only where it is asked for, and the update tests
      just the resources that it changes. */
  lemma GuardsOnFields(r: Host, v: int, m: int, checkVmLimit: bool)
    ensures r.MeetNeeds(v, m, checkVmLimit)
      <==> (checkVmLimit ==> r.vmCreated < r.vmLimit) && r.vcpu + v <= r.vcpuTotal && r.mem + m <= r.memTotal
    ensures r.DeductDelta(v, m).Some?
      <==> (v != 0 ==> r.vcpu + v <= r.vcpuTotal) && (m != 0 ==> r.mem + m <= r.memTotal)
    ensures r.DeductDelta(v, m).Some? ==> r.DeductDelta(v, m).value == r.(vcpu := r.vcpu + v, mem := r.mem + m)
  {
  }

  /** The guard tests only the upper side, so a release fails exactly when the row is already
      above its total by more than the release; and it may leave the row negative. */
  lemma FreeOutcome(r: Host, v: int, m: int)
    requires v > 0 && m > 0
    ensures r.Free(v, m).None? <==> r.vcpu - v > r.vcpuTotal || r.mem - m > r.memTotal
    ensures r.Free(v, m).Some? ==> r.Free(v, m).value == r.(vcpu := r.vcpu - v, mem := r.mem - m)
  {
  }

  /** A deduction that succeeded is undone by the opposite one exactly when every resource it
      touched was within its total before. */
  lemma DeductThenUndo(r: Host, dv: int, dm: int)
    requires r.DeductDelta(dv, dm).Some?
    ensures r.DeductDelta(dv, dm).value.DeductDelta(-dv, -dm) ==
              if (dv != 0 && r.vcpu > r.vcpuTotal) || (dm != 0 && r.mem > r.memTotal) then None else Some(r)
  {
  }
}
