/** The database steps of every operation, as a transition system. Each step is one commit; steps
    that concern different VMs may interleave in any order. One request at a time works on a VM. No
    request looks at the migration tasks of its VM, except one that starts a live migration. */
module Protocol {
  import opened Tables

  datatype State = State(hosts: map<nat, Host>, vlans: map<nat, Vlan>, ips: map<nat, Ip>,
                         vms: map<nat, Vm>, ops: map<nat, Op>, tasks: map<nat, Task>,
                         attached: map<nat, Attachment>, devices: map<nat, Device>)

  datatype Label =
    // creating and unshelving
    | BeginCreate(v: nat, ip: nat, vcpu: int, mem: int)
    | BeginUnshelve(v: nat, ip: nat)
    | ClaimHost(v: nat, h: nat)
    | SaveRow(v: nat)
    | DropRow(v: nat)
    | CountVm(v: nat)
    // deleting and shelving
    | DeleteRow(v: nat)
    | BeginShelve(v: nat)
    | ShelveRow(v: nat)
    | UncountVm(v: nat)
    // giving back, shared by all four
    | ReleaseIp(v: nat)
    | ReleaseHost(v: nat)
    | EndOp(v: nat)
    // resizing
    | Resize(v: nat, vcpu: int, mem: int)
    // migrating
    | ClaimDst(t: nat, v: nat, dst: nat, tag: Tag)
    | SaveTask(t: nat)
    | HandOver(t: nat)
    | DropFree(t: nat)
    | DropMark(t: nat)
    | PickUp(t: nat)
    | FailFree(t: nat)
    | FailMark(t: nat)
    | SwitchHost(t: nat)
    | CountDst(t: nat)
    | MarkTodo(t: nat)
    | SaveLog(t: nat)
    | UncountSrc(t: nat)
    | FreeSrc(t: nat)
    | MarkSrc(t: nat)
    | FinishTask(t: nat, todo: bool)
    | CleanFree(t: nat)
    | CleanMark(t: nat)
    | CleanDone(t: nat)
    | Crash(t: nat)
    // further addresses and PCI devices
    | ReserveAttach(v: nat, ip: nat)
    | SaveAttach(ip: nat)
    | FreeAttach(ip: nat)
    | DropAttach(ip: nat)
    | MountDevice(v: nat, dev: nat)
    | UmountDevice(dev: nat)

  /** The task that a step is about, if any. */
  function TaskOf(l: Label): Option<nat> {
    match l
    case ClaimDst(t, _, _, _) => Some(t)
    case SaveTask(t) => Some(t)
    case HandOver(t) => Some(t)
    case DropFree(t) => Some(t)
    case DropMark(t) => Some(t)
    case PickUp(t) => Some(t)
    case FailFree(t) => Some(t)
    case FailMark(t) => Some(t)
    case SwitchHost(t) => Some(t)
    case CountDst(t) => Some(t)
    case MarkTodo(t) => Some(t)
    case SaveLog(t) => Some(t)
    case UncountSrc(t) => Some(t)
    case FreeSrc(t) => Some(t)
    case MarkSrc(t) => Some(t)
    case FinishTask(t, _) => Some(t)
    case CleanFree(t) => Some(t)
    case CleanMark(t) => Some(t)
    case CleanDone(t) => Some(t)
    case Crash(t) => Some(t)
    case _ => None
  }

  predicate OfAddressOrDevice(l: Label) {
    l.ReserveAttach? || l.SaveAttach? || l.FreeAttach? || l.DropAttach? || l.MountDevice? || l.UmountDevice?
  }

  predicate IsNormal(s: State, v: nat) {
    v in s.vms && s.vms[v].status == Normal && s.vms[v].host.Some? && s.vms[v].ip.Some?
  }

  /** A task of VM `v` may still move it. */
  predicate Expected(s: State, v: nat) {
    exists t | t in s.tasks :: s.tasks[t].vm == v && s.tasks[t].Expecting()
  }

  /** A thread is at work on moving VM `v`. */
  predicate BeingMoved(s: State, v: nat) {
    exists t | t in s.tasks :: s.tasks[t].vm == v && s.tasks[t].Expecting() && s.tasks[t].status == InProcess
  }

  /** A task of VM `v` may still release something at the size in its row. */
  predicate IsMeasured(s: State, v: nat) {
    exists t | t in s.tasks :: s.tasks[t].vm == v && s.tasks[t].Measured()
  }

  predicate HasTask(s: State, v: nat) { exists t | t in s.tasks :: s.tasks[t].vm == v }

  predicate NoAttachment(s: State, v: nat) {
    forall ip | ip in s.attached :: s.attached[ip].vm != v
  }

  predicate NoDevice(s: State, v: nat) {
    forall dev | dev in s.devices :: s.devices[dev].vm != Some(v)
  }

  predicate SameGroup(s: State, ip: nat, h: nat) {
    && ip in s.ips && s.ips[ip].vlan in s.vlans && h in s.hosts
    && s.vlans[s.ips[ip].vlan].group == s.hosts[h].group
  }

  function WithOp(s: State, v: nat, op: Op): State { s.(ops := s.ops[v := op]) }
  function WithTask(s: State, t: nat, task: Task): State { s.(tasks := s.tasks[t := task]) }
  function WithIp(s: State, ip: nat, used: bool): State
    requires ip in s.ips
  {
    s.(ips := s.ips[ip := s.ips[ip].(used := used)])
  }
  function WithHost(s: State, h: nat, row: Host): State { s.(hosts := s.hosts[h := row]) }

  /** A release whose guard fails leaves the row as it is; the callers only log that. */
  function Released(s: State, h: nat, vcpu: int, mem: int): State
    requires h in s.hosts
  {
    var r := s.hosts[h].Free(vcpu, mem);
    if r.Some? then WithHost(s, h, r.value) else s
  }

  function Counted(s: State, h: nat, n: int): State
    requires h in s.hosts
  {
    WithHost(s, h, s.hosts[h].CountBy(n))
  }

  // ---------- creating and unshelving ----------

  /** The id of a new VM is new. */
  function BeginCreateStep(s: State, v: nat, ip: nat, vcpu: int, mem: int): Option<State> {
    if v in s.vms || v in s.ops || HasTask(s, v) || ip !in s.ips || !s.ips[ip].CanUsed() || vcpu <= 0 || mem <= 0 then
        None
    else Some(WithOp(WithIp(s, ip, true), v, Op(Creating, vcpu, mem, 0, false, false, ip, true, false)))
  }

  function BeginUnshelveStep(s: State, v: nat, ip: nat): Option<State> {
    if v !in s.vms || s.vms[v].status != Shelved || v in s.ops || ip !in s.ips || !s.ips[ip].CanUsed() then None
    else
      var row := s.vms[v];
      Some(WithOp(WithIp(s, ip, true), v, Op(Unshelving, row.vcpu, row.mem, 0, false, false, ip, true, false)))
  }

  predicate IsStarting(s: State, v: nat) {
    v in s.ops && (s.ops[v].kind == Creating || s.ops[v].kind == Unshelving)
  }

  function ClaimHostStep(s: State, v: nat, h: nat): Option<State> {
    if !IsStarting(s, v) || s.ops[v].charged || s.ops[v].saved || !s.ops[v].ipHeld || !SameGroup(s, s.ops[v].ip, h)
    then None
    else
      var op := s.ops[v];
      match s.hosts[h].ClaimIfMeets(op.vcpu, op.mem)
      case None => None
      case Some(row) => Some(WithOp(WithHost(s, h, row), v, op.(host := h, charged := true)))
  }

  function SaveRowStep(s: State, v: nat): Option<State> {
    if !IsStarting(s, v) || !s.ops[v].charged || !s.ops[v].ipHeld || s.ops[v].saved then None
    else
      var op := s.ops[v];
      var lastIp := if v in s.vms then s.vms[v].lastIp else None;
      Some(WithOp(s, v, op.(saved := true)).(
             vms := s.vms[v := Vm(Normal, Some(op.host), Some(op.ip), lastIp, op.vcpu, op.mem)]))
  }

  function DropRowStep(s: State, v: nat): Option<State> {
    if !IsStarting(s, v) || !s.ops[v].saved then None
    else
      var s1 := WithOp(s, v, s.ops[v].(saved := false));
      if s.ops[v].kind == Creating then Some(s1.(vms := s.vms - {v}))
      else if v !in s.vms then None
      else Some(s1.(vms := s.vms[v := s.vms[v].(status := Shelved, host := None, ip := None)]))
  }

  /** The counter is raised and the operation is over: the stored row carries the charge. */
  function CountVmStep(s: State, v: nat): Option<State> {
    if !IsStarting(s, v) || !s.ops[v].saved || s.ops[v].host !in s.hosts then None
    else Some(Counted(s, s.ops[v].host, 1).(ops := s.ops - {v}))
  }

  // ---------- deleting and shelving ----------

  function Detached(devices: map<nat, Device>, v: nat): map<nat, Device> {
    map dev | dev in devices :: if devices[dev].vm == Some(v) then devices[dev].(vm := None) else devices[dev]
  }

  function DeleteRowStep(s: State, v: nat): Option<State> {
    if !IsNormal(s, v) || v in s.ops || !NoAttachment(s, v) then None
    else
      var row := s.vms[v];
      var op := Op(Deleting, row.vcpu, row.mem, row.host.value, true, true, row.ip.value, true, false);
      Some(WithOp(s, v, op).(vms := s.vms - {v}, devices := Detached(s.devices, v)))
  }

  function BeginShelveStep(s: State, v: nat): Option<State> {
    if !IsNormal(s, v) || v in s.ops || !NoAttachment(s, v) || !NoDevice(s, v) then None
    else
      var row := s.vms[v];
      Some(WithOp(s, v, Op(Shelving, row.vcpu, row.mem, row.host.value, true, true, row.ip.value, true, false)))
  }

  predicate HoldsNothing(op: Op) { !op.charged && !op.counted && !op.ipHeld && !op.saved }

  function ShelveRowStep(s: State, v: nat): Option<State> {
    if v !in s.ops || s.ops[v].kind != Shelving || !HoldsNothing(s.ops[v]) || v !in s.vms then None
    else
      var row := s.vms[v].(status := Shelved, host := None, ip := None, lastIp := Some(s.ops[v].ip));
      Some(s.(vms := s.vms[v := row], ops := s.ops - {v}))
  }

  function UncountVmStep(s: State, v: nat): Option<State> {
    if v !in s.ops || !s.ops[v].counted || s.ops[v].host !in s.hosts then None
    else Some(WithOp(Counted(s, s.ops[v].host, -1), v, s.ops[v].(counted := false)))
  }

  // ---------- giving back ----------

  function ReleaseIpStep(s: State, v: nat): Option<State> {
    if v !in s.ops || s.ops[v].saved || !s.ops[v].ipHeld || s.ops[v].ip !in s.ips then None
    else Some(WithOp(WithIp(s, s.ops[v].ip, false), v, s.ops[v].(ipHeld := false)))
  }

  function ReleaseHostStep(s: State, v: nat): Option<State> {
    if v !in s.ops || s.ops[v].saved || !s.ops[v].charged || s.ops[v].host !in s.hosts then None
    else
      var op := s.ops[v];
      Some(WithOp(Released(s, op.host, op.vcpu, op.mem), v, op.(charged := false)))
  }

  function EndOpStep(s: State, v: nat): Option<State> {
    if v !in s.ops || s.ops[v].kind == Shelving || !HoldsNothing(s.ops[v]) then None
    else Some(s.(ops := s.ops - {v}))
  }

  // ---------- resizing ----------

  /** Zero means "leave as it is". */
  function ResizeStep(s: State, v: nat, vcpu: int, mem: int): Option<State> {
    if !IsNormal(s, v) || v in s.ops || vcpu < 0 || mem < 0 || s.vms[v].host.value !in s.hosts then None
    else
      var row := s.vms[v];
      var dv := if vcpu > 0 then vcpu - row.vcpu else 0;
      var dm := if mem > 0 then mem - row.mem else 0;
      var r := s.hosts[row.host.value].DeductDelta(dv, dm);
      if r.None? then None
      else Some(WithHost(s, row.host.value, r.value).(
                  vms := s.vms[v := row.(vcpu := row.vcpu + dv, mem := row.mem + dm)]))
  }

  // ---------- migrating ----------

  function ClaimDstStep(s: State, t: nat, v: nat, dst: nat, tag: Tag): Option<State> {
    if t in s.tasks || !IsNormal(s, v) || v in s.ops || !NoAttachment(s, v) || !NoDevice(s, v)
       || dst !in s.hosts || s.vms[v].host.value !in s.hosts || dst == s.vms[v].host.value
       || s.hosts[dst].group != s.hosts[s.vms[v].host.value].group
    then None
    else
      var row := s.vms[v];
      match s.hosts[dst].ClaimIfMeets(row.vcpu, row.mem)
      case None => None
      case Some(r) =>
        Some(WithTask(WithHost(s, dst, r), t, NewTask(v, row.host.value, dst, tag, row.vcpu, row.mem)))
  }

  // ---------- steps of a task ----------

  /** The step comes next for the task, as far as the task itself tells. */
  predicate Ready(task: Task, l: Label) {
    match l
    case SaveTask(_) => task.tag == Live && task.status == Draft && task.worker == Running
    case HandOver(_) => task.status == Waiting && task.worker == Running
    case DropFree(_) => !task.switched && task.worker == Running && (task.status == Draft || task.status == Waiting)
    case DropMark(_) => task.worker == Dropping
    case PickUp(_) => task.status == Waiting
    case FailFree(_) =>
      !task.switched && ((task.status == Waiting && !task.worker.Active())
                         || (task.status == InProcess && task.worker == Running))
    case FailMark(_) => task.worker.Failing?
    case SwitchHost(_) => task.worker == Running && !task.switched && task.status == Unmoved(task)
    case CountDst(_) => task.worker == Running && task.switched && !task.dstCounted
    case MarkTodo(_) => task.worker == Running && task.tag == Live && task.dstCounted && task.status == InProcess
    case SaveLog(_) => task.worker == Running && task.tag == Static && task.dstCounted && task.status == Draft
    case UncountSrc(_) =>
      task.worker == Running && !task.srcUncounted && !task.freeTried && task.status == MovedOn(task)
    case FreeSrc(_) =>
      && task.worker == Running && !task.freeTried && task.status == MovedOn(task)
      && (task.tag == Live ==> task.srcUncounted)
    case MarkSrc(_) => task.worker == Marking && task.tag == Live
    case FinishTask(_, todo) =>
      task.freeTried && (if task.tag == Live then task.worker == Running && !todo
                         else task.worker == Marking || (task.worker == Running && todo))
    case CleanFree(_) => task.status == SomeTodo && !task.worker.Active() && !task.srcFree
    case CleanMark(_) => task.worker.Cleaning?
    case CleanDone(_) => task.status == SomeTodo && !task.worker.Active() && task.srcFree && task.srcUndefined
    case Crash(_) => task.worker.Active()
    case _ => false
  }

  function Unmoved(task: Task): TaskStatus { if task.tag == Live then InProcess else Draft }
  function MovedOn(task: Task): TaskStatus { if task.tag == Live then SomeTodo else Complete }

  /** The step reads the VM row again, or stores a task row that refers to it. */
  predicate NeedsRow(task: Task, l: Label) {
    || l.SaveTask? || l.CleanFree? || l.CleanDone? || (l.FailFree? && task.status == Waiting)
    || (l.SwitchHost? && task.tag == Static)
  }

  /** The host whose counters the step touches. */
  function HostOf(task: Task, l: Label): Option<nat> {
    if l.DropFree? || l.FailFree? || l.CountDst? then Some(task.dst)
    else if l.FreeSrc? || l.UncountSrc? || l.CleanFree? then Some(task.src)
    else None
  }

  /** A release by a later request takes the size from the VM row, one by the thread, or by the
      request that made the task, from the VM object that was loaded before. */
  predicate ReadsRow(task: Task, l: Label) { l.CleanFree? || (l.FailFree? && task.status == Waiting) }

  predicate Releases(l: Label) { l.DropFree? || l.FailFree? || l.FreeSrc? || l.CleanFree? }

  /** What the step makes of the row of the host it touches; `None` where the release is refused. */
  function Touched(row: Host, task: Task, l: Label, vm: Option<Vm>): Option<Host> {
    if l.CountDst? then Some(row.CountBy(1))
    else if l.UncountSrc? then Some(row.CountBy(-1))
    else if ReadsRow(task, l) && vm.Some? then row.Free(vm.value.vcpu, vm.value.mem)
    else row.Free(task.knownVcpu, task.knownMem)
  }

  /** What the step makes of the task; `freed` is what a release returned, `vm` the row of the VM.
      The static log is first stored with the default status, which is COMPLETE. A live task ends
      COMPLETE whatever happened; a static one ends SOME_TODO when anything was logged, which a
      failed release always is, and records the release only then. */
  function After(task: Task, l: Label, freed: bool, vm: Option<Vm>): Task {
    match l
    case SaveTask(_) => task.(status := Waiting)
    case HandOver(_) => task.(worker := Resting)
    case DropFree(_) => task.(worker := Dropping, dstTaken := task.dstTaken || freed)
    case DropMark(_) => task.(status := Dropped, worker := Resting, dstClaim := false)
    case PickUp(_) =>
      if vm.None? then task.(status := InProcess, worker := Crashed)
      else task.(status := InProcess, worker := Running, knownVcpu := vm.value.vcpu, knownMem := vm.value.mem)
    case FailFree(_) => task.(worker := Failing(freed), dstTaken := task.dstTaken || freed)
    case FailMark(_) =>
      task.(status := Failed, worker := Resting,
            dstClaim := task.dstClaim && !(task.worker.Failing? && task.worker.freed))
    case SwitchHost(_) => task.(switched := true)
    case CountDst(_) => task.(dstCounted := true)
    case MarkTodo(_) => task.(srcUndefined := true, status := SomeTodo)
    case SaveLog(_) => task.(status := Complete)
    case UncountSrc(_) => task.(srcUndefined := true, srcUncounted := true)
    case FreeSrc(_) =>
      task.(freeTried := true, srcTaken := task.srcTaken || freed, worker := if freed then Marking else Running)
    case MarkSrc(_) => task.(srcFree := true, worker := Running)
    case FinishTask(_, todo) =>
      task.(status := if todo then SomeTodo else Complete, worker := Resting,
            srcFree := task.srcFree || task.worker == Marking)
    case CleanFree(_) => task.(worker := Cleaning(freed), srcTaken := task.srcTaken || freed)
    case CleanMark(_) =>
      task.(worker := Resting, srcFree := task.srcFree || (task.worker.Cleaning? && task.worker.freed))
    case CleanDone(_) => task.(status := Complete, worker := Resting)
    case Crash(_) => task.(worker := Crashed)
    case _ => task
  }

  /** The row of VM `v`, if there is one. */
  function RowOf(s: State, v: nat): Option<Vm> { if v in s.vms then Some(s.vms[v]) else None }

  /** The host lets the step through: a release is refused only above the total. */
  predicate LetsThrough(s: State, l: Label, t: nat)
    requires t in s.tasks
  {
    var task := s.tasks[t];
    HostOf(task, l).Some? && HostOf(task, l).value in s.hosts
    && Touched(s.hosts[HostOf(task, l).value], task, l, RowOf(s, task.vm)).Some?
  }

  function HostsAfter(s: State, l: Label, t: nat): map<nat, Host>
    requires t in s.tasks
  {
    var task := s.tasks[t];
    if LetsThrough(s, l, t) then
      var h := HostOf(task, l).value;
      s.hosts[h := Touched(s.hosts[h], task, l, RowOf(s, task.vm)).value]
    else s.hosts
  }

  /** The thread does not notice that the VM row is gone: storing the new host then fails, which is
      only logged. */
  function VmsAfter(s: State, l: Label, t: nat): map<nat, Vm>
    requires t in s.tasks
  {
    var task := s.tasks[t];
    if l.SwitchHost? && task.vm in s.vms then s.vms[task.vm := s.vms[task.vm].(host := Some(task.dst))] else s.vms
  }

  function TaskAfter(s: State, l: Label, t: nat): Task
    requires t in s.tasks
  {
    After(s.tasks[t], l, LetsThrough(s, l, t), RowOf(s, s.tasks[t].vm))
  }

  /** A step of task `t`. */
  function TaskNext(s: State, l: Label, t: nat): Option<State> {
    if t !in s.tasks || !Ready(s.tasks[t], l) || (NeedsRow(s.tasks[t], l) && s.tasks[t].vm !in s.vms)
       || (HostOf(s.tasks[t], l).Some? && HostOf(s.tasks[t], l).value !in s.hosts)
    then None
    else Some(s.(hosts := HostsAfter(s, l, t), vms := VmsAfter(s, l, t), tasks := s.tasks[t := TaskAfter(s, l, t)]))
  }

  // ---------- further addresses and PCI devices ----------

  function ReserveAttachStep(s: State, v: nat, ip: nat): Option<State> {
    if !IsNormal(s, v) || v in s.ops || ip !in s.ips || ip in s.attached || !s.ips[ip].CanUsed() then None
    else Some(WithIp(s, ip, true).(attached := s.attached[ip := Attachment(v, Reserved)]))
  }

  function SaveAttachStep(s: State, ip: nat): Option<State> {
    if ip !in s.attached || s.attached[ip].stage != Reserved then None
    else Some(s.(attached := s.attached[ip := s.attached[ip].(stage := Stored)]))
  }

  function FreeAttachStep(s: State, ip: nat): Option<State> {
    if ip !in s.attached || s.attached[ip].stage != Stored || ip !in s.ips then None
    else Some(WithIp(s, ip, false).(attached := s.attached[ip := s.attached[ip].(stage := Closing)]))
  }

  function DropAttachStep(s: State, ip: nat): Option<State> {
    if ip !in s.attached || s.attached[ip].stage != Closing then None
    else Some(s.(attached := s.attached - {ip}))
  }

  function MountDeviceStep(s: State, v: nat, dev: nat): Option<State> {
    if !IsNormal(s, v) || v in s.ops || dev !in s.devices || !s.devices[dev].enabled
       || s.devices[dev].kind == Unknown || s.devices[dev].vm.Some? || s.vms[v].host != Some(s.devices[dev].host)
    then None
    else Some(s.(devices := s.devices[dev := s.devices[dev].(vm := Some(v))]))
  }

  function UmountDeviceStep(s: State, dev: nat): Option<State> {
    if dev !in s.devices then None
    else Some(s.(devices := s.devices[dev := s.devices[dev].(vm := None)]))
  }

  /** The state after step `l`, or `None` where the step cannot happen. */
  function Next(s: State, l: Label): Option<State> {
    match l
    case BeginCreate(v, ip, vcpu, mem) => BeginCreateStep(s, v, ip, vcpu, mem)
    case BeginUnshelve(v, ip) => BeginUnshelveStep(s, v, ip)
    case ClaimHost(v, h) => ClaimHostStep(s, v, h)
    case SaveRow(v) => SaveRowStep(s, v)
    case DropRow(v) => DropRowStep(s, v)
    case CountVm(v) => CountVmStep(s, v)
    case DeleteRow(v) => DeleteRowStep(s, v)
    case BeginShelve(v) => BeginShelveStep(s, v)
    case ShelveRow(v) => ShelveRowStep(s, v)
    case UncountVm(v) => UncountVmStep(s, v)
    case ReleaseIp(v) => ReleaseIpStep(s, v)
    case ReleaseHost(v) => ReleaseHostStep(s, v)
    case EndOp(v) => EndOpStep(s, v)
    case Resize(v, vcpu, mem) => ResizeStep(s, v, vcpu, mem)
    case ClaimDst(t, v, dst, tag) => ClaimDstStep(s, t, v, dst, tag)
    case ReserveAttach(v, ip) => ReserveAttachStep(s, v, ip)
    case SaveAttach(ip) => SaveAttachStep(s, ip)
    case FreeAttach(ip) => FreeAttachStep(s, ip)
    case DropAttach(ip) => DropAttachStep(s, ip)
    case MountDevice(v, dev) => MountDeviceStep(s, v, dev)
    case UmountDevice(dev) => UmountDeviceStep(s, dev)
    case _ => if TaskOf(l).Some? then TaskNext(s, l, TaskOf(l).value) else None
  }

  /** A run of steps; `None` where one of them cannot happen. */
  function Exec(s: State, ls: seq<Label>): Option<State>
    decreases |ls|
  {
    if ls == [] then Some(s)
    else
      var r := Exec(s, ls[..|ls| - 1]);
      if r.None? then None else Next(r.value, ls[|ls| - 1])
  }

  /** Start of a run: no VM, operation or task; all counters zero and all addresses free. */
  ghost predicate Initial(s: State) {
    && s.vms == map[] && s.ops == map[] && s.tasks == map[] && s.attached == map[]
    && (forall h | h in s.hosts :: s.hosts[h].vcpu == 0 && s.hosts[h].mem == 0 && s.hosts[h].vmCreated == 0
                                   && s.hosts[h].vcpuTotal >= 0 && s.hosts[h].memTotal >= 0)
    && (forall ip | ip in s.ips :: !s.ips[ip].used && s.ips[ip].vlan in s.vlans)
    && (forall dev | dev in s.devices :: s.devices[dev].vm.None? && s.devices[dev].host in s.hosts)
  }

  /** The step uses or gives back once more what was already given back for its task. */
  predicate Repeats(s: State, l: Label) {
    match l
    case FailFree(t) => t in s.tasks && s.tasks[t].dstTaken
    case SwitchHost(t) => t in s.tasks && s.tasks[t].dstTaken
    case CleanFree(t) => t in s.tasks && s.tasks[t].srcTaken
    case _ => false
  }

  /** The step takes away, resizes or ties down a VM that a migration counts on. Nothing in the
      code prevents it. */
  predicate Careless(s: State, l: Label) {
    match l
    case DeleteRow(v) => BeingMoved(s, v)
    case BeginShelve(v) => Expected(s, v)
    case ClaimDst(_, v, _, _) => Expected(s, v)
    case MountDevice(v, _) => Expected(s, v)
    case Resize(v, vcpu, mem) => IsMeasured(s, v) && v in s.vms && !SameSize(s.vms[v], vcpu, mem)
    case _ => false
  }

  /** Zero means "leave as it is". */
  predicate SameSize(row: Vm, vcpu: int, mem: int) {
    (vcpu <= 0 || vcpu == row.vcpu) && (mem <= 0 || mem == row.mem)
  }

  predicate Harmful(s: State, l: Label) { Repeats(s, l) || Careless(s, l) }

  /** No step of the run is harmful. */
  predicate Harmless(s: State, ls: seq<Label>)
    decreases |ls|
  {
    ls == [] || (Harmless(s, ls[..|ls| - 1]) && Exec(s, ls[..|ls| - 1]).Some?
                 && !Harmful(Exec(s, ls[..|ls| - 1]).value, ls[|ls| - 1]))
  }

  ghost predicate Reachable(s: State) {
    exists s0, ls :: Initial(s0) && Exec(s0, ls) == Some(s) && Harmless(s0, ls)
  }
}
