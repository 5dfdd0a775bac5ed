/** The whole system: both tables, the provider, every adapter call ever made, requests under way and a
    clock; and its steps: user requests, worker transactions, provider effects, losses and crashes. */
module Protocol {
  import opened Domain
  import opened Phases
  import opened Transitions
  import opened Tables

  // ---- the provider ----

  /** A resource at a VMID; `owner` is the portal VM whose name, pool and node it carries, if any. */
  datatype Machine = Machine(
    owner: Option<nat>, running: bool, cloning: bool, locked: bool, diskGb: int, config: Option<VmSpec>)

  datatype TaskState = Waiting | Applied | Ended | Aborted

  /** What became of one mutating adapter call. */
  datatype Progress =
    | Sent                                     // nothing has happened at the provider yet
    | Rejected                                 // a guard of the adapter raised; nothing was or will be sent
    | Answered(answer: CallResult)             // the adapter returned without sending a command
    | Instant                                  // the command was carried out and returned no task
    | Tasked(id: TaskId, state: TaskState)     // the provider accepted it as a task

  /** One mutating adapter call, with the target and the request its first transaction handed out.
      `attached`: its worker still waits to store the outcome. */
  datatype Call = Call(
    op: nat, cmd: Command, at: Placement, request: VmSpec, markedAt: Time, attached: bool, progress: Progress)

  /** What the provider did for a portal VM, in order. */
  datatype Milestone =
    | Cloned | Configured(spec: VmSpec) | Sized(gb: int) | Started | PoweredDown | Removed

  // ---- requests under way ----

  datatype Plan = Plan(maxVms: int, maxVcpus: int, maxMemoryMb: int, maxStorageGb: int)

  /** A request between its checks and its insert; the row lock it took is held while it is open. */
  datatype Draft =
    | OpenCreate(user: UserId, spec: VmSpec, key: string, uuid: Uuid)
    | OpenEnqueue(vm: nat, kind: Kind, key: string)
    | Closed

  datatype State = State(
    t: Tables, calls: seq<Call>, drafts: seq<Draft>,
    machines: map<int, Machine>, trails: seq<seq<Milestone>>,
    misfiled: set<nat>, suspended: set<UserId>, plans: map<UserId, Plan>, keys: map<nat, UserId>, clock: Time)

  function Initial(plans: map<UserId, Plan>): State {
    State(Tables([], []), [], [], map[], [], {}, {}, plans, map[], 0)
  }

  // ---- provider reads ----

  predicate Owns(m: Machine, v: nat) {
    m.owner == Some(v)
  }

  /** `get_vm_power_state` of VM `v` at its saved placement. */
  function PowerRead(machines: map<int, Machine>, v: nat, at: Placement): PowerAnswer {
    if at.vmid !in machines then PowerIs(Missing, false)
    else
      var m := machines[at.vmid];
      if !Owns(m, v) then PowerUnavailable
      else PowerIs(if m.running then Power.Running else Stopped, m.cloning || m.locked)
  }

  /** A truthful answer to `get_task_status`. */
  ghost predicate TaskTruth(calls: seq<Call>, id: TaskId, answer: TaskAnswer) {
    match answer
    case TaskUnavailable => true
    case TaskRunning =>
      exists k :: 0 <= k < |calls|
        && (calls[k].progress == Tasked(id, Waiting) || calls[k].progress == Tasked(id, Applied))
    case TaskSucceeded => exists k :: 0 <= k < |calls| && calls[k].progress == Tasked(id, Ended)
    case TaskFailed(_) => exists k :: 0 <= k < |calls| && calls[k].progress == Tasked(id, Aborted)
  }

  /** Every read of a pass either fails or tells the truth. */
  ghost predicate Truthful(s: State, op: Op, vm: Vm, answers: Answers) {
    && (vm.at.Some? ==> answers.power == PowerUnavailable || answers.power == PowerRead(s.machines, op.vm, vm.at.value))
    && (op.stage.Awaiting? ==> TaskTruth(s.calls, op.stage.task, answers.task))
  }

  // ---- provider effects ----

  predicate FreshTask(calls: seq<Call>, id: TaskId) {
    forall k :: 0 <= k < |calls| && calls[k].progress.Tasked? ==> calls[k].progress.id != id
  }

  /** What the adapter returned to the worker, once the call has an outcome. */
  function ResultOf(call: Call): Option<CallResult> {
    match call.progress
    case Sent => None
    case Rejected => None
    case Answered(a) => Some(a)
    case Instant => Some(NoTask)
    case Tasked(id, _) =>
      var task := ProviderTask(id, call.at);
      Some(match call.cmd
           case CloneVm => CloneResult(Submitted, Some(task))
           case DeleteVm => DeleteResult(Submitted, Some(task))
           case _ => TaskResult(task))
  }

  /** The adapter's guards for a command of VM `v` against the resource at its VMID: what the call becomes.
      `instant` chooses a synchronous configure. */
  function Attempt(machines: map<int, Machine>, v: nat, cmd: Command, vmid: int, spec: VmSpec, id: TaskId,
                   instant: bool): Progress {
    if vmid !in machines then
      match cmd
      case CloneVm => Tasked(id, Waiting)
      case DeleteVm => Answered(DeleteResult(AlreadyDone, None))
      case _ => Rejected
    else
      var m := machines[vmid];
      if !Owns(m, v) then Rejected
      else
        match cmd
        case CloneVm =>
          if m.cloning then Answered(CloneResult(InProgress, None))
          else if m.locked then Rejected
          else Answered(CloneResult(AlreadyDone, None))
        case DeleteVm =>
          if m.cloning || m.locked then Answered(DeleteResult(InProgress, None))
          else if m.running then Rejected
          else Tasked(id, Waiting)
        case _ =>
          if m.cloning || m.locked then Rejected
          else
            match cmd
            case ConfigureVm => if instant then Instant else Tasked(id, Waiting)
            case ResizeDisk =>
              if m.diskGb > spec.storageGb then Rejected
              else if m.diskGb == spec.storageGb then Instant
              else Tasked(id, Waiting)
            case StartVm => if m.running then Answered(NoTask) else Tasked(id, Waiting)
            case _ => if m.running then Tasked(id, Waiting) else Answered(NoTask)
  }

  /** The change a command makes to the resource of its VM. */
  function Change(machines: map<int, Machine>, cmd: Command, vmid: int, spec: VmSpec): map<int, Machine> {
    if vmid !in machines then machines
    else
      var m := machines[vmid];
      match cmd
      case CloneVm => machines[vmid := m.(cloning := false)]
      case ConfigureVm => machines[vmid := m.(config := Some(spec))]
      case ResizeDisk => machines[vmid := m.(diskGb := spec.storageGb)]
      case StartVm => machines[vmid := m.(running := true)]
      case DeleteVm => machines - {vmid}
      case _ => machines[vmid := m.(running := false)]
  }

  function MilestoneOf(cmd: Command, spec: VmSpec): Milestone {
    match cmd
    case CloneVm => Cloned
    case ConfigureVm => Configured(spec)
    case ResizeDisk => Sized(spec.storageGb)
    case StartVm => Started
    case DeleteVm => Removed
    case _ => PoweredDown
  }

  // ---- locks ----

  predicate QuotaLocked(drafts: seq<Draft>, user: UserId) {
    exists d :: 0 <= d < |drafts| && drafts[d].OpenCreate? && drafts[d].user == user
  }

  predicate VmLocked(drafts: seq<Draft>, v: nat) {
    exists d :: 0 <= d < |drafts| && drafts[d].OpenEnqueue? && drafts[d].vm == v
  }

  // ---- usage and admission rules ----

  predicate Consumes(status: VmStatus) {
    status != VmFailed && status != VmDeleted
  }

  datatype Usage = Usage(vms: int, vcpus: int, memoryMb: int, storageGb: int)

  function UsageOf(vm: Vm, user: UserId): Usage {
    if vm.owner == user && Consumes(vm.status)
    then Usage(1, vm.spec.vcpus, vm.spec.memoryMb, vm.spec.storageGb)
    else Usage(0, 0, 0, 0)
  }

  function Plus(a: Usage, b: Usage): Usage {
    Usage(a.vms + b.vms, a.vcpus + b.vcpus, a.memoryMb + b.memoryMb, a.storageGb + b.storageGb)
  }

  /** `get_user_compute_usage`. */
  function TotalUsage(vms: seq<Vm>, user: UserId): Usage {
    if vms == [] then Usage(0, 0, 0, 0)
    else Plus(TotalUsage(vms[..|vms| - 1], user), UsageOf(vms[|vms| - 1], user))
  }

  predicate Within(u: Usage, plan: Plan) {
    u.vms <= plan.maxVms && u.vcpus <= plan.maxVcpus && u.memoryMb <= plan.maxMemoryMb
      && u.storageGb <= plan.maxStorageGb
  }

  /** The request model's positivity checks and the image's minimum disk. */
  predicate ValidSpec(spec: VmSpec) {
    && spec.vcpus > 0 && spec.memoryMb > 0 && spec.storageGb > 0
    && spec.image == "almalinux-9" && spec.storageGb >= 10
  }

  predicate KeyFree(ops: seq<Op>, key: string) {
    forall i :: 0 <= i < |ops| ==> ops[i].key != key
  }

  /** The VM statuses from which each lifecycle request is accepted. */
  predicate Allowed(kind: Kind, status: VmStatus) {
    match kind
    case Create => false
    case Start => status == VmStopped
    case Delete => status == VmStopped
    case _ => status == VmRunning
  }

  predicate Busy(ops: seq<Op>, v: nat) {
    exists i :: 0 <= i < |ops| && ops[i].vm == v && Active(ops[i].stage)
  }

  function FirstStage(kind: Kind): Stage {
    Queued(Script(kind)[0])
  }

  // ---- events ----

  datatype Event =
    | CheckCreate(user: UserId, spec: VmSpec, key: string, uuid: Uuid)
    | InsertCreate(draft: nat)
    | CheckEnqueue(user: UserId, vm: nat, kind: Kind, key: string)
    | InsertEnqueue(draft: nat)
    | Pass(op: nat, now: Time, read: Time, answers: Answers)
    | Effect(call: nat, id: TaskId, instant: bool, templateGb: int)
    | Finish(call: nat)
    | Fail(call: nat)
    | Crash(call: nat)
    | TaskApply(call: nat)
    | TaskEnd(call: nat)
    | TaskAbort(call: nat)
    | Appear(vmid: int)
    | Vanish(vmid: int)
    | SetLock(vmid: int, locked: bool)
    | SetQuota(user: UserId, active: bool)
    | AddKey(sshKey: nat, user: UserId)
    | Tick(delta: nat)

  /** The event can happen in this state. */
  ghost predicate Enabled(s: State, e: Event) {
    match e
    case CheckCreate(user, spec, key, uuid) =>
      && user in s.plans && user !in s.suspended && !QuotaLocked(s.drafts, user) && KeyFree(s.t.ops, key)
      && ValidSpec(spec) && spec.sshKey in s.keys && s.keys[spec.sshKey] == user
      && Within(Plus(TotalUsage(s.t.vms, user), Usage(1, spec.vcpus, spec.memoryMb, spec.storageGb)), s.plans[user])
    case InsertCreate(d) => d < |s.drafts| && s.drafts[d].OpenCreate?
    case CheckEnqueue(user, v, kind, key) =>
      && v < |s.t.vms| && s.t.vms[v].owner == user && !VmLocked(s.drafts, v) && KeyFree(s.t.ops, key)
      && !Busy(s.t.ops, v) && Allowed(kind, s.t.vms[v].status)
    case InsertEnqueue(d) => d < |s.drafts| && s.drafts[d].OpenEnqueue?
    case Pass(i, now, read, answers) => CanPass(s, i, now, read, answers)
    case Effect(k, id, _, _) => CanReach(s, k, id)
    case Finish(k) => CanFinish(s, k)
    case Fail(k) => CanFail(s, k)
    case Crash(k) => k < |s.calls| && s.calls[k].attached
    case TaskApply(k) => CanApply(s, k)
    case TaskEnd(k) => k < |s.calls| && s.calls[k].progress.Tasked? && s.calls[k].progress.state == Applied
    case TaskAbort(k) => CanAbort(s, k)
    case Appear(vmid) => vmid !in s.machines
    case Vanish(vmid) => vmid in s.machines && s.machines[vmid].owner == None
    case SetLock(vmid, _) => vmid in s.machines
    case SetQuota(_, _) => true
    case AddKey(id, _) => id !in s.keys
    case Tick(_) => true
  }

  /** A worker selected row `op` at `now`, read the provider at `read` and can commit. */
  ghost predicate CanPass(s: State, i: nat, now: Time, read: Time, answers: Answers) {
    && i < |s.t.ops| && s.t.ops[i].vm < |s.t.vms|
    && now <= read <= s.clock && Selectable(s.t.ops[i], now)
    && Truthful(s, s.t.ops[i], s.t.vms[s.t.ops[i].vm], answers)
    && Unlocked(s, i, FirstPass(s.t.ops[i], s.t.vms[s.t.ops[i].vm], answers, s.clock))
  }

  /** The call has not reached the provider yet; `id` is free for its task. */
  predicate CanReach(s: State, k: nat, id: TaskId) {
    && k < |s.calls| && s.calls[k].op < |s.t.ops| && OpVm(s, k) < |s.t.vms|
    && s.calls[k].progress == Sent && FreshTask(s.calls, id)
  }

  /** The call's task waits to be carried out. */
  predicate CanApply(s: State, k: nat) {
    && k < |s.calls| && s.calls[k].op < |s.t.ops| && OpVm(s, k) < |s.t.vms| && OpVm(s, k) < |s.trails|
    && s.calls[k].progress.Tasked? && s.calls[k].progress.state == Waiting
  }

  predicate CanAbort(s: State, k: nat) {
    k < |s.calls| && s.calls[k].progress.Tasked? && s.calls[k].progress.state == Waiting
  }

  /** The worker still waits and its call has a result to store. */
  predicate CanFinish(s: State, k: nat) {
    && k < |s.calls| && s.calls[k].op < |s.t.ops| && OpVm(s, k) < |s.t.vms|
    && s.calls[k].attached && ResultOf(s.calls[k]).Some?
    && Unlocked(s, s.calls[k].op, SettleOf(s, k))
  }

  /** The worker still waits, and whatever happened it gets an exception. */
  predicate CanFail(s: State, k: nat) {
    && k < |s.calls| && s.calls[k].op < |s.t.ops| && OpVm(s, k) < |s.t.vms|
    && s.calls[k].attached && Unlocked(s, s.calls[k].op, LoseOf(s, k))
  }

  function OpVm(s: State, k: nat): nat
    requires k < |s.calls| && s.calls[k].op < |s.t.ops|
  {
    s.t.ops[s.calls[k].op].vm
  }

  function SettleOf(s: State, k: nat): Outcome
    requires k < |s.calls| && s.calls[k].op < |s.t.ops| && OpVm(s, k) < |s.t.vms|
    requires ResultOf(s.calls[k]).Some?
  {
    Settle(s.t.ops[s.calls[k].op], s.t.vms[OpVm(s, k)], s.calls[k].cmd, ResultOf(s.calls[k]).value, s.clock)
  }

  function LoseOf(s: State, k: nat): Outcome
    requires k < |s.calls| && s.calls[k].op < |s.t.ops| && OpVm(s, k) < |s.t.vms|
  {
    Lose(s.t.ops[s.calls[k].op], s.t.vms[OpVm(s, k)], s.calls[k].cmd, s.clock)
  }

  /** A commit that writes the VM row waits for a lifecycle request holding that row. */
  predicate Unlocked(s: State, i: nat, o: Outcome)
    requires i < |s.t.ops| && s.t.ops[i].vm < |s.t.vms|
  {
    o.Commit? && o.vm != s.t.vms[s.t.ops[i].vm] ==> !VmLocked(s.drafts, s.t.ops[i].vm)
  }

  /** The result goes to a reboot whose marker is for the other command. */
  predicate Misfiles(s: State, k: nat)
    requires k < |s.calls| && s.calls[k].op < |s.t.ops| && OpVm(s, k) < |s.t.vms|
    requires ResultOf(s.calls[k]).Some?
  {
    var op := s.t.ops[s.calls[k].op];
    op.stage.Dispatched? && op.stage.cmd != s.calls[k].cmd && Commits(s.t, s.calls[k].op, SettleOf(s, k))
  }

  function Detach(calls: seq<Call>, k: nat): seq<Call>
    requires k < |calls|
  {
    calls[k := calls[k].(attached := false)]
  }

  function DoPass(s: State, i: nat, answers: Answers): State
    requires i < |s.t.ops| && s.t.ops[i].vm < |s.t.vms|
  {
    var op, vm := s.t.ops[i], s.t.vms[s.t.ops[i].vm];
    var o := FirstPass(op, vm, answers, s.clock);
    var sends := Sends(op, vm);
    s.(t := Transact(s.t, i, o),
       calls := if Commits(s.t, i, o) && sends.Some? && vm.at.Some?
                then s.calls + [Call(i, sends.value, vm.at.value, vm.spec, s.clock, true, Sent)]
                else s.calls)
  }

  function DoEffect(s: State, k: nat, id: TaskId, instant: bool, gb: int): State
    requires k < |s.calls| && s.calls[k].op < |s.t.ops| && OpVm(s, k) < |s.t.vms|
  {
    var call, v := s.calls[k], OpVm(s, k);
    var spec, vmid := call.request, call.at.vmid;
    var p := Attempt(s.machines, v, call.cmd, vmid, spec, id, instant);
    var s' := s.(calls := s.calls[k := call.(progress := p)]);
    if p == Instant then
      s'.(machines := Change(s.machines, call.cmd, vmid, spec),
          trails := Extend(s.trails, v, MilestoneOf(call.cmd, spec)))
    else if p.Tasked? && call.cmd == CloneVm then
      s'.(machines := s.machines[vmid := Machine(Some(v), false, true, false, gb, None)])
    else s'
  }

  function Extend(trails: seq<seq<Milestone>>, v: nat, m: Milestone): seq<seq<Milestone>> {
    if v < |trails| then trails[v := trails[v] + [m]] else trails
  }

  function DoApply(s: State, k: nat): State
    requires k < |s.calls| && s.calls[k].op < |s.t.ops| && OpVm(s, k) < |s.t.vms| && s.calls[k].progress.Tasked?
  {
    var call, v := s.calls[k], OpVm(s, k);
    var spec, vmid := call.request, call.at.vmid;
    s.(calls := s.calls[k := call.(progress := Tasked(call.progress.id, Applied))],
       machines := Change(s.machines, call.cmd, vmid, spec),
       trails := Extend(s.trails, v, MilestoneOf(call.cmd, spec)))
  }

  /** A failed task leaves the resource as it was; a failed clone leaves none. */
  function DoAbort(s: State, k: nat): State
    requires k < |s.calls| && s.calls[k].progress.Tasked?
  {
    var call := s.calls[k];
    s.(calls := s.calls[k := call.(progress := Tasked(call.progress.id, Aborted))],
       machines := if call.cmd == CloneVm then s.machines - {call.at.vmid} else s.machines)
  }

  /** Insert of a checked create: the unique key index decides. */
  function DoInsertCreate(s: State, d: nat): State
    requires d < |s.drafts| && s.drafts[d].OpenCreate?
  {
    var r := s.drafts[d];
    var s' := s.(drafts := s.drafts[d := Closed]);
    if !KeyFree(s.t.ops, r.key) then s'
    else
      s'.(t := Tables(s.t.ops + [Op(|s.t.vms|, Create, FirstStage(Create), r.key, 0, None, s.clock)],
                      s.t.vms + [Vm(r.user, r.uuid, r.spec, VmPending, None)]),
          trails := s.trails + [[]])
  }

  function DoInsertEnqueue(s: State, d: nat): State
    requires d < |s.drafts| && s.drafts[d].OpenEnqueue?
  {
    var r := s.drafts[d];
    var s' := s.(drafts := s.drafts[d := Closed]);
    if !KeyFree(s.t.ops, r.key) then s'
    else s'.(t := s.t.(ops := s.t.ops + [Op(r.vm, r.kind, FirstStage(r.kind), r.key, 0, None, s.clock)]))
  }

  function DoFinish(s: State, k: nat): State
    requires k < |s.calls| && s.calls[k].op < |s.t.ops| && OpVm(s, k) < |s.t.vms|
    requires ResultOf(s.calls[k]).Some?
  {
    s.(t := Transact(s.t, s.calls[k].op, SettleOf(s, k)),
       calls := Detach(s.calls, k),
       misfiled := if Misfiles(s, k) then s.misfiled + {OpVm(s, k)} else s.misfiled)
  }

  /** One step of the system; an event that cannot happen changes nothing. */
  ghost function Do(s: State, e: Event): State {
    if !Enabled(s, e) then s
    else
      match e
      case CheckCreate(user, spec, key, uuid) => s.(drafts := s.drafts + [OpenCreate(user, spec, key, uuid)])
      case InsertCreate(d) => DoInsertCreate(s, d)
      case CheckEnqueue(_, v, kind, key) => s.(drafts := s.drafts + [OpenEnqueue(v, kind, key)])
      case InsertEnqueue(d) => DoInsertEnqueue(s, d)
      case Pass(i, _, _, answers) => DoPass(s, i, answers)
      case Effect(k, id, instant, gb) => DoEffect(s, k, id, instant, gb)
      case Finish(k) => DoFinish(s, k)
      case Fail(k) => s.(t := Transact(s.t, s.calls[k].op, LoseOf(s, k)), calls := Detach(s.calls, k))
      case Crash(k) => s.(calls := Detach(s.calls, k))
      case TaskApply(k) => DoApply(s, k)
      case TaskEnd(k) => s.(calls := s.calls[k := s.calls[k].(progress := Tasked(s.calls[k].progress.id, Ended))])
      case TaskAbort(k) => DoAbort(s, k)
      case Appear(vmid) => s.(machines := s.machines[vmid := Machine(None, false, false, false, 0, None)])
      case Vanish(vmid) => s.(machines := s.machines - {vmid})
      case SetLock(vmid, locked) => s.(machines := s.machines[vmid := s.machines[vmid].(locked := locked)])
      case SetQuota(user, active) => s.(suspended := if active then s.suspended - {user} else s.suspended + {user})
      case AddKey(id, user) => s.(keys := s.keys[id := user])
      case Tick(delta) => s.(clock := s.clock + delta)
  }

  /** The state after a sequence of events. */
  ghost function Run(s: State, events: seq<Event>): State {
    if events == [] then s else Do(Run(s, events[..|events| - 1]), events[|events| - 1])
  }

  lemma {:induction false} RunSplits(s: State, a: seq<Event>, b: seq<Event>)
    ensures Run(s, a + b) == Run(Run(s, a), b)
  {
    if b == [] {
      assert a + b == a;
    } else {
      assert (a + b)[..|a + b| - 1] == a + b[..|b| - 1];
      RunSplits(s, a, b[..|b| - 1]);
    }
  }

  lemma RunStep(s: State, events: seq<Event>, e: Event)
    ensures Run(s, events + [e]) == Do(Run(s, events), e)
  {
    assert (events + [e])[..|events + [e]| - 1] == events;
  }
}
