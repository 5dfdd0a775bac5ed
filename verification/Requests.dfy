/** What user requests add, and what the worker may never undo: quota, idempotency keys, and rows that
    keep their identity. */
module Requests {
  import opened Domain
  import opened Phases
  import opened Transitions
  import opened Tables
  import opened Evolution
  import opened Protocol
  import opened Invariants

  // ---- rows keep their identity ----

  predicate SameOp(op: Op, op': Op) {
    op'.vm == op.vm && op'.kind == op.kind && op'.key == op.key
  }

  /** The request columns stay, a placement stays, and a failed or deleted VM stays that. */
  predicate SameVm(vm: Vm, vm': Vm) {
    && vm'.owner == vm.owner && vm'.uuid == vm.uuid && vm'.spec == vm.spec
    && (vm.at.Some? ==> vm'.at == vm.at)
    && (vm.status in {VmFailed, VmDeleted} ==> vm'.status in {VmFailed, VmDeleted})
  }

  predicate Extends(t: Tables, t': Tables) {
    && |t.ops| <= |t'.ops| && (forall i :: 0 <= i < |t.ops| ==> SameOp(t.ops[i], t'.ops[i]))
    && |t.vms| <= |t'.vms| && (forall j :: 0 <= j < |t.vms| ==> SameVm(t.vms[j], t'.vms[j]))
  }

  lemma TransactExtends(t: Tables, i: nat, o: Outcome)
    requires TablesOk(t) && i < |t.ops|
    requires o.Commit? ==> Evolves(t.ops[i], t.vms[t.ops[i].vm], o.op, o.vm)
    ensures Extends(t, Transact(t, i, o))
    ensures |Transact(t, i, o).ops| == |t.ops| && |Transact(t, i, o).vms| == |t.vms|
  {
    hide OneActive, UniqueVmids, UnplacedPending;
    assert Sound(t.ops[i], t.vms[t.ops[i].vm]);
  }

  predicate Inserts(e: Event) {
    e.InsertCreate? || e.InsertEnqueue?
  }

  lemma StepExtends(s: State, e: Event)
    requires Inv(s)
    ensures Extends(s.t, Do(s, e).t)
    ensures !Inserts(e) ==> |Do(s, e).t.ops| == |s.t.ops| && |Do(s, e).t.vms| == |s.t.vms|
  {
    hide Inv, Extends, CanPass, CanFinish, CanFail, CanReach, CanApply, Transact, Attempt, Change, TotalUsage, Within,
      KeyFree, QuotaLocked, VmLocked, Busy, Allowed, Extend, MilestoneOf, Misfiles, DoInsertCreate, DoInsertEnqueue;
    NothingExtends(s.t);
    if Enabled(s, e) {
      match e
      case Pass(i, now, read, answers) => PassExtends(s, i, now, read, answers);
      case Finish(k) => FinishExtends(s, k);
      case Fail(k) => FailExtends(s, k);
      case InsertCreate(d) => InsertExtends(s, e);
      case InsertEnqueue(d) => InsertExtends(s, e);
      case _ =>
    }
  }

  lemma NothingExtends(t: Tables)
    ensures Extends(t, t)
  {}

  lemma PassExtends(s: State, i: nat, now: Time, read: Time, answers: Answers)
    requires Inv(s) && CanPass(s, i, now, read, answers)
    ensures var t' := Transact(s.t, i, FirstPass(s.t.ops[i], s.t.vms[s.t.ops[i].vm], answers, s.clock));
            Extends(s.t, t') && |t'.ops| == |s.t.ops| && |t'.vms| == |s.t.vms|
  {
    hide Evolves, FirstPass, CallsOk, CallsUnique, MarkersCalled, TasksUnique, DraftsOk, Truthful, Extends, Transact;
    assert Sound(s.t.ops[i], s.t.vms[s.t.ops[i].vm]);
    PassEvolves(s.t.ops[i], s.t.vms[s.t.ops[i].vm], now, answers, s.clock);
    TransactExtends(s.t, i, FirstPass(s.t.ops[i], s.t.vms[s.t.ops[i].vm], answers, s.clock));
  }

  lemma FinishExtends(s: State, k: nat)
    requires Inv(s) && CanFinish(s, k)
    ensures var t' := Transact(s.t, s.calls[k].op, SettleOf(s, k));
            Extends(s.t, t') && |t'.ops| == |s.t.ops| && |t'.vms| == |s.t.vms|
  {
    hide Evolves, Settle, CallsOk, CallsUnique, MarkersCalled, TasksUnique, DraftsOk, Extends, Transact;
    var op, vm := s.t.ops[s.calls[k].op], s.t.vms[OpVm(s, k)];
    assert Sound(op, vm);
    SettleEvolves(op, vm, s.calls[k].cmd, ResultOf(s.calls[k]).value, s.clock);
    TransactExtends(s.t, s.calls[k].op, SettleOf(s, k));
  }

  lemma FailExtends(s: State, k: nat)
    requires Inv(s) && CanFail(s, k)
    ensures var t' := Transact(s.t, s.calls[k].op, LoseOf(s, k));
            Extends(s.t, t') && |t'.ops| == |s.t.ops| && |t'.vms| == |s.t.vms|
  {
    hide Evolves, Lose, CallsOk, CallsUnique, MarkersCalled, TasksUnique, DraftsOk, Extends, Transact;
    var op, vm := s.t.ops[s.calls[k].op], s.t.vms[OpVm(s, k)];
    assert Sound(op, vm);
    SettleEvolves(op, vm, s.calls[k].cmd, NoTask, s.clock);
    TransactExtends(s.t, s.calls[k].op, LoseOf(s, k));
  }

  lemma InsertExtends(s: State, e: Event)
    requires Enabled(s, e) && Inserts(e)
    ensures Extends(s.t, Do(s, e).t)
  {
    hide KeyFree;
  }

  lemma {:induction false} RunExtends(s: State, events: seq<Event>)
    requires Inv(s)
    ensures Extends(s.t, Run(s, events).t)
  {
    if events != [] {
      RunExtends(s, events[..|events| - 1]);
      RunInv(s, events[..|events| - 1]);
      StepExtends(Run(s, events[..|events| - 1]), events[|events| - 1]);
    }
  }

  // ---- quota ----

  function Asked(spec: VmSpec): Usage {
    Usage(1, spec.vcpus, spec.memoryMb, spec.storageGb)
  }

  predicate Below(a: Usage, b: Usage) {
    a.vms <= b.vms && a.vcpus <= b.vcpus && a.memoryMb <= b.memoryMb && a.storageGb <= b.storageGb
  }

  /** Every stored request is positive, so usage only grows by inserts. */
  predicate SpecsValid(vms: seq<Vm>) {
    forall j :: 0 <= j < |vms| ==> ValidSpec(vms[j].spec)
  }

  /** Worker steps never raise anyone's usage. */
  lemma {:induction false} UsageFalls(vms: seq<Vm>, vms': seq<Vm>, user: UserId)
    requires |vms'| == |vms| && SpecsValid(vms)
    requires forall j :: 0 <= j < |vms| ==> SameVm(vms[j], vms'[j])
    ensures Below(TotalUsage(vms', user), TotalUsage(vms, user))
  {
    if vms != [] { UsageFalls(vms[..|vms| - 1], vms'[..|vms| - 1], user); }
  }

  lemma UsageOfInsert(vms: seq<Vm>, vm: Vm, user: UserId)
    ensures TotalUsage(vms + [vm], user) == Plus(TotalUsage(vms, user), UsageOf(vm, user))
  {
    assert (vms + [vm])[..|vms|] == vms;
  }

  /** A checked create still fits when it is inserted, because its quota row stays locked until then. */
  predicate DraftFits(s: State, d: nat)
    requires d < |s.drafts|
  {
    s.drafts[d].OpenCreate? ==>
      && s.drafts[d].user in s.plans && ValidSpec(s.drafts[d].spec)
      && Within(Plus(TotalUsage(s.t.vms, s.drafts[d].user), Asked(s.drafts[d].spec)), s.plans[s.drafts[d].user])
  }

  predicate OneCreatePerUser(drafts: seq<Draft>) {
    forall d, e :: 0 <= d < e < |drafts| && drafts[d].OpenCreate? && drafts[e].OpenCreate? ==>
             drafts[d].user != drafts[e].user
  }

  ghost predicate QuotaOk(s: State) {
    && SpecsValid(s.t.vms)
    && (forall user :: user in s.plans ==> Within(TotalUsage(s.t.vms, user), s.plans[user]))
    && (forall d :: 0 <= d < |s.drafts| ==> DraftFits(s, d))
    && OneCreatePerUser(s.drafts)
  }

  lemma QuietQuota(s: State, e: Event)
    requires Inv(s) && QuotaOk(s) && !Inserts(e)
    ensures QuotaOk(Do(s, e))
  {
    hide Inv, SameOp, TotalUsage;
    var s' := Do(s, e);
    StepExtends(s, e);
    QuietDrafts(s, e);
    forall user ensures Below(TotalUsage(s'.t.vms, user), TotalUsage(s.t.vms, user))
    { UsageFalls(s.t.vms, s'.t.vms, user); }
    forall d | 0 <= d < |s'.drafts| ensures DraftFits(s', d) {
      if d < |s.drafts| { assert DraftFits(s, d); }
    }
  }

  lemma QuietDrafts(s: State, e: Event)
    requires OneCreatePerUser(s.drafts) && !Inserts(e)
    ensures var s' := Do(s, e);
            && s'.plans == s.plans && |s.drafts| <= |s'.drafts| <= |s.drafts| + 1 && s'.drafts[..|s.drafts|] == s.drafts
            && OneCreatePerUser(s'.drafts)
            && (|s'.drafts| > |s.drafts| && s'.drafts[|s.drafts|].OpenCreate? ==>
                  s'.t == s.t && Enabled(s, e) && e.CheckCreate?
                    && s'.drafts[|s.drafts|] == OpenCreate(e.user, e.spec, e.key, e.uuid))
  {
    hide FirstPass, Settle, Lose, Attempt, Change, Transact, Truthful, Within, TotalUsage;
  }

  lemma InsertCreateQuota(s: State, d: nat)
    requires QuotaOk(s) && d < |s.drafts| && s.drafts[d].OpenCreate?
    ensures QuotaOk(DoInsertCreate(s, d))
  {
    hide TotalUsage;
    var r, s' := s.drafts[d], DoInsertCreate(s, d);
    assert DraftFits(s, d);
    if KeyFree(s.t.ops, r.key) {
      var vm := Vm(r.user, r.uuid, r.spec, VmPending, None);
      forall user ensures TotalUsage(s'.t.vms, user) == Plus(TotalUsage(s.t.vms, user), UsageOf(vm, user)) {
        UsageOfInsert(s.t.vms, vm, user);
      }
    }
    forall e | 0 <= e < |s'.drafts| ensures DraftFits(s', e) {
      assert DraftFits(s, e);
    }
  }

  lemma InsertEnqueueQuota(s: State, d: nat)
    requires QuotaOk(s) && d < |s.drafts| && s.drafts[d].OpenEnqueue?
    ensures QuotaOk(DoInsertEnqueue(s, d))
  {
    forall e | 0 <= e < |s.drafts| ensures DraftFits(DoInsertEnqueue(s, d), e) {
      assert DraftFits(s, e);
    }
  }

  lemma StepQuota(s: State, e: Event)
    requires Inv(s) && QuotaOk(s)
    ensures QuotaOk(Do(s, e))
  {
    if Inserts(e) {
      hide Inv, QuotaOk, DoInsertCreate, DoInsertEnqueue;
      if Enabled(s, e) {
        if e.InsertCreate? { InsertCreateQuota(s, e.draft); } else { InsertEnqueueQuota(s, e.draft); }
      }
    } else {
      QuietQuota(s, e);
    }
  }

  lemma {:induction false} RunQuota(plans: map<UserId, Plan>, events: seq<Event>)
    requires forall user :: user in plans ==> Within(Usage(0, 0, 0, 0), plans[user])
    ensures QuotaOk(Run(Initial(plans), events)) && Run(Initial(plans), events).plans == plans
  {
    if events != [] {
      RunQuota(plans, events[..|events| - 1]);
      InitialInv(plans);
      RunInv(Initial(plans), events[..|events| - 1]);
      StepQuota(Run(Initial(plans), events[..|events| - 1]), events[|events| - 1]);
      StepPlans(Run(Initial(plans), events[..|events| - 1]), events[|events| - 1]);
    }
  }

  lemma StepPlans(s: State, e: Event)
    ensures Do(s, e).plans == s.plans
  {
    hide FirstPass, Settle, Lose, Attempt, Change, Transact, Truthful, Within, TotalUsage;
  }

  /** In every run each user's consuming VMs stay within the plan in count, vCPU, memory and storage. */
  lemma QuotaSafety(plans: map<UserId, Plan>, events: seq<Event>, user: UserId)
    requires forall u :: u in plans ==> Within(Usage(0, 0, 0, 0), plans[u])
    requires user in plans
    ensures var u := TotalUsage(Run(Initial(plans), events).t.vms, user);
            && u.vms <= plans[user].maxVms && u.vcpus <= plans[user].maxVcpus
            && u.memoryMb <= plans[user].maxMemoryMb && u.storageGb <= plans[user].maxStorageGb
  {
    RunQuota(plans, events);
  }

  /** What a row adds to a user's usage, measure by measure: its request while it is in one of the six consuming
      statuses, and nothing once it is failed or deleted. */
  lemma RowUsage(vms: seq<Vm>, vm: Vm, user: UserId)
    ensures var counts := vm.owner == user && vm.status in {VmPending, VmPendingCapacity, VmProvisioning, VmRunning,
                                                            VmStopped, VmDeleting};
            var before, after := TotalUsage(vms, user), TotalUsage(vms + [vm], user);
            && after.vms == before.vms + (if counts then 1 else 0)
            && after.vcpus == before.vcpus + (if counts then vm.spec.vcpus else 0)
            && after.memoryMb == before.memoryMb + (if counts then vm.spec.memoryMb else 0)
            && after.storageGb == before.storageGb + (if counts then vm.spec.storageGb else 0)
  {
    hide TotalUsage;
    UsageOfInsert(vms, vm, user);
  }

  lemma NoUsage(user: UserId)
    ensures TotalUsage([], user) == Usage(0, 0, 0, 0)
  {}

  /** Replacing one row exchanges its share. */
  lemma {:induction false} UsageOfReplace(vms: seq<Vm>, j: nat, vm: Vm, user: UserId)
    requires j < |vms|
    ensures Plus(TotalUsage(vms[j := vm], user), UsageOf(vms[j], user))
              == Plus(TotalUsage(vms, user), UsageOf(vm, user))
  {
    hide UsageOf;
    var n := |vms| - 1;
    if j == n {
      assert vms[j := vm][..n] == vms[..n];
    } else {
      assert vms[j := vm][..n] == vms[..n][j := vm];
      UsageOfReplace(vms[..n], j, vm, user);
    }
  }

  /** A VM whose life has ended gives its owner back exactly its request, and nobody else anything. */
  lemma EndOfLifeReleases(vms: seq<Vm>, j: nat, status: VmStatus, user: UserId)
    requires j < |vms| && status in {VmFailed, VmDeleted} && vms[j].status !in {VmFailed, VmDeleted}
    ensures var before, after := TotalUsage(vms, user), TotalUsage(vms[j := vms[j].(status := status)], user);
            if vms[j].owner == user then
              && before.vms == after.vms + 1 && before.vcpus == after.vcpus + vms[j].spec.vcpus
              && before.memoryMb == after.memoryMb + vms[j].spec.memoryMb
              && before.storageGb == after.storageGb + vms[j].spec.storageGb
            else after == before
  {
    hide TotalUsage;
    UsageOfReplace(vms, j, vms[j].(status := status), user);
  }

  /** The event ends operation `i`: a delete as succeeded, or a create as failed. */
  ghost predicate EndsLife(s: State, e: Event, i: nat) {
    && i < |s.t.ops| && s.t.ops[i].vm < |s.t.vms| && i < |Do(s, e).t.ops| && Active(s.t.ops[i].stage)
    && ((s.t.ops[i].kind == Delete && StatusOf(Do(s, e).t.ops[i].stage) == Succeeded)
        || (s.t.ops[i].kind == Create && StatusOf(Do(s, e).t.ops[i].stage) == Failed))
  }

  /** Whatever event ends a delete or fails a create, it gives the owner back exactly the VM's request. */
  lemma EndingReleases(s: State, e: Event, i: nat, user: UserId)
    requires Inv(s) && EndsLife(s, e, i)
    ensures var vm := s.t.vms[s.t.ops[i].vm];
            var before, after := TotalUsage(s.t.vms, user), TotalUsage(Do(s, e).t.vms, user);
            if vm.owner == user then before == Plus(after, Usage(1, vm.spec.vcpus, vm.spec.memoryMb, vm.spec.storageGb))
            else after == before
  {
    hide TotalUsage, Inv, Do;
    var j := s.t.ops[i].vm;
    EndingStatus(s, e, i);
    EndOfLifeReleases(s.t.vms, j, Do(s, e).t.vms[j].status, user);
  }

  lemma EndingStatus(s: State, e: Event, i: nat)
    requires Inv(s) && EndsLife(s, e, i)
    ensures var j := s.t.ops[i].vm;
            && j < |Do(s, e).t.vms| && s.t.vms[j].status !in {VmFailed, VmDeleted}
            && Do(s, e).t.vms[j].status in {VmFailed, VmDeleted}
            && Do(s, e).t.vms == s.t.vms[j := s.t.vms[j].(status := Do(s, e).t.vms[j].status)]
  {
    hide Inv, CanPass, Unlocked, CanReach, CanApply, CanAbort, FirstPass, Settle, Lose, Attempt, Change, Misfiles,
      TotalUsage, Within, Transact;
    EndingWasActive(s, i);
    if Enabled(s, e) {
      match e
      case Pass(n, now, read, answers) => EndingPass(s, i, n, now, read, answers);
      case Finish(k) => EndingStore(s, i, k, SettleOf(s, k), ResultOf(s.calls[k]).value);
      case Fail(k) => EndingStore(s, i, k, LoseOf(s, k), NoTask);
      case _ =>
    }
  }

  lemma EndingWasActive(s: State, i: nat)
    requires Inv(s) && i < |s.t.ops| && Active(s.t.ops[i].stage)
    ensures s.t.ops[i].vm < |s.t.vms| && s.t.vms[s.t.ops[i].vm].status !in {VmFailed, VmDeleted}
  {
    hide CallsOk, CallsUnique, MarkersCalled, TasksUnique, DraftsOk, OneActive, UniqueVmids, UnplacedPending;
    assert Sound(s.t.ops[i], s.t.vms[s.t.ops[i].vm]);
  }

  lemma EndingPass(s: State, i: nat, n: nat, now: Time, read: Time, answers: Answers)
    requires Inv(s) && i < |s.t.ops| && Active(s.t.ops[i].stage) && CanPass(s, n, now, read, answers)
    ensures var o, j := FirstPass(s.t.ops[n], s.t.vms[s.t.ops[n].vm], answers, s.clock), s.t.ops[i].vm;
            var t' := Transact(s.t, n, o);
            && |t'.ops| == |s.t.ops| && |t'.vms| == |s.t.vms|
            && (EndedAs(s.t.ops[i].kind, t'.ops[i].stage) ==>
                  t'.vms[j].status in {VmFailed, VmDeleted}
                    && t'.vms == s.t.vms[j := s.t.vms[j].(status := t'.vms[j].status)])
  {
    hide CallsOk, CallsUnique, MarkersCalled, TasksUnique, DraftsOk, OneActive, UniqueVmids, UnplacedPending, FirstPass,
      Truthful;
    var op, vm := s.t.ops[n], s.t.vms[s.t.ops[n].vm];
    assert Sound(op, vm);
    EndingRows(op, vm, CloneVm, now, answers, NoTask, s.clock);
  }

  lemma EndingStore(s: State, i: nat, k: nat, o: Outcome, result: CallResult)
    requires Inv(s) && i < |s.t.ops| && Active(s.t.ops[i].stage) && k < |s.calls| && s.calls[k].op < |s.t.ops|
    requires OpVm(s, k) < |s.t.vms|
    requires var op, vm := s.t.ops[s.calls[k].op], s.t.vms[OpVm(s, k)];
             o in {Settle(op, vm, s.calls[k].cmd, result, s.clock), Lose(op, vm, s.calls[k].cmd, s.clock)}
    ensures var t', j := Transact(s.t, s.calls[k].op, o), s.t.ops[i].vm;
            && |t'.ops| == |s.t.ops| && |t'.vms| == |s.t.vms|
            && (EndedAs(s.t.ops[i].kind, t'.ops[i].stage) ==>
                  t'.vms[j].status in {VmFailed, VmDeleted}
                    && t'.vms == s.t.vms[j := s.t.vms[j].(status := t'.vms[j].status)])
  {
    hide CallsOk, CallsUnique, MarkersCalled, TasksUnique, DraftsOk, OneActive, UniqueVmids, UnplacedPending, Settle,
      Lose;
    var op, vm := s.t.ops[s.calls[k].op], s.t.vms[OpVm(s, k)];
    assert Sound(op, vm);
    SettledRows(op, vm, s.calls[k].cmd, result, s.clock);
  }

  predicate EndedAs(kind: Kind, stage: Stage) {
    (kind == Delete && stage.Done?) || (kind == Create && stage.Broken?)
  }

  lemma EndingRows(op: Op, vm: Vm, sent: Command, now: Time, answers: Answers, result: CallResult, stamp: Time)
    requires Sound(op, vm)
    ensures Selectable(op, now) ==>
              var o := FirstPass(op, vm, answers, stamp);
              o.Commit? && EndedAs(op.kind, o.op.stage) ==>
                o.vm.status in {VmFailed, VmDeleted} && o.vm == vm.(status := o.vm.status)
  {}

  lemma SettledRows(op: Op, vm: Vm, sent: Command, result: CallResult, stamp: Time)
    requires Sound(op, vm)
    ensures forall o :: o in {Settle(op, vm, sent, result, stamp), Lose(op, vm, sent, stamp)}
                        && o.Commit? && EndedAs(op.kind, o.op.stage) ==>
              o.vm.status in {VmFailed, VmDeleted} && o.vm == vm.(status := o.vm.status)
  {}

  /** So a user whose usage was within the plan may, after the end of a VM's life, create another of at most its
      size, if the key is fresh, the quota is active and no other create of theirs is under way. */
  lemma EndingMakesRoom(s: State, e: Event, i: nat, spec: VmSpec, key: string, uuid: Uuid)
    requires Inv(s) && QuotaOk(s) && EndsLife(s, e, i)
    requires var s', vm := Do(s, e), s.t.vms[s.t.ops[i].vm];
             && vm.owner in s'.plans && vm.owner !in s'.suspended && !QuotaLocked(s'.drafts, vm.owner)
             && KeyFree(s'.t.ops, key) && spec.sshKey in s'.keys && s'.keys[spec.sshKey] == vm.owner
             && spec.image == "almalinux-9" && spec.storageGb >= 10 && spec.vcpus > 0 && spec.memoryMb > 0
             && spec.vcpus <= vm.spec.vcpus && spec.memoryMb <= vm.spec.memoryMb && spec.storageGb <= vm.spec.storageGb
    ensures Enabled(Do(s, e), CheckCreate(s.t.vms[s.t.ops[i].vm].owner, spec, key, uuid))
  {
    hide TotalUsage, Inv, Do;
    EndingReleases(s, e, i, s.t.vms[s.t.ops[i].vm].owner);
    StepPlans(s, e);
  }

  // ---- keys ----

  predicate KeysUnique(ops: seq<Op>) {
    forall i, j :: 0 <= i < j < |ops| ==> ops[i].key != ops[j].key
  }

  /** Every VM has exactly one create operation. */
  predicate OneCreateEach(t: Tables) {
    && (forall i, j :: 0 <= i < j < |t.ops| && t.ops[i].kind == Create && t.ops[j].kind == Create ==>
          t.ops[i].vm != t.ops[j].vm)
    && (forall v :: 0 <= v < |t.vms| ==> Created(t, v))
  }

  predicate Created(t: Tables, v: nat) {
    exists i :: 0 <= i < |t.ops| && t.ops[i].kind == Create && t.ops[i].vm == v
  }

  /** Every VM's SSH key exists and is its owner's. */
  predicate KeysOwned(s: State) {
    && (forall v :: 0 <= v < |s.t.vms| ==>
          s.t.vms[v].spec.sshKey in s.keys && s.keys[s.t.vms[v].spec.sshKey] == s.t.vms[v].owner)
    && (forall d :: 0 <= d < |s.drafts| && s.drafts[d].OpenCreate? ==>
          s.drafts[d].spec.sshKey in s.keys && s.keys[s.drafts[d].spec.sshKey] == s.drafts[d].user)
  }

  predicate Identified(s: State) {
    KeysUnique(s.t.ops) && OneCreateEach(s.t) && KeysOwned(s)
  }

  lemma InsertsIdentified(s: State, e: Event)
    requires Inv(s) && Identified(s) && Inserts(e) && Enabled(s, e)
    ensures Identified(Do(s, e))
  {
    hide CallsOk, CallsUnique, MarkersCalled, TasksUnique, OneActive, UniqueVmids, UnplacedPending, Sound, Within,
      TotalUsage, KeysOwned, KeysUnique, OneCreateEach;
    InsertsCreates(s, e);
    InsertsKeys(s, e);
  }

  lemma InsertsKeys(s: State, e: Event)
    requires Identified(s) && Inserts(e) && Enabled(s, e)
    ensures KeysUnique(Do(s, e).t.ops) && KeysOwned(Do(s, e))
  {
    hide Within, TotalUsage, OneCreateEach;
  }

  lemma InsertsCreates(s: State, e: Event)
    requires Inv(s) && Identified(s) && Inserts(e) && Enabled(s, e)
    ensures OneCreateEach(Do(s, e).t)
  {
    hide CallsOk, CallsUnique, MarkersCalled, TasksUnique, OneActive, UniqueVmids, UnplacedPending, Sound, Within,
      TotalUsage, KeysOwned, KeysUnique;
    var s' := Do(s, e);
    assert forall i :: 0 <= i < |s.t.ops| ==> s'.t.ops[i] == s.t.ops[i];
    if e.InsertEnqueue? { assert DraftOk(s.t, s.drafts[e.draft]); }
    forall v | 0 <= v < |s'.t.vms| ensures Created(s'.t, v) {
      if v < |s.t.vms| {
        assert Created(s.t, v);
        var i :| 0 <= i < |s.t.ops| && s.t.ops[i].kind == Create && s.t.ops[i].vm == v;
        assert s'.t.ops[i].vm == v;
      } else {
        assert s'.t.ops[|s.t.ops|].vm == v;
      }
    }
  }

  lemma QuietIdentified(s: State, e: Event)
    requires Inv(s) && Identified(s) && !Inserts(e)
    ensures Identified(Do(s, e))
  {
    hide Inv, Do;
    var s' := Do(s, e);
    StepExtends(s, e);
    QuietKeys(s, e);
    forall v | 0 <= v < |s'.t.vms| ensures Created(s'.t, v) {
      assert Created(s.t, v);
      var i :| 0 <= i < |s.t.ops| && s.t.ops[i].kind == Create && s.t.ops[i].vm == v;
      assert SameOp(s.t.ops[i], s'.t.ops[i]);
    }
    forall v | 0 <= v < |s'.t.vms|
      ensures s'.t.vms[v].spec.sshKey in s'.keys && s'.keys[s'.t.vms[v].spec.sshKey] == s'.t.vms[v].owner
    {
      assert SameVm(s.t.vms[v], s'.t.vms[v]);
    }
    forall i, j | 0 <= i < j < |s'.t.ops| && s'.t.ops[i].kind == Create && s'.t.ops[j].kind == Create
      ensures s'.t.ops[i].vm != s'.t.ops[j].vm
    {
      assert SameOp(s.t.ops[i], s'.t.ops[i]) && SameOp(s.t.ops[j], s'.t.ops[j]);
    }
    forall i, j | 0 <= i < j < |s'.t.ops| ensures s'.t.ops[i].key != s'.t.ops[j].key {
      assert SameOp(s.t.ops[i], s'.t.ops[i]) && SameOp(s.t.ops[j], s'.t.ops[j]);
    }
  }

  lemma QuietKeys(s: State, e: Event)
    requires KeysOwned(s) && !Inserts(e)
    ensures var s' := Do(s, e);
            && (forall key :: key in s.keys ==> key in s'.keys && s'.keys[key] == s.keys[key])
            && (forall d :: 0 <= d < |s'.drafts| && s'.drafts[d].OpenCreate? ==>
                  s'.drafts[d].spec.sshKey in s'.keys && s'.keys[s'.drafts[d].spec.sshKey] == s'.drafts[d].user)
  {
    hide FirstPass, Settle, Lose, Attempt, Change, Transact, Truthful, Within, TotalUsage;
  }

  lemma {:induction false} RunIdentified(plans: map<UserId, Plan>, events: seq<Event>)
    ensures Identified(Run(Initial(plans), events))
  {
    if events != [] {
      var s := Run(Initial(plans), events[..|events| - 1]);
      RunIdentified(plans, events[..|events| - 1]);
      InitialInv(plans);
      RunInv(Initial(plans), events[..|events| - 1]);
      if Inserts(events[|events| - 1]) {
        if Enabled(s, events[|events| - 1]) { InsertsIdentified(s, events[|events| - 1]); }
      } else {
        QuietIdentified(s, events[|events| - 1]);
      }
    }
  }

  /** A key names one operation for good: whatever happens later, row `i` is the only row with its key, and
      its kind, its VM and that VM's owner and request are the same. */
  lemma KeyIsForGood(plans: map<UserId, Plan>, events: seq<Event>, more: seq<Event>, i: nat)
    requires i < |Run(Initial(plans), events).t.ops|
    ensures var s, s' := Run(Initial(plans), events), Run(Run(Initial(plans), events), more);
            && i < |s'.t.ops| && s.t.ops[i].vm < |s.t.vms| && s.t.ops[i].vm < |s'.t.vms|
            && (forall j :: 0 <= j < |s'.t.ops| ==> (s'.t.ops[j].key == s.t.ops[i].key <==> j == i))
            && s'.t.ops[i].kind == s.t.ops[i].kind && s'.t.ops[i].vm == s.t.ops[i].vm
            && var v := s.t.ops[i].vm; s'.t.vms[v].owner == s.t.vms[v].owner && s'.t.vms[v].spec == s.t.vms[v].spec
  {
    hide CallsOk, CallsUnique, MarkersCalled, TasksUnique, OneActive, UniqueVmids, UnplacedPending, Do;
    var s := Run(Initial(plans), events);
    InitialInv(plans);
    RunInv(Initial(plans), events);
    RunExtends(s, more);
    RunSplits(Initial(plans), events, more);
    RunIdentified(plans, events + more);
    assert SameOp(s.t.ops[i], Run(s, more).t.ops[i]);
    assert SameVm(s.t.vms[s.t.ops[i].vm], Run(s, more).t.vms[s.t.ops[i].vm]);
  }

  /** A used key admits no further request, and a request that loses the race for it adds no VM and no operation. */
  lemma UsedKeyAddsNothing(s: State, e: Event, key: string)
    requires !KeyFree(s.t.ops, key)
    requires match e
             case CheckCreate(_, _, k, _) => k == key
             case CheckEnqueue(_, _, _, k) => k == key
             case InsertCreate(d) => d < |s.drafts| && s.drafts[d].OpenCreate? && s.drafts[d].key == key
             case InsertEnqueue(d) => d < |s.drafts| && s.drafts[d].OpenEnqueue? && s.drafts[d].key == key
             case _ => false
    ensures Do(s, e).t == s.t && Do(s, e).trails == s.trails
    ensures e.CheckCreate? || e.CheckEnqueue? ==> !Enabled(s, e)
  {}
}
