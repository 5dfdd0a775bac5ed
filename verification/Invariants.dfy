/** The invariant of every run, with any number of workers, crashes, lost responses and races:
    row shapes, one active operation per VM, and one call per operation and command. */
module Invariants {
  import opened Domain
  import opened Phases
  import opened Transitions
  import opened Tables
  import opened Evolution
  import opened Protocol

  // ---- the tables ----

  predicate RowsSound(t: Tables) {
    forall i :: 0 <= i < |t.ops| ==> t.ops[i].vm < |t.vms| && Sound(t.ops[i], t.vms[t.ops[i].vm])
  }

  /** At most one pending or processing operation per VM. */
  predicate OneActive(ops: seq<Op>) {
    forall i, j :: 0 <= i < j < |ops| && Active(ops[i].stage) && Active(ops[j].stage) ==> ops[i].vm != ops[j].vm
  }

  predicate UniqueVmids(vms: seq<Vm>) {
    forall i, j :: 0 <= i < j < |vms| && vms[i].at.Some? && vms[j].at.Some? ==>
             vms[i].at.value.vmid != vms[j].at.value.vmid
  }

  /** A VM without a placement is still waiting for its first pass. */
  predicate UnplacedPending(vms: seq<Vm>) {
    forall j :: 0 <= j < |vms| && vms[j].at.None? ==> vms[j].status == VmPending
  }

  predicate TablesOk(t: Tables) {
    RowsSound(t) && OneActive(t.ops) && UniqueVmids(t.vms) && UnplacedPending(t.vms)
  }

  // ---- the calls ----

  /** A call belongs to a marked command of its operation, goes to the saved placement and carries the VM's own
      request. */
  predicate CallOk(t: Tables, call: Call) {
    && call.op < |t.ops|
    && t.ops[call.op].vm < |t.vms|
    && Uses(t.ops[call.op].kind, call.cmd)
    && Marked(t.ops[call.op].kind, t.ops[call.op].stage, call.cmd)
    && t.vms[t.ops[call.op].vm].at == Some(call.at)
    && t.vms[t.ops[call.op].vm].spec == call.request
  }

  predicate CallsOk(t: Tables, calls: seq<Call>) {
    forall k :: 0 <= k < |calls| ==> CallOk(t, calls[k])
  }

  /** One call per operation and command: at most once. */
  predicate CallsUnique(calls: seq<Call>) {
    forall k, l :: 0 <= k < l < |calls| ==> calls[k].op != calls[l].op || calls[k].cmd != calls[l].cmd
  }

  predicate HasCall(calls: seq<Call>, i: nat, c: Command) {
    exists k :: 0 <= k < |calls| && calls[k].op == i && calls[k].cmd == c
  }

  /** Every marker written led to a call record: `attempts` counts the calls. */
  predicate MarkersCalled(t: Tables, calls: seq<Call>) {
    forall i, c :: 0 <= i < |t.ops| && Uses(t.ops[i].kind, c) && Marked(t.ops[i].kind, t.ops[i].stage, c) ==>
      HasCall(calls, i, c)
  }

  predicate TasksUnique(calls: seq<Call>) {
    forall k, l :: 0 <= k < l < |calls| && calls[k].progress.Tasked? && calls[l].progress.Tasked? ==>
      calls[k].progress.id != calls[l].progress.id
  }

  // ---- the requests ----

  predicate DraftOk(t: Tables, d: Draft) {
    d.OpenEnqueue? ==> d.vm < |t.vms| && Allowed(d.kind, t.vms[d.vm].status) && !Busy(t.ops, d.vm)
  }

  predicate DraftsOk(t: Tables, drafts: seq<Draft>) {
    && (forall d :: 0 <= d < |drafts| ==> DraftOk(t, drafts[d]))
    && (forall d, e :: 0 <= d < e < |drafts| && drafts[d].OpenEnqueue? && drafts[e].OpenEnqueue? ==>
          drafts[d].vm != drafts[e].vm)
  }

  ghost predicate Inv(s: State) {
    && |s.trails| == |s.t.vms|
    && TablesOk(s.t)
    && CallsOk(s.t, s.calls) && CallsUnique(s.calls) && MarkersCalled(s.t, s.calls) && TasksUnique(s.calls)
    && DraftsOk(s.t, s.drafts)
  }

  lemma InitialInv(plans: map<UserId, Plan>)
    ensures Inv(Initial(plans))
  {}

  // ---- a committed worker transaction ----

  lemma TransactTables(t: Tables, i: nat, o: Outcome)
    requires TablesOk(t) && i < |t.ops|
    requires o.Commit? ==> Evolves(t.ops[i], t.vms[t.ops[i].vm], o.op, o.vm)
    ensures TablesOk(Transact(t, i, o))
    ensures |Transact(t, i, o).ops| == |t.ops| && |Transact(t, i, o).vms| == |t.vms|
  {
    if Commits(t, i, o) {
      var t' := Transact(t, i, o);
      var j := t.ops[i].vm;
      forall n | 0 <= n < |t'.ops|
        ensures t'.ops[n].vm < |t'.vms| && Sound(t'.ops[n], t'.vms[t'.ops[n].vm])
      {
        assert n != i && t.ops[n].vm == j ==> !Active(t.ops[n].stage);
      }
    }
  }

  lemma TransactCalls(t: Tables, i: nat, o: Outcome, calls: seq<Call>, drafts: seq<Draft>)
    requires TablesOk(t) && i < |t.ops| && CallsOk(t, calls) && DraftsOk(t, drafts)
    requires o.Commit? ==> Evolves(t.ops[i], t.vms[t.ops[i].vm], o.op, o.vm)
    ensures CallsOk(Transact(t, i, o), calls) && DraftsOk(Transact(t, i, o), drafts)
  {
    if Commits(t, i, o) {
      var t' := Transact(t, i, o);
      forall k | 0 <= k < |calls| ensures CallOk(t', calls[k]) {
        assert CallOk(t, calls[k]);
      }
      forall d | 0 <= d < |drafts| ensures DraftOk(t', drafts[d]) {
        assert DraftOk(t, drafts[d]);
        if drafts[d].OpenEnqueue? {
          assert !Busy(t.ops, drafts[d].vm);
          assert drafts[d].vm != t.ops[i].vm;
          assert !Busy(t'.ops, drafts[d].vm);
        }
      }
    }
  }

  /** A transaction that writes no marker keeps every marker accounted for. */
  lemma TransactMarkers(t: Tables, i: nat, o: Outcome, calls: seq<Call>)
    requires TablesOk(t) && i < |t.ops| && MarkersCalled(t, calls)
    requires o.Commit? ==>
               && o.op.kind == t.ops[i].kind
               && Markers(o.op.kind, o.op.stage) == Markers(t.ops[i].kind, t.ops[i].stage)
    ensures MarkersCalled(Transact(t, i, o), calls)
  {
    var t' := Transact(t, i, o);
    forall n, c | 0 <= n < |t'.ops| && Uses(t'.ops[n].kind, c) && Marked(t'.ops[n].kind, t'.ops[n].stage, c)
      ensures HasCall(calls, n, c)
    {
      assert Marked(t.ops[n].kind, t.ops[n].stage, c);
    }
  }

  /** Adding the record of a newly marked call. */
  lemma MarkAddsCall(t: Tables, i: nat, o: Outcome, calls: seq<Call>, call: Call)
    requires TablesOk(t) && i < |t.ops| && CallsOk(t, calls) && CallsUnique(calls) && MarkersCalled(t, calls)
             && TasksUnique(calls)
    requires Commits(t, i, o) && Evolves(t.ops[i], t.vms[t.ops[i].vm], o.op, o.vm)
    requires t.ops[i].stage == Queued(call.cmd) && o.op.stage == Dispatched(call.cmd)
    requires call.op == i && t.vms[t.ops[i].vm].at == Some(call.at) && t.vms[t.ops[i].vm].spec == call.request
    requires call.progress == Sent
    requires CallsOk(Transact(t, i, o), calls)
    ensures CallsOk(Transact(t, i, o), calls + [call]) && CallsUnique(calls + [call])
    ensures MarkersCalled(Transact(t, i, o), calls + [call]) && TasksUnique(calls + [call])
  {
    var t', calls' := Transact(t, i, o), calls + [call];
    forall k | 0 <= k < |calls'| ensures CallOk(t', calls'[k]) {
      if k < |calls| { assert CallOk(t', calls[k]); }
    }
    forall k | 0 <= k < |calls| ensures calls[k].op != i || calls[k].cmd != call.cmd {
      assert CallOk(t, calls[k]);
    }
    MarkAccounted(t, i, o, calls, call);
  }

  lemma MarkAccounted(t: Tables, i: nat, o: Outcome, calls: seq<Call>, call: Call)
    requires i < |t.ops| && t.ops[i].vm < |t.vms| && MarkersCalled(t, calls)
    requires Commits(t, i, o) && o.op.kind == t.ops[i].kind && Uses(o.op.kind, call.cmd)
    requires t.ops[i].stage == Queued(call.cmd) && o.op.stage == Dispatched(call.cmd) && call.op == i
    ensures MarkersCalled(Transact(t, i, o), calls + [call])
  {
    var t', calls' := Transact(t, i, o), calls + [call];
    forall n, c | 0 <= n < |t'.ops| && Uses(t'.ops[n].kind, c) && Marked(t'.ops[n].kind, t'.ops[n].stage, c)
      ensures HasCall(calls', n, c)
    {
      if n == i && Index(t'.ops[n].kind, c) == Index(t'.ops[n].kind, call.cmd) {
        IndexInjective(t'.ops[n].kind, c, call.cmd);
        assert calls'[|calls|].cmd == c;
      } else {
        assert HasCall(calls, n, c);
        var k :| 0 <= k < |calls| && calls[k].op == n && calls[k].cmd == c;
        assert calls'[k] == calls[k];
      }
    }
  }

  lemma IndexInjective(kind: Kind, c: Command, d: Command)
    requires Uses(kind, c) && Uses(kind, d) && Index(kind, c) == Index(kind, d)
    ensures c == d
  {}

  lemma PassInv(s: State, i: nat, now: Time, answers: Answers)
    requires Inv(s) && i < |s.t.ops| && Selectable(s.t.ops[i], now)
    ensures Inv(DoPass(s, i, answers))
  {
    var op, vm := s.t.ops[i], s.t.vms[s.t.ops[i].vm];
    var o := FirstPass(op, vm, answers, s.clock);
    PassEvolves(op, vm, now, answers, s.clock);
    TransactTables(s.t, i, o);
    TransactCalls(s.t, i, o, s.calls, s.drafts);
    if Commits(s.t, i, o) && Sends(op, vm).Some? {
      MarkAddsCall(s.t, i, o, s.calls, Call(i, op.stage.cmd, vm.at.value, vm.spec, s.clock, true, Sent));
    } else {
      PassProgress(op, vm, now, answers, s.clock);
      TransactMarkers(s.t, i, o, s.calls);
    }
  }

  /** Changing whether a worker waits, or what became of a call, keeps the call facts. */
  lemma CallUpdate(t: Tables, calls: seq<Call>, k: nat, call: Call)
    requires k < |calls| && call.op == calls[k].op && call.cmd == calls[k].cmd
    requires call.at == calls[k].at && call.request == calls[k].request
    requires CallsOk(t, calls) && CallsUnique(calls) && MarkersCalled(t, calls) && TasksUnique(calls)
    requires call.progress.Tasked? ==>
               || FreshTask(calls, call.progress.id)
               || (calls[k].progress.Tasked? && calls[k].progress.id == call.progress.id)
    ensures var calls' := calls[k := call];
            CallsOk(t, calls') && CallsUnique(calls') && MarkersCalled(t, calls') && TasksUnique(calls')
  {
    var calls' := calls[k := call];
    assert CallOk(t, calls[k]);
    forall n, c | 0 <= n < |t.ops| && Uses(t.ops[n].kind, c) && Marked(t.ops[n].kind, t.ops[n].stage, c)
      ensures HasCall(calls', n, c)
    {
      var l :| 0 <= l < |calls| && calls[l].op == n && calls[l].cmd == c;
      assert calls'[l].op == n && calls'[l].cmd == c;
    }
  }

  lemma StoreInv(s: State, k: nat, o: Outcome)
    requires Inv(s) && k < |s.calls| && s.calls[k].op < |s.t.ops|
    requires o.Commit? ==> Evolves(s.t.ops[s.calls[k].op], s.t.vms[OpVm(s, k)], o.op, o.vm)
    requires o.Commit? ==> o.op.attempts == s.t.ops[s.calls[k].op].attempts
    ensures Inv(s.(t := Transact(s.t, s.calls[k].op, o), calls := Detach(s.calls, k)))
  {
    var i := s.calls[k].op;
    TransactTables(s.t, i, o);
    TransactCalls(s.t, i, o, s.calls, s.drafts);
    TransactMarkers(s.t, i, o, s.calls);
    CallUpdate(Transact(s.t, i, o), s.calls, k, s.calls[k].(attached := false));
  }

  lemma FinishInv(s: State, k: nat)
    requires Inv(s) && CanFinish(s, k)
    ensures Inv(DoFinish(s, k))
  {
    var i := s.calls[k].op;
    SettleEvolves(s.t.ops[i], s.t.vms[OpVm(s, k)], s.calls[k].cmd, ResultOf(s.calls[k]).value, s.clock);
    SettleProgress(s.t.ops[i], s.t.vms[OpVm(s, k)], s.calls[k].cmd, ResultOf(s.calls[k]).value, s.clock);
    StoreInv(s, k, SettleOf(s, k));
  }

  lemma FailInv(s: State, k: nat)
    requires Inv(s) && CanFail(s, k)
    ensures Inv(s.(t := Transact(s.t, s.calls[k].op, LoseOf(s, k)), calls := Detach(s.calls, k)))
  {
    var i := s.calls[k].op;
    SettleEvolves(s.t.ops[i], s.t.vms[OpVm(s, k)], s.calls[k].cmd, NoTask, s.clock);
    SettleProgress(s.t.ops[i], s.t.vms[OpVm(s, k)], s.calls[k].cmd, NoTask, s.clock);
    StoreInv(s, k, LoseOf(s, k));
  }

  // ---- inserts ----

  lemma InsertCreateInv(s: State, d: nat)
    requires Inv(s) && d < |s.drafts| && s.drafts[d].OpenCreate?
    ensures Inv(DoInsertCreate(s, d))
  {
    hide Consumes, TotalUsage, Within;
    var r, s' := s.drafts[d], DoInsertCreate(s, d);
    if KeyFree(s.t.ops, r.key) {
      forall k | 0 <= k < |s.calls| ensures CallOk(s'.t, s'.calls[k]) { assert CallOk(s.t, s.calls[k]); }
      forall e | 0 <= e < |s'.drafts| ensures DraftOk(s'.t, s'.drafts[e]) {
        if e != d && s.drafts[e].OpenEnqueue? {
          assert DraftOk(s.t, s.drafts[e]);
          assert !Busy(s'.t.ops, s.drafts[e].vm);
        }
      }
    }
  }

  lemma InsertEnqueueInv(s: State, d: nat)
    requires Inv(s) && d < |s.drafts| && s.drafts[d].OpenEnqueue?
    ensures Inv(DoInsertEnqueue(s, d))
  {
    var r, s' := s.drafts[d], DoInsertEnqueue(s, d);
    assert DraftOk(s.t, r);
    if KeyFree(s.t.ops, r.key) {
      forall k | 0 <= k < |s.calls| ensures CallOk(s'.t, s'.calls[k]) { assert CallOk(s.t, s.calls[k]); }
      forall e | 0 <= e < |s'.drafts| ensures DraftOk(s'.t, s'.drafts[e]) {
        if e != d && s.drafts[e].OpenEnqueue? {
          assert DraftOk(s.t, s.drafts[e]);
          assert !Busy(s'.t.ops, s.drafts[e].vm);
        }
      }
      InsertedRowsSound(s, d);
    }
  }

  lemma InsertedRowsSound(s: State, d: nat)
    requires Inv(s) && d < |s.drafts| && s.drafts[d].OpenEnqueue? && KeyFree(s.t.ops, s.drafts[d].key)
    ensures TablesOk(DoInsertEnqueue(s, d).t)
  {
    var r, t' := s.drafts[d], DoInsertEnqueue(s, d).t;
    assert DraftOk(s.t, r);
    assert s.t.vms[r.vm].at.Some?;
    assert Sound(t'.ops[|s.t.ops|], t'.vms[r.vm]);
    forall i | 0 <= i < |s.t.ops| && Active(s.t.ops[i].stage) ensures s.t.ops[i].vm != r.vm {}
  }

  lemma AttemptTask(machines: map<int, Machine>, v: nat, cmd: Command, vmid: int, spec: VmSpec, id: TaskId,
                    instant: bool)
    ensures var p := Attempt(machines, v, cmd, vmid, spec, id, instant); p.Tasked? ==> p == Tasked(id, Waiting)
  {}

  lemma EffectInv(s: State, k: nat, id: TaskId, instant: bool, gb: int)
    requires Inv(s) && CanReach(s, k, id)
    ensures Inv(DoEffect(s, k, id, instant, gb))
  {
    hide Attempt, Change, CallsOk, MarkersCalled, CallsUnique, TablesOk, DraftsOk, MilestoneOf;
    var call := s.calls[k];
    var p := Attempt(s.machines, OpVm(s, k), call.cmd, call.at.vmid, call.request, id, instant);
    AttemptTask(s.machines, OpVm(s, k), call.cmd, call.at.vmid, call.request, id, instant);
    CallUpdate(s.t, s.calls, k, call.(progress := p));
  }

  lemma StepInv(s: State, e: Event)
    requires Inv(s)
    ensures Inv(Do(s, e))
  {
    if Enabled(s, e) {
      match e
      case InsertCreate(d) => InsertCreateInv(s, d);
      case InsertEnqueue(d) => InsertEnqueueInv(s, d);
      case Pass(i, now, read, answers) => PassInv(s, i, now, answers);
      case Effect(k, id, instant, gb) => EffectInv(s, k, id, instant, gb);
      case Finish(k) => FinishInv(s, k);
      case Fail(k) => FailInv(s, k);
      case Crash(k) => CallUpdate(s.t, s.calls, k, s.calls[k].(attached := false));
      case TaskApply(k) =>
        CallUpdate(s.t, s.calls, k, s.calls[k].(progress := Tasked(s.calls[k].progress.id, Applied)));
      case TaskEnd(k) =>
        CallUpdate(s.t, s.calls, k, s.calls[k].(progress := Tasked(s.calls[k].progress.id, Ended)));
      case TaskAbort(k) =>
        CallUpdate(s.t, s.calls, k, s.calls[k].(progress := Tasked(s.calls[k].progress.id, Aborted)));
      case CheckEnqueue(_, v, kind, key) => CheckEnqueueInv(s, v, kind, key);
      case _ =>
    }
  }

  lemma CheckEnqueueInv(s: State, v: nat, kind: Kind, key: string)
    requires Inv(s) && v < |s.t.vms| && !VmLocked(s.drafts, v) && !Busy(s.t.ops, v) && Allowed(kind, s.t.vms[v].status)
    ensures Inv(s.(drafts := s.drafts + [OpenEnqueue(v, kind, key)]))
  {}

  /** The invariant of every reachable state. */
  lemma {:induction false} RunInv(s: State, events: seq<Event>)
    requires Inv(s)
    ensures Inv(Run(s, events))
  {
    if events != [] {
      RunInv(s, events[..|events| - 1]);
      StepInv(Run(s, events[..|events| - 1]), events[|events| - 1]);
    }
  }
}
