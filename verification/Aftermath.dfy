/** After a reboot result was misfiled: exactly when the VM's row is right, at every later moment until the VM is
    sent another command. */
module Aftermath {
  import opened Domain
  import opened Phases
  import opened Transitions
  import opened Tables
  import opened Evolution
  import opened Protocol
  import opened Invariants
  import opened Agreement
  import opened Grace
  import opened Requests
  import opened Rest
  import opened Misfiling

  /** The call carries VM `v`'s command. */
  predicate IsOf(s: State, m: nat, v: nat) {
    m < |s.calls| && s.calls[m].op < |s.t.ops| && OpVm(s, m) == v
  }

  /** Reboot `i` of VM `v` waits for a task that is over and not its start's, or is done; `l` is its start call, and
      nothing else is under way for the VM. */
  ghost predicate Lingers(s: State, i: nat, v: nat, k: nat, l: nat) {
    && Agreed(s) && i < |s.t.ops| && v < |s.t.vms|
    && RowLingers(s, i, v, k)
    && CallsLinger(s, i, v, k, l)
    && View(s.machines, s.t.vms, v) == (if Effective(s.calls[l].progress) then Power.Running else Stopped)
  }

  predicate RowLingers(s: State, i: nat, v: nat, k: nat)
    requires i < |s.t.ops| && v < |s.t.vms|
  {
    var op := s.t.ops[i];
    && op.vm == v && op.kind == Reboot && s.t.vms[v].at.Some?
    && k < |s.calls| && s.calls[k].progress.Tasked? && Effective(s.calls[k].progress)
    && (op.stage == Done || op.stage in {Awaiting(StartVm, s.calls[k].progress.id, false),
                                         Awaiting(StartVm, s.calls[k].progress.id, true)})
    && (op.stage == Done ==> s.t.vms[v].status == VmRunning)
    && (forall n :: 0 <= n < |s.t.ops| && n != i && s.t.ops[n].vm == v ==>
          !Active(s.t.ops[n].stage) || s.t.ops[n].stage.Queued?)
  }

  predicate CallsLinger(s: State, i: nat, v: nat, k: nat, l: nat) {
    && IsOf(s, k, v) && IsOf(s, l, v) && k != l && s.calls[l].op == i && s.calls[l].cmd == StartVm
    && (forall m :: 0 <= m < |s.calls| && IsOf(s, m, v) && m != l ==> !NotYet(s.calls[m].progress))
  }

  // ---- the misfiled result itself ----

  lemma MisfiledLingers(s: State, k: nat) returns (l: nat)
    requires Agreed(s) && CanFinish(s, k) && Misfiles(s, k) && OpVm(s, k) !in s.misfiled
    ensures Lingers(DoFinish(s, k), s.calls[k].op, OpVm(s, k), k, l)
  {
    hide CallAgrees, CloneHeld, VmAgrees, DraftsOk, TasksUnique, MarkersCalled, StageAgrees, Settle;
    var i, v := s.calls[k].op, OpVm(s, k);
    l := StartCall(s, k);
    FinishAgreed(s, k);
    MisfiledShape(s, k);
    assert OpAgrees(s, i) && CallOk(s.t, s.calls[k]) && CallOk(s.t, s.calls[l]);
    assert Sound(s.t.ops[i], s.t.vms[v]);
    TheCall(s, l);
    forall m | 0 <= m < |s.calls| && IsOf(s, m, v) && m != l ensures !NotYet(s.calls[m].progress) {
      if NotYet(s.calls[m].progress) { OnlyStartPending(s, k, l, m); }
    }
    SettleKeepsAt(s, k);
  }

  lemma SettleKeepsAt(s: State, k: nat)
    requires Inv(s) && CanFinish(s, k) && Commits(s.t, s.calls[k].op, SettleOf(s, k))
    ensures var o := SettleOf(s, k);
            && o.vm.at == s.t.vms[OpVm(s, k)].at
            && o.op.vm == s.t.ops[s.calls[k].op].vm && o.op.kind == s.t.ops[s.calls[k].op].kind
  {
    hide CallsUnique, DraftsOk, TasksUnique, MarkersCalled, OneActive, UniqueVmids, Settle;
    assert CallOk(s.t, s.calls[k]);
    assert Sound(s.t.ops[s.calls[k].op], s.t.vms[OpVm(s, k)]);
    SettleEvolves(s.t.ops[s.calls[k].op], s.t.vms[OpVm(s, k)], s.calls[k].cmd, ResultOf(s.calls[k]).value, s.clock);
  }

  lemma StartCall(s: State, k: nat) returns (l: nat)
    requires Agreed(s) && CanFinish(s, k) && Misfiles(s, k) && OpVm(s, k) !in s.misfiled
    ensures l < |s.calls| && l != k && s.calls[l].op == s.calls[k].op && s.calls[l].cmd == StartVm
  {
    hide OpAgrees, CallAgrees, CloneHeld, VmAgrees, DraftsOk, TasksUnique, Settle, Commits;
    MisfiledShape(s, k);
    var i := s.calls[k].op;
    assert Marked(Reboot, s.t.ops[i].stage, StartVm);
    assert HasCall(s.calls, i, StartVm);
    l :| 0 <= l < |s.calls| && s.calls[l].op == i && s.calls[l].cmd == StartVm;
  }

  /** Of all the VM's calls only the start call can still be on its way. */
  lemma OnlyStartPending(s: State, k: nat, l: nat, m: nat)
    requires Agreed(s) && CanFinish(s, k) && Misfiles(s, k) && OpVm(s, k) !in s.misfiled
    requires l < |s.calls| && s.calls[l].op == s.calls[k].op && s.calls[l].cmd == StartVm
    requires IsOf(s, m, OpVm(s, k)) && NotYet(s.calls[m].progress)
    ensures m == l
  {
    hide OpAgrees, CallAgrees, CloneHeld, VmAgrees, DraftsOk, TasksUnique, MarkersCalled, Settle, Commits;
    MisfiledShape(s, k);
    PendingIsCurrent(s, m);
    assert s.calls[m].op == s.calls[k].op;
  }

  // ---- every later event ----

  /** The event makes no call for the VM. */
  ghost predicate Quiet(s: State, e: Event, v: nat) {
    forall m :: |s.calls| <= m < |Do(s, e).calls| ==> !IsOf(Do(s, e), m, v)
  }

  /** The VM's rows and calls are what an event on other rows leaves them; new operations of the VM are queued. */
  lemma SameLingers(s: State, s': State, i: nat, v: nat, k: nat, l: nat)
    requires Lingers(s, i, v, k, l) && Agreed(s')
    requires |s.t.ops| <= |s'.t.ops| && v < |s'.t.vms| && s'.t.vms[v] == s.t.vms[v]
    requires forall n :: 0 <= n < |s.t.ops| && s.t.ops[n].vm == v ==> s'.t.ops[n] == s.t.ops[n]
    requires forall n :: 0 <= n < |s.t.ops| ==> s'.t.ops[n].vm == s.t.ops[n].vm
    requires forall n :: |s.t.ops| <= n < |s'.t.ops| ==> s'.t.ops[n].stage.Queued?
    requires |s.calls| <= |s'.calls| && forall m :: |s.calls| <= m < |s'.calls| ==> !IsOf(s', m, v)
    requires forall m :: 0 <= m < |s.calls| ==>
               && s'.calls[m].op == s.calls[m].op && s'.calls[m].cmd == s.calls[m].cmd
               && s'.calls[m].progress == s.calls[m].progress
    requires View(s'.machines, s'.t.vms, v) == View(s.machines, s.t.vms, v)
    ensures Lingers(s', i, v, k, l)
  {
    hide Agreed, View;
    assert Inv(s) by { AgreedInv(s); }
    assert CallsLinger(s', i, v, k, l) by { CallsStay(s, s', i, v, k, l); }
  }

  lemma AgreedInv(s: State)
    requires Agreed(s)
    ensures Inv(s)
  {}

  lemma CallsStay(s: State, s': State, i: nat, v: nat, k: nat, l: nat)
    requires CallsLinger(s, i, v, k, l) && Inv(s)
    requires |s.t.ops| <= |s'.t.ops| && forall n :: 0 <= n < |s.t.ops| ==> s'.t.ops[n].vm == s.t.ops[n].vm
    requires |s.calls| <= |s'.calls| && forall m :: |s.calls| <= m < |s'.calls| ==> !IsOf(s', m, v)
    requires forall m :: 0 <= m < |s.calls| ==>
               && s'.calls[m].op == s.calls[m].op && s'.calls[m].cmd == s.calls[m].cmd
               && (s'.calls[m].progress == s.calls[m].progress || m == l || !NotYet(s'.calls[m].progress)
                   || !IsOf(s', m, v))
    ensures CallsLinger(s', i, v, k, l)
  {
    hide TablesOk, CallsUnique, MarkersCalled, TasksUnique, DraftsOk;
    forall m | 0 <= m < |s'.calls| && IsOf(s', m, v) && m != l ensures !NotYet(s'.calls[m].progress) {
      assert m < |s.calls|;
      assert CallOk(s.t, s.calls[m]);
      assert IsOf(s, m, v);
    }
  }

  /** A pass over the reboot itself: its task is over, so the poll either waits or ends it as succeeded. */
  lemma PollLingers(s: State, i: nat, v: nat, k: nat, l: nat, now: Time, read: Time, answers: Answers)
    requires Lingers(s, i, v, k, l) && CanPass(s, i, now, read, answers) && Agreed(DoPass(s, i, answers))
    ensures Lingers(DoPass(s, i, answers), i, v, k, l)
  {
    hide CallAgrees, CloneHeld, OpAgrees, VmAgrees, DraftsOk, MarkersCalled, CallsUnique, CallsOk, OneActive,
      OwnersPlaced, FirstPass, View, CallsLinger, Truthful, Selectable, Unlocked;
    var op, vm, s' := s.t.ops[i], s.t.vms[v], DoPass(s, i, answers);
    PollTruth(s, i, now, read, answers);
    NotAborted(s, k, answers.task);
    PolledReboot(op, vm, answers, s.clock);
    OwnVmidFree(s, v);
    PollView(s, s', v);
    assert CallsLinger(s', i, v, k, l) by { CallsStay(s, s', i, v, k, l); }
  }

  lemma PollTruth(s: State, i: nat, now: Time, read: Time, answers: Answers)
    requires CanPass(s, i, now, read, answers)
    ensures Selectable(s.t.ops[i], now)
    ensures s.t.ops[i].stage.Awaiting? ==> TaskTruth(s.calls, s.t.ops[i].stage.task, answers.task)
    ensures !s.t.ops[i].stage.Done?
  {
    hide FirstPass, Unlocked, TaskTruth;
  }

  lemma PolledReboot(op: Op, vm: Vm, answers: Answers, stamp: Time)
    requires op.kind == Reboot && op.stage.Awaiting? && op.stage.cmd == StartVm && vm.at.Some?
    requires !answers.task.TaskFailed?
    ensures Sends(op, vm) == None
    ensures var o := FirstPass(op, vm, answers, stamp);
            && o.Commit? && o.op.vm == op.vm && o.op.kind == op.kind && o.vm.at == vm.at
            && (o.op.stage == Done || o.op.stage in {Awaiting(StartVm, op.stage.task, false),
                                                     Awaiting(StartVm, op.stage.task, true)})
            && (o.op.stage == Done ==> o.vm.status == VmRunning)
  {}

  lemma OwnVmidFree(s: State, v: nat)
    requires Agreed(s) && v < |s.t.vms|
    ensures VmidFree(s.t.vms, v, s.t.vms[v].at)
  {
    hide CallAgrees, CloneHeld, OpAgrees, VmAgrees, DraftsOk, MarkersCalled, CallsUnique, CallsOk, OneActive, RowsSound;
  }

  lemma PollView(s: State, s': State, v: nat)
    requires v < |s.t.vms| && v < |s'.t.vms| && s'.machines == s.machines && s'.t.vms[v].at == s.t.vms[v].at
    ensures View(s'.machines, s'.t.vms, v) == View(s.machines, s.t.vms, v)
  {}

  lemma NotAborted(s: State, k: nat, answer: TaskAnswer)
    requires TasksUnique(s.calls) && k < |s.calls| && s.calls[k].progress.Tasked? && Effective(s.calls[k].progress)
    requires TaskTruth(s.calls, s.calls[k].progress.id, answer)
    ensures !answer.TaskFailed?
  {}

  /** A pass over any other row: of this VM it would send a command, of another VM it changes nothing here. */
  lemma OtherPassLingers(s: State, n: nat, i: nat, v: nat, k: nat, l: nat, now: Time, read: Time, answers: Answers)
    requires Lingers(s, i, v, k, l) && CanPass(s, n, now, read, answers) && Agreed(DoPass(s, n, answers)) && n != i
    requires Quiet(s, Pass(n, now, read, answers), v)
    ensures Lingers(DoPass(s, n, answers), i, v, k, l)
  {
    hide CallAgrees, CloneHeld, OpAgrees, VmAgrees, DraftsOk, MarkersCalled, CallsUnique, FirstPass, Truthful, View,
      OwnersPlaced, OneActive, UniqueVmids, UnplacedPending, CallsOk, TasksUnique, Unlocked, CallsLinger;
    var s' := DoPass(s, n, answers);
    assert s' == Do(s, Pass(n, now, read, answers));
    AgreedInv(s);
    assert Sound(s.t.ops[n], s.t.vms[s.t.ops[n].vm]);
    PassEvolves(s.t.ops[n], s.t.vms[s.t.ops[n].vm], now, answers, s.clock);
    if s.t.ops[n].vm == v {
      assert s.t.ops[n].stage.Queued?;
      MarkCommits(s, n, answers);
      assert false;
    } else {
      PollView(s, s', v);
      SameLingers(s, s', i, v, k, l);
    }
  }

  /** A pass over a queued row of a placed VM sends its command. */
  lemma MarkCommits(s: State, n: nat, answers: Answers)
    requires Inv(s) && n < |s.t.ops| && s.t.ops[n].stage.Queued? && s.t.vms[s.t.ops[n].vm].at.Some?
    ensures var s' := DoPass(s, n, answers);
            |s'.calls| == |s.calls| + 1 && IsOf(s', |s.calls|, s.t.ops[n].vm)
  {
    hide CallsOk, CallsUnique, MarkersCalled, TasksUnique, DraftsOk, OneActive, UnplacedPending;
    assert Sound(s.t.ops[n], s.t.vms[s.t.ops[n].vm]);
  }

  /** Late results and failures of other calls find no row of this VM that takes them. */
  lemma StoreLingers(s: State, s': State, m: nat, o: Outcome, result: CallResult, i: nat, v: nat, k: nat, l: nat)
    requires Lingers(s, i, v, k, l) && m < |s.calls| && Agreed(s')
    requires var op, vm := s.t.ops[s.calls[m].op], s.t.vms[OpVm(s, m)];
             o == Settle(op, vm, s.calls[m].cmd, result, s.clock) || o == Lose(op, vm, s.calls[m].cmd, s.clock)
    requires s'.t == Transact(s.t, s.calls[m].op, o) && s'.calls == Detach(s.calls, m) && s'.machines == s.machines
    ensures Lingers(s', i, v, k, l)
  {
    hide CallAgrees, CloneHeld, OpAgrees, VmAgrees, DraftsOk, MarkersCalled, CallsUnique, Settle, Lose, View,
      OwnersPlaced, OneActive, UniqueVmids, UnplacedPending, TasksUnique;
    AgreedInv(s);
    var n := s.calls[m].op;
    assert CallOk(s.t, s.calls[m]) && Sound(s.t.ops[n], s.t.vms[s.t.ops[n].vm]);
    SettleEvolves(s.t.ops[n], s.t.vms[s.t.ops[n].vm], s.calls[m].cmd, result, s.clock);
    if s.t.ops[n].vm == v { NothingStored(s.t.ops[n], s.t.vms[v], s.calls[m].cmd, result, s.clock); }
    PollView(s, s', v);
    SameLingers(s, s', i, v, k, l);
  }

  lemma NothingStored(op: Op, vm: Vm, sent: Command, result: CallResult, stamp: Time)
    requires !Active(op.stage) || op.stage.Queued? || op.stage.Awaiting?
    ensures Settle(op, vm, sent, result, stamp).Rollback? && Lose(op, vm, sent, stamp).Rollback?
  {}

  /** A call of another VM, or of an earlier operation, moves on at the provider: this VM's resource is untouched. */
  lemma OtherCallLingers(s: State, s': State, m: nat, i: nat, v: nat, k: nat, l: nat)
    requires Lingers(s, i, v, k, l) && Agreed(s') && m < |s.calls| && m != l
    requires s'.t == s.t && |s'.calls| == |s.calls|
    requires s'.calls == s.calls[m := s.calls[m].(progress := s'.calls[m].progress)]
    requires NotYet(s.calls[m].progress) ==> SameElsewhere(s.machines, s'.machines, s.calls[m].at.vmid)
    requires !NotYet(s.calls[m].progress) ==>
               && s'.machines == s.machines && !NotYet(s'.calls[m].progress)
               && (s.calls[m].progress.Tasked? ==>
                     s'.calls[m].progress.Tasked? && s'.calls[m].progress.id == s.calls[m].progress.id)
               && (Effective(s.calls[m].progress) ==> Effective(s'.calls[m].progress))
    ensures Lingers(s', i, v, k, l)
  {
    hide CallAgrees, CloneHeld, OpAgrees, VmAgrees, DraftsOk, MarkersCalled, CallsUnique, TasksUnique, View;
    AgreedInv(s);
    assert CallOk(s.t, s.calls[m]);
    if NotYet(s.calls[m].progress) {
      assert !IsOf(s, m, v);
      ViewElsewhere(s.machines, s'.machines, s.t.vms, OpVm(s, m), v);
    }
    CallsStay(s, s', i, v, k, l);
  }

  /** The start call reaches the provider: the stopped resource refuses it while locked, and otherwise takes it as a
      task. */
  lemma StartReached(s: State, i: nat, v: nat, k: nat, l: nat, id: TaskId, instant: bool, gb: int)
    requires Lingers(s, i, v, k, l) && CanReach(s, l, id) && Agreed(DoEffect(s, l, id, instant, gb))
    ensures Lingers(DoEffect(s, l, id, instant, gb), i, v, k, l)
  {
    hide CallAgrees, CloneHeld, OpAgrees, VmAgrees, DraftsOk, MarkersCalled, CallsUnique, TasksUnique;
    AgreedInv(s);
    var s' := DoEffect(s, l, id, instant, gb);
    assert CallOk(s.t, s.calls[l]);
    assert s'.machines == s.machines && !Effective(s'.calls[l].progress);
    CallsStay(s, s', i, v, k, l);
  }

  lemma StartApplied(s: State, i: nat, v: nat, k: nat, l: nat)
    requires Lingers(s, i, v, k, l) && CanApply(s, l) && Agreed(DoApply(s, l))
    ensures Lingers(DoApply(s, l), i, v, k, l)
  {
    hide CallAgrees, CloneHeld, OpAgrees, VmAgrees, DraftsOk, MarkersCalled, CallsUnique, TasksUnique;
    AgreedInv(s);
    assert CallOk(s.t, s.calls[l]);
    CallsStay(s, DoApply(s, l), i, v, k, l);
  }

  /** The start task ends or fails: the resource stays as it is. */
  lemma StartSettled(s: State, s': State, i: nat, v: nat, k: nat, l: nat)
    requires Lingers(s, i, v, k, l) && Agreed(s') && s'.t == s.t && s'.machines == s.machines && |s'.calls| == |s.calls|
    requires s'.calls == s.calls[l := s.calls[l].(progress := s'.calls[l].progress)]
    requires Effective(s'.calls[l].progress) <==> Effective(s.calls[l].progress)
    ensures Lingers(s', i, v, k, l)
  {
    hide CallAgrees, CloneHeld, OpAgrees, VmAgrees, DraftsOk, MarkersCalled, CallsUnique, TasksUnique;
    AgreedInv(s);
    CallsStay(s, s', i, v, k, l);
  }

  lemma EffectLingers(s: State, m: nat, id: TaskId, instant: bool, gb: int, i: nat, v: nat, k: nat, l: nat)
    requires Lingers(s, i, v, k, l) && CanReach(s, m, id) && Agreed(DoEffect(s, m, id, instant, gb))
    ensures Lingers(DoEffect(s, m, id, instant, gb), i, v, k, l)
  {
    hide Lingers, DoEffect;
    if m == l {
      StartReached(s, i, v, k, l, id, instant, gb);
    } else {
      LingersAgreed(s, i, v, k, l);
      EffectOwners(s, m, id, instant, gb);
      EffectCalls(s, m, id, instant, gb);
      OtherCallLingers(s, DoEffect(s, m, id, instant, gb), m, i, v, k, l);
    }
  }

  lemma LingersAgreed(s: State, i: nat, v: nat, k: nat, l: nat)
    requires Lingers(s, i, v, k, l)
    ensures Agreed(s)
  {}

  lemma EffectCalls(s: State, m: nat, id: TaskId, instant: bool, gb: int)
    requires CanReach(s, m, id)
    ensures var s' := DoEffect(s, m, id, instant, gb);
            && s'.t == s.t && |s'.calls| == |s.calls|
            && s'.calls == s.calls[m := s.calls[m].(progress := s'.calls[m].progress)]
  {
    hide Attempt, Change, FreshTask;
  }

  lemma ApplyLingers(s: State, m: nat, i: nat, v: nat, k: nat, l: nat)
    requires Lingers(s, i, v, k, l) && CanApply(s, m) && Agreed(DoApply(s, m))
    ensures Lingers(DoApply(s, m), i, v, k, l)
  {
    hide Lingers, Agreed, Change;
    if m == l {
      StartApplied(s, i, v, k, l);
    } else {
      LingersAgreed(s, i, v, k, l);
      ApplyElsewhere(s, m);
      OtherCallLingers(s, DoApply(s, m), m, i, v, k, l);
    }
  }

  lemma AbortLingers(s: State, m: nat, i: nat, v: nat, k: nat, l: nat)
    requires Lingers(s, i, v, k, l) && CanAbort(s, m) && Agreed(DoAbort(s, m))
    ensures Lingers(DoAbort(s, m), i, v, k, l)
  {
    hide Lingers, Agreed;
    if m == l {
      StartIsNoClone(s, i, v, k, l);
      StartSettled(s, DoAbort(s, m), i, v, k, l);
    } else {
      OtherCallLingers(s, DoAbort(s, m), m, i, v, k, l);
    }
  }

  lemma StartIsNoClone(s: State, i: nat, v: nat, k: nat, l: nat)
    requires Lingers(s, i, v, k, l)
    ensures l < |s.calls| && s.calls[l].cmd == StartVm
  {}

  lemma EndLingers(s: State, m: nat, i: nat, v: nat, k: nat, l: nat)
    requires Lingers(s, i, v, k, l) && Enabled(s, TaskEnd(m)) && Agreed(Do(s, TaskEnd(m)))
    ensures Lingers(Do(s, TaskEnd(m)), i, v, k, l)
  {
    hide Lingers, Agreed;
    if m == l {
      StartSettled(s, Do(s, TaskEnd(m)), i, v, k, l);
    } else {
      OtherCallLingers(s, Do(s, TaskEnd(m)), m, i, v, k, l);
    }
  }

  /** Requests, crashes and the world outside. */
  lemma OutsideLingers(s: State, e: Event, i: nat, v: nat, k: nat, l: nat)
    requires Lingers(s, i, v, k, l) && Enabled(s, e) && Agreed(Do(s, e))
    requires !e.Pass? && !e.Effect? && !e.Finish? && !e.Fail? && !e.TaskApply? && !e.TaskEnd? && !e.TaskAbort?
    ensures Lingers(Do(s, e), i, v, k, l)
  {
    hide CallAgrees, CloneHeld, OpAgrees, VmAgrees, CallsOk, DraftsOk, MarkersCalled, CallsUnique, TasksUnique,
      TotalUsage, Within, TablesOk, CallsLinger, View;
    OutsideView(s, e, v);
    OutsideRows(s, e);
    SameLingers(s, Do(s, e), i, v, k, l);
  }

  lemma OutsideView(s: State, e: Event, v: nat)
    requires Agreed(s) && Enabled(s, e) && v < |s.t.vms| && View(s.machines, s.t.vms, v) != Missing
    requires !e.Pass? && !e.Effect? && !e.Finish? && !e.Fail? && !e.TaskApply? && !e.TaskEnd? && !e.TaskAbort?
    ensures v < |Do(s, e).t.vms| && View(Do(s, e).machines, Do(s, e).t.vms, v) == View(s.machines, s.t.vms, v)
  {
    hide Agreed, TotalUsage, Within;
  }

  lemma OutsideRows(s: State, e: Event)
    requires Enabled(s, e)
    requires !e.Pass? && !e.Effect? && !e.Finish? && !e.Fail? && !e.TaskApply? && !e.TaskEnd? && !e.TaskAbort?
    ensures var s' := Do(s, e);
            && |s.t.ops| <= |s'.t.ops| && |s.t.vms| <= |s'.t.vms| && |s'.calls| == |s.calls|
            && (forall n :: 0 <= n < |s.t.ops| ==> s'.t.ops[n] == s.t.ops[n])
            && (forall n :: |s.t.ops| <= n < |s'.t.ops| ==> s'.t.ops[n].stage.Queued?)
            && (forall w :: 0 <= w < |s.t.vms| ==> s'.t.vms[w] == s.t.vms[w])
            && (forall m :: 0 <= m < |s.calls| ==>
                  && s'.calls[m].op == s.calls[m].op && s'.calls[m].cmd == s.calls[m].cmd
                  && s'.calls[m].progress == s.calls[m].progress)
  {
    hide TotalUsage, Within;
  }

  lemma StepLingers(s: State, e: Event, i: nat, v: nat, k: nat, l: nat)
    requires Lingers(s, i, v, k, l) && Quiet(s, e, v)
    ensures Lingers(Do(s, e), i, v, k, l)
  {
    hide Agreed, RowLingers, CallsLinger, View, Quiet, DoPass, DoEffect, DoFinish, DoApply, DoAbort;
    StepAgreed(s, e);
    if Enabled(s, e) {
      match e
      case Pass(n, now, read, answers) =>
        if n == i {
          PollLingers(s, i, v, k, l, now, read, answers);
        } else {
          OtherPassLingers(s, n, i, v, k, l, now, read, answers);
        }
      case Effect(m, id, instant, gb) => EffectLingers(s, m, id, instant, gb, i, v, k, l);
      case Finish(m) => FinishLingers(s, m, i, v, k, l);
      case Fail(m) => FailLingers(s, m, i, v, k, l);
      case TaskApply(m) => ApplyLingers(s, m, i, v, k, l);
      case TaskEnd(m) => EndLingers(s, m, i, v, k, l);
      case TaskAbort(m) => AbortLingers(s, m, i, v, k, l);
      case _ => OutsideLingers(s, e, i, v, k, l);
    }
  }

  lemma FinishLingers(s: State, m: nat, i: nat, v: nat, k: nat, l: nat)
    requires Lingers(s, i, v, k, l) && CanFinish(s, m) && Agreed(DoFinish(s, m))
    ensures Lingers(DoFinish(s, m), i, v, k, l)
  {
    hide Lingers, Agreed, Settle, Unlocked, Misfiles;
    StoreLingers(s, DoFinish(s, m), m, SettleOf(s, m), ResultOf(s.calls[m]).value, i, v, k, l);
  }

  lemma FailLingers(s: State, m: nat, i: nat, v: nat, k: nat, l: nat)
    requires Lingers(s, i, v, k, l) && CanFail(s, m) && Agreed(Do(s, Fail(m)))
    ensures Lingers(Do(s, Fail(m)), i, v, k, l)
  {
    hide Lingers, Agreed, Lose, Unlocked;
    StoreLingers(s, Do(s, Fail(m)), m, LoseOf(s, m), NoTask, i, v, k, l);
  }

  // ---- the exact condition ----

  lemma {:induction false} RunLingers(s: State, events: seq<Event>, i: nat, v: nat, k: nat, l: nat)
    requires Lingers(s, i, v, k, l)
    requires forall m :: |s.calls| <= m < |Run(s, events).calls| ==> !IsOf(Run(s, events), m, v)
    ensures Lingers(Run(s, events), i, v, k, l)
  {
    hide Do, Lingers;
    if events != [] {
      var n := |events| - 1;
      var before := Run(s, events[..n]);
      LingersAgreed(s, i, v, k, l);
      EarlierQuiet(s, events, v);
      RunLingers(s, events[..n], i, v, k, l);
      StepLingers(before, events[n], i, v, k, l);
    }
  }

  /** Calls and owners of calls only accumulate, so a run without a call for the VM has none in any of its parts. */
  lemma EarlierQuiet(s: State, events: seq<Event>, v: nat)
    requires Agreed(s) && events != []
    requires forall m :: |s.calls| <= m < |Run(s, events).calls| ==> !IsOf(Run(s, events), m, v)
    ensures var before := Run(s, events[..|events| - 1]);
            && (forall m :: |s.calls| <= m < |before.calls| ==> !IsOf(before, m, v))
            && Quiet(before, events[|events| - 1], v)
  {
    hide Do;
    var n := |events| - 1;
    var before, after := Run(s, events[..n]), Run(s, events);
    AgreedInv(s);
    RunInv(s, events[..n]);
    RunContinues(s, events[..n]);
    StepContinues(before, events[n]);
    StepExtends(before, events[n]);
    forall m | 0 <= m < |before.calls| ensures IsOf(before, m, v) ==> IsOf(after, m, v) {
      if IsOf(before, m, v) { assert SameOp(before.t.ops[before.calls[m].op], after.t.ops[before.calls[m].op]); }
    }
  }

  /** A result of a reboot's shutdown half is stored as the task of its start half. From then on, whatever happens,
      until another command is sent for the VM: the operation waits or has succeeded, and once it has succeeded the
      row says running, and what the row says is true exactly when the start call has taken effect. */
  lemma MisfiledRowHolds(s: State, k: nat, events: seq<Event>)
    requires Agreed(s) && CanFinish(s, k) && Misfiles(s, k) && OpVm(s, k) !in s.misfiled
    requires var s' := Run(Do(s, Finish(k)), events);
             forall m :: |s.calls| <= m < |s'.calls| ==> !IsOf(s', m, OpVm(s, k))
    ensures var s', i, v := Run(Do(s, Finish(k)), events), s.calls[k].op, OpVm(s, k);
            && i < |s'.t.ops| && v < |s'.t.vms| && (s'.t.ops[i].stage.Awaiting? || s'.t.ops[i].stage.Done?)
            && (s'.t.ops[i].stage.Done? ==>
                  && s'.t.vms[v].status == VmRunning
                  && (RowHolds(s', v) <==> Effected(s'.calls, i, StartVm)))
  {
    hide Agreed, DoFinish, Lingers;
    var i, v := s.calls[k].op, OpVm(s, k);
    var l := MisfiledLingers(s, k);
    FinishKeepsCalls(s, k);
    RunLingers(Do(s, Finish(k)), events, i, v, k, l);
    LingeringRow(Run(Do(s, Finish(k)), events), i, v, k, l);
  }

  lemma FinishKeepsCalls(s: State, k: nat)
    requires CanFinish(s, k)
    ensures Do(s, Finish(k)) == DoFinish(s, k) && |DoFinish(s, k).calls| == |s.calls|
  {
    hide Settle, Transact, Misfiles;
  }

  lemma LingeringRow(s: State, i: nat, v: nat, k: nat, l: nat)
    requires Lingers(s, i, v, k, l)
    ensures i < |s.t.ops| && v < |s.t.vms| && (s.t.ops[i].stage.Awaiting? || s.t.ops[i].stage.Done?)
    ensures s.t.ops[i].stage.Done? ==>
              s.t.vms[v].status == VmRunning && (RowHolds(s, v) <==> Effected(s.calls, i, StartVm))
  {
    hide CallAgrees, CloneHeld, OpAgrees, VmAgrees, MarkersCalled, DraftsOk;
    TheCall(s, l);
  }

  /** And it does succeed: once the shutdown's task has ended, the next poll that gets an answer ends the reboot as
      succeeded and leaves the VM at rest, started or not. */
  lemma MisfiledSucceeds(s: State, k: nat, events: seq<Event>)
    requires Agreed(s) && CanFinish(s, k) && Misfiles(s, k) && OpVm(s, k) !in s.misfiled
    requires var s' := Run(Do(s, Finish(k)), events);
             && (forall m :: |s.calls| <= m < |s'.calls| ==> !IsOf(s', m, OpVm(s, k)))
             && s.calls[k].op < |s'.t.ops| && s'.t.ops[s.calls[k].op].stage.Awaiting?
             && Selectable(s'.t.ops[s.calls[k].op], s'.clock) && !VmLocked(s'.drafts, OpVm(s, k))
             && k < |s'.calls| && s'.calls[k].progress.Tasked? && s'.calls[k].progress.state == Ended
    ensures var s', i, v := Run(Do(s, Finish(k)), events), s.calls[k].op, OpVm(s, k);
            var e := Pass(i, s'.clock, s'.clock, NO_ANSWERS.(task := TaskSucceeded));
            && Enabled(s', e) && i < |Do(s', e).t.ops| && v < |Do(s', e).t.vms|
            && Do(s', e).t.ops[i].stage == Done && Do(s', e).t.vms[v].status == VmRunning && !Busy(Do(s', e).t.ops, v)
            && (RowHolds(Do(s', e), v) <==> Effected(s'.calls, i, StartVm))
  {
    hide Agreed, DoFinish, Lingers, Do, Selectable, RowHolds;
    var l := MisfiledLingers(s, k);
    FinishKeepsCalls(s, k);
    RunLingers(Do(s, Finish(k)), events, s.calls[k].op, OpVm(s, k), k, l);
    LingeringPoll(Run(Do(s, Finish(k)), events), s.calls[k].op, OpVm(s, k), k, l);
  }

  lemma LingeringPoll(s: State, i: nat, v: nat, k: nat, l: nat)
    requires Lingers(s, i, v, k, l) && s.t.ops[i].stage.Awaiting? && s.calls[k].progress.state == Ended
    requires Selectable(s.t.ops[i], s.clock) && !VmLocked(s.drafts, v)
    ensures var e := Pass(i, s.clock, s.clock, NO_ANSWERS.(task := TaskSucceeded));
            && Enabled(s, e) && i < |Do(s, e).t.ops| && v < |Do(s, e).t.vms|
            && Do(s, e).t.ops[i].stage == Done && Do(s, e).t.vms[v].status == VmRunning && !Busy(Do(s, e).t.ops, v)
            && (RowHolds(Do(s, e), v) <==> Effected(s.calls, i, StartVm))
  {
    hide CallAgrees, CloneHeld, OpAgrees, VmAgrees, MarkersCalled, DraftsOk, CallsUnique, CallsOk, RowHolds, View,
      Effected;
    AgreedInv(s);
    var e := Pass(i, s.clock, s.clock, NO_ANSWERS.(task := TaskSucceeded));
    assert Sound(s.t.ops[i], s.t.vms[v]);
    assert Do(s, e) == DoPass(s, i, e.answers) && Do(s, e).calls == s.calls;
    StepAgreed(s, e);
    PollLingers(s, i, v, k, l, s.clock, s.clock, e.answers);
    LingeringRow(Do(s, e), i, v, k, l);
  }
}
