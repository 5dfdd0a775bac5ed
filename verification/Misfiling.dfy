/** `finish_lifecycle_dispatch` is not told which command it finishes. Exactly when that breaks agreement,
    and a run in which a late reboot result leaves a stopped VM marked running. */
module Misfiling {
  import opened Domain
  import opened Phases
  import opened Transitions
  import opened Tables
  import opened Evolution
  import opened Protocol
  import opened Invariants
  import opened Agreement

  /** A stored result keeps row and provider in agreement exactly when the operation still waits at the command
      the worker sent. */
  lemma FinishAgreesExactly(s: State, k: nat)
    requires Agreed(s) && CanFinish(s, k) && OpVm(s, k) !in s.misfiled
    requires Commits(s.t, s.calls[k].op, SettleOf(s, k))
    ensures MoveAgrees(s, s.calls[k].op, SettleOf(s, k)) <==> s.t.ops[s.calls[k].op].stage.cmd == s.calls[k].cmd
    ensures s.t.ops[s.calls[k].op].stage.cmd != s.calls[k].cmd ==> s.t.ops[s.calls[k].op].kind == Reboot
  {
    var i := s.calls[k].op;
    var op, call := s.t.ops[i], s.calls[k];
    assert CallOk(s.t, call) && Sound(op, s.t.vms[op.vm]);
    if op.stage.cmd == call.cmd {
      SettleMove(s, k);
    } else {
      MisfiledBreaks(s, k);
    }
  }

  lemma MisfiledBreaks(s: State, k: nat)
    requires Agreed(s) && CanFinish(s, k) && OpVm(s, k) !in s.misfiled
    requires Commits(s.t, s.calls[k].op, SettleOf(s, k)) && s.t.ops[s.calls[k].op].stage.cmd != s.calls[k].cmd
    ensures !MoveAgrees(s, s.calls[k].op, SettleOf(s, k)) && s.t.ops[s.calls[k].op].kind == Reboot
  {
    hide OpAgrees, VmAgrees, CloneHeld, DraftsOk, View, StageAgrees, Settle, CallsOk, CallsUnique;
    var i := s.calls[k].op;
    var o := SettleOf(s, k);
    MisfiledShape(s, k);
    assert HasCall(s.calls, i, StartVm) by { assert Marked(Reboot, s.t.ops[i].stage, StartVm); }
    var l :| 0 <= l < |s.calls| && s.calls[l].op == i && s.calls[l].cmd == StartVm;
    assert s.calls[l].progress.Tasked? ==> s.calls[l].progress.id != s.calls[k].progress.id;
    assert !StageAgrees(o.op.kind, o.op.stage, StartVm, s.calls[l].progress) by {
      WrongTask(o.op.kind, o.op.stage, s.calls[l].progress);
    }
  }

  lemma WrongTask(kind: Kind, stage: Stage, p: Progress)
    requires stage.Awaiting? && stage.cmd == StartVm && (p.Tasked? ==> p.id != stage.task)
    ensures !StageAgrees(kind, stage, StartVm, p)
  {}

  /** Only a finished shutdown half can be misfiled, and only as the task of the start half. */
  lemma MisfiledShape(s: State, k: nat)
    requires Agreed(s) && CanFinish(s, k) && OpVm(s, k) !in s.misfiled
    requires Commits(s.t, s.calls[k].op, SettleOf(s, k)) && s.t.ops[s.calls[k].op].stage.cmd != s.calls[k].cmd
    ensures var op, call := s.t.ops[s.calls[k].op], s.calls[k];
            && op.kind == Reboot && call.cmd == ShutdownVm && op.stage == Dispatched(StartVm)
            && call.progress.Tasked? && Effective(call.progress)
            && SettleOf(s, k).op.kind == Reboot && SettleOf(s, k).op.stage == Awaiting(StartVm, call.progress.id, false)
  {
    hide OpAgrees, VmAgrees, CloneHeld, DraftsOk, View, MarkersCalled, CallsUnique, TasksUnique;
    var op, call := s.t.ops[s.calls[k].op], s.calls[k];
    assert CallOk(s.t, call) && CallAgrees(s, k) && Sound(op, s.t.vms[op.vm]);
    assert op.kind == Reboot && call.cmd == ShutdownVm && op.stage == Dispatched(StartVm);
  }

  // ---- the failing run ----

  /** A reboot of VM `v` at `stage`, with the VM's resource unlocked and no request holding its row. */
  ghost predicate Scene(s: State, i: nat, v: nat, stage: Stage, status: VmStatus, running: bool) {
    && Inv(s) && i < |s.t.ops| && v < |s.t.vms| && s.t.ops[i].vm == v && s.t.ops[i].kind == Reboot
    && s.t.ops[i].stage == stage && s.t.vms[v].status == status
    && s.t.vms[v].at.Some? && s.t.vms[v].at.value.vmid in s.machines
    && s.machines[s.t.vms[v].at.value.vmid].(diskGb := 0, config := None)
      == Machine(Some(v), running, false, false, 0, None)
    && !VmLocked(s.drafts, v) && Alone(s, i, v)
  }

  /** No other operation of the VM is active. */
  predicate Alone(s: State, i: nat, v: nat) {
    forall j :: 0 <= j < |s.t.ops| && j != i && s.t.ops[j].vm == v ==> !Active(s.t.ops[j].stage)
  }

  predicate CallIs(s: State, k: nat, i: nat, c: Command, p: Progress, attached: bool) {
    k < |s.calls| && s.calls[k].op == i && s.calls[k].cmd == c && s.calls[k].progress == p
      && s.calls[k].attached == attached
  }

  const NO_ANSWERS := Answers(TargetUnavailable, PowerUnavailable, TaskUnavailable)

  lemma SceneEnqueue(s: State, v: nat, key: string) returns (s': State, i: nat, e1: Event, e2: Event)
    requires Inv(s) && v < |s.t.vms| && s.t.vms[v].status == VmRunning && !Busy(s.t.ops, v)
    requires !VmLocked(s.drafts, v) && KeyFree(s.t.ops, key)
    requires s.t.vms[v].at.Some? && s.t.vms[v].at.value.vmid in s.machines
    requires var m := s.machines[s.t.vms[v].at.value.vmid]; m.owner == Some(v) && m.running && !m.cloning && !m.locked
    ensures s' == Do(Do(s, e1), e2) && s'.calls == s.calls && s'.misfiled == s.misfiled
    ensures Scene(s', i, v, Queued(ShutdownVm), VmRunning, true)
  {
    hide CallsOk, CallsUnique, MarkersCalled, TasksUnique, TablesOk, TotalUsage, Within;
    e1 := CheckEnqueue(s.t.vms[v].owner, v, Reboot, key);
    e2 := InsertEnqueue(|s.drafts|);
    var s1 := Do(s, e1);
    s' := Do(s1, e2);
    i := |s.t.ops|;
    StepInv(s, e1);
    StepInv(s1, e2);
    assert s1.drafts[|s.drafts|] == OpenEnqueue(v, Reboot, key);
  }

  lemma SceneMark(s: State, i: nat, v: nat, c: Command) returns (s': State, e: Event)
    requires exists status, running :: Scene(s, i, v, Queued(c), status, running)
    ensures s' == Do(s, e) && CallIs(s', |s.calls|, i, c, Sent, true) && s'.calls[..|s.calls|] == s.calls
    ensures forall status, running :: Scene(s, i, v, Queued(c), status, running) ==>
              Scene(s', i, v, Dispatched(c), status, running)
    ensures |s'.calls| == |s.calls| + 1 && i < |s'.t.ops| && s'.t.ops[i].updatedAt == s'.clock
    ensures s'.misfiled == s.misfiled
  {
    hide CallsOk, CallsUnique, MarkersCalled, TasksUnique, DraftsOk, Attempt, Change;
    e := Pass(i, s.clock, s.clock, NO_ANSWERS);
    s' := Do(s, e);
    StepInv(s, e);
    assert Uses(Reboot, c) by { assert Sound(s.t.ops[i], s.t.vms[v]); }
  }

  /** The provider accepts the shutdown, powers the VM off and ends the task. */
  lemma SceneShutdown(s: State, i: nat, v: nat, k: nat, id: TaskId) returns (s': State, e1: Event, e2: Event, e3: Event)
    requires Scene(s, i, v, Dispatched(ShutdownVm), VmRunning, true) && CallIs(s, k, i, ShutdownVm, Sent, true)
    requires FreshTask(s.calls, id)
    ensures s' == Do(Do(Do(s, e1), e2), e3) && |s'.calls| == |s.calls| && s'.t == s.t && s'.clock == s.clock
    ensures s'.misfiled == s.misfiled
    ensures Scene(s', i, v, Dispatched(ShutdownVm), VmRunning, false)
            && CallIs(s', k, i, ShutdownVm, Tasked(id, Ended), true)
  {
    hide Scene, CallIs, Inv, Do;
    e1, e2, e3 := Effect(k, id, false, 0), TaskApply(k), TaskEnd(k);
    SceneEffect(s, i, v, k, id);
    SceneApply(Do(s, e1), i, v, k, id);
    s' := Do(Do(Do(s, e1), e2), e3);
    SceneTaskEnd(Do(Do(s, e1), e2), i, v, k, id);
  }

  lemma SceneEffect(s: State, i: nat, v: nat, k: nat, id: TaskId)
    requires Scene(s, i, v, Dispatched(ShutdownVm), VmRunning, true) && CallIs(s, k, i, ShutdownVm, Sent, true)
    requires FreshTask(s.calls, id)
    ensures var s' := Do(s, Effect(k, id, false, 0));
            && |s'.calls| == |s.calls| && s'.t == s.t && s'.clock == s.clock && s'.misfiled == s.misfiled
            && Scene(s', i, v, Dispatched(ShutdownVm), VmRunning, true)
            && CallIs(s', k, i, ShutdownVm, Tasked(id, Waiting), true)
  {
    hide CallsUnique, MarkersCalled, TasksUnique, DraftsOk, TablesOk;
    assert CallOk(s.t, s.calls[k]);
    StepInv(s, Effect(k, id, false, 0));
  }

  lemma SceneApply(s: State, i: nat, v: nat, k: nat, id: TaskId)
    requires Scene(s, i, v, Dispatched(ShutdownVm), VmRunning, true)
             && CallIs(s, k, i, ShutdownVm, Tasked(id, Waiting), true)
    ensures var s' := Do(s, TaskApply(k));
            && |s'.calls| == |s.calls| && s'.t == s.t && s'.clock == s.clock && s'.misfiled == s.misfiled
            && Scene(s', i, v, Dispatched(ShutdownVm), VmRunning, false)
            && CallIs(s', k, i, ShutdownVm, Tasked(id, Applied), true)
  {
    hide CallsUnique, MarkersCalled, TasksUnique, DraftsOk, TablesOk;
    assert CallOk(s.t, s.calls[k]);
    StepInv(s, TaskApply(k));
  }

  lemma SceneTaskEnd(s: State, i: nat, v: nat, k: nat, id: TaskId)
    requires Scene(s, i, v, Dispatched(ShutdownVm), VmRunning, false)
             && CallIs(s, k, i, ShutdownVm, Tasked(id, Applied), true)
    ensures var s' := Do(s, TaskEnd(k));
            && |s'.calls| == |s.calls| && s'.t == s.t && s'.clock == s.clock && s'.misfiled == s.misfiled
            && Scene(s', i, v, Dispatched(ShutdownVm), VmRunning, false)
            && CallIs(s', k, i, ShutdownVm, Tasked(id, Ended), true)
  {
    hide CallsUnique, MarkersCalled, TasksUnique, DraftsOk, TablesOk;
    StepInv(s, TaskEnd(k));
  }

  /** After the grace another worker reads the power state, confirms the shutdown and turns to the start. */
  lemma SceneReconcile(s: State, i: nat, v: nat) returns (s': State, e1: Event, e2: Event)
    requires Scene(s, i, v, Dispatched(ShutdownVm), VmRunning, false) && s.t.ops[i].updatedAt <= s.clock
    ensures s' == Do(Do(s, e1), e2) && s'.calls == s.calls && Scene(s', i, v, Queued(StartVm), VmStopped, false)
  {
    hide CallsOk, CallsUnique, MarkersCalled, TasksUnique, DraftsOk, Attempt, Change;
    e1 := Tick(DISPATCH_GRACE);
    var s1 := Do(s, e1);
    StepInv(s, e1);
    e2 := Pass(i, s1.clock, s1.clock, Answers(TargetUnavailable, PowerIs(Stopped, false), TaskUnavailable));
    s' := Do(s1, e2);
    StepInv(s1, e2);
  }

  /** The first worker comes back late: its shutdown task is filed as the start task. */
  lemma SceneMisfile(s: State, i: nat, v: nat, k: nat, id: TaskId) returns (s': State, e: Event)
    requires Scene(s, i, v, Dispatched(StartVm), VmStopped, false)
             && CallIs(s, k, i, ShutdownVm, Tasked(id, Ended), true)
    ensures s' == Do(s, e) && |s'.calls| == |s.calls|
    ensures forall l :: 0 <= l < |s.calls| && l != k ==> s'.calls[l] == s.calls[l]
    ensures Scene(s', i, v, Awaiting(StartVm, id, false), VmStopped, false)
            && CallIs(s', k, i, ShutdownVm, Tasked(id, Ended), false)
  {
    hide CallsUnique, MarkersCalled, TasksUnique, DraftsOk, Attempt, Change;
    assert CallOk(s.t, s.calls[k]);
    e := Finish(k);
    s' := Do(s, e);
    StepInv(s, e);
  }

  /** Its success is taken for the start's success. */
  lemma ScenePoll(s: State, i: nat, v: nat, k: nat, id: TaskId) returns (s': State, e: Event)
    requires Scene(s, i, v, Awaiting(StartVm, id, false), VmStopped, false)
             && CallIs(s, k, i, ShutdownVm, Tasked(id, Ended), false)
    ensures s' == Do(s, e) && s'.calls == s.calls
    ensures Scene(s', i, v, Done, VmRunning, false)
  {
    hide CallsOk, CallsUnique, MarkersCalled, TasksUnique, DraftsOk, Attempt, Change;
    e := Pass(i, s.clock, s.clock, Answers(TargetUnavailable, PowerUnavailable, TaskSucceeded));
    s' := Do(s, e);
    StepInv(s, e);
  }

  /** From every state that agrees with the provider, a reboot of any unlocked running VM at rest can end, with
      both workers gone, in a succeeded operation and a row that says running over a stopped VM: one worker
      returns from its shutdown call after the grace, when another has already marked the start. */
  lemma LateRebootFails(s: State, v: nat, key: string, id: TaskId) returns (events: seq<Event>, i: nat)
    requires Agreed(s) && v < |s.t.vms| && v !in s.misfiled && s.t.vms[v].status == VmRunning
    requires !Busy(s.t.ops, v) && !VmLocked(s.drafts, v) && KeyFree(s.t.ops, key) && FreshTask(s.calls, id)
    requires s.t.vms[v].at.Some? && s.t.vms[v].at.value.vmid in s.machines
             && !s.machines[s.t.vms[v].at.value.vmid].locked
    ensures var s' := Run(s, events);
            && i < |s'.t.ops| && s'.t.ops[i].vm == v && s'.t.ops[i].stage == Done
            && v < |s'.t.vms| && s'.t.vms[v].status == VmRunning && !Busy(s'.t.ops, v)
            && View(s'.machines, s'.t.vms, v) == Stopped
            && (forall k :: 0 <= k < |s'.calls| && s'.calls[k].op == i ==> !s'.calls[k].attached)
  {
    hide Scene, Inv, Do;
    assert VmAgrees(s, v);
    var s1, e1, e2;
    s1, i, e1, e2 := SceneEnqueue(s, v, key);
    var s2, e3 := SceneMark(s1, i, v, ShutdownVm);
    var k := |s1.calls|;
    var s3, e4, e5, e6 := SceneShutdown(s2, i, v, k, id);
    var s4, e7, e8 := SceneReconcile(s3, i, v);
    var s5, e9 := SceneMark(s4, i, v, StartVm);
    var l := |s4.calls|;
    var s6, e10 := SceneMisfile(s5, i, v, k, id);
    var s7, e11 := ScenePoll(s6, i, v, k, id);
    var e12 := Crash(l);
    SceneEnd(s7, i, v, k, l);
    events := [e1];
    assert Run(s, events) == Do(s, e1) by { RunStep(s, [], e1); }
    RunStep(s, events, e2); events := events + [e2];
    RunStep(s, events, e3); events := events + [e3];
    RunStep(s, events, e4); events := events + [e4];
    RunStep(s, events, e5); events := events + [e5];
    RunStep(s, events, e6); events := events + [e6];
    RunStep(s, events, e7); events := events + [e7];
    RunStep(s, events, e8); events := events + [e8];
    RunStep(s, events, e9); events := events + [e9];
    RunStep(s, events, e10); events := events + [e10];
    RunStep(s, events, e11); events := events + [e11];
    RunStep(s, events, e12); events := events + [e12];
  }

  /** The second worker dies before its start call reached the provider. */
  lemma SceneEnd(s: State, i: nat, v: nat, k: nat, l: nat)
    requires Scene(s, i, v, Done, VmRunning, false)
    requires k < |s.calls| && s.calls[k].op == i && s.calls[k].cmd == ShutdownVm && !s.calls[k].attached
    requires CallIs(s, l, i, StartVm, Sent, true)
    ensures var s' := Do(s, Crash(l));
            && i < |s'.t.ops| && s'.t.ops[i].vm == v && s'.t.ops[i].stage == Done
            && v < |s'.t.vms| && s'.t.vms[v].status == VmRunning && !Busy(s'.t.ops, v)
            && View(s'.machines, s'.t.vms, v) == Stopped
            && (forall j :: 0 <= j < |s'.calls| && s'.calls[j].op == i ==> !s'.calls[j].attached)
  {
    forall j | 0 <= j < |s.calls| && s.calls[j].op == i ensures j == k || j == l {
      assert CallOk(s.t, s.calls[j]);
    }
  }
}
