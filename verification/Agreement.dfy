/** Agreement with the provider: while no result is filed under the wrong command, an operation only
    moves past a command whose effect is real, and every VM at rest is in the state its row says. */
module Agreement {
  import opened Domain
  import opened Phases
  import opened Transitions
  import opened Tables
  import opened Evolution
  import opened Protocol
  import opened Invariants

  // ---- what the provider holds for a portal VM ----

  /** The state of VM `v`'s own resource; a clone under way is not there yet. */
  function View(machines: map<int, Machine>, vms: seq<Vm>, v: nat): Power
    requires v < |vms|
  {
    if vms[v].at.None? || vms[v].at.value.vmid !in machines then Missing
    else
      var m := machines[vms[v].at.value.vmid];
      if !Owns(m, v) || m.cloning then Missing
      else if m.running then Power.Running else Stopped
  }

  function Before(c: Command): Power {
    match c
    case CloneVm => Missing
    case ShutdownVm => Power.Running
    case StopVm => Power.Running
    case _ => Stopped
  }

  function After(c: Command): Power {
    match c
    case StartVm => Power.Running
    case DeleteVm => Missing
    case _ => Stopped
  }

  /** The provider has made the change the call asked for. */
  predicate Effective(p: Progress) {
    p.Instant? || (p.Tasked? && (p.state == Applied || p.state == Ended))
  }

  predicate Effected(calls: seq<Call>, i: nat, c: Command) {
    exists k :: 0 <= k < |calls| && calls[k].op == i && calls[k].cmd == c && Effective(calls[k].progress)
  }

  // ---- the agreement invariant ----

  /** The operation has moved past the command. */
  predicate Confirmed(kind: Kind, stage: Stage, c: Command) {
    stage.Done? || Index(kind, c) < Index(kind, stage.cmd)
  }

  /** An adapter that answers without sending a command only ever says "in progress", and only a configure or
      resize is carried out without a task. */
  predicate Honest(c: Command, p: Progress) {
    && (p.Answered? ==> p.answer == CloneResult(InProgress, None) || p.answer == DeleteResult(InProgress, None))
    && (p.Instant? ==> c == ConfigureVm || c == ResizeDisk)
  }

  /** How far the operation got agrees with what became of its call. */
  predicate StageAgrees(kind: Kind, stage: Stage, c: Command, p: Progress) {
    && Honest(c, p)
    && (Confirmed(kind, stage, c) ==> Effective(p))
    && (stage.Awaiting? && stage.cmd == c ==> p.Tasked? && p.id == stage.task)
    && (stage.Broken? && stage.cmd == c ==> p == Tasked(stage.task, Aborted))
  }

  predicate CallAgrees(s: State, k: nat)
    requires k < |s.calls| && s.calls[k].op < |s.t.ops|
  {
    OpVm(s, k) !in s.misfiled ==>
      StageAgrees(s.t.ops[s.calls[k].op].kind, s.t.ops[s.calls[k].op].stage, s.calls[k].cmd, s.calls[k].progress)
  }

  /** A clone task under way holds its VMID: the resource is there, locked by the clone, and not running. */
  predicate CloneHeld(s: State, k: nat)
    requires k < |s.calls| && s.calls[k].op < |s.t.ops|
  {
    (&& OpVm(s, k) !in s.misfiled && s.calls[k].cmd == CloneVm
     && s.calls[k].progress.Tasked? && s.calls[k].progress.state == Waiting) ==>
      var vmid := s.calls[k].at.vmid;
      vmid in s.machines && Owns(s.machines[vmid], OpVm(s, k)) && s.machines[vmid].cloning && !s.machines[vmid].running
  }

  predicate OpAgrees(s: State, i: nat)
    requires i < |s.t.ops| && s.t.ops[i].vm < |s.t.vms|
  {
    Active(s.t.ops[i].stage) && s.t.ops[i].vm !in s.misfiled ==>
      View(s.machines, s.t.vms, s.t.ops[i].vm)
      == if Effected(s.calls, i, s.t.ops[i].stage.cmd) then After(s.t.ops[i].stage.cmd)
         else Before(s.t.ops[i].stage.cmd)
  }

  /** The row's status is the provider's state. */
  predicate StatusAgrees(status: VmStatus, power: Power) {
    match status
    case VmRunning => power == Power.Running
    case VmStopped => power == Stopped
    case VmDeleted => power == Missing
    case _ => true
  }

  predicate VmAgrees(s: State, j: nat)
    requires j < |s.t.vms|
  {
    j !in s.misfiled && !Busy(s.t.ops, j) ==> StatusAgrees(s.t.vms[j].status, View(s.machines, s.t.vms, j))
  }

  /** A resource that carries a portal VM's name is at that VM's saved VMID. */
  predicate OwnersPlaced(machines: map<int, Machine>, vms: seq<Vm>) {
    forall vmid :: vmid in machines && machines[vmid].owner.Some? ==>
      var v := machines[vmid].owner.value;
      v < |vms| && vms[v].at.Some? && vms[v].at.value.vmid == vmid
  }

  ghost predicate Agreed(s: State) {
    && Inv(s)
    && OwnersPlaced(s.machines, s.t.vms)
    && (forall k :: 0 <= k < |s.calls| ==> s.calls[k].op < |s.t.ops| && CallAgrees(s, k) && CloneHeld(s, k))
    && (forall i :: 0 <= i < |s.t.ops| ==> s.t.ops[i].vm < |s.t.vms| && OpAgrees(s, i))
    && (forall j :: 0 <= j < |s.t.vms| ==> VmAgrees(s, j))
  }

  lemma InitialAgreed(plans: map<UserId, Plan>)
    ensures Agreed(Initial(plans))
  {}

  // ---- facts about one operation's calls ----

  /** The one call of an operation and command decides whether the command took effect. */
  lemma TheCall(s: State, k: nat)
    requires Inv(s) && k < |s.calls|
    ensures Effected(s.calls, s.calls[k].op, s.calls[k].cmd) <==> Effective(s.calls[k].progress)
  {}

  /** A call that has not taken effect belongs to an active operation that waits at its command. */
  lemma PendingIsCurrent(s: State, k: nat)
    requires Agreed(s) && k < |s.calls| && OpVm(s, k) !in s.misfiled
    requires s.calls[k].progress == Sent || (s.calls[k].progress.Tasked? && s.calls[k].progress.state == Waiting)
    ensures var op := s.t.ops[s.calls[k].op];
            Active(op.stage) && op.stage.cmd == s.calls[k].cmd && !op.stage.Queued?
    ensures View(s.machines, s.t.vms, OpVm(s, k)) == Before(s.calls[k].cmd)
  {
    var op := s.t.ops[s.calls[k].op];
    assert CallOk(s.t, s.calls[k]) && CallAgrees(s, k);
    assert !Confirmed(op.kind, op.stage, s.calls[k].cmd);
    IndexInjective(op.kind, op.stage.cmd, s.calls[k].cmd);
    TheCall(s, k);
    assert OpAgrees(s, s.calls[k].op);
  }

  // ---- worker transactions ----

  /** The calls after a worker transaction: the same fates, and possibly one new call that was just sent. */
  predicate SameFates(calls: seq<Call>, calls': seq<Call>, i: nat) {
    && |calls| <= |calls'| <= |calls| + 1
    && (forall k :: 0 <= k < |calls| ==>
          && calls'[k].op == calls[k].op && calls'[k].cmd == calls[k].cmd
          && calls'[k].at == calls[k].at && calls'[k].request == calls[k].request
          && calls'[k].progress == calls[k].progress)
    && (|calls'| > |calls| ==> calls'[|calls|].op == i && calls'[|calls|].progress == Sent)
  }

  /** What has to be shown about the one operation a transaction moves. */
  ghost predicate MoveAgrees(s: State, i: nat, o: Outcome)
    requires i < |s.t.ops| && s.t.ops[i].vm < |s.t.vms| && o.Commit?
  {
    var j := s.t.ops[i].vm;
    var view := View(s.machines, s.t.vms[j := o.vm], j);
    && (forall k :: 0 <= k < |s.calls| && s.calls[k].op == i ==>
          StageAgrees(o.op.kind, o.op.stage, s.calls[k].cmd, s.calls[k].progress))
    && (Active(o.op.stage) ==>
          view == if Effected(s.calls, i, o.op.stage.cmd) then After(o.op.stage.cmd) else Before(o.op.stage.cmd))
    && (!Active(o.op.stage) ==> StatusAgrees(o.vm.status, view))
  }

  lemma EffectedSame(calls: seq<Call>, calls': seq<Call>, i: nat, n: nat, c: Command)
    requires SameFates(calls, calls', i)
    ensures Effected(calls', n, c) <==> Effected(calls, n, c)
  {
    if Effected(calls, n, c) {
      var k :| 0 <= k < |calls| && calls[k].op == n && calls[k].cmd == c && Effective(calls[k].progress);
      assert calls'[k].op == n;
    }
  }

  lemma TransactCallsAgree(s: State, s': State, i: nat, o: Outcome)
    requires Agreed(s) && Inv(s') && i < |s.t.ops|
    requires Commits(s.t, i, o) && s'.t == Transact(s.t, i, o) && s'.machines == s.machines && s.misfiled <= s'.misfiled
    requires SameFates(s.calls, s'.calls, i)
    requires |s'.calls| > |s.calls| ==> o.op.stage == Dispatched(s'.calls[|s.calls|].cmd)
    requires Evolves(s.t.ops[i], s.t.vms[s.t.ops[i].vm], o.op, o.vm)
    requires s.t.ops[i].vm !in s'.misfiled ==> MoveAgrees(s, i, o)
    ensures forall k :: 0 <= k < |s'.calls| ==> s'.calls[k].op < |s'.t.ops| && CallAgrees(s', k) && CloneHeld(s', k)
  {
    forall k | 0 <= k < |s'.calls| ensures s'.calls[k].op < |s'.t.ops| && CallAgrees(s', k) && CloneHeld(s', k) {
      assert CallOk(s'.t, s'.calls[k]);
      if k < |s.calls| { assert CallAgrees(s, k) && CloneHeld(s, k); }
    }
  }

  lemma TransactAgreed(s: State, s': State, i: nat, o: Outcome)
    requires Agreed(s) && Inv(s') && i < |s.t.ops|
    requires Commits(s.t, i, o) && s'.t == Transact(s.t, i, o) && s'.machines == s.machines && s.misfiled <= s'.misfiled
    requires SameFates(s.calls, s'.calls, i)
    requires |s'.calls| > |s.calls| ==> o.op.stage == Dispatched(s'.calls[|s.calls|].cmd)
    requires Evolves(s.t.ops[i], s.t.vms[s.t.ops[i].vm], o.op, o.vm)
    requires s.t.ops[i].vm !in s'.misfiled ==> MoveAgrees(s, i, o)
    ensures Agreed(s')
  {
    hide CallAgrees, CloneHeld, CallOk, CallsOk, MarkersCalled, TasksUnique, CallsUnique;
    TransactCallsAgree(s, s', i, o);
    var j := s.t.ops[i].vm;
    forall n | 0 <= n < |s'.t.ops| ensures s'.t.ops[n].vm < |s'.t.vms| && OpAgrees(s', n) {
      assert OpAgrees(s, n);
      if Active(s'.t.ops[n].stage) {
        EffectedSame(s.calls, s'.calls, i, n, s'.t.ops[n].stage.cmd);
        assert n != i ==> s.t.ops[n].vm != j;
      }
    }
    forall w | 0 <= w < |s'.t.vms| ensures VmAgrees(s', w) {
      assert VmAgrees(s, w);
      if w == j {
        assert !Busy(s'.t.ops, j) ==> !Active(s'.t.ops[i].stage);
      } else if !Busy(s'.t.ops, w) {
        OtherNotBusy(s.t, s'.t, i, w);
      }
    }
  }

  lemma OtherNotBusy(t: Tables, t': Tables, i: nat, w: nat)
    requires i < |t.ops| && |t'.ops| == |t.ops| && t'.ops == t.ops[i := t'.ops[i]]
    requires t.ops[i].vm != w && !Busy(t'.ops, w)
    ensures !Busy(t.ops, w)
  {
    forall n | 0 <= n < |t.ops| && t.ops[n].vm == w ensures !Active(t.ops[n].stage) {
      assert t'.ops[n] == t.ops[n];
    }
  }

  lemma PlacementMove(s: State, i: nat, at: Placement)
    requires Agreed(s) && i < |s.t.ops| && s.t.ops[i].vm !in s.misfiled
    requires NeedsPlacement(s.t.ops[i], s.t.vms[s.t.ops[i].vm])
    ensures MoveAgrees(s, i, Outcome.Commit(s.t.ops[i], s.t.vms[s.t.ops[i].vm].(at := Some(at))))
  {
    var j := s.t.ops[i].vm;
    assert OpAgrees(s, i);
    forall k | 0 <= k < |s.calls| && s.calls[k].op == i
      ensures StageAgrees(s.t.ops[i].kind, s.t.ops[i].stage, s.calls[k].cmd, s.calls[k].progress)
    {
      assert CallAgrees(s, k);
    }
  }

  lemma MarkMove(s: State, i: nat, stamp: Time)
    requires Agreed(s) && i < |s.t.ops| && s.t.ops[i].vm !in s.misfiled
    requires Mark(s.t.ops[i], s.t.vms[s.t.ops[i].vm], stamp).Commit?
    ensures MoveAgrees(s, i, Mark(s.t.ops[i], s.t.vms[s.t.ops[i].vm], stamp))
  {
    var op := s.t.ops[i];
    assert OpAgrees(s, i);
    forall k | 0 <= k < |s.calls| && s.calls[k].op == i
      ensures StageAgrees(op.kind, Dispatched(op.stage.cmd), s.calls[k].cmd, s.calls[k].progress)
    {
      assert CallAgrees(s, k) && CallOk(s.t, s.calls[k]);
    }
  }

  /** Moving past a command whose effect is real. */
  lemma ConfirmMove(s: State, i: nat, o: Outcome)
    requires Agreed(s) && i < |s.t.ops| && s.t.ops[i].vm !in s.misfiled
    requires Active(s.t.ops[i].stage) && !s.t.ops[i].stage.Queued?
    requires Effected(s.calls, i, s.t.ops[i].stage.cmd)
    requires o.Commit? && o.op.kind == s.t.ops[i].kind && o.op.stage == NextStage(s.t.ops[i].kind, s.t.ops[i].stage.cmd)
    requires o.vm.at == s.t.vms[s.t.ops[i].vm].at
    requires s.t.ops[i].stage.cmd == CloneVm
             || o.vm.status == ConfirmedStatus(s.t.ops[i].stage.cmd, s.t.vms[s.t.ops[i].vm].status)
    ensures MoveAgrees(s, i, o)
  {
    var op := s.t.ops[i];
    var c := op.stage.cmd;
    assert OpAgrees(s, i);
    assert Sound(op, s.t.vms[op.vm]);
    forall k | 0 <= k < |s.calls| && s.calls[k].op == i
      ensures StageAgrees(o.op.kind, o.op.stage, s.calls[k].cmd, s.calls[k].progress)
      ensures o.op.stage.Queued? ==> s.calls[k].cmd != o.op.stage.cmd
    {
      assert CallAgrees(s, k) && CallOk(s.t, s.calls[k]);
      TheCall(s, k);
      if Index(op.kind, s.calls[k].cmd) == Index(op.kind, c) { IndexInjective(op.kind, s.calls[k].cmd, c); }
    }
    NextBefore(op.kind, c);
  }

  /** A command finds what the one before it left. */
  lemma NextBefore(kind: Kind, c: Command)
    requires Uses(kind, c)
    ensures NextStage(kind, c).Queued? ==> Before(NextStage(kind, c).cmd) == After(c)
    ensures NextStage(kind, c).Queued? ==> Index(kind, NextStage(kind, c).cmd) == Index(kind, c) + 1
    ensures NextStage(kind, c).Done? ==> forall v :: StatusAgrees(ConfirmedStatus(c, v), After(c))
  {}

  /** Staying at the command without a new claim. */
  lemma StayMove(s: State, i: nat, o: Outcome)
    requires Agreed(s) && i < |s.t.ops| && s.t.ops[i].vm !in s.misfiled
    requires Active(s.t.ops[i].stage) && !s.t.ops[i].stage.Queued?
    requires o.Commit? && o.op.kind == s.t.ops[i].kind && o.vm.at == s.t.vms[s.t.ops[i].vm].at
    requires var c := s.t.ops[i].stage.cmd;
             || o.op.stage == Unsure(c) || o.op.stage == Parked(c)
             || (o.op.stage.Awaiting? && o.op.stage.cmd == c
                 && forall k :: 0 <= k < |s.calls| && s.calls[k].op == i && s.calls[k].cmd == c ==>
                      s.calls[k].progress.Tasked? && s.calls[k].progress.id == o.op.stage.task)
    ensures MoveAgrees(s, i, o)
  {
    assert OpAgrees(s, i);
    forall k | 0 <= k < |s.calls| && s.calls[k].op == i
      ensures StageAgrees(o.op.kind, o.op.stage, s.calls[k].cmd, s.calls[k].progress)
    {
      assert CallAgrees(s, k) && CallOk(s.t, s.calls[k]);
    }
  }

  /** A reading that proves a command is only possible once the command took effect. */
  lemma ProofIsReal(s: State, i: nat, power: Power, locked: bool)
    requires Agreed(s) && i < |s.t.ops| && s.t.ops[i].vm !in s.misfiled
    requires s.t.ops[i].stage.Dispatched? || s.t.ops[i].stage.Unsure?
    requires s.t.vms[s.t.ops[i].vm].at.Some?
    requires PowerRead(s.machines, s.t.ops[i].vm, s.t.vms[s.t.ops[i].vm].at.value) == PowerIs(power, locked)
    requires Proves(s.t.ops[i].stage.cmd, power, locked)
    ensures Effected(s.calls, i, s.t.ops[i].stage.cmd)
  {
    assert OpAgrees(s, i);
  }

  lemma ReconcileMove(r: State, s: State, i: nat, answer: PowerAnswer, stamp: Time)
    requires Agreed(r) && Agreed(s) && Later(r.calls, s.calls) && r.misfiled <= s.misfiled
    requires i < |r.t.ops| && i < |s.t.ops| && r.t.ops[i] == s.t.ops[i]
             && r.t.vms[r.t.ops[i].vm] == s.t.vms[r.t.ops[i].vm]
    requires s.t.ops[i].vm !in s.misfiled
    requires s.t.vms[s.t.ops[i].vm].at.Some? ==>
               answer == PowerUnavailable
                 || answer == PowerRead(r.machines, s.t.ops[i].vm, s.t.vms[s.t.ops[i].vm].at.value)
    requires Reconcile(s.t.ops[i], s.t.vms[s.t.ops[i].vm], answer, stamp).Commit?
    ensures MoveAgrees(s, i, Reconcile(s.t.ops[i], s.t.vms[s.t.ops[i].vm], answer, stamp))
  {
    hide CallAgrees, CloneHeld, OpAgrees, VmAgrees, CallsOk, MarkersCalled, CallsUnique, TasksUnique, MoveAgrees,
      Effected, PowerRead;
    var op, vm := s.t.ops[i], s.t.vms[s.t.ops[i].vm];
    var o := Reconcile(op, vm, answer, stamp);
    if vm.at.Some? && answer.PowerIs? && Proves(op.stage.cmd, answer.power, answer.locked) {
      ProofIsReal(r, i, answer.power, answer.locked);
      LaterEffected(r.calls, s.calls, i, op.stage.cmd);
      ConfirmMove(s, i, o);
    } else {
      StayMove(s, i, o);
    }
  }

  /** The task an operation waits for is the task of its own call. */
  lemma AwaitedTask(s: State, i: nat) returns (k: nat)
    requires Agreed(s) && i < |s.t.ops| && s.t.ops[i].vm !in s.misfiled && s.t.ops[i].stage.Awaiting?
    ensures k < |s.calls| && s.calls[k].op == i && s.calls[k].cmd == s.t.ops[i].stage.cmd
    ensures s.calls[k].progress.Tasked? && s.calls[k].progress.id == s.t.ops[i].stage.task
    ensures forall l :: 0 <= l < |s.calls| && s.calls[l].progress.Tasked? ==>
              (s.calls[l].progress.id == s.t.ops[i].stage.task <==> l == k)
    ensures forall l :: 0 <= l < |s.calls| && s.calls[l].op == i && s.calls[l].cmd == s.t.ops[i].stage.cmd ==> l == k
  {
    var op := s.t.ops[i];
    assert Sound(op, s.t.vms[op.vm]);
    assert Marked(op.kind, op.stage, op.stage.cmd);
    assert HasCall(s.calls, i, op.stage.cmd);
    k :| 0 <= k < |s.calls| && s.calls[k].op == i && s.calls[k].cmd == op.stage.cmd;
    assert CallAgrees(s, k);
  }

  lemma PollMove(r: State, s: State, i: nat, answer: TaskAnswer, stamp: Time)
    requires Agreed(r) && Agreed(s) && Later(r.calls, s.calls) && r.misfiled <= s.misfiled
    requires i < |r.t.ops| && i < |s.t.ops| && r.t.ops[i] == s.t.ops[i] && s.t.ops[i].vm !in s.misfiled
    requires s.t.ops[i].stage.Awaiting? && TaskTruth(r.calls, s.t.ops[i].stage.task, answer)
    ensures MoveAgrees(s, i, Poll(s.t.ops[i], s.t.vms[s.t.ops[i].vm], answer, stamp))
  {
    hide CallAgrees, CloneHeld, OpAgrees, VmAgrees, CallsOk, MarkersCalled, CallsUnique, TasksUnique, MoveAgrees;
    var op, vm := s.t.ops[i], s.t.vms[s.t.ops[i].vm];
    var o := Poll(op, vm, answer, stamp);
    var k := AwaitedTask(r, i);
    var l := AwaitedTask(s, i);
    assert k == l;
    TheCall(s, k);
    assert vm.at.Some? by { assert Sound(op, vm); }
    match answer
    case TaskSucceeded =>
      assert s.calls[k].progress == Tasked(op.stage.task, Ended);
      ConfirmMove(s, i, o);
    case TaskFailed(_) =>
      assert s.calls[k].progress == Tasked(op.stage.task, Aborted);
      BrokenMove(s, i, k, o);
    case _ =>
      StayMove(s, i, o);
  }

  lemma BrokenMove(s: State, i: nat, k: nat, o: Outcome)
    requires Agreed(s) && i < |s.t.ops| && s.t.ops[i].vm !in s.misfiled && s.t.ops[i].stage.Awaiting?
    requires k < |s.calls| && s.calls[k].op == i && s.calls[k].cmd == s.t.ops[i].stage.cmd
    requires s.calls[k].progress == Tasked(s.t.ops[i].stage.task, Aborted)
    requires o.Commit? && o.op.kind == s.t.ops[i].kind && o.vm.at == s.t.vms[s.t.ops[i].vm].at
    requires o.op.stage.Broken? && o.op.stage.cmd == s.t.ops[i].stage.cmd && o.op.stage.task == s.t.ops[i].stage.task
    requires o.vm.status == match s.t.ops[i].kind
                            case Create => VmFailed case Delete => VmDeleting case _ => s.t.vms[s.t.ops[i].vm].status
    ensures MoveAgrees(s, i, o)
  {
    var op := s.t.ops[i];
    assert OpAgrees(s, i) && Sound(op, s.t.vms[op.vm]);
    TheCall(s, k);
    forall l | 0 <= l < |s.calls| && s.calls[l].op == i
      ensures StageAgrees(o.op.kind, o.op.stage, s.calls[l].cmd, s.calls[l].progress)
    {
      assert CallAgrees(s, l) && CallOk(s.t, s.calls[l]);
    }
  }

  lemma PassAgreed(s: State, i: nat, now: Time, read: Time, answers: Answers)
    requires Agreed(s) && CanPass(s, i, now, read, answers)
    ensures Agreed(DoPass(s, i, answers))
  {
    StalePassAgreed(s, s, i, now, answers);
  }

  /** The calls of an earlier state, further along. */
  predicate Later(calls: seq<Call>, calls': seq<Call>) {
    && |calls| <= |calls'|
    && (forall k :: 0 <= k < |calls| ==>
          && calls'[k].op == calls[k].op && calls'[k].cmd == calls[k].cmd
          && (Effective(calls[k].progress) ==> Effective(calls'[k].progress))
          && (calls[k].progress.Tasked? && (calls[k].progress.state == Ended || calls[k].progress.state == Aborted) ==>
                calls'[k].progress == calls[k].progress))
  }

  lemma LaterEffected(calls: seq<Call>, calls': seq<Call>, i: nat, c: Command)
    requires Later(calls, calls') && Effected(calls, i, c)
    ensures Effected(calls', i, c)
  {
    var k :| 0 <= k < |calls| && calls[k].op == i && calls[k].cmd == c && Effective(calls[k].progress);
    assert calls'[k].op == i && calls'[k].cmd == c && Effective(calls'[k].progress);
  }

  /** A pass may commit on what it read a while ago, in state `r`: as long as its locked rows are the same, a proof it
      read then is still one. So reading and committing need not be one step. */
  lemma StalePassAgreed(r: State, s: State, i: nat, now: Time, answers: Answers)
    requires Agreed(r) && Agreed(s) && Later(r.calls, s.calls) && r.misfiled <= s.misfiled
    requires i < |r.t.ops| && i < |s.t.ops| && r.t.ops[i] == s.t.ops[i]
             && r.t.vms[r.t.ops[i].vm] == s.t.vms[r.t.ops[i].vm]
    requires Selectable(s.t.ops[i], now) && Truthful(r, r.t.ops[i], r.t.vms[r.t.ops[i].vm], answers)
    ensures Agreed(DoPass(s, i, answers))
  {
    hide CallAgrees, CloneHeld, OpAgrees, VmAgrees, CallsOk, MarkersCalled, CallsUnique, TasksUnique, MoveAgrees,
      Truthful;
    var op, vm := s.t.ops[i], s.t.vms[s.t.ops[i].vm];
    var o := FirstPass(op, vm, answers, s.clock);
    PassInv(s, i, now, answers);
    if Commits(s.t, i, o) {
      PassEvolves(op, vm, now, answers, s.clock);
      if op.vm !in s.misfiled { PassMove(r, s, i, now, answers); }
      TransactAgreed(s, DoPass(s, i, answers), i, o);
    }
  }

  lemma PassMove(r: State, s: State, i: nat, now: Time, answers: Answers)
    requires Agreed(r) && Agreed(s) && Later(r.calls, s.calls) && r.misfiled <= s.misfiled
    requires i < |r.t.ops| && i < |s.t.ops| && r.t.ops[i] == s.t.ops[i]
             && r.t.vms[r.t.ops[i].vm] == s.t.vms[r.t.ops[i].vm]
    requires s.t.ops[i].vm !in s.misfiled
    requires Selectable(s.t.ops[i], now) && Truthful(r, r.t.ops[i], r.t.vms[r.t.ops[i].vm], answers)
    requires FirstPass(s.t.ops[i], s.t.vms[s.t.ops[i].vm], answers, s.clock).Commit?
    ensures MoveAgrees(s, i, FirstPass(s.t.ops[i], s.t.vms[s.t.ops[i].vm], answers, s.clock))
  {
    hide CallAgrees, CloneHeld, OpAgrees, VmAgrees, CallsOk, MarkersCalled, CallsUnique, TasksUnique, MoveAgrees;
    var op, vm := s.t.ops[i], s.t.vms[s.t.ops[i].vm];
    if NeedsPlacement(op, vm) {
      PlacementMove(s, i, answers.target.at);
    } else {
      match op.stage
      case Queued(_) => MarkMove(s, i, s.clock);
      case Awaiting(_, _, _) => PollMove(r, s, i, answers.task, s.clock);
      case _ => ReconcileMove(r, s, i, answers.power, s.clock);
    }
  }

  /** A result that is not misfiled belongs to the command the operation waits at. */
  lemma SettledCommand(s: State, k: nat)
    requires Agreed(s) && CanFinish(s, k) && Commits(s.t, s.calls[k].op, SettleOf(s, k)) && !Misfiles(s, k)
    ensures var op := s.t.ops[s.calls[k].op];
            && Active(op.stage) && !op.stage.Queued? && op.stage.cmd == s.calls[k].cmd
            && s.t.vms[op.vm].at == Some(s.calls[k].at)
  {
    hide OpAgrees, VmAgrees, CallAgrees, CloneHeld, MarkersCalled, TasksUnique, CallsUnique, DraftsOk;
    var op, call := s.t.ops[s.calls[k].op], s.calls[k];
    assert CallOk(s.t, call) && Sound(op, s.t.vms[OpVm(s, k)]);
    if op.stage.Unsure? { OneCommand(op.kind, op.stage.cmd, call.cmd); }
  }

  lemma SettleMove(s: State, k: nat)
    requires Agreed(s) && CanFinish(s, k) && OpVm(s, k) !in s.misfiled
    requires Commits(s.t, s.calls[k].op, SettleOf(s, k)) && !Misfiles(s, k)
    ensures MoveAgrees(s, s.calls[k].op, SettleOf(s, k))
  {
    hide OpAgrees, VmAgrees, CallAgrees, CloneHeld, Inv, MoveAgrees, StageAgrees, Effected, ReadResult;
    var i, call := s.calls[k].op, s.calls[k];
    SettledCommand(s, k);
    match ReadResult(call.cmd, ResultOf(call).value)
    case Finished =>
      FinishedIsReal(s, k);
      ConfirmMove(s, i, SettleOf(s, k));
    case Unfinished => StayMove(s, i, SettleOf(s, k));
    case Working(_) =>
      WorkingIsOwn(s, k);
      StayMove(s, i, SettleOf(s, k));
  }

  /** A result that reports completion comes from a call that took effect. */
  lemma FinishedIsReal(s: State, k: nat)
    requires Agreed(s) && k < |s.calls| && OpVm(s, k) !in s.misfiled && ResultOf(s.calls[k]).Some?
    requires ReadResult(s.calls[k].cmd, ResultOf(s.calls[k]).value) == Finished
    ensures Effected(s.calls, s.calls[k].op, s.calls[k].cmd)
  {
    hide OpAgrees, VmAgrees, CloneHeld, MarkersCalled, TasksUnique, DraftsOk, TablesOk;
    assert CallAgrees(s, k);
    TheCall(s, k);
  }

  /** A task in a result is the task of that very call, the only one of its operation and command. */
  lemma WorkingIsOwn(s: State, k: nat)
    requires Agreed(s) && k < |s.calls| && OpVm(s, k) !in s.misfiled && ResultOf(s.calls[k]).Some?
    requires ReadResult(s.calls[k].cmd, ResultOf(s.calls[k]).value).Working?
    ensures s.calls[k].progress.Tasked?
    ensures ReadResult(s.calls[k].cmd, ResultOf(s.calls[k]).value).task.id == s.calls[k].progress.id
    ensures forall l :: 0 <= l < |s.calls| && s.calls[l].op == s.calls[k].op && s.calls[l].cmd == s.calls[k].cmd ==>
              l == k
  {
    hide OpAgrees, VmAgrees, CloneHeld, MarkersCalled, TasksUnique, DraftsOk, TablesOk;
    assert CallAgrees(s, k);
  }

  lemma OneCommand(kind: Kind, c: Command, d: Command)
    requires (kind == Shutdown || kind == Stop) && Uses(kind, c) && Uses(kind, d)
    ensures c == d
  {}

  lemma FinishAgreed(s: State, k: nat)
    requires Agreed(s) && CanFinish(s, k)
    ensures Agreed(DoFinish(s, k))
  {
    if Commits(s.t, s.calls[k].op, SettleOf(s, k)) {
      FinishCommitAgreed(s, k);
    } else {
      hide OpAgrees, VmAgrees, CallAgrees, CloneHeld, Inv;
      assert DoFinish(s, k) == s.(calls := Detach(s.calls, k));
      DetachAgreed(s, k);
    }
  }

  lemma FinishCommitAgreed(s: State, k: nat)
    requires Agreed(s) && CanFinish(s, k) && Commits(s.t, s.calls[k].op, SettleOf(s, k))
    ensures Agreed(DoFinish(s, k))
  {
    hide OpAgrees, VmAgrees, CallAgrees, CloneHeld, StageAgrees, ReadResult;
    var i, s' := s.calls[k].op, DoFinish(s, k);
    FinishInv(s, k);
    SettleEvolves(s.t.ops[i], s.t.vms[OpVm(s, k)], s.calls[k].cmd, ResultOf(s.calls[k]).value, s.clock);
    if OpVm(s, k) !in s'.misfiled { SettleMove(s, k); }
    TransactAgreed(s, s', i, SettleOf(s, k));
  }

  lemma DetachAgreed(s: State, k: nat)
    requires Agreed(s) && k < |s.calls|
    ensures Agreed(s.(calls := Detach(s.calls, k)))
  {
    var s' := s.(calls := Detach(s.calls, k));
    CallUpdate(s.t, s.calls, k, s.calls[k].(attached := false));
    SameCallFates(s, s');
  }

  /** Only who waits for a call has changed. */
  lemma SameCallFates(s: State, s': State)
    requires Agreed(s) && Inv(s')
    requires s'.t == s.t && s'.machines == s.machines && s'.misfiled == s.misfiled
    requires |s'.calls| == |s.calls| && SameFates(s.calls, s'.calls, 0)
    ensures Agreed(s')
  {
    forall k | 0 <= k < |s'.calls| ensures CallAgrees(s', k) && CloneHeld(s', k) {
      assert CallAgrees(s, k) && CloneHeld(s, k);
    }
    forall n | 0 <= n < |s'.t.ops| ensures OpAgrees(s', n) {
      assert OpAgrees(s, n);
      if Active(s.t.ops[n].stage) { EffectedSame(s.calls, s'.calls, 0, n, s.t.ops[n].stage.cmd); }
    }
    forall w | 0 <= w < |s'.t.vms| ensures VmAgrees(s', w) { assert VmAgrees(s, w); }
  }

  lemma FailAgreed(s: State, k: nat)
    requires Agreed(s) && CanFail(s, k)
    ensures Agreed(s.(t := Transact(s.t, s.calls[k].op, LoseOf(s, k)), calls := Detach(s.calls, k)))
  {
    if Commits(s.t, s.calls[k].op, LoseOf(s, k)) {
      FailCommitAgreed(s, k);
    } else {
      DetachAgreed(s, k);
    }
  }

  lemma FailCommitAgreed(s: State, k: nat)
    requires Agreed(s) && CanFail(s, k) && Commits(s.t, s.calls[k].op, LoseOf(s, k))
    ensures Agreed(s.(t := Transact(s.t, s.calls[k].op, LoseOf(s, k)), calls := Detach(s.calls, k)))
  {
    hide OpAgrees, VmAgrees, CallAgrees, CloneHeld, StageAgrees, Settle;
    var i := s.calls[k].op;
    var o := LoseOf(s, k);
    FailInv(s, k);
    SettleEvolves(s.t.ops[i], s.t.vms[OpVm(s, k)], s.calls[k].cmd, NoTask, s.clock);
    if OpVm(s, k) !in s.misfiled { StayMove(s, i, o); }
    TransactAgreed(s, s.(t := Transact(s.t, i, o), calls := Detach(s.calls, k)), i, o);
  }

  // ---- provider steps ----

  ghost predicate SameElsewhere(machines: map<int, Machine>, machines': map<int, Machine>, vmid: int) {
    forall x :: x != vmid ==> (x in machines' <==> x in machines) && (x in machines ==> machines'[x] == machines[x])
  }

  lemma ViewElsewhere(machines: map<int, Machine>, machines': map<int, Machine>, vms: seq<Vm>, v: nat, w: nat)
    requires v < |vms| && w < |vms| && v != w && UniqueVmids(vms) && vms[v].at.Some?
    requires SameElsewhere(machines, machines', vms[v].at.value.vmid)
    ensures View(machines', vms, w) == View(machines, vms, w)
  {}

  predicate NotYet(p: Progress) {
    p == Sent || (p.Tasked? && p.state == Waiting)
  }

  /** What a provider step on call `k` has to keep. */
  ghost predicate ProviderStep(s: State, s': State, k: nat) {
    && k < |s.calls| && Inv(s') && s'.t == s.t && s'.misfiled == s.misfiled
    && NotYet(s.calls[k].progress)
    && |s'.calls| == |s.calls| && s'.calls == s.calls[k := s.calls[k].(progress := s'.calls[k].progress)]
    && SameElsewhere(s.machines, s'.machines, s.calls[k].at.vmid)
    && OwnersPlaced(s'.machines, s.t.vms)
  }

  lemma ProviderCallsAgree(s: State, s': State, k: nat)
    requires Agreed(s) && ProviderStep(s, s', k)
    requires OpVm(s, k) !in s.misfiled ==> CallAgrees(s', k) && CloneHeld(s', k)
    ensures forall l :: 0 <= l < |s'.calls| ==> s'.calls[l].op < |s'.t.ops| && CallAgrees(s', l) && CloneHeld(s', l)
  {
    forall l | 0 <= l < |s'.calls| ensures s'.calls[l].op < |s'.t.ops| && CallAgrees(s', l) && CloneHeld(s', l) {
      assert CallOk(s.t, s.calls[l]) && CallOk(s.t, s.calls[k]) && CallAgrees(s, l) && CloneHeld(s, l);
      if l != k && OpVm(s, l) !in s.misfiled && s.calls[l].cmd == CloneVm
         && s.calls[l].progress.Tasked? && s.calls[l].progress.state == Waiting {
        if OpVm(s, l) == OpVm(s, k) {
          PendingIsCurrent(s, k);
          PendingIsCurrent(s, l);
        }
      }
    }
  }

  lemma ProviderAgreed(s: State, s': State, k: nat)
    requires Agreed(s) && ProviderStep(s, s', k)
    requires OpVm(s, k) !in s.misfiled ==>
               && CallAgrees(s', k) && CloneHeld(s', k)
               && View(s'.machines, s.t.vms, OpVm(s, k))
                  == if Effective(s'.calls[k].progress) then After(s.calls[k].cmd) else Before(s.calls[k].cmd)
    ensures Agreed(s')
  {
    var i, v := s.calls[k].op, OpVm(s, k);
    assert CallOk(s.t, s.calls[k]);
    ProviderCallsAgree(s, s', k);
    if v !in s.misfiled { PendingIsCurrent(s, k); }
    forall n | 0 <= n < |s'.t.ops| ensures s'.t.ops[n].vm < |s'.t.vms| && OpAgrees(s', n) {
      assert OpAgrees(s, n);
      if Active(s.t.ops[n].stage) {
        if n != i { OtherEffected(s.calls, s'.calls, k, n, s.t.ops[n].stage.cmd); }
        if n == i { TheCall(s', k); }
        if s.t.ops[n].vm != v { ViewElsewhere(s.machines, s'.machines, s.t.vms, v, s.t.ops[n].vm); }
      }
    }
    forall w | 0 <= w < |s'.t.vms| ensures VmAgrees(s', w) {
      assert VmAgrees(s, w);
      if w != v { ViewElsewhere(s.machines, s'.machines, s.t.vms, v, w); }
    }
  }

  lemma OtherEffected(calls: seq<Call>, calls': seq<Call>, k: nat, n: nat, c: Command)
    requires k < |calls| && |calls'| == |calls| && calls[k].op != n
    requires calls' == calls[k := calls[k].(progress := calls'[k].progress)]
    ensures Effected(calls', n, c) <==> Effected(calls, n, c)
  {
    if Effected(calls, n, c) {
      var l :| 0 <= l < |calls| && calls[l].op == n && calls[l].cmd == c && Effective(calls[l].progress);
      assert calls'[l] == calls[l];
    }
    if Effected(calls', n, c) {
      var l :| 0 <= l < |calls'| && calls'[l].op == n && calls'[l].cmd == c && Effective(calls'[l].progress);
      assert calls[l] == calls'[l];
    }
  }

  lemma EffectAgreed(s: State, k: nat, id: TaskId, instant: bool, gb: int)
    requires Agreed(s) && CanReach(s, k, id)
    ensures Agreed(DoEffect(s, k, id, instant, gb))
  {
    var s' := DoEffect(s, k, id, instant, gb);
    EffectInv(s, k, id, instant, gb);
    assert CallOk(s.t, s.calls[k]);
    EffectOwners(s, k, id, instant, gb);
    if OpVm(s, k) !in s.misfiled {
      PendingIsCurrent(s, k);
      assert CallAgrees(s, k);
      EffectOnView(s, k, id, instant, gb);
    }
    ProviderAgreed(s, s', k);
  }

  lemma EffectOwners(s: State, k: nat, id: TaskId, instant: bool, gb: int)
    requires Agreed(s) && CanReach(s, k, id)
    ensures var s' := DoEffect(s, k, id, instant, gb);
            OwnersPlaced(s'.machines, s.t.vms) && SameElsewhere(s.machines, s'.machines, s.calls[k].at.vmid)
  {
    assert CallOk(s.t, s.calls[k]);
  }

  /** Against the expected provider state the adapter's guards send the command, and nothing is already done. */
  lemma EffectOnView(s: State, k: nat, id: TaskId, instant: bool, gb: int)
    requires Agreed(s) && CanReach(s, k, id) && OpVm(s, k) !in s.misfiled
    requires View(s.machines, s.t.vms, OpVm(s, k)) == Before(s.calls[k].cmd)
    ensures var s' := DoEffect(s, k, id, instant, gb);
            && Honest(s'.calls[k].cmd, s'.calls[k].progress)
            && (s'.calls[k].progress.Tasked? ==> s'.calls[k].progress == Tasked(id, Waiting))
            && View(s'.machines, s.t.vms, OpVm(s, k))
               == (if Effective(s'.calls[k].progress) then After(s.calls[k].cmd) else Before(s.calls[k].cmd))
            && CloneHeld(s', k)
  {
    assert CallOk(s.t, s.calls[k]);
  }

  lemma ApplyAgreed(s: State, k: nat)
    requires Agreed(s) && CanApply(s, k)
    ensures Agreed(DoApply(s, k))
  {
    var s' := DoApply(s, k);
    assert CallOk(s.t, s.calls[k]) && CallAgrees(s, k) && CloneHeld(s, k);
    CallUpdate(s.t, s.calls, k, s.calls[k].(progress := Tasked(s.calls[k].progress.id, Applied)));
    ApplyElsewhere(s, k);
    if OpVm(s, k) !in s.misfiled {
      PendingIsCurrent(s, k);
      ApplyOnView(s, k);
    }
    ProviderAgreed(s, s', k);
  }

  lemma ApplyElsewhere(s: State, k: nat)
    requires Agreed(s) && CanApply(s, k)
    ensures OwnersPlaced(DoApply(s, k).machines, s.t.vms)
    ensures SameElsewhere(s.machines, DoApply(s, k).machines, s.calls[k].at.vmid)
  {}

  lemma ApplyOnView(s: State, k: nat)
    requires Agreed(s) && CanApply(s, k) && OpVm(s, k) !in s.misfiled
    requires View(s.machines, s.t.vms, OpVm(s, k)) == Before(s.calls[k].cmd)
    ensures View(DoApply(s, k).machines, s.t.vms, OpVm(s, k)) == After(s.calls[k].cmd)
  {
    assert CallOk(s.t, s.calls[k]) && CloneHeld(s, k);
  }

  lemma AbortAgreed(s: State, k: nat)
    requires Agreed(s) && CanAbort(s, k)
    ensures Agreed(DoAbort(s, k))
  {
    var s' := DoAbort(s, k);
    assert CallOk(s.t, s.calls[k]) && CallAgrees(s, k) && CloneHeld(s, k);
    CallUpdate(s.t, s.calls, k, s.calls[k].(progress := Tasked(s.calls[k].progress.id, Aborted)));
    if OpVm(s, k) !in s.misfiled { PendingIsCurrent(s, k); }
    ProviderAgreed(s, s', k);
  }

  lemma EndAgreed(s: State, k: nat)
    requires Agreed(s) && Enabled(s, TaskEnd(k))
    ensures Agreed(s.(calls := s.calls[k := s.calls[k].(progress := Tasked(s.calls[k].progress.id, Ended))]))
  {
    var s' := s.(calls := s.calls[k := s.calls[k].(progress := Tasked(s.calls[k].progress.id, Ended))]);
    CallUpdate(s.t, s.calls, k, s'.calls[k]);
    forall l | 0 <= l < |s'.calls| ensures s'.calls[l].op < |s'.t.ops| && CallAgrees(s', l) && CloneHeld(s', l) {
      assert CallAgrees(s, l) && CloneHeld(s, l);
    }
    forall n | 0 <= n < |s'.t.ops| ensures s'.t.ops[n].vm < |s'.t.vms| && OpAgrees(s', n) {
      assert OpAgrees(s, n);
      if Active(s.t.ops[n].stage) {
        if n != s.calls[k].op { OtherEffected(s.calls, s'.calls, k, n, s.t.ops[n].stage.cmd); }
        else { EndedEffected(s.calls, s'.calls, k, s.t.ops[n].stage.cmd); }
      }
    }
    forall w | 0 <= w < |s'.t.vms| ensures VmAgrees(s', w) { assert VmAgrees(s, w); }
  }

  lemma EndedEffected(calls: seq<Call>, calls': seq<Call>, k: nat, c: Command)
    requires k < |calls| && |calls'| == |calls|
    requires calls' == calls[k := calls[k].(progress := calls'[k].progress)]
    requires Effective(calls'[k].progress) <==> Effective(calls[k].progress)
    ensures Effected(calls', calls[k].op, c) <==> Effected(calls, calls[k].op, c)
  {
    var n := calls[k].op;
    if Effected(calls, n, c) {
      var l :| 0 <= l < |calls| && calls[l].op == n && calls[l].cmd == c && Effective(calls[l].progress);
      assert calls'[l].op == n && calls'[l].cmd == c && Effective(calls'[l].progress);
    }
    if Effected(calls', n, c) {
      var l :| 0 <= l < |calls'| && calls'[l].op == n && calls'[l].cmd == c && Effective(calls'[l].progress);
      assert calls[l].op == n && calls[l].cmd == c && Effective(calls[l].progress);
    }
  }

  // ---- requests and the outside world ----

  lemma InsertCreateAgreed(s: State, d: nat)
    requires Agreed(s) && d < |s.drafts| && s.drafts[d].OpenCreate?
    ensures Agreed(DoInsertCreate(s, d))
  {
    var r, s' := s.drafts[d], DoInsertCreate(s, d);
    InsertCreateInv(s, d);
    if KeyFree(s.t.ops, r.key) {
      forall l | 0 <= l < |s'.calls| ensures s'.calls[l].op < |s'.t.ops| && CallAgrees(s', l) && CloneHeld(s', l) {
        assert CallOk(s.t, s.calls[l]) && CallAgrees(s, l) && CloneHeld(s, l);
      }
      forall n | 0 <= n < |s'.t.ops| ensures s'.t.ops[n].vm < |s'.t.vms| && OpAgrees(s', n) {
        if n < |s.t.ops| { assert OpAgrees(s, n); }
        else { NewOpUncalled(s, s'); }
      }
      forall w | 0 <= w < |s'.t.vms| ensures VmAgrees(s', w) {
        if w < |s.t.vms| { assert VmAgrees(s, w); StillNotBusy(s.t.ops, s'.t.ops, w); }
      }
    } else {
      SameTablesAgreed(s, s');
    }
  }

  lemma NewOpUncalled(s: State, s': State)
    requires Inv(s) && s'.calls == s.calls
    ensures forall c :: !Effected(s'.calls, |s.t.ops|, c)
  {
    forall k | 0 <= k < |s.calls| ensures s.calls[k].op != |s.t.ops| { assert CallOk(s.t, s.calls[k]); }
  }

  lemma StillNotBusy(ops: seq<Op>, ops': seq<Op>, w: nat)
    requires |ops| <= |ops'| && ops'[..|ops|] == ops
    ensures !Busy(ops', w) ==> !Busy(ops, w)
  {
    if Busy(ops, w) {
      var n :| 0 <= n < |ops| && ops[n].vm == w && Active(ops[n].stage);
      assert ops'[n] == ops'[..|ops|][n];
    }
  }

  lemma InsertEnqueueAgreed(s: State, d: nat)
    requires Agreed(s) && d < |s.drafts| && s.drafts[d].OpenEnqueue?
    ensures Agreed(DoInsertEnqueue(s, d))
  {
    var r, s' := s.drafts[d], DoInsertEnqueue(s, d);
    InsertEnqueueInv(s, d);
    if KeyFree(s.t.ops, r.key) {
      assert DraftOk(s.t, r);
      forall l | 0 <= l < |s'.calls| ensures s'.calls[l].op < |s'.t.ops| && CallAgrees(s', l) && CloneHeld(s', l) {
        assert CallOk(s.t, s.calls[l]) && CallAgrees(s, l) && CloneHeld(s, l);
      }
      forall n | 0 <= n < |s'.t.ops| ensures s'.t.ops[n].vm < |s'.t.vms| && OpAgrees(s', n) {
        if n < |s.t.ops| { assert OpAgrees(s, n); }
        else { NewOpUncalled(s, s'); assert VmAgrees(s, r.vm); }
      }
      forall w | 0 <= w < |s'.t.vms| ensures VmAgrees(s', w) {
        assert VmAgrees(s, w);
        StillNotBusy(s.t.ops, s'.t.ops, w);
      }
    } else {
      SameTablesAgreed(s, s');
    }
  }

  /** Tables, calls and every portal VM's resource are as before. */
  lemma SameTablesAgreed(s: State, s': State)
    requires Agreed(s) && Inv(s') && s'.t == s.t && s'.calls == s.calls && s'.misfiled == s.misfiled
    requires OwnersPlaced(s'.machines, s.t.vms)
    requires forall vmid :: vmid in s.machines && s.machines[vmid].owner.Some? ==>
               vmid in s'.machines && s'.machines[vmid] == s.machines[vmid].(locked := s'.machines[vmid].locked)
    requires forall vmid :: vmid in s'.machines && s'.machines[vmid].owner.Some? ==>
               vmid in s.machines && s.machines[vmid].owner.Some?
    ensures Agreed(s')
  {
    forall l | 0 <= l < |s'.calls| ensures CallAgrees(s', l) && CloneHeld(s', l) {
      assert CallAgrees(s, l) && CloneHeld(s, l);
    }
    forall w | 0 <= w < |s.t.vms| ensures View(s'.machines, s.t.vms, w) == View(s.machines, s.t.vms, w) {}
    forall n | 0 <= n < |s'.t.ops| ensures OpAgrees(s', n) { assert OpAgrees(s, n); }
    forall w | 0 <= w < |s'.t.vms| ensures VmAgrees(s', w) { assert VmAgrees(s, w); }
  }

  lemma OutsideAgreed(s: State, e: Event)
    requires Agreed(s) && Inv(Do(s, e))
    requires e.Appear? || e.Vanish? || e.SetLock? || e.SetQuota? || e.AddKey? || e.Tick? || e.CheckCreate?
             || e.CheckEnqueue?
    ensures Agreed(Do(s, e))
  {
    hide View, OpAgrees, VmAgrees, CallAgrees, CloneHeld, Inv;
    SameTablesAgreed(s, Do(s, e));
  }

  lemma StepAgreed(s: State, e: Event)
    requires Agreed(s)
    ensures Agreed(Do(s, e))
  {
    hide View, OpAgrees, VmAgrees, CallAgrees, CloneHeld, Inv, OwnersPlaced, DoPass, DoEffect, DoFinish, DoApply,
      DoAbort;
    StepInv(s, e);
    if Enabled(s, e) {
      match e
      case InsertCreate(d) => InsertCreateAgreed(s, d);
      case InsertEnqueue(d) => InsertEnqueueAgreed(s, d);
      case Pass(i, now, read, answers) => PassAgreed(s, i, now, read, answers);
      case Effect(k, id, instant, gb) => EffectAgreed(s, k, id, instant, gb);
      case Finish(k) => FinishAgreed(s, k);
      case Fail(k) => FailAgreed(s, k);
      case Crash(k) => DetachAgreed(s, k);
      case TaskApply(k) => ApplyAgreed(s, k);
      case TaskEnd(k) => EndAgreed(s, k);
      case TaskAbort(k) => AbortAgreed(s, k);
      case _ => OutsideAgreed(s, e);
    }
  }

  /** Every reachable state agrees with the provider. */
  lemma {:induction false} RunAgreed(plans: map<UserId, Plan>, events: seq<Event>)
    ensures Agreed(Run(Initial(plans), events))
  {
    if events != [] {
      RunAgreed(plans, events[..|events| - 1]);
      StepAgreed(Run(Initial(plans), events[..|events| - 1]), events[|events| - 1]);
    }
  }
}
