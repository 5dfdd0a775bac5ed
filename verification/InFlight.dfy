/** A call in flight and its operation's row: exactly which event takes the marker away, and exactly when the
    row is pending although its worker still waits. */
module InFlight {
  import opened Domain
  import opened Phases
  import opened Transitions
  import opened Tables
  import opened Evolution
  import opened Protocol
  import opened Invariants
  import opened Agreement
  import opened Grace
  import opened Requests
  import opened Safety

  /** Call `k` is in flight before and after the event. */
  ghost predicate StaysInFlight(s: State, e: Event, k: nat) {
    k < |s.calls| && s.calls[k].attached && k < |Do(s, e).calls| && Do(s, e).calls[k].attached
  }

  function RowOf(s: State, k: nat): Op
    requires k < |s.calls| && s.calls[k].op < |s.t.ops|
  {
    s.t.ops[s.calls[k].op]
  }

  /** The command is not its operation's last. */
  predicate HasNext(kind: Kind, c: Command) {
    Index(kind, c) + 1 < |Script(kind)|
  }

  /** Another worker's pass confirms the call's command by the power state. */
  ghost predicate ConfirmsInFlight(s: State, e: Event, k: nat) {
    && k < |s.calls| && s.calls[k].op < |s.t.ops|
    && e.Pass? && e.op == s.calls[k].op && Enabled(s, e)
    && RowOf(s, k).stage in {Dispatched(s.calls[k].cmd), Unsure(s.calls[k].cmd)}
    && e.answers.power.PowerIs? && Proves(s.calls[k].cmd, e.answers.power.power, e.answers.power.locked)
  }

  /** The worker of a command with a successor is the only one that can store its task. */
  predicate Unstored(s: State, k: nat)
    requires k < |s.calls| && s.calls[k].op < |s.t.ops|
  {
    s.calls[k].attached && HasNext(RowOf(s, k).kind, s.calls[k].cmd) ==>
      !(RowOf(s, k).stage.Awaiting? && RowOf(s, k).stage.cmd == s.calls[k].cmd)
  }

  // ---- what a transaction does to the row ----

  /** A pass over a row at command `c`, which has a successor. */
  lemma PassMoves(op: Op, vm: Vm, c: Command, now: Time, answers: Answers, stamp: Time)
    requires Sound(op, vm) && Selectable(op, now) && Uses(op.kind, c) && Marked(op.kind, op.stage, c)
             && HasNext(op.kind, c)
    requires !(op.stage.Awaiting? && op.stage.cmd == c)
    ensures var o := FirstPass(op, vm, answers, stamp);
            o.Commit? ==>
              && o.op.kind == op.kind
              && (Confirmed(op.kind, o.op.stage, c) <==>
                    || Confirmed(op.kind, op.stage, c)
                    || (op.stage in {Dispatched(c), Unsure(c)} && answers.power.PowerIs?
                        && Proves(c, answers.power.power, answers.power.locked)))
              && !(o.op.stage.Awaiting? && o.op.stage.cmd == c)
    ensures FirstPass(op, vm, answers, stamp).Rollback? ==> op.stage !in {Dispatched(c), Unsure(c)}
    ensures var o := FirstPass(op, vm, answers, stamp);
            o.Commit? && op.stage in {Dispatched(c), Unsure(c)} ==>
              (o.op.stage.Queued? <==> answers.power.PowerIs? && Proves(c, answers.power.power, answers.power.locked))
  {}

  /** A result or failure of another call leaves such a row at its command, or beyond it. */
  lemma OtherStoreMoves(s: State, l: nat, k: nat, result: CallResult)
    requires Inv(s) && l < |s.calls| && k < |s.calls| && k != l && s.calls[k].op == s.calls[l].op
    requires HasNext(RowOf(s, k).kind, s.calls[k].cmd)
    ensures var op, vm, c := RowOf(s, k), s.t.vms[OpVm(s, k)], s.calls[k].cmd;
            var stored, lost := Settle(op, vm, s.calls[l].cmd, result, s.clock), Lose(op, vm, s.calls[l].cmd, s.clock);
            && (forall o :: o in {stored, lost} && o.Commit? ==>
                  && o.op.kind == op.kind
                  && (Confirmed(op.kind, o.op.stage, c) <==> Confirmed(op.kind, op.stage, c))
                  && !(o.op.stage.Awaiting? && o.op.stage.cmd == c) && op.stage !in {Dispatched(c), Unsure(c)})
  {
    hide MarkersCalled, TasksUnique, DraftsOk, OneActive, UniqueVmids, UnplacedPending;
    assert CallOk(s.t, s.calls[k]) && CallOk(s.t, s.calls[l]);
    assert Sound(RowOf(s, k), s.t.vms[OpVm(s, k)]);
  }

  /** What an event leaves of a row whose call is in flight: past the command only by a confirming pass. */
  ghost predicate Moves(s: State, e: Event, s': State, k: nat)
    requires k < |s.calls| && s.calls[k].op < |s.t.ops|
  {
    var c := s.calls[k].cmd;
    && k < |s'.calls| && s'.calls[k].op == s.calls[k].op < |s'.t.ops| && s'.calls[k].cmd == c
    && RowOf(s', k).kind == RowOf(s, k).kind
    && (Confirmed(RowOf(s', k).kind, RowOf(s', k).stage, c) <==>
          Confirmed(RowOf(s, k).kind, RowOf(s, k).stage, c) || ConfirmsInFlight(s, e, k))
    && Unstored(s', k)
    && (RowOf(s, k).stage in {Dispatched(c), Unsure(c)} ==> (RowOf(s', k).stage.Queued? <==> ConfirmsInFlight(s, e, k)))
  }

  lemma StepMoves(s: State, e: Event, k: nat)
    requires Timed(s) && StaysInFlight(s, e, k) && Unstored(s, k) && HasNext(RowOf(s, k).kind, s.calls[k].cmd)
    ensures Moves(s, e, Do(s, e), k)
  {
    hide Timed, Moves, Unstored, HasNext, CanPass, CanFinish, CanFail, DoPass, DoFinish, DoEffect, DoApply, DoAbort,
      DoInsertCreate, DoInsertEnqueue;
    TimedParts(s, k);
    if Enabled(s, e) {
      OthersDetach(s, e, k);
      match e
      case Pass(i, now, read, answers) => PassStep(s, i, now, read, answers, k);
      case Finish(l) => FinishStep(s, l, k);
      case Fail(l) => FailStep(s, l, k);
      case _ => OtherStep(s, e, k);
    } else {
      NoStep(s, e, k);
    }
  }

  lemma NoStep(s: State, e: Event, k: nat)
    requires k < |s.calls| && s.calls[k].op < |s.t.ops| && Unstored(s, k) && !Enabled(s, e)
    ensures Moves(s, e, s, k)
  {
    hide Enabled, Confirmed, Unstored, Proves;
  }

  lemma OtherStep(s: State, e: Event, k: nat)
    requires Inv(s) && k < |s.calls| && Unstored(s, k) && Enabled(s, e) && !e.Pass? && !e.Finish? && !e.Fail?
    ensures Moves(s, e, Do(s, e), k)
  {
    hide Enabled, Do, Confirmed, Proves, HasNext, MarkersCalled, TasksUnique, DraftsOk, TablesOk, CallsUnique;
    assert CallOk(s.t, s.calls[k]);
    StepContinues(s, e);
    OtherRows(s, e);
  }

  lemma TimedParts(s: State, k: nat)
    requires Timed(s) && k < |s.calls|
    ensures Inv(s) && Stamped(s) && Held(s, k) && CallOk(s.t, s.calls[k]) && Sound(RowOf(s, k), s.t.vms[OpVm(s, k)])
  {}

  lemma PassStep(s: State, i: nat, now: Time, read: Time, answers: Answers, k: nat)
    requires Inv(s) && k < |s.calls| && s.calls[k].attached && Unstored(s, k)
             && HasNext(RowOf(s, k).kind, s.calls[k].cmd)
    requires CanPass(s, i, now, read, answers)
    ensures Moves(s, Pass(i, now, read, answers), DoPass(s, i, answers), k)
  {
    hide MarkersCalled, TasksUnique, DraftsOk, OneActive, UnplacedPending, FirstPass, Confirmed, HasNext, Proves,
      Selectable, Truthful;
    assert CallOk(s.t, s.calls[k]);
    if i == s.calls[k].op {
      var op, vm := s.t.ops[i], s.t.vms[s.t.ops[i].vm];
      assert Sound(op, vm);
      PassMoves(op, vm, s.calls[k].cmd, now, answers, s.clock);
      KeepsVmid(s, i, now, answers);
    }
    PassKeepsRows(s, i, answers);
  }

  /** A pass rewrites its own row at most, and keeps the calls there were. */
  lemma PassKeepsRows(s: State, i: nat, answers: Answers)
    requires Inv(s) && i < |s.t.ops|
    ensures var s' := DoPass(s, i, answers);
            && |s'.t.ops| == |s.t.ops| && |s.calls| <= |s'.calls|
            && (forall n :: 0 <= n < |s.t.ops| && n != i ==> s'.t.ops[n] == s.t.ops[n])
            && (forall k :: 0 <= k < |s.calls| ==> s'.calls[k] == s.calls[k])
  {
    hide MarkersCalled, TasksUnique, DraftsOk, OneActive, UnplacedPending, CallsOk, CallsUnique, FirstPass, Commits;
  }

  /** A pass over a marked row never meets the unique index. */
  lemma KeepsVmid(s: State, i: nat, now: Time, answers: Answers)
    requires Inv(s) && i < |s.t.ops| && Selectable(s.t.ops[i], now)
    requires s.t.vms[s.t.ops[i].vm].at.Some?
    ensures var o := FirstPass(s.t.ops[i], s.t.vms[s.t.ops[i].vm], answers, s.clock); Commits(s.t, i, o) <==> o.Commit?
  {
    hide MarkersCalled, TasksUnique, DraftsOk, OneActive, UnplacedPending, CallsOk, CallsUnique, FirstPass;
    assert Sound(s.t.ops[i], s.t.vms[s.t.ops[i].vm]);
    PassEvolves(s.t.ops[i], s.t.vms[s.t.ops[i].vm], now, answers, s.clock);
  }

  lemma StoreStep(s: State, e: Event, l: nat, k: nat, o: Outcome, result: CallResult, s': State)
    requires Inv(s) && l < |s.calls| && k < |s.calls| && k != l && Unstored(s, k) && !e.Pass?
    requires HasNext(RowOf(s, k).kind, s.calls[k].cmd)
    requires var op, vm := RowOf(s, l), s.t.vms[OpVm(s, l)];
             o in {Settle(op, vm, s.calls[l].cmd, result, s.clock), Lose(op, vm, s.calls[l].cmd, s.clock)}
    requires s'.t == Transact(s.t, s.calls[l].op, o) && s'.calls == Detach(s.calls, l)
    ensures Moves(s, e, s', k)
  {
    hide Inv, Settle, Lose, Confirmed, HasNext, Enabled, Proves;
    StoreSound(s, l, k);
    if s.calls[l].op == s.calls[k].op { OtherStoreMoves(s, l, k, result); }
  }

  /** The waiting worker of an event that stores an outcome is no longer in flight. */
  lemma OthersDetach(s: State, e: Event, k: nat)
    requires StaysInFlight(s, e, k) && Enabled(s, e)
    ensures e.Finish? || e.Fail? ==> e.call != k
  {
    hide Settle, Lose, Attempt, Change, Truthful, Within, TotalUsage, Unlocked, Transact, Misfiles;
  }

  lemma FinishStep(s: State, l: nat, k: nat)
    requires Inv(s) && CanFinish(s, l) && k < |s.calls| && k != l && Unstored(s, k)
    requires HasNext(RowOf(s, k).kind, s.calls[k].cmd)
    ensures Moves(s, Finish(l), DoFinish(s, l), k)
  {
    hide Inv, Settle, Lose, Unstored, HasNext, Moves, Unlocked, Misfiles;
    StoreSound(s, l, k);
    StoreStep(s, Finish(l), l, k, SettleOf(s, l), ResultOf(s.calls[l]).value, DoFinish(s, l));
  }

  lemma FailStep(s: State, l: nat, k: nat)
    requires Inv(s) && CanFail(s, l) && k < |s.calls| && k != l && Unstored(s, k)
    requires HasNext(RowOf(s, k).kind, s.calls[k].cmd)
    ensures Moves(s, Fail(l), Do(s, Fail(l)), k)
  {
    hide Inv, Settle, Lose, Unstored, HasNext, Moves, Unlocked;
    StoreSound(s, l, k);
    StoreStep(s, Fail(l), l, k, LoseOf(s, l), NoTask, Do(s, Fail(l)));
  }

  lemma StoreSound(s: State, l: nat, k: nat)
    requires Inv(s) && l < |s.calls| && k < |s.calls|
    ensures s.calls[k].op < |s.t.ops| && s.calls[l].op < |s.t.ops|
    ensures OpVm(s, k) < |s.t.vms| && OpVm(s, l) < |s.t.vms|
    ensures Marked(RowOf(s, k).kind, RowOf(s, k).stage, s.calls[k].cmd)
  {
    assert CallOk(s.t, s.calls[k]) && CallOk(s.t, s.calls[l]);
  }

  // ---- exactly when the row is pending ----

  /** A row that shows the dispatch or reconcile mark of a call in flight becomes pending, in one event during which the
      call stays in flight, exactly when a pass reads the power state that proves the command and the command is not
      the last one. Over a standing dispatch marker that pass comes after the grace. */
  lemma PendingExactly(s: State, e: Event, k: nat)
    requires Timed(s) && StaysInFlight(s, e, k)
    requires RowOf(s, k).stage in {Dispatched(s.calls[k].cmd), Unsure(s.calls[k].cmd)}
    ensures var s' := Do(s, e);
            && s'.calls[k].op < |s'.t.ops|
            && (StatusOf(RowOf(s', k).stage) == Pending <==>
                  ConfirmsInFlight(s, e, k) && HasNext(RowOf(s, k).kind, s.calls[k].cmd))
    ensures ConfirmsInFlight(s, e, k) && RowOf(s, k).stage.Dispatched? ==>
              s.calls[k].markedAt + DISPATCH_GRACE <= s.clock
  {
    hide Timed, Do, Proves, Truthful, FirstPass;
    TimedParts(s, k);
    if HasNext(RowOf(s, k).kind, s.calls[k].cmd) {
      StepMoves(s, e, k);
    } else {
      LastNeverPending(s, e, k);
    }
  }

  /** A marked row whose command is the last one is never pending again. */
  lemma LastNeverPending(s: State, e: Event, k: nat)
    requires Timed(s) && k < |s.calls| && !HasNext(RowOf(s, k).kind, s.calls[k].cmd)
    ensures var s' := Do(s, e);
            k < |s'.calls| && s'.calls[k].op < |s'.t.ops| && StatusOf(RowOf(s', k).stage) != Pending
  {
    hide Do, Stamped, Held;
    StepTimed(s, e);
    StepContinues(s, e);
    StepExtends(s, e);
    var s' := Do(s, e);
    assert SameOp(RowOf(s, k), RowOf(s', k));
    LastIsMarked(s', k);
  }

  lemma LastIsMarked(s: State, k: nat)
    requires Inv(s) && k < |s.calls| && !HasNext(RowOf(s, k).kind, s.calls[k].cmd)
    ensures StatusOf(RowOf(s, k).stage) != Pending
  {
    hide MarkersCalled, TasksUnique, DraftsOk, OneActive, UniqueVmids, UnplacedPending, CallsUnique;
    assert CallOk(s.t, s.calls[k]) && Sound(RowOf(s, k), s.t.vms[OpVm(s, k)]);
  }

  /** The commands with a successor that a power state can prove: a create's clone and a reboot's shutdown. */
  lemma ProvableWithNext(kind: Kind, c: Command)
    requires Uses(kind, c)
    ensures HasNext(kind, c) && (exists power, locked :: Proves(c, power, locked)) <==>
            (kind == Create && c == CloneVm) || (kind == Reboot && c == ShutdownVm)
  {
    assert Proves(CloneVm, Stopped, false) && Proves(ShutdownVm, Stopped, false);
  }

  /** So the failing step exists for both: with the first worker still waiting, a due pass that finds the clone
      finished, or the VM shut down, makes the row pending. */
  lemma PendingWhileInFlight(s: State, k: nat)
    requires Timed(s) && Agreed(s) && k < |s.calls| && s.calls[k].attached && OpVm(s, k) !in s.misfiled
    requires var kind, c := RowOf(s, k).kind, s.calls[k].cmd;
             (kind == Create && c == CloneVm) || (kind == Reboot && c == ShutdownVm)
    requires RowOf(s, k).stage in {Dispatched(s.calls[k].cmd), Unsure(s.calls[k].cmd)}
             && Selectable(RowOf(s, k), s.clock)
    requires View(s.machines, s.t.vms, OpVm(s, k)) == Stopped && !s.machines[s.calls[k].at.vmid].locked
    requires !VmLocked(s.drafts, OpVm(s, k))
    ensures var e := Pass(s.calls[k].op, s.clock, s.clock,
                          Answers(TargetUnavailable, PowerIs(Stopped, false), TaskUnavailable));
            && ConfirmsInFlight(s, e, k)
            && Do(s, e).calls[k].attached && StatusOf(RowOf(Do(s, e), k).stage) == Pending
  {
    hide Timed, Held, MarkersCalled, TasksUnique, CallsUnique, DraftsOk, OneActive, Do, OpAgrees, VmAgrees,
      CallAgrees, CloneHeld;
    var e := Pass(s.calls[k].op, s.clock, s.clock,
                  Answers(TargetUnavailable, PowerIs(Stopped, false), TaskUnavailable));
    TimedParts(s, k);
    ReadsStopped(s, k);
    PassKeepsCall(s, e, k);
    PendingExactly(s, e, k);
  }

  lemma ReadsStopped(s: State, k: nat)
    requires Agreed(s) && k < |s.calls| && RowOf(s, k).stage in {Dispatched(s.calls[k].cmd), Unsure(s.calls[k].cmd)}
    requires Selectable(RowOf(s, k), s.clock) && !VmLocked(s.drafts, OpVm(s, k))
    requires View(s.machines, s.t.vms, OpVm(s, k)) == Stopped && !s.machines[s.calls[k].at.vmid].locked
    ensures CanPass(s, s.calls[k].op, s.clock, s.clock,
                    Answers(TargetUnavailable, PowerIs(Stopped, false), TaskUnavailable))
  {
    hide MarkersCalled, TasksUnique, CallsUnique, DraftsOk, OneActive, OpAgrees, VmAgrees, CallAgrees, CloneHeld,
      FirstPass;
    assert CallOk(s.t, s.calls[k]);
  }

  lemma PassKeepsCall(s: State, e: Event, k: nat)
    requires k < |s.calls| && e.Pass?
    ensures k < |Do(s, e).calls| && Do(s, e).calls[k] == s.calls[k]
  {
    hide Enabled, FirstPass, Commits;
  }

  // ---- whole runs ----

  lemma NewCallUnstored(s: State, e: Event, k: nat)
    requires Timed(s) && k < |Do(s, e).calls| && k >= |s.calls|
    ensures var s' := Do(s, e);
            && s'.calls[k].op < |s'.t.ops| && Unstored(s', k)
            && !Confirmed(RowOf(s', k).kind, RowOf(s', k).stage, s'.calls[k].cmd)
  {
    hide Held, Stamped, Truthful, MarkersCalled, TasksUnique, CallsUnique, DraftsOk, OneActive, CallsOk;
    if e.Pass? && Enabled(s, e) {
      var op, vm := s.t.ops[e.op], s.t.vms[s.t.ops[e.op].vm];
      assert Sound(op, vm);
      PassStage(op, vm, e.now, e.answers, s.clock);
    } else {
      if Enabled(s, e) { StoreKeepsCalls(s, e); }
    }
  }

  lemma StoreKeepsCalls(s: State, e: Event)
    requires Enabled(s, e) && !e.Pass?
    ensures |Do(s, e).calls| == |s.calls|
  {
    hide Settle, Lose, Attempt, Change, Truthful, Within, TotalUsage;
  }

  /** Some pass of the run confirmed the call's command by the power state. */
  ghost predicate ConfirmedIn(plans: map<UserId, Plan>, events: seq<Event>, k: nat) {
    exists n :: 0 <= n < |events| && ConfirmsInFlight(Run(Initial(plans), events[..n]), events[n], k)
  }

  lemma ConfirmedInStep(plans: map<UserId, Plan>, events: seq<Event>, k: nat)
    requires events != []
    ensures var n := |events| - 1;
            ConfirmedIn(plans, events, k) <==>
              ConfirmedIn(plans, events[..n], k) || ConfirmsInFlight(Run(Initial(plans), events[..n]), events[n], k)
  {
    hide Run, ConfirmsInFlight;
    var n := |events| - 1;
    forall m | 0 <= m < n ensures events[..n][..m] == events[..m] && events[..n][m] == events[m] {}
    if ConfirmedIn(plans, events[..n], k) {
      var m :| 0 <= m < n && ConfirmsInFlight(Run(Initial(plans), events[..n][..m]), events[..n][m], k);
      assert ConfirmsInFlight(Run(Initial(plans), events[..m]), events[m], k);
    }
    if ConfirmedIn(plans, events, k) {
      var m :| 0 <= m < |events| && ConfirmsInFlight(Run(Initial(plans), events[..m]), events[m], k);
      if m < n { assert ConfirmsInFlight(Run(Initial(plans), events[..n][..m]), events[..n][m], k); }
    }
  }

  /** In every run, for a call in flight whose command has a successor: the row is past the command exactly when some
      pass of the run confirmed it by the power state while the call was in flight; no stored result can do it. */
  lemma {:induction false} PastExactly(plans: map<UserId, Plan>, events: seq<Event>, k: nat)
    requires k < |Run(Initial(plans), events).calls| && Run(Initial(plans), events).calls[k].attached
    ensures var s := Run(Initial(plans), events);
            && s.calls[k].op < |s.t.ops|
            && (HasNext(RowOf(s, k).kind, s.calls[k].cmd) ==>
                  && Unstored(s, k)
                  && (Confirmed(RowOf(s, k).kind, RowOf(s, k).stage, s.calls[k].cmd) <==>
                        ConfirmedIn(plans, events, k)))
  {
    hide Do, Timed, Confirmed, HasNext, Unstored, ConfirmsInFlight, ConfirmedIn;
    var n := |events| - 1;
    var s, e := Run(Initial(plans), events[..n]), events[n];
    RunTimed(plans, events[..n]);
    ConfirmedInStep(plans, events, k);
    StepContinues(s, e);
    if k < |s.calls| {
      PastExactly(plans, events[..n], k);
      PastStep(s, e, k);
    } else {
      NewCallUnstored(s, e, k);
      NotConfirmedYet(plans, events[..n], k);
      NoCallNoConfirm(s, e, k);
    }
  }

  lemma NoCallNoConfirm(s: State, e: Event, k: nat)
    requires k >= |s.calls|
    ensures !ConfirmsInFlight(s, e, k)
  {}

  lemma {:induction false} NotConfirmedYet(plans: map<UserId, Plan>, events: seq<Event>, k: nat)
    requires k >= |Run(Initial(plans), events).calls|
    ensures !ConfirmedIn(plans, events, k)
  {
    hide Do, ConfirmsInFlight;
    if events != [] {
      var n := |events| - 1;
      StepContinues(Run(Initial(plans), events[..n]), events[n]);
      NotConfirmedYet(plans, events[..n], k);
      NoCallNoConfirm(Run(Initial(plans), events[..n]), events[n], k);
      ConfirmedInStep(plans, events, k);
    }
  }

  /** One event of a run, for a call that was there before. */
  lemma PastStep(s: State, e: Event, k: nat)
    requires Timed(s) && StaysInFlight(s, e, k)
    requires HasNext(RowOf(s, k).kind, s.calls[k].cmd) ==> Unstored(s, k)
    ensures var s', c := Do(s, e), s.calls[k].cmd;
            && s'.calls[k].op == s.calls[k].op < |s'.t.ops| && s'.calls[k].cmd == c
            && RowOf(s', k).kind == RowOf(s, k).kind
            && (HasNext(RowOf(s, k).kind, c) ==>
                  && Unstored(s', k)
                  && (Confirmed(RowOf(s', k).kind, RowOf(s', k).stage, c) <==>
                        Confirmed(RowOf(s, k).kind, RowOf(s, k).stage, c) || ConfirmsInFlight(s, e, k)))
  {
    hide Do, Timed, Confirmed, HasNext, Unstored, ConfirmsInFlight, Moves;
    TimedParts(s, k);
    TimedInv(s);
    StepContinues(s, e);
    StepExtends(s, e);
    assert SameOp(RowOf(s, k), RowOf(Do(s, e), k));
    if HasNext(RowOf(s, k).kind, s.calls[k].cmd) {
      StepMoves(s, e, k);
      MovesPast(s, e, k);
    }
  }

  lemma TimedInv(s: State)
    requires Timed(s)
    ensures Inv(s)
  {}

  lemma MovesPast(s: State, e: Event, k: nat)
    requires k < |s.calls| && s.calls[k].op < |s.t.ops| && Moves(s, e, Do(s, e), k)
    ensures var s' := Do(s, e);
            && k < |s'.calls| && s'.calls[k].op == s.calls[k].op < |s'.t.ops| && s'.calls[k].cmd == s.calls[k].cmd
            && RowOf(s', k).kind == RowOf(s, k).kind && Unstored(s', k)
            && (Confirmed(RowOf(s', k).kind, RowOf(s', k).stage, s'.calls[k].cmd) <==>
                  Confirmed(RowOf(s, k).kind, RowOf(s, k).stage, s.calls[k].cmd) || ConfirmsInFlight(s, e, k))
  {}

  // ---- when a called operation is pending at all ----

  /** The event stores that the command row `i` waits at is done: a power state that proves it, a task that succeeded or
      a result that reports completion; and the command has a successor. */
  ghost predicate Completes(s: State, e: Event, i: nat) {
    && i < |s.t.ops| && Enabled(s, e)
    && var op := s.t.ops[i];
       match e
       case Pass(n, _, _, answers) =>
         && n == i && !op.stage.Done? && HasNext(op.kind, op.stage.cmd)
         && ((op.stage in {Dispatched(op.stage.cmd), Unsure(op.stage.cmd)} && answers.power.PowerIs?
              && Proves(op.stage.cmd, answers.power.power, answers.power.locked))
             || (op.stage.Awaiting? && answers.task == TaskSucceeded))
       case Finish(l) =>
         && s.calls[l].op == i && op.stage.Dispatched? && HasNext(op.kind, op.stage.cmd)
         && (op.kind == Create ==> op.stage.cmd == s.calls[l].cmd)
         && ReadResult(op.stage.cmd, ResultOf(s.calls[l]).value) == Finished
       case _ => false
  }

  /** A worker's pass over row `i`. */
  ghost predicate Passes(s: State, e: Event, i: nat) {
    e.Pass? && e.op == i && Enabled(s, e)
  }

  /** Some event of the run completed a step of row `i` that has a successor, and no pass has come over the row
      since. */
  ghost predicate StandsCompleted(plans: map<UserId, Plan>, events: seq<Event>, i: nat) {
    exists m :: 0 <= m < |events| && Completes(Run(Initial(plans), events[..m]), events[m], i)
                && forall n :: m < n < |events| ==> !Passes(Run(Initial(plans), events[..n]), events[n], i)
  }

  lemma StandsCompletedStep(plans: map<UserId, Plan>, events: seq<Event>, i: nat)
    requires events != []
    ensures var n := |events| - 1;
            var s, e := Run(Initial(plans), events[..n]), events[n];
            StandsCompleted(plans, events, i) <==>
              Completes(s, e, i) || (StandsCompleted(plans, events[..n], i) && !Passes(s, e, i))
  {
    hide Run, Completes, Passes;
    var n := |events| - 1;
    forall m | 0 <= m < n ensures events[..n][..m] == events[..m] && events[..n][m] == events[m] {}
    if StandsCompleted(plans, events[..n], i) && !Passes(Run(Initial(plans), events[..n]), events[n], i) {
      var m :| 0 <= m < n && Completes(Run(Initial(plans), events[..n][..m]), events[..n][m], i)
               && forall j :: m < j < n ==> !Passes(Run(Initial(plans), events[..n][..j]), events[..n][j], i);
      assert Completes(Run(Initial(plans), events[..m]), events[m], i);
      forall j | m < j < |events| ensures !Passes(Run(Initial(plans), events[..j]), events[j], i) {
        if j < n { assert !Passes(Run(Initial(plans), events[..n][..j]), events[..n][j], i); }
      }
    }
    if Completes(Run(Initial(plans), events[..n]), events[n], i) {
      assert StandsCompleted(plans, events, i);
    }
    if StandsCompleted(plans, events, i) {
      var m :| 0 <= m < |events| && Completes(Run(Initial(plans), events[..m]), events[m], i)
               && forall j :: m < j < |events| ==> !Passes(Run(Initial(plans), events[..j]), events[j], i);
      if m < n {
        assert Completes(Run(Initial(plans), events[..n][..m]), events[..n][m], i);
        forall j | m < j < n ensures !Passes(Run(Initial(plans), events[..n][..j]), events[..n][j], i) {
          assert !Passes(Run(Initial(plans), events[..j]), events[j], i);
        }
        assert StandsCompleted(plans, events[..n], i);
      }
    }
  }

  /** One event over a row of a placed VM: it is pending afterwards exactly when the event completed a step with a
      successor, or it was pending before and no pass came. */
  lemma QueuedStep(s: State, e: Event, i: nat)
    requires Inv(s) && i < |s.t.ops| && s.t.vms[s.t.ops[i].vm].at.Some?
    ensures i < |Do(s, e).t.ops|
    ensures Do(s, e).t.ops[i].stage.Queued? <==>
              Completes(s, e, i) || (s.t.ops[i].stage.Queued? && !Passes(s, e, i))
  {
    hide Inv, Completes, Passes, CanPass, CanFinish, CanFail, DoPass, DoFinish, DoEffect, DoApply, DoAbort,
      DoInsertCreate, DoInsertEnqueue;
    NeverBoth(s, e, i);
    if Enabled(s, e) {
      match e
      case Pass(n, now, read, answers) => QueuedPass(s, n, now, read, answers, i);
      case Finish(l) => QueuedFinish(s, l, i);
      case Fail(l) => QueuedFail(s, l, i);
      case _ => OtherRows(s, e);
    }
  }

  lemma NeverBoth(s: State, e: Event, i: nat)
    ensures Completes(s, e, i) ==> Enabled(s, e) && (e.Pass? || e.Finish?)
    ensures Passes(s, e, i) ==> Enabled(s, e) && e.Pass?
  {
    hide Enabled;
  }

  lemma QueuedPass(s: State, n: nat, now: Time, read: Time, answers: Answers, i: nat)
    requires Inv(s) && i < |s.t.ops| && s.t.vms[s.t.ops[i].vm].at.Some? && CanPass(s, n, now, read, answers)
    ensures var s', e := DoPass(s, n, answers), Pass(n, now, read, answers);
            && |s'.t.ops| == |s.t.ops|
            && (s'.t.ops[i].stage.Queued? <==>
                  Completes(s, e, i) || (s.t.ops[i].stage.Queued? && !Passes(s, e, i)))
  {
    hide CallsOk, CallsUnique, MarkersCalled, TasksUnique, DraftsOk, OneActive, UnplacedPending, FirstPass, Truthful,
      HasNext, Proves;
    if n == i {
      var op, vm := s.t.ops[i], s.t.vms[s.t.ops[i].vm];
      assert Sound(op, vm);
      KeepsVmid(s, i, now, answers);
      PassQueues(op, vm, now, answers, s.clock);
    }
  }

  lemma PassQueues(op: Op, vm: Vm, now: Time, answers: Answers, stamp: Time)
    requires Sound(op, vm) && Selectable(op, now) && vm.at.Some?
    ensures var o := FirstPass(op, vm, answers, stamp);
            && o.Commit?
            && (o.op.stage.Queued? <==>
                  && !op.stage.Done? && HasNext(op.kind, op.stage.cmd)
                  && ((op.stage in {Dispatched(op.stage.cmd), Unsure(op.stage.cmd)} && answers.power.PowerIs?
                       && Proves(op.stage.cmd, answers.power.power, answers.power.locked))
                      || (op.stage.Awaiting? && answers.task == TaskSucceeded)))
  {}

  lemma QueuedFinish(s: State, l: nat, i: nat)
    requires Inv(s) && i < |s.t.ops| && CanFinish(s, l)
    ensures var s', e := DoFinish(s, l), Finish(l);
            && |s'.t.ops| == |s.t.ops|
            && (s'.t.ops[i].stage.Queued? <==>
                  Completes(s, e, i) || (s.t.ops[i].stage.Queued? && !Passes(s, e, i)))
  {
    hide CallsUnique, MarkersCalled, TasksUnique, DraftsOk, OneActive, UnplacedPending, Settle, Unlocked, Misfiles,
      HasNext, ReadResult;
    assert CallOk(s.t, s.calls[l]);
    var op, vm := s.t.ops[s.calls[l].op], s.t.vms[OpVm(s, l)];
    assert Sound(op, vm) && VmidFree(s.t.vms, op.vm, vm.at);
    SettleQueues(op, vm, s.calls[l].cmd, ResultOf(s.calls[l]).value, s.clock);
  }

  lemma SettleQueues(op: Op, vm: Vm, sent: Command, result: CallResult, stamp: Time)
    requires Sound(op, vm) && Uses(op.kind, sent) && vm.at.Some?
    ensures var o := Settle(op, vm, sent, result, stamp);
            && (o.Commit? ==> !op.stage.Queued? && o.vm.at == vm.at)
            && (o.Commit? && o.op.stage.Queued? <==>
                  && op.stage.Dispatched? && HasNext(op.kind, op.stage.cmd)
                  && (op.kind == Create ==> op.stage.cmd == sent) && ReadResult(op.stage.cmd, result) == Finished)
  {}

  lemma QueuedFail(s: State, l: nat, i: nat)
    requires Inv(s) && i < |s.t.ops| && CanFail(s, l)
    ensures var s', e := Do(s, Fail(l)), Fail(l);
            && |s'.t.ops| == |s.t.ops|
            && (s'.t.ops[i].stage.Queued? <==>
                  Completes(s, e, i) || (s.t.ops[i].stage.Queued? && !Passes(s, e, i)))
  {
    hide CallsOk, CallsUnique, MarkersCalled, TasksUnique, DraftsOk, OneActive, UnplacedPending, Unlocked, HasNext;
  }

  /** In every run an operation that has made a call is pending exactly when some event completed a step of it that has
      a successor and no pass has come over its row since. */
  lemma {:induction false} PendingExactlySince(plans: map<UserId, Plan>, events: seq<Event>, k: nat)
    requires k < |Run(Initial(plans), events).calls|
    ensures var s := Run(Initial(plans), events);
            && s.calls[k].op < |s.t.ops|
            && (StatusOf(RowOf(s, k).stage) == Pending <==> StandsCompleted(plans, events, s.calls[k].op))
  {
    hide Do, Inv, StandsCompleted, Completes, Passes;
    var n := |events| - 1;
    var s, e, s' := Run(Initial(plans), events[..n]), events[n], Run(Initial(plans), events);
    InitialInv(plans);
    RunInv(Initial(plans), events[..n]);
    RunInv(Initial(plans), events);
    CallPlaced(s', k);
    StandsCompletedStep(plans, events, s'.calls[k].op);
    StepContinues(s, e);
    if k < |s.calls| {
      CallPlaced(s, k);
      PendingExactlySince(plans, events[..n], k);
      QueuedStep(s, e, s.calls[k].op);
    } else {
      NewCallMarked(s, e, k);
    }
  }

  lemma CallPlaced(s: State, k: nat)
    requires Inv(s) && k < |s.calls|
    ensures s.calls[k].op < |s.t.ops| && OpVm(s, k) < |s.t.vms| && s.t.vms[OpVm(s, k)].at.Some?
  {
    assert CallOk(s.t, s.calls[k]);
  }

  /** A call is made by a pass that marks its row. */
  lemma NewCallMarked(s: State, e: Event, k: nat)
    requires Inv(s) && k < |Do(s, e).calls| && k >= |s.calls|
    ensures var s' := Do(s, e);
            && s'.calls[k].op < |s'.t.ops| && !RowOf(s', k).stage.Queued?
            && Passes(s, e, s'.calls[k].op) && !Completes(s, e, s'.calls[k].op)
  {
    hide Truthful, MarkersCalled, TasksUnique, CallsUnique, DraftsOk, OneActive, CallsOk;
    if e.Pass? && Enabled(s, e) {
      var op, vm := s.t.ops[e.op], s.t.vms[s.t.ops[e.op].vm];
      assert Sound(op, vm);
      PassStage(op, vm, e.now, e.answers, s.clock);
    } else {
      if Enabled(s, e) { StoreKeepsCalls(s, e); }
    }
  }

  /** In every run, for a call in flight: its row is pending exactly when some event completed a step with a successor
      and no pass has come over the row since; and then the call's own command has a successor and a pass of the run
      confirmed it by the power state while the call was in flight. */
  lemma PendingInRuns(plans: map<UserId, Plan>, events: seq<Event>, k: nat)
    requires k < |Run(Initial(plans), events).calls| && Run(Initial(plans), events).calls[k].attached
    ensures var s := Run(Initial(plans), events);
            && s.calls[k].op < |s.t.ops|
            && (StatusOf(RowOf(s, k).stage) == Pending <==> StandsCompleted(plans, events, s.calls[k].op))
            && (StatusOf(RowOf(s, k).stage) == Pending ==>
                  HasNext(RowOf(s, k).kind, s.calls[k].cmd) && ConfirmedIn(plans, events, k))
  {
    hide Do, ConfirmedIn, HasNext, StandsCompleted;
    var s := Run(Initial(plans), events);
    RunTimed(plans, events);
    TimedParts(s, k);
    TimedInv(s);
    PastExactly(plans, events, k);
    PendingExactlySince(plans, events, k);
    if !RowOf(s, k).stage.Queued? {
    } else if HasNext(RowOf(s, k).kind, s.calls[k].cmd) {
      QueuedIsPast(RowOf(s, k), s.calls[k].cmd);
    } else {
      LastIsMarked(s, k);
    }
  }

  lemma QueuedIsPast(op: Op, c: Command)
    requires Uses(op.kind, c) && Marked(op.kind, op.stage, c) && op.stage.Queued?
    ensures Confirmed(op.kind, op.stage, c)
  {}

  // ---- exactly what takes a marker away ----

  /** The result or failure of a reboot's shutdown half is stored over the standing marker of its start half. */
  ghost predicate StoresOver(s: State, e: Event, k: nat) {
    && k < |s.calls| && s.calls[k].op < |s.t.ops|
    && (e.Finish? || e.Fail?) && Enabled(s, e) && s.calls[e.call].op == s.calls[k].op && e.call != k
    && RowOf(s, k).kind == Reboot && s.calls[k].cmd == StartVm
    && (e.Finish? ==> Readable(StartVm, s.calls[e.call]))
  }

  /** The standing marker of a call that stays in flight goes away exactly by a pass over its row, which comes after the
      grace, or by an outcome of the shutdown half stored over the start half of a reboot. */
  lemma MarkerLostExactly(s: State, e: Event, k: nat)
    requires Timed(s) && StaysInFlight(s, e, k) && RowOf(s, k).stage == Dispatched(s.calls[k].cmd)
    ensures var s' := Do(s, e);
            && s'.calls[k].op < |s'.t.ops|
            && (RowOf(s', k).stage != Dispatched(s.calls[k].cmd) <==>
                  (e.Pass? && e.op == s.calls[k].op && Enabled(s, e)) || StoresOver(s, e, k))
    ensures e.Pass? && e.op == s.calls[k].op && Enabled(s, e) ==> s.calls[k].markedAt + DISPATCH_GRACE <= s.clock
  {
    hide Timed, StoresOver, CanPass, CanFinish, CanFail, DoPass, DoFinish, DoEffect, DoApply, DoAbort, DoInsertCreate,
      DoInsertEnqueue;
    TimedParts(s, k);
    if Enabled(s, e) {
      OthersDetach(s, e, k);
      match e
      case Pass(i, now, read, answers) =>
        MarkerPass(s, i, now, read, answers, k);
        NotStored(s, e, k);
      case Finish(l) => MarkerFinish(s, l, k);
      case Fail(l) => MarkerFail(s, l, k);
      case _ =>
        OtherRows(s, e);
        StepContinues(s, e);
        NotStored(s, e, k);
    } else {
      NotStored(s, e, k);
    }
  }

  lemma NotStored(s: State, e: Event, k: nat)
    requires !Enabled(s, e) || (!e.Finish? && !e.Fail?)
    ensures !StoresOver(s, e, k)
  {
    hide Enabled;
  }

  lemma MarkerPass(s: State, i: nat, now: Time, read: Time, answers: Answers, k: nat)
    requires Timed(s) && k < |s.calls| && CanPass(s, i, now, read, answers)
             && RowOf(s, k).stage == Dispatched(s.calls[k].cmd)
    ensures var s' := DoPass(s, i, answers);
            && k < |s'.calls| && s'.calls[k] == s.calls[k] && |s'.t.ops| == |s.t.ops|
            && (RowOf(s', k).stage != Dispatched(s.calls[k].cmd) <==> i == s.calls[k].op)
    ensures i == s.calls[k].op ==> s.calls[k].markedAt + DISPATCH_GRACE <= s.clock
  {
    hide MarkersCalled, TasksUnique, DraftsOk, OneActive, UnplacedPending, FirstPass, Truthful;
    assert CallOk(s.t, s.calls[k]);
    if i == s.calls[k].op {
      var op, vm := s.t.ops[i], s.t.vms[s.t.ops[i].vm];
      assert Sound(op, vm);
      PassStage(op, vm, now, answers, s.clock);
      KeepsVmid(s, i, now, answers);
      ReconcileCommits(op, vm, answers, s.clock);
    }
  }

  lemma ReconcileCommits(op: Op, vm: Vm, answers: Answers, stamp: Time)
    requires op.stage.Dispatched?
    ensures FirstPass(op, vm, answers, stamp).Commit?
  {}

  lemma MarkerFinish(s: State, l: nat, k: nat)
    requires Timed(s) && k < |s.calls| && k != l && CanFinish(s, l) && RowOf(s, k).stage == Dispatched(s.calls[k].cmd)
    ensures var s' := DoFinish(s, l);
            && |s'.calls| == |s.calls| && s'.calls[k] == s.calls[k] && |s'.t.ops| == |s.t.ops|
            && (RowOf(s', k).stage != Dispatched(s.calls[k].cmd) <==> StoresOver(s, Finish(l), k))
  {
    hide MarkersCalled, TasksUnique, DraftsOk, OneActive, UnplacedPending, Settle, Unlocked, Misfiles, Readable;
    assert CallOk(s.t, s.calls[k]) && CallOk(s.t, s.calls[l]);
    if s.calls[l].op == s.calls[k].op {
      SecondCall(s, l, k);
      FinishCommitsWhen(s, l);
      StoreStage(RowOf(s, l), s.t.vms[OpVm(s, l)], s.calls[l].cmd, ResultOf(s.calls[l]).value, s.clock);
    }
  }

  lemma MarkerFail(s: State, l: nat, k: nat)
    requires Timed(s) && k < |s.calls| && k != l && CanFail(s, l) && RowOf(s, k).stage == Dispatched(s.calls[k].cmd)
    ensures var s' := Do(s, Fail(l));
            && |s'.calls| == |s.calls| && s'.calls[k] == s.calls[k] && |s'.t.ops| == |s.t.ops|
            && (RowOf(s', k).stage != Dispatched(s.calls[k].cmd) <==> StoresOver(s, Fail(l), k))
  {
    hide MarkersCalled, TasksUnique, DraftsOk, OneActive, UnplacedPending, Lose, Unlocked;
    assert CallOk(s.t, s.calls[k]) && CallOk(s.t, s.calls[l]);
    if s.calls[l].op == s.calls[k].op {
      SecondCall(s, l, k);
      FailCommitsWhen(s, l);
      StoreStage(RowOf(s, l), s.t.vms[OpVm(s, l)], s.calls[l].cmd, NoTask, s.clock);
    }
  }
}
