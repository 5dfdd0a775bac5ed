/** Calls in flight: what the dispatch grace protects, which late results still count, and how many calls
    an operation has made. */
module Grace {
  import opened Domain
  import opened Phases
  import opened Transitions
  import opened Tables
  import opened Evolution
  import opened Protocol
  import opened Invariants

  // ---- calls only accumulate ----

  /** The earlier calls are still there, with the same identity. */
  predicate Continues(calls: seq<Call>, calls': seq<Call>) {
    && |calls| <= |calls'|
    && (forall k :: 0 <= k < |calls| ==>
          && calls'[k].op == calls[k].op && calls'[k].cmd == calls[k].cmd
          && calls'[k].at == calls[k].at && calls'[k].markedAt == calls[k].markedAt
          && calls'[k].request == calls[k].request
          && (calls'[k].attached ==> calls[k].attached)
          && Follows(calls[k].progress, calls'[k].progress))
  }

  /** A call that has an outcome keeps it; a task only moves forward. */
  predicate Follows(p: Progress, p': Progress) {
    match p
    case Sent => true
    case Tasked(id, Waiting) => p'.Tasked? && p'.id == id
    case Tasked(id, Applied) => p' == p || p' == Tasked(id, Ended)
    case _ => p' == p
  }

  lemma StepContinues(s: State, e: Event)
    ensures Continues(s.calls, Do(s, e).calls)
  {
    hide CanPass, CanFinish, CanFail, CanReach, CanApply, DoPass, DoEffect, DoFinish, DoApply, DoAbort, Transact,
      LoseOf, Continues, Within, TotalUsage, Allowed, ValidSpec, KeyFree, Busy, QuotaLocked, VmLocked;
    if Enabled(s, e) {
      match e
      case Pass(i, _, _, answers) => PassContinues(s, e, answers);
      case Effect(k, id, instant, gb) => CallContinues(s, e, k);
      case Finish(k) => CallContinues(s, e, k);
      case Fail(k) => CallContinues(s, e, k);
      case Crash(k) => CallContinues(s, e, k);
      case TaskApply(k) => CallContinues(s, e, k);
      case TaskEnd(k) => CallContinues(s, e, k);
      case TaskAbort(k) => CallContinues(s, e, k);
      case _ => SameContinues(s.calls);
    } else {
      SameContinues(s.calls);
    }
  }

  lemma SameContinues(calls: seq<Call>)
    ensures Continues(calls, calls)
  {}

  lemma PassContinues(s: State, e: Event, answers: Answers)
    requires e.Pass? && e.answers == answers && Enabled(s, e)
    ensures Continues(s.calls, DoPass(s, e.op, answers).calls)
  {
    hide FirstPass, Commits, Transact, Sends, Truthful, Unlocked;
  }

  /** An event on one call changes that call at most, forwards. */
  lemma CallContinues(s: State, e: Event, k: nat)
    requires Enabled(s, e) && !e.Pass?
    requires match e
             case Effect(l, _, _, _) => l == k
             case Finish(l) => l == k
             case Fail(l) => l == k
             case Crash(l) => l == k
             case TaskApply(l) => l == k
             case TaskEnd(l) => l == k
             case TaskAbort(l) => l == k
             case _ => false
    ensures Continues(s.calls, Do(s, e).calls)
  {
    hide Settle, Lose, Commits, Transact, Attempt, Change, Extend, MilestoneOf, FreshTask, Misfiles, Unlocked;
  }

  lemma {:induction false} RunContinues(s: State, events: seq<Event>)
    ensures Continues(s.calls, Run(s, events).calls)
  {
    if events != [] {
      RunContinues(s, events[..|events| - 1]);
      StepContinues(Run(s, events[..|events| - 1]), events[|events| - 1]);
    }
  }

  // ---- attempts count calls ----

  function CallsOf(calls: seq<Call>, i: nat): nat {
    if calls == [] then 0
    else CallsOf(calls[..|calls| - 1], i) + (if calls[|calls| - 1].op == i then 1 else 0)
  }

  lemma {:induction false} CallsOfSame(calls: seq<Call>, calls': seq<Call>, i: nat)
    requires |calls| == |calls'| && forall k :: 0 <= k < |calls| ==> calls'[k].op == calls[k].op
    ensures CallsOf(calls', i) == CallsOf(calls, i)
  {
    if calls != [] { CallsOfSame(calls[..|calls| - 1], calls'[..|calls| - 1], i); }
  }

  lemma {:induction false} CallsOfNone(calls: seq<Call>, i: nat)
    requires forall k :: 0 <= k < |calls| ==> calls[k].op != i
    ensures CallsOf(calls, i) == 0
  {
    if calls != [] { CallsOfNone(calls[..|calls| - 1], i); }
  }

  /** `attempts` is the number of mutating calls made for the operation. */
  predicate Counted(s: State) {
    forall i :: 0 <= i < |s.t.ops| ==> CallsOf(s.calls, i) == s.t.ops[i].attempts
  }

  /** Rows and calls after any event other than a pass: attempts and owners of calls are as before. */
  lemma QuietCounted(s: State, e: Event)
    requires Inv(s) && Counted(s) && !e.Pass?
    ensures Counted(Do(s, e))
  {
    hide Attempt, Change, Truthful, FirstPass, TablesOk;
    var s' := Do(s, e);
    StepContinues(s, e);
    QuietAttempts(s, e);
    forall i | 0 <= i < |s'.t.ops| ensures CallsOf(s'.calls, i) == s'.t.ops[i].attempts {
      CallsOfSame(s.calls, s'.calls, i);
      if i >= |s.t.ops| {
        forall k | 0 <= k < |s.calls| ensures s.calls[k].op != i { assert CallOk(s.t, s.calls[k]); }
        CallsOfNone(s.calls, i);
      }
    }
  }

  lemma QuietAttempts(s: State, e: Event)
    requires Inv(s) && !e.Pass?
    ensures var s' := Do(s, e);
            && |s'.calls| == |s.calls| && |s.t.ops| <= |s'.t.ops|
            && (forall i :: 0 <= i < |s.t.ops| ==> s'.t.ops[i].attempts == s.t.ops[i].attempts)
            && (forall i :: |s.t.ops| <= i < |s'.t.ops| ==> s'.t.ops[i].attempts == 0)
  {
    hide Attempt, Change, Truthful, FirstPass, CallsOk, CallsUnique, MarkersCalled, TasksUnique, Sound;
    if Enabled(s, e) && (e.Finish? || e.Fail?) {
      var op, vm := s.t.ops[s.calls[e.call].op], s.t.vms[OpVm(s, e.call)];
      assert Sound(op, vm);
      var result := if e.Finish? then ResultOf(s.calls[e.call]).value else NoTask;
      SettleProgress(op, vm, s.calls[e.call].cmd, result, s.clock);
    }
  }

  lemma PassCounted(s: State, i: nat, now: Time, read: Time, answers: Answers)
    requires Inv(s) && Counted(s) && CanPass(s, i, now, read, answers)
    ensures Counted(DoPass(s, i, answers))
  {
    hide CallsOk, CallsUnique, MarkersCalled, TasksUnique, Sound, FirstPass, Rank;
    var op, vm, s' := s.t.ops[i], s.t.vms[s.t.ops[i].vm], DoPass(s, i, answers);
    assert Sound(op, vm);
    PassProgress(op, vm, now, answers, s.clock);
    PassAttempts(op, vm, now, answers, s.clock);
    forall n | 0 <= n < |s'.t.ops| ensures CallsOf(s'.calls, n) == s'.t.ops[n].attempts {
      if s'.calls != s.calls {
        assert s'.calls[..|s'.calls| - 1] == s.calls;
      }
    }
  }

  lemma PassAttempts(op: Op, vm: Vm, now: Time, answers: Answers, stamp: Time)
    requires Sound(op, vm) && Selectable(op, now)
    ensures var o := FirstPass(op, vm, answers, stamp);
            o.Commit? ==> o.op.attempts == op.attempts + (if Sends(op, vm).Some? then 1 else 0)
    ensures Sends(op, vm).Some? ==> vm.at.Some?
  {}

  lemma StepCounted(s: State, e: Event)
    requires Inv(s) && Counted(s)
    ensures Counted(Do(s, e))
  {
    hide Inv, Counted, DoPass;
    if e.Pass? && Enabled(s, e) {
      PassCounted(s, e.op, e.now, e.read, e.answers);
    } else {
      if !e.Pass? { QuietCounted(s, e); }
    }
  }

  lemma {:induction false} RunCounted(plans: map<UserId, Plan>, events: seq<Event>)
    ensures Counted(Run(Initial(plans), events))
  {
    if events != [] {
      RunCounted(plans, events[..|events| - 1]);
      InitialInv(plans);
      RunInv(Initial(plans), events[..|events| - 1]);
      StepCounted(Run(Initial(plans), events[..|events| - 1]), events[|events| - 1]);
    }
  }

  // ---- time stamps ----

  /** Stamps never lie in the future, and a standing dispatch marker carries its call's time. */
  predicate Stamped(s: State) {
    && (forall i :: 0 <= i < |s.t.ops| ==> s.t.ops[i].updatedAt <= s.clock)
    && (forall k :: 0 <= k < |s.calls| ==>
          && s.calls[k].op < |s.t.ops| && s.calls[k].markedAt <= s.clock
          && (s.t.ops[s.calls[k].op].stage == Dispatched(s.calls[k].cmd) ==>
                s.t.ops[s.calls[k].op].updatedAt == s.calls[k].markedAt))
  }

  /** While a worker may still be waiting for its call, the marker stands untouched. The start half of a
      reboot is left out: the result of its shutdown half can be filed there. */
  predicate Held(s: State, k: nat)
    requires k < |s.calls| && s.calls[k].op < |s.t.ops|
  {
    s.calls[k].attached && s.clock < s.calls[k].markedAt + DISPATCH_GRACE ==>
      || s.t.ops[s.calls[k].op].stage == Dispatched(s.calls[k].cmd)
      || (s.t.ops[s.calls[k].op].kind == Reboot && s.calls[k].cmd == StartVm)
  }

  ghost predicate Timed(s: State) {
    && Inv(s) && Stamped(s)
    && (forall k :: 0 <= k < |s.calls| ==> Held(s, k))
  }

  lemma PassTimed(s: State, i: nat, now: Time, answers: Answers)
    requires Timed(s) && i < |s.t.ops| && now <= s.clock && Selectable(s.t.ops[i], now)
    ensures Timed(DoPass(s, i, answers))
  {
    hide CallsUnique, MarkersCalled, TasksUnique, DraftsOk, OneActive, UniqueVmids, UnplacedPending, Truthful;
    PassInv(s, i, now, answers);
    var op, vm, s' := s.t.ops[i], s.t.vms[s.t.ops[i].vm], DoPass(s, i, answers);
    PassStage(op, vm, now, answers, s.clock);
    forall k | 0 <= k < |s'.calls|
      ensures s'.calls[k].op < |s'.t.ops| && s'.calls[k].markedAt <= s'.clock && Held(s', k)
      ensures s'.t.ops[s'.calls[k].op].stage == Dispatched(s'.calls[k].cmd) ==>
                s'.t.ops[s'.calls[k].op].updatedAt == s'.calls[k].markedAt
    {
      if k < |s.calls| { assert Held(s, k) && CallOk(s.t, s.calls[k]); }
    }
  }

  /** A pass rewrites a row with the current time, writes a dispatch marker only over a queued step, and
      leaves a standing marker alone until the grace is over. */
  lemma PassStage(op: Op, vm: Vm, now: Time, answers: Answers, stamp: Time)
    requires Sound(op, vm) && Selectable(op, now)
    ensures var o := FirstPass(op, vm, answers, stamp);
            o.Commit? ==>
              && (o.op == op || o.op.updatedAt == stamp) && o.op.kind == op.kind
              && (o.op.stage.Dispatched? ==>
                    op.stage == Queued(o.op.stage.cmd) && Sends(op, vm) == Some(o.op.stage.cmd))
    ensures op.stage.Dispatched? ==> op.updatedAt + DISPATCH_GRACE <= now
    ensures var o := FirstPass(op, vm, answers, stamp); o.Commit? && Sends(op, vm).Some? ==>
              o.op.stage == Dispatched(op.stage.cmd)
  {}

  /** A finish or failure that commits replaces a dispatch or reconcile marker. */
  lemma StoreStage(op: Op, vm: Vm, sent: Command, result: CallResult, stamp: Time)
    requires Sound(op, vm)
    ensures var o := Settle(op, vm, sent, result, stamp);
            o.Commit? ==> o.op.updatedAt == stamp && !o.op.stage.Dispatched? && o.op.kind == op.kind
    ensures var o := Lose(op, vm, sent, stamp);
            o.Commit? ==> o.op.updatedAt == stamp && !o.op.stage.Dispatched? && o.op.kind == op.kind
    ensures Settle(op, vm, sent, result, stamp).Commit? || Lose(op, vm, sent, stamp).Commit? ==>
              (op.stage.Dispatched? && (op.kind == Create ==> op.stage.cmd == sent))
              || (op.stage.Unsure? && (op.kind == Shutdown || op.kind == Stop))
  {}

  /** The waiting worker stores what its call returned, or gives it up. */
  lemma StoreTimed(s: State, s': State, k: nat, o: Outcome)
    requires Timed(s) && Inv(s') && k < |s.calls|
    requires s'.t == Transact(s.t, s.calls[k].op, o) && s'.calls == Detach(s.calls, k) && s'.clock == s.clock
    requires o.Commit? ==>
               && o.op.updatedAt == s.clock && !o.op.stage.Dispatched? && o.op.kind == s.t.ops[s.calls[k].op].kind
               && ((s.t.ops[s.calls[k].op].stage.Dispatched?
                    && (s.t.ops[s.calls[k].op].kind == Create ==> s.t.ops[s.calls[k].op].stage.cmd == s.calls[k].cmd))
                   || (s.t.ops[s.calls[k].op].stage.Unsure?
                       && (s.t.ops[s.calls[k].op].kind == Shutdown || s.t.ops[s.calls[k].op].kind == Stop)))
    ensures Timed(s')
  {
    hide MarkersCalled, TasksUnique, DraftsOk, OneActive, UniqueVmids, UnplacedPending;
    forall l | 0 <= l < |s'.calls|
      ensures s'.calls[l].op < |s'.t.ops| && s'.calls[l].markedAt <= s'.clock && Held(s', l)
      ensures s'.t.ops[s'.calls[l].op].stage == Dispatched(s'.calls[l].cmd) ==>
                s'.t.ops[s'.calls[l].op].updatedAt == s'.calls[l].markedAt
    {
      assert Held(s, l) && CallOk(s.t, s.calls[l]) && CallOk(s.t, s.calls[k]);
      if l != k && s.calls[l].op == s.calls[k].op { SecondCall(s, k, l); }
    }
  }

  /** Two calls of one operation: when the earlier command's marker stands, the other command is unmarked. */
  lemma SecondCall(s: State, k: nat, l: nat)
    requires Inv(s) && k < |s.calls| && l < |s.calls| && k != l && s.calls[k].op == s.calls[l].op
    ensures var op := s.t.ops[s.calls[k].op];
            s.calls[k].cmd != s.calls[l].cmd && (op.kind == Create || op.kind == Reboot)
            && (op.kind == Reboot && op.stage == Dispatched(s.calls[l].cmd) ==> s.calls[l].cmd == StartVm)
  {
    assert CallOk(s.t, s.calls[k]) && CallOk(s.t, s.calls[l]);
  }

  lemma FinishTimed(s: State, k: nat)
    requires Timed(s) && CanFinish(s, k)
    ensures Timed(DoFinish(s, k))
  {
    hide Settle, Stamped, Held, CallsUnique, MarkersCalled, TasksUnique, DraftsOk, Misfiles;
    assert CallOk(s.t, s.calls[k]);
    FinishInv(s, k);
    var i := s.calls[k].op;
    assert Sound(s.t.ops[i], s.t.vms[OpVm(s, k)]);
    StoreStage(s.t.ops[i], s.t.vms[OpVm(s, k)], s.calls[k].cmd, ResultOf(s.calls[k]).value, s.clock);
    StoreTimed(s, DoFinish(s, k), k, SettleOf(s, k));
  }

  lemma FailTimed(s: State, k: nat)
    requires Timed(s) && CanFail(s, k)
    ensures Timed(s.(t := Transact(s.t, s.calls[k].op, LoseOf(s, k)), calls := Detach(s.calls, k)))
  {
    hide Lose, Stamped, Held, CallsUnique, MarkersCalled, TasksUnique, DraftsOk;
    assert CallOk(s.t, s.calls[k]);
    FailInv(s, k);
    var i := s.calls[k].op;
    assert Sound(s.t.ops[i], s.t.vms[OpVm(s, k)]);
    StoreStage(s.t.ops[i], s.t.vms[OpVm(s, k)], s.calls[k].cmd, NoTask, s.clock);
    StoreTimed(s, s.(t := Transact(s.t, i, LoseOf(s, k)), calls := Detach(s.calls, k)), k, LoseOf(s, k));
  }

  /** Events outside the worker only add pending rows, detach workers, move calls on or let time pass. */
  lemma OtherTimed(s: State, e: Event)
    requires Timed(s) && Enabled(s, e) && !e.Pass? && !e.Finish? && !e.Fail?
    ensures Timed(Do(s, e))
  {
    var s' := Do(s, e);
    StepInv(s, e);
    StepContinues(s, e);
    OtherRows(s, e);
    forall k | 0 <= k < |s'.calls|
      ensures s'.calls[k].op < |s'.t.ops| && s'.calls[k].markedAt <= s'.clock && Held(s', k)
      ensures s'.t.ops[s'.calls[k].op].stage == Dispatched(s'.calls[k].cmd) ==>
                s'.t.ops[s'.calls[k].op].updatedAt == s'.calls[k].markedAt
    {
      assert Held(s, k);
    }
  }

  lemma OtherRows(s: State, e: Event)
    requires Enabled(s, e) && !e.Pass? && !e.Finish? && !e.Fail?
    ensures var s' := Do(s, e);
            && |s'.calls| == |s.calls| && |s.t.ops| <= |s'.t.ops| && s.clock <= s'.clock
            && (forall i :: 0 <= i < |s.t.ops| ==> s'.t.ops[i] == s.t.ops[i])
            && (forall i :: |s.t.ops| <= i < |s'.t.ops| ==> s'.t.ops[i].updatedAt == s.clock)
  {
    hide Attempt, Change, Truthful, Within, TotalUsage;
  }

  lemma StepTimed(s: State, e: Event)
    requires Timed(s)
    ensures Timed(Do(s, e))
  {
    hide Timed, DoPass, DoFinish, LoseOf, Inv;
    if Enabled(s, e) {
      match e
      case Pass(i, now, read, answers) => PassTimed(s, i, now, answers);
      case Finish(k) => FinishTimed(s, k);
      case Fail(k) => FailTimed(s, k);
      case _ => OtherTimed(s, e);
    }
  }

  lemma {:induction false} RunTimed(plans: map<UserId, Plan>, events: seq<Event>)
    ensures Timed(Run(Initial(plans), events))
  {
    if events == [] {
      InitialInv(plans);
    } else {
      RunTimed(plans, events[..|events| - 1]);
      StepTimed(Run(Initial(plans), events[..|events| - 1]), events[|events| - 1]);
    }
  }
}
