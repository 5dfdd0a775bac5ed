/** How often a waiting operation reads the provider, and what is never selected again. */
module Throttle {
  import opened Domain
  import opened Phases
  import opened Transitions
  import opened Tables
  import opened Evolution
  import opened Protocol
  import opened Invariants
  import opened Grace

  /** The row waits in a reconcile or poll-backoff phase. */
  predicate Throttled(stage: Stage) {
    stage.Unsure? || (stage.Awaiting? && stage.slow)
  }

  /** This pass reads the provider for operation `i` while it waits. */
  ghost predicate ReadsWaiting(s: State, e: Event, i: nat) {
    && e.Pass? && e.op == i && Enabled(s, e)
    && Throttled(s.t.ops[i].stage)
    && s.t.ops[i].stage.cmd != ConfigureVm && s.t.ops[i].stage.cmd != ResizeDisk
  }

  /** The times at which operation `i` was read while waiting. */
  ghost function WaitingReads(s: State, events: seq<Event>, i: nat): seq<Time> {
    if events == [] then []
    else
      var e := events[|events| - 1];
      WaitingReads(s, events[..|events| - 1], i)
      + (if ReadsWaiting(Run(s, events[..|events| - 1]), e, i) then [e.read] else [])
  }

  /** A row's stamp never goes back, and a pass over a waiting row renews it. */
  lemma StampGrows(s: State, e: Event, i: nat)
    requires Timed(s) && i < |s.t.ops|
    ensures i < |Do(s, e).t.ops| && s.t.ops[i].updatedAt <= Do(s, e).t.ops[i].updatedAt
    ensures ReadsWaiting(s, e, i) ==> Do(s, e).t.ops[i].updatedAt == s.clock
  {
    hide MarkersCalled, TasksUnique, CallsOk, CallsUnique, DraftsOk, Truthful, FirstPass, Settle, Lose, Sound, Held,
      OneActive, UnplacedPending, Attempt, Change;
    if Enabled(s, e) {
      match e
      case Pass(n, now, _, answers) =>
        assert Sound(s.t.ops[n], s.t.vms[s.t.ops[n].vm]);
        PassStage(s.t.ops[n], s.t.vms[s.t.ops[n].vm], now, answers, s.clock);
        if Throttled(s.t.ops[n].stage) { WaitingRenewed(s.t, n, answers, s.clock); }
      case Finish(k) =>
        assert Sound(s.t.ops[s.calls[k].op], s.t.vms[OpVm(s, k)]);
        StoreStage(s.t.ops[s.calls[k].op], s.t.vms[OpVm(s, k)], s.calls[k].cmd, ResultOf(s.calls[k]).value, s.clock);
      case Fail(k) =>
        assert Sound(s.t.ops[s.calls[k].op], s.t.vms[OpVm(s, k)]);
        StoreStage(s.t.ops[s.calls[k].op], s.t.vms[OpVm(s, k)], s.calls[k].cmd, NoTask, s.clock);
      case _ => OtherRows(s, e);
    }
  }

  lemma WaitingRenewed(t: Tables, n: nat, answers: Answers, stamp: Time)
    requires TablesOk(t) && n < |t.ops| && Throttled(t.ops[n].stage)
    ensures var o := FirstPass(t.ops[n], t.vms[t.ops[n].vm], answers, stamp);
            Commits(t, n, o) && o.op.updatedAt == stamp
  {
    hide OneActive, UnplacedPending;
    assert Sound(t.ops[n], t.vms[t.ops[n].vm]);
  }

  /** Two reads of a waiting operation are at least the reconcile delay apart, in every run. */
  lemma {:induction false} ReadsSpaced(plans: map<UserId, Plan>, events: seq<Event>, i: nat)
    ensures var times := WaitingReads(Initial(plans), events, i);
            && (forall m, n :: 0 <= m < n < |times| ==> times[m] + RECONCILE_DELAY <= times[n])
            && (times != [] ==> i < |Run(Initial(plans), events).t.ops|)
            && (forall m :: 0 <= m < |times| ==> times[m] <= Run(Initial(plans), events).t.ops[i].updatedAt)
  {
    hide Timed, Truthful, FirstPass, Do;
    if events != [] {
      var before, e := events[..|events| - 1], events[|events| - 1];
      ReadsSpaced(plans, before, i);
      RunTimed(plans, before);
      var s := Run(Initial(plans), before);
      if i < |s.t.ops| { StampGrows(s, e, i); }
    }
  }

  /** Times that are the delay apart: at most 1 + length / delay of them fit in a window. */
  lemma {:induction false} SpacedFit(times: seq<Time>, start: Time, length: nat)
    requires forall m, n :: 0 <= m < n < |times| ==> times[m] + RECONCILE_DELAY <= times[n]
    requires forall m :: 0 <= m < |times| ==> start <= times[m] <= start + length
    ensures |times| <= 1 + length / RECONCILE_DELAY
  {
    if |times| > 1 {
      var m, n := |times| - 2, |times| - 1;
      assert times[m] + RECONCILE_DELAY <= times[n] <= start + length;
      SpacedFit(times[..n], start, times[m] - start);
    }
  }

  /** At most 1 + T / 10 s reads of a waiting operation fall into any window of length T. */
  lemma ReadsPerWindow(plans: map<UserId, Plan>, events: seq<Event>, i: nat, from_: nat, to: nat, start: Time,
                       length: nat)
    requires from_ <= to <= |WaitingReads(Initial(plans), events, i)|
    requires forall m :: from_ <= m < to ==> start <= WaitingReads(Initial(plans), events, i)[m] <= start + length
    ensures to - from_ <= 1 + length / RECONCILE_DELAY
  {
    ReadsSpaced(plans, events, i);
    SpacedFit(WaitingReads(Initial(plans), events, i)[from_..to], start, length);
  }

  /** A standing dispatch marker is left alone until the grace after its call has passed. */
  lemma MarkerUndisturbed(plans: map<UserId, Plan>, events: seq<Event>, k: nat, now: Time, read: Time, answers: Answers)
    requires k < |Run(Initial(plans), events).calls|
    requires Run(Initial(plans), events).calls[k].op < |Run(Initial(plans), events).t.ops|
    requires Run(Initial(plans), events).t.ops[Run(Initial(plans), events).calls[k].op].stage
             == Dispatched(Run(Initial(plans), events).calls[k].cmd)
    requires Enabled(Run(Initial(plans), events), Pass(Run(Initial(plans), events).calls[k].op, now, read, answers))
    ensures Run(Initial(plans), events).calls[k].markedAt + DISPATCH_GRACE <= now <= read
  {
    hide FirstPass, Truthful, Inv;
    RunTimed(plans, events);
  }

  /** A parked create is never selected, finished or failed: nothing that happens later changes its row. */
  lemma {:induction false} ParkedForever(s: State, events: seq<Event>, i: nat)
    requires Inv(s) && i < |s.t.ops| && s.t.ops[i].stage.Parked?
    ensures i < |Run(s, events).t.ops| && Run(s, events).t.ops[i] == s.t.ops[i]
    ensures forall now, read, answers :: !Enabled(Run(s, events), Pass(i, now, read, answers))
  {
    hide Do, Truthful;
    if events != [] {
      ParkedForever(s, events[..|events| - 1], i);
      RunInv(s, events[..|events| - 1]);
      ParkedStep(Run(s, events[..|events| - 1]), events[|events| - 1], i);
    }
  }

  lemma ParkedStep(s: State, e: Event, i: nat)
    requires Inv(s) && i < |s.t.ops| && s.t.ops[i].stage.Parked?
    ensures i < |Do(s, e).t.ops| && Do(s, e).t.ops[i] == s.t.ops[i]
  {
    hide MarkersCalled, TasksUnique, CallsUnique, DraftsOk, Truthful, OneActive, UniqueVmids, UnplacedPending,
      Attempt, Change;
    assert Sound(s.t.ops[i], s.t.vms[s.t.ops[i].vm]);
    if Enabled(s, e) {
      match e
      case Pass(_, _, _, _) =>
      case Finish(k) => assert CallOk(s.t, s.calls[k]);
      case Fail(k) => assert CallOk(s.t, s.calls[k]);
      case _ => OtherRows(s, e);
    }
  }
}
