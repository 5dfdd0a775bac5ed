/** The worker queue: every row it can select is one a pass can handle, when a pass fails all the same,
    and what one failing row does to the rest. */
module Queue {
  import opened Domain
  import opened Phases
  import opened Transitions
  import opened Tables
  import opened Evolution
  import opened Protocol
  import opened Invariants
  import opened Requests

  /** The adapter offers a VMID that a row already has, possibly the row of a deleted VM. */
  predicate OffersTaken(t: Tables, i: nat, target: TargetAnswer)
    requires i < |t.ops|
  {
    target.Target? && !VmidFree(t.vms, t.ops[i].vm, Some(target.at))
  }

  /** Every selectable row has a phase, a placement and a task its kind's branch supports; a pass over it fails
      exactly when it has to choose a placement and the adapter has none to offer or offers a VMID already stored. */
  lemma OnlyPlacementFails(s: State, i: nat, now: Time, answers: Answers)
    requires Inv(s) && i < |s.t.ops| && Selectable(s.t.ops[i], now)
    ensures s.t.ops[i].vm < |s.t.vms| && Handleable(s.t.ops[i], s.t.vms[s.t.ops[i].vm])
    ensures !Commits(s.t, i, FirstPass(s.t.ops[i], s.t.vms[s.t.ops[i].vm], answers, s.clock)) <==>
              && NeedsPlacement(s.t.ops[i], s.t.vms[s.t.ops[i].vm])
              && (answers.target.TargetUnavailable? || OffersTaken(s.t, i, answers.target))
  {
    hide CallsOk, CallsUnique, MarkersCalled, TasksUnique, DraftsOk, OneActive, UnplacedPending;
    var op, vm := s.t.ops[i], s.t.vms[s.t.ops[i].vm];
    assert Sound(op, vm);
    PassKeepsPlacement(op, vm, now, answers, s.clock);
    assert vm.at.Some? ==> VmidFree(s.t.vms, op.vm, vm.at);
  }

  lemma PassKeepsPlacement(op: Op, vm: Vm, now: Time, answers: Answers, stamp: Time)
    requires Sound(op, vm) && Selectable(op, now)
    ensures var o := FirstPass(op, vm, answers, stamp);
            && (!NeedsPlacement(op, vm) ==> o.Commit? && vm.at.Some? && o.vm.at == vm.at)
            && (NeedsPlacement(op, vm) ==>
                  if answers.target.Target? then o.Commit? && o.vm.at == Some(answers.target.at) else o.Rollback?)
  {}

  /** The unsupported-phase and missing-row errors of the worker cannot arise in any run. */
  lemma NoStuckRow(plans: map<UserId, Plan>, events: seq<Event>, i: nat, now: Time)
    requires i < |Run(Initial(plans), events).t.ops| && Selectable(Run(Initial(plans), events).t.ops[i], now)
    ensures var t := Run(Initial(plans), events).t; t.ops[i].vm < |t.vms| && Handleable(t.ops[i], t.vms[t.ops[i].vm])
  {
    InitialInv(plans);
    RunInv(Initial(plans), events);
    OnlyPlacementFails(Run(Initial(plans), events), i, now,
                       Answers(TargetUnavailable, PowerUnavailable, TaskUnavailable));
  }

  // ---- one failing row at the head ----

  predicate Oldest(ops: seq<Op>, n: nat, now: Time) {
    n < |ops| && Selectable(ops[n], now)
    && forall m :: 0 <= m < |ops| && Selectable(ops[m], now) ==> ops[n].updatedAt <= ops[m].updatedAt
  }

  /** Time passes, or one worker serves the row the queue query returns, offered a VMID that is stored already. */
  ghost predicate OnlyTakenOffers(s: State, e: Event) {
    || e.Tick?
    || (e.Pass? && Oldest(s.t.ops, e.op, e.now) && OffersTaken(s.t, e.op, e.answers.target))
  }

  ghost predicate AllTakenOffers(s: State, events: seq<Event>) {
    events == []
    || (&& AllTakenOffers(s, events[..|events| - 1])
        && OnlyTakenOffers(Run(s, events[..|events| - 1]), events[|events| - 1]))
  }

  /** A create that waits for a placement longer than any other row has waited. */
  predicate HeadOfLine(s: State, i: nat) {
    && i < |s.t.ops| && s.t.ops[i].vm < |s.t.vms| && NeedsPlacement(s.t.ops[i], s.t.vms[s.t.ops[i].vm])
    && forall m :: 0 <= m < |s.t.ops| && m != i && Active(s.t.ops[m].stage) ==>
         s.t.ops[i].updatedAt < s.t.ops[m].updatedAt
  }

  /** As long as such a create is only offered stored VMIDs, no operation of any VM moves: its failed pass leaves
      its time stamp, so the queue query returns it again. */
  lemma {:induction false} TakenVmidBlocksQueue(s: State, events: seq<Event>, i: nat)
    requires Inv(s) && HeadOfLine(s, i) && AllTakenOffers(s, events)
    ensures Run(s, events).t == s.t && Run(s, events).calls == s.calls
  {
    hide Inv, Do, HeadOfLine, OnlyTakenOffers;
    if events != [] {
      var before, e := events[..|events| - 1], events[|events| - 1];
      TakenVmidBlocksQueue(s, before, i);
      HeadStays(s, Run(s, before), i);
      RunInv(s, before);
      TakenOfferChangesNothing(Run(s, before), e, i);
    }
  }

  lemma HeadStays(s: State, s': State, i: nat)
    requires HeadOfLine(s, i) && s'.t == s.t
    ensures HeadOfLine(s', i)
  {}

  lemma TakenOfferChangesNothing(s: State, e: Event, i: nat)
    requires Inv(s) && HeadOfLine(s, i) && OnlyTakenOffers(s, e)
    ensures Do(s, e).t == s.t && Do(s, e).calls == s.calls
  {
    hide Inv, Truthful, FirstPass;
    if e.Pass? && Enabled(s, e) {
      assert Selectable(s.t.ops[i], e.now);
      OnlyPlacementFails(s, i, e.now, e.answers);
      assert e.op == i;
    }
  }

  /** The failing step: a create without a placement can be served at any time, and served with a stored VMID it leaves
      both tables and the calls as they were, so its row is as old as before. */
  lemma TakenOfferFails(s: State, i: nat, at: Placement)
    requires Inv(s) && i < |s.t.ops| && NeedsPlacement(s.t.ops[i], s.t.vms[s.t.ops[i].vm])
    requires OffersTaken(s.t, i, Target(at))
    ensures var e := Pass(i, s.clock, s.clock, Answers(Target(at), PowerUnavailable, TaskUnavailable));
            Enabled(s, e) <==> !VmLocked(s.drafts, s.t.ops[i].vm)
    ensures var e := Pass(i, s.clock, s.clock, Answers(Target(at), PowerUnavailable, TaskUnavailable));
            Do(s, e).t == s.t && Do(s, e).calls == s.calls
  {
    hide CallsOk, CallsUnique, MarkersCalled, TasksUnique, DraftsOk, OneActive, UniqueVmids;
    OnlyPlacementFails(s, i, s.clock, Answers(Target(at), PowerUnavailable, TaskUnavailable));
  }

  /** A VMID once stored is stored for good: whatever happens to VM `j`, deletion included, a create of another VM that
      is offered its VMID is offered a stored one. */
  lemma StoredVmidStaysTaken(s: State, events: seq<Event>, j: nat, i: nat, at: Placement)
    requires Inv(s) && j < |s.t.vms| && s.t.vms[j].at.Some? && s.t.vms[j].at.value.vmid == at.vmid
    requires i < |Run(s, events).t.ops| && Run(s, events).t.ops[i].vm != j
    ensures OffersTaken(Run(s, events).t, i, Target(at))
  {
    hide Inv, Do;
    RunExtends(s, events);
    assert SameVm(s.t.vms[j], Run(s, events).t.vms[j]);
  }
}
