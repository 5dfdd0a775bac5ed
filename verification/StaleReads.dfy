/** Runs in which a pass reads the provider well before it commits: the row lock keeps its two rows as they
    were, the provider moves on, and agreement still holds in every state. */
module StaleReads {
  import opened Domain
  import opened Transitions
  import opened Tables
  import opened Protocol
  import opened Invariants
  import opened Agreement
  import opened Cloning
  import opened Evidence
  import opened Grace
  import opened Rest

  /** A protocol event, or a pass over row `op` that commits on what it read in the earlier state `since`. */
  datatype Move = Step(e: Event) | StalePass(op: nat, now: Time, answers: Answers, since: nat)

  /** The operation and its VM have the same rows in both states. */
  predicate SameRows(r: State, s: State, i: nat) {
    && i < |r.t.ops| && i < |s.t.ops| && r.t.ops[i] == s.t.ops[i]
    && r.t.ops[i].vm < |r.t.vms| && r.t.ops[i].vm < |s.t.vms| && r.t.vms[r.t.ops[i].vm] == s.t.vms[r.t.ops[i].vm]
  }

  ghost predicate MoveOk(states: seq<State>, k: nat, m: Move)
    requires k + 1 < |states|
  {
    match m
    case Step(e) => states[k + 1] == Do(states[k], e)
    case StalePass(i, now, answers, since) =>
      && since <= k && now <= states[since].clock
      && (forall j :: since <= j <= k ==> SameRows(states[since], states[j], i))
      && Selectable(states[since].t.ops[i], now)
      && Truthful(states[since], states[since].t.ops[i], states[since].t.vms[states[since].t.ops[i].vm], answers)
      && SameRows(states[since], states[k], i)
      && states[k + 1] == DoPass(states[k], i, answers)
  }

  ghost predicate Trace(states: seq<State>, moves: seq<Move>) {
    && |states| == |moves| + 1
    && (forall k :: 0 <= k < |moves| ==> MoveOk(states, k, moves[k]))
  }

  /** Calls go on, a VM once misfiled stays that, and time passes. */
  predicate Advances(r: State, s: State) {
    Later(r.calls, s.calls) && r.misfiled <= s.misfiled && r.clock <= s.clock
  }

  lemma StepAdvances(s: State, e: Event)
    ensures Advances(s, Do(s, e))
  {
    hide Do, Continues;
    StepContinues(s, e);
    ContinuesLater(s.calls, Do(s, e).calls);
    MisfiledGrows(s, e);
  }

  lemma MisfiledGrows(s: State, e: Event)
    ensures s.misfiled <= Do(s, e).misfiled && s.clock <= Do(s, e).clock
  {
    hide Attempt, Change, CanPass, CanFinish, CanFail, CanReach, CanApply, Within, TotalUsage, Transact, Extend;
  }

  lemma ContinuesLater(calls: seq<Call>, calls': seq<Call>)
    requires Continues(calls, calls')
    ensures Later(calls, calls')
  {}

  lemma PassAdvances(s: State, i: nat, answers: Answers)
    requires i < |s.t.ops| && s.t.ops[i].vm < |s.t.vms|
    ensures Advances(s, DoPass(s, i, answers))
  {
    hide FirstPass, Commits;
  }

  lemma AdvancesOn(a: State, b: State, c: State)
    requires Advances(a, b) && Advances(b, c)
    ensures Advances(a, c)
  {}

  lemma StandsStill(s: State)
    ensures Advances(s, s)
  {}

  /** Everything the theorems about runs rest on. */
  ghost predicate Fine(s: State) {
    Proven(s) && CloningTasked(s) && Timed(s)
  }

  lemma FineParts(s: State)
    requires Fine(s)
    ensures Agreed(s) && Inv(s)
  {}

  lemma {:induction false} TraceFine(plans: map<UserId, Plan>, states: seq<State>, moves: seq<Move>)
    requires Trace(states, moves) && states[0] == Initial(plans)
    ensures forall k :: 0 <= k < |states| ==> Fine(states[k])
    ensures forall k :: 0 <= k < |states| ==> Advances(states[k], states[|moves|])
  {
    hide Fine, Advances, MoveOk;
    if moves == [] {
      InitialFine(plans);
      StandsStill(states[0]);
    } else {
      var n := |moves| - 1;
      ShorterTrace(states, moves);
      TraceFine(plans, states[..n + 1], moves[..n]);
      forall k | 0 <= k <= n ensures Fine(states[k]) && Advances(states[k], states[n]) {
        assert states[..n + 1][k] == states[k];
      }
      LastMove(states, n, moves[n]);
      StandsStill(states[n + 1]);
      forall k | 0 <= k <= n ensures Advances(states[k], states[n + 1]) {
        AdvancesOn(states[k], states[n], states[n + 1]);
      }
    }
  }

  lemma InitialFine(plans: map<UserId, Plan>)
    ensures Fine(Initial(plans))
  {
    InitialProven(plans);
    InitialInv(plans);
  }

  lemma ShorterTrace(states: seq<State>, moves: seq<Move>)
    requires Trace(states, moves) && moves != []
    ensures Trace(states[..|moves|], moves[..|moves| - 1])
  {
    hide Do, DoPass, Selectable, Truthful;
    var shorter, n := states[..|moves|], |moves| - 1;
    forall k | 0 <= k < n ensures MoveOk(shorter, k, moves[k]) {
      assert MoveOk(states, k, moves[k]);
      assert forall j :: 0 <= j <= k + 1 ==> shorter[j] == states[j];
    }
  }

  lemma LastMove(states: seq<State>, n: nat, m: Move)
    requires n + 1 < |states| && MoveOk(states, n, m)
    requires forall k :: 0 <= k <= n ==> Fine(states[k]) && Advances(states[k], states[n])
    ensures Fine(states[n + 1]) && Advances(states[n], states[n + 1])
  {
    hide Fine, Do, DoPass, Truthful, Selectable, Later;
    match m
    case Step(e) =>
      StepFine(states[n], e);
      StepAdvances(states[n], e);
    case StalePass(i, now, answers, since) =>
      StalePassFine(states[since], states[n], i, now, answers);
      PassAdvances(states[n], i, answers);
  }

  lemma StepFine(s: State, e: Event)
    requires Fine(s)
    ensures Fine(Do(s, e))
  {
    hide Proven, CloningTasked, Timed, Do;
    FinePieces(s);
    StepProven(s, e);
    StepCloning(s, e);
    StepTimed(s, e);
  }

  lemma FinePieces(s: State)
    requires Fine(s)
    ensures Inv(s)
  {}

  lemma StalePassFine(r: State, s: State, i: nat, now: Time, answers: Answers)
    requires Fine(r) && Fine(s) && Advances(r, s) && SameRows(r, s, i) && now <= r.clock
    requires Selectable(s.t.ops[i], now) && Truthful(r, r.t.ops[i], r.t.vms[r.t.ops[i].vm], answers)
    ensures Fine(DoPass(s, i, answers))
  {
    hide CloningTasked, CreateFacts, Agreed, Stamped, Held, DoPass, Truthful, Selectable, Later;
    FineParts(r);
    FineParts(s);
    StalePassAgreed(r, s, i, now, answers);
    PassProven(s, i, now, answers);
    PassTimed(s, i, now, answers);
    PassKeepsVm(s, i, now, answers);
    PassCloning(s, i, answers);
  }

  lemma PassKeepsVm(s: State, i: nat, now: Time, answers: Answers)
    requires Inv(s) && i < |s.t.ops| && Selectable(s.t.ops[i], now)
    ensures Transact(s.t, i, FirstPass(s.t.ops[i], s.t.vms[s.t.ops[i].vm], answers, s.clock)).ops[i].vm == s.t.ops[i].vm
  {
    hide FirstPass, Commits, Selectable, CallsOk, MarkersCalled, CallsUnique, TasksUnique, DraftsOk;
    PassRows(s, i, now, answers);
  }

  // ---- the theorems, for passes that commit on old reads as well ----

  /** At most one call per operation and command, at most one active operation per VM, and every VM at rest into whose
      operations no result was misfiled is as its row says. */
  lemma AgreementWithStaleReads(plans: map<UserId, Plan>, states: seq<State>, moves: seq<Move>)
    requires Trace(states, moves) && states[0] == Initial(plans)
    ensures var s := states[|moves|];
            && CallsUnique(s.calls) && OneActive(s.t.ops)
            && forall j :: 0 <= j < |s.t.vms| && !Busy(s.t.ops, j) && j !in s.misfiled ==> RowHolds(s, j)
  {
    hide MoveOk, CreateFacts, Stamped, Held, OpAgrees, CallAgrees, CloneHeld;
    TraceFine(plans, states, moves);
    var s := states[|moves|];
    forall j | 0 <= j < |s.t.vms| && !Busy(s.t.ops, j) && j !in s.misfiled ensures RowHolds(s, j) {
      RestingRowHolds(s, j);
    }
  }

  /** When no worker ever waits past the grace, that is every VM at rest. */
  lemma {:induction false} TimelyTracePrompt(plans: map<UserId, Plan>, states: seq<State>, moves: seq<Move>)
    requires Trace(states, moves) && states[0] == Initial(plans) && forall k :: 0 <= k < |moves| ==> Timely(states[k])
    ensures Prompt(states[|moves|])
  {
    hide Fine, MoveOk, Timely;
    if moves != [] {
      var n := |moves| - 1;
      ShorterTrace(states, moves);
      assert forall k :: 0 <= k <= n ==> states[..n + 1][k] == states[k];
      TimelyTracePrompt(plans, states[..n + 1], moves[..n]);
      TraceFine(plans, states[..n + 1], moves[..n]);
      assert Fine(states[n]) && MoveOk(states, n, moves[n]);
      PromptMove(states, n, moves[n]);
    }
  }

  lemma PromptMove(states: seq<State>, n: nat, m: Move)
    requires n + 1 < |states| && MoveOk(states, n, m) && Fine(states[n]) && Timely(states[n]) && Prompt(states[n])
    requires forall k :: 0 <= k <= n ==> Advances(states[k], states[n])
    ensures Prompt(states[n + 1])
  {
    hide Proven, CloningTasked, Timed, Timely, Prompt, Do, DoPass, Truthful, Selectable, Later;
    match m
    case Step(e) => StepPrompt(states[n], e);
    case StalePass(i, now, answers, since) => PassPrompt(states[n], i, now, answers);
  }

  lemma TimelyAgreementWithStaleReads(plans: map<UserId, Plan>, states: seq<State>, moves: seq<Move>)
    requires Trace(states, moves) && states[0] == Initial(plans) && forall k :: 0 <= k < |states| ==> Timely(states[k])
    ensures var s := states[|moves|];
            forall j :: 0 <= j < |s.t.vms| && !Busy(s.t.ops, j) ==> RowHolds(s, j)
  {
    hide MoveOk, Timely, RowHolds;
    TimelyTracePrompt(plans, states, moves);
    AgreementWithStaleReads(plans, states, moves);
  }

  /** A create that succeeded has its evidence. */
  lemma EvidenceWithStaleReads(plans: map<UserId, Plan>, states: seq<State>, moves: seq<Move>, i: nat)
    requires Trace(states, moves) && states[0] == Initial(plans)
    requires i < |states[|moves|].t.ops|
    requires states[|moves|].t.ops[i].kind == Create && states[|moves|].t.ops[i].stage.Done?
    ensures HasEvidence(states[|moves|], i)
  {
    hide MoveOk;
    TraceFine(plans, states, moves);
    ProvenHasEvidence(states[|moves|], i);
  }
}
