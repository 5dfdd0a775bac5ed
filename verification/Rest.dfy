/** Agreement at rest: when every call is settled within the grace, a VM with no pending or processing
    operation is in the state its row says; and which operations never come to rest. */
module Rest {
  import opened Domain
  import opened Phases
  import opened Transitions
  import opened Tables
  import opened Evolution
  import opened Protocol
  import opened Invariants
  import opened Agreement
  import opened Grace
  import opened Cloning

  // ---- runs in which workers settle their calls in time ----

  /** No worker waits for a call past the grace of its marker. */
  predicate Timely(s: State) {
    forall k :: 0 <= k < |s.calls| && s.calls[k].attached ==> s.clock < s.calls[k].markedAt + DISPATCH_GRACE
  }

  ghost predicate TimelyRun(s: State, events: seq<Event>) {
    Timely(Run(s, events)) && (events != [] ==> TimelyRun(s, events[..|events| - 1]))
  }

  /** Every waiting worker's marker stands, and no result was filed under another command. */
  predicate Prompt(s: State) {
    && s.misfiled == {}
    && (forall k :: 0 <= k < |s.calls| && s.calls[k].attached ==>
          s.calls[k].op < |s.t.ops| && s.t.ops[s.calls[k].op].stage == Dispatched(s.calls[k].cmd))
  }

  lemma PassPrompt(s: State, i: nat, now: Time, answers: Answers)
    requires Timed(s) && Timely(s) && Prompt(s) && i < |s.t.ops| && now <= s.clock && Selectable(s.t.ops[i], now)
    ensures Prompt(DoPass(s, i, answers))
  {
    hide MarkersCalled, TasksUnique, CallsOk, CallsUnique, DraftsOk, Truthful, FirstPass, Sound;
    var op, vm := s.t.ops[i], s.t.vms[s.t.ops[i].vm];
    assert Sound(op, vm);
    PassStage(op, vm, now, answers, s.clock);
    forall k | 0 <= k < |s.calls| && s.calls[k].attached ensures s.calls[k].op != i {
      assert Held(s, k);
    }
  }

  lemma FinishPrompt(s: State, k: nat)
    requires Timed(s) && Prompt(s) && CanFinish(s, k)
    ensures Prompt(DoFinish(s, k))
  {
    hide MarkersCalled, TasksUnique, DraftsOk, Settle;
    forall l | 0 <= l < |s.calls| && l != k && s.calls[l].attached ensures s.calls[l].op != s.calls[k].op {}
  }

  lemma FailPrompt(s: State, k: nat)
    requires Timed(s) && Prompt(s) && CanFail(s, k)
    ensures Prompt(s.(t := Transact(s.t, s.calls[k].op, LoseOf(s, k)), calls := Detach(s.calls, k)))
  {
    hide MarkersCalled, TasksUnique, DraftsOk, Lose;
    forall l | 0 <= l < |s.calls| && l != k && s.calls[l].attached ensures s.calls[l].op != s.calls[k].op {}
  }

  lemma StepPrompt(s: State, e: Event)
    requires Timed(s) && Timely(s) && Prompt(s)
    ensures Prompt(Do(s, e))
  {
    hide Timed, Timely, DoPass, DoFinish, LoseOf, Inv;
    if Enabled(s, e) {
      match e
      case Pass(i, now, read, answers) => PassPrompt(s, i, now, answers);
      case Finish(k) => FinishPrompt(s, k);
      case Fail(k) => FailPrompt(s, k);
      case _ => OtherPrompt(s, e);
    }
  }

  lemma OtherPrompt(s: State, e: Event)
    requires Prompt(s) && Enabled(s, e) && !e.Pass? && !e.Finish? && !e.Fail?
    ensures Prompt(Do(s, e))
  {
    hide Prompt, Do;
    OtherRows(s, e);
    StepContinues(s, e);
    OtherMisfiled(s, e);
    PromptKept(s, Do(s, e));
  }

  lemma OtherMisfiled(s: State, e: Event)
    requires Enabled(s, e) && !e.Finish?
    ensures Do(s, e).misfiled == s.misfiled
  {
    hide Attempt, Change, Truthful, FirstPass, Lose, Within, TotalUsage;
  }

  lemma PromptKept(s: State, s': State)
    requires Prompt(s) && s'.misfiled == s.misfiled && Continues(s.calls, s'.calls) && |s'.calls| == |s.calls|
    requires |s.t.ops| <= |s'.t.ops| && forall i :: 0 <= i < |s.t.ops| ==> s'.t.ops[i] == s.t.ops[i]
    ensures Prompt(s')
  {}

  lemma {:induction false} TimelyRunPrompt(plans: map<UserId, Plan>, events: seq<Event>)
    requires TimelyRun(Initial(plans), events)
    ensures Prompt(Run(Initial(plans), events))
  {
    if events != [] {
      TimelyRunPrompt(plans, events[..|events| - 1]);
      RunTimed(plans, events[..|events| - 1]);
      TimelyBefore(Initial(plans), events);
      StepPrompt(Run(Initial(plans), events[..|events| - 1]), events[|events| - 1]);
    }
  }

  lemma TimelyBefore(s: State, events: seq<Event>)
    requires TimelyRun(s, events) && events != []
    ensures Timely(Run(s, events[..|events| - 1]))
  {}

  // ---- agreement ----

  /** What a VM's row promises about the provider. */
  predicate RowHolds(s: State, j: nat)
    requires j < |s.t.vms|
  {
    var vm := s.t.vms[j];
    match vm.status
    case VmRunning =>
      vm.at.Some? && vm.at.value.vmid in s.machines
      && var m := s.machines[vm.at.value.vmid]; m.owner == Some(j) && m.running && !m.cloning
    case VmStopped =>
      vm.at.Some? && vm.at.value.vmid in s.machines
      && var m := s.machines[vm.at.value.vmid]; m.owner == Some(j) && !m.running && !m.cloning
    case VmDeleted =>
      forall vmid :: vmid in s.machines ==> s.machines[vmid].owner != Some(j)
    case _ => true
  }

  /** In every run: a VM at rest into whose operations no result was misfiled is as its row says. */
  lemma AgreementAtRest(plans: map<UserId, Plan>, events: seq<Event>, j: nat)
    requires j < |Run(Initial(plans), events).t.vms|
    requires !Busy(Run(Initial(plans), events).t.ops, j) && j !in Run(Initial(plans), events).misfiled
    ensures RowHolds(Run(Initial(plans), events), j)
  {
    RunAgreed(plans, events);
    RunCloning(plans, events);
    RestingRowHolds(Run(Initial(plans), events), j);
  }

  /** A VM at rest without a misfiled result is as its row says; a deleted one has no resource, not even one under
      clone. */
  lemma RestingRowHolds(s: State, j: nat)
    requires Agreed(s) && CloningTasked(s) && j < |s.t.vms| && !Busy(s.t.ops, j) && j !in s.misfiled
    ensures RowHolds(s, j)
  {
    hide OpAgrees, CallAgrees, CloneHeld, Inv, CloningTasked;
    assert VmAgrees(s, j);
    if s.t.vms[j].status == VmDeleted {
      forall vmid | vmid in s.machines ensures s.machines[vmid].owner != Some(j) {
        if s.machines[vmid].owner == Some(j) { NoCloneAtRest(s, vmid, j); }
      }
    }
  }

  /** In every timely run that is all VMs at rest. */
  lemma TimelyAgreement(plans: map<UserId, Plan>, events: seq<Event>)
    requires TimelyRun(Initial(plans), events)
    ensures var s := Run(Initial(plans), events);
            forall j :: 0 <= j < |s.t.vms| && !Busy(s.t.ops, j) ==> RowHolds(s, j)
  {
    TimelyRunPrompt(plans, events);
    var s := Run(Initial(plans), events);
    forall j | 0 <= j < |s.t.vms| && !Busy(s.t.ops, j) ensures RowHolds(s, j) {
      AgreementAtRest(plans, events, j);
    }
  }

  // ---- operations that never come to rest ----

  /** The adapter made no command of this call: a guard refused it, or it only reported. */
  predicate Refused(p: Progress) {
    p.Rejected? || p.Answered?
  }

  /** A resource that is locked when the call arrives, or is someone else's, refuses every command. */
  lemma LockedRefuses(s: State, k: nat, id: TaskId, instant: bool, gb: int)
    requires CanReach(s, k, id) && s.calls[k].at.vmid in s.machines
    requires var m := s.machines[s.calls[k].at.vmid]; m.locked || m.cloning || !Owns(m, OpVm(s, k))
    ensures var s' := Do(s, Effect(k, id, instant, gb));
            Refused(s'.calls[k].progress) && s'.machines == s.machines && s'.trails == s.trails
  {}

  /** A refused call keeps its operation at that command: it is dispatched, unsure or parked. */
  lemma RefusedStays(s: State, k: nat)
    requires Agreed(s) && k < |s.calls| && Refused(s.calls[k].progress) && OpVm(s, k) !in s.misfiled
    ensures s.t.ops[s.calls[k].op].stage
            in {Dispatched(s.calls[k].cmd), Unsure(s.calls[k].cmd), Parked(s.calls[k].cmd)}
  {
    hide MarkersCalled, TasksUnique, DraftsOk, CallsUnique, OneActive, CloneHeld;
    assert CallOk(s.t, s.calls[k]) && CallAgrees(s, k);
    var op := s.t.ops[s.calls[k].op];
    assert Sound(op, s.t.vms[op.vm]);
    assert !Confirmed(op.kind, op.stage, s.calls[k].cmd);
    IndexInjective(op.kind, op.stage.cmd, s.calls[k].cmd);
  }

  /** While no result is misfiled into an operation of its VM, no later events ever finish such an operation, because
      the command is not sent again: the VM stays busy, and every later lifecycle request for it is refused. */
  lemma RefusedForever(plans: map<UserId, Plan>, events: seq<Event>, more: seq<Event>, k: nat)
    requires k < |Run(Initial(plans), events).calls| && Refused(Run(Initial(plans), events).calls[k].progress)
    requires k < |Run(Initial(plans), events + more).calls|
    requires Run(Initial(plans), events + more).calls[k].op < |Run(Initial(plans), events + more).t.ops|
    requires OpVm(Run(Initial(plans), events + more), k) !in Run(Initial(plans), events + more).misfiled
    ensures var s := Run(Initial(plans), events + more);
            && StatusOf(s.t.ops[s.calls[k].op].stage) == Processing
            && Busy(s.t.ops, OpVm(s, k))
            && forall user, kind, key :: !Enabled(s, CheckEnqueue(user, OpVm(s, k), kind, key))
  {
    hide Enabled, MarkersCalled, TasksUnique, DraftsOk, CallsUnique, OneActive, CloneHeld;
    RunSplits(Initial(plans), events, more);
    RunContinues(Run(Initial(plans), events), more);
    RunAgreed(plans, events + more);
    var s := Run(Initial(plans), events + more);
    RefusedStays(s, k);
    BusyRefused(s, OpVm(s, k));
  }

  lemma BusyRefused(s: State, v: nat)
    requires Busy(s.t.ops, v)
    ensures forall user, kind, key :: !Enabled(s, CheckEnqueue(user, v, kind, key))
  {}
}
