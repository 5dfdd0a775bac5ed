/** What holds in every run of the protocol, whatever workers, crashes, losses and races it contains. */
module Safety {
  import opened Domain
  import opened Phases
  import opened Transitions
  import opened Tables
  import opened Evolution
  import opened Protocol
  import opened Invariants
  import opened Grace
  import opened Texts
  import opened Rows

  /** Each operation makes at most one mutating call per command, only for its own commands, to its saved placement
      and with its VM's own request; `attempts` is their number, at most 4 for a create, 2 for a reboot and 1
      otherwise, and exactly that many on success. */
  lemma AtMostOnce(plans: map<UserId, Plan>, events: seq<Event>)
    ensures var s := Run(Initial(plans), events);
            && (forall k, l :: 0 <= k < l < |s.calls| ==>
                  s.calls[k].op != s.calls[l].op || s.calls[k].cmd != s.calls[l].cmd)
            && (forall k :: 0 <= k < |s.calls| ==>
                  && s.calls[k].op < |s.t.ops| && OpVm(s, k) < |s.t.vms|
                  && s.calls[k].cmd in Script(s.t.ops[s.calls[k].op].kind)
                  && s.t.vms[OpVm(s, k)].at == Some(s.calls[k].at) && s.t.vms[OpVm(s, k)].spec == s.calls[k].request)
            && (forall i :: 0 <= i < |s.t.ops| ==>
                  && CallsOf(s.calls, i) == s.t.ops[i].attempts <= |Script(s.t.ops[i].kind)|
                  && (s.t.ops[i].stage.Done? ==> CallsOf(s.calls, i) == |Script(s.t.ops[i].kind)|))
  {
    hide MarkersCalled, TasksUnique, DraftsOk, OneActive, UniqueVmids, UnplacedPending;
    var s := Run(Initial(plans), events);
    InitialInv(plans);
    RunInv(Initial(plans), events);
    RunCounted(plans, events);
    forall k | 0 <= k < |s.calls|
      ensures s.calls[k].op < |s.t.ops| && OpVm(s, k) < |s.t.vms|
      ensures s.calls[k].cmd in Script(s.t.ops[s.calls[k].op].kind)
      ensures s.t.vms[OpVm(s, k)].at == Some(s.calls[k].at) && s.t.vms[OpVm(s, k)].spec == s.calls[k].request
    {
      assert CallOk(s.t, s.calls[k]);
      ScriptIndex(s.t.ops[s.calls[k].op].kind, s.calls[k].cmd);
    }
    forall i | 0 <= i < |s.t.ops|
      ensures s.t.ops[i].attempts <= |Script(s.t.ops[i].kind)|
      ensures s.t.ops[i].stage.Done? ==> s.t.ops[i].attempts == |Script(s.t.ops[i].kind)|
    {
      AttemptsBound(s.t.ops[i], s.t.vms[s.t.ops[i].vm]);
    }
  }

  /** At most one operation per VM is pending or processing, and it fixes the VM's status. */
  lemma OneActivePerVm(plans: map<UserId, Plan>, events: seq<Event>)
    ensures var s := Run(Initial(plans), events);
            && (forall i, j :: 0 <= i < |s.t.ops| && 0 <= j < |s.t.ops| && s.t.ops[i].vm == s.t.ops[j].vm
                  && StatusOf(s.t.ops[i].stage) in {Pending, Processing}
                  && StatusOf(s.t.ops[j].stage) in {Pending, Processing}
                  ==> i == j)
            && (forall i :: 0 <= i < |s.t.ops| && StatusOf(s.t.ops[i].stage) in {Pending, Processing} ==>
                  && s.t.ops[i].vm < |s.t.vms|
                  && var op, status := s.t.ops[i], s.t.vms[s.t.ops[i].vm].status;
                     match op.kind
                     case Create => status == VmPending || status == VmProvisioning
                     case Start => status == VmStopped
                     case Shutdown => status == VmRunning
                     case Stop => status == VmRunning
                     case Reboot => status == if op.stage.cmd == ShutdownVm then VmRunning else VmStopped
                     case Delete => status == if StatusOf(op.stage) == Pending then VmStopped else VmDeleting)
  {
    hide MarkersCalled, TasksUnique, DraftsOk, CallsOk, CallsUnique, UniqueVmids, UnplacedPending;
    InitialInv(plans);
    RunInv(Initial(plans), events);
  }

  /** While a call is in flight and its grace has not run out, its operation's committed row still shows that very
      marker, written when the call was made. For the start half of a reboot the row is at least not pending. */
  lemma InFlightHasRow(plans: map<UserId, Plan>, events: seq<Event>, k: nat)
    requires k < |Run(Initial(plans), events).calls|
    requires Run(Initial(plans), events).calls[k].attached
    requires Run(Initial(plans), events).clock < Run(Initial(plans), events).calls[k].markedAt + DISPATCH_GRACE
    ensures var s := Run(Initial(plans), events);
            && s.calls[k].op < |s.t.ops|
            && var op := s.t.ops[s.calls[k].op];
               && StatusOf(op.stage) != Pending
               && ((op.kind == Reboot && s.calls[k].cmd == StartVm)
                   || (op.stage == Dispatched(s.calls[k].cmd) && op.updatedAt == s.calls[k].markedAt))
  {
    RunTimed(plans, events);
    var s := Run(Initial(plans), events);
    assert Held(s, k) && CallOk(s.t, s.calls[k]);
    NotQueuedWhenMarked(s.t.ops[s.calls[k].op], s.calls[k].cmd);
  }

  lemma NotQueuedWhenMarked(op: Op, c: Command)
    requires Fits(op.kind, op.stage) && Uses(op.kind, c) && Marked(op.kind, op.stage, c)
    ensures op.kind == Reboot && c == StartVm ==> StatusOf(op.stage) != Pending
  {}

  // ---- late results ----

  /** The command can read what the call returned, and a task in it is at the call's placement. */
  predicate Readable(c: Command, call: Call)
    requires ResultOf(call).Some?
  {
    match ReadResult(c, ResultOf(call).value)
    case Invalid => false
    case Working(t) => t.at == call.at
    case _ => true
  }

  /** When a stored result changes a row. For a create or start: exactly when the operation still shows the
      marker of that very call, so a result that comes after reconciliation changes nothing. A shutdown or stop
      also takes a task after reconciliation, and a reboot takes the result under whichever marker it shows. */
  lemma FinishCommitsWhen(s: State, k: nat)
    requires Timed(s) && CanFinish(s, k)
    ensures var op, call := s.t.ops[s.calls[k].op], s.calls[k];
            Commits(s.t, call.op, SettleOf(s, k)) <==>
              && !op.stage.Done? && Readable(op.stage.cmd, call)
              && (match op.kind
                  case Reboot => op.stage.Dispatched?
                  case Shutdown => op.stage.Dispatched? || (op.stage.Unsure? && ResultOf(call).value.TaskResult?)
                  case Stop => op.stage.Dispatched? || (op.stage.Unsure? && ResultOf(call).value.TaskResult?)
                  case _ => op.stage == Dispatched(call.cmd))
    ensures var op, call := s.t.ops[s.calls[k].op], s.calls[k];
            op.stage == Dispatched(call.cmd) ==>
              op.updatedAt == call.markedAt
              && forall l :: 0 <= l < |s.calls| && s.calls[l].op == call.op && s.calls[l].cmd == call.cmd ==> l == k
  {
    hide MarkersCalled, TasksUnique, DraftsOk, OneActive, UnplacedPending;
    var op, vm, call := s.t.ops[s.calls[k].op], s.t.vms[OpVm(s, k)], s.calls[k];
    assert CallOk(s.t, call);
    assert Sound(op, vm);
    SettleCommitsWhen(op, vm, call);
    assert VmidFree(s.t.vms, op.vm, vm.at);
  }

  lemma SettleCommitsWhen(op: Op, vm: Vm, call: Call)
    requires Sound(op, vm) && vm.at == Some(call.at) && ResultOf(call).Some? && Uses(op.kind, call.cmd)
    requires Marked(op.kind, op.stage, call.cmd)
    ensures forall stamp :: Settle(op, vm, call.cmd, ResultOf(call).value, stamp).Commit? <==>
              && !op.stage.Done? && Readable(op.stage.cmd, call)
              && (match op.kind
                  case Reboot => op.stage.Dispatched?
                  case Shutdown => op.stage.Dispatched? || (op.stage.Unsure? && ResultOf(call).value.TaskResult?)
                  case Stop => op.stage.Dispatched? || (op.stage.Unsure? && ResultOf(call).value.TaskResult?)
                  case _ => op.stage == Dispatched(call.cmd))
    ensures forall stamp :: Settle(op, vm, call.cmd, ResultOf(call).value, stamp).Commit? ==>
              Settle(op, vm, call.cmd, ResultOf(call).value, stamp).vm.at == vm.at
  {}

  /** A failure transaction changes a row exactly when the operation shows a dispatch marker, for a create that of
      the very command; so for creates and starts a failure stored after reconciliation changes nothing either. */
  lemma FailCommitsWhen(s: State, k: nat)
    requires Timed(s) && CanFail(s, k)
    ensures var op, call := s.t.ops[s.calls[k].op], s.calls[k];
            Commits(s.t, call.op, LoseOf(s, k)) <==>
              if op.kind == Reboot then op.stage.Dispatched? else op.stage == Dispatched(call.cmd)
  {
    hide MarkersCalled, TasksUnique, DraftsOk, OneActive, UnplacedPending;
    var op, vm, call := s.t.ops[s.calls[k].op], s.t.vms[OpVm(s, k)], s.calls[k];
    assert CallOk(s.t, call);
    assert Sound(op, vm);
    assert VmidFree(s.t.vms, op.vm, vm.at);
  }

  // ---- the shape of rows ----

  predicate Waiting(phase: string) {
    StartsWith(phase, "dispatch") || StartsWith(phase, "reconcile") || StartsWith(phase, "needs_review")
  }

  /** In every run a stored row has this shape: no task while pending or succeeded, a task once failed, and while
      processing a task exactly when the phase is not a dispatch, reconcile or needs_review phase; the phase fits
      its column, and only a pending row of a one-command kind has none. */
  lemma RowShape(plans: map<UserId, Plan>, events: seq<Event>, i: nat)
    requires i < |Run(Initial(plans), events).t.ops|
    ensures var row := OpRowOf(Run(Initial(plans), events).t.ops[i]);
            && (row.status == Pending || row.status == Succeeded ==> row.providerTaskId == None)
            && (row.status == OpStatus.Failed ==> row.providerTaskId.Some?)
            && (row.phase == None ==> row.status == Pending && row.operationType !in {Create, Reboot})
            && (row.phase.Some? ==> |row.phase.value| <= 32)
            && (row.status == Processing ==> (row.providerTaskId == None <==> Waiting(row.phase.value)))
  {
    hide Waiting, Do, PhaseText;
    InitialInv(plans);
    RunInv(Initial(plans), events);
    var op := Run(Initial(plans), events).t.ops[i];
    assert Fits(op.kind, op.stage) by { assert Sound(op, Run(Initial(plans), events).t.vms[op.vm]); }
    PhaseFitsColumn(op.kind, op.stage);
    PhasePresence(op.kind, op.stage);
    if StatusOf(op.stage) == Processing { WaitingPhases(op.kind, op.stage); }
  }

  lemma PhasePresence(kind: Kind, stage: Stage)
    ensures PhaseText(kind, stage) == None <==> stage.Queued? && kind != Create && kind != Reboot
  {}

  lemma WaitingPhases(kind: Kind, stage: Stage)
    requires Fits(kind, stage) && StatusOf(stage) == Processing
    ensures PhaseText(kind, stage).Some?
    ensures TaskOf(stage) == None <==> Waiting(PhaseText(kind, stage).value)
  {
    match stage
    case Dispatched(c) => DispatchWaits(kind, c);
    case Unsure(c) => UnsureWaits(kind, c);
    case Parked(c) => ParkedWaits(c);
    case Awaiting(c, _, slow) => PollWaitsNot(kind, c, slow);
  }

  lemma DispatchWaits(kind: Kind, c: Command)
    requires Uses(kind, c)
    ensures Waiting(DispatchText(kind, c))
  {
    hide UnsureText, ParkedText, PollText;
    if kind == Start {
      assert DispatchText(kind, c)[..8] == "dispatch";
    } else {
      DispatchToReconcile(kind, c);
      assert DispatchText(kind, c)[..9] == "dispatch_";
      assert DispatchText(kind, c)[..8] == DispatchText(kind, c)[..9][..8] == "dispatch";
    }
  }

  lemma UnsureWaits(kind: Kind, c: Command)
    requires Uses(kind, c)
    ensures Waiting(UnsureText(kind, c))
  {
    hide DispatchText, ParkedText, PollText;
    if kind == Start {
      assert UnsureText(kind, c) == "reconcile";
    } else {
      DispatchToReconcile(kind, c);
      assert UnsureText(kind, c)[..10] == "reconcile_";
      assert UnsureText(kind, c)[..9] == UnsureText(kind, c)[..10][..9] == "reconcile";
    }
  }

  lemma ParkedWaits(c: Command)
    ensures Waiting(ParkedText(c))
  {
    assert ParkedText(c)[..12] == "needs_review";
  }

  /** A polled phase differs from each waiting prefix at the first or third letter. */
  lemma PollWaitsNot(kind: Kind, c: Command, slow: bool)
    requires Uses(kind, c)
    ensures !Waiting(PollText(kind, c, slow))
  {
    hide DispatchText, UnsureText, ParkedText, StartsWith;
    var text := PollText(kind, c, slow);
    PollLetters(kind, c, slow);
    PrefixLetter(text, "dispatch", 0);
    PrefixLetter(text, "reconcile", 2);
    PrefixLetter(text, "needs_review", 0);
  }

  lemma PollLetters(kind: Kind, c: Command, slow: bool)
    requires Uses(kind, c)
    ensures var text := PollText(kind, c, slow); |text| > 2 && text[0] != 'd' && text[2] != 'c' && text[0] != 'n'
  {}

  lemma PrefixLetter(text: string, prefix: string, n: nat)
    requires n < |prefix| && n < |text| && text[n] != prefix[n]
    ensures !StartsWith(text, prefix)
  {}
}
