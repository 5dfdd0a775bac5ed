/** What one committed transaction does to its operation and VM: the shape it keeps, and how far it moves. */
module Evolution {
  import opened Domain
  import opened Phases
  import opened Transitions

  /** Number of dispatch markers an operation has written to be in this stage. */
  function Markers(kind: Kind, stage: Stage): nat {
    match stage
    case Queued(c) => Index(kind, c)
    case Done => |Script(kind)|
    case _ => Index(kind, stage.cmd) + 1
  }

  /** The command has been marked for dispatch. */
  predicate Marked(kind: Kind, stage: Stage, c: Command) {
    Index(kind, c) < Markers(kind, stage)
  }

  /** The VM statuses an active operation can meet. */
  predicate StatusFits(kind: Kind, stage: Stage, status: VmStatus)
    requires Active(stage)
  {
    match kind
    case Create =>
      if stage.cmd != CloneVm then status == VmProvisioning
      else if stage.Queued? || stage.Dispatched? then status == VmPending
      else if stage.Unsure? then status == VmPending || status == VmProvisioning
      else status == VmProvisioning
    case Start => status == VmStopped
    case Shutdown => status == VmRunning
    case Stop => status == VmRunning
    case Reboot => if stage.cmd == ShutdownVm then status == VmRunning else status == VmStopped
    case Delete => if stage.Queued? then status == VmStopped else status == VmDeleting
  }

  /** What every operation row and its VM row satisfy together. */
  predicate Sound(op: Op, vm: Vm) {
    && Fits(op.kind, op.stage)
    && (vm.at.None? ==> op.kind == Create && op.stage == Queued(CloneVm))
    && op.attempts == Markers(op.kind, op.stage)
    && (Active(op.stage) ==> StatusFits(op.kind, op.stage, vm.status))
  }

  /** The fixed columns stay, the placement is chosen once, markers only accumulate, and nothing is revived. */
  predicate Evolves(op: Op, vm: Vm, op': Op, vm': Vm) {
    && op'.vm == op.vm && op'.kind == op.kind && op'.key == op.key
    && vm'.owner == vm.owner && vm'.uuid == vm.uuid && vm'.spec == vm.spec
    && (vm.at.Some? ==> vm'.at == vm.at)
    && Sound(op', vm')
    && Markers(op.kind, op.stage) <= Markers(op.kind, op'.stage)
    && Active(op.stage)
  }

  lemma PassEvolves(op: Op, vm: Vm, now: Time, answers: Answers, stamp: Time)
    requires Sound(op, vm) && Selectable(op, now)
    ensures var o := FirstPass(op, vm, answers, stamp);
            o.Commit? ==> Evolves(op, vm, o.op, o.vm)
  {
    ReconcileEvolves(op, vm, answers.power, stamp);
    PollEvolves(op, vm, answers.task, stamp);
    MarkEvolves(op, vm, stamp);
  }

  lemma MarkEvolves(op: Op, vm: Vm, stamp: Time)
    requires Sound(op, vm)
    ensures var o := Mark(op, vm, stamp); o.Commit? ==> Evolves(op, vm, o.op, o.vm)
  {}

  lemma ReconcileEvolves(op: Op, vm: Vm, answer: PowerAnswer, stamp: Time)
    requires Sound(op, vm)
    ensures var o := Reconcile(op, vm, answer, stamp); o.Commit? ==> Evolves(op, vm, o.op, o.vm)
  {}

  lemma PollEvolves(op: Op, vm: Vm, answer: TaskAnswer, stamp: Time)
    requires Sound(op, vm)
    ensures var o := Poll(op, vm, answer, stamp); o.Commit? ==> Evolves(op, vm, o.op, o.vm)
  {}

  lemma SettleEvolves(op: Op, vm: Vm, sent: Command, result: CallResult, stamp: Time)
    requires Sound(op, vm)
    ensures var o := Settle(op, vm, sent, result, stamp); o.Commit? ==> Evolves(op, vm, o.op, o.vm)
    ensures var o := Lose(op, vm, sent, stamp); o.Commit? ==> Evolves(op, vm, o.op, o.vm)
  {}

  // ---- the progress measure ----

  /** Strictly smaller after every committed transaction that is not a pure wait. */
  function Rank(kind: Kind, stage: Stage): nat {
    match stage
    case Done => 0
    case Broken(_, _, _) => 0
    case Queued(c) => Left(kind, c) + 4
    case Dispatched(c) => Left(kind, c) + 3
    case Unsure(c) => Left(kind, c) + 2
    case Parked(c) => Left(kind, c) + 1
    case Awaiting(c, _, _) => Left(kind, c) + 1
  }

  function Left(kind: Kind, c: Command): nat {
    if Uses(kind, c) then 4 * (|Script(kind)| - 1 - Index(kind, c)) else 0
  }

  /** Nothing moved: the row still waits for the same task or the same proof. */
  predicate Waits(a: Stage, b: Stage) {
    || (a.Unsure? && b == a)
    || (a.Awaiting? && b.Awaiting? && a.cmd == b.cmd && a.task == b.task)
  }

  /** Every committed pass saves a placement, waits, or lowers the rank; it never has to send a command twice. */
  lemma PassProgress(op: Op, vm: Vm, now: Time, answers: Answers, stamp: Time)
    requires Sound(op, vm) && Selectable(op, now)
    ensures var o := FirstPass(op, vm, answers, stamp);
            o.Commit? ==>
              || (NeedsPlacement(op, vm) && o.op == op && o.vm.at.Some?)
              || (Waits(op.stage, o.op.stage) && o.op.attempts == op.attempts)
              || (Rank(op.kind, o.op.stage) < Rank(op.kind, op.stage)
                  && o.op.attempts == op.attempts + (if Sends(op, vm).Some? then 1 else 0))
  {
    ReconcileProgress(op, vm, answers.power, stamp);
    PollProgress(op, vm, answers.task, stamp);
  }

  lemma ReconcileProgress(op: Op, vm: Vm, answer: PowerAnswer, stamp: Time)
    requires Sound(op, vm)
    ensures var o := Reconcile(op, vm, answer, stamp);
            o.Commit? ==> o.op.attempts == op.attempts
                          && (Waits(op.stage, o.op.stage) || Rank(op.kind, o.op.stage) < Rank(op.kind, op.stage))
  {}

  lemma PollProgress(op: Op, vm: Vm, answer: TaskAnswer, stamp: Time)
    requires Sound(op, vm)
    ensures var o := Poll(op, vm, answer, stamp);
            o.Commit? ==> o.op.attempts == op.attempts
                          && (Waits(op.stage, o.op.stage) || Rank(op.kind, o.op.stage) < Rank(op.kind, op.stage))
  {}

  lemma SettleProgress(op: Op, vm: Vm, sent: Command, result: CallResult, stamp: Time)
    requires Sound(op, vm)
    ensures var o := Settle(op, vm, sent, result, stamp);
            o.Commit? ==> Rank(op.kind, o.op.stage) < Rank(op.kind, op.stage) && o.op.attempts == op.attempts
    ensures var o := Lose(op, vm, sent, stamp);
            o.Commit? ==> Rank(op.kind, o.op.stage) < Rank(op.kind, op.stage) && o.op.attempts == op.attempts
  {}

  /** At most 4 markers for a create, 2 for a reboot, 1 otherwise; exactly that many on success. */
  lemma AttemptsBound(op: Op, vm: Vm)
    requires Sound(op, vm)
    ensures op.attempts <= (match op.kind case Create => 4 case Reboot => 2 case _ => 1)
    ensures op.stage == Done ==> op.attempts == (match op.kind case Create => 4 case Reboot => 2 case _ => 1)
  {}
}
