/** The phase machine of all six operation kinds as functions on typed rows.
    The service methods of `OperationServices` are proved against these functions, and the
    whole-system theorems are stated over them. */
module Transitions {
  import opened Domain
  import opened Phases

  /** A typed `operations` row; `stage` stands for status, phase and provider_task_id. */
  datatype Op = Op(
    vm: nat, kind: Kind, stage: Stage, key: string,
    attempts: nat, error: Option<string>, updatedAt: Time)

  /** A typed `virtual_machines` row; `at` stands for provider_node and provider_vmid. */
  datatype Vm = Vm(owner: UserId, uuid: Uuid, spec: VmSpec, status: VmStatus, at: Option<Placement>)

  /** What a transaction does to its two rows: rolls back, or commits new values. */
  datatype Outcome = Rollback | Commit(op: Op, vm: Vm)

  const OUTCOME_UNKNOWN := Some("provider_outcome_unknown")
  const STATUS_UNAVAILABLE := Some("provider_status_unavailable")
  const SUBMIT_UNKNOWN := Some("provider_submit_unknown")

  // ---- confirmed completion of a command ----

  function NextStage(kind: Kind, c: Command): Stage {
    if Index(kind, c) + 1 < |Script(kind)| then Queued(Script(kind)[Index(kind, c) + 1]) else Done
  }

  function ConfirmedStatus(c: Command, v: VmStatus): VmStatus {
    match c
    case CloneVm => VmProvisioning
    case ConfigureVm => v
    case ResizeDisk => v
    case StartVm => VmRunning
    case ShutdownVm => VmStopped
    case StopVm => VmStopped
    case DeleteVm => VmDeleted
  }

  function Confirm(op: Op, vm: Vm, c: Command, stamp: Time): Outcome {
    Commit(op.(stage := NextStage(op.kind, c), error := None, updatedAt := stamp),
           vm.(status := ConfirmedStatus(c, vm.status)))
  }

  // ---- the write-ahead marker: prepare_*_dispatch ----

  function Mark(op: Op, vm: Vm, stamp: Time): Outcome {
    if !op.stage.Queued? || vm.at.None? then Rollback
    else
      Commit(op.(stage := Dispatched(op.stage.cmd), attempts := op.attempts + 1, updatedAt := stamp),
             if op.stage.cmd == DeleteVm then vm.(status := VmDeleting) else vm)
  }

  // ---- the result of a call: finish_*_dispatch ----

  /** How the marked command reads the value the adapter returned. */
  datatype Verdict = Invalid | Unfinished | Finished | Working(task: ProviderTask)

  function ReadSubmit(state: SubmitState, task: Option<ProviderTask>): Verdict {
    match state
    case InProgress => if task.None? then Unfinished else Invalid
    case AlreadyDone => if task.None? then Finished else Invalid
    case Submitted => if task.Some? then Working(task.value) else Invalid
  }

  function ReadResult(c: Command, result: CallResult): Verdict {
    match c
    case CloneVm => if result.CloneResult? then ReadSubmit(result.state, result.cloneTask) else Invalid
    case DeleteVm => if result.DeleteResult? then ReadSubmit(result.deleteState, result.deleteTask) else Invalid
    case _ =>
      match result
      case NoTask => Finished
      case TaskResult(t) => Working(t)
      case _ => Invalid
  }

  /** Whether the finish transaction accepts a result: `sent` is the command the worker remembers, and only
      creates compare it with the marker. A shutdown or stop also accepts a task after another worker
      has replaced its marker by the reconcile mark, because that branch does not look at the phase. */
  predicate TakesResult(op: Op, sent: Command, result: CallResult) {
    || (op.stage.Dispatched? && (op.kind == Create ==> op.stage.cmd == sent))
    || (op.stage.Unsure? && (op.kind == Shutdown || op.kind == Stop) && result.TaskResult?)
  }

  function Settle(op: Op, vm: Vm, sent: Command, result: CallResult, stamp: Time): Outcome {
    if vm.at.None? || !TakesResult(op, sent, result) then Rollback
    else
      var c := op.stage.cmd;
      var status := if c == CloneVm then VmProvisioning else vm.status;
      match ReadResult(c, result)
      case Invalid => Rollback
      case Unfinished =>
        Commit(op.(stage := Unsure(c), error := OUTCOME_UNKNOWN, updatedAt := stamp), vm.(status := status))
      case Finished => Confirm(op, vm, c, stamp)
      case Working(t) =>
        if t.at != vm.at.value then Rollback
        else
          Commit(op.(stage := Awaiting(c, t.id, false), error := None, updatedAt := stamp), vm.(status := status))
  }

  /** The failure transaction after the adapter call raised. */
  function Lose(op: Op, vm: Vm, sent: Command, stamp: Time): Outcome {
    if !op.stage.Dispatched? || (op.kind == Create && op.stage.cmd != sent) then Rollback
    else Commit(op.(stage := Unsure(op.stage.cmd), error := SUBMIT_UNKNOWN, updatedAt := stamp), vm)
  }

  // ---- reading the provider instead of repeating a command: reconcile_* ----

  /** The power state that proves a command's effect; configure and resize have none. */
  predicate Proves(c: Command, power: Power, locked: bool) {
    match c
    case CloneVm => power == Stopped && !locked
    case StartVm => power == Running && !locked
    case ShutdownVm => power == Stopped && !locked
    case StopVm => power == Stopped && !locked
    case DeleteVm => power == Missing
    case _ => false
  }

  function Reconcile(op: Op, vm: Vm, answer: PowerAnswer, stamp: Time): Outcome {
    if !op.stage.Dispatched? && !op.stage.Unsure? then Rollback
    else
      var c := op.stage.cmd;
      if vm.at.None? then
        Commit(op.(stage := Unsure(c), error := STATUS_UNAVAILABLE, updatedAt := stamp), vm)
      else if c == ConfigureVm || c == ResizeDisk then
        Commit(op.(stage := Parked(c), error := OUTCOME_UNKNOWN, updatedAt := stamp), vm)
      else
        match answer
        case PowerUnavailable =>
          Commit(op.(stage := Unsure(c), error := STATUS_UNAVAILABLE, updatedAt := stamp), vm)
        case PowerIs(power, locked) =>
          if Proves(c, power, locked) then Confirm(op, vm, c, stamp)
          else Commit(op.(stage := Unsure(c), error := OUTCOME_UNKNOWN, updatedAt := stamp), vm)
  }

  // ---- polling a saved task: refresh_create / process_* ----

  /** Kinds whose backed-off phase stays "poll_backoff" when the next poll says running or failed. */
  predicate KeepsBackoff(kind: Kind) {
    kind == Shutdown || kind == Stop || kind == Delete
  }

  function TaskError(code: Option<string>): Option<string> {
    if code.Some? && code.value != "" then code else Some("provider_task_failed")
  }

  function Poll(op: Op, vm: Vm, answer: TaskAnswer, stamp: Time): Outcome {
    if !op.stage.Awaiting? then Rollback
    else
      var Awaiting(c, t, slow) := op.stage;
      if vm.at.None? || answer.TaskUnavailable? then
        Commit(op.(stage := Awaiting(c, t, true), error := STATUS_UNAVAILABLE, updatedAt := stamp), vm)
      else
        match answer
        case TaskRunning =>
          var keeps := KeepsBackoff(op.kind);
          Commit(op.(stage := Awaiting(c, t, slow && keeps),
                     error := if keeps || op.kind == Reboot then op.error else None, updatedAt := stamp), vm)
        case TaskSucceeded =>
          Commit(op.(stage := NextStage(op.kind, c), error := None, updatedAt := stamp),
                 if c == CloneVm then vm else vm.(status := ConfirmedStatus(c, vm.status)))
        case TaskFailed(code) =>
          var slow' := slow && (KeepsBackoff(op.kind) || op.kind == Start);
          Commit(op.(stage := Broken(c, t, slow'), error := TaskError(code), updatedAt := stamp),
                 match op.kind
                 case Create => vm.(status := VmFailed)
                 case Delete => vm.(status := VmDeleting)
                 case _ => vm)
  }

  // ---- a whole first transaction of run_once ----

  /** The provider's answers available to one pass; at most one is used. */
  datatype Answers = Answers(target: TargetAnswer, power: PowerAnswer, task: TaskAnswer)

  /** A create that still has no saved placement: this pass only chooses one. */
  predicate NeedsPlacement(op: Op, vm: Vm) {
    op.kind == Create && op.stage == Queued(CloneVm) && vm.at.None?
  }

  function FirstPass(op: Op, vm: Vm, answers: Answers, stamp: Time): Outcome {
    if NeedsPlacement(op, vm) then
      match answers.target
      case TargetUnavailable => Rollback
      case Target(at) => Commit(op, vm.(at := Some(at)))
    else
      match op.stage
      case Queued(_) => Mark(op, vm, stamp)
      case Dispatched(_) => Reconcile(op, vm, answers.power, stamp)
      case Unsure(_) => Reconcile(op, vm, answers.power, stamp)
      case Awaiting(_, _, _) => Poll(op, vm, answers.task, stamp)
      case _ => Rollback
  }

  /** The command this pass sends after its commit. */
  function Sends(op: Op, vm: Vm): Option<Command> {
    if op.stage.Queued? && !NeedsPlacement(op, vm) then Some(op.stage.cmd) else None
  }

  /** The selection predicate of the queue query, on stages. */
  predicate Selectable(op: Op, now: Time) {
    match op.stage
    case Queued(_) => true
    case Dispatched(_) => op.updatedAt + DISPATCH_GRACE <= now
    case Unsure(_) => op.updatedAt + RECONCILE_DELAY <= now
    case Awaiting(_, _, slow) => slow ==> op.updatedAt + RECONCILE_DELAY <= now
    case _ => false
  }
}
