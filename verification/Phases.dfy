/** Where an operation stands, and how a row shows it: status, phase string and task id. */
module Phases {
  import opened Domain
  import opened Texts

  /** The position of one operation. `slow` is the poll-backoff mark. */
  datatype Stage =
    | Queued(cmd: Command)
    | Dispatched(cmd: Command)
    | Unsure(cmd: Command)
    | Parked(cmd: Command)
    | Awaiting(cmd: Command, task: TaskId, slow: bool)
    | Done
    | Broken(cmd: Command, task: TaskId, slow: bool)

  /** The stages an operation of a kind can be in. */
  predicate Fits(kind: Kind, stage: Stage) {
    match stage
    case Done => true
    case Parked(c) => kind == Create && (c == ConfigureVm || c == ResizeDisk)
    case _ => Uses(kind, stage.cmd)
  }

  predicate Active(stage: Stage) {
    !stage.Done? && !stage.Broken?
  }

  function StatusOf(stage: Stage): OpStatus {
    match stage
    case Queued(_) => Pending
    case Done => Succeeded
    case Broken(_, _, _) => Failed
    case _ => Processing
  }

  function TaskOf(stage: Stage): Option<TaskId> {
    match stage
    case Awaiting(_, t, _) => Some(t)
    case Broken(_, t, _) => Some(t)
    case _ => None
  }

  function CommandText(c: Command): string {
    match c
    case CloneVm => "clone"
    case ConfigureVm => "configure"
    case ResizeDisk => "resize"
    case StartVm => "start"
    case ShutdownVm => "shutdown"
    case StopVm => "stop"
    case DeleteVm => "delete"
  }

  function DispatchText(kind: Kind, c: Command): string {
    match kind
    case Create =>
      (match c
       case CloneVm => "dispatch_create_clone"
       case ConfigureVm => "dispatch_create_configure"
       case ResizeDisk => "dispatch_create_resize"
       case _ => "dispatch_create_start")
    case Start => "dispatching"
    case Reboot => if c == ShutdownVm then "dispatch_reboot_shutdown" else "dispatch_reboot_start"
    case Shutdown => "dispatch_shutdown"
    case Stop => "dispatch_stop"
    case Delete => "dispatch_delete"
  }

  function UnsureText(kind: Kind, c: Command): string {
    match kind
    case Create =>
      (match c
       case CloneVm => "reconcile_create_clone"
       case ConfigureVm => "reconcile_create_configure"
       case ResizeDisk => "reconcile_create_resize"
       case _ => "reconcile_create_start")
    case Start => "reconcile"
    case Reboot => if c == ShutdownVm then "reconcile_reboot_shutdown" else "reconcile_reboot_start"
    case Shutdown => "reconcile_shutdown"
    case Stop => "reconcile_stop"
    case Delete => "reconcile_delete"
  }

  function ParkedText(c: Command): string {
    if c == ConfigureVm then "needs_review_create_configure" else "needs_review_create_resize"
  }

  function PollText(kind: Kind, c: Command, slow: bool): string {
    match kind
    case Create =>
      if !slow then CommandText(c)
      else (match c
            case CloneVm => "poll_backoff_create_clone"
            case ConfigureVm => "poll_backoff_create_configure"
            case ResizeDisk => "poll_backoff_create_resize"
            case _ => "poll_backoff_create_start")
    case Reboot =>
      if !slow then CommandText(c)
      else if c == ShutdownVm then "poll_backoff_shutdown" else "poll_backoff_start"
    case _ => if slow then "poll_backoff" else "await_task"
  }

  /** The `phase` column; NULL only for a pending row of a one-command kind. */
  function PhaseText(kind: Kind, stage: Stage): Option<string> {
    match stage
    case Queued(c) => if kind == Create || kind == Reboot then Some(CommandText(c)) else None
    case Dispatched(c) => Some(DispatchText(kind, c))
    case Unsure(c) => Some(UnsureText(kind, c))
    case Parked(c) => Some(ParkedText(c))
    case Awaiting(c, _, slow) => Some(PollText(kind, c, slow))
    case Done => Some("complete")
    case Broken(c, _, slow) => Some(PollText(kind, c, slow))
  }

  /** Every phase string fits the VARCHAR(32) column. */
  lemma PhaseFitsColumn(kind: Kind, stage: Stage)
    ensures PhaseText(kind, stage).Some? ==> 0 < |PhaseText(kind, stage).value| <= 32
  {}

  lemma MarkersDiffer(kind: Kind, c: Command, d: Command)
    requires Uses(kind, c) && Uses(kind, d)
    ensures DispatchText(kind, c) == DispatchText(kind, d) ==> c == d
    ensures UnsureText(kind, c) == UnsureText(kind, d) ==> c == d
    ensures kind == Create || kind == Reboot ==> (CommandText(c) == CommandText(d) ==> c == d)
  {}

  lemma PollTextsDiffer(kind: Kind, c: Command, d: Command, x: bool, y: bool)
    requires Uses(kind, c) && Uses(kind, d)
    ensures PollText(kind, c, x) == PollText(kind, d, y) ==> c == d && x == y
  {}

  /** The letter a processing row without a task begins with. */
  lemma FirstLetters(kind: Kind, c: Command)
    ensures |DispatchText(kind, c)| > 0 && DispatchText(kind, c)[0] == 'd'
    ensures |UnsureText(kind, c)| > 0 && UnsureText(kind, c)[0] == 'r'
    ensures |ParkedText(c)| > 0 && ParkedText(c)[0] == 'n'
  {}

  /** Status, phase and task id of a row determine the operation's stage. */
  lemma RowDeterminesStage(kind: Kind, a: Stage, b: Stage)
    requires Fits(kind, a) && Fits(kind, b)
    requires StatusOf(a) == StatusOf(b) && TaskOf(a) == TaskOf(b) && PhaseText(kind, a) == PhaseText(kind, b)
    ensures a == b
  {
    if a.Done? {
    } else {
      MarkersDiffer(kind, a.cmd, b.cmd);
      FirstLetters(kind, a.cmd);
      FirstLetters(kind, b.cmd);
      match a
      case Awaiting(c, _, x) => PollTextsDiffer(kind, c, b.cmd, x, b.slow);
      case Broken(c, _, x) => PollTextsDiffer(kind, c, b.cmd, x, b.slow);
      case _ =>
    }
  }

  // ---- the string operations of the service layer, evaluated on phase strings ----

  lemma DispatchSpelling(kind: Kind, c: Command)
    requires Uses(kind, c)
    ensures kind == Create ==> "dispatch_create_" + CommandText(c) == DispatchText(kind, c)
    ensures kind == Reboot ==> "dispatch_reboot_" + CommandText(c) == DispatchText(kind, c)
    ensures kind == Shutdown || kind == Stop || kind == Delete ==>
              "dispatch_" + CommandText(c) == DispatchText(kind, c)
  {}

  lemma UnsureSpelling(kind: Kind, c: Command)
    requires Uses(kind, c)
    ensures kind == Create ==> "reconcile_create_" + CommandText(c) == UnsureText(kind, c)
    ensures kind == Reboot ==> "reconcile_reboot_" + CommandText(c) == UnsureText(kind, c)
    ensures kind == Shutdown || kind == Stop || kind == Delete ==>
              "reconcile_" + CommandText(c) == UnsureText(kind, c)
  {
    if kind == Create {
      UnsureSpellingOfCreate(c);
    } else if kind == Reboot {
      UnsureSpellingOfReboot(c);
    }
  }

  lemma UnsureSpellingOfCreate(c: Command)
    requires Uses(Create, c)
    ensures "reconcile_create_" + CommandText(c) == UnsureText(Create, c)
  {}

  lemma UnsureSpellingOfReboot(c: Command)
    requires Uses(Reboot, c)
    ensures "reconcile_reboot_" + CommandText(c) == UnsureText(Reboot, c)
  {}

  /** `removeprefix` on a backed-off phase gives the phase polled before, and adding the prefix back
      gives the backed-off phase; an ordinary polled phase does not carry the prefix, so prefixes never nest. */
  lemma BackoffPrefix(kind: Kind, c: Command)
    requires Uses(kind, c) && (kind == Create || kind == Reboot)
    ensures var prefix := if kind == Create then "poll_backoff_create_" else "poll_backoff_";
            && prefix + PollText(kind, c, false) == PollText(kind, c, true)
            && StartsWith(PollText(kind, c, true), prefix)
            && RemovePrefix(PollText(kind, c, true), prefix) == PollText(kind, c, false)
            && !StartsWith(PollText(kind, c, false), prefix)
  {
    var prefix := if kind == Create then "poll_backoff_create_" else "poll_backoff_";
    assert prefix + PollText(kind, c, false) == PollText(kind, c, true);
    PrefixOfSum(prefix, PollText(kind, c, false));
  }

  /** What follows the "dispatch_" or "reconcile_" of a marker. */
  function Tail(kind: Kind, c: Command): string {
    match kind
    case Create =>
      (match c
       case CloneVm => "create_clone"
       case ConfigureVm => "create_configure"
       case ResizeDisk => "create_resize"
       case _ => "create_start")
    case Reboot => if c == ShutdownVm then "reboot_shutdown" else "reboot_start"
    case _ => CommandText(c)
  }

  lemma DispatchTail(kind: Kind, c: Command)
    requires Uses(kind, c) && kind != Start
    ensures "dispatch_" + Tail(kind, c) == DispatchText(kind, c)
  {
    hide DispatchText, Tail;
    if kind == Create { DispatchTailOfCreate(c); } else { DispatchTailOfLifecycle(kind, c); }
  }

  lemma DispatchTailOfLifecycle(kind: Kind, c: Command)
    requires Uses(kind, c) && kind != Start && kind != Create
    ensures "dispatch_" + Tail(kind, c) == DispatchText(kind, c)
  {}

  lemma DispatchTailOfCreate(c: Command)
    requires Uses(Create, c)
    ensures "dispatch_" + Tail(Create, c) == DispatchText(Create, c)
  {
    match c
    case CloneVm => assert "dispatch_" + "create_clone" == "dispatch_create_clone";
    case ConfigureVm => assert "dispatch_" + "create_configure" == "dispatch_create_configure";
    case ResizeDisk => assert "dispatch_" + "create_resize" == "dispatch_create_resize";
    case StartVm => assert "dispatch_" + "create_start" == "dispatch_create_start";
  }

  lemma UnsureTail(kind: Kind, c: Command)
    requires Uses(kind, c) && kind != Start
    ensures "reconcile_" + Tail(kind, c) == UnsureText(kind, c)
  {
    if kind == Create { UnsureTailOfCreate(c); }
  }

  lemma UnsureTailOfCreate(c: Command)
    requires Uses(Create, c)
    ensures "reconcile_" + Tail(Create, c) == UnsureText(Create, c)
  {
    match c
    case CloneVm => assert "reconcile_" + "create_clone" == "reconcile_create_clone";
    case ConfigureVm => assert "reconcile_" + "create_configure" == "reconcile_create_configure";
    case ResizeDisk => assert "reconcile_" + "create_resize" == "reconcile_create_resize";
    case StartVm => assert "reconcile_" + "create_start" == "reconcile_create_start";
  }

  lemma ParkedTail(c: Command)
    requires c == ConfigureVm || c == ResizeDisk
    ensures "needs_review_" + Tail(Create, c) == ParkedText(c)
  {}

  lemma ParkedHasNoReconcile(c: Command, new_: string)
    requires c == ConfigureVm || c == ResizeDisk
    ensures ReplaceFirst(ParkedText(c), "reconcile_", new_) == ParkedText(c)
  {
    assert "reconcile_"[7] == 'l';
    NothingToReplace(ParkedText(c), "reconcile_", new_, 7);
  }

  /** `replace("dispatch_", "reconcile_", 1)` turns a dispatch marker into its reconcile form and keeps the latter. */
  lemma DispatchToReconcile(kind: Kind, c: Command)
    requires Uses(kind, c) && kind != Start
    ensures ReplaceFirst(DispatchText(kind, c), "dispatch_", "reconcile_") == UnsureText(kind, c)
    ensures ReplaceFirst(UnsureText(kind, c), "dispatch_", "reconcile_") == UnsureText(kind, c)
    ensures StartsWith(DispatchText(kind, c), "dispatch_") && StartsWith(UnsureText(kind, c), "reconcile_")
  {
    DispatchTail(kind, c);
    UnsureTail(kind, c);
    PrefixOfSum("dispatch_", Tail(kind, c));
    PrefixOfSum("reconcile_", Tail(kind, c));
    ReconcileHasNoDispatch(kind, c, "reconcile_");
  }

  lemma ReconcileHasNoDispatch(kind: Kind, c: Command, new_: string)
    requires Uses(kind, c) && kind != Start
    ensures ReplaceFirst(UnsureText(kind, c), "dispatch_", new_) == UnsureText(kind, c)
  {
    var i := if c == StopVm then 7 else 3;
    assert "dispatch_"[i] == if c == StopVm then 'h' else 'p';
    NothingToReplace(UnsureText(kind, c), "dispatch_", new_, i);
  }

  /** The two chained replacements that park an unverifiable configure or resize. */
  lemma MarkerToReview(c: Command)
    requires c == ConfigureVm || c == ResizeDisk
    ensures ReplaceFirst(ReplaceFirst(DispatchText(Create, c), "dispatch_", "needs_review_"), "reconcile_",
                         "needs_review_")
         == ParkedText(c)
    ensures ReplaceFirst(ReplaceFirst(UnsureText(Create, c), "dispatch_", "needs_review_"), "reconcile_",
                         "needs_review_")
         == ParkedText(c)
  {
    DispatchTail(Create, c);
    UnsureTail(Create, c);
    ParkedTail(c);
    PrefixOfSum("dispatch_", Tail(Create, c));
    PrefixOfSum("reconcile_", Tail(Create, c));
    ParkedHasNoReconcile(c, "needs_review_");
    ReconcileHasNoDispatch(Create, c, "needs_review_");
  }

  /** `endswith` tells the four create steps apart on both kinds of marker. */
  lemma CreateSuffixes(c: Command, text: string)
    requires Uses(Create, c) && (text == DispatchText(Create, c) || text == UnsureText(Create, c))
    ensures EndsWith(text, "_clone") <==> c == CloneVm
    ensures EndsWith(text, "_start") <==> c == StartVm
    ensures EndsWith(text, "_configure") || EndsWith(text, "_resize") <==> c == ConfigureVm || c == ResizeDisk
  {
    LastLetters(c);
    var tail := Tail(Create, c);
    DispatchTail(Create, c);
    UnsureTail(Create, c);
    SuffixOfSum(text, tail, "_clone");
    SuffixOfSum(text, tail, "_start");
    SuffixOfSum(text, tail, "_configure");
    SuffixOfSum(text, tail, "_resize");
  }

  lemma LastLetters(c: Command)
    requires Uses(Create, c)
    ensures EndsWith(Tail(Create, c), "_clone") <==> c == CloneVm
    ensures EndsWith(Tail(Create, c), "_start") <==> c == StartVm
    ensures EndsWith(Tail(Create, c), "_configure") <==> c == ConfigureVm
    ensures EndsWith(Tail(Create, c), "_resize") <==> c == ResizeDisk
  {}
}
