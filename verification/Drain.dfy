/** The worker against the in-memory provider: `run_once` as a whole, and how many runs it takes until every
    operation has succeeded. */
module Drain {
  import opened Domain
  import opened Phases
  import opened Transitions
  import opened Rows
  import opened Tables
  import opened Evolution
  import opened Invariants
  import opened Requests
  import opened Worker
  import opened TaskIds
  import opened Fake

  datatype World = World(t: Tables, m: Memory)

  /** What the provider answers to each of the reads a pass over this row could make. */
  function AnswersOf(node: string, m: Memory, op: Op, vm: Vm): Answers {
    Answers(
      Target(HomeOf(node, vm.uuid)),
      if vm.at == Some(HomeOf(node, vm.uuid)) then PowerIs(Reads(m, vm.at.value.vmid), false) else PowerUnavailable,
      if op.stage.Awaiting? && vm.at.Some? then Polls(node, m, ProviderTask(op.stage.task, vm.at.value))
      else TaskUnavailable)
  }

  /** One `run_once` that selected row `i`: its first transaction, its call if it sends one, and the transaction
      that stores the outcome. */
  ghost predicate Serves(node: string, w: World, w': World, i: nat, stamp: Time, stamp': Time,
                         result: Option<CallResult>)
    requires i < |w.t.ops| && w.t.ops[i].vm < |w.t.vms|
  {
    var op, vm := w.t.ops[i], w.t.vms[w.t.ops[i].vm];
    var o := FirstPass(op, vm, AnswersOf(node, w.m, op, vm), stamp);
    if !Commits(w.t, i, o) then w' == w
    else if Sends(op, vm).None? then w' == World(Transact(w.t, i, o), w.m)
    else
      var c := op.stage.cmd;
      && o.op.vm == op.vm && vm.at.Some?
      && Performs(node, w.m, w'.m, c, vm.uuid, vm.at.value, result)
      && w'.t == Transact(Transact(w.t, i, o), i,
                          if result.Some? then Settle(o.op, o.vm, c, result.value, stamp')
                          else Lose(o.op, o.vm, c, stamp'))
  }

  // ---- run_once on objects ----

  method Send(adapter: FakeProxmoxAdapter, dispatch: Dispatch, id: Uuid) returns (result: Option<CallResult>)
    requires dispatch.command in {CloneVm, ConfigureVm, ResizeDisk} ==>
               dispatch.request.Some? && dispatch.request.value.vmId == id
    modifies adapter
    ensures Performs(adapter.node, old(adapter.State()), adapter.State(), dispatch.command, id, dispatch.target, result)
  {
    hide Performs;
    match dispatch.command {
      case CloneVm => result := adapter.CloneVm(dispatch.request.value, dispatch.target);
      case ConfigureVm => result := adapter.ConfigureVm(dispatch.request.value, dispatch.target);
      case ResizeDisk => result := adapter.ResizeVmDisk(dispatch.request.value, dispatch.target);
      case StartVm => result := adapter.StartVm(id, dispatch.target);
      case ShutdownVm => result := adapter.ShutdownVm(id, dispatch.target);
      case StopVm => result := adapter.StopVm(id, dispatch.target);
      case DeleteVm => result := adapter.DeleteVm(id, dispatch.target);
    }
  }

  /** The one read the pass's branch makes, if it makes any: a target for a create without one, the status of a saved
      task, or else the power state of a row that is being processed. */
  method ReadProvider(adapter: FakeProxmoxAdapter, row: OpRow, vmRow: VmRow, ghost op: Op, ghost vm: Vm)
    returns (answers: Answers)
    requires row == OpRowOf(op) && vmRow == VmRowOf(vm) && Sound(op, vm)
    ensures forall stamp :: FirstPass(op, vm, answers, stamp)
                         == FirstPass(op, vm, AnswersOf(adapter.node, adapter.State(), op, vm), stamp)
  {
    hide PhaseText, FirstPass, Polls, Reads;
    answers := Answers(TargetUnavailable, PowerUnavailable, TaskUnavailable);
    if row.status == Pending {
      if row.operationType == Create && vmRow.providerNode == None {
        var target := adapter.ChooseCloneTarget(vmRow.id);
        answers := answers.(target := Target(target));
      }
    } else if vmRow.providerNode != None && vmRow.providerVmid != None {
      var at := Placement(vmRow.providerNode.value, vmRow.providerVmid.value);
      if row.providerTaskId != None {
        var task := adapter.GetTaskStatus(ProviderTask(row.providerTaskId.value, at));
        answers := answers.(task := task);
      } else {
        var power := adapter.GetVmPowerState(vmRow.id, at);
        answers := answers.(power := power);
      }
    }
    OneAnswerUsed(op, vm, answers, AnswersOf(adapter.node, adapter.State(), op, vm));
  }

  /** A pass uses at most one of the answers. */
  lemma OneAnswerUsed(op: Op, vm: Vm, a: Answers, b: Answers)
    requires NeedsPlacement(op, vm) ==> a.target == b.target
    requires op.stage.Dispatched? || op.stage.Unsure? ==> a.power == b.power
    requires op.stage.Awaiting? ==> a.task == b.task
    ensures forall stamp :: FirstPass(op, vm, a, stamp) == FirstPass(op, vm, b, stamp)
  {}

  /** What a pass that sends a command leaves in the row. */
  lemma SendsMarks(op: Op, vm: Vm, now: Time, answers: Answers, stamp: Time)
    requires Sound(op, vm) && Selectable(op, now)
    ensures Handleable(op, vm)
    ensures Sends(op, vm).Some? ==>
              && vm.at.Some? && Uses(op.kind, op.stage.cmd)
              && (op.stage.cmd in {CloneVm, ConfigureVm, ResizeDisk} ==> op.kind == Create)
              && (op.kind == Start ==> op.stage.cmd == StartVm)
              && FirstPass(op, vm, answers, stamp).Commit?
    ensures var o := FirstPass(op, vm, answers, stamp);
            o.Commit? ==> o.op.vm == op.vm && o.op.kind == op.kind && (vm.at.Some? ==> o.vm.at == vm.at)
  {}

  lemma StartReturnsTask(node: string, m: Memory, m': Memory, id: Uuid, at: Placement, result: Option<CallResult>)
    requires Performs(node, m, m', StartVm, id, at, result) && result.Some?
    ensures result.value.TaskResult?
  {}

  /** The first transaction keeps the tables sound and every row's identity. */
  lemma PassTables(t: Tables, i: nat, now: Time, answers: Answers, stamp: Time)
    requires TablesOk(t) && i < |t.ops| && Selectable(t.ops[i], now)
    ensures var t' := Transact(t, i, FirstPass(t.ops[i], t.vms[t.ops[i].vm], answers, stamp));
            TablesOk(t') && Grown(t, t')
  {
    hide FirstPass, Sound, OneActive, UniqueVmids, UnplacedPending;
    assert Sound(t.ops[i], t.vms[t.ops[i].vm]);
    PassEvolves(t.ops[i], t.vms[t.ops[i].vm], now, answers, stamp);
    TransactTables(t, i, FirstPass(t.ops[i], t.vms[t.ops[i].vm], answers, stamp));
    TransactExtends(t, i, FirstPass(t.ops[i], t.vms[t.ops[i].vm], answers, stamp));
  }

  /** So does the transaction that stores the outcome. */
  lemma StoreTables(t: Tables, i: nat, o: Outcome, sent: Command, result: CallResult, stamp: Time)
    requires TablesOk(t) && i < |t.ops|
    requires var op, vm := t.ops[i], t.vms[t.ops[i].vm];
             o == Settle(op, vm, sent, result, stamp) || o == Lose(op, vm, sent, stamp)
    ensures TablesOk(Transact(t, i, o)) && Grown(t, Transact(t, i, o))
  {
    hide Settle, Lose, Sound, OneActive, UniqueVmids, UnplacedPending;
    assert Sound(t.ops[i], t.vms[t.ops[i].vm]);
    SettleEvolves(t.ops[i], t.vms[t.ops[i].vm], sent, result, stamp);
    TransactTables(t, i, o);
    TransactExtends(t, i, o);
  }

  ghost predicate UsableKeys(t: Tables, keys: map<nat, SshKey>) {
    forall j :: 0 <= j < |t.vms| ==> KeyUsable(VmRowOf(t.vms[j]), keys)
  }

  /** The same rows, each with its identity. */
  predicate Grown(t: Tables, t': Tables) {
    Extends(t, t') && |t'.ops| == |t.ops| && |t'.vms| == |t.vms|
  }

  lemma GrownOn(a: Tables, b: Tables, c: Tables)
    requires Grown(a, b) && Grown(b, c)
    ensures Grown(a, c)
  {}

  lemma NotGrown(t: Tables)
    ensures Grown(t, t)
  {}

  lemma KeysOfTables(db: Database, t: Tables)
    requires db.Stores(t) && db.KeysUsable()
    ensures UsableKeys(t, db.sshKeys)
  {
    hide OpRowOf, KeyUsable;
    forall j | 0 <= j < |t.vms| ensures KeyUsable(VmRowOf(t.vms[j]), db.sshKeys) {
      assert db.virtualMachines[j] == VmRowOf(t.vms[j]);
    }
  }

  lemma TablesOfKeys(db: Database, t: Tables)
    requires db.Stores(t) && UsableKeys(t, db.sshKeys)
    ensures db.KeysUsable()
  {
    hide OpRowOf, KeyUsable;
  }

  lemma KeyOfRow(t: Tables, j: nat, keys: map<nat, SshKey>)
    requires UsableKeys(t, keys) && j < |t.vms|
    ensures KeyUsable(VmRowOf(t.vms[j]), keys)
  {
    hide KeyUsable;
  }

  lemma SoundRow(t: Tables, i: nat)
    requires TablesOk(t) && i < |t.ops|
    ensures t.ops[i].vm < |t.vms| && Sound(t.ops[i], t.vms[t.ops[i].vm])
  {}

  lemma KeysStayUsable(t: Tables, t': Tables, keys: map<nat, SshKey>)
    requires UsableKeys(t, keys) && Grown(t, t')
    ensures UsableKeys(t', keys)
  {}

  /** `run_once` of a single worker; a pass whose first transaction raised counts as processed. */
  method RunOnce(db: Database, adapter: FakeProxmoxAdapter, now: Time, stamp: Time, stamp': Time, ghost t: Tables)
    returns (processed: bool, ghost t': Tables, ghost i: nat, ghost result: Option<CallResult>)
    requires db.Stores(t) && db.KeysUsable() && TablesOk(t)
    modifies db, adapter
    ensures db.Stores(t') && db.sshKeys == old(db.sshKeys) && db.KeysUsable()
    ensures TablesOk(t') && Grown(t, t')
    ensures !processed ==> t' == t && adapter.State() == old(adapter.State())
                           && forall n :: 0 <= n < |t.ops| ==> !Selectable(t.ops[n], now)
    ensures processed ==>
              && i < |t.ops| && Selectable(t.ops[i], now)
              && (forall n :: 0 <= n < |t.ops| && Selectable(t.ops[n], now) ==>
                    t.ops[i].updatedAt <= t.ops[n].updatedAt)
              && Serves(adapter.node, World(t, old(adapter.State())), World(t', adapter.State()), i, stamp, stamp',
                        result)
  {
    hide PhaseText, Performs, FirstPass, Settle, Lose, SelectableRow, StatusOf, TaskOf, AnswersOf, TablesOk, Grown,
      UsableKeys;
    t', i, result := t, 0, None;
    NotGrown(t);
    KeysOfTables(db, t);
    var next := db.SelectNext(now, {});
    forall n | 0 <= n < |t.ops| ensures SelectableRow(db.operations[n], now) <==> Selectable(t.ops[n], now) {
      SelectableShown(t.ops[n], now);
    }
    if next == None { return false, t', i, result; }
    i := next.value;
    ghost var op, vm := t.ops[i], t.vms[t.ops[i].vm];
    assert Sound(op, vm) by { SoundRow(t, i); }
    var row := db.operations[next.value];
    var vmRow := db.virtualMachines[row.virtualMachineId];
    var answers := ReadProvider(adapter, row, vmRow, op, vm);
    ghost var o := FirstPass(op, vm, answers, stamp);
    SendsMarks(op, vm, now, answers, stamp);
    PassTables(t, i, now, answers, stamp);
    var raised, dispatch := FirstTransaction(db, next.value, answers, stamp, t);
    processed := true;
    if raised {
      TablesOfKeys(db, t);
      return;
    }
    t' := Transact(t, i, o);
    KeysStayUsable(t, t', db.sshKeys);
    if dispatch == None {
      TablesOfKeys(db, t');
      return;
    }
    assert KeyUsable(VmRowOf(vm), db.sshKeys) by { KeyOfRow(t, t.ops[i].vm, db.sshKeys); }
    ghost var m := adapter.State();
    var outcome := Send(adapter, dispatch.value, vmRow.id);
    result := outcome;
    var storeRaised;
    ghost var t1 := t';
    if outcome == None {
      storeRaised := FailureTransaction(db, next.value, dispatch.value.command, stamp', t1);
      ghost var o' := Lose(o.op, o.vm, op.stage.cmd, stamp');
      t' := Transact(t1, i, o');
      StoreTables(t1, i, o', op.stage.cmd, NoTask, stamp');
    } else {
      if op.kind == Start { StartReturnsTask(adapter.node, m, adapter.State(), vm.uuid, vm.at.value, outcome); }
      storeRaised := FinishTransaction(db, next.value, dispatch.value.command, outcome.value, stamp', t1);
      ghost var o' := Settle(o.op, o.vm, op.stage.cmd, outcome.value, stamp');
      t' := Transact(t1, i, o');
      StoreTables(t1, i, o', op.stage.cmd, outcome.value, stamp');
    }
    GrownOn(t, t1, t');
    KeysStayUsable(t1, t', db.sshKeys);
    TablesOfKeys(db, t');
  }

  // ---- how many runs are left ----

  /** Runs an operation still needs when every task succeeds at its first poll. */
  function PassesLeft(op: Op, vm: Vm): nat {
    match op.stage
    case Queued(c) => FromCommand(op.kind, c) + (if NeedsPlacement(op, vm) then 1 else 0)
    case Awaiting(c, _, _) => if Uses(op.kind, c) then FromCommand(op.kind, c) - 1 else 0
    case _ => 0
  }

  /** A configure is done at once; every other command takes a dispatch and a poll. */
  function FromCommand(kind: Kind, c: Command): (n: nat)
    ensures Uses(kind, c) ==> n > 0
  {
    match kind
    case Create => (match c case CloneVm => 7 case ConfigureVm => 5 case ResizeDisk => 4 case StartVm => 2 case _ => 0)
    case Reboot => (match c case ShutdownVm => 4 case StartVm => 2 case _ => 0)
    case _ => if Uses(kind, c) then 2 else 0
  }

  function TotalLeft(ops: seq<Op>, vms: seq<Vm>): nat
    requires forall i :: 0 <= i < |ops| ==> ops[i].vm < |vms|
  {
    if ops == [] then 0
    else TotalLeft(ops[..|ops| - 1], vms) + PassesLeft(ops[|ops| - 1], vms[ops[|ops| - 1].vm])
  }

  /** The row is done, queued, or waits for the task the provider minted for it. */
  ghost predicate OpReady(node: string, w: World, i: nat)
    requires i < |w.t.ops| && w.t.ops[i].vm < |w.t.vms|
  {
    var op, vm := w.t.ops[i], w.t.vms[w.t.ops[i].vm];
    match op.stage
    case Done => true
    case Queued(c) => c == DeleteVm ==> VmidOf(vm.uuid) !in w.m.deleted
    case Awaiting(c, task, slow) => MintsTask(c) && task == TaskText(c, vm.uuid) && !slow
    case _ => false
  }

  predicate HomesDistinct(node: string, vms: seq<Vm>) {
    && (forall j, k :: 0 <= j < k < |vms| ==> VmidOf(vms[j].uuid) != VmidOf(vms[k].uuid))
    && (forall j :: 0 <= j < |vms| && vms[j].at.Some? ==> vms[j].at == Some(HomeOf(node, vms[j].uuid)))
  }

  ghost predicate Ready(node: string, w: World) {
    && TablesOk(w.t) && AllSucceeded(w.m) && HomesDistinct(node, w.t.vms)
    && (forall i :: 0 <= i < |w.t.ops| ==> w.t.ops[i].vm < |w.t.vms| && OpReady(node, w, i))
  }

  // ---- one run on one row ----

  /** A pass that sends: marked, performed and settled, one run leads from a queued step to its task, or past a
      configure. */
  lemma SentRow(node: string, m: Memory, m': Memory, op: Op, vm: Vm, stamp: Time, stamp': Time,
                result: Option<CallResult>)
    requires Sound(op, vm) && op.stage.Queued? && vm.at == Some(HomeOf(node, vm.uuid))
    requires op.stage.cmd == DeleteVm ==> VmidOf(vm.uuid) !in m.deleted
    requires Performs(node, m, m', op.stage.cmd, vm.uuid, vm.at.value, result)
    ensures result.Some?
    ensures var o := FirstPass(op, vm, AnswersOf(node, m, op, vm), stamp);
            && o.Commit?
            && var o' := Settle(o.op, o.vm, op.stage.cmd, result.value, stamp');
               && o'.Commit?
               && o'.op.stage == (if op.stage.cmd == ConfigureVm then NextStage(op.kind, ConfigureVm)
                                  else Awaiting(op.stage.cmd, TaskText(op.stage.cmd, vm.uuid), false))
               && o'.op.kind == op.kind && o'.vm.at == vm.at && o'.vm.uuid == vm.uuid
               && PassesLeft(o'.op, o'.vm) + 1 == PassesLeft(op, vm)
  {
    hide TaskText, VmidOf, AnswersOf;
  }

  /** A poll: the minted task has succeeded, and the operation moves to its next command. */
  lemma PolledRow(node: string, m: Memory, op: Op, vm: Vm, stamp: Time)
    requires Sound(op, vm) && op.stage.Awaiting? && vm.at == Some(HomeOf(node, vm.uuid)) && AllSucceeded(m)
    requires MintsTask(op.stage.cmd) && op.stage.task == TaskText(op.stage.cmd, vm.uuid)
    ensures var o := FirstPass(op, vm, AnswersOf(node, m, op, vm), stamp);
            && o.Commit? && o.op.stage == NextStage(op.kind, op.stage.cmd) && o.op.kind == op.kind
            && o.vm.at == vm.at && o.vm.uuid == vm.uuid
            && PassesLeft(o.op, o.vm) + 1 == PassesLeft(op, vm)
  {
    hide TaskText, VmidOf, Accepts;
    MintedTaskPolls(node, m, op.stage.cmd, vm.uuid);
  }

  lemma PlacedRow(node: string, m: Memory, op: Op, vm: Vm, stamp: Time)
    requires Sound(op, vm) && NeedsPlacement(op, vm)
    ensures var o := FirstPass(op, vm, AnswersOf(node, m, op, vm), stamp);
            && o.Commit? && o.op == op && o.vm == vm.(at := Some(HomeOf(node, vm.uuid)))
            && PassesLeft(o.op, o.vm) + 1 == PassesLeft(op, vm)
  {}

  // ---- one run on the whole world ----

  lemma {:induction false} TotalSame(ops: seq<Op>, vms: seq<Vm>, ops': seq<Op>, vms': seq<Vm>)
    requires |ops'| == |ops| && forall i :: 0 <= i < |ops| ==> ops[i].vm < |vms| && ops'[i].vm < |vms'|
    requires forall i :: 0 <= i < |ops| ==> PassesLeft(ops'[i], vms'[ops'[i].vm]) == PassesLeft(ops[i], vms[ops[i].vm])
    ensures TotalLeft(ops', vms') == TotalLeft(ops, vms)
  {
    hide PassesLeft;
    if ops != [] { TotalSame(ops[..|ops| - 1], vms, ops'[..|ops| - 1], vms'); }
  }

  /** One row needs one run less, the others as many as before. */
  lemma {:induction false} TotalDrops(ops: seq<Op>, vms: seq<Vm>, ops': seq<Op>, vms': seq<Vm>, i: nat)
    requires |ops'| == |ops| && i < |ops| && forall n :: 0 <= n < |ops| ==> ops[n].vm < |vms| && ops'[n].vm < |vms'|
    requires forall n :: 0 <= n < |ops| && n != i ==>
               PassesLeft(ops'[n], vms'[ops'[n].vm]) == PassesLeft(ops[n], vms[ops[n].vm])
    requires PassesLeft(ops'[i], vms'[ops'[i].vm]) + 1 == PassesLeft(ops[i], vms[ops[i].vm])
    ensures TotalLeft(ops', vms') + 1 == TotalLeft(ops, vms)
  {
    hide PassesLeft;
    if i == |ops| - 1 {
      TotalSame(ops[..|ops| - 1], vms, ops'[..|ops| - 1], vms');
    } else {
      TotalDrops(ops[..|ops| - 1], vms, ops'[..|ops| - 1], vms', i);
    }
  }

  /** What a run leaves in the served rows and the provider. */
  ghost predicate Moved(node: string, w: World, w': World, i: nat)
    requires i < |w.t.ops| && w.t.ops[i].vm < |w.t.vms|
  {
    var op, vm := w.t.ops[i], w.t.vms[w.t.ops[i].vm];
    && |w'.t.ops| == |w.t.ops| && |w'.t.vms| == |w.t.vms| && TablesOk(w'.t)
    && w'.t.ops == w.t.ops[i := w'.t.ops[i]] && w'.t.vms == w.t.vms[op.vm := w'.t.vms[op.vm]]
    && w'.t.ops[i].vm == op.vm && w'.t.ops[i].kind == op.kind
    && w'.t.vms[op.vm].uuid == vm.uuid && w'.t.vms[op.vm].at == Some(HomeOf(node, vm.uuid))
    && PassesLeft(w'.t.ops[i], w'.t.vms[op.vm]) + 1 == PassesLeft(op, vm)
    && OpReady(node, w', i) && AllSucceeded(w'.m)
    && (forall v :: v in w'.m.deleted && v !in w.m.deleted ==> v == VmidOf(vm.uuid))
  }

  /** A run that moved its row keeps the world ready and takes one from the total. */
  lemma MovedDrops(node: string, w: World, w': World, i: nat)
    requires Ready(node, w) && i < |w.t.ops| && Active(w.t.ops[i].stage) && Moved(node, w, w', i)
    ensures Ready(node, w') && TotalLeft(w'.t.ops, w'.t.vms) + 1 == TotalLeft(w.t.ops, w.t.vms)
  {
    hide VmidOf, TaskText, UniqueVmids, UnplacedPending, Sound, PassesLeft;
    var j := w.t.ops[i].vm;
    forall n | 0 <= n < |w.t.ops| && n != i
      ensures w'.t.ops[n] == w.t.ops[n] && w.t.ops[n].vm < |w.t.vms| && OpReady(node, w', n)
      ensures PassesLeft(w.t.ops[n], w'.t.vms[w.t.ops[n].vm]) == PassesLeft(w.t.ops[n], w.t.vms[w.t.ops[n].vm])
    {
      assert OpReady(node, w, n);
      if w.t.ops[n].vm == j { DoneNeedsNothing(w.t.ops[n]); }
    }
    TotalDrops(w.t.ops, w.t.vms, w'.t.ops, w'.t.vms, i);
  }

  lemma DoneNeedsNothing(op: Op)
    requires !Active(op.stage)
    ensures forall vm :: PassesLeft(op, vm) == 0
  {}

  lemma ServeMoves(node: string, w: World, w': World, i: nat, now: Time, stamp: Time, stamp': Time,
                   result: Option<CallResult>)
    requires Ready(node, w) && i < |w.t.ops| && Selectable(w.t.ops[i], now)
    requires Serves(node, w, w', i, stamp, stamp', result)
    ensures Moved(node, w, w', i)
  {
    hide PassesLeft, FirstPass, Settle, Lose, VmidOf, TaskText, AnswersOf, Sound, UnplacedPending, OneActive, Performs;
    var op, vm := w.t.ops[i], w.t.vms[w.t.ops[i].vm];
    var answers := AnswersOf(node, w.m, op, vm);
    var o := FirstPass(op, vm, answers, stamp);
    assert Sound(op, vm) && OpReady(node, w, i);
    PassEvolves(op, vm, now, answers, stamp);
    TransactTables(w.t, i, o);
    HomeIsFree(node, w, i);
    SendsMarks(op, vm, now, answers, stamp);
    if NeedsPlacement(op, vm) {
      PlacedRow(node, w.m, op, vm, stamp);
    } else if op.stage.Awaiting? {
      PolledRow(node, w.m, op, vm, stamp);
      NextReady(op.kind, op.stage.cmd);
    } else {
      SentRow(node, w.m, w'.m, op, vm, stamp, stamp', result);
      CallShowsInReads(node, w.m, w'.m, op.stage.cmd, vm.uuid, result);
      DeletesOnlyItself(node, w.m, w'.m, op.stage.cmd, vm.uuid, result);
      SettleEvolves(o.op, o.vm, op.stage.cmd, result.value, stamp');
      TransactTables(Transact(w.t, i, o), i, Settle(o.op, o.vm, op.stage.cmd, result.value, stamp'));
      NextReady(op.kind, op.stage.cmd);
    }
  }

  /** The served VM's home collides with no other row. */
  lemma HomeIsFree(node: string, w: World, i: nat)
    requires Ready(node, w) && i < |w.t.ops|
    ensures var j := w.t.ops[i].vm;
            VmidFree(w.t.vms, j, Some(HomeOf(node, w.t.vms[j].uuid)))
            && (w.t.vms[j].at.Some? ==> w.t.vms[j].at == Some(HomeOf(node, w.t.vms[j].uuid)))
  {}

  lemma DeletesOnlyItself(node: string, m: Memory, m': Memory, c: Command, id: Uuid, result: Option<CallResult>)
    requires Performs(node, m, m', c, id, HomeOf(node, id), result)
    ensures forall v :: v in m'.deleted && v !in m.deleted ==> v == VmidOf(id)
  {}

  /** No command is followed by a delete. */
  lemma NextReady(kind: Kind, c: Command)
    ensures NextStage(kind, c).Done? || (NextStage(kind, c).Queued? && NextStage(kind, c).cmd != DeleteVm)
  {}

  // ---- whole drains ----

  /** Something that happens to the worker and its provider: a run, or a restart of the provider that forgets all. */
  datatype Step = Serve(row: nat, now: Time, stamp: Time, stamp': Time, result: Option<CallResult>) | Restart

  ghost predicate StepOk(node: string, w: World, step: Step, w': World)
    requires forall i :: 0 <= i < |w.t.ops| ==> w.t.ops[i].vm < |w.t.vms|
  {
    match step
    case Serve(i, now, stamp, stamp', result) =>
      i < |w.t.ops| && Selectable(w.t.ops[i], now) && Serves(node, w, w', i, stamp, stamp', result)
    case Restart => w' == World(w.t, NOTHING)
  }

  function Served(steps: seq<Step>): nat {
    if steps == [] then 0
    else Served(steps[..|steps| - 1]) + (if steps[|steps| - 1].Serve? then 1 else 0)
  }

  ghost predicate Trace(node: string, worlds: seq<World>, steps: seq<Step>) {
    && |worlds| == |steps| + 1
    && (forall k :: 0 <= k < |worlds| ==> forall i :: 0 <= i < |worlds[k].t.ops| ==>
          worlds[k].t.ops[i].vm < |worlds[k].t.vms|)
    && (forall k :: 0 <= k < |steps| ==> StepOk(node, worlds[k], steps[k], worlds[k + 1]))
  }

  lemma StepDrains(node: string, w: World, step: Step, w': World)
    requires Ready(node, w) && StepOk(node, w, step, w')
    ensures Ready(node, w')
    ensures TotalLeft(w.t.ops, w.t.vms) == TotalLeft(w'.t.ops, w'.t.vms) + (if step.Serve? then 1 else 0)
  {
    hide Moved, TablesOk, Serves, VmidOf, TaskText, PassesLeft;
    match step
    case Serve(i, now, stamp, stamp', result) =>
      ServeMoves(node, w, w', i, now, stamp, stamp', result);
      MovedDrops(node, w, w', i);
    case Restart =>
      forall n | 0 <= n < |w'.t.ops| ensures OpReady(node, w', n) { assert OpReady(node, w, n); }
  }

  lemma {:induction false} TraceDrains(node: string, worlds: seq<World>, steps: seq<Step>)
    requires Trace(node, worlds, steps) && Ready(node, worlds[0])
    ensures Ready(node, worlds[|steps|])
    ensures TotalLeft(worlds[0].t.ops, worlds[0].t.vms)
         == TotalLeft(worlds[|steps|].t.ops, worlds[|steps|].t.vms) + Served(steps)
  {
    hide Ready, StepOk, TotalLeft;
    if steps != [] {
      var n := |steps| - 1;
      TraceDrains(node, worlds[..n + 1], steps[..n]);
      StepDrains(node, worlds[n], steps[n], worlds[n + 1]);
    }
  }

  /** Runs a fresh operation takes: 8 for a create, 4 for a reboot, 2 for any other. */
  function RunsOf(kind: Kind): nat {
    match kind
    case Create => 8
    case Reboot => 4
    case _ => 2
  }

  function RunsOfAll(ops: seq<Op>): nat {
    if ops == [] then 0 else RunsOfAll(ops[..|ops| - 1]) + RunsOf(ops[|ops| - 1].kind)
  }

  /** Every operation is as its request inserted it, and no created VM has a placement yet. */
  predicate Fresh(t: Tables) {
    forall i :: 0 <= i < |t.ops| ==>
      && t.ops[i].vm < |t.vms| && t.ops[i].stage == Queued(Script(t.ops[i].kind)[0])
      && (t.ops[i].kind == Create ==> t.vms[t.ops[i].vm].at.None?)
  }

  lemma {:induction false} FreshTotal(ops: seq<Op>, vms: seq<Vm>)
    requires Fresh(Tables(ops, vms))
    ensures TotalLeft(ops, vms) == RunsOfAll(ops)
  {
    if ops != [] {
      assert Fresh(Tables(ops[..|ops| - 1], vms));
      FreshTotal(ops[..|ops| - 1], vms);
    }
  }

  lemma {:induction false} SomeLeft(ops: seq<Op>, vms: seq<Vm>)
    requires forall i :: 0 <= i < |ops| ==> ops[i].vm < |vms|
    requires TotalLeft(ops, vms) > 0
    ensures exists i :: 0 <= i < |ops| && PassesLeft(ops[i], vms[ops[i].vm]) > 0
  {
    hide PassesLeft;
    if PassesLeft(ops[|ops| - 1], vms[ops[|ops| - 1].vm]) == 0 {
      SomeLeft(ops[..|ops| - 1], vms);
      var i :| 0 <= i < |ops| - 1 && PassesLeft(ops[i], vms[ops[i].vm]) > 0;
      assert PassesLeft(ops[i], vms[ops[i].vm]) > 0;
    }
  }

  lemma {:induction false} NoneLeft(ops: seq<Op>, vms: seq<Vm>)
    requires forall i :: 0 <= i < |ops| ==> ops[i].vm < |vms|
    requires TotalLeft(ops, vms) == 0
    ensures forall i :: 0 <= i < |ops| ==> PassesLeft(ops[i], vms[ops[i].vm]) == 0
  {
    hide PassesLeft;
    if ops != [] {
      var n := |ops| - 1;
      NoneLeft(ops[..n], vms);
      forall i | 0 <= i < |ops| ensures PassesLeft(ops[i], vms[ops[i].vm]) == 0 {
        if i < n { assert ops[..n][i] == ops[i]; }
      }
    }
  }

  /** From any set of fresh operations on VMs with distinct VMIDs, whatever rows the runs select, however long they
      take and whenever the provider is restarted: while fewer runs than the sum have been made some row is
      selectable at any time, there are never more, and after exactly that many every operation has succeeded
      and nothing is selectable any more. */
  lemma Drained(node: string, worlds: seq<World>, steps: seq<Step>, now: Time)
    requires Trace(node, worlds, steps) && Ready(node, worlds[0]) && Fresh(worlds[0].t)
    ensures var last, total := worlds[|steps|].t, RunsOfAll(worlds[0].t.ops);
            && Served(steps) <= total
            && (Served(steps) < total <==> exists i :: 0 <= i < |last.ops| && Selectable(last.ops[i], now))
            && (Served(steps) == total <==> forall i :: 0 <= i < |last.ops| ==>
                  StatusOf(last.ops[i].stage) == Succeeded)
  {
    hide OpReady, PassesLeft, TotalLeft;
    TraceDrains(node, worlds, steps);
    FreshTotal(worlds[0].t.ops, worlds[0].t.vms);
    var last := worlds[|steps|];
    forall i | 0 <= i < |last.t.ops|
      ensures PassesLeft(last.t.ops[i], last.t.vms[last.t.ops[i].vm]) > 0 <==> Selectable(last.t.ops[i], now)
      ensures PassesLeft(last.t.ops[i], last.t.vms[last.t.ops[i].vm]) == 0 <==> last.t.ops[i].stage == Done
    {
      LeftMeansSelectable(node, last, i, now);
    }
    if TotalLeft(last.t.ops, last.t.vms) > 0 {
      SomeLeft(last.t.ops, last.t.vms);
    } else {
      NoneLeft(last.t.ops, last.t.vms);
    }
  }

  lemma LeftMeansSelectable(node: string, w: World, i: nat, now: Time)
    requires Ready(node, w) && i < |w.t.ops|
    ensures var op, vm := w.t.ops[i], w.t.vms[w.t.ops[i].vm];
            && (PassesLeft(op, vm) > 0 <==> Selectable(op, now))
            && (PassesLeft(op, vm) == 0 <==> op.stage == Done)
  {
    hide VmidOf, TaskText, UniqueVmids, UnplacedPending, OneActive, HomesDistinct;
    assert OpReady(node, w, i) && Sound(w.t.ops[i], w.t.vms[w.t.ops[i].vm]);
  }

  // ---- the worker's loop ----

  lemma {:induction false} AllZero(ops: seq<Op>, vms: seq<Vm>)
    requires forall i :: 0 <= i < |ops| ==> ops[i].vm < |vms| && PassesLeft(ops[i], vms[ops[i].vm]) == 0
    ensures TotalLeft(ops, vms) == 0
  {
    hide PassesLeft;
    if ops != [] { AllZero(ops[..|ops| - 1], vms); }
  }

  /** When nothing is due, nothing is left; and then every operation has succeeded. */
  lemma IdleIsDrained(node: string, w: World, now: Time)
    requires Ready(node, w) && forall n :: 0 <= n < |w.t.ops| ==> !Selectable(w.t.ops[n], now)
    ensures TotalLeft(w.t.ops, w.t.vms) == 0
    ensures forall n :: 0 <= n < |w.t.ops| ==> w.t.ops[n].stage == Done
  {
    hide OpReady, PassesLeft, TotalLeft, TablesOk, HomesDistinct, Selectable;
    forall n | 0 <= n < |w.t.ops|
      ensures PassesLeft(w.t.ops[n], w.t.vms[w.t.ops[n].vm]) == 0 && w.t.ops[n].stage == Done
    {
      LeftMeansSelectable(node, w, n, now);
    }
    AllZero(w.t.ops, w.t.vms);
  }

  /** Repeated `run_once` until it finds nothing due, at whatever times `clock` gives. From fresh operations on VMs with
      distinct VMIDs the loop ends after exactly the sum of the runs they take, with every row succeeded. */
  method RunUntilIdle(db: Database, adapter: FakeProxmoxAdapter, clock: nat -> Time, ghost t: Tables)
    returns (runs: nat, ghost t': Tables)
    requires db.Stores(t) && db.KeysUsable() && Ready(adapter.node, World(t, adapter.State())) && Fresh(t)
    modifies db, adapter
    ensures runs == RunsOfAll(t.ops)
    ensures db.Stores(t') && Grown(t, t') && db.sshKeys == old(db.sshKeys)
    ensures |db.operations| == |t.ops| && forall i :: 0 <= i < |db.operations| ==> db.operations[i].status == Succeeded
  {
    hide Ready, TotalLeft, Serves, Extends, PassesLeft, Fresh, RunsOfAll, TablesOk, Database.KeysUsable;
    runs, t' := 0, t;
    var due := true;
    FreshTotal(t.ops, t.vms);
    NotGrown(t);
    while due
      invariant db.Stores(t') && db.KeysUsable() && db.sshKeys == old(db.sshKeys) && Grown(t, t')
      invariant Ready(adapter.node, World(t', adapter.State()))
      invariant runs + RunsLeft(adapter.node, World(t', adapter.State())) == RunsOfAll(t.ops)
      invariant !due ==> RunsLeft(adapter.node, World(t', adapter.State())) == 0
      invariant !due ==> forall n :: 0 <= n < |t'.ops| ==> t'.ops[n].stage == Done
      decreases RunsLeft(adapter.node, World(t', adapter.State())), if due then 1 else 0
    {
      ghost var w := World(t', adapter.State());
      ReadyTables(adapter.node, w);
      ghost var i, result;
      due, t', i, result := RunOnce(db, adapter, clock(3 * runs), clock(3 * runs + 1), clock(3 * runs + 2), t');
      GrownOn(t, w.t, t');
      if due {
        ServedDrains(adapter.node, w, World(t', adapter.State()), i, clock(3 * runs), clock(3 * runs + 1),
                     clock(3 * runs + 2), result);
        runs := runs + 1;
      } else {
        IdleIsDrained(adapter.node, w, clock(3 * runs));
      }
    }
  }

  /** The runs a ready world still needs. */
  ghost function RunsLeft(node: string, w: World): nat
    requires Ready(node, w)
  {
    TotalLeft(w.t.ops, w.t.vms)
  }

  lemma ReadyTables(node: string, w: World)
    requires Ready(node, w)
    ensures TablesOk(w.t)
  {}

  lemma ServedDrains(node: string, w: World, w': World, i: nat, now: Time, stamp: Time, stamp': Time,
                     result: Option<CallResult>)
    requires Ready(node, w) && i < |w.t.ops| && Selectable(w.t.ops[i], now)
             && Serves(node, w, w', i, stamp, stamp', result)
    ensures Ready(node, w') && RunsLeft(node, w) == RunsLeft(node, w') + 1
  {
    hide Serves, TotalLeft, TablesOk, OpReady, HomesDistinct;
    StepDrains(node, w, Serve(i, now, stamp, stamp', result), w');
  }
}
