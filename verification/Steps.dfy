/** The worker's transactions on stored rows are the protocol's events, and what a pass hands over is the call the
    protocol records: the same command, target and request. */
module Steps {
  import opened Domain
  import opened Transitions
  import opened Rows
  import opened Tables
  import opened Worker
  import opened Invariants
  import opened Evolution
  import opened Protocol
  import opened HttpAdapter

  /** What the worker sends is the recorded call. */
  predicate IsCall(dispatch: Dispatch, call: Call, vm: Vm, keys: map<nat, SshKey>) {
    && call.cmd == dispatch.command && call.at == dispatch.target
    && (dispatch.request.Some? ==>
          && RequestFor(dispatch.request.value, call.request) && dispatch.request.value.vmId == vm.uuid
          && call.request.sshKey in keys
          && dispatch.request.value.sshPublicKey == keys[call.request.sshKey].publicKey)
    && (dispatch.request.Some? <==> call.cmd in {CloneVm, ConfigureVm, ResizeDisk})
  }

  /** The first transaction is the protocol's pass: it sends exactly when the pass makes a call, and sends that call. */
  method ServeRow(db: Database, i: nat, now: Time, answers: Answers, stamp: Time, ghost s: State)
    returns (raised: bool, dispatch: Option<Dispatch>)
    requires db.Stores(s.t) && db.KeysUsable() && Inv(s) && i < |db.operations| && Selectable(s.t.ops[i], now)
    requires stamp == s.clock
    modifies db
    ensures db.Stores(DoPass(s, i, answers).t) && db.sshKeys == old(db.sshKeys)
    ensures raised ==> DoPass(s, i, answers).t == s.t && DoPass(s, i, answers).calls == s.calls
    ensures !raised ==>
              if dispatch.Some? then
                && |DoPass(s, i, answers).calls| == |s.calls| + 1
                && DoPass(s, i, answers).calls[|s.calls|].op == i
                && IsCall(dispatch.value, DoPass(s, i, answers).calls[|s.calls|], s.t.vms[s.t.ops[i].vm], db.sshKeys)
              else DoPass(s, i, answers).calls == s.calls
  {
    hide FirstPass, CallsOk, CallsUnique, MarkersCalled, TasksUnique, DraftsOk, OneActive, UniqueVmids, UnplacedPending;
    RowHandles(s, i, now);
    raised, dispatch := FirstTransaction(db, i, answers, stamp, s.t);
  }

  lemma RowHandles(s: State, i: nat, now: Time)
    requires Inv(s) && i < |s.t.ops| && Selectable(s.t.ops[i], now)
    ensures s.t.ops[i].vm < |s.t.vms| && Handleable(s.t.ops[i], s.t.vms[s.t.ops[i].vm])
  {
    hide CallsOk, CallsUnique, MarkersCalled, TasksUnique, DraftsOk, OneActive, UniqueVmids, UnplacedPending;
    assert Sound(s.t.ops[i], s.t.vms[s.t.ops[i].vm]);
  }

  /** The finish transaction on the call's result is the protocol's finish. */
  method StoreResult(db: Database, result: CallResult, sent: Command, i: nat, stamp: Time, ghost s: State, ghost k: nat)
    returns (raised: bool)
    requires db.Stores(s.t) && Inv(s) && CanFinish(s, k) && stamp == s.clock
    requires i == s.calls[k].op && sent == s.calls[k].cmd && Some(result) == ResultOf(s.calls[k])
    requires s.t.ops[i].kind == Start ==> result.NoTask? || result.TaskResult?
    modifies db
    ensures db.Stores(DoFinish(s, k).t) && db.sshKeys == old(db.sshKeys)
    ensures raised ==> DoFinish(s, k).t == s.t
  {
    hide Settle, CallsUnique, MarkersCalled, TasksUnique, DraftsOk, OneActive, UniqueVmids, UnplacedPending, Misfiles;
    assert CallOk(s.t, s.calls[k]);
    raised := FinishTransaction(db, i, sent, result, stamp, s.t);
  }

  /** The failure transaction is the protocol's failure. */
  method StoreFailure(db: Database, sent: Command, i: nat, stamp: Time, ghost s: State, ghost k: nat)
    returns (raised: bool)
    requires db.Stores(s.t) && Inv(s) && CanFail(s, k) && stamp == s.clock
    requires i == s.calls[k].op && sent == s.calls[k].cmd
    modifies db
    ensures db.Stores(Do(s, Fail(k)).t) && db.sshKeys == old(db.sshKeys)
    ensures raised ==> Do(s, Fail(k)).t == s.t
  {
    hide Lose, CallsUnique, MarkersCalled, TasksUnique, DraftsOk, OneActive, UniqueVmids, UnplacedPending;
    assert CallOk(s.t, s.calls[k]);
    raised := FailureTransaction(db, i, sent, stamp, s.t);
  }
}
