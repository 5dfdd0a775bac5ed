/** `create_vm` and `enqueue_vm_operation` over the stored rows: the checks under a row lock, and the insert
    that the unique index on the idempotency key decides. Other sessions may write between the two. */
module Admission {
  import opened Domain
  import opened Phases
  import opened Transitions
  import opened Rows
  import opened Tables
  import opened Worker
  import opened Protocol
  import opened Requests

  /** One row of `user_quota`. */
  datatype UserQuota = UserQuota(active: bool, computePlanId: nat)

  datatype RequestError =
    | KeyNotOwned | QuotaMissing | QuotaSuspended | ImageNotAllowed | StorageTooSmall | PlanMissing
    | VmLimit | VcpuLimit | MemoryLimit | StorageLimit
    | KeyUsed | DifferentRequest
    | UnsupportedOperation | VmNotFound | ActiveOperation | WrongStatus

  /** What the key lookup finds, and what a request's checks decide. */
  datatype Decision = Replay(id: nat) | Refuse(error: RequestError) | Admit

  datatype Reply = Accepted(id: nat) | Denied(error: RequestError)

  const IMAGE_MIN_STORAGE_GB: map<string, int> := map["almalinux-9" := 10]

  // ---- typed meaning ----

  predicate Names(t: Tables, key: string, i: nat) {
    i < |t.ops| && t.ops[i].key == key
  }

  /** What a create request with this key refers to: the VM its operation made, or an error. */
  ghost predicate CreateLookup(t: Tables, key: string, user: UserId, spec: VmSpec, d: Decision)
    requires Linked(t)
  {
    && (d == Admit <==> KeyFree(t.ops, key))
    && (forall i: nat :: Names(t, key, i) ==>
          && (d == Replay(t.ops[i].vm) <==>
                t.ops[i].kind == Create && t.vms[t.ops[i].vm].owner == user && t.vms[t.ops[i].vm].spec == spec)
          && (d == Refuse(DifferentRequest) <==>
                t.ops[i].kind == Create && t.vms[t.ops[i].vm].owner == user && t.vms[t.ops[i].vm].spec != spec)
          && (d == Refuse(KeyUsed) <==> t.ops[i].kind != Create || t.vms[t.ops[i].vm].owner != user))
  }

  /** What a lifecycle request with this key refers to. */
  ghost predicate EnqueueLookup(t: Tables, key: string, v: nat, kind: Kind, d: Decision) {
    && (d == Admit <==> KeyFree(t.ops, key))
    && (forall i: nat :: Names(t, key, i) ==>
          d == if t.ops[i].vm == v && t.ops[i].kind == kind then Replay(i) else Refuse(KeyUsed))
  }

  // ---- queries ----

  method FindKey(db: Database, key: string, ghost t: Tables) returns (found: Option<nat>)
    requires db.Stores(t) && KeysUnique(t.ops)
    ensures found.None? <==> KeyFree(t.ops, key)
    ensures found.Some? ==> Names(t, key, found.value) && forall i: nat :: Names(t, key, i) ==> i == found.value
  {
    found := None;
    for i := 0 to |db.operations|
      invariant found.None? ==> forall k :: 0 <= k < i ==> t.ops[k].key != key
      invariant found.Some? ==> Names(t, key, found.value)
    {
      if db.operations[i].idempotencyKey == key { found := Some(i); }
    }
  }

  /** `_get_existing_vm_for_create_request`; `Admit` when there is none. */
  method ExistingVmForCreateRequest(db: Database, key: string, user: UserId, spec: VmSpec, ghost t: Tables)
    returns (d: Decision)
    requires db.Stores(t) && KeysUnique(t.ops)
    ensures CreateLookup(t, key, user, spec, d)
    ensures d.Refuse? ==> d.error == KeyUsed || d.error == DifferentRequest
    ensures d == Admit <==> KeyFree(t.ops, key)
    ensures d == Refuse(KeyUsed) ==>
              exists i :: 0 <= i < |db.operations| && db.operations[i].idempotencyKey == key
                          && (db.operations[i].operationType != Create
                              || (db.operations[i].virtualMachineId < |db.virtualMachines|
                                  && db.virtualMachines[db.operations[i].virtualMachineId].ownerUserId != user))
    ensures d == Refuse(DifferentRequest) ==>
              exists i :: 0 <= i < |db.operations| && db.operations[i].idempotencyKey == key
                          && db.operations[i].operationType == Create
                          && db.operations[i].virtualMachineId < |db.virtualMachines|
                          && db.virtualMachines[db.operations[i].virtualMachineId].ownerUserId == user
    ensures d.Replay? ==>
              && d.id < |db.virtualMachines|
              && (exists i :: 0 <= i < |db.operations| && db.operations[i].idempotencyKey == key
                              && db.operations[i].operationType == Create && db.operations[i].virtualMachineId == d.id)
              && var vm := db.virtualMachines[d.id];
                 && vm.ownerUserId == user && vm.requestedVcpus == spec.vcpus && vm.requestedMemoryMb == spec.memoryMb
                 && vm.requestedStorageGb == spec.storageGb && vm.imageId == spec.image
                 && vm.sshPublicKeyId == Some(spec.sshKey)
  {
    hide PhaseText;
    var found := FindKey(db, key, t);
    if found == None { return Admit; }
    var operation := db.operations[found.value];
    if operation.operationType != Create { return Refuse(KeyUsed); }
    var vm := db.virtualMachines[operation.virtualMachineId];
    if vm.ownerUserId != user { return Refuse(KeyUsed); }
    var matches := && vm.requestedVcpus == spec.vcpus && vm.requestedMemoryMb == spec.memoryMb
                   && vm.requestedStorageGb == spec.storageGb && vm.imageId == spec.image
                   && vm.sshPublicKeyId == Some(spec.sshKey);
    if !matches { return Refuse(DifferentRequest); }
    d := Replay(operation.virtualMachineId);
  }

  predicate Consuming(status: VmStatus) {
    status in {VmPending, VmPendingCapacity, VmProvisioning, VmRunning, VmStopped, VmDeleting}
  }

  /** `get_user_compute_usage`. */
  method UserComputeUsage(db: Database, user: UserId, ghost t: Tables) returns (usage: Usage)
    requires db.Stores(t)
    ensures usage == TotalUsage(t.vms, user)
  {
    usage := Usage(0, 0, 0, 0);
    for j := 0 to |db.virtualMachines|
      invariant usage == TotalUsage(t.vms[..j], user)
    {
      var vm := db.virtualMachines[j];
      assert t.vms[..j + 1][..j] == t.vms[..j];
      if vm.ownerUserId == user && Consuming(vm.status) {
        usage := Usage(usage.vms + 1, usage.vcpus + vm.requestedVcpus,
                       usage.memoryMb + vm.requestedMemoryMb, usage.storageGb + vm.requestedStorageGb);
      }
    }
    assert t.vms[..|t.vms|] == t.vms;
  }

  /** The first of the four limits the enlarged usage exceeds. */
  function FirstExceeded(plan: Plan, usage: Usage, spec: VmSpec): (error: Option<RequestError>)
    ensures error == Some(VmLimit) <==> usage.vms >= plan.maxVms
    ensures error == Some(VcpuLimit) <==> usage.vms < plan.maxVms && usage.vcpus + spec.vcpus > plan.maxVcpus
    ensures error == Some(MemoryLimit) <==>
              usage.vms < plan.maxVms && usage.vcpus + spec.vcpus <= plan.maxVcpus
              && usage.memoryMb + spec.memoryMb > plan.maxMemoryMb
    ensures error == Some(StorageLimit) <==>
              usage.vms < plan.maxVms && usage.vcpus + spec.vcpus <= plan.maxVcpus
              && usage.memoryMb + spec.memoryMb <= plan.maxMemoryMb
              && usage.storageGb + spec.storageGb > plan.maxStorageGb
    ensures error == None <==> Within(Plus(usage, Asked(spec)), plan)
    ensures error.Some? ==> error.value in {VmLimit, VcpuLimit, MemoryLimit, StorageLimit}
  {
    if usage.vms >= plan.maxVms then Some(VmLimit)
    else if usage.vcpus + spec.vcpus > plan.maxVcpus then Some(VcpuLimit)
    else if usage.memoryMb + spec.memoryMb > plan.maxMemoryMb then Some(MemoryLimit)
    else if usage.storageGb + spec.storageGb > plan.maxStorageGb then Some(StorageLimit)
    else None
  }

  /** `_validate_vm_quota`: no error exactly when the enlarged usage is within the plan in all four measures. */
  method ValidateVmQuota(plan: Plan, usage: Usage, spec: VmSpec) returns (error: Option<RequestError>)
    ensures error == None <==> Within(Plus(usage, Asked(spec)), plan)
    ensures error == None <==>
              && usage.vms + 1 <= plan.maxVms && usage.vcpus + spec.vcpus <= plan.maxVcpus
              && usage.memoryMb + spec.memoryMb <= plan.maxMemoryMb
              && usage.storageGb + spec.storageGb <= plan.maxStorageGb
    ensures error == FirstExceeded(plan, usage, spec)
  {
    if usage.vms + 1 > plan.maxVms { return Some(VmLimit); }
    if usage.vcpus + spec.vcpus > plan.maxVcpus { return Some(VcpuLimit); }
    if usage.memoryMb + spec.memoryMb > plan.maxMemoryMb { return Some(MemoryLimit); }
    if usage.storageGb + spec.storageGb > plan.maxStorageGb { return Some(StorageLimit); }
    error := None;
  }

  // ---- create_vm ----

  /** The protocol state sees the same keys, quotas and plans as the database. */
  ghost predicate Mirrors(s: State, db: Database, quotas: map<UserId, UserQuota>, plans: map<nat, Plan>)
    reads db
  {
    && db.Stores(s.t)
    && (forall k :: k in s.keys <==> k in db.sshKeys)
    && (forall k :: k in s.keys ==> s.keys[k] == db.sshKeys[k].ownerUserId)
    && (forall u :: u in s.plans <==> u in quotas && quotas[u].computePlanId in plans)
    && (forall u :: u in s.plans ==> s.plans[u] == plans[quotas[u].computePlanId])
    && (forall u :: u in quotas ==> (u in s.suspended <==> !quotas[u].active))
  }

  /** The checks of `create_vm`, made while it holds the quota row. They admit a request exactly when the protocol
      step `CheckCreate` is possible; a request already carried out is replayed before any quota is looked at. */
  method CheckVmCreate(db: Database, quotas: map<UserId, UserQuota>, plans: map<nat, Plan>,
                       user: UserId, spec: VmSpec, key: string, ghost s: State, ghost uuid: Uuid)
    returns (d: Decision)
    requires Mirrors(s, db, quotas, plans) && KeysUnique(s.t.ops) && !QuotaLocked(s.drafts, user)
    requires spec.vcpus > 0 && spec.memoryMb > 0 && spec.storageGb > 0
    ensures d == Admit <==> Enabled(s, CheckCreate(user, spec, key, uuid))
    ensures d == Refuse(KeyNotOwned) <==> !(spec.sshKey in s.keys && s.keys[spec.sshKey] == user)
    ensures d == Refuse(QuotaMissing) <==> (spec.sshKey in s.keys && s.keys[spec.sshKey] == user) && user !in quotas
    ensures !KeyFree(s.t.ops, key) && d != Refuse(KeyNotOwned) && d != Refuse(QuotaMissing) ==>
              CreateLookup(s.t, key, user, spec, d)
    ensures d.Replay? ==> !KeyFree(s.t.ops, key)
    ensures KeyFree(s.t.ops, key) && d != Refuse(KeyNotOwned) && d != Refuse(QuotaMissing) ==>
              && (d == Refuse(QuotaSuspended) <==> user in s.suspended)
              && (d == Refuse(ImageNotAllowed) <==> user !in s.suspended && spec.image != "almalinux-9")
              && (d == Refuse(StorageTooSmall) <==>
                    user !in s.suspended && spec.image == "almalinux-9" && spec.storageGb < 10)
              && (d == Refuse(PlanMissing) <==> user !in s.suspended && ValidSpec(spec) && user !in s.plans)
              && (user !in s.suspended && ValidSpec(spec) && user in s.plans ==>
                    d == match FirstExceeded(s.plans[user], TotalUsage(s.t.vms, user), spec)
                         case Some(error) => Refuse(error)
                         case None => Admit)
  {
    hide PhaseText, CreateLookup, TotalUsage, Within, FirstExceeded, KeyFree, KeysUnique, QuotaLocked, OpRowOf,
      VmRowOf, Linked;
    if spec.sshKey !in db.sshKeys || db.sshKeys[spec.sshKey].ownerUserId != user { return Refuse(KeyNotOwned); }
    if user !in quotas { return Refuse(QuotaMissing); }
    d := ExistingVmForCreateRequest(db, key, user, spec, s.t);
    if d != Admit { return; }
    if !quotas[user].active { return Refuse(QuotaSuspended); }
    if spec.image !in IMAGE_MIN_STORAGE_GB { return Refuse(ImageNotAllowed); }
    if spec.storageGb < IMAGE_MIN_STORAGE_GB[spec.image] { return Refuse(StorageTooSmall); }
    if quotas[user].computePlanId !in plans { return Refuse(PlanMissing); }
    var usage := UserComputeUsage(db, user, s.t);
    var error := ValidateVmQuota(plans[quotas[user].computePlanId], usage, spec);
    if error != None { d := Refuse(error.value); }
  }

  /** The two inserts of `create_vm`: both rows, or, when another session took the key meanwhile, neither and the
      answer of a second lookup. */
  method InsertVmCreate(db: Database, user: UserId, spec: VmSpec, key: string, uuid: Uuid, stamp: Time,
                        ghost s: State, ghost d: nat)
    returns (reply: Reply)
    requires db.Stores(s.t) && KeysUnique(s.t.ops) && stamp == s.clock
    requires d < |s.drafts| && s.drafts[d] == OpenCreate(user, spec, key, uuid)
    modifies db
    ensures db.Stores(DoInsertCreate(s, d).t) && db.sshKeys == old(db.sshKeys)
    ensures KeyFree(s.t.ops, key) ==>
              && reply == Accepted(|s.t.vms|)
              && db.virtualMachines == old(db.virtualMachines)
                 + [VmRow(user, uuid, VmPending, spec.vcpus, spec.memoryMb, spec.storageGb, spec.image,
                          Some(spec.sshKey), None, None)]
              && db.operations == old(db.operations)
                 + [OpRow(|s.t.vms|, Create, Pending, Some("clone"), key, 0, None, None, stamp)]
    ensures !KeyFree(s.t.ops, key) ==>
              && db.operations == old(db.operations) && db.virtualMachines == old(db.virtualMachines)
              && CreateLookup(s.t, key, user, spec, if reply.Accepted? then Replay(reply.id) else Refuse(reply.error))
    ensures old(db.KeysUsable()) && spec.sshKey in db.sshKeys && db.sshKeys[spec.sshKey].ownerUserId == user ==>
              db.KeysUsable()
  {
    hide PollText, DispatchText, UnsureText, ParkedText;
    var operations, virtualMachines := db.operations, db.virtualMachines;
    db.virtualMachines := virtualMachines + [VmRow(user, uuid, VmPending, spec.vcpus, spec.memoryMb, spec.storageGb,
                                                   spec.image, Some(spec.sshKey), None, None)];
    var row := OpRow(|virtualMachines|, Create, Pending, Some("clone"), key, 0, None, None, stamp);
    assert row == OpRowOf(Op(|s.t.vms|, Create, FirstStage(Create), key, 0, None, stamp));
    var taken := KeyTaken(operations, key);
    if taken {
      db.operations, db.virtualMachines := operations, virtualMachines;
      assert !KeyFree(s.t.ops, key);
      var found := ExistingVmForCreateRequest(db, key, user, spec, s.t);
      match found {
        case Replay(v) => reply := Accepted(v);
        case Refuse(error) => reply := Denied(error);
        case Admit =>
          assert false;
          reply := Denied(KeyUsed);
      }
    } else {
      db.operations := operations + [row];
      assert KeyFree(s.t.ops, key);
      reply := Accepted(|virtualMachines|);
    }
  }

  /** The unique index on `idempotency_key`. */
  method KeyTaken(operations: seq<OpRow>, key: string) returns (taken: bool)
    ensures taken <==> exists i :: 0 <= i < |operations| && operations[i].idempotencyKey == key
  {
    taken := false;
    for i := 0 to |operations|
      invariant taken <==> exists k :: 0 <= k < i && operations[k].idempotencyKey == key
    {
      if operations[i].idempotencyKey == key { taken := true; }
    }
  }

  /** In every reachable state the worker finds a usable SSH key for every VM row. */
  lemma OwnedKeysUsable(s: State, db: Database)
    requires db.Stores(s.t) && KeysOwned(s)
    requires forall k :: k in s.keys ==> k in db.sshKeys && s.keys[k] == db.sshKeys[k].ownerUserId
    ensures db.KeysUsable()
  {
    forall j | 0 <= j < |db.virtualMachines| ensures KeyUsable(db.virtualMachines[j], db.sshKeys) {
      assert db.virtualMachines[j] == VmRowOf(s.t.vms[j]);
    }
  }

  // ---- enqueue_vm_operation ----

  method ActiveOperationOf(db: Database, v: nat, ghost t: Tables) returns (active: bool)
    requires db.Stores(t)
    ensures active <==> Busy(t.ops, v)
  {
    active := false;
    for i := 0 to |db.operations|
      invariant active <==> exists k :: 0 <= k < i && t.ops[k].vm == v && Active(t.ops[k].stage)
    {
      var row := db.operations[i];
      if row.virtualMachineId == v && (row.status == Pending || row.status == Processing) { active := true; }
    }
  }

  method AllowedStatus(kind: Kind, status: VmStatus) returns (allowed: bool)
    ensures allowed <==> Allowed(kind, status)
    ensures allowed <==> if kind in {Start, Delete} then status == VmStopped
                         else kind in {Shutdown, Stop, Reboot} && status == VmRunning
  {
    match kind {
      case Start => allowed := status == VmStopped;
      case Shutdown => allowed := status == VmRunning;
      case Stop => allowed := status == VmRunning;
      case Reboot => allowed := status == VmRunning;
      case Delete => allowed := status == VmStopped;
      case Create => allowed := false;
    }
  }

  /** The checks of `enqueue_vm_operation`, made while it holds the VM row. */
  method CheckVmOperation(db: Database, user: UserId, v: nat, kind: Kind, key: string, ghost s: State)
    returns (d: Decision)
    requires db.Stores(s.t) && KeysUnique(s.t.ops) && !VmLocked(s.drafts, v)
    ensures d == Admit <==> Enabled(s, CheckEnqueue(user, v, kind, key))
    ensures d == Refuse(UnsupportedOperation) <==> kind == Create
    ensures d == Refuse(VmNotFound) <==> kind != Create && !(v < |s.t.vms| && s.t.vms[v].owner == user)
    ensures !KeyFree(s.t.ops, key) && d != Refuse(UnsupportedOperation) && d != Refuse(VmNotFound) ==>
              EnqueueLookup(s.t, key, v, kind, d)
    ensures KeyFree(s.t.ops, key) && d != Refuse(UnsupportedOperation) && d != Refuse(VmNotFound) ==>
              && (d == Refuse(ActiveOperation) <==> Busy(s.t.ops, v))
              && (d == Refuse(WrongStatus) <==> !Busy(s.t.ops, v) && !Allowed(kind, s.t.vms[v].status))
              && (d == Admit <==>
                    && !Busy(s.t.ops, v)
                    && (if kind in {Start, Delete} then s.t.vms[v].status == VmStopped
                        else s.t.vms[v].status == VmRunning))
  {
    hide PhaseText, Busy;
    if kind == Create { return Refuse(UnsupportedOperation); }
    if v >= |db.virtualMachines| || db.virtualMachines[v].ownerUserId != user { return Refuse(VmNotFound); }
    var existing := FindKey(db, key, s.t);
    if existing != None {
      var operation := db.operations[existing.value];
      if operation.virtualMachineId != v || operation.operationType != kind { return Refuse(KeyUsed); }
      return Replay(existing.value);
    }
    var active := ActiveOperationOf(db, v, s.t);
    if active { return Refuse(ActiveOperation); }
    var allowed := AllowedStatus(kind, db.virtualMachines[v].status);
    if !allowed { return Refuse(WrongStatus); }
    d := Admit;
  }

  /** The insert of `enqueue_vm_operation`, or after a lost race the operation that has the key if it is the same
      request. */
  method InsertVmOperation(db: Database, v: nat, kind: Kind, key: string, stamp: Time, ghost s: State, ghost d: nat)
    returns (reply: Reply)
    requires db.Stores(s.t) && KeysUnique(s.t.ops) && stamp == s.clock && kind != Create && v < |s.t.vms|
    requires d < |s.drafts| && s.drafts[d] == OpenEnqueue(v, kind, key)
    modifies db
    ensures db.Stores(DoInsertEnqueue(s, d).t) && db.sshKeys == old(db.sshKeys)
            && db.virtualMachines == old(db.virtualMachines)
    ensures KeyFree(s.t.ops, key) ==>
              && reply == Accepted(|s.t.ops|)
              && db.operations == old(db.operations)
                 + [OpRow(v, kind, Pending, if kind == Reboot then Some("shutdown") else None, key, 0, None, None,
                          stamp)]
    ensures !KeyFree(s.t.ops, key) ==>
              && db.operations == old(db.operations)
              && EnqueueLookup(s.t, key, v, kind, if reply.Accepted? then Replay(reply.id) else Refuse(reply.error))
  {
    hide PollText, DispatchText, UnsureText, ParkedText;
    var taken := KeyTaken(db.operations, key);
    if taken {
      assert !KeyFree(s.t.ops, key);
      var existing := FindKey(db, key, s.t);
      var operation := db.operations[existing.value];
      if operation.virtualMachineId == v && operation.operationType == kind {
        return Accepted(existing.value);
      }
      return Denied(KeyUsed);
    }
    var row := OpRow(v, kind, Pending, if kind == Reboot then Some("shutdown") else None, key, 0, None, None, stamp);
    assert row == OpRowOf(Op(v, kind, FirstStage(kind), key, 0, None, stamp));
    db.operations := db.operations + [row];
    assert KeyFree(s.t.ops, key);
    reply := Accepted(|db.operations| - 1);
  }
}
