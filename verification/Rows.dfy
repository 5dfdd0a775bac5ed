/** Rows as the database stores them, the ORM objects a session loads from them,
    and the correspondence with the typed rows of `Transitions`. */
module Rows {
  import opened Domain
  import opened Phases
  import opened Transitions

  /** One row of `operations`. */
  datatype OpRow = OpRow(
    virtualMachineId: nat, operationType: Kind, status: OpStatus, phase: Option<string>,
    idempotencyKey: string, attempts: nat, lastErrorCode: Option<string>,
    providerTaskId: Option<string>, updatedAt: Time)

  /** One row of `virtual_machines`. */
  datatype VmRow = VmRow(
    ownerUserId: UserId, id: Uuid, status: VmStatus, requestedVcpus: int, requestedMemoryMb: int,
    requestedStorageGb: int, imageId: string, sshPublicKeyId: Option<nat>,
    providerNode: Option<string>, providerVmid: Option<int>)

  /** One row of `ssh_public_keys`. */
  datatype SshKey = SshKey(ownerUserId: UserId, publicKey: string)

  datatype CreateVmRequest = CreateVmRequest(
    vmId: Uuid, imageId: string, vcpus: int, memoryMb: int, storageGb: int, sshPublicKey: string)

  function OpRowOf(op: Op): OpRow {
    OpRow(op.vm, op.kind, StatusOf(op.stage), PhaseText(op.kind, op.stage), op.key,
          op.attempts, op.error, TaskOf(op.stage), op.updatedAt)
  }

  function VmRowOf(vm: Vm): VmRow {
    VmRow(vm.owner, vm.uuid, vm.status, vm.spec.vcpus, vm.spec.memoryMb, vm.spec.storageGb,
          vm.spec.image, Some(vm.spec.sshKey),
          if vm.at.Some? then Some(vm.at.value.node) else None,
          if vm.at.Some? then Some(vm.at.value.vmid) else None)
  }

  /** The row shows this typed operation; `updated_at` is left to the commit. */
  ghost predicate ShowsOp(row: OpRow, op: Op) {
    Fits(op.kind, op.stage) && row == OpRowOf(op).(updatedAt := row.updatedAt)
  }

  /** A row shows at most one typed operation: the phase strings lose nothing. */
  lemma ShownOpIsUnique(row: OpRow, a: Op, b: Op)
    requires ShowsOp(row, a) && ShowsOp(row, b)
    ensures a.(updatedAt := 0) == b.(updatedAt := 0)
  {
    RowDeterminesStage(row.operationType, a.stage, b.stage);
  }

  /** The VM row's SSH key exists and belongs to the VM's owner. */
  predicate KeyUsable(vm: VmRow, keys: map<nat, SshKey>) {
    && vm.sshPublicKeyId.Some?
    && vm.sshPublicKeyId.value in keys
    && keys[vm.sshPublicKeyId.value].ownerUserId == vm.ownerUserId
  }

  /** In plain terms: a stored key with the VM owner's id. */
  lemma UsableIsOwned(vm: VmRow, keys: map<nat, SshKey>, id: nat)
    requires vm.sshPublicKeyId == Some(id)
    ensures KeyUsable(vm, keys) <==> id in keys && keys[id].ownerUserId == vm.ownerUserId
    ensures !KeyUsable(vm.(sshPublicKeyId := None), keys)
  {}

  predicate Placed(vm: VmRow) {
    vm.providerNode.Some? && vm.providerVmid.Some?
  }

  class Operation {
    const virtualMachineId: nat
    const operationType: Kind
    const idempotencyKey: string
    var status: OpStatus
    var phase: Option<string>
    var attempts: nat
    var lastErrorCode: Option<string>
    var providerTaskId: Option<string>
    var updatedAt: Time

    constructor (row: OpRow)
      ensures Row() == row
    {
      virtualMachineId := row.virtualMachineId;
      operationType := row.operationType;
      idempotencyKey := row.idempotencyKey;
      status := row.status;
      phase := row.phase;
      attempts := row.attempts;
      lastErrorCode := row.lastErrorCode;
      providerTaskId := row.providerTaskId;
      updatedAt := row.updatedAt;
    }

    function Row(): (row: OpRow)
      reads this
    {
      OpRow(virtualMachineId, operationType, status, phase, idempotencyKey,
            attempts, lastErrorCode, providerTaskId, updatedAt)
    }

    ghost predicate Shows(op: Op)
      reads this
    {
      ShowsOp(Row(), op)
    }

    /** The object as loaded from the row of `op`. */
    ghost predicate Loaded(op: Op)
      reads this
    {
      Fits(op.kind, op.stage) && Row() == OpRowOf(op)
    }
  }

  class VirtualMachine {
    const ownerUserId: UserId
    const id: Uuid
    const requestedVcpus: int
    const requestedMemoryMb: int
    const requestedStorageGb: int
    const imageId: string
    const sshPublicKeyId: Option<nat>
    var status: VmStatus
    var providerNode: Option<string>
    var providerVmid: Option<int>

    constructor (row: VmRow)
      ensures Row() == row
    {
      ownerUserId := row.ownerUserId;
      id := row.id;
      requestedVcpus := row.requestedVcpus;
      requestedMemoryMb := row.requestedMemoryMb;
      requestedStorageGb := row.requestedStorageGb;
      imageId := row.imageId;
      sshPublicKeyId := row.sshPublicKeyId;
      status := row.status;
      providerNode := row.providerNode;
      providerVmid := row.providerVmid;
    }

    function Row(): (row: VmRow)
      reads this
    {
      VmRow(ownerUserId, id, status, requestedVcpus, requestedMemoryMb, requestedStorageGb,
            imageId, sshPublicKeyId, providerNode, providerVmid)
    }

    ghost predicate Shows(vm: Vm)
      reads this
    {
      Row() == VmRowOf(vm)
    }
  }
}
