/** The two typed tables and the commit of one transaction, with the unique index on provider_vmid. */
module Tables {
  import opened Domain
  import opened Phases
  import opened Transitions

  datatype Tables = Tables(ops: seq<Op>, vms: seq<Vm>)

  /** `vm_provider_vmid_unique`: no other row has this VMID. */
  predicate VmidFree(vms: seq<Vm>, j: nat, at: Option<Placement>) {
    at.Some? ==>
      forall k :: 0 <= k < |vms| && k != j && vms[k].at.Some? ==> vms[k].at.value.vmid != at.value.vmid
  }

  /** Foreign keys of the operations table, and stages that fit their kind. */
  ghost predicate Linked(t: Tables) {
    forall i :: 0 <= i < |t.ops| ==> t.ops[i].vm < |t.vms| && Fits(t.ops[i].kind, t.ops[i].stage)
  }

  /** The transaction on operation row `i` commits. */
  predicate Commits(t: Tables, i: nat, o: Outcome)
    requires i < |t.ops| && t.ops[i].vm < |t.vms|
  {
    o.Commit? && VmidFree(t.vms, t.ops[i].vm, o.vm.at)
  }

  /** Both rows are replaced, or neither is. */
  function Transact(t: Tables, i: nat, o: Outcome): Tables
    requires i < |t.ops| && t.ops[i].vm < |t.vms|
  {
    if Commits(t, i, o) then Tables(t.ops[i := o.op], t.vms[t.ops[i].vm := o.vm]) else t
  }

  /** A row a pass can handle: what every row the portal wrote satisfies (`Invariants.Sound`). */
  predicate Handleable(op: Op, vm: Vm) {
    && Fits(op.kind, op.stage)
    && Active(op.stage) && !op.stage.Parked?
    && (vm.at.Some? || (op.kind == Create && op.stage == Queued(CloneVm)))
  }
}
