/** The HTTP adapter's guards over a cluster: which calls send a request at all, and what a trace of calls can
    do to the cluster's resources. */
module HttpAdapter {
  import opened Domain
  import opened Rows
  import opened TaskIds
  import opened Protocol

  const GIB: int := 1024 * 1024 * 1024

  datatype Config = Config(targetNode: string, pool: string, templateImageId: string, templateBytes: int)

  datatype Settings = Settings(vcpus: int, memoryMb: int, sshPublicKey: string, tags: string)

  /** A resource as the cluster lists it, with its current status. */
  datatype Resource = Resource(
    kind: string, name: Option<string>, pool: Option<string>, node: Option<string>, lock: Option<string>,
    status: string, statusLock: Option<string>, maxdisk: int, settings: Option<Settings>)

  type Resources = map<int, Resource>

  /** The three power endpoints. */
  datatype PowerMode = StartUp | ShutDown | CutOff

  datatype Request =
    | CloneTo(vmid: int, name: string)
    | SetConfig(vmid: int, settings: Settings)
    | GrowDisk(vmid: int, gb: int)
    | SetPower(vmid: int, mode: PowerMode)
    | Remove(vmid: int)

  /** How the client fares: its two reads may fail, and so may the request, before or after it was accepted.
      Only a configure request can come back without a task id. */
  datatype Reply = Upid(id: TaskId) | NoUpid | Lost(accepted: bool)
  datatype Weather = Weather(listFails: bool, statusFails: bool, reply: Reply)

  function VmName(id: Uuid): string {
    "npd-" + UuidText(id)
  }

  /** The resource is this portal VM's: type, name, pool and node. */
  predicate Carries(config: Config, r: Resource, id: Uuid, node: string) {
    r.kind == "qemu" && r.name == Some(VmName(id)) && r.pool == Some(config.pool) && r.node == Some(node)
  }

  /** A resource belongs to at most one portal VM. */
  lemma OneOwner(config: Config, r: Resource, a: Uuid, b: Uuid, node: string)
    requires Carries(config, r, a, node) && Carries(config, r, b, node)
    ensures a == b
  {
    assert UuidText(a) == VmName(a)[4..] && UuidText(b) == VmName(b)[4..];
    UuidRoundTrip(a);
    UuidRoundTrip(b);
  }

  /** What an accepted request makes of the resources. */
  function Take(config: Config, rs: Resources, request: Request): Resources {
    match request
    case CloneTo(vmid, name) =>
      rs[vmid := Resource("qemu", Some(name), Some(config.pool), Some(config.targetNode), Some("clone"),
                          "stopped", Some("clone"), config.templateBytes, None)]
    case SetConfig(vmid, settings) => if vmid in rs then rs[vmid := rs[vmid].(settings := Some(settings))] else rs
    case GrowDisk(vmid, gb) => if vmid in rs then rs[vmid := rs[vmid].(maxdisk := gb * GIB)] else rs
    case SetPower(vmid, mode) =>
      if vmid in rs then rs[vmid := rs[vmid].(status := if mode == StartUp then "running" else "stopped")] else rs
    case Remove(vmid) => rs - {vmid}
  }

  // ---- which request a call may send ----

  /** The resource is there, is this VM's, and is unlocked. */
  predicate FreeToUse(config: Config, rs: Resources, id: Uuid, at: Placement) {
    at.vmid in rs && Carries(config, rs[at.vmid], id, at.node) && rs[at.vmid].lock == None
  }

  /** The only request a call of this command for this VM ever sends, and the only state in which it does. */
  predicate MaySend(config: Config, rs: Resources, c: Command, request: CreateVmRequest, at: Placement, sent: Request) {
    && at.vmid > 0
    && (c != ShutdownVm && c != StopVm ==> at.node == config.targetNode)
    && match c
       case CloneVm =>
         at.vmid !in rs && request.imageId == config.templateImageId && sent == CloneTo(at.vmid, VmName(request.vmId))
       case ConfigureVm =>
         && FreeToUse(config, rs, request.vmId, at)
         && sent == SetConfig(at.vmid, Settings(request.vcpus, request.memoryMb, request.sshPublicKey,
                                                "npd-portal;npd-" + UuidText(request.vmId)))
       case ResizeDisk =>
         FreeToUse(config, rs, request.vmId, at) && 0 < rs[at.vmid].maxdisk < request.storageGb * GIB
         && sent == GrowDisk(at.vmid, request.storageGb)
       case StartVm =>
         FreeToUse(config, rs, request.vmId, at) && rs[at.vmid].status == "stopped" && rs[at.vmid].statusLock == None
         && sent == SetPower(at.vmid, StartUp)
       case DeleteVm =>
         FreeToUse(config, rs, request.vmId, at) && rs[at.vmid].status == "stopped" && sent == Remove(at.vmid)
       case _ =>
         FreeToUse(config, rs, request.vmId, at) && rs[at.vmid].status == "running"
         && sent == SetPower(at.vmid, if c == ShutdownVm then ShutDown else CutOff)
  }

  /** An answer without a request: the command's goal is there already, or a clone or removal is under way. */
  predicate MayAnswer(config: Config, rs: Resources, c: Command, request: CreateVmRequest, at: Placement,
                      answer: CallResult) {
    && at.vmid > 0
    && (c != ShutdownVm && c != StopVm ==> at.node == config.targetNode)
    && match c
       case CloneVm =>
         && request.imageId == config.templateImageId && at.vmid in rs
         && Carries(config, rs[at.vmid], request.vmId, at.node)
         && ((rs[at.vmid].lock == None && answer == CloneResult(AlreadyDone, None))
             || (rs[at.vmid].lock == Some("clone") && answer == CloneResult(InProgress, None)))
       case ConfigureVm => false
       case ResizeDisk =>
         FreeToUse(config, rs, request.vmId, at) && rs[at.vmid].maxdisk == request.storageGb * GIB
           && 0 < rs[at.vmid].maxdisk
         && answer == NoTask
       case StartVm =>
         FreeToUse(config, rs, request.vmId, at) && rs[at.vmid].status == "running" && rs[at.vmid].statusLock == None
         && answer == NoTask
       case DeleteVm =>
         || (at.vmid !in rs && answer == DeleteResult(AlreadyDone, None))
         || (at.vmid in rs && Carries(config, rs[at.vmid], request.vmId, at.node) && rs[at.vmid].lock.Some?
             && answer == DeleteResult(InProgress, None))
       case _ => FreeToUse(config, rs, request.vmId, at) && rs[at.vmid].status == "stopped" && answer == NoTask
  }

  /** What a command returns when its request was accepted with this task. */
  function Submission(c: Command, reply: Reply, at: Placement): CallResult {
    if reply.Upid? then
      var task := ProviderTask(reply.id, at);
      (match c
       case CloneVm => CloneResult(Submitted, Some(task))
       case DeleteVm => DeleteResult(Submitted, Some(task))
       case _ => TaskResult(task))
    else NoTask
  }

  /** The requests a cluster has accepted, and what they left. */
  datatype Ledger = Ledger(rs: Resources, accepted: seq<Request>)

  /** The contract of every mutating adapter call. None is an exception. */
  ghost predicate Calls(config: Config, l: Ledger, l': Ledger, c: Command, request: CreateVmRequest, at: Placement,
                        w: Weather, result: Option<CallResult>)
  {
    if exists sent :: MaySend(config, l.rs, c, request, at, sent) && Reads(c, w) then
      var sent :| MaySend(config, l.rs, c, request, at, sent) && Reads(c, w);
      && l' == (if w.reply == Lost(false) then l else Ledger(Take(config, l.rs, sent), l.accepted + [sent]))
      && result == (if w.reply.Lost? then None else Some(Submission(c, w.reply, at)))
    else
      && l' == l
      && (result.Some? ==> MayAnswer(config, l.rs, c, request, at, result.value))
      && (forall answer :: MayAnswer(config, l.rs, c, request, at, answer) && Reads(c, w) ==> result == Some(answer))
  }

  /** The reads the command makes succeed. */
  predicate Reads(c: Command, w: Weather) {
    !w.listFails && (c == CloneVm || c == ConfigureVm || !w.statusFails)
  }

  /** What `get_vm_power_state` tells of the resource when its reads succeed. */
  function PowerOf(config: Config, rs: Resources, id: Uuid, at: Placement): PowerAnswer {
    if at.node != config.targetNode || at.vmid <= 0 then PowerUnavailable
    else if at.vmid !in rs then PowerIs(Missing, false)
    else
      var r := rs[at.vmid];
      if !Carries(config, r, id, at.node) || r.status !in {"running", "stopped"} then PowerUnavailable
      else PowerIs(if r.status == "running" then Power.Running else Stopped, r.lock.Some? || r.statusLock.Some?)
  }

  /** The VM's own resource at its VMID, without a lock, in plain terms. */
  predicate OwnFree(config: Config, rs: Resources, id: Uuid, at: Placement) {
    && at.vmid in rs && rs[at.vmid].kind == "qemu" && rs[at.vmid].name == Some("npd-" + UuidText(id))
    && rs[at.vmid].pool == Some(config.pool) && rs[at.vmid].node == Some(at.node) && rs[at.vmid].lock == None
  }

  // ---- the cluster and the adapter ----

  class Cluster {
    var resources: Resources
    var accepted: seq<Request>

    ghost function State(): Ledger
      reads this
    {
      Ledger(resources, accepted)
    }

    /** The cluster receives a request, unless it is lost on the way. */
    method Receive(config: Config, request: Request, reply: Reply)
      modifies this
      ensures State() == if reply == Lost(false) then old(State())
                         else Ledger(Take(config, old(resources), request), old(accepted) + [request])
    {
      if reply == Lost(false) { return; }
      resources := Take(config, resources, request);
      accepted := accepted + [request];
    }
  }

  datatype Found = NoResource | Owned(r: Resource) | Conflict

  class HttpProxmoxAdapter {
    const config: Config
    const cluster: Cluster

    constructor (config: Config, cluster: Cluster)
      ensures this.config == config && this.cluster == cluster
    {
      this.config := config;
      this.cluster := cluster;
    }

    /** `_find_owned_vm_resource`; `Conflict` is any exception. */
    method FindOwnedVmResource(id: Uuid, at: Placement, w: Weather) returns (found: Found)
      ensures found == NoResource <==> at.vmid > 0 && !w.listFails && at.vmid !in cluster.resources
      ensures found.Owned? <==> at.vmid > 0 && !w.listFails && at.vmid in cluster.resources
                                && Carries(config, cluster.resources[at.vmid], id, at.node)
      ensures found.Owned? ==> found.r == cluster.resources[at.vmid]
      ensures found.Owned? ==>
                && found.r.kind == "qemu" && found.r.name == Some("npd-" + UuidText(id))
                && found.r.pool == Some(config.pool) && found.r.node == Some(at.node)
      ensures (&& at.vmid > 0 && !w.listFails && at.vmid in cluster.resources
               && var r := cluster.resources[at.vmid];
                  && r.kind == "qemu" && r.name == Some("npd-" + UuidText(id))
                  && r.pool == Some(config.pool) && r.node == Some(at.node)) ==> found.Owned?
    {
      if at.vmid <= 0 || w.listFails { return Conflict; }
      if at.vmid !in cluster.resources { return NoResource; }
      var r := cluster.resources[at.vmid];
      if r.kind != "qemu" { return Conflict; }
      if r.name != Some(VmName(id)) { return Conflict; }
      if r.pool != Some(config.pool) { return Conflict; }
      if r.node != Some(at.node) { return Conflict; }
      found := Owned(r);
    }

    /** Sends a request and reads the reply. */
    method Submit(c: Command, request: Request, at: Placement, reply: Reply) returns (result: Option<CallResult>)
      modifies cluster
      ensures cluster.State() == if reply == Lost(false) then old(cluster.State())
                                 else Ledger(Take(config, old(cluster.resources), request),
                                             old(cluster.accepted) + [request])
      ensures result == if reply.Lost? then None else Some(Submission(c, reply, at))
    {
      cluster.Receive(config, request, reply);
      if reply.Lost? { return None; }
      result := Some(Submission(c, reply, at));
    }

    method CloneVm(request: CreateVmRequest, at: Placement, w: Weather) returns (result: Option<CallResult>)
      requires !w.reply.NoUpid?
      modifies cluster
      ensures Calls(config, old(cluster.State()), cluster.State(), Command.CloneVm, request, at, w, result)
      ensures cluster.accepted != old(cluster.accepted) ==>
                && at.vmid > 0 && at.node == config.targetNode && request.imageId == config.templateImageId
                && at.vmid !in old(cluster.resources)
                && cluster.accepted == old(cluster.accepted) + [CloneTo(at.vmid, "npd-" + UuidText(request.vmId))]
      ensures (&& at.vmid > 0 && at.node == config.targetNode && request.imageId == config.templateImageId
                && at.vmid !in old(cluster.resources)
               && !w.listFails && w.reply.Upid?) ==>
                && cluster.accepted == old(cluster.accepted) + [CloneTo(at.vmid, "npd-" + UuidText(request.vmId))]
                && result == Some(CloneResult(Submitted, Some(ProviderTask(w.reply.id, at))))
      ensures (&& at.vmid > 0 && at.node == config.targetNode && request.imageId == config.templateImageId
               && OwnFree(config, old(cluster.resources), request.vmId, at)
               && !w.listFails) ==>
                 result == Some(CloneResult(AlreadyDone, None)) && cluster.accepted == old(cluster.accepted)
      ensures (&& at.vmid > 0 && at.node == config.targetNode && request.imageId == config.templateImageId
               && at.vmid in old(cluster.resources)
               && OwnFree(config, old(cluster.resources)[at.vmid := old(cluster.resources)[at.vmid].(lock := None)],
                          request.vmId, at)
               && old(cluster.resources)[at.vmid].lock == Some("clone")
               && !w.listFails) ==>
                 result == Some(CloneResult(InProgress, None)) && cluster.accepted == old(cluster.accepted)
    {
      if at.node != config.targetNode || request.imageId != config.templateImageId { return None; }
      var found := FindOwnedVmResource(request.vmId, at, w);
      match found {
        case Conflict => return None;
        case Owned(r) =>
          if r.lock == Some("clone") { return Some(CloneResult(InProgress, None)); }
          if r.lock != None { return None; }
          return Some(CloneResult(AlreadyDone, None));
        case NoResource =>
          assert MaySend(config, cluster.resources, Command.CloneVm, request, at,
                         CloneTo(at.vmid, VmName(request.vmId)));
          result := Submit(Command.CloneVm, CloneTo(at.vmid, VmName(request.vmId)), at, w.reply);
      }
    }

    method ConfigureVm(request: CreateVmRequest, at: Placement, w: Weather) returns (result: Option<CallResult>)
      modifies cluster
      ensures Calls(config, old(cluster.State()), cluster.State(), Command.ConfigureVm, request, at, w, result)
      ensures cluster.accepted != old(cluster.accepted) ==>
                && at.node == config.targetNode
                && at.vmid > 0
                && OwnFree(config, old(cluster.resources), request.vmId, at)
                && cluster.accepted == old(cluster.accepted)
                  + [SetConfig(at.vmid, Settings(request.vcpus, request.memoryMb, request.sshPublicKey,
                                                     "npd-portal;npd-" + UuidText(request.vmId)))]
      ensures (&& at.node == config.targetNode
                && at.vmid > 0
                && OwnFree(config, old(cluster.resources), request.vmId, at)
               && !w.listFails && w.reply.Upid?) ==>
                && cluster.accepted == old(cluster.accepted)
                  + [SetConfig(at.vmid, Settings(request.vcpus, request.memoryMb, request.sshPublicKey,
                                                     "npd-portal;npd-" + UuidText(request.vmId)))]
                && result == Some(TaskResult(ProviderTask(w.reply.id, at)))
    {
      if at.node != config.targetNode { return None; }
      var found := FindOwnedVmResource(request.vmId, at, w);
      if !found.Owned? || found.r.lock != None { return None; }
      var tags := "npd-portal;npd-" + UuidText(request.vmId);
      var sent := SetConfig(at.vmid, Settings(request.vcpus, request.memoryMb, request.sshPublicKey, tags));
      assert MaySend(config, cluster.resources, Command.ConfigureVm, request, at, sent);
      result := Submit(Command.ConfigureVm, sent, at, w.reply);
    }

    method ResizeVmDisk(request: CreateVmRequest, at: Placement, w: Weather) returns (result: Option<CallResult>)
      requires !w.reply.NoUpid?
      modifies cluster
      ensures Calls(config, old(cluster.State()), cluster.State(), ResizeDisk, request, at, w, result)
      ensures cluster.accepted != old(cluster.accepted) ==>
                && at.node == config.targetNode
                && at.vmid > 0
                && OwnFree(config, old(cluster.resources), request.vmId, at)
                && 0 < old(cluster.resources)[at.vmid].maxdisk < request.storageGb * 1_073_741_824
                && cluster.accepted == old(cluster.accepted) + [GrowDisk(at.vmid, request.storageGb)]
      ensures (&& at.node == config.targetNode
                && at.vmid > 0
                && OwnFree(config, old(cluster.resources), request.vmId, at)
                && 0 < old(cluster.resources)[at.vmid].maxdisk < request.storageGb * 1_073_741_824
               && !w.listFails && !w.statusFails && w.reply.Upid?) ==>
                && cluster.accepted == old(cluster.accepted) + [GrowDisk(at.vmid, request.storageGb)]
                && result == Some(TaskResult(ProviderTask(w.reply.id, at)))
      ensures (&& at.vmid > 0 && at.node == config.targetNode
               && OwnFree(config, old(cluster.resources), request.vmId, at)
               && 0 < old(cluster.resources)[at.vmid].maxdisk == request.storageGb * 1_073_741_824
               && !w.listFails && !w.statusFails) ==>
                 result == Some(NoTask) && cluster.accepted == old(cluster.accepted)
    {
      if at.node != config.targetNode { return None; }
      var found := FindOwnedVmResource(request.vmId, at, w);
      if !found.Owned? || found.r.lock != None { return None; }
      if w.statusFails || found.r.maxdisk <= 0 { return None; }
      var requested := request.storageGb * GIB;
      if found.r.maxdisk > requested { return None; }
      if found.r.maxdisk == requested { return Some(NoTask); }
      assert MaySend(config, cluster.resources, ResizeDisk, request, at, GrowDisk(at.vmid, request.storageGb));
      result := Submit(ResizeDisk, GrowDisk(at.vmid, request.storageGb), at, w.reply);
    }

    /** `get_vm_power_state`. */
    method GetVmPowerState(id: Uuid, at: Placement, w: Weather) returns (answer: PowerAnswer)
      ensures answer == PowerIs(Missing, false) <==>
              at.node == config.targetNode && at.vmid > 0 && !w.listFails && at.vmid !in cluster.resources
      ensures answer.PowerIs? && answer.power != Missing <==>
              && at.node == config.targetNode && at.vmid > 0 && !w.listFails && !w.statusFails
              && at.vmid in cluster.resources
              && Carries(config, cluster.resources[at.vmid], id, at.node)
              && cluster.resources[at.vmid].status in {"running", "stopped"}
      ensures answer.PowerIs? && answer.power != Missing ==>
              && (answer.power == Power.Running <==> cluster.resources[at.vmid].status == "running")
              && (answer.locked <==>
                    cluster.resources[at.vmid].lock.Some? || cluster.resources[at.vmid].statusLock.Some?)
      ensures answer.PowerIs? && answer.power == Missing ==> !answer.locked
      ensures answer.PowerIs? || (!w.listFails && !w.statusFails) ==>
                answer == PowerOf(config, cluster.resources, id, at)
    {
      if at.node != config.targetNode { return PowerUnavailable; }
      var found := FindOwnedVmResource(id, at, w);
      if found == Conflict { return PowerUnavailable; }
      if found == NoResource { return PowerIs(Missing, false); }
      if w.statusFails || found.r.status !in {"running", "stopped"} { return PowerUnavailable; }
      answer := PowerIs(if found.r.status == "running" then Power.Running else Stopped,
                        found.r.lock != None || found.r.statusLock != None);
    }

    /** `get_task_status`, given the fields of the cluster's reply: only the asked task, stopped with exit status "OK",
        counts as a success, and an unreadable reply is never taken for a failure of the task. */
    method GetTaskStatus(task: ProviderTask, upid: Option<string>, status: Option<string>, exitStatus: Option<string>)
      returns (answer: TaskAnswer)
      ensures answer == TaskSucceeded <==>
                upid == Some(task.id) && status == Some("stopped") && exitStatus == Some("OK")
      ensures answer == TaskRunning <==> upid == Some(task.id) && status == Some("running")
      ensures answer.TaskFailed? <==>
                upid == Some(task.id) && status == Some("stopped") && exitStatus.Some? && exitStatus != Some("OK")
      ensures answer.TaskFailed? ==> answer.code == Some("proxmox_task_failed")
    {
      if upid != Some(task.id) { return TaskUnavailable; }
      if status == Some("running") { return TaskRunning; }
      if status != Some("stopped") || exitStatus == None { return TaskUnavailable; }
      answer := if exitStatus == Some("OK") then TaskSucceeded else TaskFailed(Some("proxmox_task_failed"));
    }

    method StartVm(request: CreateVmRequest, at: Placement, w: Weather) returns (result: Option<CallResult>)
      requires !w.reply.NoUpid?
      modifies cluster
      ensures Calls(config, old(cluster.State()), cluster.State(), Command.StartVm, request, at, w, result)
      ensures cluster.accepted != old(cluster.accepted) ==>
                && at.node == config.targetNode
                && at.vmid > 0
                && OwnFree(config, old(cluster.resources), request.vmId, at)
                && old(cluster.resources)[at.vmid].status == "stopped"
                && old(cluster.resources)[at.vmid].statusLock == None
                && cluster.accepted == old(cluster.accepted) + [SetPower(at.vmid, StartUp)]
      ensures (&& at.node == config.targetNode
                && at.vmid > 0
                && OwnFree(config, old(cluster.resources), request.vmId, at)
                && old(cluster.resources)[at.vmid].status == "stopped"
                && old(cluster.resources)[at.vmid].statusLock == None
               && !w.listFails && !w.statusFails && w.reply.Upid?) ==>
                && cluster.accepted == old(cluster.accepted) + [SetPower(at.vmid, StartUp)]
                && result == Some(TaskResult(ProviderTask(w.reply.id, at)))
      ensures (&& at.vmid > 0 && at.node == config.targetNode
               && OwnFree(config, old(cluster.resources), request.vmId, at)
               && old(cluster.resources)[at.vmid].status == "running"
               && old(cluster.resources)[at.vmid].statusLock == None
               && !w.listFails && !w.statusFails) ==>
                 result == Some(NoTask) && cluster.accepted == old(cluster.accepted)
    {
      var state := GetVmPowerState(request.vmId, at, w);
      if state == PowerUnavailable || state.locked { return None; }
      if state.power == Power.Running { return Some(NoTask); }
      if state.power != Stopped { return None; }
      assert MaySend(config, cluster.resources, Command.StartVm, request, at, SetPower(at.vmid, StartUp));
      result := Submit(Command.StartVm, SetPower(at.vmid, StartUp), at, w.reply);
    }

    /** `_get_owned_vm_status`; None is an exception. */
    method GetOwnedVmStatus(id: Uuid, at: Placement, w: Weather) returns (status: Option<string>)
      ensures status.Some? <==>
              && at.vmid > 0 && !w.listFails && !w.statusFails && FreeToUse(config, cluster.resources, id, at)
              && cluster.resources[at.vmid].status in {"running", "stopped"}
      ensures status.Some? ==> status.value == cluster.resources[at.vmid].status
    {
      var found := FindOwnedVmResource(id, at, w);
      if !found.Owned? || found.r.lock != None { return None; }
      if w.statusFails || found.r.status !in {"running", "stopped"} { return None; }
      status := Some(found.r.status);
    }

    method ShutdownVm(request: CreateVmRequest, at: Placement, w: Weather) returns (result: Option<CallResult>)
      requires !w.reply.NoUpid?
      modifies cluster
      ensures Calls(config, old(cluster.State()), cluster.State(), Command.ShutdownVm, request, at, w, result)
      ensures cluster.accepted != old(cluster.accepted) ==>
                && at.vmid > 0
                && OwnFree(config, old(cluster.resources), request.vmId, at)
                && old(cluster.resources)[at.vmid].status == "running"
                && cluster.accepted == old(cluster.accepted) + [SetPower(at.vmid, ShutDown)]
      ensures (&& at.vmid > 0
                && OwnFree(config, old(cluster.resources), request.vmId, at)
                && old(cluster.resources)[at.vmid].status == "running"
               && !w.listFails && !w.statusFails && w.reply.Upid?) ==>
                && cluster.accepted == old(cluster.accepted) + [SetPower(at.vmid, ShutDown)]
                && result == Some(TaskResult(ProviderTask(w.reply.id, at)))
      ensures (&& at.vmid > 0 && OwnFree(config, old(cluster.resources), request.vmId, at)
               && old(cluster.resources)[at.vmid].status == "stopped"
               && !w.listFails && !w.statusFails) ==>
                 result == Some(NoTask) && cluster.accepted == old(cluster.accepted)
    {
      var status := GetOwnedVmStatus(request.vmId, at, w);
      if status == None { return None; }
      if status.value == "stopped" { return Some(NoTask); }
      assert MaySend(config, cluster.resources, Command.ShutdownVm, request, at, SetPower(at.vmid, ShutDown));
      result := Submit(Command.ShutdownVm, SetPower(at.vmid, ShutDown), at, w.reply);
    }

    method StopVm(request: CreateVmRequest, at: Placement, w: Weather) returns (result: Option<CallResult>)
      requires !w.reply.NoUpid?
      modifies cluster
      ensures Calls(config, old(cluster.State()), cluster.State(), Command.StopVm, request, at, w, result)
      ensures cluster.accepted != old(cluster.accepted) ==>
                && at.vmid > 0
                && OwnFree(config, old(cluster.resources), request.vmId, at)
                && old(cluster.resources)[at.vmid].status == "running"
                && cluster.accepted == old(cluster.accepted) + [SetPower(at.vmid, CutOff)]
      ensures (&& at.vmid > 0
                && OwnFree(config, old(cluster.resources), request.vmId, at)
                && old(cluster.resources)[at.vmid].status == "running"
               && !w.listFails && !w.statusFails && w.reply.Upid?) ==>
                && cluster.accepted == old(cluster.accepted) + [SetPower(at.vmid, CutOff)]
                && result == Some(TaskResult(ProviderTask(w.reply.id, at)))
      ensures (&& at.vmid > 0 && OwnFree(config, old(cluster.resources), request.vmId, at)
               && old(cluster.resources)[at.vmid].status == "stopped"
               && !w.listFails && !w.statusFails) ==>
                 result == Some(NoTask) && cluster.accepted == old(cluster.accepted)
    {
      var status := GetOwnedVmStatus(request.vmId, at, w);
      if status == None { return None; }
      if status.value == "stopped" { return Some(NoTask); }
      assert MaySend(config, cluster.resources, Command.StopVm, request, at, SetPower(at.vmid, CutOff));
      result := Submit(Command.StopVm, SetPower(at.vmid, CutOff), at, w.reply);
    }

    method DeleteVm(request: CreateVmRequest, at: Placement, w: Weather) returns (result: Option<CallResult>)
      requires !w.reply.NoUpid?
      modifies cluster
      ensures Calls(config, old(cluster.State()), cluster.State(), Command.DeleteVm, request, at, w, result)
      ensures cluster.accepted != old(cluster.accepted) ==>
                && at.node == config.targetNode
                && at.vmid > 0
                && OwnFree(config, old(cluster.resources), request.vmId, at)
                && old(cluster.resources)[at.vmid].status == "stopped"
                && cluster.accepted == old(cluster.accepted) + [Remove(at.vmid)]
      ensures (&& at.node == config.targetNode
                && at.vmid > 0
                && OwnFree(config, old(cluster.resources), request.vmId, at)
                && old(cluster.resources)[at.vmid].status == "stopped"
               && !w.listFails && !w.statusFails && w.reply.Upid?) ==>
                && cluster.accepted == old(cluster.accepted) + [Remove(at.vmid)]
                && result == Some(DeleteResult(Submitted, Some(ProviderTask(w.reply.id, at))))
      ensures (&& at.vmid > 0 && at.node == config.targetNode && at.vmid !in old(cluster.resources)
               && !w.listFails) ==>
                 result == Some(DeleteResult(AlreadyDone, None)) && cluster.accepted == old(cluster.accepted)
      ensures (&& at.vmid > 0 && at.node == config.targetNode && at.vmid in old(cluster.resources)
               && OwnFree(config, old(cluster.resources)[at.vmid := old(cluster.resources)[at.vmid].(lock := None)],
                          request.vmId, at)
               && old(cluster.resources)[at.vmid].lock.Some?
               && !w.listFails) ==>
                 result == Some(DeleteResult(InProgress, None)) && cluster.accepted == old(cluster.accepted)
    {
      if at.node != config.targetNode { return None; }
      var found := FindOwnedVmResource(request.vmId, at, w);
      match found {
        case Conflict => return None;
        case NoResource => return Some(DeleteResult(AlreadyDone, None));
        case Owned(r) =>
          if r.lock != None { return Some(DeleteResult(InProgress, None)); }
          if w.statusFails || r.status != "stopped" { return None; }
          assert MaySend(config, cluster.resources, Command.DeleteVm, request, at, Remove(at.vmid));
          result := Submit(Command.DeleteVm, Remove(at.vmid), at, w.reply);
      }
    }
  }

  // ---- traces ----

  /** An adapter call, or the cluster working on a resource: its locks and power state may change. */
  datatype Event =
    | Call(c: Command, request: CreateVmRequest, at: Placement, w: Weather, result: Option<CallResult>)
    | Works(vmid: int, lock: Option<string>, statusLock: Option<string>, status: string)

  ghost predicate StepOk(config: Config, l: Ledger, e: Event, l': Ledger) {
    match e
    case Call(c, request, at, w, result) => Calls(config, l, l', c, request, at, w, result)
    case Works(vmid, lock, statusLock, status) =>
      vmid in l.rs
      && l' == l.(rs := l.rs[vmid := l.rs[vmid].(lock := lock, statusLock := statusLock, status := status)])
  }

  ghost predicate Trace(config: Config, ledgers: seq<Ledger>, events: seq<Event>) {
    && |ledgers| == |events| + 1
    && (forall k :: 0 <= k < |events| ==> StepOk(config, ledgers[k], events[k], ledgers[k + 1]))
  }

  /** A call leaves the ledger alone, or adds the one request its guards allow. */
  lemma CallSends(config: Config, l: Ledger, l': Ledger, e: Event)
    requires e.Call? && StepOk(config, l, e, l') && l' != l
    ensures |l'.accepted| == |l.accepted| + 1 && l'.accepted[..|l.accepted|] == l.accepted
    ensures var sent := l'.accepted[|l.accepted|];
            MaySend(config, l.rs, e.c, e.request, e.at, sent) && l'.rs == Take(config, l.rs, sent)
  {
    hide MaySend, Take;
    var sent :| MaySend(config, l.rs, e.c, e.request, e.at, sent) && Reads(e.c, e.w)
                && l' == Ledger(Take(config, l.rs, sent), l.accepted + [sent]);
  }

  /** The resource is not the one of any VM the trace calls for, and the cluster does not work on it. */
  predicate Foreign(config: Config, r: Resource, vmid: int, e: Event) {
    match e
    case Call(_, request, at, _, _) => !Carries(config, r, request.vmId, at.node)
    case Works(x, _, _, _) => x != vmid
  }

  /** A resource that carries no called VM's type, name, pool and node is left exactly as it was, by any trace. */
  lemma {:induction false} ForeignUntouched(config: Config, ledgers: seq<Ledger>, events: seq<Event>, vmid: int)
    requires Trace(config, ledgers, events) && vmid in ledgers[0].rs
    requires forall k :: 0 <= k < |events| ==> Foreign(config, ledgers[0].rs[vmid], vmid, events[k])
    ensures vmid in ledgers[|events|].rs && ledgers[|events|].rs[vmid] == ledgers[0].rs[vmid]
  {
    if events != [] {
      var n := |events| - 1;
      ForeignUntouched(config, ledgers[..n + 1], events[..n], vmid);
      if events[n].Call? && ledgers[n + 1] != ledgers[n] { CallSends(config, ledgers[n], ledgers[n + 1], events[n]); }
    }
  }

  function Clones(accepted: seq<Request>, vmid: int): nat {
    if accepted == [] then 0
    else
      var last := accepted[|accepted| - 1];
      Clones(accepted[..|accepted| - 1], vmid) + (if last.CloneTo? && last.vmid == vmid then 1 else 0)
  }

  function Removals(accepted: seq<Request>, vmid: int): nat {
    if accepted == [] then 0
    else
      var last := accepted[|accepted| - 1];
      Removals(accepted[..|accepted| - 1], vmid) + (if last.Remove? && last.vmid == vmid then 1 else 0)
  }

  function Present(rs: Resources, vmid: int): nat {
    if vmid in rs then 1 else 0
  }

  lemma StepConserves(config: Config, l: Ledger, e: Event, l': Ledger, vmid: int)
    requires StepOk(config, l, e, l')
    ensures Present(l'.rs, vmid) + Removals(l'.accepted, vmid) + Clones(l.accepted, vmid)
         == Present(l.rs, vmid) + Removals(l.accepted, vmid) + Clones(l'.accepted, vmid)
  {
    if e.Call? && l' != l {
      CallSends(config, l, l', e);
      assert l'.accepted[..|l'.accepted| - 1] == l.accepted;
    }
  }

  /** What is at a VMID is what was there, plus the clones accepted for it, minus the removals. So without a removal
      repeated clone calls create at most one VM, and none where a resource was. */
  lemma {:induction false} ClonesConserved(config: Config, ledgers: seq<Ledger>, events: seq<Event>, vmid: int)
    requires Trace(config, ledgers, events) && ledgers[0].accepted == []
    ensures var last := ledgers[|events|];
            && Present(last.rs, vmid) + Removals(last.accepted, vmid)
               == Present(ledgers[0].rs, vmid) + Clones(last.accepted, vmid)
            && Clones(last.accepted, vmid) + Present(ledgers[0].rs, vmid) <= 1 + Removals(last.accepted, vmid)
  {
    if events != [] {
      var n := |events| - 1;
      ClonesConserved(config, ledgers[..n + 1], events[..n], vmid);
      StepConserves(config, ledgers[n], events[n], ledgers[n + 1], vmid);
    }
  }

  /** A resource only ever disappears when it is the called VM's own, stopped and unlocked; and only by a delete
      call. */
  lemma DeleteOnlyStopped(config: Config, l: Ledger, e: Event, l': Ledger, vmid: int)
    requires StepOk(config, l, e, l') && vmid in l.rs && vmid !in l'.rs
    ensures e.Call? && e.c == DeleteVm && e.at.vmid == vmid
    ensures Carries(config, l.rs[vmid], e.request.vmId, e.at.node)
    ensures l.rs[vmid].status == "stopped" && l.rs[vmid].lock == None
  {
    if e.Call? && l' != l { CallSends(config, l, l', e); }
  }

  /** Disks never shrink, in any trace that does not remove the resource. */
  lemma {:induction false} DisksNeverShrink(config: Config, ledgers: seq<Ledger>, events: seq<Event>, vmid: int)
    requires Trace(config, ledgers, events) && vmid in ledgers[0].rs
    requires forall k :: 0 <= k < |ledgers| ==> vmid in ledgers[k].rs
    ensures ledgers[0].rs[vmid].maxdisk <= ledgers[|events|].rs[vmid].maxdisk
  {
    if events != [] {
      var n := |events| - 1;
      DisksNeverShrink(config, ledgers[..n + 1], events[..n], vmid);
      DiskStep(config, ledgers[n], events[n], ledgers[n + 1], vmid);
    }
  }

  lemma DiskStep(config: Config, l: Ledger, e: Event, l': Ledger, vmid: int)
    requires StepOk(config, l, e, l') && vmid in l.rs && vmid in l'.rs
    ensures l.rs[vmid].maxdisk <= l'.rs[vmid].maxdisk
    ensures e.Call? && e.c == ResizeDisk && l' != l && e.at.vmid == vmid ==>
              l'.rs[vmid].maxdisk == e.request.storageGb * GIB
  {
    if e.Call? && l' != l { CallSends(config, l, l', e); }
  }

  /** Once the disk has the requested size, the resize call sends nothing, whatever the weather; and when its reads
      succeed on an unlocked resource it reports completion. */
  lemma ResizeIsIdempotent(config: Config, l: Ledger, e: Event, l': Ledger)
    requires e.Call? && e.c == ResizeDisk && StepOk(config, l, e, l')
    requires e.at.vmid in l.rs && l.rs[e.at.vmid].maxdisk == e.request.storageGb * GIB
    ensures l' == l
    ensures (&& Reads(ResizeDisk, e.w) && FreeToUse(config, l.rs, e.request.vmId, e.at) && e.at.vmid > 0
             && e.at.node == config.targetNode && e.request.storageGb > 0) ==> e.result == Some(NoTask)
  {
    if l' != l { CallSends(config, l, l', e); }
    assert Reads(ResizeDisk, e.w) && MayAnswer(config, l.rs, ResizeDisk, e.request, e.at, NoTask) ==>
             e.result == Some(NoTask);
  }

  // ---- the guards the protocol relies on ----

  /** The protocol's machine is this resource, as VM `v` with this UUID sees it. */
  predicate Abstracts(config: Config, r: Resource, m: Machine, v: nat, id: Uuid, node: string) {
    && (m.owner == Some(v) <==> Carries(config, r, id, node))
    && (m.owner == Some(v) ==>
          && (m.running <==> r.status == "running") && (!m.running <==> r.status == "stopped")
          && (m.cloning <==> r.lock == Some("clone")) && (m.locked <==> r.lock.Some? && r.lock.value != "clone")
          && r.statusLock == r.lock
          && r.maxdisk == m.diskGb * GIB && m.diskGb > 0
          && (m.config.Some? <==> r.settings.Some?)
          && (m.config.Some? ==> r.settings.value.vcpus == m.config.value.vcpus
                                 && r.settings.value.memoryMb == m.config.value.memoryMb))
  }

  /** At this VMID the cluster and the protocol's machines show the same. */
  predicate Matches(config: Config, rs: Resources, machines: map<int, Machine>, v: nat, id: Uuid, at: Placement) {
    && (at.vmid in rs <==> at.vmid in machines)
    && (at.vmid in rs ==> Abstracts(config, rs[at.vmid], machines[at.vmid], v, id, at.node))
  }

  /** The adapter's request for a VM with this spec. */
  predicate RequestFor(request: CreateVmRequest, spec: VmSpec) {
    && request.vcpus == spec.vcpus && request.memoryMb == spec.memoryMb && request.storageGb == spec.storageGb
    && request.imageId == spec.image
  }

  /** The guards leave no choice: one request at most, one answer at most, and never both. */
  lemma OneOutcome(config: Config, rs: Resources, c: Command, request: CreateVmRequest, at: Placement)
    ensures forall a, b :: MaySend(config, rs, c, request, at, a) && MaySend(config, rs, c, request, at, b) ==> a == b
    ensures forall a, b :: MayAnswer(config, rs, c, request, at, a) && MayAnswer(config, rs, c, request, at, b) ==>
              a == b
    ensures forall a, b :: MaySend(config, rs, c, request, at, a) ==> !MayAnswer(config, rs, c, request, at, b)
  {}

  /** The request the adapter sends, if its guards let it send one. */
  function RequestOf(c: Command, request: CreateVmRequest, at: Placement): Request {
    match c
    case CloneVm => CloneTo(at.vmid, VmName(request.vmId))
    case ConfigureVm =>
      SetConfig(at.vmid, Settings(request.vcpus, request.memoryMb, request.sshPublicKey,
                                  "npd-portal;npd-" + UuidText(request.vmId)))
    case ResizeDisk => GrowDisk(at.vmid, request.storageGb)
    case StartVm => SetPower(at.vmid, StartUp)
    case ShutdownVm => SetPower(at.vmid, ShutDown)
    case StopVm => SetPower(at.vmid, CutOff)
    case DeleteVm => Remove(at.vmid)
  }

  /** `Protocol.Attempt` is what these guards do: it rejects exactly when the adapter may neither send nor answer,
      answers what the adapter answers without sending, and lets a command through exactly when the adapter may send
      it. */
  lemma GuardsAreAttempt(config: Config, rs: Resources, machines: map<int, Machine>, v: nat, c: Command,
                         request: CreateVmRequest, at: Placement, spec: VmSpec, task: TaskId, instant: bool)
    requires at.vmid > 0 && at.node == config.targetNode && request.imageId == config.templateImageId
    requires RequestFor(request, spec) && Matches(config, rs, machines, v, request.vmId, at)
    ensures var p := Attempt(machines, v, c, at.vmid, spec, task, instant);
            && (p == Rejected <==>
                  && (forall sent :: !MaySend(config, rs, c, request, at, sent))
                  && (forall answer :: !MayAnswer(config, rs, c, request, at, answer)))
            && (forall answer :: p == Answered(answer) || (p == Instant && c == ResizeDisk && answer == NoTask)
                                 <==> MayAnswer(config, rs, c, request, at, answer))
            && (p.Tasked? || (p == Instant && c == ConfigureVm) <==>
                  MaySend(config, rs, c, request, at, RequestOf(c, request, at)))
  {
    OneOutcome(config, rs, c, request, at);
    assert forall sent :: MaySend(config, rs, c, request, at, sent) ==> sent == RequestOf(c, request, at);
    AnswersAreAttempt(config, rs, machines, v, c, request, at, spec, task, instant);
    SendsAreAttempt(config, rs, machines, v, c, request, at, spec, task, instant);
  }

  lemma AnswersAreAttempt(config: Config, rs: Resources, machines: map<int, Machine>, v: nat, c: Command,
                          request: CreateVmRequest, at: Placement, spec: VmSpec, task: TaskId, instant: bool)
    requires at.vmid > 0 && at.node == config.targetNode && request.imageId == config.templateImageId
    requires RequestFor(request, spec) && Matches(config, rs, machines, v, request.vmId, at)
    ensures var p := Attempt(machines, v, c, at.vmid, spec, task, instant);
            && (forall answer :: p == Answered(answer) || (p == Instant && c == ResizeDisk && answer == NoTask)
                                 <==> MayAnswer(config, rs, c, request, at, answer))
            && (p.Answered? ==> MayAnswer(config, rs, c, request, at, p.answer))
            && (p == Instant && c == ResizeDisk ==> MayAnswer(config, rs, c, request, at, NoTask))
  {}

  lemma SendsAreAttempt(config: Config, rs: Resources, machines: map<int, Machine>, v: nat, c: Command,
                        request: CreateVmRequest, at: Placement, spec: VmSpec, task: TaskId, instant: bool)
    requires at.vmid > 0 && at.node == config.targetNode && request.imageId == config.templateImageId
    requires RequestFor(request, spec) && Matches(config, rs, machines, v, request.vmId, at)
    ensures var p := Attempt(machines, v, c, at.vmid, spec, task, instant);
            && !p.Sent? && (p == Instant ==> c == ConfigureVm || c == ResizeDisk)
            && (p.Tasked? || (p == Instant && c == ConfigureVm) <==>
                  MaySend(config, rs, c, request, at, RequestOf(c, request, at)))
  {}

  /** A power read with successful reads is `Protocol.PowerRead`. */
  lemma PowerIsPowerRead(config: Config, rs: Resources, machines: map<int, Machine>, v: nat, id: Uuid, at: Placement)
    requires at.vmid > 0 && at.node == config.targetNode && Matches(config, rs, machines, v, id, at)
    ensures PowerOf(config, rs, id, at) == PowerRead(machines, v, at)
  {}

  /** What a sent request makes of the cluster is what the protocol makes of its machines: a clone starts the
      protocol's cloning machine, and every other command is `Protocol.Change`. */
  lemma TakeIsChange(config: Config, rs: Resources, machines: map<int, Machine>, v: nat, c: Command,
                     request: CreateVmRequest, at: Placement, spec: VmSpec, gb: int)
    requires RequestFor(request, spec) && Matches(config, rs, machines, v, request.vmId, at)
    requires MaySend(config, rs, c, request, at, RequestOf(c, request, at))
    requires at.node == config.targetNode && config.templateBytes == gb * GIB && gb > 0
    ensures var rs' := Take(config, rs, RequestOf(c, request, at));
            var machines' := if c == CloneVm then machines[at.vmid := Machine(Some(v), false, true, false, gb, None)]
                             else Change(machines, c, at.vmid, spec);
            && Matches(config, rs', machines', v, request.vmId, at)
            && (forall x :: x != at.vmid ==> (x in rs' <==> x in rs) && (x in rs ==> rs'[x] == rs[x]))
            && (forall x :: x != at.vmid ==>
                  (x in machines' <==> x in machines) && (x in machines ==> machines'[x] == machines[x]))
  {}

  /** The cluster releasing the clone lock is the protocol's clone task being carried out. */
  lemma CloneDoneIsChange(config: Config, rs: Resources, machines: map<int, Machine>, v: nat, id: Uuid, at: Placement,
                          spec: VmSpec)
    requires Matches(config, rs, machines, v, id, at) && at.vmid in rs
    requires machines[at.vmid].owner == Some(v) && machines[at.vmid].cloning
    ensures var rs' := rs[at.vmid := rs[at.vmid].(lock := None, statusLock := None)];
            Matches(config, rs', Change(machines, CloneVm, at.vmid, spec), v, id, at)
  {}

  /** What a command returns when its request was accepted is the protocol's result: the task it names, of the form the
      command has, and for a configure accepted without a task a completion. */
  lemma AcceptedIsResult(call: Call, id: TaskId)
    requires call.progress.Tasked? && call.progress.id == id
    ensures Some(Submission(call.cmd, Upid(id), call.at)) == ResultOf(call)
    ensures Submission(call.cmd, Upid(id), call.at)
         == match call.cmd
            case CloneVm => CloneResult(Submitted, Some(ProviderTask(id, call.at)))
            case DeleteVm => DeleteResult(Submitted, Some(ProviderTask(id, call.at)))
            case _ => TaskResult(ProviderTask(id, call.at))
    ensures Some(Submission(ConfigureVm, NoUpid, call.at)) == ResultOf(call.(cmd := ConfigureVm, progress := Instant))
    ensures Submission(ConfigureVm, NoUpid, call.at) == NoTask
  {}

  /** Ownership in plain terms: type, name, pool and node. */
  lemma CarriesPlain(config: Config, r: Resource, id: Uuid, node: string)
    ensures Carries(config, r, id, node) <==>
              && r.kind == "qemu" && r.name == Some("npd-" + UuidText(id))
              && r.pool == Some(config.pool) && r.node == Some(node)
  {}

  /** What an accepted request leaves at its VMID: a clone a locked, stopped resource of the VM's name in the pool, a
      configuration exactly its settings, key and tags included, a resize the size, and a power request the state. */
  lemma TakePlain(config: Config, rs: Resources, vmid: int, name: string, settings: Settings, gb: int)
    ensures Take(config, rs, CloneTo(vmid, name))
         == rs[vmid := Resource("qemu", Some(name), Some(config.pool), Some(config.targetNode), Some("clone"),
                                "stopped", Some("clone"), config.templateBytes, None)]
    ensures vmid in rs ==>
              && Take(config, rs, SetConfig(vmid, settings)) == rs[vmid := rs[vmid].(settings := Some(settings))]
              && Take(config, rs, GrowDisk(vmid, gb)) == rs[vmid := rs[vmid].(maxdisk := gb * 1_073_741_824)]
              && Take(config, rs, SetPower(vmid, StartUp)) == rs[vmid := rs[vmid].(status := "running")]
              && Take(config, rs, SetPower(vmid, ShutDown)) == rs[vmid := rs[vmid].(status := "stopped")]
              && Take(config, rs, SetPower(vmid, CutOff)) == rs[vmid := rs[vmid].(status := "stopped")]
              && Take(config, rs, Remove(vmid)) == rs - {vmid}
  {}
}
