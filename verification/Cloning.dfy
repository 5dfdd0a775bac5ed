/** A resource under clone is always the work of a clone task that is still running, so a VM at rest has none. */
module Cloning {
  import opened Domain
  import opened Transitions
  import opened Tables
  import opened Protocol
  import opened Invariants
  import opened Agreement
  import opened Requests

  /** The clone task that holds this VMID for this VM. */
  predicate ClonesAt(s: State, k: nat, vmid: int, v: nat) {
    && k < |s.calls| && s.calls[k].op < |s.t.ops| && OpVm(s, k) == v
    && s.calls[k].cmd == CloneVm && s.calls[k].at.vmid == vmid
    && s.calls[k].progress.Tasked? && s.calls[k].progress.state == Waiting
  }

  ghost predicate CloningTasked(s: State) {
    forall vmid :: vmid in s.machines && s.machines[vmid].cloning ==>
      s.machines[vmid].owner.Some? && exists k: nat :: ClonesAt(s, k, vmid, s.machines[vmid].owner.value)
  }

  /** Calls keep what a clone task is known by, and no machine starts cloning. */
  lemma ClonesStay(s: State, s': State)
    requires CloningTasked(s) && |s.t.ops| <= |s'.t.ops| && |s.calls| <= |s'.calls|
    requires forall i :: 0 <= i < |s.t.ops| ==> s'.t.ops[i].vm == s.t.ops[i].vm
    requires forall k :: 0 <= k < |s.calls| ==>
               && s'.calls[k].op == s.calls[k].op && s'.calls[k].cmd == s.calls[k].cmd
               && s'.calls[k].at == s.calls[k].at
               && (s'.calls[k].progress == s.calls[k].progress
                   || !s.calls[k].progress.Tasked? || s.calls[k].progress.state != Waiting)
    requires forall vmid :: vmid in s'.machines && s'.machines[vmid].cloning ==>
               vmid in s.machines && s.machines[vmid].cloning && s'.machines[vmid].owner == s.machines[vmid].owner
    ensures CloningTasked(s')
  {
    forall vmid | vmid in s'.machines && s'.machines[vmid].cloning
      ensures s'.machines[vmid].owner.Some? && exists k: nat :: ClonesAt(s', k, vmid, s'.machines[vmid].owner.value)
    {
      var k: nat :| ClonesAt(s, k, vmid, s.machines[vmid].owner.value);
      assert ClonesAt(s', k, vmid, s'.machines[vmid].owner.value);
    }
  }

  /** A call reaches the provider: only a clone starts a clone, and its task is waiting. */
  lemma EffectCloning(s: State, k: nat, id: TaskId, instant: bool, gb: int)
    requires CloningTasked(s) && CanReach(s, k, id)
    ensures CloningTasked(DoEffect(s, k, id, instant, gb))
  {
    var s', at := DoEffect(s, k, id, instant, gb), s.calls[k].at;
    forall vmid | vmid in s'.machines && s'.machines[vmid].cloning
      ensures s'.machines[vmid].owner.Some? && exists l: nat :: ClonesAt(s', l, vmid, s'.machines[vmid].owner.value)
    {
      if vmid == at.vmid && s.calls[k].cmd == CloneVm && s'.calls[k].progress.Tasked? {
        assert ClonesAt(s', k, vmid, s'.machines[vmid].owner.value);
      } else {
        var l: nat :| ClonesAt(s, l, vmid, s.machines[vmid].owner.value);
        assert ClonesAt(s', l, vmid, s'.machines[vmid].owner.value);
      }
    }
  }

  /** A task that is carried out or fails ends the clone it was for, and no other. */
  lemma TaskCloning(s: State, e: Event)
    requires CloningTasked(s) && Enabled(s, e) && (e.TaskApply? || e.TaskAbort?)
    ensures CloningTasked(Do(s, e))
  {
    var s', k := Do(s, e), e.call;
    forall vmid | vmid in s'.machines && s'.machines[vmid].cloning
      ensures s'.machines[vmid].owner.Some? && exists l: nat :: ClonesAt(s', l, vmid, s'.machines[vmid].owner.value)
    {
      var l: nat :| ClonesAt(s, l, vmid, s.machines[vmid].owner.value);
      assert ClonesAt(s', l, vmid, s'.machines[vmid].owner.value);
    }
  }

  lemma PassCloning(s: State, i: nat, answers: Answers)
    requires CloningTasked(s) && i < |s.t.ops| && s.t.ops[i].vm < |s.t.vms|
    requires Transact(s.t, i, FirstPass(s.t.ops[i], s.t.vms[s.t.ops[i].vm], answers, s.clock)).ops[i].vm
               == s.t.ops[i].vm
    ensures CloningTasked(DoPass(s, i, answers))
  {
    hide CloningTasked, FirstPass, Commits;
    ClonesStay(s, DoPass(s, i, answers));
  }

  /** Results and failures stored, requests and the world outside start no clone and end none. */
  lemma OtherCloning(s: State, e: Event)
    requires Inv(s) && CloningTasked(s) && Enabled(s, e)
    requires !e.Pass? && !e.Effect? && !e.TaskApply? && !e.TaskAbort?
    ensures CloningTasked(Do(s, e))
  {
    hide CloningTasked, Inv, Settle, Lose, Commits, Truthful, Within, TotalUsage, Attempt, Change;
    StepExtends(s, e);
    ClonesStay(s, Do(s, e));
  }

  lemma StepCloning(s: State, e: Event)
    requires Inv(s) && CloningTasked(s)
    ensures CloningTasked(Do(s, e))
  {
    hide CloningTasked, Inv, DoPass, DoEffect;
    if Enabled(s, e) {
      match e
      case Pass(i, now, _, answers) =>
        StepExtends(s, e);
        PassCloning(s, i, answers);
      case Effect(k, id, instant, gb) => EffectCloning(s, k, id, instant, gb);
      case TaskApply(_) => TaskCloning(s, e);
      case TaskAbort(_) => TaskCloning(s, e);
      case _ => OtherCloning(s, e);
    }
  }

  lemma {:induction false} RunCloning(plans: map<UserId, Plan>, events: seq<Event>)
    ensures CloningTasked(Run(Initial(plans), events))
  {
    if events != [] {
      RunCloning(plans, events[..|events| - 1]);
      InitialInv(plans);
      RunInv(Initial(plans), events[..|events| - 1]);
      StepCloning(Run(Initial(plans), events[..|events| - 1]), events[|events| - 1]);
    }
  }

  /** A VM with no active operation and no misfiled result has no resource under clone. */
  lemma NoCloneAtRest(s: State, vmid: int, v: nat)
    requires Agreed(s) && CloningTasked(s) && v !in s.misfiled && !Busy(s.t.ops, v)
    requires vmid in s.machines && s.machines[vmid].owner == Some(v)
    ensures !s.machines[vmid].cloning
  {
    hide OpAgrees, VmAgrees, CallAgrees, CloneHeld, TablesOk, MarkersCalled, TasksUnique, CallsUnique, DraftsOk;
    if s.machines[vmid].cloning {
      var k: nat :| ClonesAt(s, k, vmid, v);
      PendingIsCurrent(s, k);
    }
  }
}
