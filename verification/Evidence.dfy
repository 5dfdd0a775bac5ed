/** Success of a create needs evidence: the provider cloned, configured, sized and started the VM, in that
    order and with the VM's own request, whatever responses were lost on the way. */
module Evidence {
  import opened Domain
  import opened Phases
  import opened Transitions
  import opened Tables
  import opened Evolution
  import opened Protocol
  import opened Invariants
  import opened Agreement

  /** What a create has to make happen, in order. */
  function CreateTrail(spec: VmSpec): seq<Milestone> {
    [Cloned, Configured(spec), Sized(spec.storageGb), Started]
  }

  /** How many of the four commands have taken effect. */
  function Done4(calls: seq<Call>, i: nat): nat {
    (if Effected(calls, i, CloneVm) then 1 else 0) + (if Effected(calls, i, ConfigureVm) then 1 else 0)
    + (if Effected(calls, i, ResizeDisk) then 1 else 0) + (if Effected(calls, i, StartVm) then 1 else 0)
  }

  /** Effects come in script order. */
  predicate InOrder(calls: seq<Call>, i: nat) {
    && (Effected(calls, i, StartVm) ==> Effected(calls, i, ResizeDisk))
    && (Effected(calls, i, ResizeDisk) ==> Effected(calls, i, ConfigureVm))
    && (Effected(calls, i, ConfigureVm) ==> Effected(calls, i, CloneVm))
  }

  /** The finished resource of a VM carries what has been applied so far. */
  predicate MachineHas(machines: map<int, Machine>, vms: seq<Vm>, v: nat, n: nat)
    requires v < |vms|
  {
    vms[v].at.Some? && vms[v].at.value.vmid in machines && Owns(machines[vms[v].at.value.vmid], v)
      && !machines[vms[v].at.value.vmid].cloning ==>
      var m := machines[vms[v].at.value.vmid];
      (n >= 2 ==> m.config == Some(vms[v].spec)) && (n >= 3 ==> m.diskGb == vms[v].spec.storageGb)
  }

  ghost predicate CreateFacts(s: State, i: nat)
    requires i < |s.t.ops| && s.t.ops[i].vm < |s.t.vms| && s.t.ops[i].vm < |s.trails|
  {
    var op := s.t.ops[i];
    var spec, n := s.t.vms[op.vm].spec, Done4(s.calls, i);
    op.kind == Create ==>
      && (Active(op.stage) ==>
            op.vm !in s.misfiled && InOrder(s.calls, i) && s.trails[op.vm] == CreateTrail(spec)[..n])
      && (op.stage.Done? ==> n == 4 && CreateTrail(spec) <= s.trails[op.vm])
      && (!op.stage.Broken? ==> MachineHas(s.machines, s.t.vms, op.vm, n))
  }

  /** A VM has one create operation. */
  predicate UniqueCreates(ops: seq<Op>) {
    forall i, j :: 0 <= i < j < |ops| && ops[i].kind == Create && ops[j].kind == Create ==> ops[i].vm != ops[j].vm
  }

  ghost predicate Proven(s: State) {
    && Agreed(s)
    && UniqueCreates(s.t.ops)
    && (forall v :: v in s.misfiled ==> v < |s.t.vms|)
    && (forall i :: 0 <= i < |s.t.ops| ==> s.t.ops[i].vm < |s.t.vms| && s.t.ops[i].vm < |s.trails| && CreateFacts(s, i))
  }

  lemma InitialProven(plans: map<UserId, Plan>)
    ensures Proven(Initial(plans))
  {
    InitialAgreed(plans);
  }

  // ---- worker transactions ----

  /** Nothing happened at the provider; one operation may have moved. */
  ghost predicate RowsStep(s: State, s': State, i: nat) {
    && i < |s.t.ops| && |s'.t.ops| == |s.t.ops| && |s'.t.vms| == |s.t.vms|
    && s'.trails == s.trails && s'.machines == s.machines
    && SameFates(s.calls, s'.calls, i)
    && s.misfiled <= s'.misfiled <= s.misfiled + {s.t.ops[i].vm}
    && (s'.misfiled != s.misfiled ==> s.t.ops[i].kind == Reboot && Active(s.t.ops[i].stage))
    && (forall n :: 0 <= n < |s.t.ops| && n != i ==> s'.t.ops[n] == s.t.ops[n])
    && s'.t.ops[i].vm == s.t.ops[i].vm && s'.t.ops[i].kind == s.t.ops[i].kind
    && (forall w :: 0 <= w < |s.t.vms| ==>
          s'.t.vms[w].spec == s.t.vms[w].spec && (s.t.vms[w].at.Some? ==> s'.t.vms[w].at == s.t.vms[w].at))
    && (s'.t.ops[i].stage != s.t.ops[i].stage ==> Active(s.t.ops[i].stage))
  }

  lemma InOrderSame(calls: seq<Call>, calls': seq<Call>, n: nat)
    requires forall c :: Effected(calls', n, c) <==> Effected(calls, n, c)
    ensures InOrder(calls', n) <==> InOrder(calls, n)
  {}

  lemma RowsProven(s: State, s': State, i: nat)
    requires Proven(s) && Agreed(s') && RowsStep(s, s', i)
    ensures Proven(s')
  {
    hide Agreed, CreateFacts;
    forall n | 0 <= n < |s'.t.ops|
      ensures s'.t.ops[n].vm < |s'.t.vms| && s'.t.ops[n].vm < |s'.trails| && CreateFacts(s', n)
    {
      RowProven(s, s', i, n);
    }
  }

  lemma RowProven(s: State, s': State, i: nat, n: nat)
    requires Proven(s) && Agreed(s') && RowsStep(s, s', i) && n < |s.t.ops|
    ensures s'.t.ops[n].vm < |s'.t.vms| && s'.t.ops[n].vm < |s'.trails| && CreateFacts(s', n)
  {
    hide MarkersCalled, TasksUnique, CallsUnique, CallsOk, DraftsOk, OpAgrees, VmAgrees, CallAgrees, CloneHeld,
      OwnersPlaced, Effected, InOrder, UniqueVmids, UnplacedPending, CreateTrail;
    assert CreateFacts(s, n);
    forall c ensures Effected(s'.calls, n, c) <==> Effected(s.calls, n, c) {
      EffectedSame(s.calls, s'.calls, i, n, c);
    }
    assert InOrder(s'.calls, n) <==> InOrder(s.calls, n) by { InOrderSame(s.calls, s'.calls, n); }
    if s'.t.ops[n].kind == Create {
      if Active(s'.t.ops[n].stage) && s'.misfiled != s.misfiled {
        assert n != i && s.t.ops[n].vm != s.t.ops[i].vm;
      }
      if s'.t.ops[n].stage.Done? && !s.t.ops[n].stage.Done? {
        AllEffected(s', n);
        AllOfTrail(s.t.vms[s.t.ops[n].vm].spec);
      }
      UnplacedHasNothing(s, s', n);
    }
  }

  lemma AllOfTrail(spec: VmSpec)
    ensures CreateTrail(spec)[..4] == CreateTrail(spec)
  {}

  /** A finished create has the effect of every one of its commands. */
  lemma AllEffected(s: State, n: nat)
    requires Agreed(s) && n < |s.t.ops| && s.t.ops[n].kind == Create && s.t.ops[n].stage.Done?
    requires s.t.ops[n].vm !in s.misfiled
    ensures Done4(s.calls, n) == 4
  {
    forall c | Uses(Create, c) ensures Effected(s.calls, n, c) {
      assert Marked(Create, s.t.ops[n].stage, c);
      assert HasCall(s.calls, n, c);
      var k :| 0 <= k < |s.calls| && s.calls[k].op == n && s.calls[k].cmd == c;
      assert CallAgrees(s, k);
    }
    assert Uses(Create, CloneVm) && Uses(Create, ConfigureVm) && Uses(Create, ResizeDisk) && Uses(Create, StartVm);
  }

  /** Choosing a placement cannot meet a resource that already carries the VM's name. */
  lemma UnplacedHasNothing(s: State, s': State, n: nat)
    requires Agreed(s) && n < |s.t.ops| && s.t.ops[n].vm < |s.t.vms| == |s'.t.vms| && s'.machines == s.machines
    requires forall w :: 0 <= w < |s.t.vms| ==> s.t.vms[w].at.Some? ==> s'.t.vms[w].at == s.t.vms[w].at
    ensures s.t.vms[s.t.ops[n].vm].at.None? ==>
              forall vmid :: vmid in s'.machines ==> !Owns(s'.machines[vmid], s.t.ops[n].vm)
  {}

  // ---- provider steps ----

  /** Call `k` moved on at the provider; only its VM's resource and trail can have changed. */
  ghost predicate CallStep(s: State, s': State, k: nat) {
    && k < |s.calls| && s.calls[k].op < |s.t.ops| && OpVm(s, k) < |s.t.vms| && s'.t == s.t && s'.misfiled == s.misfiled
    && NotYet(s.calls[k].progress)
    && |s'.calls| == |s.calls| && s'.calls == s.calls[k := s.calls[k].(progress := s'.calls[k].progress)]
    && SameElsewhere(s.machines, s'.machines, s.calls[k].at.vmid)
    && |s'.trails| == |s.trails| == |s.t.vms|
    && (forall w :: 0 <= w < |s.trails| && w != OpVm(s, k) ==> s'.trails[w] == s.trails[w])
  }

  /** The four commands of a create that is still waiting at command `c`, before `c` has taken effect. */
  lemma EffectsSoFar(s: State, k: nat)
    requires Proven(s) && k < |s.calls| && NotYet(s.calls[k].progress)
    requires s.t.ops[s.calls[k].op].kind == Create && OpVm(s, k) !in s.misfiled
    ensures var i, c := s.calls[k].op, s.calls[k].cmd;
            && Active(s.t.ops[i].stage) && s.t.ops[i].stage.cmd == c
            && Done4(s.calls, i) == Index(Create, c)
            && forall d :: Uses(Create, d) ==> (Effected(s.calls, i, d) <==> Index(Create, d) < Index(Create, c))
  {
    hide CallsOk, MarkersCalled, CallsUnique, TasksUnique, TablesOk, DraftsOk, OpAgrees, VmAgrees, CloneHeld,
      Effected, CreateFacts, CallAgrees;
    var i, c := s.calls[k].op, s.calls[k].cmd;
    PendingIsCurrent(s, k);
    forall d | Uses(Create, d) ensures Effected(s.calls, i, d) <==> Index(Create, d) < Index(Create, c) {
      if Index(Create, d) < Index(Create, c) {
        EarlierEffected(s, i, d);
      } else {
        LaterUneffected(s, k, d);
      }
    }
    assert Uses(Create, CloneVm) && Uses(Create, ConfigureVm) && Uses(Create, ResizeDisk) && Uses(Create, StartVm);
  }

  /** What an operation has moved past has taken effect. */
  lemma EarlierEffected(s: State, i: nat, d: Command)
    requires Agreed(s) && i < |s.t.ops| && s.t.ops[i].vm !in s.misfiled && s.t.ops[i].kind == Create && Uses(Create, d)
    requires Active(s.t.ops[i].stage) && Index(Create, d) < Index(Create, s.t.ops[i].stage.cmd)
    ensures Effected(s.calls, i, d)
  {
    assert Sound(s.t.ops[i], s.t.vms[s.t.ops[i].vm]);
    assert Marked(Create, s.t.ops[i].stage, d);
    assert HasCall(s.calls, i, d);
    var l :| 0 <= l < |s.calls| && s.calls[l].op == i && s.calls[l].cmd == d;
    assert CallAgrees(s, l);
  }

  /** Neither the command of a call under way nor a later one has taken effect. */
  lemma LaterUneffected(s: State, k: nat, d: Command)
    requires Agreed(s) && k < |s.calls| && NotYet(s.calls[k].progress) && OpVm(s, k) !in s.misfiled
    requires s.t.ops[s.calls[k].op].kind == Create && Uses(Create, d)
             && Index(Create, s.calls[k].cmd) <= Index(Create, d)
    ensures !Effected(s.calls, s.calls[k].op, d)
  {
    hide OpAgrees, VmAgrees, CloneHeld, MarkersCalled, TasksUnique, DraftsOk;
    var i := s.calls[k].op;
    PendingIsCurrent(s, k);
    TheCall(s, k);
    if Effected(s.calls, i, d) {
      var l :| 0 <= l < |s.calls| && s.calls[l].op == i && s.calls[l].cmd == d && Effective(s.calls[l].progress);
      assert CallOk(s.t, s.calls[l]) && CallOk(s.t, s.calls[k]);
      IndexInjective(Create, d, s.calls[k].cmd);
    }
  }

  /** Effects of the operation after one of its calls moved on. */
  lemma EffectedAfter(calls: seq<Call>, calls': seq<Call>, k: nat, d: Command)
    requires k < |calls| && |calls'| == |calls| && calls' == calls[k := calls[k].(progress := calls'[k].progress)]
    requires CallsUnique(calls')
    ensures Effected(calls', calls[k].op, d) <==>
            if d == calls[k].cmd then Effective(calls'[k].progress) else Effected(calls, calls[k].op, d)
  {
    var i := calls[k].op;
    if d == calls[k].cmd {
      assert calls'[k].op == i && calls'[k].cmd == d;
    } else {
      if Effected(calls, i, d) {
        var l :| 0 <= l < |calls| && calls[l].op == i && calls[l].cmd == d && Effective(calls[l].progress);
        assert calls'[l] == calls[l];
      }
      if Effected(calls', i, d) {
        var l :| 0 <= l < |calls'| && calls'[l].op == i && calls'[l].cmd == d && Effective(calls'[l].progress);
        assert calls[l] == calls'[l];
      }
    }
  }

  /** Creates on other VMs, and finished creates whose VM another operation is working on. */
  lemma OtherCreates(s: State, s': State, k: nat, n: nat)
    requires Proven(s) && Inv(s') && CallStep(s, s', k) && n < |s.t.ops| && n != s.calls[k].op
    requires s.trails[OpVm(s, k)] <= s'.trails[OpVm(s, k)]
    requires s.t.ops[s.calls[k].op].kind != Create ==> KeepsContents(s.machines, s'.machines)
    ensures CreateFacts(s', n)
  {
    assert CreateFacts(s, n);
    forall c ensures Effected(s'.calls, n, c) <==> Effected(s.calls, n, c)
    { OtherEffected(s.calls, s'.calls, k, n, c); }
    if s.t.ops[n].kind == Create {
      if s.t.ops[n].vm == OpVm(s, k) {
        if Active(s.t.ops[n].stage) { PendingIsCurrent(s, k); }
      } else {
        assert CallOk(s.t, s.calls[k]);
        ElsewhereHas(s, s', k, s.t.ops[n].vm);
      }
    }
  }

  lemma ElsewhereHas(s: State, s': State, k: nat, w: nat)
    requires Inv(s) && CallStep(s, s', k) && w < |s.t.vms| && w != OpVm(s, k)
    ensures forall n :: MachineHas(s'.machines, s.t.vms, w, n) <==> MachineHas(s.machines, s.t.vms, w, n)
  {
    assert CallOk(s.t, s.calls[k]);
  }

  /** Power commands and removal do not touch what was configured. */
  ghost predicate KeepsContents(machines: map<int, Machine>, machines': map<int, Machine>) {
    forall x :: x in machines' ==>
      && x in machines && machines'[x].owner == machines[x].owner && machines'[x].cloning == machines[x].cloning
      && machines'[x].config == machines[x].config && machines'[x].diskGb == machines[x].diskGb
  }

  lemma CallStepProven(s: State, s': State, k: nat)
    requires Proven(s) && Agreed(s') && CallStep(s, s', k)
    requires s.trails[OpVm(s, k)] <= s'.trails[OpVm(s, k)]
    requires s.t.ops[s.calls[k].op].kind != Create ==> KeepsContents(s.machines, s'.machines)
    requires CreateFacts(s', s.calls[k].op)
    ensures Proven(s')
  {
    hide CreateFacts, CallStep, KeepsContents;
    CallStepSame(s, s', k);
    forall n | 0 <= n < |s'.t.ops|
      ensures s'.t.ops[n].vm < |s'.t.vms| && s'.t.ops[n].vm < |s'.trails| && CreateFacts(s', n)
    {
      if n != s.calls[k].op { OtherCreates(s, s', k, n); }
    }
  }

  lemma CallStepSame(s: State, s': State, k: nat)
    requires CallStep(s, s', k)
    ensures k < |s.calls| && s'.t == s.t && s'.misfiled == s.misfiled && |s'.trails| == |s.trails| == |s.t.vms|
  {}

  lemma ApplyShape(s: State, k: nat)
    requires Agreed(s) && CanApply(s, k)
    ensures CallStep(s, DoApply(s, k), k) && Effective(DoApply(s, k).calls[k].progress)
    ensures DoApply(s, k).trails[OpVm(s, k)] == s.trails[OpVm(s, k)]
              + [MilestoneOf(s.calls[k].cmd, s.t.vms[OpVm(s, k)].spec)]
    ensures s.t.ops[s.calls[k].op].kind != Create ==> KeepsContents(s.machines, DoApply(s, k).machines)
  {
    hide OpAgrees, VmAgrees, CallAgrees, CloneHeld, MarkersCalled, TasksUnique, TablesOk;
    assert CallOk(s.t, s.calls[k]);
  }

  lemma ApplyProven(s: State, k: nat)
    requires Proven(s) && CanApply(s, k)
    ensures Proven(DoApply(s, k))
  {
    hide OpAgrees, VmAgrees, CallAgrees, CloneHeld, Inv, CreateFacts, CallStep, KeepsContents, OwnersPlaced, Change;
    ApplyAgreed(s, k);
    ApplyShape(s, k);
    if s.t.ops[s.calls[k].op].kind == Create && OpVm(s, k) !in s.misfiled { OwnApplyMachine(s, k); }
    OwnStep(s, DoApply(s, k), k);
    CallStepProven(s, DoApply(s, k), k);
  }

  /** The create whose own call moved on: one more effect means one more milestone. */
  lemma OwnStep(s: State, s': State, k: nat)
    requires Proven(s) && Inv(s') && CallStep(s, s', k)
    requires s'.trails[OpVm(s, k)] == s.trails[OpVm(s, k)]
               + if Effective(s'.calls[k].progress) then [MilestoneOf(s.calls[k].cmd, s.t.vms[OpVm(s, k)].spec)] else []
    requires s.t.ops[s.calls[k].op].kind == Create && OpVm(s, k) !in s.misfiled ==>
               MachineHas(s'.machines, s.t.vms, OpVm(s, k),
                          Index(Create, s.calls[k].cmd) + if Effective(s'.calls[k].progress) then 1 else 0)
    ensures CreateFacts(s', s.calls[k].op)
  {
    hide OpAgrees, VmAgrees, CallAgrees, CloneHeld, MarkersCalled, TasksUnique, MachineHas, SameElsewhere,
      DraftsOk, OwnersPlaced, UniqueVmids, UnplacedPending, OneActive, Effected, CallsUnique;
    var i, c := s.calls[k].op, s.calls[k].cmd;
    assert CreateFacts(s, i) && CallOk(s.t, s.calls[k]);
    OwnEffects(s, s', k);
    if s.t.ops[i].kind == Create && Active(s.t.ops[i].stage) {
      EffectsSoFar(s, k);
      TrailGrows(s.t.vms[OpVm(s, k)].spec, c);
    }
  }

  lemma OwnEffects(s: State, s': State, k: nat)
    requires Inv(s) && Inv(s') && CallStep(s, s', k)
    ensures forall d :: Effected(s'.calls, s.calls[k].op, d) <==>
                        if d == s.calls[k].cmd then Effective(s'.calls[k].progress)
                        else Effected(s.calls, s.calls[k].op, d)
    ensures !Effected(s.calls, s.calls[k].op, s.calls[k].cmd)
  {
    forall d ensures Effected(s'.calls, s.calls[k].op, d) <==>
                     if d == s.calls[k].cmd then Effective(s'.calls[k].progress)
                     else Effected(s.calls, s.calls[k].op, d) {
      EffectedAfter(s.calls, s'.calls, k, d);
    }
    TheCall(s, k);
  }

  lemma TrailGrows(spec: VmSpec, c: Command)
    requires Uses(Create, c)
    ensures CreateTrail(spec)[..Index(Create, c)] + [MilestoneOf(c, spec)] == CreateTrail(spec)[..Index(Create, c) + 1]
  {}

  lemma OwnApplyMachine(s: State, k: nat)
    requires Proven(s) && CanApply(s, k) && OpVm(s, k) !in s.misfiled
    requires s.t.ops[s.calls[k].op].kind == Create
    ensures MachineHas(DoApply(s, k).machines, s.t.vms, OpVm(s, k), Index(Create, s.calls[k].cmd) + 1)
  {
    assert CallOk(s.t, s.calls[k]);
    EffectsSoFar(s, k);
    assert CreateFacts(s, s.calls[k].op);
  }

  // ---- the other provider events ----

  lemma EffectShape(s: State, k: nat, id: TaskId, instant: bool, gb: int)
    requires Agreed(s) && CanReach(s, k, id)
    ensures var s' := DoEffect(s, k, id, instant, gb);
            && CallStep(s, s', k)
            && s'.trails[OpVm(s, k)] == s.trails[OpVm(s, k)]
                 + (if Effective(s'.calls[k].progress) then [MilestoneOf(s.calls[k].cmd, s.t.vms[OpVm(s, k)].spec)]
                    else [])
            && (s.t.ops[s.calls[k].op].kind != Create ==> KeepsContents(s.machines, s'.machines))
  {
    hide OpAgrees, VmAgrees, CallAgrees, CloneHeld, MarkersCalled, TasksUnique, TablesOk, DraftsOk, CallsUnique,
      OwnersPlaced;
    assert CallOk(s.t, s.calls[k]);
  }

  lemma EffectProven(s: State, k: nat, id: TaskId, instant: bool, gb: int)
    requires Proven(s) && CanReach(s, k, id)
    ensures Proven(DoEffect(s, k, id, instant, gb))
  {
    hide OpAgrees, VmAgrees, CallAgrees, CloneHeld, Inv, CreateFacts, CallStep, KeepsContents, OwnersPlaced, Change,
      Attempt;
    EffectAgreed(s, k, id, instant, gb);
    EffectShape(s, k, id, instant, gb);
    if s.t.ops[s.calls[k].op].kind == Create && OpVm(s, k) !in s.misfiled { OwnEffectMachine(s, k, id, instant, gb); }
    OwnStep(s, DoEffect(s, k, id, instant, gb), k);
    CallStepProven(s, DoEffect(s, k, id, instant, gb), k);
  }

  lemma OwnEffectMachine(s: State, k: nat, id: TaskId, instant: bool, gb: int)
    requires Proven(s) && CanReach(s, k, id) && OpVm(s, k) !in s.misfiled
    requires s.t.ops[s.calls[k].op].kind == Create
    ensures var s' := DoEffect(s, k, id, instant, gb);
            MachineHas(s'.machines, s.t.vms, OpVm(s, k),
                       Index(Create, s.calls[k].cmd) + if Effective(s'.calls[k].progress) then 1 else 0)
  {
    assert CallOk(s.t, s.calls[k]);
    EffectsSoFar(s, k);
    assert CreateFacts(s, s.calls[k].op);
  }

  lemma AbortShape(s: State, k: nat)
    requires Agreed(s) && CanAbort(s, k)
    ensures var s' := DoAbort(s, k);
            && CallStep(s, s', k) && !Effective(s'.calls[k].progress)
            && s'.trails[OpVm(s, k)] == s.trails[OpVm(s, k)] + []
            && (s.t.ops[s.calls[k].op].kind != Create ==> KeepsContents(s.machines, s'.machines))
  {
    hide OpAgrees, VmAgrees, CallAgrees, CloneHeld, MarkersCalled, TasksUnique, TablesOk;
    assert CallOk(s.t, s.calls[k]);
  }

  lemma AbortProven(s: State, k: nat)
    requires Proven(s) && CanAbort(s, k)
    ensures Proven(DoAbort(s, k))
  {
    hide OpAgrees, VmAgrees, CallAgrees, CloneHeld, CreateFacts, CallStep, KeepsContents, OwnersPlaced;
    AbortAgreed(s, k);
    AbortShape(s, k);
    if s.t.ops[s.calls[k].op].kind == Create && OpVm(s, k) !in s.misfiled { OwnAbortMachine(s, k); }
    OwnStep(s, DoAbort(s, k), k);
    CallStepProven(s, DoAbort(s, k), k);
  }

  lemma OwnAbortMachine(s: State, k: nat)
    requires Proven(s) && CanAbort(s, k) && OpVm(s, k) !in s.misfiled
    requires s.t.ops[s.calls[k].op].kind == Create
    ensures MachineHas(DoAbort(s, k).machines, s.t.vms, OpVm(s, k), Index(Create, s.calls[k].cmd))
  {
    assert CallOk(s.t, s.calls[k]);
    EffectsSoFar(s, k);
    assert CreateFacts(s, s.calls[k].op);
  }

  /** Every call, resource and trail is as before, up to which worker waits and which task has ended. */
  ghost predicate QuietStep(s: State, s': State) {
    && s'.trails == s.trails && s'.misfiled == s.misfiled && |s'.calls| == |s.calls|
    && |s.t.ops| <= |s'.t.ops| && s'.t.ops[..|s.t.ops|] == s.t.ops && s'.t.vms == s.t.vms
    && (forall k :: 0 <= k < |s.calls| ==>
          s'.calls[k].op == s.calls[k].op && s'.calls[k].cmd == s.calls[k].cmd
          && (Effective(s'.calls[k].progress) <==> Effective(s.calls[k].progress)))
    && (forall n :: |s.t.ops| <= n < |s'.t.ops| ==> s'.t.ops[n].kind != Create)
    && SameContents(s.machines, s'.machines)
  }

  ghost predicate SameContents(machines: map<int, Machine>, machines': map<int, Machine>) {
    forall x :: x in machines' && machines'[x].owner.Some? ==>
      && x in machines && machines'[x].owner == machines[x].owner && machines'[x].cloning == machines[x].cloning
      && machines'[x].config == machines[x].config && machines'[x].diskGb == machines[x].diskGb
  }

  lemma QuietEffects(calls: seq<Call>, calls': seq<Call>, n: nat, c: Command)
    requires |calls'| == |calls|
    requires forall k :: 0 <= k < |calls| ==>
               calls'[k].op == calls[k].op && calls'[k].cmd == calls[k].cmd
               && (Effective(calls'[k].progress) <==> Effective(calls[k].progress))
    ensures Effected(calls', n, c) <==> Effected(calls, n, c)
  {
    if Effected(calls, n, c) {
      var k :| 0 <= k < |calls| && calls[k].op == n && calls[k].cmd == c && Effective(calls[k].progress);
      assert calls'[k].op == n;
    }
  }

  lemma QuietProven(s: State, s': State)
    requires Proven(s) && Agreed(s') && QuietStep(s, s')
    ensures Proven(s')
  {
    hide OpAgrees, VmAgrees, CallAgrees, CloneHeld, OwnersPlaced, MarkersCalled, TasksUnique, CallsOk, CallsUnique,
      CreateTrail;
    forall n | 0 <= n < |s'.t.ops|
      ensures s'.t.ops[n].vm < |s'.t.vms| && s'.t.ops[n].vm < |s'.trails| && CreateFacts(s', n)
    {
      if n < |s.t.ops| {
        assert s'.t.ops[n] == s'.t.ops[..|s.t.ops|][n];
        assert CreateFacts(s, n);
        forall c ensures Effected(s'.calls, n, c) <==> Effected(s.calls, n, c)
        { QuietEffects(s.calls, s'.calls, n, c); }
      }
    }
    forall i, j | 0 <= i < j < |s'.t.ops| && s'.t.ops[i].kind == Create && s'.t.ops[j].kind == Create
      ensures s'.t.ops[i].vm != s'.t.ops[j].vm
    {
      assert s'.t.ops[i] == s'.t.ops[..|s.t.ops|][i] && s'.t.ops[j] == s'.t.ops[..|s.t.ops|][j];
    }
  }

  lemma InsertCreateProven(s: State, d: nat)
    requires Proven(s) && d < |s.drafts| && s.drafts[d].OpenCreate?
    ensures Proven(DoInsertCreate(s, d))
  {
    hide OpAgrees, VmAgrees, CallAgrees, CloneHeld, MarkersCalled, TasksUnique, CallsUnique, CallsOk, DraftsOk,
      OneActive, Sound, Effected, KeyFree;
    var s' := DoInsertCreate(s, d);
    InsertCreateAgreed(s, d);
    if KeyFree(s.t.ops, s.drafts[d].key) {
      forall n | 0 <= n < |s'.t.ops|
        ensures s'.t.ops[n].vm < |s'.t.vms| && s'.t.ops[n].vm < |s'.trails| && CreateFacts(s', n)
      {
        if n < |s.t.ops| { assert CreateFacts(s, n); }
        else { NewOpUncalled(s, s'); }
      }
    } else {
      QuietProven(s, s');
    }
  }

  lemma PassProven(s: State, i: nat, now: Time, answers: Answers)
    requires Proven(s) && i < |s.t.ops| && Selectable(s.t.ops[i], now) && Agreed(DoPass(s, i, answers))
    ensures Proven(DoPass(s, i, answers))
  {
    hide OpAgrees, VmAgrees, CallAgrees, CloneHeld, CreateFacts, OwnersPlaced, MarkersCalled, TasksUnique, CallsUnique,
      FirstPass, Selectable;
    PassRows(s, i, now, answers);
    RowsProven(s, DoPass(s, i, answers), i);
  }

  lemma PassRows(s: State, i: nat, now: Time, answers: Answers)
    requires Inv(s) && i < |s.t.ops| && Selectable(s.t.ops[i], now)
    ensures RowsStep(s, DoPass(s, i, answers), i)
  {
    hide CallsOk, MarkersCalled, TasksUnique, CallsUnique, FirstPass, Truthful, Sound, Sends;
    assert Sound(s.t.ops[i], s.t.vms[s.t.ops[i].vm]);
    PassEvolves(s.t.ops[i], s.t.vms[s.t.ops[i].vm], now, answers, s.clock);
  }

  lemma FinishRows(s: State, k: nat)
    requires Inv(s) && CanFinish(s, k)
    ensures RowsStep(s, DoFinish(s, k), s.calls[k].op)
  {
    hide CallsOk, MarkersCalled, TasksUnique, CallsUnique, Settle, Sound;
    var i := s.calls[k].op;
    assert Sound(s.t.ops[i], s.t.vms[s.t.ops[i].vm]);
    SettleEvolves(s.t.ops[i], s.t.vms[OpVm(s, k)], s.calls[k].cmd, ResultOf(s.calls[k]).value, s.clock);
    if Misfiles(s, k) { MisfiledIsReboot(s, k); }
  }

  /** Only a reboot can take the result of its other command. */
  lemma MisfiledIsReboot(s: State, k: nat)
    requires Inv(s) && CanFinish(s, k) && Misfiles(s, k)
    ensures s.t.ops[s.calls[k].op].kind == Reboot && Active(s.t.ops[s.calls[k].op].stage)
  {
    assert CallOk(s.t, s.calls[k]) && Sound(s.t.ops[s.calls[k].op], s.t.vms[OpVm(s, k)]);
  }

  lemma FailRows(s: State, k: nat)
    requires Inv(s) && CanFail(s, k)
    ensures RowsStep(s, s.(t := Transact(s.t, s.calls[k].op, LoseOf(s, k)), calls := Detach(s.calls, k)), s.calls[k].op)
  {
    hide CallsOk, MarkersCalled, TasksUnique, CallsUnique, Lose, Sound;
    var i := s.calls[k].op;
    assert Sound(s.t.ops[i], s.t.vms[s.t.ops[i].vm]);
    SettleEvolves(s.t.ops[i], s.t.vms[OpVm(s, k)], s.calls[k].cmd, NoTask, s.clock);
  }

  lemma StepProven(s: State, e: Event)
    requires Proven(s)
    ensures Proven(Do(s, e))
  {
    hide OpAgrees, VmAgrees, CallAgrees, CloneHeld, CreateFacts, OwnersPlaced, Inv, RowsStep,
      DoPass, DoEffect, DoFinish, DoApply, DoAbort, DoInsertCreate, Transact;
    StepAgreed(s, e);
    if Enabled(s, e) {
      match e
      case InsertCreate(d) => InsertCreateProven(s, d);
      case Pass(i, now, read, answers) => PassProven(s, i, now, answers);
      case Effect(k, id, instant, gb) => EffectProven(s, k, id, instant, gb);
      case Finish(k) => FinishRows(s, k); RowsProven(s, Do(s, e), s.calls[k].op);
      case Fail(k) => FailRows(s, k); RowsProven(s, Do(s, e), s.calls[k].op);
      case TaskApply(k) => ApplyProven(s, k);
      case TaskAbort(k) => AbortProven(s, k);
      case _ => QuietEvent(s, e); QuietProven(s, Do(s, e));
    }
  }

  lemma QuietEvent(s: State, e: Event)
    requires Inv(s) && Enabled(s, e)
    requires e.Appear? || e.Vanish? || e.SetLock? || e.SetQuota? || e.AddKey? || e.Tick? || e.CheckCreate?
             || e.CheckEnqueue? || e.InsertEnqueue? || e.Crash? || e.TaskEnd?
    ensures QuietStep(s, Do(s, e))
  {
    hide CallsOk, MarkersCalled, TasksUnique, CallsUnique, TablesOk, DoInsertEnqueue, Within, TotalUsage, Busy, Allowed,
      KeyFree, QuotaLocked, VmLocked, ValidSpec;
    if e.InsertEnqueue? { QuietInsert(s, e.draft); }
  }

  lemma QuietInsert(s: State, d: nat)
    requires Inv(s) && d < |s.drafts| && s.drafts[d].OpenEnqueue?
    ensures QuietStep(s, DoInsertEnqueue(s, d))
  {
    hide CallsOk, MarkersCalled, TasksUnique, CallsUnique, TablesOk, KeyFree;
    assert DraftOk(s.t, s.drafts[d]);
  }

  lemma {:induction false} RunProven(plans: map<UserId, Plan>, events: seq<Event>)
    ensures Proven(Run(Initial(plans), events))
  {
    if events == [] {
      InitialProven(plans);
    } else {
      RunProven(plans, events[..|events| - 1]);
      StepProven(Run(Initial(plans), events[..|events| - 1]), events[|events| - 1]);
    }
  }

  /** The VM of create `i` was cloned, configured with its own request, sized to its disk and started at the
      provider, in that order; and a finished resource at the saved VMID that still carries its name has that
      configuration and disk. */
  predicate HasEvidence(s: State, i: nat)
    requires i < |s.t.ops|
  {
    var v := s.t.ops[i].vm;
    && v < |s.t.vms| && v < |s.trails| && s.t.vms[v].at.Some?
    && [Cloned, Configured(s.t.vms[v].spec), Sized(s.t.vms[v].spec.storageGb), Started] <= s.trails[v]
    && (var at := s.t.vms[v].at.value;
        at.vmid in s.machines && Owns(s.machines[at.vmid], v) && !s.machines[at.vmid].cloning ==>
          && s.machines[at.vmid].config == Some(s.t.vms[v].spec)
          && s.machines[at.vmid].diskGb == s.t.vms[v].spec.storageGb)
  }

  lemma ProvenHasEvidence(s: State, i: nat)
    requires Proven(s) && i < |s.t.ops| && s.t.ops[i].kind == Create && s.t.ops[i].stage.Done?
    ensures HasEvidence(s, i)
  {
    hide OpAgrees, VmAgrees, CallAgrees, CloneHeld, MarkersCalled, TasksUnique, CallsUnique, CallsOk, DraftsOk;
    assert CreateFacts(s, i) && Sound(s.t.ops[i], s.t.vms[s.t.ops[i].vm]);
  }

  /** In every run a create that succeeded has this evidence. */
  lemma SucceededCreateHasEvidence(plans: map<UserId, Plan>, events: seq<Event>, i: nat)
    requires i < |Run(Initial(plans), events).t.ops|
    requires Run(Initial(plans), events).t.ops[i].kind == Create && Run(Initial(plans), events).t.ops[i].stage.Done?
    ensures HasEvidence(Run(Initial(plans), events), i)
  {
    hide Proven, HasEvidence;
    RunProven(plans, events);
    ProvenHasEvidence(Run(Initial(plans), events), i);
  }
}
