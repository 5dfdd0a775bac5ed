/** Runs from the initial state that show the theorems about runs speak of something: a create brought to a
    running VM at rest, and from there the late reboot that leaves it stopped. */
module Witness {
  import opened Domain
  import opened Phases
  import opened Transitions
  import opened Tables
  import opened Protocol
  import opened Agreement
  import opened Requests
  import opened Misfiling
  import opened Invariants
  import opened Grace
  import opened Queue
  import opened InFlight
  import opened Progression

  const NODE := "node"
  const HOME := Placement(NODE, 100)

  /** A state with one create, its one VM and what the provider did for it; no time has passed. */
  datatype Stand = Stand(
    plans: map<UserId, Plan>, user: UserId, spec: VmSpec, stage: Stage, attempts: nat, status: VmStatus,
    at: Option<Placement>, calls: seq<Call>, machines: map<int, Machine>, trail: seq<Milestone>)

  function StateOf(w: Stand): State {
    State(Tables([Op(0, Create, w.stage, "create", w.attempts, None, 0)], [Vm(w.user, 0, w.spec, w.status, w.at)]),
          w.calls, [Closed], w.machines, [w.trail], {}, {}, w.plans, map[w.spec.sshKey := w.user], 0)
  }

  function CallOf(w: Stand, c: Command, attached: bool, progress: Progress): Call {
    Call(0, c, HOME, w.spec, 0, attached, progress)
  }

  // ---- single events ----

  /** The initial state once the user's key is known, and once the request is checked. */
  function Known(plans: map<UserId, Plan>, user: UserId, spec: VmSpec): State {
    Initial(plans).(keys := map[spec.sshKey := user])
  }

  function Checked(plans: map<UserId, Plan>, user: UserId, spec: VmSpec): State {
    Known(plans, user, spec).(drafts := [OpenCreate(user, spec, "create", 0)])
  }

  lemma CheckFirst(plans: map<UserId, Plan>, user: UserId, spec: VmSpec)
    requires user in plans && ValidSpec(spec) && Within(Asked(spec), plans[user])
    ensures Do(Known(plans, user, spec), CheckCreate(user, spec, "create", 0)) == Checked(plans, user, spec)
  {}

  lemma InsertFirst(plans: map<UserId, Plan>, user: UserId, spec: VmSpec)
    ensures Do(Checked(plans, user, spec), InsertCreate(0))
         == StateOf(Stand(plans, user, spec, Queued(CloneVm), 0, VmPending, None, [], map[], []))
  {}

  lemma KeyFirst(plans: map<UserId, Plan>, user: UserId, spec: VmSpec)
    ensures Do(Initial(plans), AddKey(spec.sshKey, user)) == Known(plans, user, spec)
  {}

  lemma Accept(plans: map<UserId, Plan>, user: UserId, spec: VmSpec)
    requires user in plans && ValidSpec(spec) && Within(Asked(spec), plans[user])
    ensures Run(Initial(plans), [AddKey(spec.sshKey, user), CheckCreate(user, spec, "create", 0), InsertCreate(0)])
         == StateOf(Stand(plans, user, spec, Queued(CloneVm), 0, VmPending, None, [], map[], []))
  {
    hide Do, StateOf, Known, Checked, Initial, ValidSpec, Within;
    KeyFirst(plans, user, spec);
    CheckFirst(plans, user, spec);
    InsertFirst(plans, user, spec);
    RunThree(Initial(plans), AddKey(spec.sshKey, user), CheckCreate(user, spec, "create", 0), InsertCreate(0));
  }

  lemma Place(w: Stand)
    requires w.stage == Queued(CloneVm) && w.at == None
    ensures Do(StateOf(w), Pass(0, 0, 0, NO_ANSWERS.(target := Target(HOME)))) == StateOf(w.(at := Some(HOME)))
  {}

  lemma MarkNext(w: Stand, c: Command)
    requires w.stage == Queued(c) && w.at == Some(HOME) && c != DeleteVm
    ensures Do(StateOf(w), Pass(0, 0, 0, NO_ANSWERS))
         == StateOf(w.(stage := Dispatched(c), attempts := w.attempts + 1,
                       calls := w.calls + [CallOf(w, c, true, Sent)]))
  {}

  lemma ReachTask(w: Stand, cs: seq<Call>, c: Command, id: TaskId)
    requires w.stage == Dispatched(c) && w.calls == cs + [CallOf(w, c, true, Sent)] && FreshTask(cs, id)
    requires (c == CloneVm && w.machines == map[]) || (c == StartVm && w.machines == map[100 := Finished(w, false)])
    ensures Do(StateOf(w), Effect(|cs|, id, true, w.spec.storageGb))
         == StateOf(w.(calls := cs + [CallOf(w, c, true, Tasked(id, Waiting))],
                       machines := if c == CloneVm then map[100 := Fresh(w, true)] else w.machines))
  {}

  /** The resource after its clone, and after configure and resize. */
  function Fresh(w: Stand, cloning: bool): Machine {
    Machine(Some(0), false, cloning, false, w.spec.storageGb, None)
  }

  function Finished(w: Stand, running: bool): Machine {
    Machine(Some(0), running, false, false, w.spec.storageGb, Some(w.spec))
  }

  lemma ApplyTask(w: Stand, cs: seq<Call>, c: Command, id: TaskId)
    requires w.stage == Dispatched(c) && w.calls == cs + [CallOf(w, c, true, Tasked(id, Waiting))]
    requires w.machines == map[100 := if c == CloneVm then Fresh(w, true) else Finished(w, false)]
    requires c == CloneVm || c == StartVm
    ensures Do(StateOf(w), TaskApply(|cs|))
         == StateOf(w.(calls := cs + [CallOf(w, c, true, Tasked(id, Applied))],
                       trail := w.trail + [MilestoneOf(c, w.spec)],
                       machines := map[100 := if c == CloneVm then Fresh(w, false) else Finished(w, true)]))
  {}

  lemma EndTask(w: Stand, cs: seq<Call>, c: Command, id: TaskId)
    requires w.calls == cs + [CallOf(w, c, true, Tasked(id, Applied))]
    ensures Do(StateOf(w), TaskEnd(|cs|)) == StateOf(w.(calls := cs + [CallOf(w, c, true, Tasked(id, Ended))]))
  {}

  lemma StoreTask(w: Stand, cs: seq<Call>, c: Command, id: TaskId)
    requires w.stage == Dispatched(c) && w.at == Some(HOME) && w.calls == cs + [CallOf(w, c, true, Tasked(id, Ended))]
    requires (c == CloneVm || c == StartVm)
    ensures Do(StateOf(w), Finish(|cs|))
         == StateOf(w.(stage := Awaiting(c, id, false), calls := cs + [CallOf(w, c, false, Tasked(id, Ended))],
                       status := if c == CloneVm then VmProvisioning else w.status))
  {}

  lemma PollTask(w: Stand, cs: seq<Call>, c: Command, id: TaskId)
    requires w.stage == Awaiting(c, id, false) && w.at == Some(HOME)
             && w.calls == cs + [CallOf(w, c, false, Tasked(id, Ended))]
    requires (c == CloneVm || c == StartVm)
    ensures Do(StateOf(w), Pass(0, 0, 0, NO_ANSWERS.(task := TaskSucceeded)))
         == StateOf(w.(stage := NextStage(Create, c), status := if c == CloneVm then w.status else VmRunning))
  {
    var s := StateOf(w);
    assert s.calls[|cs|].progress == Tasked(id, Ended);
  }

  lemma ReachInstant(w: Stand, cs: seq<Call>, c: Command)
    requires w.stage == Dispatched(c) && w.calls == cs + [CallOf(w, c, true, Sent)] && FreshTask(cs, "")
    requires w.spec.storageGb > 0
    requires (c == ConfigureVm && w.machines == map[100 := Fresh(w, false)])
             || (c == ResizeDisk && w.machines == map[100 := Finished(w, false)])
    ensures Do(StateOf(w), Effect(|cs|, "", true, 0))
         == StateOf(w.(calls := cs + [CallOf(w, c, true, Instant)], trail := w.trail + [MilestoneOf(c, w.spec)],
                       machines := map[100 := Finished(w, false)]))
  {}

  lemma StoreInstant(w: Stand, cs: seq<Call>, c: Command)
    requires w.stage == Dispatched(c) && w.at == Some(HOME) && w.calls == cs + [CallOf(w, c, true, Instant)]
    requires c == ConfigureVm || c == ResizeDisk
    ensures Do(StateOf(w), Finish(|cs|))
         == StateOf(w.(stage := NextStage(Create, c), calls := cs + [CallOf(w, c, false, Instant)]))
  {}

  // ---- a whole command ----

  function TaskEvents(k: nat, id: TaskId, gb: int): seq<Event> {
    [Pass(0, 0, 0, NO_ANSWERS), Effect(k, id, true, gb), TaskApply(k), TaskEnd(k), Finish(k),
     Pass(0, 0, 0, NO_ANSWERS.(task := TaskSucceeded))]
  }

  function InstantEvents(k: nat): seq<Event> {
    [Pass(0, 0, 0, NO_ANSWERS), Effect(k, "", true, 0), Finish(k)]
  }

  lemma RunTwo(s: State, a: Event, b: Event)
    ensures Run(s, [a, b]) == Do(Do(s, a), b)
  {
    RunStep(s, [], a);
    RunStep(s, [a], b);
    assert [] + [a] == [a] && [a] + [b] == [a, b];
  }

  lemma RunThree(s: State, a: Event, b: Event, c: Event)
    ensures Run(s, [a, b, c]) == Do(Do(Do(s, a), b), c)
  {
    RunTwo(s, a, b);
    RunStep(s, [a, b], c);
    assert [a, b] + [c] == [a, b, c];
  }

  /** Where a clone or start leaves things. */
  function AfterTask(w: Stand, c: Command, id: TaskId): Stand {
    w.(stage := NextStage(Create, c), attempts := w.attempts + 1,
       calls := w.calls + [CallOf(w, c, false, Tasked(id, Ended))],
       machines := map[100 := if c == CloneVm then Fresh(w, false) else Finished(w, true)],
       trail := w.trail + [MilestoneOf(c, w.spec)],
       status := if c == CloneVm then VmProvisioning else VmRunning)
  }

  lemma TaskRound(w: Stand, c: Command, id: TaskId)
    requires w.stage == Queued(c) && w.at == Some(HOME) && FreshTask(w.calls, id)
    requires (c == CloneVm && w.machines == map[]) || (c == StartVm && w.machines == map[100 := Finished(w, false)])
    ensures Run(StateOf(w), TaskEvents(|w.calls|, id, w.spec.storageGb)) == StateOf(AfterTask(w, c, id))
  {
    hide Do, StateOf;
    var cs, k, gb := w.calls, |w.calls|, w.spec.storageGb;
    var w1 := w.(stage := Dispatched(c), attempts := w.attempts + 1, calls := cs + [CallOf(w, c, true, Sent)]);
    var w2 := w1.(calls := cs + [CallOf(w, c, true, Tasked(id, Waiting))],
                  machines := if c == CloneVm then map[100 := Fresh(w, true)] else w.machines);
    var w3 := w2.(calls := cs + [CallOf(w, c, true, Tasked(id, Applied))], trail := w.trail + [MilestoneOf(c, w.spec)],
                  machines := map[100 := if c == CloneVm then Fresh(w, false) else Finished(w, true)]);
    var w4 := w3.(calls := cs + [CallOf(w, c, true, Tasked(id, Ended))]);
    var w5 := w4.(stage := Awaiting(c, id, false), calls := cs + [CallOf(w, c, false, Tasked(id, Ended))],
                  status := if c == CloneVm then VmProvisioning else w.status);
    MarkNext(w, c);
    ReachTask(w1, cs, c, id);
    ApplyTask(w2, cs, c, id);
    EndTask(w3, cs, c, id);
    StoreTask(w4, cs, c, id);
    PollTask(w5, cs, c, id);
    RunThree(StateOf(w), Pass(0, 0, 0, NO_ANSWERS), Effect(k, id, true, gb), TaskApply(k));
    RunThree(StateOf(w3), TaskEnd(k), Finish(k), Pass(0, 0, 0, NO_ANSWERS.(task := TaskSucceeded)));
    var first := [Pass(0, 0, 0, NO_ANSWERS), Effect(k, id, true, gb), TaskApply(k)];
    var second := [TaskEnd(k), Finish(k), Pass(0, 0, 0, NO_ANSWERS.(task := TaskSucceeded))];
    RunSplits(StateOf(w), first, second);
    assert first + second == TaskEvents(k, id, gb);
  }

  /** Where a configure or resize leaves things. */
  function AfterInstant(w: Stand, c: Command): Stand {
    w.(stage := NextStage(Create, c), attempts := w.attempts + 1, calls := w.calls + [CallOf(w, c, false, Instant)],
       machines := map[100 := Finished(w, false)], trail := w.trail + [MilestoneOf(c, w.spec)])
  }

  lemma InstantRound(w: Stand, c: Command)
    requires w.stage == Queued(c) && w.at == Some(HOME) && FreshTask(w.calls, "") && w.spec.storageGb > 0
    requires (c == ConfigureVm && w.machines == map[100 := Fresh(w, false)])
             || (c == ResizeDisk && w.machines == map[100 := Finished(w, false)])
    ensures Run(StateOf(w), InstantEvents(|w.calls|)) == StateOf(AfterInstant(w, c))
  {
    hide Do, StateOf;
    var cs, k := w.calls, |w.calls|;
    var w1 := w.(stage := Dispatched(c), attempts := w.attempts + 1, calls := cs + [CallOf(w, c, true, Sent)]);
    var w2 := w1.(calls := cs + [CallOf(w, c, true, Instant)], trail := w.trail + [MilestoneOf(c, w.spec)],
                  machines := map[100 := Finished(w, false)]);
    MarkNext(w, c);
    ReachInstant(w1, cs, c);
    StoreInstant(w2, cs, c);
    RunThree(StateOf(w), Pass(0, 0, 0, NO_ANSWERS), Effect(k, "", true, 0), Finish(k));
  }

  // ---- a create, and the late reboot ----

  /** The life of a create up to its start, and to its end. */
  function BuildEvents(user: UserId, spec: VmSpec): seq<Event> {
    [AddKey(spec.sshKey, user), CheckCreate(user, spec, "create", 0), InsertCreate(0)]
    + [Pass(0, 0, 0, NO_ANSWERS.(target := Target(HOME)))]
    + TaskEvents(0, "clone", spec.storageGb) + InstantEvents(1) + InstantEvents(2)
  }

  function CreateEvents(user: UserId, spec: VmSpec): seq<Event> {
    BuildEvents(user, spec) + TaskEvents(3, "start", spec.storageGb)
  }

  function BuiltStand(plans: map<UserId, Plan>, user: UserId, spec: VmSpec): Stand {
    var w0 := Stand(plans, user, spec, Queued(CloneVm), 0, VmPending, Some(HOME), [], map[], []);
    AfterInstant(AfterInstant(AfterTask(w0, CloneVm, "clone"), ConfigureVm), ResizeDisk)
  }

  function RunningStand(plans: map<UserId, Plan>, user: UserId, spec: VmSpec): Stand {
    AfterTask(BuiltStand(plans, user, spec), StartVm, "start")
  }

  lemma CreateBuilds(plans: map<UserId, Plan>, user: UserId, spec: VmSpec)
    requires user in plans && ValidSpec(spec) && Within(Asked(spec), plans[user])
    ensures Run(Initial(plans), BuildEvents(user, spec)) == StateOf(BuiltStand(plans, user, spec))
  {
    hide Do, StateOf, Run, TaskEvents, InstantEvents, Within, Initial;
    var w := Stand(plans, user, spec, Queued(CloneVm), 0, VmPending, None, [], map[], []);
    var w0 := w.(at := Some(HOME));
    var w1 := AfterTask(w0, CloneVm, "clone");
    var w2 := AfterInstant(w1, ConfigureVm);
    var gb := spec.storageGb;
    var e0 := [AddKey(spec.sshKey, user), CheckCreate(user, spec, "create", 0), InsertCreate(0)];
    var p := Pass(0, 0, 0, NO_ANSWERS.(target := Target(HOME)));
    Accept(plans, user, spec);
    Place(w);
    RunStep(Initial(plans), e0, p);
    TaskRound(w0, CloneVm, "clone");
    InstantRound(w1, ConfigureVm);
    InstantRound(w2, ResizeDisk);
    RunSplits(Initial(plans), e0 + [p], TaskEvents(0, "clone", gb));
    RunSplits(Initial(plans), e0 + [p] + TaskEvents(0, "clone", gb), InstantEvents(1));
    RunSplits(Initial(plans), e0 + [p] + TaskEvents(0, "clone", gb) + InstantEvents(1), InstantEvents(2));
  }

  /** Every request that fits its user's plan can be brought to a running VM at rest. */
  lemma CreateRuns(plans: map<UserId, Plan>, user: UserId, spec: VmSpec)
    requires user in plans && ValidSpec(spec) && Within(Asked(spec), plans[user])
    ensures Run(Initial(plans), CreateEvents(user, spec)) == StateOf(RunningStand(plans, user, spec))
  {
    hide Do, StateOf, Run, TaskEvents, BuildEvents, Within, Initial;
    CreateBuilds(plans, user, spec);
    TaskRound(BuiltStand(plans, user, spec), StartVm, "start");
    RunSplits(Initial(plans), BuildEvents(user, spec), TaskEvents(3, "start", spec.storageGb));
  }

  // ---- a lost response ----

  /** The start was carried out, and the worker that sent it died. */
  function LostStand(plans: map<UserId, Plan>, user: UserId, spec: VmSpec): Stand {
    var w := BuiltStand(plans, user, spec);
    w.(stage := Dispatched(StartVm), attempts := 4,
       calls := w.calls + [CallOf(w, StartVm, false, Tasked("start", Applied))],
       machines := map[100 := Finished(w, true)], trail := w.trail + [Started])
  }

  function LostEvents(user: UserId, spec: VmSpec): seq<Event> {
    BuildEvents(user, spec) + [Pass(0, 0, 0, NO_ANSWERS), Effect(3, "start", true, spec.storageGb), TaskApply(3)]
    + [Crash(3), Tick(DISPATCH_GRACE)]
  }

  lemma StartLost(plans: map<UserId, Plan>, user: UserId, spec: VmSpec)
    requires user in plans && ValidSpec(spec) && Within(Asked(spec), plans[user])
    ensures Run(Initial(plans), LostEvents(user, spec))
         == StateOf(LostStand(plans, user, spec)).(clock := DISPATCH_GRACE)
  {
    hide Do, StateOf, Run, BuildEvents, Within, Initial, ValidSpec;
    var w := BuiltStand(plans, user, spec);
    var cs, gb := w.calls, spec.storageGb;
    var w1 := w.(stage := Dispatched(StartVm), attempts := 4, calls := cs + [CallOf(w, StartVm, true, Sent)]);
    var w2 := w1.(calls := cs + [CallOf(w, StartVm, true, Tasked("start", Waiting))]);
    var w3 := w2.(calls := cs + [CallOf(w, StartVm, true, Tasked("start", Applied))], trail := w.trail + [Started],
                  machines := map[100 := Finished(w, true)]);
    CreateBuilds(plans, user, spec);
    MarkNext(w, StartVm);
    ReachTask(w1, cs, StartVm, "start");
    ApplyTask(w2, cs, StartVm, "start");
    WorkerDies(w3, cs, StartVm, "start");
    GracePasses(LostStand(plans, user, spec));
    RunThree(StateOf(w), Pass(0, 0, 0, NO_ANSWERS), Effect(3, "start", true, gb), TaskApply(3));
    RunTwo(StateOf(w3), Crash(3), Tick(DISPATCH_GRACE));
    RunSplits(Initial(plans), BuildEvents(user, spec),
              [Pass(0, 0, 0, NO_ANSWERS), Effect(3, "start", true, gb), TaskApply(3)]);
    RunSplits(Initial(plans),
              BuildEvents(user, spec) + [Pass(0, 0, 0, NO_ANSWERS), Effect(3, "start", true, gb), TaskApply(3)],
              [Crash(3), Tick(DISPATCH_GRACE)]);
  }

  lemma WorkerDies(w: Stand, cs: seq<Call>, c: Command, id: TaskId)
    requires w.calls == cs + [CallOf(w, c, true, Tasked(id, Applied))]
    ensures Do(StateOf(w), Crash(|cs|)) == StateOf(w.(calls := cs + [CallOf(w, c, false, Tasked(id, Applied))]))
  {}

  /** From the initial state: the response of a create's start call is lost with its worker; once the grace is over
      another worker reads that the VM runs, and the create has succeeded without the call being made again. */
  lemma LostResponseIsReconciled(plans: map<UserId, Plan>, user: UserId, spec: VmSpec) returns (events: seq<Event>)
    requires user in plans && ValidSpec(spec) && Within(Asked(spec), plans[user])
    ensures var s := Run(Initial(plans), events);
            && |s.t.ops| == 1 && |s.t.vms| == 1 && |s.calls| == 4 && !s.calls[3].attached && s.calls[3].cmd == StartVm
            && s.t.ops[0].stage == Done && s.t.vms[0].status == VmRunning
            && View(s.machines, s.t.vms, 0) == Power.Running
  {
    hide Do, StateOf, LostEvents;
    var before := LostEvents(user, spec);
    var s := Run(Initial(plans), before);
    StartLost(plans, user, spec);
    InitialInv(plans);
    RunInv(Initial(plans), before);
    LostIsDue(plans, user, spec);
    StartRecognised(s, 0);
    var e := PowerPass(s, 0, Power.Running, false);
    PassMakesNoCall(s, e);
    PassKeepsMachines(s, e);
    events := before + [e];
    RunStep(Initial(plans), before, e);
    RunInv(Initial(plans), events);
    StepExtends(s, e);
  }

  lemma PassKeepsMachines(s: State, e: Event)
    requires e.Pass?
    ensures Do(s, e).machines == s.machines
  {
    hide FirstPass, Commits, CanPass;
  }

  lemma LostIsDue(plans: map<UserId, Plan>, user: UserId, spec: VmSpec)
    ensures var s := StateOf(LostStand(plans, user, spec)).(clock := DISPATCH_GRACE);
            && Looks(s, 0, StartVm) && Stands(s, 0, true) && |s.t.ops| == 1 && |s.t.vms| == 1 && s.t.ops[0].vm == 0
            && |s.calls| == 4 && !s.calls[3].attached && s.calls[3].cmd == StartVm
            && View(s.machines, s.t.vms, 0) == Power.Running
  {}

  /** From the initial state, for every such request: a run after which the VM runs at rest as its row says, and a
      continuation after which a succeeded reboot has left it stopped under a row that says running. */
  lemma LateRebootHappens(plans: map<UserId, Plan>, user: UserId, spec: VmSpec)
    returns (events: seq<Event>, late: seq<Event>)
    requires user in plans && ValidSpec(spec) && Within(Asked(spec), plans[user])
    ensures var s := Run(Initial(plans), events);
            && |s.t.vms| == 1 && s.t.vms[0].status == VmRunning && s.t.vms[0].spec == spec && !Busy(s.t.ops, 0)
            && View(s.machines, s.t.vms, 0) == Power.Running && s.misfiled == {}
            && |s.trails| == 1 && s.trails[0] == [Cloned, Configured(spec), Sized(spec.storageGb), Started]
    ensures var s := Run(Initial(plans), events + late);
            && |s.t.vms| > 0 && s.t.vms[0].status == VmRunning && !Busy(s.t.ops, 0)
            && View(s.machines, s.t.vms, 0) == Stopped
  {
    hide Do;
    events := CreateEvents(user, spec);
    var s := Run(Initial(plans), events);
    CreateRuns(plans, user, spec);
    RunAgreed(plans, events);
    var i;
    late, i := LateRebootFails(s, 0, "reboot", "late");
    RunSplits(Initial(plans), events, late);
  }

  // ---- pending while in flight ----

  /** A create whose clone has finished at the provider while its worker still waits. */
  function ClonedUnnoticed(plans: map<UserId, Plan>, user: UserId, spec: VmSpec): Stand {
    var w := Stand(plans, user, spec, Dispatched(CloneVm), 1, VmPending, Some(HOME), [], map[], []);
    w.(calls := [CallOf(w, CloneVm, true, Tasked("clone", Applied))], machines := map[100 := Fresh(w, false)],
       trail := [Cloned])
  }

  function CloneEvents(user: UserId, spec: VmSpec): seq<Event> {
    [AddKey(spec.sshKey, user), CheckCreate(user, spec, "create", 0), InsertCreate(0)]
    + [Pass(0, 0, 0, NO_ANSWERS.(target := Target(HOME)))]
    + [Pass(0, 0, 0, NO_ANSWERS), Effect(0, "clone", true, spec.storageGb), TaskApply(0)]
  }

  lemma CloneUnnoticed(plans: map<UserId, Plan>, user: UserId, spec: VmSpec)
    requires user in plans && ValidSpec(spec) && Within(Asked(spec), plans[user])
    ensures Run(Initial(plans), CloneEvents(user, spec)) == StateOf(ClonedUnnoticed(plans, user, spec))
  {
    hide Do, StateOf, Run, ValidSpec, Within, Initial;
    var w := Stand(plans, user, spec, Queued(CloneVm), 0, VmPending, None, [], map[], []);
    var w0 := w.(at := Some(HOME));
    var w1 := w0.(stage := Dispatched(CloneVm), attempts := 1, calls := [CallOf(w0, CloneVm, true, Sent)]);
    var w2 := w1.(calls := [CallOf(w0, CloneVm, true, Tasked("clone", Waiting))],
                  machines := map[100 := Fresh(w0, true)]);
    var w3 := ClonedUnnoticed(plans, user, spec);
    assert w3 == w2.(calls := [] + [CallOf(w2, CloneVm, true, Tasked("clone", Applied))],
                     trail := w2.trail + [MilestoneOf(CloneVm, spec)], machines := map[100 := Fresh(w2, false)]);
    var e0 := [AddKey(spec.sshKey, user), CheckCreate(user, spec, "create", 0), InsertCreate(0)];
    var p := Pass(0, 0, 0, NO_ANSWERS.(target := Target(HOME)));
    Accept(plans, user, spec);
    Place(w);
    RunStep(Initial(plans), e0, p);
    assert forall c: Call :: [] + [c] == [c];
    MarkNext(w0, CloneVm);
    ReachTask(w1, [], CloneVm, "clone");
    ApplyTask(w2, [], CloneVm, "clone");
    RunThree(StateOf(w0), Pass(0, 0, 0, NO_ANSWERS), Effect(0, "clone", true, spec.storageGb), TaskApply(0));
    RunSplits(Initial(plans), e0 + [p],
              [Pass(0, 0, 0, NO_ANSWERS), Effect(0, "clone", true, spec.storageGb), TaskApply(0)]);
  }

  /** From the initial state: once the grace is over, a pass makes the row pending while the first worker still waits
      for its clone call. */
  lemma ClonePendingInFlight(plans: map<UserId, Plan>, user: UserId, spec: VmSpec) returns (events: seq<Event>)
    requires user in plans && ValidSpec(spec) && Within(Asked(spec), plans[user])
    ensures var s := Run(Initial(plans), events);
            && |s.calls| == 1 && s.calls[0].attached && s.calls[0].cmd == CloneVm && s.calls[0].op < |s.t.ops|
            && StatusOf(s.t.ops[s.calls[0].op].stage) == Pending
  {
    hide Do;
    var before := CloneEvents(user, spec) + [Tick(DISPATCH_GRACE)];
    var s := Run(Initial(plans), before);
    CloneUnnoticed(plans, user, spec);
    RunStep(Initial(plans), CloneEvents(user, spec), Tick(DISPATCH_GRACE));
    GracePasses(ClonedUnnoticed(plans, user, spec));
    RunTimed(plans, before);
    RunAgreed(plans, before);
    var e := Pass(0, s.clock, s.clock, Answers(TargetUnavailable, PowerIs(Stopped, false), TaskUnavailable));
    InFlight.PendingWhileInFlight(s, 0);
    PassMakesNoCall(s, e);
    events := before + [e];
    RunStep(Initial(plans), before, e);
  }

  lemma GracePasses(w: Stand)
    ensures Do(StateOf(w), Tick(DISPATCH_GRACE)) == StateOf(w).(clock := DISPATCH_GRACE)
  {}

  lemma PassMakesNoCall(s: State, e: Event)
    requires e.Pass? && e.op < |s.t.ops| && !s.t.ops[e.op].stage.Queued?
    ensures Do(s, e).calls == s.calls && |Do(s, e).t.ops| == |s.t.ops|
  {
    hide FirstPass, Commits, CanPass;
  }

  /** The same for the shutdown half of a reboot. */
  lemma ShutdownPendingInFlight(plans: map<UserId, Plan>, user: UserId, spec: VmSpec)
    returns (events: seq<Event>, k: nat)
    requires user in plans && ValidSpec(spec) && Within(Asked(spec), plans[user])
    ensures var s := Run(Initial(plans), events);
            && k < |s.calls| && s.calls[k].attached && s.calls[k].cmd == ShutdownVm && s.calls[k].op < |s.t.ops|
            && StatusOf(s.t.ops[s.calls[k].op].stage) == Pending
  {
    hide Scene, Inv, Do, Timed, StateOf;
    events := CreateEvents(user, spec);
    CreateRuns(plans, user, spec);
    RunAgreed(plans, events);
    var s0 := Run(Initial(plans), events);
    RunningReady(plans, user, spec);
    var s1, i, e1, e2 := SceneEnqueue(s0, 0, "reboot");
    var s2, e3 := SceneMark(s1, i, 0, ShutdownVm);
    k := |s1.calls|;
    var s3, e4, e5, e6 := SceneShutdown(s2, i, 0, k, "late");
    var s4 := Do(s3, Tick(DISPATCH_GRACE));
    SceneTick(s3, i, k);
    RunStep(Initial(plans), events, e1); events := events + [e1];
    RunStep(Initial(plans), events, e2); events := events + [e2];
    RunStep(Initial(plans), events, e3); events := events + [e3];
    RunStep(Initial(plans), events, e4); events := events + [e4];
    RunStep(Initial(plans), events, e5); events := events + [e5];
    RunStep(Initial(plans), events, e6); events := events + [e6];
    RunStep(Initial(plans), events, Tick(DISPATCH_GRACE)); events := events + [Tick(DISPATCH_GRACE)];
    RunTimed(plans, events);
    RunAgreed(plans, events);
    InFlight.PendingWhileInFlight(s4, k);
    var e := Pass(s4.calls[k].op, s4.clock, s4.clock,
                  Answers(TargetUnavailable, PowerIs(Stopped, false), TaskUnavailable));
    PassMakesNoCall(s4, e);
    RunStep(Initial(plans), events, e); events := events + [e];
  }

  lemma RunningReady(plans: map<UserId, Plan>, user: UserId, spec: VmSpec)
    requires ValidSpec(spec)
    ensures var s := StateOf(RunningStand(plans, user, spec));
            && |s.t.vms| == 1 && s.t.vms[0].status == VmRunning && !Busy(s.t.ops, 0) && !VmLocked(s.drafts, 0)
            && KeyFree(s.t.ops, "reboot") && FreshTask(s.calls, "late") && s.misfiled == {}
            && s.t.vms[0].at.Some? && s.t.vms[0].at.value.vmid in s.machines
            && var m := s.machines[s.t.vms[0].at.value.vmid]; m.owner == Some(0) && m.running && !m.cloning && !m.locked
  {}

  lemma SceneTick(s: State, i: nat, k: nat)
    requires Scene(s, i, 0, Dispatched(ShutdownVm), VmRunning, false)
    requires k < |s.calls| && s.calls[k].op == i && s.calls[k].cmd == ShutdownVm && s.calls[k].attached
    requires s.t.ops[i].updatedAt == s.clock && s.misfiled == {}
    ensures var s' := Do(s, Tick(DISPATCH_GRACE));
            && s' == s.(clock := s.clock + DISPATCH_GRACE) && Selectable(s'.t.ops[i], s'.clock)
            && View(s'.machines, s'.t.vms, 0) == Stopped && !VmLocked(s'.drafts, 0)
            && s.t.vms[0].at == Some(s.calls[k].at) && s.calls[k].at.vmid in s'.machines
            && !s'.machines[s.calls[k].at.vmid].locked && s.t.ops[i].kind == Reboot && s.t.ops[i].vm == 0
            && s.t.ops[i].stage == Dispatched(ShutdownVm)
  {
    assert CallOk(s.t, s.calls[k]);
  }

  // ---- a stored VMID at the head of the queue ----

  /** Two creates; the first has a placement and was marked a moment later. */
  function TwoCreates(plans: map<UserId, Plan>, user: UserId, spec: VmSpec, at: Option<Placement>, marked: bool): State
  {
    var op := Op(0, Create, if marked then Dispatched(CloneVm) else Queued(CloneVm), "create",
                 if marked then 1 else 0, None, if marked then 1 else 0);
    State(Tables([op, Op(1, Create, Queued(CloneVm), "second", 0, None, 0)],
                 [Vm(user, 0, spec, VmPending, at), Vm(user, 1, spec, VmPending, None)]),
          if marked then [Call(0, CloneVm, HOME, spec, 1, true, Sent)] else [], [Closed, Closed], map[], [[], []],
          {}, {}, plans, map[spec.sshKey := user], if marked then 1 else 0)
  }

  /** The state between the second create's check and its insert. */
  function SecondChecked(plans: map<UserId, Plan>, user: UserId, spec: VmSpec): State {
    StateOf(Stand(plans, user, spec, Queued(CloneVm), 0, VmPending, None, [], map[], []))
    .(drafts := [Closed, OpenCreate(user, spec, "second", 1)])
  }

  lemma CheckSecond(plans: map<UserId, Plan>, user: UserId, spec: VmSpec)
    requires user in plans && ValidSpec(spec) && Within(Plus(Asked(spec), Asked(spec)), plans[user])
    ensures Do(StateOf(Stand(plans, user, spec, Queued(CloneVm), 0, VmPending, None, [], map[], [])),
               CheckCreate(user, spec, "second", 1))
         == SecondChecked(plans, user, spec)
  {
    hide TotalUsage;
    UsageOfOne(user, spec);
  }

  lemma UsageOfOne(user: UserId, spec: VmSpec)
    ensures TotalUsage([Vm(user, 0, spec, VmPending, None)], user) == Asked(spec)
  {
    hide TotalUsage;
    SameUsage([], Vm(user, 0, spec, VmPending, None), user, spec);
  }

  lemma SameUsage(none: seq<Vm>, vm: Vm, user: UserId, spec: VmSpec)
    requires none == [] && vm == Vm(user, 0, spec, VmPending, None)
    ensures TotalUsage([vm], user) == Asked(spec)
  {
    hide TotalUsage;
    NoUsage(user);
    UsageOfInsert(none, vm, user);
    assert none + [vm] == [vm];
    assert UsageOf(vm, user) == Asked(spec);
  }


  lemma InsertSecond(plans: map<UserId, Plan>, user: UserId, spec: VmSpec)
    ensures Do(SecondChecked(plans, user, spec), InsertCreate(1)) == TwoCreates(plans, user, spec, None, false)
  {}

  lemma PlaceFirst(plans: map<UserId, Plan>, user: UserId, spec: VmSpec)
    ensures Do(TwoCreates(plans, user, spec, None, false), Pass(0, 0, 0, NO_ANSWERS.(target := Target(HOME))))
         == TwoCreates(plans, user, spec, Some(HOME), false)
  {}

  lemma MarkFirst(plans: map<UserId, Plan>, user: UserId, spec: VmSpec)
    ensures Do(Do(TwoCreates(plans, user, spec, Some(HOME), false), Tick(1)), Pass(0, 1, 1, NO_ANSWERS))
         == TwoCreates(plans, user, spec, Some(HOME), true)
  {}

  /** From the initial state: two creates, the first placed and marked, the second still waiting as the oldest row. The
      VMID of the first is not in use at the provider yet, so the provider may well offer it; then the pass fails. */
  lemma TakenVmidHappens(plans: map<UserId, Plan>, user: UserId, spec: VmSpec) returns (events: seq<Event>)
    requires user in plans && ValidSpec(spec) && Within(Plus(Asked(spec), Asked(spec)), plans[user])
    ensures var s := Run(Initial(plans), events);
            && Inv(s) && HeadOfLine(s, 1) && OffersTaken(s.t, 1, Target(HOME)) && HOME.vmid !in s.machines
            && Oldest(s.t.ops, 1, s.clock)
            && var e := Pass(1, s.clock, s.clock, NO_ANSWERS.(target := Target(HOME)));
               Enabled(s, e) && Do(s, e).t == s.t && Do(s, e).calls == s.calls
  {
    hide Do, StateOf, TwoCreates, SecondChecked, Initial, Within, ValidSpec, Run;
    var e0 := [AddKey(spec.sshKey, user), CheckCreate(user, spec, "create", 0), InsertCreate(0)];
    var e1 := [CheckCreate(user, spec, "second", 1), InsertCreate(1),
               Pass(0, 0, 0, NO_ANSWERS.(target := Target(HOME)))];
    var e2 := [Tick(1), Pass(0, 1, 1, NO_ANSWERS)];
    FitsAlone(plans, user, spec);
    Accept(plans, user, spec);
    CheckSecond(plans, user, spec);
    InsertSecond(plans, user, spec);
    PlaceFirst(plans, user, spec);
    MarkFirst(plans, user, spec);
    RunThree(Run(Initial(plans), e0), e1[0], e1[1], e1[2]);
    RunSplits(Initial(plans), e0, e1);
    RunTwo(Run(Initial(plans), e0 + e1), e2[0], e2[1]);
    RunSplits(Initial(plans), e0 + e1, e2);
    events := e0 + e1 + e2;
    InitialInv(plans);
    RunInv(Initial(plans), events);
    SecondIsHead(plans, user, spec);
    TakenOfferFails(Run(Initial(plans), events), 1, HOME);
  }

  lemma FitsAlone(plans: map<UserId, Plan>, user: UserId, spec: VmSpec)
    requires user in plans && ValidSpec(spec) && Within(Plus(Asked(spec), Asked(spec)), plans[user])
    ensures Within(Asked(spec), plans[user])
  {}

  lemma SecondIsHead(plans: map<UserId, Plan>, user: UserId, spec: VmSpec)
    ensures var s := TwoCreates(plans, user, spec, Some(HOME), true);
            && HeadOfLine(s, 1) && OffersTaken(s.t, 1, Target(HOME)) && HOME.vmid !in s.machines
            && Oldest(s.t.ops, 1, s.clock) && !VmLocked(s.drafts, 1)
            && NeedsPlacement(s.t.ops[1], s.t.vms[s.t.ops[1].vm]) && s.t.ops[1].vm == 1
  {
    var s := TwoCreates(plans, user, spec, Some(HOME), true);
    assert s.t.vms[0].at.value.vmid == HOME.vmid;
  }
}
