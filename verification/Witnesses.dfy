/** Concrete inputs at which the code does less than one might expect. Each stands beside a lemma that says
    exactly when that happens. */
module Witnesses {
  import opened Decimal
  import opened Model
  import opened Templates
  import opened Instances
  import opened Admission
  import opened Syncer
  import opened Readiness
  import opened Planner
  import opened Transformer
  import opened Status
  import opened Cluster
  import opened Finished
  import opened Convergence

  // ---------------------------------------------------------------- sample objects

  const PLAIN_SPEC := PodSpec([], [], RestartNever, [], "")
  const PLAIN_TEMPLATE := Template(Some(map[]), map[], PLAIN_SPEC)

  /** A hash that sees nothing, and one that sees whether there is a label map. */
  const BLIND := Hasher((t: Template) => 0, (p: PodSpec) => 0)
  const SEEING := Hasher((t: Template) => if t.labels.None? then 0 else 1, (p: PodSpec) => 0)

  function SampleSpec(replicas: int32): TAppSpec {
    TAppSpec(replicas, PLAIN_TEMPLATE, map[], map[], map[], "", None, None, false, false, false, DEFAULT_TEMPLATE)
  }

  function SampleApp(replicas: int32, appStatus: AppStatus, statuses: Statuses): TApp {
    TApp("app", 1, SampleSpec(replicas),
        TAppStatus(1, |CreatedIds(statuses)|, |RunningIds(statuses)|, appStatus, statuses))
  }

  function SamplePod(id: Id): Pod {
    Pod(PodName("app", id), map[INSTANCE_KEY := id], map[], false, "node", PLAIN_SPEC, PhaseRunning,
        [Condition(READY_TYPE, CondTrue, "", "")], [], [])
  }

  lemma FirstOrdinals()
    ensures Ordinals(1) == {"0"} && Ordinals(2) == {"0", "1"}
  {
    assert Print(0) == "0" && Print(1) == "1";
  }

  // ---------------------------------------------------------------- hashes and the gate

  /** The first pass creates the label map, and the second one hashes something else. */
  lemma NilLabelsAreHashedTwice()
    ensures var template := PLAIN_TEMPLATE.(labels := None);
            HashTemplate(SEEING, HashTemplate(SEEING, template)) != HashTemplate(SEEING, template)
  {
    HashTemplateIdempotent(SEEING, PLAIN_TEMPLATE.(labels := None));
  }

  /** A right template label hides a wrong uniq label. */
  lemma WrongUniqLabelStays()
    ensures var labels := map[TEMPLATE_HASH_KEY := "0", UNIQ_HASH_KEY := "7"];
            var template := PLAIN_TEMPLATE.(labels := Some(labels));
            && HashTemplate(BLIND, template) == template
            && Label(LabelsOf(template), UNIQ_HASH_KEY) != UniqHash(BLIND, template.spec)
  {
    assert TEMPLATE_HASH_KEY != UNIQ_HASH_KEY by { assert |TEMPLATE_HASH_KEY| != |UNIQ_HASH_KEY|; }
    assert Print(0) == "0";
  }

  /** Only an init-container image differs, so the update is made in place, and leaves that image as it was. */
  lemma InitImageIsNotMerged(h: Hasher)
    ensures var was := PLAIN_SPEC.(initContainers := [Container("init", "old", "")]);
            var now := PLAIN_SPEC.(initContainers := [Container("init", "new", "")]);
            && UniqHash(h, was) == UniqHash(h, now)
            && forall pod: Pod, expected: Pod :: pod.spec == was && expected.spec == now ==>
                 MergePod(pod, expected).spec.initContainers != expected.spec.initContainers
  {
    var was, now := [Container("init", "old", "")], [Container("init", "new", "")];
    assert BlankImages(was) == BlankImages(now);
    assert was[0].image != now[0].image;
  }

  /** A Ready that was Unknown comes back True. */
  lemma UnknownReadyIsLost()
    ensures var conditions := [Condition(READY_TYPE, CondUnknown, "", "")];
            && ReadyStatus(conditions) == Some(CondUnknown)
            && ReadyStatus(SetGate(SetGate(conditions, CondFalse), CondTrue)) != Some(CondUnknown)
  {
    var conditions := [Condition(READY_TYPE, CondUnknown, "", "")];
    FirstIs(conditions, READY_TYPE, 0);
    KindsDiffer();
    FirstIs(conditions, GATE_TYPE, 1);
    GateRoundTrip(conditions);
  }

  /** A Ready that the gate had already turned False comes back True. */
  lemma OwnedFalseIsLost()
    ensures var conditions := [Condition(READY_TYPE, CondFalse, REASON, MESSAGE)];
            && ReadyStatus(conditions) == Some(CondFalse)
            && ReadyStatus(SetGate(SetGate(conditions, CondFalse), CondTrue)) != Some(CondFalse)
  {
    var conditions := [Condition(READY_TYPE, CondFalse, REASON, MESSAGE)];
    FirstIs(conditions, READY_TYPE, 0);
    GateRoundTrip(conditions);
  }

  /** A pod that is ready although its gate is closed: the write that would take it down is skipped. */
  lemma ClosedGateIsSkipped()
    ensures var conditions := [Condition(READY_TYPE, CondTrue, "", ""), Condition(GATE_TYPE, CondFalse, "", "")];
            var pod := SamplePod("0").(conditions := conditions);
            IsAvailable(pod) && IsAvailable(SyncCondition(pod, {pod.name}))
  {
    var conditions := [Condition(READY_TYPE, CondTrue, "", ""), Condition(GATE_TYPE, CondFalse, "", "")];
    var pod := SamplePod("0").(conditions := conditions);
    KindsDiffer();
    FirstIs(conditions, READY_TYPE, 0);
    FirstIs(conditions, GATE_TYPE, 1);
    SelectedIsDown(pod, {pod.name});
  }

  const RACING := [Op(Create, Instance("0", SamplePod("0"))), Op(Delete, Instance("0", SamplePod("0")))]

  lemma RacedStore()
    ensures Execute(RACING, [0, 1, 0, 1], Started(RACING, map[]))
         == Config(map["0" := Admitted(SamplePod("0"))], [Done, Done])
  {
    var c0 := Started(RACING, map[]);
    var c1 := StepThread(RACING, 0, c0);
    var c2 := StepThread(RACING, 1, c1);
    var c3 := StepThread(RACING, 0, c2);
    var c4 := StepThread(RACING, 1, c3);
    assert [0, 1, 0, 1][1..] == [1, 0, 1] && [1, 0, 1][1..] == [0, 1] && [0, 1][1..] == [1] && [1][1..] == [];
    assert Execute(RACING, [1], c3) == c4 && Execute(RACING, [0, 1], c2) == c4;
    assert Execute(RACING, [1, 0, 1], c1) == c4;
    assert c2.threads == [Fetched(None), Fetched(None)] && c4.threads == [Done, Done];
  }

  lemma OneAfterTheOther()
    ensures RunAll(RACING, map[]) == map["0" := Admitted(SamplePod("0")).(dying := true)]
  {
    var created := Act(RACING[0], None, map[]);
    assert created == map["0" := Admitted(SamplePod("0"))];
    assert RACING[1..] == [RACING[1]] && RACING[1..][1..] == [];
    assert RunAll(RACING[1..], created) == Act(RACING[1], Lookup(created, "0"), created);
  }

  /** Why the planned ids must differ: a create and a delete of one id, each asking before the other acts,
      leave a living pod, and one after the other they leave a dying one. */
  lemma OverlappingIdsRace()
    ensures var raced := Execute(RACING, [0, 1, 0, 1], Started(RACING, map[]));
            && AllDone(raced) && raced.store == map["0" := Admitted(SamplePod("0"))]
            && RunAll(RACING, map[]) == map["0" := Admitted(SamplePod("0")).(dying := true)]
  {
    RacedStore();
    OneAfterTheOther();
  }

  // ---------------------------------------------------------------- finished instances

  const KILLED_APP := SampleApp(1, AppKilled, map["0" := Killed])

  lemma KilledAppIsSettled()
    ensures KILLED_APP.status.statuses == InstanceStatuses(KILLED_APP.spec, KILLED_APP.status.statuses, [])
    ensures KILLED_APP.status.appStatus == AppStatusOf(KILLED_APP.status.statuses) && ExitsEarly(KILLED_APP, [])
  {
    FirstOrdinals();
    assert CreatedIds(KILLED_APP.status.statuses) == {"0"};
    assert KILLED_APP.status.statuses["0"] == Killed;
  }

  lemma KilledAppIsWanted(c: Setup)
    ensures Wanted(c, KILLED_APP) == {"0"} == Unkilled(KILLED_APP) && TemplateResolves(KILLED_APP.spec, "0")
  {
    FirstOrdinals();
    WantedIs(c, KILLED_APP, "0");
  }

  lemma StuckIfWanted(c: Setup, t: TApp, nodes: NodeStore)
    requires Wanted(c, t) == {"0"} == Unkilled(t) && TemplateResolves(t.spec, "0") && AcceptedStrategy(t.spec)
    requires ExitsEarly(t, [])
    ensures var actions := JobOf(c.deleteAfterFinish, c.h, t, nodes, map[]).actions;
            "0" in actions && actions["0"] == CreatePod
    ensures Grounded(c, State(t, map[])) && !NoFalseExit(c, State(t, map[]))
  {
    SettledAction(c, State(t, map[]), nodes, "0");
  }

  /** Recorded as killed, no longer killed by the spec, no pods: the sync exits early, and for ever, although
      the planner would create the pod. */
  lemma EarlyExitMissesACreate(c: Setup, nodes: NodeStore) returns (t: TApp)
    ensures t.status.statuses == InstanceStatuses(t.spec, t.status.statuses, [])
    ensures t.status.appStatus == AppStatusOf(t.status.statuses) && ExitsEarly(t, [])
    ensures var actions := JobOf(c.deleteAfterFinish, c.h, t, nodes, map[]).actions;
            "0" in actions && actions["0"] == CreatePod
    ensures Grounded(c, State(t, map[])) && !NoFalseExit(c, State(t, map[]))
  {
    t := KILLED_APP;
    KilledAppIsSettled();
    KilledAppIsWanted(c);
    StuckIfWanted(c, t, nodes);
  }

  const HALF_FAILED := State(SampleApp(2, AppRunning, map["0" := Failed, "1" := Running]), map["1" := SamplePod("1")])

  lemma HalfFailedIsOver(h: Hasher)
    ensures WellKept(HALF_FAILED) && InstanceOver(HALF_FAILED, "0") && Recreates(Setup(true, h), HALF_FAILED, "0")
  {
    FirstOrdinals();
    assert HALF_FAILED.t.status.statuses["0"] == Failed;
  }

  /** Pods are kept until the app has finished: the failed instance has lost its pod, the other one still
      runs, and the sync creates the failed one again. */
  lemma FinishedInstanceIsCreatedAgain(h: Hasher, nodes: NodeStore) returns (c: Setup, s: State, ch: Choice)
    ensures WellKept(s) && InstanceOver(s, "0") && s.t.status.appStatus == AppRunning && ValidChoice(c, s, ch)
    ensures Mentions(ch.plan.add, "0")
  {
    c, s := Setup(true, h), HALF_FAILED;
    HalfFailedIsOver(h);
    ch := CreatedAgain(c, s, nodes, "0");
  }

  lemma CreatedAgain(c: Setup, s: State, nodes: NodeStore, id: Id) returns (ch: Choice)
    requires WellKept(s) && InstanceOver(s, id) && Recreates(c, s, id)
    ensures ValidChoice(c, s, ch) && Mentions(ch.plan.add, id)
  {
    ch := SyncIsPossible(c, s, nodes);
    OverPlan(c, s, ch, id);
  }

  // ---------------------------------------------------------------- a round without progress

  const REBORN := State(SampleApp(1, AppFailed, map["0" := Failed]), map["0" := SamplePod("0")])

  lemma RebornIsGrounded(c: Setup)
    requires !c.deleteAfterFinish
    ensures Grounded(c, REBORN) && Wanted(c, REBORN.t) == {}
  {
    FirstOrdinals();
    FirstIs(SamplePod("0").conditions, READY_TYPE, 0);
    WantedIs(c, REBORN.t, "0");
    assert REBORN.t.status.statuses["0"] == Failed;
    assert forall id :: id in Unkilled(REBORN.t) ==> TemplateResolves(REBORN.t.spec, id);
  }

  lemma RebornIsAllExcess(c: Setup)
    requires !c.deleteAfterFinish && Wanted(c, REBORN.t) == {}
    ensures Stale(c, REBORN) == {} && Missing(c, REBORN) == {} && Excess(c, REBORN) == {"0"} == Turning(c, REBORN)
    ensures Measure(c, REBORN) == 1
  {
    FirstOrdinals();
    WantedIs(c, REBORN.t, "0");
    assert REBORN.t.status.statuses["0"] == Failed;
  }

  lemma RoundFrom(c: Setup, s: State, nodes: NodeStore) returns (ch: Choice, next: State)
    requires WellKept(s) && AllUp(s) && Resolves(c, s.t) && s.store != map[]
    ensures FullRound(c, s, ch, next)
  {
    ch := SyncIsPossible(c, s, nodes);
    EmptyListing(ch.pods, s.store);
    SyncKeepsWellKept(c, s, ch);
    next := SettlingIsPossible(Sync(s, ch));
  }

  lemma NoProgress(c: Setup, s: State, ch: Choice, next: State)
    requires !c.deleteAfterFinish && FullRound(c, s, ch, next) && AcceptedStrategy(s.t.spec)
    requires Stale(c, s) == {} && Missing(c, s) == {} && Excess(c, s) == Turning(c, s)
    ensures Measure(c, next) == Measure(c, s)
  {
    StrictRoundIff(c, s, ch, next);
  }

  /** A living pod of an instance recorded as failed: deleted as excess, and missing afterwards. */
  lemma RoundWithoutProgress(h: Hasher, nodes: NodeStore) returns (c: Setup, s: State, ch: Choice, next: State)
    ensures Grounded(c, s) && FullRound(c, s, ch, next)
    ensures Measure(c, s) == 1 && Measure(c, next) == 1
  {
    c, s := Setup(false, h), REBORN;
    RebornIsGrounded(c);
    RebornIsAllExcess(c);
    ch, next := RoundFrom(c, s, nodes);
    NoProgress(c, s, ch, next);
  }
}
