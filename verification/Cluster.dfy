/** The controller and its pod store as a state machine: syncs under every order and every listing,
    interleaved with steps of the environment, and the availability every run keeps. */
module Cluster {
  import opened Model
  import opened Templates
  import opened Instances
  import opened Admission
  import opened Syncer
  import opened Readiness
  import opened Planner
  import opened Transformer
  import opened Selection
  import opened Guarantees
  import opened Status

  datatype State = State(t: TApp, store: Store)

  /** What is fixed for the controller: its start-up flag and its hash. */
  datatype Setup = Setup(deleteAfterFinish: bool, h: Hasher)

  /** What a sync does not decide itself: the node cache, the order in which the pods are listed, and a
      plan of the planner under some order of its maps. */
  datatype Choice = Choice(nodes: NodeStore, pods: seq<Pod>, plan: Plan)

  /** Pods carry the label and the name of the id they are stored under. */
  ghost predicate WellKept(s: State) {
    forall id :: id in s.store ==> PodIndex(s.store[id]) == Some(id) && s.store[id].name == PodName(s.t.name, id)
  }

  ghost predicate Lists(pods: seq<Pod>, store: Store) {
    (forall k :: 0 <= k < |pods| ==> Stored(pods[k], store))
    && (forall id :: id in store ==> store[id] in pods)
  }

  predicate Stored(pod: Pod, store: Store) {
    PodIndex(pod).Some? && PodIndex(pod).value in store && store[PodIndex(pod).value] == pod
  }

  /** Sync returns before planning when a finished app has no pods left. */
  predicate ExitsEarly(t: TApp, pods: seq<Pod>) {
    IsTAppFinished(t) && t.generation == t.status.observedGeneration && t.spec.replicas == t.status.replicas
    && |pods| == 0
  }

  /** When a sync is skipped: the app has failed, succeeded or been killed, this generation of it has been
      observed, as many instances as it asks for were counted, and it has no pod. */
  lemma EarlyExitMeans(t: TApp, pods: seq<Pod>)
    ensures ExitsEarly(t, pods) <==>
              && pods == [] && t.status.appStatus in {AppFailed, AppSucc, AppKilled}
              && t.status.observedGeneration == t.generation && t.status.replicas == t.spec.replicas
  {
  }

  function JobIn(c: Setup, s: State, nodes: NodeStore): Job {
    JobOf(c.deleteAfterFinish, c.h, s.t, nodes, s.store)
  }

  function Wanted(c: Setup, t: TApp): set<Id> {
    DesiredRunning(c.deleteAfterFinish, t)
  }

  function Available(c: Setup, s: State): set<Id> {
    AvailablePods(s.store, Wanted(c, s.t))
  }

  function Selected(plan: Plan): set<string> {
    NamesOf(plan.del + plan.update)
  }

  function GatedPods(pods: seq<Pod>, selected: set<string>): seq<Pod> {
    seq(|pods|, k requires 0 <= k < |pods| => SyncCondition(pods[k], selected))
  }

  function GatedStore(store: Store, selected: set<string>): Store {
    map id | id in store :: SyncCondition(store[id], selected)
  }

  /** One sync: plan, gate conditions, carry out the plan, update the status from the gated list. */
  function Sync(s: State, ch: Choice): State {
    if ExitsEarly(s.t, ch.pods) then s
    else State(UpdateStatus(s.t, GatedPods(ch.pods, Selected(ch.plan))),
               SyncStore(GatedStore(s.store, Selected(ch.plan)), ch.plan))
  }

  ghost predicate ValidChoice(c: Setup, s: State, ch: Choice) {
    Lists(ch.pods, s.store) && IsPlan(JobIn(c, s, ch.nodes), ch.plan)
  }

  // ---------------------------------------------------------------- lists and maps

  lemma OrderOf(ids: set<Id>) returns (order: seq<Id>)
    ensures multiset(order) == multiset(ids)
  {
    order := [];
    var todo := ids;
    while todo != {}
      invariant todo <= ids && multiset(order) == multiset(ids - todo)
    {
      var id :| id in todo;
      assert ids - (todo - {id}) == (ids - todo) + {id};
      order, todo := order + [id], todo - {id};
    }
    assert ids - todo == ids;
  }

  lemma ListingOf(store: Store) returns (pods: seq<Pod>)
    requires Keyed(store)
    ensures Lists(pods, store)
  {
    var order := OrderOf(store.Keys);
    forall id ensures id in order <==> id in store { assert id in order <==> id in multiset(order); }
    pods := seq(|order|, k requires 0 <= k < |order| => store[order[k]]);
    forall k | 0 <= k < |pods| ensures Stored(pods[k], store) { assert order[k] in order; }
    forall id | id in store ensures store[id] in pods {
      var k :| 0 <= k < |order| && order[k] == id;
      assert pods[k] == store[id];
    }
  }

  /** A sync is possible in every state and with every node cache. */
  lemma SyncIsPossible(c: Setup, s: State, nodes: NodeStore) returns (ch: Choice)
    requires Keyed(s.store)
    ensures ValidChoice(c, s, ch) && ch.nodes == nodes
  {
    var j := JobIn(c, s, nodes);
    JobBacked(c.deleteAfterFinish, c.h, s.t, nodes, s.store);
    var order := OrderOf(VerdictsOf(j).Keys);
    TransformIsPlan(c.deleteAfterFinish, c.h, s.t, nodes, s.store, order, order);
    var pods := ListingOf(s.store);
    ch := Choice(nodes, pods, PlanOf(j, Transform(j, order, order)));
  }

  ghost predicate Keyed(store: Store) {
    forall id :: id in store ==> PodIndex(store[id]) == Some(id)
  }

  lemma ListedAt(pods: seq<Pod>, store: Store, id: Id)
    requires Lists(pods, store) && Keyed(store)
    ensures id in PodMap(pods) <==> id in store
    ensures id in store ==> PodMap(pods)[id] == store[id]
  {
    PodMapHoldsLast(pods, id);
    if id in PodMap(pods) {
      var k :| IsLast(pods, id, k) && PodMap(pods)[id] == pods[k];
      assert Stored(pods[k], store);
    }
  }

  /** Listing a store and mapping the list gives the store back. */
  lemma ListedMap(pods: seq<Pod>, store: Store)
    requires Lists(pods, store) && Keyed(store)
    ensures PodMap(pods) == store
  {
    forall id ensures (id in PodMap(pods) <==> id in store) && (id in store ==> PodMap(pods)[id] == store[id]) {
      ListedAt(pods, store, id);
    }
  }

  lemma GateKeepsIndex(pod: Pod, selected: set<string>)
    ensures PodIndex(SyncCondition(pod, selected)) == PodIndex(pod)
  {
  }

  lemma GatedLists(pods: seq<Pod>, store: Store, selected: set<string>)
    requires Lists(pods, store) && Keyed(store)
    ensures Lists(GatedPods(pods, selected), GatedStore(store, selected)) && Keyed(GatedStore(store, selected))
    ensures PodMap(GatedPods(pods, selected)) == GatedStore(store, selected)
  {
    var gated, kept := GatedPods(pods, selected), GatedStore(store, selected);
    forall k | 0 <= k < |gated| ensures Stored(gated[k], kept) {
      assert Stored(pods[k], store);
      GateKeepsIndex(pods[k], selected);
    }
    forall id | id in kept ensures kept[id] in gated && PodIndex(kept[id]) == Some(id) {
      var k :| 0 <= k < |pods| && pods[k] == store[id];
      assert gated[k] == kept[id];
      GateKeepsIndex(store[id], selected);
    }
    ListedMap(gated, kept);
  }

  // ---------------------------------------------------------------- what a sync does to one id

  /** One sync's plan, traced back to the job and the orders it came from. */
  datatype Trace = Trace(j: Job, k: Stock, p: Progress, order1: seq<Id>, order2: seq<Id>)

  /** The trace explains the plan, and all the planner guarantees hold of it. */
  ghost predicate Explains(c: Setup, s: State, ch: Choice, w: Trace) {
    && w.j == JobIn(c, s, ch.nodes) && Backed(w.j) && AllFit(w.j) && w.k == StockOf(w.j) && Sane(w.k)
    && IsOrder(w.k.vs, w.order1) && IsOrder(w.k.vs, w.order2) && w.p == Transform(w.j, w.order1, w.order2)
    && Underway(w.k, w.p) && Buildable(w.j, w.p) && ch.plan == PlanOf(w.j, w.p) && DistinctIds(AllInstances(ch.plan))
    && w.j.running == Wanted(c, s.t) && w.k.available == Available(c, s) && w.k.size == |Wanted(c, s.t)|
  }

  lemma SyncPlan(c: Setup, s: State, ch: Choice) returns (w: Trace)
    requires IsPlan(JobIn(c, s, ch.nodes), ch.plan)
    ensures Explains(c, s, ch, w)
  {
    var p, order1, order2 := PlanShape(c.deleteAfterFinish, c.h, s.t, ch.nodes, s.store, ch.plan);
    var j := JobIn(c, s, ch.nodes);
    StockOfState(c, s, ch.nodes);
    w := Trace(j, StockOf(j), p, order1, order2);
  }

  lemma StockOfState(c: Setup, s: State, nodes: NodeStore)
    requires Backed(JobIn(c, s, nodes))
    ensures JobIn(c, s, nodes).running == Wanted(c, s.t)
    ensures StockOf(JobIn(c, s, nodes)).available == Available(c, s)
    ensures StockOf(JobIn(c, s, nodes)).size == |Wanted(c, s.t)|
  {
    HashKeepsDesired(c.deleteAfterFinish, c.h, s.t);
  }

  /** Where the verdict of an id puts it. */
  ghost predicate PlacedBy(w: Trace, plan: Plan, id: Id) {
    var v := VerdictAt(w.k.vs, id);
    && (Mentions(plan.add, id) <==> id in w.p.add) && (Mentions(plan.del, id) <==> id in w.p.del)
    && (Mentions(plan.forceDel, id) <==> id in w.p.forceDel) && (Mentions(plan.update, id) <==> id in w.p.update)
    && (id in w.p.add <==> v == AddIt) && (id in w.p.forceDel <==> v == ForceDeleteIt)
    && (v == DeleteIt ==> id in w.p.del) && (id in w.p.del ==> v == DeleteIt || v.ChangeIt?)
    && (id in w.p.update ==> v.ChangeIt? && id !in w.p.del)
    && (id in Launched(w.k.vs, w.p) <==> id in w.p.update || (id in w.p.del && v != DeleteIt))
  }

  lemma PlacedByVerdict(k: Stock, p: Progress, id: Id, v: Verdict)
    requires Underway(k, p) && v == VerdictAt(k.vs, id)
    ensures id in p.add <==> v == AddIt
    ensures v == DeleteIt ==> id in p.del
    ensures id in p.del ==> v == DeleteIt || v.ChangeIt?
    ensures id in p.update ==> v.ChangeIt? && id !in p.del
    ensures id in p.forceDel <==> v == ForceDeleteIt
    ensures id in Launched(k.vs, p) <==> id in p.update || (id in p.del && v != DeleteIt)
  {
  }

  lemma PlacedInPlan(c: Setup, s: State, ch: Choice, w: Trace, id: Id)
    requires Explains(c, s, ch, w)
    ensures PlacedBy(w, ch.plan, id)
  {
    MentionedIds(w.j, w.p, ch.plan, id);
    PlacedByVerdict(w.k, w.p, id, VerdictAt(w.k.vs, id));
  }

  /** An id no list mentions keeps its pod, up to the gate. */
  lemma UntouchedPod(c: Setup, s: State, ch: Choice, id: Id)
    requires ValidChoice(c, s, ch) && !ExitsEarly(s.t, ch.pods) && DistinctIds(AllInstances(ch.plan))
    requires Unplanned(ch.plan, id)
    ensures Lookup(Sync(s, ch).store, id) == Lookup(GatedStore(s.store, Selected(ch.plan)), id)
  {
    SyncStoreAt(GatedStore(s.store, Selected(ch.plan)), ch.plan, id);
  }

  lemma MentionedIds(j: Job, p: Progress, plan: Plan, id: Id)
    requires Buildable(j, p) && plan == PlanOf(j, p)
    ensures Mentions(plan.add, id) <==> id in p.add
    ensures Mentions(plan.del, id) <==> id in p.del
    ensures Mentions(plan.forceDel, id) <==> id in p.forceDel
    ensures Mentions(plan.update, id) <==> id in p.update
  {
    assert forall i :: 0 <= i < |plan.add| ==> plan.add[i].id == p.add[i];
    assert forall i :: 0 <= i < |plan.del| ==> plan.del[i].id == p.del[i];
    assert forall i :: 0 <= i < |plan.forceDel| ==> plan.forceDel[i].id == p.forceDel[i];
    assert forall i :: 0 <= i < |plan.update| ==> plan.update[i].id == p.update[i];
  }

  /** Selected names belong to planned ids, so an id outside del and update is not selected. */
  lemma UnselectedName(c: Setup, s: State, ch: Choice, id: Id)
    requires ValidChoice(c, s, ch) && WellKept(s)
    requires !Mentions(ch.plan.del, id) && !Mentions(ch.plan.update, id)
    ensures PodName(s.t.name, id) !in Selected(ch.plan)
  {
    PlannedNames(c, s, ch);
    NameOfNone(s.t.name, ch.plan.del + ch.plan.update, id);
  }

  ghost predicate NamedById(app: string, xs: seq<Instance>) {
    forall i :: 0 <= i < |xs| ==> xs[i].pod.name == PodName(app, xs[i].id)
  }

  lemma NameOfNone(app: string, xs: seq<Instance>, id: Id)
    requires NamedById(app, xs) && forall i :: 0 <= i < |xs| ==> xs[i].id != id
    ensures PodName(app, id) !in NamesOf(xs)
  {
    forall i | 0 <= i < |xs| ensures xs[i].pod.name != PodName(app, id) {
      if PodName(app, xs[i].id) == PodName(app, id) {
        PodNameInjective(app, xs[i].id, id);
      }
    }
  }

  /** Deleted and updated instances carry the name of their id. */
  lemma PlannedNames(c: Setup, s: State, ch: Choice)
    requires ValidChoice(c, s, ch) && WellKept(s)
    ensures NamedById(s.t.name, ch.plan.del) && NamedById(s.t.name, ch.plan.update)
  {
    SoundPartition(c.deleteAfterFinish, c.h, s.t, ch.nodes, s.store, ch.plan);
  }

  /** What is still available has not been planned for anything. */
  lemma AvailableIsUnplanned(j: Job, k: Stock, p: Progress, id: Id)
    requires Backed(j) && AllFit(j) && k == StockOf(j) && Sane(k) && Underway(k, p) && id in p.available
    ensures id !in p.add && id !in p.del && id !in p.forceDel && id !in p.update
  {
    if id in k.vs {
      assert VerdictFits(j, id, k.vs[id]);
    }
  }

  lemma UnplannedIsUp(c: Setup, s: State, ch: Choice, id: Id)
    requires ValidChoice(c, s, ch) && WellKept(s) && !ExitsEarly(s.t, ch.pods) && DistinctIds(AllInstances(ch.plan))
    requires id in s.store && IsAvailable(s.store[id])
    requires Unplanned(ch.plan, id)
    ensures IsAvailable(SyncCondition(s.store[id], Selected(ch.plan)))
    ensures Lookup(Sync(s, ch).store, id) == Some(SyncCondition(s.store[id], Selected(ch.plan)))
  {
    UnselectedName(c, s, ch, id);
    UnselectedStaysAvailable(s.store[id], Selected(ch.plan));
    UntouchedPod(c, s, ch, id);
  }

  /** What the planner leaves available is available after the sync, gate included. */
  lemma SurvivorIsUp(c: Setup, s: State, ch: Choice, w: Trace, id: Id)
    requires ValidChoice(c, s, ch) && WellKept(s) && !ExitsEarly(s.t, ch.pods) && Explains(c, s, ch, w)
    requires id in w.p.available
    ensures id in s.store && IsAvailable(SyncCondition(s.store[id], Selected(ch.plan)))
    ensures Lookup(Sync(s, ch).store, id) == Some(SyncCondition(s.store[id], Selected(ch.plan)))
  {
    assert id in w.k.available;
    MentionedIds(w.j, w.p, ch.plan, id);
    AvailableIsUnplanned(w.j, w.k, w.p, id);
    UnplannedIsUp(c, s, ch, id);
  }

  /** A sync computes the statuses afresh and leaves the spec alone. */
  lemma SyncedStatus(s: State, ch: Choice)
    requires !ExitsEarly(s.t, ch.pods)
    ensures Sync(s, ch).t.status.statuses
         == InstanceStatuses(s.t.spec, s.t.status.statuses, GatedPods(ch.pods, Selected(ch.plan)))
    ensures Sync(s, ch).t.status.appStatus == AppStatusOf(Sync(s, ch).t.status.statuses)
    ensures Sync(s, ch).t == s.t.(status := Sync(s, ch).t.status)
  {
  }

  lemma StaysWanted(c: Setup, before: TApp, after: TApp, id: Id)
    requires id in Wanted(c, before) && after.spec == before.spec && Read(after.status.statuses, id) == Some(Running)
    ensures id in Wanted(c, after)
  {
  }

  /** And it stays in the desired set: the new status says running. */
  lemma SurvivorStaysWanted(c: Setup, s: State, ch: Choice, id: Id)
    requires Lists(ch.pods, s.store) && Keyed(s.store) && !ExitsEarly(s.t, ch.pods)
    requires id in s.store && id in Wanted(c, s.t) && IsAvailable(SyncCondition(s.store[id], Selected(ch.plan)))
    ensures id in Wanted(c, Sync(s, ch).t)
  {
    var selected := Selected(ch.plan);
    GatedLists(ch.pods, s.store, selected);
    var pods, running := GatedPods(ch.pods, selected), Wanted(c, s.t);
    assert id in AvailablePods(PodMap(pods), running);
    AvailableIsRunning(s.t.spec, s.t.status.statuses, pods, running, id);
    SyncedStatus(s, ch);
    StaysWanted(c, s.t, Sync(s, ch).t, id);
  }

  ghost predicate BudgetsAllow(c: Setup, t: TApp, floor: int) {
    var n := |Wanted(c, t)|;
    (ForceBudget(t.spec, n).Some? ==> floor <= n - ForceBudget(t.spec, n).value)
    && (RollingBudget(t.spec, n).Some? ==> floor <= n - RollingBudget(t.spec, n).value)
  }

  lemma SurvivorStays(c: Setup, s: State, ch: Choice, w: Trace, id: Id)
    requires ValidChoice(c, s, ch) && WellKept(s) && !ExitsEarly(s.t, ch.pods) && Explains(c, s, ch, w)
    requires id in w.p.available
    ensures id in Available(c, Sync(s, ch))
  {
    SurvivorIsUp(c, s, ch, w, id);
    SurvivorStaysWanted(c, s, ch, id);
  }

  lemma SurvivorsStay(c: Setup, s: State, ch: Choice, w: Trace)
    requires ValidChoice(c, s, ch) && WellKept(s) && !ExitsEarly(s.t, ch.pods) && Explains(c, s, ch, w)
    ensures |w.p.available| <= |Available(c, Sync(s, ch))|
  {
    var after := Available(c, Sync(s, ch));
    forall id | id in w.p.available ensures id in after {
      SurvivorStays(c, s, ch, w, id);
    }
    SubsetCard(w.p.available, after);
  }

  /** One sync keeps every floor that the budgets allow. */
  lemma SyncKeepsFloor(c: Setup, s: State, ch: Choice, floor: int)
    requires ValidChoice(c, s, ch) && WellKept(s)
    requires floor <= |Available(c, s)| && BudgetsAllow(c, s.t, floor)
    ensures floor <= |Available(c, Sync(s, ch))|
  {
    if !ExitsEarly(s.t, ch.pods) {
      var w := SyncPlan(c, s, ch);
      SpendKeepsFloor(c, s, ch, w, floor);
      SurvivorsStay(c, s, ch, w);
    }
  }

  lemma SpendKeepsFloor(c: Setup, s: State, ch: Choice, w: Trace, floor: int)
    requires Explains(c, s, ch, w) && floor <= |Available(c, s)| && BudgetsAllow(c, s.t, floor)
    ensures |w.p.available| >= floor
  {
    var n := w.k.size;
    PlanKeepsFloor(w.k, w.order1, w.order2, ForceBudget(w.j.t.spec, n), RollingBudget(w.j.t.spec, n), floor);
  }

  lemma AdmittedLaunch(j: Job, k: Stock, p: Progress, order1: seq<Id>, order2: seq<Id>, pending: Id)
    requires Backed(j) && AllFit(j) && k == StockOf(j) && Sane(k) && IsOrder(k.vs, order1) && IsOrder(k.vs, order2)
    requires p == Transform(j, order1, order2) && AcceptedStrategy(j.t.spec) && k.available == j.running
    requires pending in j.actions && VerdictOf(j, pending).ChangeIt?
    ensures Launched(k.vs, p) != {}
  {
    assert VerdictFits(j, pending, VerdictOf(j, pending));
    SubsetCard({pending}, j.running);
    PendingIsCandidate(k.vs, pending);
    var n := |j.running|;
    AdmittedBudgetsArePositive(j.t.spec, n);
    var force, rolling := ForceBudget(j.t.spec, n).value, RollingBudget(j.t.spec, n).value;
    PendingChangeStarts(k, order1, order2, force, rolling);
  }

  lemma ChangeIsLaunched(c: Setup, s: State, ch: Choice, w: Trace, pending: Id)
    requires Explains(c, s, ch, w) && AcceptedStrategy(s.t.spec) && Available(c, s) == Wanted(c, s.t)
    requires pending in w.j.actions && (w.j.actions[pending] == UpdatePod || w.j.actions[pending] == RecreatePod)
    ensures Launched(w.k.vs, w.p) != {}
  {
    AdmittedLaunch(w.j, w.k, w.p, w.order1, w.order2, pending);
  }

  lemma PendingIsCandidate(vs: Verdicts, pending: Id)
    requires pending in vs && vs[pending].ChangeIt?
    ensures CandidateSet(vs, false) + CandidateSet(vs, true) != {}
  {
    assert pending in CandidateSet(vs, vs[pending].rolling);
  }

  /** Admission protects progress: with an admitted strategy, all desired pods available and a change
      pending, every plan starts one. */
  lemma AdmittedChangeStarts(c: Setup, s: State, ch: Choice, pending: Id) returns (id: Id)
    requires ValidChoice(c, s, ch) && AcceptedStrategy(s.t.spec) && Available(c, s) == Wanted(c, s.t)
    requires var actions := JobIn(c, s, ch.nodes).actions;
             pending in actions && (actions[pending] == UpdatePod || actions[pending] == RecreatePod)
    ensures id in Wanted(c, s.t) && (Mentions(ch.plan.update, id) || Mentions(ch.plan.del, id))
  {
    var w := SyncPlan(c, s, ch);
    ChangeIsLaunched(c, s, ch, w, pending);
    id :| id in Launched(w.k.vs, w.p);
    LaunchedIsWanted(w.j, w.k, w.p, id);
    MentionedIds(w.j, w.p, ch.plan, id);
  }

  lemma LaunchedIsWanted(j: Job, k: Stock, p: Progress, id: Id)
    requires Backed(j) && AllFit(j) && k == StockOf(j) && Underway(k, p) && id in Launched(k.vs, p)
    ensures id in j.running && (id in p.update || id in p.del)
  {
    assert VerdictFits(j, id, VerdictOf(j, id));
  }

  // ---------------------------------------------------------------- runs

  ghost predicate SyncStep(c: Setup, s: State, next: State) {
    exists ch :: ValidChoice(c, s, ch) && next == Sync(s, ch)
  }

  /** The environment may do anything, change the app included, but takes no available pod away. */
  ghost predicate EnvironmentStep(c: Setup, s: State, next: State) {
    WellKept(next) && Available(c, s) <= Available(c, next)
  }

  ghost predicate Next(c: Setup, s: State, next: State) {
    SyncStep(c, s, next) || EnvironmentStep(c, s, next)
  }

  ghost predicate StepAt(c: Setup, run: seq<State>, i: nat) {
    0 < i < |run| ==> Next(c, run[i - 1], run[i])
  }

  ghost predicate IsRun(c: Setup, run: seq<State>) {
    run != [] && WellKept(run[0]) && forall i :: StepAt(c, run, i)
  }

  lemma AddedPodIsKept(c: Setup, s: State, ch: Choice, i: nat)
    requires ValidChoice(c, s, ch) && i < |ch.plan.add|
    ensures var pod := Admitted(ch.plan.add[i].pod);
            PodIndex(pod) == Some(ch.plan.add[i].id) && pod.name == PodName(s.t.name, ch.plan.add[i].id)
  {
    SoundPartition(c.deleteAfterFinish, c.h, s.t, ch.nodes, s.store, ch.plan);
  }

  lemma UpdatedPodIsKept(c: Setup, s: State, ch: Choice, i: nat, pod: Pod)
    requires ValidChoice(c, s, ch) && i < |ch.plan.update|
    ensures var merged := MergePod(pod, ch.plan.update[i].pod);
            PodIndex(merged) == Some(ch.plan.update[i].id) && merged.name == pod.name
  {
    SoundPartition(c.deleteAfterFinish, c.h, s.t, ch.nodes, s.store, ch.plan);
    MergeKeepsId(Hashed(c.h, s.t), ch.plan.update[i].id, pod);
  }

  lemma MergeKeepsId(t: TApp, id: Id, pod: Pod)
    requires NewPod(t, id).Some?
    ensures var merged := MergePod(pod, MarkUpdating(NewPod(t, id).value));
            PodIndex(merged) == Some(id) && merged.name == pod.name
  {
  }

  lemma GatedPodIsKept(s: State, selected: set<string>, id: Id)
    requires WellKept(s) && id in s.store
    ensures var pod := GatedStore(s.store, selected)[id];
            PodIndex(pod) == Some(id) && pod.name == PodName(s.t.name, id)
  {
  }

  lemma SyncKeepsPod(c: Setup, s: State, ch: Choice, id: Id)
    requires ValidChoice(c, s, ch) && WellKept(s) && !ExitsEarly(s.t, ch.pods) && id in Sync(s, ch).store
    requires DistinctIds(AllInstances(ch.plan))
    ensures PodIndex(Sync(s, ch).store[id]) == Some(id) && Sync(s, ch).store[id].name == PodName(s.t.name, id)
  {
    var plan, gated := ch.plan, GatedStore(s.store, Selected(ch.plan));
    if id in s.store { GatedPodIsKept(s, Selected(plan), id); }
    if i :| 0 <= i < |plan.add| && plan.add[i].id == id {
      SyncedByCreate(gated, plan, i);
      AddedPodIsKept(c, s, ch, i);
    } else if i :| 0 <= i < |plan.update| && plan.update[i].id == id {
      SyncedByUpdate(gated, plan, i);
      UpdatedPodIsKept(c, s, ch, i, gated[id]);
    } else {
      OnlyDeleted(gated, plan, id);
    }
  }

  lemma SyncKeepsWellKept(c: Setup, s: State, ch: Choice)
    requires ValidChoice(c, s, ch) && WellKept(s)
    ensures WellKept(Sync(s, ch))
  {
    if !ExitsEarly(s.t, ch.pods) {
      SyncedStatus(s, ch);
      var _ := SyncPlan(c, s, ch);
      forall id | id in Sync(s, ch).store
        ensures PodIndex(Sync(s, ch).store[id]) == Some(id) && Sync(s, ch).store[id].name == PodName(s.t.name, id)
      {
        SyncKeepsPod(c, s, ch, id);
      }
    }
  }

  ghost predicate Holds(c: Setup, s: State, floor: int) {
    WellKept(s) && floor <= |Available(c, s)|
  }

  lemma NextKeeps(c: Setup, s: State, next: State, floor: int)
    requires Holds(c, s, floor) && Next(c, s, next) && BudgetsAllow(c, s.t, floor)
    ensures Holds(c, next, floor)
  {
    if SyncStep(c, s, next) {
      var ch :| ValidChoice(c, s, ch) && next == Sync(s, ch);
      SyncKeepsWellKept(c, s, ch);
      SyncKeepsFloor(c, s, ch, floor);
    } else {
      SubsetCard(Available(c, s), Available(c, next));
    }
  }

  /** Whole-run availability: every floor that holds at the start and that the budgets allow in every
      state of a run is kept in every state, whatever the orders, even as the desired set and the spec
      change on the way. */
  lemma AvailabilityFloor(c: Setup, run: seq<State>, floor: int, i: nat)
    requires IsRun(c, run) && i < |run|
    requires floor <= |Available(c, run[0])| && forall m :: 0 <= m < |run| ==> BudgetsAllow(c, run[m].t, floor)
    ensures floor <= |Available(c, run[i])|
  {
    for k := 0 to i
      invariant Holds(c, run[k], floor)
    {
      assert StepAt(c, run, k + 1);
      NextKeeps(c, run[k], run[k + 1], floor);
    }
  }

  /** With the spec and a desired set of size n fixed, the floor is the least of the initial availability
      and n less either budget. */
  lemma FixedSpecFloor(c: Setup, run: seq<State>, i: nat)
    requires IsRun(c, run) && i < |run|
    requires forall m :: 0 <= m < |run| ==> run[m].t.spec == run[0].t.spec && Wanted(c, run[m].t) == Wanted(c, run[0].t)
    requires ForceBudget(run[0].t.spec, |Wanted(c, run[0].t)|).Some?
    requires RollingBudget(run[0].t.spec, |Wanted(c, run[0].t)|).Some?
    ensures var n := |Wanted(c, run[0].t)|;
            var force, rolling := ForceBudget(run[0].t.spec, n).value, RollingBudget(run[0].t.spec, n).value;
            |Available(c, run[i])| >= Min(|Available(c, run[0])|, Min(n - force, n - rolling))
  {
    var n := |Wanted(c, run[0].t)|;
    var force, rolling := ForceBudget(run[0].t.spec, n).value, RollingBudget(run[0].t.spec, n).value;
    AvailabilityFloor(c, run, Min(|Available(c, run[0])|, Min(n - force, n - rolling)), i);
  }
}
