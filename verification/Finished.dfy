/** Finished instances and finished apps over whole runs, and the early exit of a sync. */
module Finished {
  import opened Decimal
  import opened Model
  import opened Templates
  import opened Instances
  import opened Syncer
  import opened Readiness
  import opened Planner
  import opened Transformer
  import opened Selection
  import opened Guarantees
  import opened Status
  import opened Cluster

  /** A pod that has ended and is not to be started again elsewhere. */
  predicate Terminal(spec: TAppSpec, pod: Pod, id: Id) {
    IsPodCompleted(pod) && ShouldPodMigrate(spec, pod, id) == Decided(false)
  }

  lemma TerminalAfterGate(spec: TAppSpec, pod: Pod, id: Id, selected: set<string>)
    requires Terminal(spec, pod, id)
    ensures Terminal(spec, SyncCondition(pod, selected), id)
    ensures Terminal(spec, SyncCondition(pod, selected).(dying := true), id)
  {
  }

  predicate FailedOrSucc(status: InstanceStatus) {
    status == Failed || status == Succ
  }

  /** Terminal pods speak of a finished instance only as failed or succeeded, dying or not. */
  lemma {:induction false} TerminalPodsStatus(spec: TAppSpec, pods: seq<Pod>, id: Id)
    requires forall k :: 0 <= k < |pods| && PodIndex(pods[k]) == Some(id) ==> Terminal(spec, pods[k], id)
    ensures var s := StatusAt(spec, true, pods, id);
            && (s.Some? ==> FailedOrSucc(s.value))
            && (s.None? ==> forall k :: 0 <= k < |pods| ==> PodIndex(pods[k]) != Some(id))
  {
    if pods != [] {
      var init := pods[..|pods| - 1];
      assert forall k :: 0 <= k < |init| ==> init[k] == pods[k];
      TerminalPodsStatus(spec, init, id);
    }
  }

  lemma GatedTerminal(s: State, ch: Choice, id: Id)
    requires Lists(ch.pods, s.store) && Keyed(s.store)
    requires id in s.store ==> Terminal(s.t.spec, s.store[id], id)
    ensures var pods := GatedPods(ch.pods, Selected(ch.plan));
            forall k :: 0 <= k < |pods| && PodIndex(pods[k]) == Some(id) ==> Terminal(s.t.spec, pods[k], id)
  {
    var pods := GatedPods(ch.pods, Selected(ch.plan));
    forall k | 0 <= k < |pods| && PodIndex(pods[k]) == Some(id) ensures Terminal(s.t.spec, pods[k], id) {
      assert Stored(ch.pods[k], s.store);
      TerminalAfterGate(s.t.spec, ch.pods[k], id, Selected(ch.plan));
    }
  }

  // ---------------------------------------------------------------- one finished instance

  /** The instance has finished and what is left of its pod is terminal. */
  predicate InstanceOver(s: State, id: Id) {
    id in s.t.status.statuses && IsInstanceFinished(s.t.status.statuses[id])
    && (s.t.status.statuses[id] == Killed ==> StatusOf(s.t.spec.statuses, id) == Killed)
    && (id in s.store ==> Terminal(s.t.spec, s.store[id], id))
  }

  lemma OverIsCompleted(c: Setup, s: State, id: Id)
    requires InstanceOver(s, id) && (!c.deleteAfterFinish || IsTAppFinished(s.t))
    ensures id in DesiredCompleted(c.deleteAfterFinish, s.t) && id !in Wanted(c, s.t)
  {
  }

  /** The status of a finished instance stays finished, also while its pod is dying or already gone. */
  lemma OverStatusStays(s: State, ch: Choice, id: Id)
    requires Lists(ch.pods, s.store) && Keyed(s.store) && !ExitsEarly(s.t, ch.pods) && InstanceOver(s, id)
    requires id in Ordinals(s.t.spec.replicas) || id in s.store
    ensures var t := Sync(s, ch).t;
            id in t.status.statuses && IsInstanceFinished(t.status.statuses[id])
            && (t.status.statuses[id] == Killed ==> StatusOf(t.spec.statuses, id) == Killed)
  {
    var pods := GatedPods(ch.pods, Selected(ch.plan));
    GatedTerminal(s, ch, id);
    TerminalPodsStatus(s.t.spec, pods, id);
    InstanceStatusesAt(s.t.spec, s.t.status.statuses, pods, id);
    SyncedStatus(s, ch);
    if id in s.store {
      GatedLists(ch.pods, s.store, Selected(ch.plan));
      PodMapHoldsLast(pods, id);
    }
  }

  /** The sync creates the pod of a finished instance again: pods are kept until the app has finished, it
      has not, and the pod is gone. */
  predicate Recreates(c: Setup, s: State, id: Id) {
    && c.deleteAfterFinish && !IsTAppFinished(s.t) && id !in s.store && id in Ordinals(s.t.spec.replicas)
    && StatusOf(s.t.spec.statuses, id) != Killed && NewPod(Hashed(c.h, s.t), id).Some?
  }

  lemma OverAction(c: Setup, s: State, nodes: NodeStore, id: Id)
    requires InstanceOver(s, id)
    ensures var actions := JobIn(c, s, nodes).actions;
            && (id in actions && actions[id] == CreatePod <==> id !in s.store && id in Wanted(c, s.t))
            && (id in actions && actions[id] != CreatePod ==> actions[id] == DeletePod && id in s.store)
  {
    NextActionsAt(c.deleteAfterFinish, Hashed(c.h, s.t), s.store, id);
    HashKeepsDesired(c.deleteAfterFinish, c.h, s.t);
    if id in s.store {
      HashKeepsMigration(c.h, s.t.spec, s.store[id], id);
    }
  }

  lemma HashKeepsMigration(h: Hasher, spec: TAppSpec, pod: Pod, id: Id)
    ensures ShouldPodMigrate(UpdateTemplateHash(h, spec), pod, id) == ShouldPodMigrate(spec, pod, id)
  {
    assert forall template: Template :: HashTemplate(h, template).spec == template.spec;
  }

  lemma OverWanted(c: Setup, s: State, id: Id)
    requires InstanceOver(s, id)
    ensures id in Wanted(c, s.t) <==>
              c.deleteAfterFinish && !IsTAppFinished(s.t) && id in Ordinals(s.t.spec.replicas)
              && StatusOf(s.t.spec.statuses, id) != Killed
  {
  }

  /** Exactly when a sync starts a finished instance again, and it never updates one. */
  lemma OverPlan(c: Setup, s: State, ch: Choice, id: Id)
    requires ValidChoice(c, s, ch) && InstanceOver(s, id)
    ensures Mentions(ch.plan.add, id) <==> Recreates(c, s, id)
    ensures !Mentions(ch.plan.update, id)
  {
    var w := SyncPlan(c, s, ch);
    OverAction(c, s, ch.nodes, id);
    OverWanted(c, s, id);
    PlacedInPlan(c, s, ch, w, id);
    OverVerdict(w.j, id);
  }

  lemma OverVerdict(j: Job, id: Id)
    requires Backed(j) && (id in j.actions ==> j.actions[id] == CreatePod || j.actions[id] == DeletePod)
    ensures var v := VerdictAt(VerdictsOf(j), id);
            (v == AddIt <==> id in j.actions && j.actions[id] == CreatePod && NewPod(j.t, id).Some?) && !v.ChangeIt?
  {
  }

  lemma RecreatedPod(c: Setup, s: State, ch: Choice, id: Id)
    requires ValidChoice(c, s, ch) && !ExitsEarly(s.t, ch.pods) && id !in s.store && Mentions(ch.plan.add, id)
    ensures id in Sync(s, ch).store && !IsPodCompleted(Sync(s, ch).store[id])
  {
    PlannedIdsAreDistinct(c.deleteAfterFinish, c.h, s.t, ch.nodes, s.store, ch.plan);
    CreatedIsPending(GatedStore(s.store, Selected(ch.plan)), ch.plan, id);
  }

  lemma RemainingPod(c: Setup, s: State, ch: Choice, id: Id)
    requires ValidChoice(c, s, ch) && !ExitsEarly(s.t, ch.pods) && InstanceOver(s, id)
    requires !Mentions(ch.plan.add, id) && !Mentions(ch.plan.update, id) && id in Sync(s, ch).store
    ensures id in s.store && Terminal(s.t.spec, Sync(s, ch).store[id], id)
    ensures s.store[id].dying ==> Sync(s, ch).store[id].dying
  {
    PlannedIdsAreDistinct(c.deleteAfterFinish, c.h, s.t, ch.nodes, s.store, ch.plan);
    OnlyDeleted(GatedStore(s.store, Selected(ch.plan)), ch.plan, id);
    TerminalAfterGate(s.t.spec, s.store[id], id, Selected(ch.plan));
  }

  /** What is left of its pod is still terminal; an instance recreated has a pod that is not. */
  lemma OverPodAfter(c: Setup, s: State, ch: Choice, id: Id)
    requires ValidChoice(c, s, ch) && !ExitsEarly(s.t, ch.pods) && InstanceOver(s, id)
    ensures !Recreates(c, s, id) && id in Sync(s, ch).store ==>
              id in s.store && Terminal(s.t.spec, Sync(s, ch).store[id], id)
    ensures Recreates(c, s, id) ==> id in Sync(s, ch).store && !Terminal(s.t.spec, Sync(s, ch).store[id], id)
  {
    OverPlan(c, s, ch, id);
    if Recreates(c, s, id) {
      RecreatedPod(c, s, ch, id);
    } else if id in Sync(s, ch).store {
      RemainingPod(c, s, ch, id);
    }
  }

  /** Without an unfinished app that holds on to its pods, what is left is on its way out as well. */
  lemma OverPodLeaves(c: Setup, s: State, ch: Choice, id: Id)
    requires ValidChoice(c, s, ch) && !ExitsEarly(s.t, ch.pods)
    requires InstanceOver(s, id) && (!c.deleteAfterFinish || IsTAppFinished(s.t))
    ensures id in Sync(s, ch).store ==>
              id in s.store && Sync(s, ch).store[id].dying && Terminal(s.t.spec, Sync(s, ch).store[id], id)
  {
    if id in Sync(s, ch).store {
      OverPlan(c, s, ch, id);
      RemainingPod(c, s, ch, id);
      if !s.store[id].dying { OverPodIsDeleted(c, s, ch, id); }
    }
  }

  lemma OverPodIsDeleted(c: Setup, s: State, ch: Choice, id: Id)
    requires ValidChoice(c, s, ch) && !ExitsEarly(s.t, ch.pods) && id in s.store && !s.store[id].dying
    requires InstanceOver(s, id) && (!c.deleteAfterFinish || IsTAppFinished(s.t))
    requires !Mentions(ch.plan.add, id) && !Mentions(ch.plan.update, id) && id in Sync(s, ch).store
    ensures Sync(s, ch).store[id].dying
  {
    OverIsCompleted(c, s, id);
    UnwantedIsMentioned(c.deleteAfterFinish, c.h, s.t, ch.nodes, s.store, ch.plan, id);
    PlannedIdsAreDistinct(c.deleteAfterFinish, c.h, s.t, ch.nodes, s.store, ch.plan);
    OnlyDeleted(GatedStore(s.store, Selected(ch.plan)), ch.plan, id);
  }

  /** What the environment may do to one finished instance: set the pod dying, remove it, change its
      conditions; not revive it, and not touch the app. */
  ghost predicate LeavesOver(s: State, next: State, id: Id) {
    next.t == s.t && WellKept(next)
    && (id in next.store ==> id in s.store && Terminal(s.t.spec, next.store[id], id)
                             && (s.store[id].dying ==> next.store[id].dying))
  }

  ghost predicate InstanceRun(c: Setup, run: seq<State>, id: Id) {
    run != [] && WellKept(run[0]) && forall m :: InstanceStepAt(c, run, id, m)
  }

  ghost predicate InstanceStepAt(c: Setup, run: seq<State>, id: Id, m: nat) {
    0 < m < |run| ==> SyncStep(c, run[m - 1], run[m]) || LeavesOver(run[m - 1], run[m], id)
  }

  ghost predicate OverFrom(first: State, s: State, id: Id) {
    WellKept(s) && s.t.spec == first.t.spec && InstanceOver(s, id) && (id in s.store ==> id in first.store)
  }

  lemma OverStep(c: Setup, first: State, s: State, next: State, id: Id)
    requires id in Ordinals(first.t.spec.replicas) && OverFrom(first, s, id)
    requires SyncStep(c, s, next) || LeavesOver(s, next, id)
    ensures InstanceOver(next, id) ==> OverFrom(first, next, id)
    ensures SyncStep(c, s, next) ==> (InstanceOver(next, id) <==> !Recreates(c, s, id))
    ensures !SyncStep(c, s, next) ==> InstanceOver(next, id)
  {
    if SyncStep(c, s, next) {
      var ch :| ValidChoice(c, s, ch) && next == Sync(s, ch);
      OverSync(c, s, ch, id);
    }
  }

  /** One sync keeps a finished instance over exactly when it does not create it again. */
  lemma OverSync(c: Setup, s: State, ch: Choice, id: Id)
    requires ValidChoice(c, s, ch) && WellKept(s) && InstanceOver(s, id) && id in Ordinals(s.t.spec.replicas)
    ensures WellKept(Sync(s, ch)) && Sync(s, ch).t.spec == s.t.spec
    ensures InstanceOver(Sync(s, ch), id) <==> !Recreates(c, s, id)
    ensures InstanceOver(Sync(s, ch), id) && id in Sync(s, ch).store ==> id in s.store
  {
    SyncKeepsWellKept(c, s, ch);
    if !ExitsEarly(s.t, ch.pods) {
      SyncedStatus(s, ch);
      OverStatusStays(s, ch, id);
      OverPodAfter(c, s, ch, id);
    }
  }

  ghost predicate RecreatedAt(c: Setup, run: seq<State>, id: Id, m: nat) {
    0 < m < |run| && SyncStep(c, run[m - 1], run[m]) && Recreates(c, run[m - 1], id)
  }

  ghost predicate OverAt(run: seq<State>, id: Id, m: nat) {
    m < |run| && InstanceOver(run[m], id)
  }

  /** Over at a point of a run, with the spec and at most the pod it began with. */
  ghost predicate KeptAt(run: seq<State>, id: Id, m: nat) {
    m < |run| && OverFrom(run[0], run[m], id)
  }

  /** A run that starts with a finished instance among the ordinals. */
  ghost predicate OverRun(c: Setup, run: seq<State>, id: Id) {
    InstanceRun(c, run, id) && id in Ordinals(run[0].t.spec.replicas) && InstanceOver(run[0], id)
  }

  lemma KeptNext(c: Setup, run: seq<State>, id: Id, m: nat)
    requires OverRun(c, run, id) && 0 < m < |run| && KeptAt(run, id, m - 1)
    ensures OverAt(run, id, m) <==> !RecreatedAt(c, run, id, m)
    ensures OverAt(run, id, m) ==> KeptAt(run, id, m)
  {
    assert InstanceStepAt(c, run, id, m);
    OverStep(c, run[0], run[m - 1], run[m], id);
  }

  /** No sync up to a point of the run creates the instance again. */
  ghost predicate Unrecreated(c: Setup, run: seq<State>, id: Id, i: nat) {
    i == 0 || (!RecreatedAt(c, run, id, i) && Unrecreated(c, run, id, i - 1))
  }

  /** The instance is over at every point of the run so far. */
  ghost predicate OverUpTo(run: seq<State>, id: Id, i: nat) {
    OverAt(run, id, i) && (i == 0 || OverUpTo(run, id, i - 1))
  }

  /** Up to the first recreation the instance is over, and from then on no longer all along. */
  lemma {:induction false} OverWhileUnrecreated(c: Setup, run: seq<State>, id: Id, i: nat)
    requires OverRun(c, run, id) && i < |run|
    ensures OverUpTo(run, id, i) <==> Unrecreated(c, run, id, i)
    ensures Unrecreated(c, run, id, i) ==> KeptAt(run, id, i)
  {
    if i == 0 {
      assert KeptAt(run, id, 0);
    } else {
      OverWhileUnrecreated(c, run, id, i - 1);
      if KeptAt(run, id, i - 1) { KeptNext(c, run, id, i); }
    }
  }

  /** The cross-sync guarantee and its limit: over every run with an unchanged spec, an instance recorded
      as finished stays so while its pod dies and after it is gone, exactly as long as no sync creates it
      again, and until then a pod is there only if it was there from the start. */
  lemma FinishedInstanceStaysFinished(c: Setup, run: seq<State>, id: Id, i: nat)
    requires OverRun(c, run, id) && i < |run|
    ensures OverUpTo(run, id, i) <==> Unrecreated(c, run, id, i)
    ensures Unrecreated(c, run, id, i) ==> KeptAt(run, id, i)
  {
    OverWhileUnrecreated(c, run, id, i);
  }

  lemma {:induction false} NeverRecreated(c: Setup, run: seq<State>, id: Id, i: nat)
    requires !c.deleteAfterFinish
    ensures Unrecreated(c, run, id, i)
  {
    if i > 0 { NeverRecreated(c, run, id, i - 1); }
  }

  /** Unless pods are kept until the app has finished, no finished instance is created again. */
  lemma FinishedForGood(c: Setup, run: seq<State>, id: Id, i: nat)
    requires !c.deleteAfterFinish && OverRun(c, run, id) && i < |run|
    ensures InstanceOver(run[i], id) && (id in run[i].store ==> id in run[0].store)
  {
    NeverRecreated(c, run, id, i);
    FinishedInstanceStaysFinished(c, run, id, i);
  }

  // ---------------------------------------------------------------- a finished app

  ghost predicate AppOver(s: State) {
    && WellKept(s) && s.t.spec.replicas >= 1 && IsTAppFinished(s.t)
    && (forall id :: id in Ordinals(s.t.spec.replicas) || id in s.store || id in s.t.status.statuses ==>
        InstanceOver(s, id))
  }

  lemma OverAppWantsNothing(c: Setup, s: State)
    requires AppOver(s)
    ensures Wanted(c, s.t) == {}
  {
    forall id | id in Ordinals(s.t.spec.replicas) ensures id !in Wanted(c, s.t) {
      OverIsCompleted(c, s, id);
    }
  }

  lemma OverAppStatus(s: State, ch: Choice)
    requires AppOver(s) && Lists(ch.pods, s.store) && !ExitsEarly(s.t, ch.pods)
    ensures IsTAppFinished(Sync(s, ch).t)
    ensures forall id :: id in Sync(s, ch).t.status.statuses ==> id in Ordinals(s.t.spec.replicas) || id in s.store
  {
    var pods := GatedPods(ch.pods, Selected(ch.plan));
    var statuses := InstanceStatuses(s.t.spec, s.t.status.statuses, pods);
    SyncedStatus(s, ch);
    GatedLists(ch.pods, s.store, Selected(ch.plan));
    forall id | id in statuses
      ensures (id in Ordinals(s.t.spec.replicas) || id in s.store) && IsInstanceFinished(statuses[id])
    {
      InstanceStatusesAt(s.t.spec, s.t.status.statuses, pods, id);
      if id !in Ordinals(s.t.spec.replicas) {
        StatusNeedsPod(s.t.spec, IsInstanceFinished(StatusOf(s.t.status.statuses, id)), pods, id);
        PodMapHoldsLast(pods, id);
      }
      OverStatusStays(s, ch, id);
    }
    assert Print(0) in Ordinals(s.t.spec.replicas);
    OverStatusStays(s, ch, Print(0));
    AppStatusMeaning(s.t.spec, s.t.status.statuses, pods);
  }

  lemma {:induction false} StatusNeedsPod(spec: TAppSpec, finishedBefore: bool, pods: seq<Pod>, id: Id)
    requires StatusAt(spec, finishedBefore, pods, id).Some?
    ensures exists k :: 0 <= k < |pods| && PodIndex(pods[k]) == Some(id)
  {
    if PodIndex(pods[|pods| - 1]) != Some(id) || PodStatus(spec, finishedBefore, pods[|pods| - 1], id).None? {
      var init := pods[..|pods| - 1];
      StatusNeedsPod(spec, finishedBefore, init, id);
      var k :| 0 <= k < |init| && PodIndex(init[k]) == Some(id);
      assert pods[k] == init[k];
    }
  }

  lemma NothingPlanned(c: Setup, s: State, ch: Choice)
    requires AppOver(s) && ValidChoice(c, s, ch)
    ensures ch.plan.add == [] && ch.plan.update == []
  {
    OverAppWantsNothing(c, s);
    SoundPartition(c.deleteAfterFinish, c.h, s.t, ch.nodes, s.store, ch.plan);
    NoIdsNoInstances(ch.plan.add);
    NoIdsNoInstances(ch.plan.update);
    assert IdSet(ch.plan.add) <= Wanted(c, s.t) && IdSet(ch.plan.update) <= Wanted(c, s.t);
  }

  function IdSet(xs: seq<Instance>): set<Id> {
    set i | 0 <= i < |xs| :: xs[i].id
  }

  lemma NoIdsNoInstances(xs: seq<Instance>)
    ensures IdSet(xs) == {} ==> xs == []
  {
    if xs != [] {
      assert xs[0].id in IdSet(xs);
    }
  }

  lemma EmptyListing(pods: seq<Pod>, store: Store)
    requires Lists(pods, store)
    ensures pods == [] ==> store == map[]
  {
    if store != map[] {
      var id :| id in store;
      assert store[id] in pods;
    }
  }

  lemma OverAfterSync(c: Setup, s: State, ch: Choice, id: Id)
    requires AppOver(s) && ValidChoice(c, s, ch) && !ExitsEarly(s.t, ch.pods)
    requires id in Ordinals(s.t.spec.replicas) || id in s.store
    ensures InstanceOver(Sync(s, ch), id)
  {
    SyncedStatus(s, ch);
    OverStatusStays(s, ch, id);
    OverPodLeaves(c, s, ch, id);
  }

  lemma FinishedAppFullSync(c: Setup, s: State, ch: Choice)
    requires AppOver(s) && ValidChoice(c, s, ch) && !ExitsEarly(s.t, ch.pods)
    ensures AppOver(Sync(s, ch))
    ensures forall id :: id in Sync(s, ch).store ==> id in s.store && Sync(s, ch).store[id].dying
  {
    var next := Sync(s, ch);
    NothingPlanned(c, s, ch);
    SyncKeepsWellKept(c, s, ch);
    SyncedStatus(s, ch);
    OverAppStatus(s, ch);
    forall id | id in next.store ensures id in s.store && next.store[id].dying {
      OverPodInSync(c, s, ch, id);
    }
    forall id | id in Ordinals(s.t.spec.replicas) || id in next.store || id in next.t.status.statuses
      ensures InstanceOver(next, id)
    {
      OverAfterSync(c, s, ch, id);
    }
  }

  /** One sync of a finished app: nothing is created or updated, every pod is dying or gone afterwards,
      and the app is still finished. */
  lemma FinishedAppSync(c: Setup, s: State, ch: Choice)
    requires AppOver(s) && ValidChoice(c, s, ch)
    ensures ch.plan.add == [] && ch.plan.update == []
    ensures AppOver(Sync(s, ch)) && Sync(s, ch).t.spec == s.t.spec
    ensures forall id :: id in Sync(s, ch).store ==> id in s.store && Sync(s, ch).store[id].dying
  {
    NothingPlanned(c, s, ch);
    if ExitsEarly(s.t, ch.pods) {
      EmptyListing(ch.pods, s.store);
    } else {
      SyncedStatus(s, ch);
      FinishedAppFullSync(c, s, ch);
    }
  }

  lemma OverPodInSync(c: Setup, s: State, ch: Choice, id: Id)
    requires AppOver(s) && ValidChoice(c, s, ch) && !ExitsEarly(s.t, ch.pods) && id in Sync(s, ch).store
    requires ch.plan.add == []
    ensures id in s.store && Sync(s, ch).store[id].dying
  {
    PlannedIdsAreDistinct(c.deleteAfterFinish, c.h, s.t, ch.nodes, s.store, ch.plan);
    NothingPlanned(c, s, ch);
    OnlyDeleted(GatedStore(s.store, Selected(ch.plan)), ch.plan, id);
    OverPodLeaves(c, s, ch, id);
  }

  ghost predicate LeavesAllOver(s: State, next: State) {
    next.t == s.t && forall id :: LeavesOver(s, next, id)
  }

  ghost predicate AppRun(c: Setup, run: seq<State>) {
    run != [] && forall m :: AppStepAt(c, run, m)
  }

  ghost predicate AppStepAt(c: Setup, run: seq<State>, m: nat) {
    0 < m < |run| ==> SyncStep(c, run[m - 1], run[m]) || LeavesAllOver(run[m - 1], run[m])
  }

  ghost predicate AppOverFrom(first: State, s: State) {
    AppOver(s) && s.t.spec == first.t.spec && s.store.Keys <= first.store.Keys
  }

  lemma AppOverStep(c: Setup, first: State, s: State, next: State)
    requires AppOverFrom(first, s) && (SyncStep(c, s, next) || LeavesAllOver(s, next))
    ensures AppOverFrom(first, next)
  {
    if SyncStep(c, s, next) {
      var ch :| ValidChoice(c, s, ch) && next == Sync(s, ch);
      FinishedAppSync(c, s, ch);
    } else {
      assert LeavesOver(s, next, "");
      forall id | id in next.store ensures id in s.store { assert LeavesOver(s, next, id); }
      forall id | id in Ordinals(s.t.spec.replicas) || id in next.store || id in next.t.status.statuses
        ensures InstanceOver(next, id)
      {
        assert LeavesOver(s, next, id);
        assert InstanceOver(s, id);
      }
    }
  }

  /** A finished app stays finished over every run with an unchanged spec, while its pods die and after
      they are gone, and no pod ever joins. */
  lemma FinishedAppStaysFinished(c: Setup, run: seq<State>, i: nat)
    requires AppRun(c, run) && AppOver(run[0]) && i < |run|
    ensures AppOver(run[i]) && IsTAppFinished(run[i].t) && run[i].store.Keys <= run[0].store.Keys
  {
    for k := 0 to i
      invariant AppOverFrom(run[0], run[k])
    {
      assert AppStepAt(c, run, k + 1);
      AppOverStep(c, run[0], run[k], run[k + 1]);
    }
  }

  ghost predicate AllDying(s: State) {
    forall id :: id in s.store ==> s.store[id].dying
  }

  /** A finished app whose remaining pods are on their way out. */
  ghost predicate OnlyDying(s: State) {
    AppOver(s) && AllDying(s)
  }

  /** Once a sync has run, all pods that are still there are on their way out, for the rest of the run. */
  lemma FinishedAppPodsLeave(c: Setup, run: seq<State>, first: nat, i: nat)
    requires AppRun(c, run) && AppOver(run[0]) && first <= i < |run| && SyncedAt(c, run, first)
    ensures AllDying(run[i])
  {
    for k := 0 to i
      invariant Leaving(first, k, run[k])
    {
      LeavingAt(c, run, first, k + 1);
    }
  }

  ghost predicate SyncedAt(c: Setup, run: seq<State>, m: nat) {
    0 < m < |run| && SyncStep(c, run[m - 1], run[m])
  }

  ghost predicate Leaving(first: nat, k: nat, s: State) {
    AppOver(s) && (k >= first ==> AllDying(s))
  }

  lemma LeavingAt(c: Setup, run: seq<State>, first: nat, k: nat)
    requires AppRun(c, run) && SyncedAt(c, run, first) && 0 < k < |run| && Leaving(first, k - 1, run[k - 1])
    ensures Leaving(first, k, run[k])
  {
    assert AppStepAt(c, run, k);
    LeavingStep(c, first, k, run[k - 1], run[k]);
  }

  lemma LeavingStep(c: Setup, first: nat, k: nat, s: State, next: State)
    requires k > 0 && Leaving(first, k - 1, s) && (SyncStep(c, s, next) || LeavesAllOver(s, next))
    requires k == first ==> SyncStep(c, s, next)
    ensures Leaving(first, k, next)
  {
    if k == first {
      SyncKillsAll(c, s, next);
    } else if k > first {
      DyingStep(c, s, next);
    } else {
      AppOverStep(c, s, s, next);
    }
  }

  lemma SyncKillsAll(c: Setup, s: State, next: State)
    requires AppOver(s) && SyncStep(c, s, next)
    ensures OnlyDying(next)
  {
    var ch :| ValidChoice(c, s, ch) && next == Sync(s, ch);
    FinishedAppSync(c, s, ch);
  }

  lemma DyingStep(c: Setup, s: State, next: State)
    requires OnlyDying(s) && (SyncStep(c, s, next) || LeavesAllOver(s, next))
    ensures OnlyDying(next)
  {
    AppOverStep(c, s, s, next);
    if SyncStep(c, s, next) {
      SyncKillsAll(c, s, next);
    } else {
      forall id | id in next.store ensures next.store[id].dying { assert LeavesOver(s, next, id); }
    }
  }

  // ---------------------------------------------------------------- the early exit

  lemma EmptyOrder(vs: Verdicts, order: seq<Id>)
    requires IsOrder(vs, order)
    ensures vs == map[] ==> order == []
  {
    assert |multiset(order)| == |order|;
    assert vs == map[] ==> multiset(vs.Keys) == multiset{};
  }

  /** Without actions the plan is empty. */
  lemma NoActionsNoPlan(j: Job, plan: Plan)
    requires IsPlan(j, plan) && j.actions == map[]
    ensures plan == Plan([], [], [], [])
  {
    var order1, order2 :| IsOrder(VerdictsOf(j), order1) && IsOrder(VerdictsOf(j), order2)
      && Buildable(j, Transform(j, order1, order2)) && plan == PlanOf(j, Transform(j, order1, order2));
    assert VerdictsOf(j) == map[];
    EmptyOrder(VerdictsOf(j), order1);
    EmptyOrder(VerdictsOf(j), order2);
    assert SortIds([]) == [];
  }

  /** Without pods the planner wants to create exactly the desired set. */
  lemma ActionsWithoutPods(c: Setup, t: TApp, nodes: NodeStore)
    ensures JobOf(c.deleteAfterFinish, c.h, t, nodes, map[]).actions.Keys == Wanted(c, t)
  {
    var j := JobOf(c.deleteAfterFinish, c.h, t, nodes, map[]);
    HashKeepsDesired(c.deleteAfterFinish, c.h, t);
    forall id ensures id in j.actions <==> id in Wanted(c, t) {
      NextActionsAt(c.deleteAfterFinish, Hashed(c.h, t), map[], id);
    }
  }

  /** An ordinal of a finished app is still wanted only if it is recorded as killed against the spec. */
  lemma WantedOfFinished(c: Setup, t: TApp, previous: Statuses, pods: seq<Pod>, id: Id)
    requires t.status.statuses == InstanceStatuses(t.spec, previous, pods)
    requires t.status.appStatus == AppStatusOf(t.status.statuses) && IsTAppFinished(t)
        && id in Ordinals(t.spec.replicas)
    ensures id in Wanted(c, t) <==> StatusOf(t.status.statuses, id) == Killed && StatusOf(t.spec.statuses, id) != Killed
  {
    AppStatusMeaning(t.spec, previous, pods);
    InstanceStatusesAt(t.spec, previous, pods, id);
  }

  /** When a sync exits early on a status that was computed for the current spec, the planner would have
      had nothing to do, exactly when every ordinal recorded as killed is still killed in the spec. */
  lemma EarlyExitIsSound(c: Setup, t: TApp, nodes: NodeStore, previous: Statuses, pods: seq<Pod>)
    requires t.status.statuses == InstanceStatuses(t.spec, previous, pods)
    requires t.status.appStatus == AppStatusOf(t.status.statuses)
    requires ExitsEarly(t, [])
    ensures JobOf(c.deleteAfterFinish, c.h, t, nodes, map[]).actions == map[] <==>
              forall id :: id in Ordinals(t.spec.replicas) && StatusOf(t.status.statuses, id) == Killed ==>
                StatusOf(t.spec.statuses, id) == Killed
  {
    ActionsWithoutPods(c, t, nodes);
    forall id | id in Ordinals(t.spec.replicas)
      ensures id in Wanted(c, t) <==>
                StatusOf(t.status.statuses, id) == Killed && StatusOf(t.spec.statuses, id) != Killed
    {
      WantedOfFinished(c, t, previous, pods, id);
    }
    assert JobOf(c.deleteAfterFinish, c.h, t, nodes, map[]).actions == map[] <==> Wanted(c, t) == {};
    assert Wanted(c, t) == {} <==> forall id :: id in Ordinals(t.spec.replicas) ==> id !in Wanted(c, t);
  }
}
