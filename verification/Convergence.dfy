/** Convergence: when every pod settles between syncs, the work left is accounted for round by round, it
    strictly decreases as soon as the recorded statuses have come to rest, and they do so by themselves. */
module Convergence {
  import opened Model
  import opened Templates
  import opened Instances
  import opened Admission
  import opened Syncer
  import opened Readiness
  import opened Planner
  import opened Transformer
  import opened Selection
  import opened Guarantees
  import opened Status
  import opened Cluster
  import opened Finished

  // ---------------------------------------------------------------- the work left

  function HashedSpec(c: Setup, t: TApp): TAppSpec {
    Hashed(c.h, t).spec
  }

  function Stale(c: Setup, s: State): set<Id> {
    set id | id in Wanted(c, s.t) && id in s.store && IsTemplateHashChanged(HashedSpec(c, s.t), id, s.store[id])
  }

  function Missing(c: Setup, s: State): set<Id> {
    Wanted(c, s.t) - s.store.Keys
  }

  /** Pods of completed instances and pods numerically beyond the replicas. */
  function Excess(c: Setup, s: State): set<Id> {
    set id | id in s.store && (id in DesiredCompleted(c.deleteAfterFinish, s.t) || IsBeyond(id, s.t.spec.replicas))
  }

  function Measure(c: Setup, s: State): nat {
    2 * |Stale(c, s)| + |Missing(c, s)| + |Excess(c, s)|
  }

  // ---------------------------------------------------------------- settled states

  ghost predicate AllUp(s: State) {
    forall id :: id in s.store ==> IsAvailable(s.store[id])
  }

  /** Between syncs dying pods go away and all others come up; labels stay. */
  ghost predicate SettlesTo(s: State, next: State) {
    && next.t == s.t && WellKept(next) && AllUp(next)
    && (forall id :: id in next.store <==> id in s.store && !s.store[id].dying)
    && (forall id :: id in next.store ==> next.store[id].labels == s.store[id].labels)
  }

  predicate TemplateResolves(spec: TAppSpec, id: Id) {
    PodTemplate(spec, id).Some?
    && (TemplateName(spec, id) != DEFAULT_TEMPLATE ==> PodTemplate(spec, id).value.labels.Some?)
  }

  /** Every desired instance has a template, and one from the pool has a label map. */
  ghost predicate Resolves(c: Setup, t: TApp) {
    forall id :: id in Wanted(c, t) ==> TemplateResolves(t.spec, id)
  }

  // ---------------------------------------------------------------- hashed templates

  lemma KeysDiffer()
    ensures INSTANCE_KEY != TEMPLATE_HASH_KEY
  {
    assert |INSTANCE_KEY| != |TEMPLATE_HASH_KEY|;
  }

  /** The template a sync works with carries the template hash label. */
  lemma HashedTemplate(c: Setup, t: TApp, id: Id)
    requires Resolves(c, t) && id in Wanted(c, t)
    ensures PodTemplate(HashedSpec(c, t), id).Some?
    ensures TEMPLATE_HASH_KEY in LabelsOf(PodTemplate(HashedSpec(c, t), id).value)
  {
    HashTemplateLabels(c.h, PodTemplate(t.spec, id).value);
  }

  /** A pod that takes over the labels of its template is not stale. */
  lemma LabelledIsFresh(c: Setup, t: TApp, id: Id, pod: Pod, made: Pod)
    requires Resolves(c, t) && id in Wanted(c, t) && NewPod(Hashed(c.h, t), id) == Some(made)
    requires pod.labels == made.labels || exists old' :: pod.labels == old' + made.labels
    ensures !IsTemplateHashChanged(HashedSpec(c, t), id, pod)
  {
    HashedTemplate(c, t, id);
    KeysDiffer();
  }

  // ---------------------------------------------------------------- statuses of a settled state

  lemma {:induction false} UpPodsStatus(spec: TAppSpec, finishedBefore: bool, pods: seq<Pod>, id: Id)
    requires forall k :: 0 <= k < |pods| ==> !pods[k].dying && pods[k].phase == PhaseRunning
    ensures var s := StatusAt(spec, finishedBefore, pods, id);
            if s.Some? then s.value == Running || s.value == Pending
            else forall k :: 0 <= k < |pods| ==> PodIndex(pods[k]) != Some(id)
  {
    if pods != [] {
      var init := pods[..|pods| - 1];
      assert forall k :: 0 <= k < |init| ==> init[k] == pods[k];
      UpPodsStatus(spec, finishedBefore, init, id);
    }
  }

  /** The new status of an id: up if it has a pod, otherwise what it was if that is finished. */
  predicate SettledAt(s: State, after: TApp, id: Id) {
    var status := Read(after.status.statuses, id);
    if id in s.store then status == Some(Running) || status == Some(Pending)
    else if id in Ordinals(s.t.spec.replicas) then
      status == Some(MissingStatus(s.t.spec, s.t.status.statuses, id))
    else status == None
  }

  lemma SettledStatusOf(spec: TAppSpec, previous: Statuses, pods: seq<Pod>, store: Store, id: Id)
    requires Lists(pods, store) && Keyed(store)
    requires forall k :: 0 <= k < |pods| ==> !pods[k].dying && pods[k].phase == PhaseRunning
    ensures var status := Read(InstanceStatuses(spec, previous, pods), id);
            if id in store then status == Some(Running) || status == Some(Pending)
            else if id in Ordinals(spec.replicas) then status == Some(MissingStatus(spec, previous, id))
            else status == None
  {
    InstanceStatusesAt(spec, previous, pods, id);
    var finished := IsInstanceFinished(StatusOf(previous, id));
    UpPodsStatus(spec, finished, pods, id);
    ListedAt(pods, store, id);
    PodMapHoldsLast(pods, id);
    if StatusAt(spec, finished, pods, id).Some? {
      StatusNeedsPod(spec, finished, pods, id);
    }
  }

  lemma GatedUp(pods: seq<Pod>, s: State, selected: set<string>)
    requires AllUp(s) && Lists(pods, s.store)
    ensures var gated := GatedPods(pods, selected);
            forall k :: 0 <= k < |gated| ==> !gated[k].dying && gated[k].phase == PhaseRunning
  {
    forall k | 0 <= k < |pods| ensures !pods[k].dying && pods[k].phase == PhaseRunning {
      assert Stored(pods[k], s.store);
    }
  }

  lemma SettledStatus(s: State, ch: Choice, id: Id)
    requires WellKept(s) && AllUp(s) && Lists(ch.pods, s.store) && !ExitsEarly(s.t, ch.pods)
    ensures SettledAt(s, Sync(s, ch).t, id)
  {
    var selected := Selected(ch.plan);
    SyncedStatus(s, ch);
    GatedUp(ch.pods, s, selected);
    GatedLists(ch.pods, s.store, selected);
    SettledStatusOf(s.t.spec, s.t.status.statuses, GatedPods(ch.pods, selected), GatedStore(s.store, selected), id);
  }

  // ---------------------------------------------------------------- the desired set of the next round

  /** The ordinals the spec does not kill: whatever the statuses say, only these are ever desired. */
  function Unkilled(t: TApp): set<Id> {
    set id | id in Ordinals(t.spec.replicas) && StatusOf(t.spec.statuses, id) != Killed
  }

  function Recorded(t: TApp, id: Id): InstanceStatus {
    StatusOf(t.status.statuses, id)
  }

  lemma WantedIs(c: Setup, t: TApp, id: Id)
    ensures id in Wanted(c, t) <==>
              id in Unkilled(t) && !(FailedOrSucc(Recorded(t, id)) && (!c.deleteAfterFinish || IsTAppFinished(t)))
    ensures id in DesiredCompleted(c.deleteAfterFinish, t) <==>
              StatusOf(t.spec.statuses, id) == Killed
              || (FailedOrSucc(Recorded(t, id)) && (!c.deleteAfterFinish || IsTAppFinished(t)))
  {
  }

  /** A sync of a settled state records the app as finished: no pods, some ordinal, and every one of them
      killed by the spec or recorded as finished. */
  ghost predicate FinishesNext(s: State) {
    s.store == map[] && Ordinals(s.t.spec.replicas) != {}
    && forall id :: id in Unkilled(s.t) ==> IsInstanceFinished(Recorded(s.t, id))
  }

  ghost predicate AllFinished(statuses: Statuses) {
    statuses != map[] && forall id :: id in statuses ==> IsInstanceFinished(statuses[id])
  }

  lemma AllFinishedNext(s: State, after: TApp)
    requires after.spec == s.t.spec && forall id :: SettledAt(s, after, id)
    ensures AllFinished(after.status.statuses) <==> FinishesNext(s)
  {
    var statuses := after.status.statuses;
    if AllFinished(statuses) {
      forall id ensures id !in s.store { assert SettledAt(s, after, id); }
      var id :| id in statuses;
      assert SettledAt(s, after, id);
      forall x | x in Unkilled(s.t) ensures IsInstanceFinished(Recorded(s.t, x)) { assert SettledAt(s, after, x); }
    }
    if FinishesNext(s) {
      var id :| id in Ordinals(s.t.spec.replicas);
      assert SettledAt(s, after, id);
      forall x | x in statuses ensures IsInstanceFinished(statuses[x]) {
        assert SettledAt(s, after, x);
        assert x in Unkilled(s.t) || StatusOf(s.t.spec.statuses, x) == Killed;
      }
    }
  }

  lemma FinishedAfter(s: State, ch: Choice)
    requires WellKept(s) && AllUp(s) && Lists(ch.pods, s.store) && !ExitsEarly(s.t, ch.pods)
    ensures IsTAppFinished(Sync(s, ch).t) <==> FinishesNext(s)
  {
    SyncedStatus(s, ch);
    forall id ensures SettledAt(s, Sync(s, ch).t, id) { SettledStatus(s, ch, id); }
    AllFinishedNext(s, Sync(s, ch).t);
    AppStatusMeaning(s.t.spec, s.t.status.statuses, GatedPods(ch.pods, Selected(ch.plan)));
  }

  /** An instance that the next sync moves into or out of the desired set: it is recorded as failed or
      succeeded, and that record is lost because it has a pod, or starts or stops to count because the
      app becomes finished or unfinished. */
  ghost predicate Turns(c: Setup, s: State, id: Id) {
    id in Unkilled(s.t) && FailedOrSucc(Recorded(s.t, id))
    && if c.deleteAfterFinish then !(IsTAppFinished(s.t) <==> FinishesNext(s)) else id in s.store
  }

  ghost function Turning(c: Setup, s: State): set<Id> {
    set id | id in Unkilled(s.t) && Turns(c, s, id)
  }

  lemma TurnsExactly(c: Setup, s: State, after: TApp, id: Id)
    requires after.spec == s.t.spec && SettledAt(s, after, id) && (IsTAppFinished(after) <==> FinishesNext(s))
    ensures Turns(c, s, id) <==> !(id in Wanted(c, s.t) <==> id in Wanted(c, after))
  {
    WantedIs(c, s.t, id);
    WantedIs(c, after, id);
  }

  // ---------------------------------------------------------------- the plan in a settled state

  lemma SettledAction(c: Setup, s: State, nodes: NodeStore, id: Id)
    requires AllUp(s)
    ensures var actions := JobIn(c, s, nodes).actions;
            if id in Missing(c, s) then id in actions && actions[id] == CreatePod
            else if id in Excess(c, s) then id in actions && actions[id] == DeletePod && id !in Wanted(c, s.t)
            else if id in Stale(c, s) then id in actions && (actions[id] == UpdatePod || actions[id] == RecreatePod)
            else id !in actions
  {
    NextActionsAt(c.deleteAfterFinish, Hashed(c.h, s.t), s.store, id);
    HashKeepsDesired(c.deleteAfterFinish, c.h, s.t);
  }

  lemma VerdictByAction(j: Job, id: Id)
    requires Backed(j)
    ensures var v := VerdictAt(VerdictsOf(j), id);
            if id !in j.actions then v == IgnoreIt
            else match j.actions[id]
                 case CreatePod => NewPod(j.t, id).Some? ==> v == AddIt
                 case DeletePod => !j.podMap[id].dying ==> v == DeleteIt
                 case _ => v.ChangeIt?
  {
  }

  /** Missing pods are created, excess pods deleted, stale pods are the candidates, nothing else moves. */
  lemma SettledVerdict(c: Setup, s: State, nodes: NodeStore, id: Id)
    requires AllUp(s) && Resolves(c, s.t) && Backed(JobIn(c, s, nodes))
    ensures var v := VerdictAt(VerdictsOf(JobIn(c, s, nodes)), id);
            if id in Missing(c, s) then v == AddIt
            else if id in Excess(c, s) then v == DeleteIt
            else if id in Stale(c, s) then v.ChangeIt?
            else v == IgnoreIt
  {
    SettledAction(c, s, nodes, id);
    VerdictByAction(JobIn(c, s, nodes), id);
    if id in Missing(c, s) {
      HashedTemplate(c, s.t, id);
    } else if id in s.store {
      assert IsAvailable(s.store[id]);
    }
  }

  /** Where a plan puts an id of a settled state. */
  predicate PlacedRight(c: Setup, s: State, p: Progress, id: Id) {
    && (id in p.add <==> id in Missing(c, s))
    && (id in Excess(c, s) ==> id in p.del)
    && (id in p.del && id !in Excess(c, s) ==> id in Stale(c, s))
    && (id in p.update ==> id in Stale(c, s) && id !in p.del)
    && id !in p.forceDel
  }


  lemma PlanInSettled(c: Setup, s: State, ch: Choice, w: Trace, id: Id)
    requires AllUp(s) && Resolves(c, s.t) && Explains(c, s, ch, w)
    ensures PlacedRight(c, s, w.p, id)
    ensures id in Launched(w.k.vs, w.p) <==> id in w.p.update || (id in w.p.del && id !in Excess(c, s))
  {
    SettledVerdict(c, s, ch.nodes, id);
    SettledAction(c, s, ch.nodes, id);
    PlacedByVerdict(w.k, w.p, id, VerdictAt(w.k.vs, id));
  }

  // ---------------------------------------------------------------- what a round does to one id

  /** The pod under an id after a sync of a settled state. */
  ghost predicate SyncedRight(c: Setup, s: State, p: Progress, id: Id, pod: Option<Pod>) {
    if id in p.add || id in p.update then
      pod.Some? && !pod.value.dying && !IsTemplateHashChanged(HashedSpec(c, s.t), id, pod.value)
    else if id in p.del then pod.Some? && pod.value.dying
    else if id in s.store then pod.Some? && !pod.value.dying && pod.value.labels == s.store[id].labels
    else pod.None?
  }

  lemma AddedIsFresh(c: Setup, s: State, ch: Choice, i: nat)
    requires ValidChoice(c, s, ch) && Resolves(c, s.t) && i < |ch.plan.add|
    ensures var pod := Admitted(ch.plan.add[i].pod);
            !pod.dying && !IsTemplateHashChanged(HashedSpec(c, s.t), ch.plan.add[i].id, pod)
  {
    SoundPartition(c.deleteAfterFinish, c.h, s.t, ch.nodes, s.store, ch.plan);
    var made := ch.plan.add[i].pod;
    LabelledIsFresh(c, s.t, ch.plan.add[i].id, Admitted(made), made);
  }

  lemma UpdatedIsFresh(c: Setup, s: State, ch: Choice, i: nat, pod: Pod)
    requires ValidChoice(c, s, ch) && Resolves(c, s.t) && i < |ch.plan.update|
    ensures var merged := MergePod(pod, ch.plan.update[i].pod);
            merged.dying == pod.dying && !IsTemplateHashChanged(HashedSpec(c, s.t), ch.plan.update[i].id, merged)
  {
    SoundPartition(c.deleteAfterFinish, c.h, s.t, ch.nodes, s.store, ch.plan);
    var made := NewPod(Hashed(c.h, s.t), ch.plan.update[i].id).value;
    var merged := MergePod(pod, ch.plan.update[i].pod);
    assert merged.labels == pod.labels + made.labels;
    LabelledIsFresh(c, s.t, ch.plan.update[i].id, merged, made);
  }

  lemma SyncedPod(c: Setup, s: State, ch: Choice, w: Trace, id: Id)
    requires ValidChoice(c, s, ch) && AllUp(s) && Resolves(c, s.t) && !ExitsEarly(s.t, ch.pods)
    requires Explains(c, s, ch, w) && PlacedRight(c, s, w.p, id)
    ensures SyncedRight(c, s, w.p, id, Lookup(Sync(s, ch).store, id))
  {
    var plan, gated := ch.plan, GatedStore(s.store, Selected(ch.plan));
    MentionedIds(w.j, w.p, plan, id);
    SyncStoreAt(gated, plan, id);
    if id in w.p.add {
      var i :| 0 <= i < |plan.add| && plan.add[i].id == id;
      AddedIsFresh(c, s, ch, i);
    } else if id in w.p.update {
      var i :| 0 <= i < |plan.update| && plan.update[i].id == id;
      UpdatedIsFresh(c, s, ch, i, gated[id]);
    }
  }

  ghost predicate SettledPod(mid: Store, next: State, id: Id) {
    && (id in next.store <==> id in mid && !mid[id].dying)
    && (id in next.store ==> next.store[id].labels == mid[id].labels)
  }

  /** What is left of an id after a round. */
  predicate RoundRight(c: Setup, s: State, p: Progress, next: State, id: Id) {
    && (id in Stale(c, next) <==> id in Stale(c, s) && id !in p.update && id !in p.del)
    && (id in Missing(c, next) <==>
          (id in p.del && id !in Excess(c, s)) || (id in Wanted(c, next.t) && id !in Wanted(c, s.t)))
    && (id in Excess(c, next) <==> id in Wanted(c, s.t) && id !in Wanted(c, next.t))
  }

  lemma RoundAt(c: Setup, s: State, p: Progress, mid: Store, next: State, id: Id)
    requires next.t.spec == s.t.spec && SettledAt(s, next.t, id) && SettledPod(mid, next, id)
    requires PlacedRight(c, s, p, id) && SyncedRight(c, s, p, id, Lookup(mid, id))
    ensures RoundRight(c, s, p, next, id)
  {
    WantedIs(c, s.t, id);
    WantedIs(c, next.t, id);
    if id in Wanted(c, s.t) { WantedIsPlain(c, s.t, id); }
    if id in Wanted(c, next.t) { WantedIsPlain(c, next.t, id); }
    assert HashedSpec(c, next.t) == HashedSpec(c, s.t);
  }

  lemma WantedIsPlain(c: Setup, t: TApp, id: Id)
    requires id in Wanted(c, t)
    ensures !IsBeyond(id, t.spec.replicas) && id !in DesiredCompleted(c.deleteAfterFinish, t)
  {
    OrdinalParses(id, t.spec.replicas);
  }

  /** A full sync of a settled state, and what it settles to. */
  ghost predicate FullRound(c: Setup, s: State, ch: Choice, next: State) {
    && WellKept(s) && AllUp(s) && Resolves(c, s.t)
    && ValidChoice(c, s, ch) && !ExitsEarly(s.t, ch.pods) && SettlesTo(Sync(s, ch), next)
  }

  lemma RoundOfId(c: Setup, s: State, ch: Choice, w: Trace, next: State, id: Id)
    requires FullRound(c, s, ch, next) && Explains(c, s, ch, w)
    ensures RoundRight(c, s, w.p, next, id) && PlacedRight(c, s, w.p, id)
  {
    PlanInSettled(c, s, ch, w, id);
    SyncedPod(c, s, ch, w, id);
    SyncedStatus(s, ch);
    SettledStatus(s, ch, id);
    RoundAt(c, s, w.p, Sync(s, ch).store, next, id);
  }

  // ---------------------------------------------------------------- the account of a round

  /** What a plan takes off the measure. */
  function Weight(plan: Plan): nat {
    2 * |plan.update| + |plan.del| + |plan.add|
  }

  lemma CountOf(xs: seq<Id>, ids: set<Id>)
    requires Distinct(xs) && forall id :: id in xs <==> id in ids
    ensures |xs| == |ids|
  {
    CountsOfDistinct(xs);
    assert multiset(xs) == multiset(ids);
    assert |multiset(xs)| == |xs|;
  }

  lemma ListsOnce(p: Progress)
    requires Once(p)
    ensures Distinct(p.add) && Distinct(p.del) && Distinct(p.update)
  {
    forall id ensures multiset(p.add)[id] <= 1 && multiset(p.del)[id] <= 1 && multiset(p.update)[id] <= 1 {
      assert Tally(p)[id] <= 1;
    }
    DistinctOfCounts(p.add);
    DistinctOfCounts(p.del);
    DistinctOfCounts(p.update);
  }

  /** The three sets of a settled state and the three of the next one. */
  datatype Work = Work(stale: set<Id>, missing: set<Id>, excess: set<Id>)

  function WorkOf(c: Setup, s: State): Work {
    Work(Stale(c, s), Missing(c, s), Excess(c, s))
  }

  lemma RoundSets(c: Setup, s: State, p: Progress, next: State, updated: set<Id>, deleted: set<Id>,
                  gained: set<Id>, lost: set<Id>)
    requires forall id :: RoundRight(c, s, p, next, id) && PlacedRight(c, s, p, id)
    requires updated == (set id | id in p.update) && deleted == (set id | id in p.del)
    requires gained == Wanted(c, next.t) - Wanted(c, s.t) && lost == Wanted(c, s.t) - Wanted(c, next.t)
    ensures var was, now := WorkOf(c, s), WorkOf(c, next);
            && updated <= was.stale && updated !! deleted && was.excess <= deleted && deleted - was.excess <= was.stale
            && now == Work(was.stale - updated - deleted, (deleted - was.excess) + gained, lost)
    ensures forall id :: id in p.add <==> id in Missing(c, s)
  {
    var was := WorkOf(c, s);
    forall id
      ensures id in Stale(c, next) <==> id in was.stale - updated - deleted
      ensures id in Missing(c, next) <==> id in (deleted - was.excess) + gained
      ensures id in Excess(c, next) <==> id in lost
      ensures id in updated ==> id in was.stale && id !in deleted
      ensures id in was.excess ==> id in deleted
      ensures id in deleted - was.excess ==> id in was.stale
      ensures id in p.add <==> id in Missing(c, s)
    {
      assert RoundRight(c, s, p, next, id) && PlacedRight(c, s, p, id);
    }
  }

  function Size(work: Work): nat {
    2 * |work.stale| + |work.missing| + |work.excess|
  }

  lemma CardOfUnion(a: set<Id>, b: set<Id>)
    requires a !! b
    ensures |a + b| == |a| + |b|
  {
  }

  lemma CardOfRest(a: set<Id>, b: set<Id>)
    requires b <= a
    ensures |a - b| == |a| - |b|
  {
    assert a == (a - b) + b;
  }

  lemma WorkCounts(was: Work, now: Work, updated: set<Id>, deleted: set<Id>, gained: set<Id>, lost: set<Id>)
    requires updated <= was.stale && updated !! deleted && was.excess <= deleted && deleted - was.excess <= was.stale
    requires now == Work(was.stale - updated - deleted, (deleted - was.excess) + gained, lost)
    requires was.excess !! was.stale && gained !! was.stale && gained !! lost
    ensures Size(now) + 2 * |updated| + |deleted| + |was.missing| == Size(was) + |gained + lost|
  {
    var recreated := deleted - was.excess;
    assert was.stale - updated - deleted == was.stale - (updated + recreated);
    CardOfUnion(updated, recreated);
    CardOfRest(was.stale, updated + recreated);
    CardOfRest(deleted, was.excess);
    CardOfUnion(recreated, gained);
    CardOfUnion(gained, lost);
  }

  lemma StaleIsNotExcess(c: Setup, s: State)
    ensures Stale(c, s) !! Excess(c, s)
  {
    forall id | id in Stale(c, s) ensures id !in Excess(c, s) { WantedIsPlain(c, s.t, id); }
  }

  lemma TurnsInRound(c: Setup, s: State, ch: Choice, next: State, id: Id)
    requires FullRound(c, s, ch, next) && (IsTAppFinished(next.t) <==> FinishesNext(s))
    ensures id in Turning(c, s) <==> !(id in Wanted(c, s.t) <==> id in Wanted(c, next.t))
  {
    SyncedStatus(s, ch);
    SettledStatus(s, ch, id);
    TurnsExactly(c, s, next.t, id);
  }

  /** The instances that turn are those whose place in the desired set changes. */
  lemma TurningIs(c: Setup, s: State, ch: Choice, next: State)
    requires FullRound(c, s, ch, next)
    ensures Turning(c, s) == (Wanted(c, next.t) - Wanted(c, s.t)) + (Wanted(c, s.t) - Wanted(c, next.t))
  {
    FinishedAfter(s, ch);
    var turning, was, now := Turning(c, s), Wanted(c, s.t), Wanted(c, next.t);
    forall id ensures id in turning <==> !(id in was <==> id in now) {
      TurnsInRound(c, s, ch, next, id);
    }
    SymmetricDifference(turning, was, now);
  }

  lemma SymmetricDifference(d: set<Id>, a: set<Id>, b: set<Id>)
    requires forall id :: id in d <==> !(id in a <==> id in b)
    ensures d == (b - a) + (a - b)
  {
  }

  lemma AllOfRound(c: Setup, s: State, ch: Choice, w: Trace, next: State)
    requires FullRound(c, s, ch, next) && Explains(c, s, ch, w)
    ensures forall id :: RoundRight(c, s, w.p, next, id) && PlacedRight(c, s, w.p, id)
  {
    forall id ensures RoundRight(c, s, w.p, next, id) && PlacedRight(c, s, w.p, id) {
      RoundOfId(c, s, ch, w, next, id);
    }
  }

  lemma PlanSizes(c: Setup, s: State, p: Progress, plan: Plan, updated: set<Id>, deleted: set<Id>)
    requires Once(p) && |plan.add| == |p.add| && |plan.del| == |p.del| && |plan.update| == |p.update|
    requires updated == (set id | id in p.update) && deleted == (set id | id in p.del)
    requires forall id :: id in p.add <==> id in Missing(c, s)
    ensures Weight(plan) == 2 * |updated| + |deleted| + |Missing(c, s)|
  {
    ListsOnce(p);
    CountOf(p.add, Missing(c, s));
    CountOf(p.del, deleted);
    CountOf(p.update, updated);
  }

  /** The account of a full round, for every plan: each update takes two off the measure, each create and
      each delete one, and each instance that turns puts one on. */
  lemma RoundAccount(c: Setup, s: State, ch: Choice, next: State)
    requires FullRound(c, s, ch, next)
    ensures Measure(c, next) + Weight(ch.plan) == Measure(c, s) + |Turning(c, s)|
  {
    var w := SyncPlan(c, s, ch);
    AllOfRound(c, s, ch, w, next);
    TurningIs(c, s, ch, next);
    StaleIsNotExcess(c, s);
    var updated, deleted := set id | id in w.p.update, set id | id in w.p.del;
    AccountOf(c, s, w.p, ch.plan, next, updated, deleted);
  }

  lemma AccountOf(c: Setup, s: State, p: Progress, plan: Plan, next: State, updated: set<Id>, deleted: set<Id>)
    requires forall id :: RoundRight(c, s, p, next, id) && PlacedRight(c, s, p, id)
    requires Once(p) && |plan.add| == |p.add| && |plan.del| == |p.del| && |plan.update| == |p.update|
    requires updated == (set id | id in p.update) && deleted == (set id | id in p.del)
    requires Turning(c, s) == (Wanted(c, next.t) - Wanted(c, s.t)) + (Wanted(c, s.t) - Wanted(c, next.t))
    requires Stale(c, s) !! Excess(c, s)
    ensures Measure(c, next) + Weight(plan) == Measure(c, s) + |Turning(c, s)|
  {
    var gained, lost := Wanted(c, next.t) - Wanted(c, s.t), Wanted(c, s.t) - Wanted(c, next.t);
    RoundSets(c, s, p, next, updated, deleted, gained, lost);
    PlanSizes(c, s, p, plan, updated, deleted);
    WorkCounts(WorkOf(c, s), WorkOf(c, next), updated, deleted, gained, lost);
  }

  /** A round strictly decreases the measure exactly when fewer instances turn than the plan weighs. */
  lemma StrictRound(c: Setup, s: State, ch: Choice, next: State)
    requires FullRound(c, s, ch, next)
    ensures Measure(c, next) < Measure(c, s) <==> |Turning(c, s)| < Weight(ch.plan)
  {
    RoundAccount(c, s, ch, next);
  }

  lemma NoneMissingAllUp(c: Setup, s: State)
    requires AllUp(s) && Missing(c, s) == {}
    ensures Available(c, s) == Wanted(c, s.t)
  {
    forall x | x in Wanted(c, s.t) ensures x in Available(c, s) { assert x !in Missing(c, s); }
  }

  /** With nothing missing and something stale, a sync of a settled state starts a change. */
  lemma StaleStarts(c: Setup, s: State, ch: Choice, w: Trace)
    requires AllUp(s) && AcceptedStrategy(s.t.spec) && Explains(c, s, ch, w)
    requires Missing(c, s) == {} && Stale(c, s) != {}
    ensures Launched(w.k.vs, w.p) != {}
  {
    var id :| id in Stale(c, s);
    NoneMissingAllUp(c, s);
    StaleIsNotExcess(c, s);
    SettledAction(c, s, ch.nodes, id);
    ChangeIsLaunched(c, s, ch, w, id);
  }

  /** Work left is work planned, unless all of it is excess. */
  lemma WorkIsPlanned(c: Setup, s: State, ch: Choice)
    requires AllUp(s) && Resolves(c, s.t) && AcceptedStrategy(s.t.spec) && ValidChoice(c, s, ch)
    ensures Weight(ch.plan) >= |Excess(c, s)|
    ensures Weight(ch.plan) == |Excess(c, s)| <==> Stale(c, s) == {} && Missing(c, s) == {}
  {
    var w := SyncPlan(c, s, ch);
    var updated, deleted := set id | id in w.p.update, set id | id in w.p.del;
    var launched := Launched(w.k.vs, w.p);
    forall id ensures PlacedRight(c, s, w.p, id)
      ensures id in launched <==> id in updated || (id in deleted && id !in Excess(c, s))
    {
      PlanInSettled(c, s, ch, w, id);
    }
    if Missing(c, s) == {} && Stale(c, s) != {} { StaleStarts(c, s, ch, w); }
    PlannedWork(c, s, w.p, ch.plan, updated, deleted, launched);
  }

  lemma PlannedWork(c: Setup, s: State, p: Progress, plan: Plan, updated: set<Id>, deleted: set<Id>, launched: set<Id>)
    requires Once(p) && |plan.add| == |p.add| && |plan.del| == |p.del| && |plan.update| == |p.update|
    requires updated == (set id | id in p.update) && deleted == (set id | id in p.del)
    requires forall id :: PlacedRight(c, s, p, id)
    requires forall id :: id in launched <==> id in updated || (id in deleted && id !in Excess(c, s))
    requires Missing(c, s) == {} && Stale(c, s) != {} ==> launched != {}
    ensures Weight(plan) >= |Excess(c, s)|
    ensures Weight(plan) == |Excess(c, s)| <==> Stale(c, s) == {} && Missing(c, s) == {}
  {
    forall id ensures id in p.add <==> id in Missing(c, s)
      ensures id in Excess(c, s) ==> id in deleted
      ensures id in updated || (id in deleted && id !in Excess(c, s)) ==> id in Stale(c, s)
    {
      assert PlacedRight(c, s, p, id);
    }
    PlanSizes(c, s, p, plan, updated, deleted);
    CardOfRest(deleted, Excess(c, s));
    if updated == {} && deleted - Excess(c, s) == {} {
      assert launched == {};
    }
    if Stale(c, s) == {} {
      assert updated == {} && deleted - Excess(c, s) == {};
    }
  }

  lemma TurningIsExcess(c: Setup, s: State)
    requires !c.deleteAfterFinish
    ensures Turning(c, s) <= Excess(c, s)
  {
    forall id | id in Turning(c, s) ensures id in Excess(c, s) { WantedIs(c, s.t, id); }
  }

  lemma FewerThanWeight(turning: set<Id>, excess: set<Id>, weight: nat, onlyExcess: bool)
    requires turning <= excess && weight >= |excess| && (weight == |excess| <==> onlyExcess)
    ensures |turning| <= weight && (|turning| < weight <==> !(onlyExcess && excess == turning))
  {
    CardOfRest(excess, turning);
    if excess != turning {
      assert excess - turning != {};
    }
  }

  /** The exact condition when finished instances count as completed at once: a round never increases the
      measure, and fails to decrease it only if all the work left is pods of instances recorded as failed
      or succeeded, which the sync deletes and then wants back. */
  lemma StrictRoundIff(c: Setup, s: State, ch: Choice, next: State)
    requires !c.deleteAfterFinish && FullRound(c, s, ch, next) && AcceptedStrategy(s.t.spec)
    ensures Measure(c, next) <= Measure(c, s)
    ensures Measure(c, next) < Measure(c, s) <==>
              !(Stale(c, s) == {} && Missing(c, s) == {} && Excess(c, s) == Turning(c, s))
  {
    RoundAccount(c, s, ch, next);
    WorkIsPlanned(c, s, ch);
    TurningIsExcess(c, s);
    FewerThanWeight(Turning(c, s), Excess(c, s), Weight(ch.plan), Stale(c, s) == {} && Missing(c, s) == {});
  }

  // ---------------------------------------------------------------- statuses come to rest

  /** What a full round does to one id, leaving the plan aside. */
  predicate MovedAt(c: Setup, s: State, next: State, id: Id) {
    && SettledAt(s, next.t, id)
    && (id in next.store ==> id in s.store || id in Wanted(c, s.t))
    && (id in Wanted(c, s.t) && id !in s.store ==> id in next.store)
  }

  ghost predicate Moved(c: Setup, s: State, next: State) {
    && next.t.spec == s.t.spec && (IsTAppFinished(next.t) <==> FinishesNext(s))
    && forall id :: MovedAt(c, s, next, id)
  }

  lemma MovedId(c: Setup, s: State, ch: Choice, w: Trace, next: State, id: Id)
    requires FullRound(c, s, ch, next) && Explains(c, s, ch, w)
    ensures MovedAt(c, s, next, id)
  {
    SyncedStatus(s, ch);
    SettledStatus(s, ch, id);
    PlanInSettled(c, s, ch, w, id);
    SyncedPod(c, s, ch, w, id);
    MovedPod(c, s, w.p, Sync(s, ch).store, next, id);
  }

  lemma MovedPod(c: Setup, s: State, p: Progress, mid: Store, next: State, id: Id)
    requires PlacedRight(c, s, p, id) && SyncedRight(c, s, p, id, Lookup(mid, id)) && SettledPod(mid, next, id)
    ensures id in next.store ==> id in s.store || id in Wanted(c, s.t)
    ensures id in Wanted(c, s.t) && id !in s.store ==> id in next.store
  {
  }

  lemma RoundMoves(c: Setup, s: State, ch: Choice, next: State)
    requires FullRound(c, s, ch, next)
    ensures Moved(c, s, next)
  {
    var w := SyncPlan(c, s, ch);
    SyncedStatus(s, ch);
    FinishedAfter(s, ch);
    forall id ensures MovedAt(c, s, next, id) { MovedId(c, s, ch, w, next, id); }
  }

  /** A finished status that nothing will take back, or no finished status in the way. */
  ghost predicate Calm(c: Setup, s: State) {
    if !c.deleteAfterFinish then
      forall id :: id in Unkilled(s.t) && FailedOrSucc(Recorded(s.t, id)) ==> id !in s.store
    else
      || (forall id :: id in Unkilled(s.t) ==> !FailedOrSucc(Recorded(s.t, id)))
      || (IsTAppFinished(s.t) && s.store == map[] && Wanted(c, s.t) == {})
      || (!IsTAppFinished(s.t) && forall id :: id in Unkilled(s.t) ==> Active(s, id))
  }

  predicate Active(s: State, id: Id) {
    id in s.store || !IsInstanceFinished(Recorded(s.t, id))
  }

  /** How many rounds it takes at most until the recorded statuses are calm. */
  ghost function Unrest(c: Setup, s: State): nat {
    if Calm(c, s) then 0
    else if !c.deleteAfterFinish then 1
    else if !IsTAppFinished(s.t) then 2
    else if Unkilled(s.t) <= s.store.Keys then 1
    else if s.store != map[] then 3
    else 4
  }

  lemma UnkilledKept(s: State, next: State)
    requires next.t.spec == s.t.spec
    ensures Unkilled(next.t) == Unkilled(s.t)
  {
  }

  /** What a round makes of the record of an ordinal that the spec does not kill. */
  lemma RecordAfter(c: Setup, s: State, next: State, id: Id)
    requires Moved(c, s, next) && id in Unkilled(s.t)
    ensures id in s.store ==> Recorded(next.t, id) == Running || Recorded(next.t, id) == Pending
    ensures id !in s.store && IsInstanceFinished(Recorded(s.t, id)) ==> Recorded(next.t, id) == Recorded(s.t, id)
    ensures id !in s.store && !IsInstanceFinished(Recorded(s.t, id)) ==> Recorded(next.t, id) == NotCreated
  {
    assert MovedAt(c, s, next, id);
  }

  lemma CalmImmediate(c: Setup, s: State, next: State)
    requires Moved(c, s, next) && !c.deleteAfterFinish
    ensures Calm(c, next)
  {
    forall id | id in Unkilled(next.t) && FailedOrSucc(Recorded(next.t, id)) ensures id !in next.store {
      RecordAfter(c, s, next, id);
      WantedIs(c, s.t, id);
      assert MovedAt(c, s, next, id);
    }
  }

  lemma UnfinishedCalms(c: Setup, s: State, next: State)
    requires Moved(c, s, next) && c.deleteAfterFinish && !IsTAppFinished(s.t)
    ensures Calm(c, next) || (IsTAppFinished(next.t) && Unkilled(next.t) <= next.store.Keys)
  {
    forall id | id in Unkilled(next.t) ensures Active(next, id) && (FinishesNext(s) ==> id in next.store) {
      RecordAfter(c, s, next, id);
      WantedIs(c, s.t, id);
      assert MovedAt(c, s, next, id);
    }
  }

  lemma FinishedWithPodsCalms(c: Setup, s: State, next: State)
    requires Moved(c, s, next) && c.deleteAfterFinish && Unkilled(s.t) <= s.store.Keys
    ensures Calm(c, next)
  {
    if Unkilled(s.t) != {} {
      forall id | id in Unkilled(next.t) ensures Active(next, id) { RecordAfter(c, s, next, id); }
    }
  }

  lemma WantedIsCreated(c: Setup, s: State, next: State)
    requires Moved(c, s, next) && s.store == map[] && Wanted(c, s.t) != {}
    ensures next.store != map[]
  {
    var id :| id in Wanted(c, s.t);
    assert MovedAt(c, s, next, id);
  }

  /** Nobody is turned any more once the statuses are calm, and they stay calm. */
  lemma CalmStays(c: Setup, s: State, next: State)
    requires Moved(c, s, next) && Calm(c, s)
    ensures Calm(c, next)
  {
    UnkilledKept(s, next);
    if !c.deleteAfterFinish {
      CalmImmediate(c, s, next);
    } else if forall id :: id in Unkilled(s.t) ==> !FailedOrSucc(Recorded(s.t, id)) {
      forall id | id in Unkilled(next.t) ensures !FailedOrSucc(Recorded(next.t, id)) { RecordAfter(c, s, next, id); }
    } else if IsTAppFinished(s.t) {
      CalmRest(c, s, next);
    } else {
      forall id | id in Unkilled(next.t) ensures Active(next, id) { RecordAfter(c, s, next, id); }
      var id :| id in Unkilled(s.t) && FailedOrSucc(Recorded(s.t, id));
      assert Active(s, id);
    }
  }

  lemma CalmRest(c: Setup, s: State, next: State)
    requires Moved(c, s, next) && c.deleteAfterFinish && IsTAppFinished(s.t) && s.store == map[] && Wanted(c, s.t) == {}
    requires Unkilled(s.t) != {}
    ensures IsTAppFinished(next.t) && next.store == map[] && Wanted(c, next.t) == {}
  {
    forall id | id in Unkilled(s.t) ensures FailedOrSucc(Recorded(s.t, id)) { WantedIs(c, s.t, id); }
    var some :| some in Unkilled(s.t);
    forall id ensures id !in next.store { assert MovedAt(c, s, next, id); }
    forall id ensures id !in Wanted(c, next.t) {
      WantedIs(c, next.t, id);
      if id in Unkilled(s.t) { RecordAfter(c, s, next, id); }
    }
  }

  lemma CalmTurnsNobody(c: Setup, s: State)
    requires Calm(c, s)
    ensures Turning(c, s) == {}
  {
    forall id ensures !Turns(c, s, id) {
      if id in Unkilled(s.t) && FailedOrSucc(Recorded(s.t, id)) && c.deleteAfterFinish {
        if IsTAppFinished(s.t) {
          forall x | x in Unkilled(s.t) ensures FailedOrSucc(Recorded(s.t, x)) { WantedIs(c, s.t, x); }
        } else {
          assert Active(s, id);
        }
      }
    }
  }

  /** Every full round brings the statuses closer to rest. */
  lemma UnrestDrops(c: Setup, s: State, next: State)
    requires Moved(c, s, next)
    ensures Unrest(c, next) < Unrest(c, s) || (Unrest(c, next) == 0 && Unrest(c, s) == 0)
  {
    if Calm(c, s) {
      CalmStays(c, s, next);
    } else if !c.deleteAfterFinish {
      CalmImmediate(c, s, next);
    } else if !IsTAppFinished(s.t) {
      UnfinishedCalms(c, s, next);
    } else if Unkilled(s.t) <= s.store.Keys {
      FinishedWithPodsCalms(c, s, next);
    } else if s.store == map[] {
      WantedIsCreated(c, s, next);
    }
  }

  // ---------------------------------------------------------------- rounds

  /** The early exit of a sync does not leave a desired instance without a pod. */
  ghost predicate NoFalseExit(c: Setup, s: State) {
    s.store == map[] && ExitsEarly(s.t, []) ==> Wanted(c, s.t) == {}
  }

  /** The instances that are desired now or may still become so have a template. */
  ghost predicate Provided(c: Setup, s: State) {
    forall id :: id in (if Calm(c, s) then Wanted(c, s.t) else Unkilled(s.t)) ==> TemplateResolves(s.t.spec, id)
  }

  /** Every pod is up, templates resolve and the budgets are admitted; the recorded statuses are arbitrary. */
  ghost predicate Grounded(c: Setup, s: State) {
    WellKept(s) && AllUp(s) && AcceptedStrategy(s.t.spec) && Provided(c, s)
  }

  lemma ProvidedResolves(c: Setup, s: State)
    requires Provided(c, s)
    ensures Resolves(c, s.t)
  {
    forall id | id in Wanted(c, s.t) ensures TemplateResolves(s.t.spec, id) { WantedIs(c, s.t, id); }
  }

  lemma CalmKeepsWanted(c: Setup, s: State, ch: Choice, next: State)
    requires FullRound(c, s, ch, next) && Calm(c, s)
    ensures Wanted(c, next.t) == Wanted(c, s.t)
  {
    CalmTurnsNobody(c, s);
    TurningIs(c, s, ch, next);
    SameUnlessDifferent(Wanted(c, next.t), Wanted(c, s.t));
  }

  lemma SameUnlessDifferent(a: set<Id>, b: set<Id>)
    requires (a - b) + (b - a) == {}
    ensures a == b
  {
    forall id ensures id in a <==> id in b { assert id !in (a - b) + (b - a); }
  }

  lemma ProvidedStays(c: Setup, s: State, ch: Choice, next: State)
    requires FullRound(c, s, ch, next) && Provided(c, s) && Moved(c, s, next)
    ensures Provided(c, next)
  {
    UnkilledKept(s, next);
    if Calm(c, s) {
      CalmStays(c, s, next);
      CalmKeepsWanted(c, s, ch, next);
    } else {
      forall id | id in Wanted(c, next.t) ensures id in Unkilled(s.t) { WantedIs(c, next.t, id); }
    }
  }

  /** A full round never ends in a false exit. */
  lemma NoFalseExitAfter(c: Setup, s: State, next: State)
    requires Moved(c, s, next)
    ensures NoFalseExit(c, next)
  {
    if next.store == map[] && ExitsEarly(next.t, []) {
      forall id ensures id !in Wanted(c, next.t) {
        WantedIs(c, next.t, id);
        WantedIs(c, s.t, id);
        if id in Unkilled(s.t) { RecordAfter(c, s, next, id); }
        assert MovedAt(c, s, next, id);
      }
    }
  }

  /** Repeated addition, which keeps products out of the proofs. */
  function Times(k: nat, n: nat): nat {
    if k == 0 then 0 else n + Times(k - 1, n)
  }

  lemma {:induction false} TimesGrows(less: nat, more: nat, n: nat)
    requires less < more
    ensures Times(less, n) + n <= Times(more, n)
  {
    if less < more - 1 { TimesGrows(less, more - 1, n); }
  }

  /** Measure and unrest in one number: a round of unrest adds to the measure at most the ordinals that the
      spec does not kill. */
  ghost function Potential(c: Setup, s: State): nat {
    Measure(c, s) + Times(Unrest(c, s), |Unkilled(s.t)| + 1)
  }

  lemma PotentialNumbers(measure: nat, unrest: nat, measure': nat, unrest': nat, turning: nat, weight: nat, n: nat)
    requires measure' + weight == measure + turning && turning < n
    requires unrest' < unrest || (unrest' == 0 && unrest == 0 && turning == 0 && (measure > 0 ==> weight > 0))
    ensures measure' + Times(unrest', n) < measure + Times(unrest, n)
         || (measure' + Times(unrest', n) == 0 && measure + Times(unrest, n) == 0)
  {
    if unrest' < unrest { TimesGrows(unrest', unrest, n); }
  }

  lemma WorkWeighs(c: Setup, s: State, ch: Choice)
    requires AllUp(s) && Resolves(c, s.t) && AcceptedStrategy(s.t.spec) && ValidChoice(c, s, ch)
    ensures Measure(c, s) > 0 ==> Weight(ch.plan) > 0
  {
    WorkIsPlanned(c, s, ch);
  }

  lemma FullRoundMakesProgress(c: Setup, s: State, ch: Choice, next: State)
    requires FullRound(c, s, ch, next) && Grounded(c, s)
    ensures Grounded(c, next) && NoFalseExit(c, next)
    ensures Potential(c, next) < Potential(c, s) || (Potential(c, next) == 0 && Potential(c, s) == 0)
  {
    RoundMoves(c, s, ch, next);
    ProvidedStays(c, s, ch, next);
    NoFalseExitAfter(c, s, next);
    PotentialDrops(c, s, ch, next);
  }

  lemma TurningBound(c: Setup, s: State)
    ensures |Turning(c, s)| <= |Unkilled(s.t)|
    ensures Unrest(c, s) == 0 ==> |Turning(c, s)| == 0
  {
    SubsetCard(Turning(c, s), Unkilled(s.t));
    if Calm(c, s) { CalmTurnsNobody(c, s); }
  }

  lemma PotentialDrops(c: Setup, s: State, ch: Choice, next: State)
    requires FullRound(c, s, ch, next) && AcceptedStrategy(s.t.spec) && Moved(c, s, next)
    ensures Potential(c, next) < Potential(c, s) || (Potential(c, next) == 0 && Potential(c, s) == 0)
  {
    RoundAccount(c, s, ch, next);
    WorkWeighs(c, s, ch);
    UnrestDrops(c, s, next);
    TurningBound(c, s);
    UnkilledKept(s, next);
    var n := |Unkilled(s.t)| + 1;
    PotentialIs(c, s, n);
    PotentialIs(c, next, n);
    PotentialNumbers(Measure(c, s), Unrest(c, s), Measure(c, next), Unrest(c, next), |Turning(c, s)|, Weight(ch.plan),
        n);
  }

  lemma PotentialIs(c: Setup, s: State, n: nat)
    requires n == |Unkilled(s.t)| + 1
    ensures Potential(c, s) == Measure(c, s) + Times(Unrest(c, s), n)
  {
  }

  /** A sync that exits early leaves a settled state as it is. */
  lemma EarlyRound(c: Setup, s: State, ch: Choice, next: State)
    requires Lists(ch.pods, s.store) && ExitsEarly(s.t, ch.pods) && SettlesTo(Sync(s, ch), next)
    ensures next == s && s.store == map[] && ExitsEarly(s.t, [])
    ensures Measure(c, s) == |Wanted(c, s.t)|
  {
    EmptyListing(ch.pods, s.store);
    assert next.store == map[];
    assert Stale(c, s) == {} && Missing(c, s) == Wanted(c, s.t) && Excess(c, s) == {};
  }

  lemma EarlyIsCalm(c: Setup, s: State)
    requires s.store == map[] && ExitsEarly(s.t, []) && Wanted(c, s.t) == {}
    ensures Calm(c, s)
  {
  }

  ghost predicate Round(c: Setup, s: State, next: State) {
    exists ch :: ValidChoice(c, s, ch) && SettlesTo(Sync(s, ch), next)
  }

  function BroughtUp(pod: Pod): Pod {
    pod.(phase := PhaseRunning, conditions := [Condition(READY_TYPE, CondTrue, "", "")], containerStatuses := [])
  }

  lemma BroughtUpIsAvailable(pod: Pod)
    requires !pod.dying
    ensures IsAvailable(BroughtUp(pod))
  {
    FirstIs(BroughtUp(pod).conditions, READY_TYPE, 0);
  }

  lemma SettlingIsPossible(s: State) returns (next: State)
    requires WellKept(s)
    ensures SettlesTo(s, next)
  {
    next := s.(store := map id | id in s.store && !s.store[id].dying :: BroughtUp(s.store[id]));
    forall id | id in next.store ensures IsAvailable(next.store[id]) { BroughtUpIsAvailable(s.store[id]); }
  }

  /** Every well-kept state has a next round, with every node cache. */
  lemma RoundIsPossible(c: Setup, s: State, nodes: NodeStore) returns (next: State)
    requires WellKept(s)
    ensures Round(c, s, next) && WellKept(next)
  {
    var ch := SyncIsPossible(c, s, nodes);
    SyncKeepsWellKept(c, s, ch);
    next := SettlingIsPossible(Sync(s, ch));
  }

  /** Every round strictly decreases the potential until it is zero, where it stays. */
  lemma RoundMakesProgress(c: Setup, s: State, next: State)
    requires Grounded(c, s) && NoFalseExit(c, s) && Round(c, s, next)
    ensures Grounded(c, next) && NoFalseExit(c, next)
    ensures Potential(c, next) < Potential(c, s) || (Potential(c, next) == 0 && Potential(c, s) == 0)
  {
    var ch :| ValidChoice(c, s, ch) && SettlesTo(Sync(s, ch), next);
    if ExitsEarly(s.t, ch.pods) {
      EarlyRound(c, s, ch, next);
      EarlyIsCalm(c, s);
    } else {
      ProvidedResolves(c, s);
      FullRoundMakesProgress(c, s, ch, next);
    }
  }

  /** A false exit is for ever: the state stays as it is, with work left. */
  lemma FalseExitStays(c: Setup, s: State, next: State)
    requires !NoFalseExit(c, s) && Round(c, s, next)
    ensures next == s && Measure(c, s) > 0
  {
    var ch :| ValidChoice(c, s, ch) && SettlesTo(Sync(s, ch), next);
    NoPodsListed(ch.pods, s.store);
    EarlyRound(c, s, ch, next);
  }

  lemma NoPodsListed(pods: seq<Pod>, store: Store)
    requires Lists(pods, store) && store == map[]
    ensures pods == []
  {
    assert |pods| > 0 ==> Stored(pods[0], store);
  }

  ghost predicate RoundAtIndex(c: Setup, run: seq<State>, m: nat) {
    0 < m < |run| ==> Round(c, run[m - 1], run[m])
  }

  ghost predicate Rounds(c: Setup, run: seq<State>) {
    run != [] && forall m :: RoundAtIndex(c, run, m)
  }

  ghost predicate OnCourse(c: Setup, first: nat, k: nat, s: State) {
    Grounded(c, s) && NoFalseExit(c, s) && (Potential(c, s) + k <= first || Potential(c, s) == 0)
  }

  lemma OnCourseNext(c: Setup, run: seq<State>, first: nat, k: nat)
    requires Rounds(c, run) && k + 1 < |run| && OnCourse(c, first, k, run[k])
    ensures OnCourse(c, first, k + 1, run[k + 1])
  {
    assert RoundAtIndex(c, run, k + 1);
    RoundMakesProgress(c, run[k], run[k + 1]);
  }

  lemma StuckNext(c: Setup, run: seq<State>, k: nat)
    requires Rounds(c, run) && k + 1 < |run| && !NoFalseExit(c, run[k])
    ensures run[k + 1] == run[k]
  {
    assert RoundAtIndex(c, run, k + 1);
    FalseExitStays(c, run[k], run[k + 1]);
  }

  /** At zero the plan is empty, whatever the nodes and the orders. */
  lemma NothingLeftNothingPlanned(c: Setup, s: State, ch: Choice)
    requires AllUp(s) && Measure(c, s) == 0 && ValidChoice(c, s, ch)
    ensures ch.plan == Plan([], [], [], [])
  {
    var j := JobIn(c, s, ch.nodes);
    assert Stale(c, s) == {} && Missing(c, s) == {} && Excess(c, s) == {};
    forall id ensures id !in j.actions { SettledAction(c, s, ch.nodes, id); }
    assert j.actions == map[];
    NoActionsNoPlan(j, ch.plan);
  }

  /** No work is left, and every plan is empty. */
  ghost predicate AtRest(c: Setup, s: State) {
    Measure(c, s) == 0 && forall ch :: ValidChoice(c, s, ch) ==> ch.plan == Plan([], [], [], [])
  }

  lemma NothingLeftIsRest(c: Setup, s: State)
    requires AllUp(s) && Measure(c, s) == 0
    ensures AtRest(c, s)
  {
    forall ch | ValidChoice(c, s, ch) ensures ch.plan == Plan([], [], [], []) {
      NothingLeftNothingPlanned(c, s, ch);
    }
  }

  lemma ComesToRest(c: Setup, run: seq<State>, i: nat)
    requires Rounds(c, run) && Grounded(c, run[0]) && NoFalseExit(c, run[0]) && Potential(c, run[0]) <= i < |run|
    ensures AtRest(c, run[i])
  {
    OnCourseFrom(c, run, Potential(c, run[0]), i);
    CourseEndsAtRest(c, run[i], Potential(c, run[0]), i);
  }

  lemma OnCourseFrom(c: Setup, run: seq<State>, first: nat, i: nat)
    requires Rounds(c, run) && i < |run| && OnCourse(c, first, 0, run[0])
    ensures OnCourse(c, first, i, run[i])
  {
    for k := 0 to i
      invariant OnCourse(c, first, k, run[k])
    {
      OnCourseNext(c, run, first, k);
    }
  }

  lemma CourseEndsAtRest(c: Setup, s: State, first: nat, k: nat)
    requires OnCourse(c, first, k, s) && first <= k
    ensures AtRest(c, s)
  {
    NothingLeftIsRest(c, s);
  }

  lemma StaysStuck(c: Setup, run: seq<State>, i: nat)
    requires Rounds(c, run) && !NoFalseExit(c, run[0]) && i < |run|
    ensures !AtRest(c, run[i])
  {
    for k := 0 to i
      invariant run[k] == run[0]
    {
      StuckNext(c, run, k);
    }
    assert !(Wanted(c, run[0].t) == {});
    EarlyMeasure(c, run[0]);
  }

  lemma EarlyMeasure(c: Setup, s: State)
    requires s.store == map[] && Wanted(c, s.t) != {}
    ensures Measure(c, s) > 0
  {
    assert Missing(c, s) == Wanted(c, s.t);
  }

  /** Convergence, exactly: from any recorded statuses, with either setting of the option, a run of rounds
      is at rest from as many rounds on as the initial potential, if and only if it did not start in a
      false exit. */
  lemma Converges(c: Setup, run: seq<State>, i: nat)
    requires Rounds(c, run) && Grounded(c, run[0]) && Potential(c, run[0]) <= i < |run|
    ensures AtRest(c, run[i]) <==> NoFalseExit(c, run[0])
  {
    if NoFalseExit(c, run[0]) {
      ComesToRest(c, run, i);
    } else {
      StaysStuck(c, run, i);
    }
  }

  /** With calm statuses the measure alone is the bound. */
  lemma ConvergesWhenCalm(c: Setup, run: seq<State>, i: nat)
    requires Rounds(c, run) && Grounded(c, run[0]) && Calm(c, run[0]) && NoFalseExit(c, run[0])
    requires Measure(c, run[0]) <= i < |run|
    ensures AtRest(c, run[i])
  {
    ComesToRest(c, run, i);
  }
}
