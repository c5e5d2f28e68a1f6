/** The status machine: per-instance statuses that remember the previous ones, the app status drawn
    from them, the replica counters and the check that skips the write. */
module Status {
  import opened Decimal
  import opened Model
  import opened Templates
  import opened Planner

  type Statuses = map<Id, InstanceStatus>

  // ---------------------------------------------------------------- instance statuses

  /** What one pod says about its instance; None when its phase is none the controller knows.
      A dying pod counts as killing, unless its instance had finished before. */
  function PodStatus(spec: TAppSpec, finishedBefore: bool, pod: Pod, id: Id): Option<InstanceStatus> {
    if pod.dying && !finishedBefore then Some(Killing)
    else
      match pod.phase
      case PhasePending => Some(Pending)
      case PhaseRunning => Some(if IsPodReady(pod) then Running else Pending)
      case PhaseFailed => Some(if ShouldPodMigrate(spec, pod, id) == Decided(false) then Failed else PodFailed)
      case PhaseSucceeded => Some(if ShouldPodMigrate(spec, pod, id) == Decided(false) then Succ else PodSucc)
      case PhaseUnknown => Some(Unknown)
      case PhaseOther => None
  }

  function FromPods(spec: TAppSpec, previous: Statuses, pods: seq<Pod>): Statuses {
    if pods == [] then map[]
    else
      var last := pods[|pods| - 1];
      var rest := FromPods(spec, previous, pods[..|pods| - 1]);
      match PodIndex(last)
      case None => rest
      case Some(id) =>
        match PodStatus(spec, IsInstanceFinished(StatusOf(previous, id)), last, id)
        case None => rest
        case Some(status) => rest[id := status]
  }

  /** The status of an ordinal without a pod. */
  function MissingStatus(spec: TAppSpec, previous: Statuses, id: Id): InstanceStatus {
    if StatusOf(spec.statuses, id) == Killed then Killed
    else if IsInstanceFinished(StatusOf(previous, id)) then StatusOf(previous, id)
    else NotCreated
  }

  function InstanceStatuses(spec: TAppSpec, previous: Statuses, pods: seq<Pod>): Statuses {
    var found := FromPods(spec, previous, pods);
    found + map id | id in Ordinals(spec.replicas) && id !in found :: MissingStatus(spec, previous, id)
  }

  /** One turn of the loop over the pods. */
  method RecordPod(spec: TAppSpec, previous: Statuses, pod: Pod, id: Id, statuses: Statuses) returns (next: Statuses)
    ensures var own := PodStatus(spec, IsInstanceFinished(StatusOf(previous, id)), pod, id);
            next == if own.Some? then statuses[id := own.value] else statuses
  {
    if pod.dying && !IsInstanceFinished(StatusOf(previous, id)) {
      return statuses[id := Killing];
    }
    next := statuses;
    match pod.phase
    case PhasePending => next := next[id := Pending];
    case PhaseRunning =>
      if IsPodReady(pod) { next := next[id := Running]; } else { next := next[id := Pending]; }
    case PhaseUnknown => next := next[id := Unknown];
    case PhaseOther =>
    case _ =>
      var status := if pod.phase == PhaseFailed then Failed else Succ;
      var migration := ShouldPodMigrate(spec, pod, id);
      if migration.NoTemplate? { next := next[id := status]; }
      if migration.NoTemplate? || migration.migrate {
        if status == Succ { next := next[id := PodSucc]; } else { next := next[id := PodFailed]; }
      } else {
        next := next[id := status];
      }
  }

  lemma OrdinalsGrow(i: nat)
    ensures Ordinals(i + 1) == Ordinals(i) + {Print(i)}
  {
  }

  method FillOne(spec: TAppSpec, previous: Statuses, id: Id, statuses: Statuses) returns (next: Statuses)
    ensures next == if id in statuses then statuses else statuses[id := MissingStatus(spec, previous, id)]
  {
    next := statuses;
    if id !in statuses {
      if StatusOf(spec.statuses, id) == Killed {
        next := statuses[id := Killed];
      } else if IsInstanceFinished(StatusOf(previous, id)) {
        next := statuses[id := StatusOf(previous, id)];
      } else {
        next := statuses[id := NotCreated];
      }
    }
  }

  method FillMissing(spec: TAppSpec, previous: Statuses, found: Statuses) returns (statuses: Statuses)
    ensures statuses
         == found + map id | id in Ordinals(spec.replicas) && id !in found :: MissingStatus(spec, previous, id)
  {
    statuses := found;
    var i: int := 0;
    ghost var seen: set<Id> := {};
    while i < spec.replicas
      invariant 0 <= i && (i <= spec.replicas || i == 0)
      invariant seen == Ordinals(i) && statuses.Keys == found.Keys + seen
      invariant forall id :: id in statuses ==>
                  statuses[id] == if id in found then found[id] else MissingStatus(spec, previous, id)
    {
      var id := Print(i);
      OrdinalsGrow(i);
      statuses := FillOne(spec, previous, id, statuses);
      seen := seen + {id};
      i := i + 1;
    }
    assert Ordinals(i) == Ordinals(spec.replicas);
    MissingFilled(spec, previous, found, statuses);
  }

  lemma MissingFilled(spec: TAppSpec, previous: Statuses, found: Statuses, statuses: Statuses)
    requires statuses.Keys == found.Keys + Ordinals(spec.replicas)
    requires forall id :: id in statuses ==>
               statuses[id] == if id in found then found[id] else MissingStatus(spec, previous, id)
    ensures statuses
         == found + map id | id in Ordinals(spec.replicas) && id !in found :: MissingStatus(spec, previous, id)
  {
  }

  method GetInstanceStatus(spec: TAppSpec, previous: Statuses, pods: seq<Pod>) returns (statuses: Statuses)
    ensures statuses == InstanceStatuses(spec, previous, pods)
  {
    statuses := map[];
    for k := 0 to |pods|
      invariant statuses == FromPods(spec, previous, pods[..k])
    {
      assert pods[..k + 1][..k] == pods[..k];
      match PodIndex(pods[k])
      case None =>
      case Some(id) => statuses := RecordPod(spec, previous, pods[k], id, statuses);
    }
    assert pods[..|pods|] == pods;
    statuses := FillMissing(spec, previous, statuses);
  }

  // ---------------------------------------------------------------- app status and counters

  predicate AnyIs(statuses: Statuses, status: InstanceStatus) {
    exists id :: id in statuses && statuses[id] == status
  }

  predicate AnyAlive(statuses: Statuses) {
    exists id :: id in statuses && IsInstanceAlive(statuses[id])
  }

  function AppStatusOf(statuses: Statuses): AppStatus {
    if statuses == map[] then AppPending
    else if AnyAlive(statuses) then AppRunning
    else if AnyIs(statuses, Failed) then AppFailed
    else if AnyIs(statuses, Succ) then AppSucc
    else AppKilled
  }

  method GenAppStatus(statuses: Statuses) returns (status: AppStatus)
    ensures status == AppStatusOf(statuses)
  {
    if |statuses| == 0 { return AppPending; }
    var todo := statuses.Keys;
    while todo != {}
      invariant todo <= statuses.Keys
      invariant forall id :: id in statuses && id !in todo ==> !IsInstanceAlive(statuses[id])
    {
      var id :| id in todo;
      if IsInstanceAlive(statuses[id]) { return AppRunning; }
      todo := todo - {id};
    }
    var failed := Search(statuses, Failed);
    if failed { return AppFailed; }
    var succeeded := Search(statuses, Succ);
    if succeeded { return AppSucc; }
    return AppKilled;
  }

  method Search(statuses: Statuses, status: InstanceStatus) returns (found: bool)
    ensures found == AnyIs(statuses, status)
  {
    var todo := statuses.Keys;
    while todo != {}
      invariant todo <= statuses.Keys
      invariant forall id :: id in statuses && id !in todo ==> statuses[id] != status
    {
      var id :| id in todo;
      if statuses[id] == status { return true; }
      todo := todo - {id};
    }
    return false;
  }

  function CreatedIds(statuses: Statuses): set<Id> {
    set id | id in statuses && statuses[id] != NotCreated
  }

  function RunningIds(statuses: Statuses): set<Id> {
    set id | id in statuses && statuses[id] == Running
  }

  method GetTotalReplicas(statuses: Statuses) returns (n: nat)
    ensures n == |CreatedIds(statuses)|
  {
    n := 0;
    var todo := statuses.Keys;
    ghost var seen: set<Id> := {};
    while todo != {}
      invariant todo <= statuses.Keys && n == |seen|
      invariant seen == set id | id in CreatedIds(statuses) && id !in todo
    {
      var id :| id in todo;
      if statuses[id] != NotCreated {
        n := n + 1;
        seen := seen + {id};
      }
      todo := todo - {id};
    }
    assert seen == CreatedIds(statuses);
  }

  method GetReadyReplicas(statuses: Statuses) returns (n: nat)
    ensures n == |RunningIds(statuses)|
  {
    n := 0;
    var todo := statuses.Keys;
    ghost var seen: set<Id> := {};
    while todo != {}
      invariant todo <= statuses.Keys && n == |seen|
      invariant seen == set id | id in RunningIds(statuses) && id !in todo
    {
      var id :| id in todo;
      if statuses[id] == Running {
        n := n + 1;
        seen := seen + {id};
      }
      todo := todo - {id};
    }
    assert seen == RunningIds(statuses);
  }

  // ---------------------------------------------------------------- the update

  predicate ShouldUpdate(t: TApp, pods: seq<Pod>) {
    t.generation != t.status.observedGeneration
    || t.status.statuses != InstanceStatuses(t.spec, t.status.statuses, pods)
    || AppStatusOf(t.status.statuses) != t.status.appStatus
  }

  function StatusFor(generation: int, statuses: Statuses): TAppStatus {
    TAppStatus(generation, |CreatedIds(statuses)|, |RunningIds(statuses)|, AppStatusOf(statuses), statuses)
  }

  function UpdateStatus(t: TApp, pods: seq<Pod>): TApp {
    if !ShouldUpdate(t, pods) then t
    else t.(status := StatusFor(t.generation, InstanceStatuses(t.spec, t.status.statuses, pods)))
  }

  /** updateTAppStatus when the status write goes through the first time. */
  method UpdateTAppStatus(app: TAppObject, pods: seq<Pod>)
    modifies app`status
    ensures app.View() == UpdateStatus(old(app.View()), pods)
  {
    var statuses := GetInstanceStatus(app.spec, app.status.statuses, pods);
    if app.generation == app.status.observedGeneration && app.status.statuses == statuses {
      var appStatus := GenAppStatus(app.status.statuses);
      if appStatus == app.status.appStatus { return; }
    }
    var total := GetTotalReplicas(statuses);
    var ready := GetReadyReplicas(statuses);
    var appStatus := GenAppStatus(statuses);
    app.status := TAppStatus(app.generation, total, ready, appStatus, statuses);
  }

  // ---------------------------------------------------------------- one id at a time

  /** The pods' word on one id, given whether the instance had finished. */
  function StatusAt(spec: TAppSpec, finishedBefore: bool, pods: seq<Pod>, id: Id): Option<InstanceStatus> {
    if pods == [] then None
    else
      var last := pods[|pods| - 1];
      var own := if PodIndex(last) == Some(id) then PodStatus(spec, finishedBefore, last, id) else None;
      if own.Some? then own else StatusAt(spec, finishedBefore, pods[..|pods| - 1], id)
  }

  function Read(statuses: Statuses, id: Id): Option<InstanceStatus> {
    if id in statuses then Some(statuses[id]) else None
  }

  lemma {:induction false} FromPodsAt(spec: TAppSpec, previous: Statuses, pods: seq<Pod>, id: Id)
    ensures Read(FromPods(spec, previous, pods), id)
         == StatusAt(spec, IsInstanceFinished(StatusOf(previous, id)), pods, id)
  {
    if pods != [] {
      FromPodsAt(spec, previous, pods[..|pods| - 1], id);
    }
  }

  /** The new status of an id as a function of its previous one. */
  function NextStatus(spec: TAppSpec, previous: InstanceStatus, pods: seq<Pod>, id: Id): Option<InstanceStatus> {
    var found := StatusAt(spec, IsInstanceFinished(previous), pods, id);
    if found.Some? then found
    else if id !in Ordinals(spec.replicas) then None
    else if StatusOf(spec.statuses, id) == Killed then Some(Killed)
    else if IsInstanceFinished(previous) then Some(previous)
    else Some(NotCreated)
  }

  lemma InstanceStatusesAt(spec: TAppSpec, previous: Statuses, pods: seq<Pod>, id: Id)
    ensures Read(InstanceStatuses(spec, previous, pods), id) == NextStatus(spec, StatusOf(previous, id), pods, id)
  {
    FromPodsAt(spec, previous, pods, id);
  }

  /** If the pods make an unfinished instance finished, they would say the same of a finished one; and
      pods that say nothing of an unfinished instance say nothing of a finished one. */
  lemma {:induction false} FinishingIsStable(spec: TAppSpec, pods: seq<Pod>, id: Id)
    ensures var fresh', memory := StatusAt(spec, false, pods, id), StatusAt(spec, true, pods, id);
            && (fresh'.None? ==> memory.None?)
            && (fresh'.Some? && IsInstanceFinished(fresh'.value) ==> memory == fresh')
  {
    if pods != [] {
      FinishingIsStable(spec, pods[..|pods| - 1], id);
    }
  }

  function Settled(status: Option<InstanceStatus>): InstanceStatus {
    if status.Some? then status.value else OtherStatus("")
  }

  lemma NextStatusSettles(spec: TAppSpec, previous: InstanceStatus, pods: seq<Pod>, id: Id)
    ensures var once := Settled(NextStatus(spec, previous, pods, id));
            var twice := Settled(NextStatus(spec, once, pods, id));
            NextStatus(spec, twice, pods, id) == NextStatus(spec, once, pods, id)
  {
    FinishingIsStable(spec, pods, id);
  }

  lemma SameReads(a: Statuses, b: Statuses)
    requires forall id :: Read(a, id) == Read(b, id)
    ensures a == b
  {
    forall id ensures id in a <==> id in b { assert Read(a, id) == Read(b, id); }
    forall id | id in a ensures a[id] == b[id] { assert Read(a, id) == Read(b, id); }
  }

  /** Over an unchanged spec and pod list, duplicate ids, dying pods and unknown phases included, two
      computations reach a fixed point. */
  lemma TwoComputationsSuffice(spec: TAppSpec, previous: Statuses, pods: seq<Pod>)
    ensures var once := InstanceStatuses(spec, previous, pods);
            var twice := InstanceStatuses(spec, once, pods);
            InstanceStatuses(spec, twice, pods) == twice
  {
    var once := InstanceStatuses(spec, previous, pods);
    var twice := InstanceStatuses(spec, once, pods);
    forall id ensures Read(InstanceStatuses(spec, twice, pods), id) == Read(twice, id) {
      InstanceStatusesAt(spec, previous, pods, id);
      InstanceStatusesAt(spec, once, pods, id);
      InstanceStatusesAt(spec, twice, pods, id);
      NextStatusSettles(spec, StatusOf(previous, id), pods, id);
    }
    SameReads(InstanceStatuses(spec, twice, pods), twice);
  }

  /** After two updates over the same pods there is nothing left to write. */
  lemma StatusStabilises(t: TApp, pods: seq<Pod>)
    ensures var settled := UpdateStatus(UpdateStatus(t, pods), pods);
            !ShouldUpdate(settled, pods) && UpdateStatus(settled, pods) == settled
  {
    TwoComputationsSuffice(t.spec, t.status.statuses, pods);
  }

  /** Is one computation final for an instance recorded as finished? With memory the pods either say
      nothing, or name a finished status, or say what they would say without memory. */
  predicate FinalAtOnce(spec: TAppSpec, pods: seq<Pod>, id: Id) {
    var memory, fresh' := StatusAt(spec, true, pods, id), StatusAt(spec, false, pods, id);
    if memory.None? then id in Ordinals(spec.replicas) || fresh'.None?
    else IsInstanceFinished(memory.value) || memory == fresh'
  }

  lemma FinalAtOnceIsFixed(spec: TAppSpec, previous: InstanceStatus, pods: seq<Pod>, id: Id)
    ensures var once := NextStatus(spec, previous, pods, id);
            (NextStatus(spec, Settled(once), pods, id) == once <==>
               (IsInstanceFinished(previous) ==> FinalAtOnce(spec, pods, id)))
  {
    FinishingIsStable(spec, pods, id);
  }

  lemma OneComputationSuffices(spec: TAppSpec, previous: Statuses, pods: seq<Pod>)
    ensures var once := InstanceStatuses(spec, previous, pods);
            (InstanceStatuses(spec, once, pods) == once <==>
               forall id :: id in previous && IsInstanceFinished(previous[id]) ==> FinalAtOnce(spec, pods, id))
  {
    var once := InstanceStatuses(spec, previous, pods);
    var twice := InstanceStatuses(spec, once, pods);
    forall id ensures Read(twice, id) == Read(once, id) <==>
                        (IsInstanceFinished(StatusOf(previous, id)) ==> FinalAtOnce(spec, pods, id))
    {
      InstanceStatusesAt(spec, previous, pods, id);
      InstanceStatusesAt(spec, once, pods, id);
      FinalAtOnceIsFixed(spec, StatusOf(previous, id), pods, id);
    }
    if forall id :: Read(twice, id) == Read(once, id) {
      SameReads(twice, once);
    }
  }

  /** One update over the same pods is final exactly when it is for every instance recorded as finished. */
  lemma OneUpdateSuffices(t: TApp, pods: seq<Pod>)
    ensures !ShouldUpdate(UpdateStatus(t, pods), pods) <==>
              forall id :: id in t.status.statuses && IsInstanceFinished(t.status.statuses[id]) ==>
                FinalAtOnce(t.spec, pods, id)
  {
    OneComputationSuffices(t.spec, t.status.statuses, pods);
  }

  /** One update is not enough: a running pod that dies after its instance was recorded as failed is
      first read as running, and only then as killing. */
  lemma OneUpdateIsNotEnough(t: TApp, pod: Pod)
    requires t.generation == t.status.observedGeneration && t.status.statuses == map["0" := Failed]
    requires pod.labels == map[INSTANCE_KEY := "0"] && pod.dying && pod.phase == PhaseRunning && pod.conditions == []
    ensures ShouldUpdate(UpdateStatus(t, [pod]), [pod])
  {
    InstanceStatusesAt(t.spec, t.status.statuses, [pod], "0");
    assert StatusAt(t.spec, true, [pod], "0") == Some(Running);
    var once := InstanceStatuses(t.spec, t.status.statuses, [pod]);
    assert Read(once, "0") == Some(Running);
    InstanceStatusesAt(t.spec, once, [pod], "0");
    assert StatusAt(t.spec, false, [pod], "0") == Some(Killing);
  }

  // ---------------------------------------------------------------- planner and status agree

  lemma {:induction false} LastPodDecides(spec: TAppSpec, finishedBefore: bool, pods: seq<Pod>, id: Id, k: nat)
    requires k < |pods| && PodIndex(pods[k]) == Some(id) && PodStatus(spec, finishedBefore, pods[k], id).Some?
    requires forall m :: k < m < |pods| ==> PodIndex(pods[m]) != Some(id)
    ensures StatusAt(spec, finishedBefore, pods, id) == PodStatus(spec, finishedBefore, pods[k], id)
    decreases |pods|
  {
    if k < |pods| - 1 {
      LastPodDecides(spec, finishedBefore, pods[..|pods| - 1], id, k);
    }
  }

  /** A pod the planner counts as available is recorded as running, whatever was recorded before. */
  lemma AvailableIsRunning(spec: TAppSpec, previous: Statuses, pods: seq<Pod>, running: set<Id>, id: Id)
    requires id in AvailablePods(PodMap(pods), running)
    ensures Read(InstanceStatuses(spec, previous, pods), id) == Some(Running)
  {
    PodMapHoldsLast(pods, id);
    var k :| IsLast(pods, id, k) && PodMap(pods)[id] == pods[k];
    assert IsPodReady(pods[k]);
    LastPodDecides(spec, IsInstanceFinished(StatusOf(previous, id)), pods, id, k);
    InstanceStatusesAt(spec, previous, pods, id);
  }

  lemma SubsetCard(a: set<Id>, b: set<Id>)
    requires a <= b
    ensures |a| <= |b|
  {
    assert b == a + (b - a);
  }

  /** The counters bound the planner's availability from above. */
  lemma AvailableWithinCounters(t: TApp, pods: seq<Pod>, running: set<Id>)
    ensures var statuses := InstanceStatuses(t.spec, t.status.statuses, pods);
            |AvailablePods(PodMap(pods), running)| <= |RunningIds(statuses)| <= |CreatedIds(statuses)|
  {
    var statuses := InstanceStatuses(t.spec, t.status.statuses, pods);
    forall id | id in AvailablePods(PodMap(pods), running) ensures id in RunningIds(statuses) {
      AvailableIsRunning(t.spec, t.status.statuses, pods, running, id);
    }
    SubsetCard(AvailablePods(PodMap(pods), running), RunningIds(statuses));
    SubsetCard(RunningIds(statuses), CreatedIds(statuses));
  }

  lemma {:induction false} PodsSayKnownStatuses(spec: TAppSpec, finishedBefore: bool, pods: seq<Pod>, id: Id)
    ensures var s := StatusAt(spec, finishedBefore, pods, id);
            s.Some? ==> IsInstanceAlive(s.value) || s.value == Failed || s.value == Succ
  {
    if pods != [] {
      PodsSayKnownStatuses(spec, finishedBefore, pods[..|pods| - 1], id);
    }
  }

  /** A computed status is alive or finished, never anything else. */
  lemma ComputedStatusIsKnown(spec: TAppSpec, previous: Statuses, pods: seq<Pod>, id: Id)
    requires id in InstanceStatuses(spec, previous, pods)
    ensures var s := InstanceStatuses(spec, previous, pods)[id]; IsInstanceAlive(s) || IsInstanceFinished(s)
  {
    InstanceStatusesAt(spec, previous, pods, id);
    PodsSayKnownStatuses(spec, IsInstanceFinished(StatusOf(previous, id)), pods, id);
  }

  lemma KilledMeaning(statuses: Statuses)
    requires forall id :: id in statuses ==> IsInstanceAlive(statuses[id]) || IsInstanceFinished(statuses[id])
    ensures AppStatusOf(statuses) == AppKilled <==>
              statuses != map[] && forall id :: id in statuses ==> statuses[id] == Killed
  {
  }

  lemma FinishedMeaning(statuses: Statuses)
    requires forall id :: id in statuses ==> IsInstanceAlive(statuses[id]) || IsInstanceFinished(statuses[id])
    ensures IsFinishedStatus(AppStatusOf(statuses)) <==>
              statuses != map[] && forall id :: id in statuses ==> IsInstanceFinished(statuses[id])
  {
  }

  /** Over computed statuses the app is killed exactly when there is an instance and all are killed, and
      finished exactly when there is one and all are finished. */
  lemma AppStatusMeaning(spec: TAppSpec, previous: Statuses, pods: seq<Pod>)
    ensures var statuses := InstanceStatuses(spec, previous, pods);
            && (AppStatusOf(statuses) == AppKilled <==>
                  statuses != map[] && forall id :: id in statuses ==> statuses[id] == Killed)
            && (IsFinishedStatus(AppStatusOf(statuses)) <==>
                  statuses != map[] && forall id :: id in statuses ==> IsInstanceFinished(statuses[id]))
  {
    var statuses := InstanceStatuses(spec, previous, pods);
    forall id | id in statuses ensures IsInstanceAlive(statuses[id]) || IsInstanceFinished(statuses[id]) {
      ComputedStatusIsKnown(spec, previous, pods, id);
    }
    KilledMeaning(statuses);
    FinishedMeaning(statuses);
  }

  // ---------------------------------------------------------------- what the statuses say

  /** The pod has something to say about the instance: it carries the id, and is dying or in a known phase. */
  predicate Speaks(pod: Pod, id: Id, finishedBefore: bool) {
    PodIndex(pod) == Some(id) && (pod.phase != PhaseOther || (pod.dying && !finishedBefore))
  }

  predicate SpeaksLast(pods: seq<Pod>, id: Id, finishedBefore: bool, k: int) {
    && 0 <= k < |pods| && Speaks(pods[k], id, finishedBefore)
    && forall m :: k < m < |pods| ==> !Speaks(pods[m], id, finishedBefore)
  }

  /** The status told by a pod. A dying pod is being killed unless the instance had finished, and a completed
      pod that is to be started again has only finished as a pod. */
  predicate Tells(spec: TAppSpec, pod: Pod, id: Id, finishedBefore: bool, status: InstanceStatus) {
    var killing, restarts := pod.dying && !finishedBefore, ShouldPodMigrate(spec, pod, id) != Decided(false);
    && (status == Killing <==> killing)
    && (status == Pending <==>
          !killing && (pod.phase == PhasePending || (pod.phase == PhaseRunning && !IsPodReady(pod))))
    && (status == Running <==> !killing && pod.phase == PhaseRunning && IsPodReady(pod))
    && (status == Failed <==> !killing && pod.phase == PhaseFailed && !restarts)
    && (status == PodFailed <==> !killing && pod.phase == PhaseFailed && restarts)
    && (status == Succ <==> !killing && pod.phase == PhaseSucceeded && !restarts)
    && (status == PodSucc <==> !killing && pod.phase == PhaseSucceeded && restarts)
    && (status == Unknown <==> !killing && pod.phase == PhaseUnknown)
    && status in {Killing, Pending, Running, Failed, PodFailed, Succ, PodSucc, Unknown}
  }

  lemma SpeakerTells(spec: TAppSpec, finishedBefore: bool, pod: Pod, id: Id)
    requires PodIndex(pod) == Some(id)
    ensures PodStatus(spec, finishedBefore, pod, id).Some? <==> Speaks(pod, id, finishedBefore)
    ensures PodStatus(spec, finishedBefore, pod, id).Some? ==>
              Tells(spec, pod, id, finishedBefore, PodStatus(spec, finishedBefore, pod, id).value)
  {
  }

  lemma {:induction false} LastSpeakerDecides(spec: TAppSpec, finishedBefore: bool, pods: seq<Pod>, id: Id, k: int)
    requires SpeaksLast(pods, id, finishedBefore, k)
    ensures StatusAt(spec, finishedBefore, pods, id).Some?
    ensures Tells(spec, pods[k], id, finishedBefore, StatusAt(spec, finishedBefore, pods, id).value)
    decreases |pods|
  {
    var init, last := pods[..|pods| - 1], pods[|pods| - 1];
    if PodIndex(last) == Some(id) { SpeakerTells(spec, finishedBefore, last, id); }
    if k < |pods| - 1 {
      assert forall m :: 0 <= m < |init| ==> init[m] == pods[m];
      LastSpeakerDecides(spec, finishedBefore, init, id, k);
    }
  }

  lemma {:induction false} NoSpeakerDecidesNothing(spec: TAppSpec, finishedBefore: bool, pods: seq<Pod>, id: Id)
    requires forall m :: 0 <= m < |pods| ==> !Speaks(pods[m], id, finishedBefore)
    ensures StatusAt(spec, finishedBefore, pods, id) == None
  {
    if pods != [] {
      var init, last := pods[..|pods| - 1], pods[|pods| - 1];
      assert forall m :: 0 <= m < |init| ==> init[m] == pods[m];
      if PodIndex(last) == Some(id) { SpeakerTells(spec, finishedBefore, last, id); }
      NoSpeakerDecidesNothing(spec, finishedBefore, init, id);
    }
  }

  predicate FinishedBefore(previous: Statuses, id: Id) {
    id in previous && previous[id] in {Killed, Failed, Succ}
  }

  /** With a pod that has something to say, the last such pod tells the status. */
  lemma LastPodTells(spec: TAppSpec, previous: Statuses, pods: seq<Pod>, id: Id, k: int)
    requires SpeaksLast(pods, id, FinishedBefore(previous, id), k)
    ensures var statuses := InstanceStatuses(spec, previous, pods);
            id in statuses && Tells(spec, pods[k], id, FinishedBefore(previous, id), statuses[id])
  {
    InstanceStatusesAt(spec, previous, pods, id);
    LastSpeakerDecides(spec, FinishedBefore(previous, id), pods, id, k);
  }

  /** Without one, only ordinals have a status: killed if the spec says so, what they finished as, or not
      created. */
  lemma SilenceTells(spec: TAppSpec, previous: Statuses, pods: seq<Pod>, id: Id)
    requires forall m :: 0 <= m < |pods| ==> !Speaks(pods[m], id, FinishedBefore(previous, id))
    ensures Read(InstanceStatuses(spec, previous, pods), id)
         == if id !in Ordinals(spec.replicas) then None
            else if id in spec.statuses && spec.statuses[id] == Killed then Some(Killed)
            else if FinishedBefore(previous, id) then Some(previous[id])
            else Some(NotCreated)
  {
    InstanceStatusesAt(spec, previous, pods, id);
    NoSpeakerDecidesNothing(spec, FinishedBefore(previous, id), pods, id);
  }

  predicate HasFinished(status: InstanceStatus) {
    status in {Killed, Failed, Succ}
  }

  /** The app status over computed statuses: pending without instances, running while one has not finished,
      failed if all have finished and one has failed, succeeded if all have finished, none failed and one
      succeeded, and killed if all were killed. */
  lemma AppStatusTells(spec: TAppSpec, previous: Statuses, pods: seq<Pod>)
    ensures var statuses := InstanceStatuses(spec, previous, pods);
            var over := forall id :: id in statuses ==> HasFinished(statuses[id]);
            var failed, succeeded := exists id :: id in statuses && statuses[id] == Failed,
                                     exists id :: id in statuses && statuses[id] == Succ;
            && (AppStatusOf(statuses) == AppPending <==> statuses == map[])
            && (AppStatusOf(statuses) == AppRunning <==> !over)
            && (AppStatusOf(statuses) == AppFailed <==> over && failed)
            && (AppStatusOf(statuses) == AppSucc <==> over && !failed && succeeded)
            && (AppStatusOf(statuses) == AppKilled <==> over && !failed && !succeeded && statuses != map[])
  {
    var statuses := InstanceStatuses(spec, previous, pods);
    forall id | id in statuses ensures IsInstanceAlive(statuses[id]) <==> !HasFinished(statuses[id]) {
      ComputedStatusIsKnown(spec, previous, pods, id);
    }
  }

  /** After an update the status is the computed one for this generation, whether or not it was written;
      it is left alone exactly when it was that already. */
  lemma UpdatedStatus(t: TApp, pods: seq<Pod>)
    ensures var computed := InstanceStatuses(t.spec, t.status.statuses, pods);
            var after := UpdateStatus(t, pods);
            && after.status.statuses == computed && after.status.observedGeneration == t.generation
            && after.status.appStatus == AppStatusOf(computed) && after.(status := t.status) == t
            && (ShouldUpdate(t, pods) <==>
                  !(t.status.statuses == computed && t.status.observedGeneration == t.generation
                    && t.status.appStatus == AppStatusOf(computed)))
            && (!ShouldUpdate(t, pods) ==> after == t)
  {
  }

  /** The counters written: all instances but those not created, and those running. They bound the pods the
      planner counts as available from above. */
  lemma WrittenCounters(t: TApp, pods: seq<Pod>, running: set<Id>)
    requires ShouldUpdate(t, pods)
    ensures var status := UpdateStatus(t, pods).status;
            && status.replicas == |set id | id in status.statuses && status.statuses[id] != NotCreated|
            && status.readyReplicas == |set id | id in status.statuses && status.statuses[id] == Running|
            && |AvailablePods(PodMap(pods), running)| <= status.readyReplicas <= status.replicas
  {
    AvailableWithinCounters(t, pods, running);
    var statuses := UpdateStatus(t, pods).status.statuses;
    assert CreatedIds(statuses) == set id | id in statuses && statuses[id] != NotCreated;
    assert RunningIds(statuses) == set id | id in statuses && statuses[id] == Running;
  }
}
