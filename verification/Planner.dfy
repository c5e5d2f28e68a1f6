/** One sync's plan: the desired sets, an action per pod, and the budgeted transformation of actions
    into creates, deletes, forced deletes and updates. Ranging over a Go map is an arbitrary order:
    the specification takes the order as a parameter, the methods pick any element. */
module Planner {
  import opened Decimal
  import opened Model
  import opened Instances
  import opened Admission
  import opened Syncer

  // ---------------------------------------------------------------- desired sets

  function Ordinals(n: int): set<Id> {
    set i | 0 <= i < n :: Print(i)
  }

  /** Killed by the spec, or finished by the status once finished instances count. */
  function DesiredCompleted(deleteAfterFinish: bool, t: TApp): set<Id> {
    (set id | id in t.spec.statuses && t.spec.statuses[id] == Killed)
    + if !deleteAfterFinish || IsTAppFinished(t)
      then set id | id in t.status.statuses && (t.status.statuses[id] == Failed || t.status.statuses[id] == Succ)
      else {}
  }

  function DesiredRunning(deleteAfterFinish: bool, t: TApp): set<Id> {
    Ordinals(t.spec.replicas) - DesiredCompleted(deleteAfterFinish, t)
  }

  method GetDesiredInstance(deleteAfterFinish: bool, t: TApp) returns (running: set<Id>, completed: set<Id>)
    ensures running == DesiredRunning(deleteAfterFinish, t)
    ensures completed == DesiredCompleted(deleteAfterFinish, t)
  {
    completed := {};
    var todo := t.spec.statuses.Keys;
    while todo != {}
      invariant todo <= t.spec.statuses.Keys
      invariant completed == set id | id in t.spec.statuses && id !in todo && t.spec.statuses[id] == Killed
    {
      var id :| id in todo;
      if t.spec.statuses[id] == Killed { completed := completed + {id}; }
      todo := todo - {id};
    }
    ghost var killed := completed;
    if !deleteAfterFinish || IsTAppFinished(t) {
      todo := t.status.statuses.Keys;
      while todo != {}
        invariant todo <= t.status.statuses.Keys
        invariant completed == killed + set id | id in t.status.statuses && id !in todo
                                                 && (t.status.statuses[id] == Failed || t.status.statuses[id] == Succ)
      {
        var id :| id in todo;
        if t.status.statuses[id] == Failed || t.status.statuses[id] == Succ { completed := completed + {id}; }
        todo := todo - {id};
      }
    }
    var total: set<Id> := {};
    var i: int := 0;
    while i < t.spec.replicas
      invariant 0 <= i && (i <= t.spec.replicas || i == 0)
      invariant total == Ordinals(i)
    {
      total := total + {Print(i)};
      i := i + 1;
    }
    assert total == Ordinals(t.spec.replicas);
    running := total - completed;
  }

  // ---------------------------------------------------------------- actions

  datatype PodAction = CreatePod | UpdatePod | RecreatePod | DeletePod

  function RunningAction(spec: TAppSpec, podMap: map<Id, Pod>, id: Id): Option<PodAction> {
    if id !in podMap then Some(CreatePod)
    else
      var pod := podMap[id];
      if pod.dying then Some(DeletePod)
      else if IsPodCompleted(pod) then
        if ShouldPodMigrate(spec, pod, id) == Decided(true) then Some(DeletePod) else None
      else if IsTemplateHashChanged(spec, id, pod) then
        if !IsUniqHashChanged(spec, id, pod) then Some(UpdatePod) else Some(RecreatePod)
      else None
  }

  function RunningActions(spec: TAppSpec, running: set<Id>, podMap: map<Id, Pod>): map<Id, PodAction> {
    map id | id in running && RunningAction(spec, podMap, id).Some? :: RunningAction(spec, podMap, id).value
  }

  function CompletedActions(completed: set<Id>, podMap: map<Id, Pod>): map<Id, PodAction> {
    map id | id in completed && id in podMap :: DeletePod
  }

  /** Ids that parse to a number at or beyond the replica count; other strings are left alone. */
  predicate IsBeyond(id: Id, replicas: int) {
    Parse(id).Number? && Parse(id).value >= replicas
  }

  function UnwantedActions(replicas: int, podMap: map<Id, Pod>): map<Id, PodAction> {
    map id | id in podMap && IsBeyond(id, replicas) :: DeletePod
  }

  function MergeActions(actions: seq<map<Id, PodAction>>): map<Id, PodAction> {
    if actions == [] then map[] else MergeActions(actions[..|actions| - 1]) + actions[|actions| - 1]
  }

  function NextActions(spec: TAppSpec, running: set<Id>, completed: set<Id>, podMap: map<Id, Pod>): map<Id, PodAction> {
    MergeActions([RunningActions(spec, running, podMap), CompletedActions(completed, podMap),
                  UnwantedActions(spec.replicas, podMap)])
  }

  method SyncRunningPods(spec: TAppSpec, running: set<Id>, podMap: map<Id, Pod>) returns (actions: map<Id, PodAction>)
    ensures actions == RunningActions(spec, running, podMap)
  {
    actions := map[];
    var todo := running;
    while todo != {}
      invariant todo <= running
      invariant actions == RunningActions(spec, running - todo, podMap)
    {
      var id :| id in todo;
      if id !in podMap {
        actions := actions[id := CreatePod];
      } else {
        var pod := podMap[id];
        if pod.dying {
          actions := actions[id := DeletePod];
        } else if IsPodCompleted(pod) {
          match ShouldPodMigrate(spec, pod, id)
          case NoTemplate =>
          case Decided(migrate) =>
            if migrate { actions := actions[id := DeletePod]; }
        } else if IsTemplateHashChanged(spec, id, pod) {
          if !IsUniqHashChanged(spec, id, pod) {
            actions := actions[id := UpdatePod];
          } else {
            actions := actions[id := RecreatePod];
          }
        }
      }
      todo := todo - {id};
    }
    assert running - todo == running;
  }

  method SyncCompletedPods(completed: set<Id>, podMap: map<Id, Pod>) returns (actions: map<Id, PodAction>)
    ensures actions == CompletedActions(completed, podMap)
  {
    actions := map[];
    var todo := completed;
    while todo != {}
      invariant todo <= completed
      invariant actions == CompletedActions(completed - todo, podMap)
    {
      var id :| id in todo;
      if id in podMap { actions := actions[id := DeletePod]; }
      todo := todo - {id};
    }
    assert completed - todo == completed;
  }

  method SyncUnwantedPods(replicas: int, podMap: map<Id, Pod>) returns (actions: map<Id, PodAction>)
    ensures actions == UnwantedActions(replicas, podMap)
  {
    actions := map[];
    var todo := podMap.Keys;
    while todo != {}
      invariant todo <= podMap.Keys
      invariant actions == map id | id in podMap && id !in todo && IsBeyond(id, replicas) :: DeletePod
    {
      var id :| id in todo;
      match Parse(id) {
        case Number(v) => if v >= replicas { actions := actions[id := DeletePod]; }
        case _ =>
      }
      todo := todo - {id};
    }
  }

  method MergePodActions(actions: seq<map<Id, PodAction>>) returns (result: map<Id, PodAction>)
    ensures result == MergeActions(actions)
  {
    result := map[];
    for i := 0 to |actions|
      invariant result == MergeActions(actions[..i])
    {
      assert actions[..i + 1][..i] == actions[..i];
      ghost var before := result;
      var todo := actions[i].Keys;
      while todo != {}
        invariant todo <= actions[i].Keys
        invariant result == before + (actions[i] - todo)
      {
        var k :| k in todo;
        result, todo := result[k := actions[i][k]], todo - {k};
      }
      assert actions[i] - todo == actions[i];
    }
    assert actions[..|actions|] == actions;
  }

  method GetNextActionsForPods(spec: TAppSpec, running: set<Id>, completed: set<Id>, podMap: map<Id, Pod>)
    returns (actions: map<Id, PodAction>)
    ensures actions == NextActions(spec, running, completed, podMap)
  {
    var a1 := SyncRunningPods(spec, running, podMap);
    var a2 := SyncCompletedPods(completed, podMap);
    var a3 := SyncUnwantedPods(spec.replicas, podMap);
    actions := MergePodActions([a1, a2, a3]);
  }

  // ---------------------------------------------------------------- availability

  function AvailablePods(podMap: map<Id, Pod>, running: set<Id>): set<Id> {
    set id | id in running && id in podMap && IsAvailable(podMap[id])
  }

  method GetAvailablePods(podMap: map<Id, Pod>, running: set<Id>) returns (available: set<Id>)
    ensures available == AvailablePods(podMap, running)
  {
    available := {};
    var todo := running;
    while todo != {}
      invariant todo <= running
      invariant available == AvailablePods(podMap, running - todo)
    {
      var id :| id in todo;
      if id in podMap && !IsPodInactive(podMap[id]) {
        var updating := ScanIsUpdating(podMap[id]);
        if !updating {
          var c := ConditionOf(podMap[id].conditions, READY_TYPE);
          if c.Some? && c.value.status == CondTrue { available := available + {id}; }
        }
      }
      todo := todo - {id};
    }
    assert running - todo == running;
  }

  // ---------------------------------------------------------------- spending the budget

  /** What the transformation reads. */
  datatype Job = Job(t: TApp, nodes: NodeStore, actions: map<Id, PodAction>, podMap: map<Id, Pod>, running: set<Id>)

  predicate NeedForceDelete(t: TApp, nodes: NodeStore, pod: Pod) {
    pod.dying && t.spec.forceDeletePod && pod.nodeName != ""
    && pod.nodeName !in nodes.failing
    && (pod.nodeName in nodes.nodes ==>
          var ready := ConditionOf(nodes.nodes[pod.nodeName], READY_TYPE);
          ready.Some? && ready.value.status != CondTrue)
  }

  /** Only creates go without a pod. */
  predicate Backed(j: Job) {
    forall id :: id in j.actions && j.actions[id] != CreatePod ==> id in j.podMap
  }

  datatype Change = InPlace | ByRecreation | Unbuildable

  /** What an action comes to for its pod, apart from the budget. */
  datatype Verdict = IgnoreIt | AddIt | DeleteIt | ForceDeleteIt | AwaitIt | ChangeIt(how: Change, rolling: bool)

  function VerdictOf(j: Job, id: Id): Verdict
    requires Backed(j) && id in j.actions
  {
    match j.actions[id]
    case CreatePod => if NewPod(j.t, id).Some? then AddIt else IgnoreIt
    case DeletePod =>
      if NeedForceDelete(j.t, j.nodes, j.podMap[id]) then ForceDeleteIt
      else if !j.podMap[id].dying then DeleteIt
      else AwaitIt
    case UpdatePod =>
      ChangeIt(if NewPod(j.t, id).Some? then InPlace else Unbuildable, IsInRollingUpdate(j.t.spec, id))
    case RecreatePod => ChangeIt(ByRecreation, IsInRollingUpdate(j.t.spec, id))
  }

  type Verdicts = map<Id, Verdict>

  function VerdictsOf(j: Job): Verdicts
    requires Backed(j)
  {
    map id | id in j.actions :: VerdictOf(j, id)
  }

  /** What has been decided so far; `rolling` collects the rolling-update candidates. */
  datatype Progress = Progress(add: seq<Id>, del: seq<Id>, forceDel: seq<Id>, update: seq<Id>,
                               available: set<Id>, rolling: seq<Id>)

  datatype Stage = DeleteCreate | ForceUpdate(minAvailable: int) | RollingUpdate(minAvailable: int)

  /** Start the update or recreation of one pod. */
  function Launch(how: Change, id: Id, s: Progress): Progress {
    match how
    case InPlace => s.(update := s.update + [id], available := s.available - {id})
    case ByRecreation => s.(del := s.del + [id], available := s.available - {id})
    case Unbuildable => s
  }

  function Step(stage: Stage, v: Verdict, id: Id, s: Progress): Progress {
    match stage
    case DeleteCreate =>
      (match v
       case AddIt => s.(add := s.add + [id])
       case DeleteIt => s.(del := s.del + [id], available := s.available - {id})
       case ForceDeleteIt => s.(forceDel := s.forceDel + [id], available := s.available - {id})
       case AwaitIt => s.(available := s.available - {id})
       case _ => s)
    case ForceUpdate(minAvailable) =>
      if !v.ChangeIt? then s
      else if v.rolling then s.(rolling := s.rolling + [id])
      else if |s.available| <= minAvailable then s
      else Launch(v.how, id, s)
    case RollingUpdate(minAvailable) =>
      if !v.ChangeIt? || (id in s.available && |s.available| <= minAvailable) then s else Launch(v.how, id, s)
  }

  function VerdictAt(vs: Verdicts, id: Id): Verdict {
    if id in vs then vs[id] else IgnoreIt
  }

  function Run(stage: Stage, vs: Verdicts, order: seq<Id>, s: Progress): Progress
    decreases |order|
  {
    if order == [] then s
    else
      var id := order[|order| - 1];
      Step(stage, VerdictAt(vs, id), id, Run(stage, vs, order[..|order| - 1], s))
  }

  /** Insertion by numeric value; stands for the sort of the rolling candidates. */
  function Insert(id: Id, sorted: seq<Id>): (r: seq<Id>)
    ensures multiset(r) == multiset(sorted) + multiset{id}
  {
    if sorted == [] then [id]
    else if ValueOrZero(id) <= ValueOrZero(sorted[0]) then [id] + sorted
    else
      assert sorted == [sorted[0]] + sorted[1..];
      [sorted[0]] + Insert(id, sorted[1..])
  }

  function SortIds(ids: seq<Id>): (r: seq<Id>)
    ensures multiset(r) == multiset(ids)
  {
    if ids == [] then []
    else
      assert ids == [ids[0]] + ids[1..];
      Insert(ids[0], SortIds(ids[1..]))
  }

  function Opening(available: set<Id>): Progress {
    Progress([], [], [], [], available, [])
  }

  predicate Distinct(order: seq<Id>) {
    forall i, k :: 0 <= i < k < |order| ==> order[i] != order[k]
  }

  /** A complete visit of a map, each key once. */
  predicate IsOrder(vs: Verdicts, order: seq<Id>) {
    multiset(order) == multiset(vs.Keys)
  }

  /** What the budget is spent on: a verdict per id, the available pods and the size of the desired set. */
  datatype Stock = Stock(vs: Verdicts, available: set<Id>, size: nat)

  /** The force phase over a visit of the actions. */
  function Force(k: Stock, s1: Progress, order: seq<Id>, minAvailable: int): Progress {
    Run(ForceUpdate(minAvailable), k.vs, order, s1)
  }

  /** The first two phases, under a force budget that may be unreadable. */
  function AfterForce(k: Stock, order1: seq<Id>, order2: seq<Id>, force: Option<int>): Progress
  {
    var s1 := Run(DeleteCreate, k.vs, order1, Opening(k.available));
    if force.None? then s1 else Force(k, s1, order2, k.size - force.value)
  }

  /** The rolling phase over its sorted candidates. */
  function Roll(k: Stock, s2: Progress, minAvailable: int): Progress {
    Run(RollingUpdate(minAvailable), k.vs, SortIds(s2.rolling), s2)
  }

  /** All three phases. An unreadable budget ends the transformation before its phase. */
  function Spend(k: Stock, order1: seq<Id>, order2: seq<Id>, force: Option<int>, rolling: Option<int>): Progress
  {
    var s2 := AfterForce(k, order1, order2, force);
    if force.None? || rolling.None? then s2 else Roll(k, s2, k.size - rolling.value)
  }

  function StockOf(j: Job): Stock
    requires Backed(j)
  {
    Stock(VerdictsOf(j), AvailablePods(j.podMap, j.running), |j.running|)
  }

  function Transform(j: Job, order1: seq<Id>, order2: seq<Id>): Progress
    requires Backed(j)
  {
    Spend(StockOf(j), order1, order2, ForceBudget(j.t.spec, |j.running|), RollingBudget(j.t.spec, |j.running|))
  }

  lemma SortedMembers(ids: seq<Id>)
    ensures forall k :: 0 <= k < |SortIds(ids)| ==> SortIds(ids)[k] in ids
    ensures forall id :: id in ids <==> id in SortIds(ids)
    ensures |SortIds(ids)| == |ids|
  {
    forall id ensures id in ids <==> id in SortIds(ids) {
      assert id in ids <==> id in multiset(ids);
      assert id in SortIds(ids) <==> id in multiset(SortIds(ids));
    }
    assert |multiset(SortIds(ids))| == |multiset(ids)|;
  }

  // ---------------------------------------------------------------- instances

  function Fresh(t: TApp, ids: seq<Id>): seq<Instance>
    requires forall k :: 0 <= k < |ids| ==> NewPod(t, ids[k]).Some?
  {
    seq(|ids|, k requires 0 <= k < |ids| => Instance(ids[k], NewPod(t, ids[k]).value))
  }

  function Updated(t: TApp, ids: seq<Id>): seq<Instance>
    requires forall k :: 0 <= k < |ids| ==> NewPod(t, ids[k]).Some?
  {
    seq(|ids|, k requires 0 <= k < |ids| => Instance(ids[k], MarkUpdating(NewPod(t, ids[k]).value)))
  }

  function Existing(podMap: map<Id, Pod>, ids: seq<Id>): seq<Instance>
    requires forall k :: 0 <= k < |ids| ==> ids[k] in podMap
  {
    seq(|ids|, k requires 0 <= k < |ids| => Instance(ids[k], podMap[ids[k]]))
  }

  /** Added and updated ids have a template, deleted ids have a pod. */
  predicate Buildable(j: Job, s: Progress) {
    (forall k :: 0 <= k < |s.add| ==> NewPod(j.t, s.add[k]).Some?)
    && (forall k :: 0 <= k < |s.update| ==> NewPod(j.t, s.update[k]).Some?)
    && (forall k :: 0 <= k < |s.del| ==> s.del[k] in j.podMap)
    && (forall k :: 0 <= k < |s.forceDel| ==> s.forceDel[k] in j.podMap)
  }

  function PlanOf(j: Job, s: Progress): Plan
    requires Buildable(j, s)
  {
    Plan(Fresh(j.t, s.add), Existing(j.podMap, s.del), Existing(j.podMap, s.forceDel), Updated(j.t, s.update))
  }
}
