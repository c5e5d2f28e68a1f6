/** The planner's transformation and its entry point as the loops they are in the controller, proved to
    compute the specification under some order of every map they range over. */
module Transformer {
  import opened Model
  import opened Templates
  import opened Instances
  import opened Admission
  import opened Syncer
  import opened Planner

  datatype Draft = Draft(plan: Plan, available: set<Id>, rolling: seq<Id>)

  ghost function DraftOf(j: Job, s: Progress): Draft
    requires Buildable(j, s)
  {
    Draft(PlanOf(j, s), s.available, s.rolling)
  }

  lemma FreshSnoc(t: TApp, ids: seq<Id>, id: Id)
    requires NewPod(t, id).Some? && forall k :: 0 <= k < |ids| ==> NewPod(t, ids[k]).Some?
    ensures Fresh(t, ids + [id]) == Fresh(t, ids) + [Instance(id, NewPod(t, id).value)]
    ensures Updated(t, ids + [id]) == Updated(t, ids) + [Instance(id, MarkUpdating(NewPod(t, id).value))]
  {
  }

  lemma ExistingSnoc(podMap: map<Id, Pod>, ids: seq<Id>, id: Id)
    requires id in podMap && forall k :: 0 <= k < |ids| ==> ids[k] in podMap
    ensures Existing(podMap, ids + [id]) == Existing(podMap, ids) + [Instance(id, podMap[id])]
  {
  }

  lemma RunSnoc(stage: Stage, vs: Verdicts, order: seq<Id>, id: Id, s: Progress)
    ensures Run(stage, vs, order + [id], s) == Step(stage, VerdictAt(vs, id), id, Run(stage, vs, order, s))
  {
    assert (order + [id])[..|order|] == order;
  }

  method DeleteOrCreate(j: Job, id: Id, d: Draft, ghost s: Progress) returns (next: Draft)
    requires Backed(j) && id in j.actions && Buildable(j, s) && d == DraftOf(j, s)
    ensures var after := Step(DeleteCreate, VerdictOf(j, id), id, s); Buildable(j, after) && next == DraftOf(j, after)
    ensures next.rolling == d.rolling
  {
    next := d;
    match j.actions[id] {
      case DeletePod =>
        var pod := j.podMap[id];
        ExistingSnoc(j.podMap, s.del, id);
        ExistingSnoc(j.podMap, s.forceDel, id);
        if NeedForceDelete(j.t, j.nodes, pod) {
          next := next.(plan := d.plan.(forceDel := d.plan.forceDel + [Instance(id, pod)]));
        } else if !pod.dying {
          next := next.(plan := d.plan.(del := d.plan.del + [Instance(id, pod)]));
        }
        next := next.(available := d.available - {id});
      case CreatePod =>
        var pod := NewPod(j.t, id);
        if pod.Some? {
          FreshSnoc(j.t, s.add, id);
          next := next.(plan := d.plan.(add := d.plan.add + [Instance(id, pod.value)]));
        }
      case _ =>
    }
  }

  method LaunchInstance(j: Job, id: Id, d: Draft, ghost s: Progress) returns (next: Draft)
    requires Backed(j) && id in j.actions && VerdictOf(j, id).ChangeIt? && Buildable(j, s) && d == DraftOf(j, s)
    ensures var after := Launch(VerdictOf(j, id).how, id, s); Buildable(j, after) && next == DraftOf(j, after)
  {
    next := d;
    match j.actions[id]
    case UpdatePod =>
      var pod := NewPod(j.t, id);
      if pod.Some? {
        FreshSnoc(j.t, s.update, id);
        next := d.(plan := d.plan.(update := d.plan.update + [Instance(id, MarkUpdating(pod.value))]),
                   available := d.available - {id});
      }
    case RecreatePod =>
      ExistingSnoc(j.podMap, s.del, id);
      next := d.(plan := d.plan.(del := d.plan.del + [Instance(id, j.podMap[id])]), available := d.available - {id});
  }

  /** `order` holds what has been visited. */
  ghost predicate Visiting(vs: Verdicts, order: seq<Id>, todo: set<Id>) {
    todo <= vs.Keys && multiset(order) == multiset(vs.Keys - todo)
  }

  lemma VisitOne(vs: Verdicts, order: seq<Id>, todo: set<Id>, id: Id)
    requires Visiting(vs, order, todo) && id in todo
    ensures Visiting(vs, order + [id], todo - {id})
  {
    assert vs.Keys - (todo - {id}) == (vs.Keys - todo) + {id};
  }

  lemma VisitedAll(vs: Verdicts, order: seq<Id>)
    requires Visiting(vs, order, {})
    ensures IsOrder(vs, order)
  {
    assert vs.Keys - {} == vs.Keys;
  }

  lemma OpeningDraft(j: Job, available: set<Id>)
    ensures Buildable(j, Opening(available))
    ensures DraftOf(j, Opening(available)) == Draft(Plan([], [], [], []), available, [])
  {
  }

  method DeleteAndCreate(j: Job, ghost vs: Verdicts, available: set<Id>)
    returns (d: Draft, ghost order: seq<Id>, ghost s: Progress)
    requires Backed(j) && vs == VerdictsOf(j)
    ensures IsOrder(vs, order)
    ensures s == Run(DeleteCreate, vs, order, Opening(available))
    ensures Buildable(j, s) && d == DraftOf(j, s) && d.rolling == []
  {
    ghost var s0 := Opening(available);
    d := Draft(Plan([], [], [], []), available, []);
    OpeningDraft(j, available);
    order, s := [], s0;
    var todo := j.actions.Keys;
    while todo != {}
      invariant Visiting(vs, order, todo)
      invariant s == Run(DeleteCreate, vs, order, s0)
      invariant Buildable(j, s) && d == DraftOf(j, s) && d.rolling == []
    {
      var id :| id in todo;
      d := DeleteOrCreate(j, id, d, s);
      s := VisitNext(DeleteCreate, j, vs, order, todo, id, s0, s);
      order, todo := order + [id], todo - {id};
    }
    VisitedAll(vs, order);
  }

  /** The specification's side of one visit. */
  lemma VisitNext(stage: Stage, j: Job, vs: Verdicts, order: seq<Id>, todo: set<Id>, id: Id, s0: Progress, s: Progress)
    returns (next: Progress)
    requires Backed(j) && vs == VerdictsOf(j) && Visiting(vs, order, todo) && id in todo
        && s == Run(stage, vs, order, s0)
    ensures next == Step(stage, VerdictOf(j, id), id, s) == Run(stage, vs, order + [id], s0)
    ensures Visiting(vs, order + [id], todo - {id})
  {
    VisitOne(vs, order, todo, id);
    RunSnoc(stage, vs, order, id, s0);
    next := Step(stage, VerdictOf(j, id), id, s);
  }

  method ForceUpdates(j: Job, ghost vs: Verdicts, minAvailable: int, start: Draft, ghost s1: Progress)
    returns (d: Draft, ghost order: seq<Id>, ghost s: Progress)
    requires Backed(j) && vs == VerdictsOf(j) && Buildable(j, s1) && start == DraftOf(j, s1) && start.rolling == []
    ensures IsOrder(vs, order)
    ensures s == Run(ForceUpdate(minAvailable), vs, order, s1)
    ensures Buildable(j, s) && d == DraftOf(j, s)
    ensures forall k :: 0 <= k < |d.rolling| ==> d.rolling[k] in j.actions
  {
    d, order, s := start, [], s1;
    var todo := j.actions.Keys;
    while todo != {}
      invariant Visiting(vs, order, todo)
      invariant s == Run(ForceUpdate(minAvailable), vs, order, s1)
      invariant Buildable(j, s) && d == DraftOf(j, s)
      invariant forall k :: 0 <= k < |d.rolling| ==> d.rolling[k] in j.actions
    {
      var id :| id in todo;
      d := ForceOne(j, minAvailable, id, d, s);
      s := VisitNext(ForceUpdate(minAvailable), j, vs, order, todo, id, s1, s);
      order, todo := order + [id], todo - {id};
    }
    VisitedAll(vs, order);
  }

  method ForceOne(j: Job, minAvailable: int, id: Id, d: Draft, ghost s: Progress) returns (next: Draft)
    requires Backed(j) && id in j.actions && Buildable(j, s) && d == DraftOf(j, s)
    requires forall k :: 0 <= k < |d.rolling| ==> d.rolling[k] in j.actions
    ensures var after := Step(ForceUpdate(minAvailable), VerdictOf(j, id), id, s);
            Buildable(j, after) && next == DraftOf(j, after)
    ensures forall k :: 0 <= k < |next.rolling| ==> next.rolling[k] in j.actions
  {
    next := d;
    if j.actions[id] == UpdatePod || j.actions[id] == RecreatePod {
      if !IsInRollingUpdate(j.t.spec, id) {
        if |d.available| > minAvailable {
          next := LaunchInstance(j, id, d, s);
        }
      } else {
        next := d.(rolling := d.rolling + [id]);
      }
    }
  }

  method RollingUpdates(j: Job, ghost vs: Verdicts, minAvailable: int, start: Draft, ids: seq<Id>, ghost s2: Progress)
    returns (d: Draft, ghost s: Progress)
    requires Backed(j) && vs == VerdictsOf(j) && Buildable(j, s2) && start == DraftOf(j, s2)
    requires forall k :: 0 <= k < |ids| ==> ids[k] in j.actions
    ensures s == Run(RollingUpdate(minAvailable), vs, ids, s2)
    ensures Buildable(j, s) && d == DraftOf(j, s)
  {
    d, s := start, s2;
    for k := 0 to |ids|
      invariant s == Run(RollingUpdate(minAvailable), vs, ids[..k], s2)
      invariant Buildable(j, s) && d == DraftOf(j, s)
    {
      var id := ids[k];
      assert ids[..k + 1] == ids[..k] + [id];
      RunSnoc(RollingUpdate(minAvailable), vs, ids[..k], id, s2);
      if !(id in d.available && |d.available| <= minAvailable) {
        if j.actions[id] == UpdatePod || j.actions[id] == RecreatePod {
          d := LaunchInstance(j, id, d, s);
        }
      }
      s := Step(RollingUpdate(minAvailable), VerdictOf(j, id), id, s);
    }
    assert ids[..|ids|] == ids;
  }

  /** The result is the specification's plan under the two orders the loops happened to take. */
  ghost predicate IsPlan(j: Job, plan: Plan) {
    Backed(j)
    && exists order1, order2 {:trigger Transform(j, order1, order2)} ::
         IsOrder(VerdictsOf(j), order1) && IsOrder(VerdictsOf(j), order2)
         && Buildable(j, Transform(j, order1, order2)) && plan == PlanOf(j, Transform(j, order1, order2))
  }

  method SpendForce(j: Job, ghost k: Stock, force: Option<int>)
    returns (d: Draft, ghost order1: seq<Id>, ghost order2: seq<Id>, ghost s: Progress)
    requires Backed(j) && k == StockOf(j)
    ensures IsOrder(k.vs, order1) && IsOrder(k.vs, order2)
    ensures s == AfterForce(k, order1, order2, force)
    ensures Buildable(j, s) && d == DraftOf(j, s)
    ensures force.Some? ==> forall i :: 0 <= i < |d.rolling| ==> d.rolling[i] in j.actions
  {
    var available := GetAvailablePods(j.podMap, j.running);
    d, order1, s := DeleteAndCreate(j, k.vs, available);
    order2 := order1;
    if force.Some? {
      d, order2, s := ForceUpdates(j, k.vs, |j.running| - force.value, d, s);
    }
  }

  lemma RollIsSpend(k: Stock, order1: seq<Id>, order2: seq<Id>, force: Option<int>, rolling: Option<int>,
                    minAvailable: int, s2: Progress)
    requires force.Some? && rolling.Some? && s2 == AfterForce(k, order1, order2, force)
    requires minAvailable == k.size - rolling.value
    ensures Roll(k, s2, minAvailable) == Spend(k, order1, order2, force, rolling)
  {
  }

  method SpendBudgets(j: Job, ghost k: Stock, force: Option<int>, rolling: Option<int>)
    returns (plan: Plan, ghost order1: seq<Id>, ghost order2: seq<Id>, ghost s: Progress)
    requires Backed(j) && k == StockOf(j)
    ensures IsOrder(k.vs, order1) && IsOrder(k.vs, order2)
    ensures s == Spend(k, order1, order2, force, rolling)
    ensures Buildable(j, s) && plan == PlanOf(j, s)
  {
    var d: Draft;
    d, order1, order2, s := SpendForce(j, k, force);
    if force.Some? && rolling.Some? {
      ghost var s2 := s;
      SortedMembers(d.rolling);
      var sorted, minAvailable := SortIds(d.rolling), |j.running| - rolling.value;
      RollIsSpend(k, order1, order2, force, rolling, minAvailable, s2);
      d, s := RollingUpdates(j, k.vs, minAvailable, d, sorted, s2);
      assert s == Roll(k, s2, minAvailable);
    }
    plan := d.plan;
  }

  method TransformPodActions(j: Job) returns (plan: Plan)
    requires Backed(j)
    ensures IsPlan(j, plan)
  {
    var force, rolling := ForceBudget(j.t.spec, |j.running|), RollingBudget(j.t.spec, |j.running|);
    ghost var order1, order2, s;
    plan, order1, order2, s := SpendBudgets(j, StockOf(j), force, rolling);
    assert s == Transform(j, order1, order2);
  }

  // ---------------------------------------------------------------- instanceToSync

  function Hashed(h: Hasher, t: TApp): TApp {
    t.(spec := UpdateTemplateHash(h, t.spec))
  }

  /** The job of one sync: the app with fresh template hashes against the pods. */
  function JobOf(deleteAfterFinish: bool, h: Hasher, t: TApp, nodes: NodeStore, podMap: map<Id, Pod>): Job {
    var running := DesiredRunning(deleteAfterFinish, Hashed(h, t));
    Job(Hashed(h, t), nodes,
        NextActions(Hashed(h, t).spec, running, DesiredCompleted(deleteAfterFinish, Hashed(h, t)), podMap),
        podMap, running)
  }

  /** Hashing the templates moves no instance into or out of the desired sets. */
  lemma HashKeepsDesired(deleteAfterFinish: bool, h: Hasher, t: TApp)
    ensures DesiredRunning(deleteAfterFinish, Hashed(h, t)) == DesiredRunning(deleteAfterFinish, t)
    ensures DesiredCompleted(deleteAfterFinish, Hashed(h, t)) == DesiredCompleted(deleteAfterFinish, t)
  {
  }

  lemma JobBacked(deleteAfterFinish: bool, h: Hasher, t: TApp, nodes: NodeStore, podMap: map<Id, Pod>)
    ensures Backed(JobOf(deleteAfterFinish, h, t, nodes, podMap))
  {
    var j := JobOf(deleteAfterFinish, h, t, nodes, podMap);
    MergedOfThree(RunningActions(j.t.spec, j.running, podMap),
                  CompletedActions(DesiredCompleted(deleteAfterFinish, j.t), podMap),
                  UnwantedActions(j.t.spec.replicas, podMap));
  }

  lemma MergedOfThree(a: map<Id, PodAction>, b: map<Id, PodAction>, c: map<Id, PodAction>)
    ensures MergeActions([a, b, c]) == a + b + c
  {
    assert [a, b, c][..2] == [a, b] && [a, b][..1] == [a] && [a][..0] == [];
    assert MergeActions([a]) == a;
  }

  method InstanceToSync(deleteAfterFinish: bool, h: Hasher, t: TApp, nodes: NodeStore, pods: seq<Pod>)
    returns (plan: Plan)
    ensures IsPlan(JobOf(deleteAfterFinish, h, t, nodes, PodMap(pods)), plan)
  {
    var app := new TAppObject(t);
    app.RefreshTemplateHash(h);
    var hashed := TApp(t.name, t.generation, app.spec, t.status);
    assert hashed == Hashed(h, t);
    var podMap := MakePodMap(pods);
    var running, completed := GetDesiredInstance(deleteAfterFinish, hashed);
    var actions := GetNextActionsForPods(hashed.spec, running, completed, podMap);
    JobBacked(deleteAfterFinish, h, t, nodes, podMap);
    plan := TransformPodActions(Job(hashed, nodes, actions, podMap, running));
  }
}
