/** One sync of the controller from end to end, on the objects it changes: every sync is a step of the state
    machine that the results about runs speak of. */
module Controller {
  import opened Model
  import opened Templates
  import opened Instances
  import opened Syncer
  import opened Readiness
  import opened Transformer
  import opened Guarantees
  import opened Status
  import opened Cluster

  /** The status writes of the gate pass, one pod after the other. */
  method WritePods(client: InstanceStore, pods: seq<Pod>)
    requires forall k :: 0 <= k < |pods| ==> PodIndex(pods[k]).Some? && PodIndex(pods[k]).value in client.pods
    modifies client
    ensures client.pods == old(client.pods) + PodMap(pods)
  {
    for k := 0 to |pods|
      invariant client.pods == old(client.pods) + PodMap(pods[..k])
    {
      assert pods[..k + 1][..k] == pods[..k];
      client.pods := client.pods[PodIndex(pods[k]).value := pods[k]];
    }
    assert pods[..|pods|] == pods;
  }

  lemma WrittenIsGated(pods: seq<Pod>, store: Store, selected: set<string>)
    requires Lists(pods, store) && Keyed(store)
    ensures forall k :: 0 <= k < |GatedPods(pods, selected)| ==>
              PodIndex(GatedPods(pods, selected)[k]).Some? && PodIndex(GatedPods(pods, selected)[k]).value in store
    ensures store + PodMap(GatedPods(pods, selected)) == GatedStore(store, selected)
  {
    GatedLists(pods, store, selected);
    var gated := GatedPods(pods, selected);
    forall k | 0 <= k < |gated| ensures PodIndex(gated[k]).Some? && PodIndex(gated[k]).value in store {
      assert Stored(gated[k], GatedStore(store, selected));
    }
  }

  /** The gate pass over the listed pods and their store. */
  method GatePass(client: InstanceStore, pods: seq<Pod>, notReady: seq<Instance>) returns (gated: seq<Pod>)
    requires Lists(pods, client.pods) && Keyed(client.pods)
    modifies client
    ensures gated == GatedPods(pods, NamesOf(notReady))
    ensures client.pods == GatedStore(old(client.pods), NamesOf(notReady))
  {
    gated := SyncPodConditions(pods, notReady);
    WrittenIsGated(pods, client.pods, NamesOf(notReady));
    WritePods(client, gated);
  }

  /** A plan for the listed pods is a plan for their store. */
  method PlanFor(c: Setup, t: TApp, ghost store: Store, nodes: NodeStore, pods: seq<Pod>) returns (plan: Plan)
    requires Lists(pods, store) && Keyed(store)
    ensures IsPlan(JobIn(c, State(t, store), nodes), plan) && DistinctIds(AllInstances(plan))
  {
    ListedMap(pods, store);
    plan := InstanceToSync(c.deleteAfterFinish, c.h, t, nodes, pods);
    PlannedIdsAreDistinct(c.deleteAfterFinish, c.h, t, nodes, store, plan);
  }

  /** syncTApp and the status update: plan, gate pass, plan carried out, status. */
  method CarryOut(c: Setup, app: TAppObject, client: InstanceStore, nodes: NodeStore, pods: seq<Pod>)
    returns (plan: Plan)
    requires Lists(pods, client.pods) && Keyed(client.pods)
    modifies app`status, client
    ensures IsPlan(JobIn(c, old(State(app.View(), client.pods)), nodes), plan)
    ensures client.pods == SyncStore(GatedStore(old(client.pods), Selected(plan)), plan)
    ensures app.View() == UpdateStatus(old(app.View()), GatedPods(pods, Selected(plan)))
  {
    var t := TApp(app.name, app.generation, app.spec, app.status);
    plan := PlanFor(c, t, client.pods, nodes, pods);
    var gated := GatePass(client, pods, plan.del + plan.update);
    client.SyncInstances(plan);
    UpdateTAppStatus(app, gated);
  }

  /** Sync, from the listed pods on: an early exit, or a full sync. */
  method SyncTApp(c: Setup, app: TAppObject, client: InstanceStore, nodes: NodeStore, pods: seq<Pod>)
    returns (ghost ch: Choice)
    requires Lists(pods, client.pods) && Keyed(client.pods)
    modifies app`status, client
    ensures ch.pods == pods && ch.nodes == nodes && ValidChoice(c, old(State(app.View(), client.pods)), ch)
    ensures State(app.View(), client.pods) == Sync(old(State(app.View(), client.pods)), ch)
  {
    var t := TApp(app.name, app.generation, app.spec, app.status);
    if IsTAppFinished(t) && t.generation == t.status.observedGeneration && t.spec.replicas == t.status.replicas
       && |pods| == 0 {
      ghost var other := SyncIsPossible(c, State(t, client.pods), nodes);
      ch := Choice(nodes, pods, other.plan);
    } else {
      var plan := CarryOut(c, app, client, nodes, pods);
      ch := Choice(nodes, pods, plan);
    }
  }
}
