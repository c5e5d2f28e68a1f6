/** Carrying out a plan against the pod store: one goroutine for every create, delete and
    forced delete, then the updates one after the other. */
module Syncer {
  import opened Model
  import opened Instances

  type Store = map<Id, Pod>

  datatype Plan = Plan(add: seq<Instance>, del: seq<Instance>, forceDel: seq<Instance>, update: seq<Instance>)

  datatype Kind = Create | Delete | ForceDelete
  datatype Op = Op(kind: Kind, instance: Instance)

  /** A goroutine has not started, holds the answer of its Get, or is done. */
  datatype Thread = Ready | Fetched(current: Option<Pod>) | Done

  datatype Config = Config(store: Store, threads: seq<Thread>)

  function Lookup(store: Store, id: Id): Option<Pod> {
    if id in store then Some(store[id]) else None
  }

  // ---------------------------------------------------------------- client calls

  function AddReadinessGate(pod: Pod): (r: Pod)
    ensures GATE_TYPE in r.spec.readinessGates && pod.spec.readinessGates <= r.spec.readinessGates
    ensures forall gate :: gate in r.spec.readinessGates ==> gate in pod.spec.readinessGates || gate == GATE_TYPE
    ensures r.(spec := r.spec.(readinessGates := pod.spec.readinessGates)) == pod
    ensures GATE_TYPE in pod.spec.readinessGates ==> r == pod
  {
    if GATE_TYPE in pod.spec.readinessGates then pod
    else pod.(spec := pod.spec.(readinessGates := pod.spec.readinessGates + [GATE_TYPE]))
  }

  /** A pod as the API server admits it. */
  function Admitted(pod: Pod): Pod {
    AddReadinessGate(pod).(phase := PhasePending, conditions := [])
  }

  /** A created pod waits to be scheduled, and carries the readiness gate of in-place updates. */
  lemma AdmittedMeans(pod: Pod)
    ensures var made := Admitted(pod);
            && "tkestack.io/InPlaceUpdate" in made.spec.readinessGates && made.phase == PhasePending
            && made.name == pod.name && made.labels == pod.labels && made.annotations == pod.annotations
            && made.spec.(readinessGates := pod.spec.readinessGates) == pod.spec
  {
  }

  function CallCreate(store: Store, ins: Instance): Store {
    if ins.id in store then store else store[ins.id := Admitted(ins.pod)]
  }

  /** A graceful delete sets the deletion timestamp; the pod leaves the store later. */
  function CallDelete(store: Store, id: Id): Store {
    if id in store then store[id := store[id].(dying := true)] else store
  }

  function CallForceDelete(store: Store, id: Id): Store {
    store - {id}
  }

  /** The second half of a goroutine, decided by what its Get returned. */
  function Act(op: Op, current: Option<Pod>, store: Store): Store {
    match op.kind
    case Create => if current.Some? then store else CallCreate(store, op.instance)
    case Delete => if current.None? || current.value.dying then store else CallDelete(store, op.instance.id)
    case ForceDelete => if current.None? then store else CallForceDelete(store, op.instance.id)
  }

  // ---------------------------------------------------------------- interleavings

  function StepThread(ops: seq<Op>, i: nat, c: Config): (r: Config)
    requires i < |ops| == |c.threads|
    ensures |r.threads| == |c.threads|
  {
    match c.threads[i]
    case Ready => c.(threads := c.threads[i := Fetched(Lookup(c.store, ops[i].instance.id))])
    case Fetched(current) => Config(Act(ops[i], current, c.store), c.threads[i := Done])
    case Done => c
  }

  predicate ValidSchedule(ops: seq<Op>, schedule: seq<nat>) {
    forall k :: 0 <= k < |schedule| ==> schedule[k] < |ops|
  }

  /** Run the goroutines in the order a scheduler picks them, one half at a time. */
  function Execute(ops: seq<Op>, schedule: seq<nat>, c: Config): (r: Config)
    requires |ops| == |c.threads| && ValidSchedule(ops, schedule)
    ensures |r.threads| == |c.threads|
    decreases |schedule|
  {
    if schedule == [] then c else Execute(ops, schedule[1..], StepThread(ops, schedule[0], c))
  }

  function Started(ops: seq<Op>, store: Store): Config {
    Config(store, seq(|ops|, i => Ready))
  }

  predicate AllDone(c: Config) {
    forall i :: 0 <= i < |c.threads| ==> c.threads[i].Done?
  }

  /** The reference: each operation whole, in list order. */
  function RunAll(ops: seq<Op>, store: Store): Store
    decreases |ops|
  {
    if ops == [] then store
    else RunAll(ops[1..], Act(ops[0], Lookup(store, ops[0].instance.id), store))
  }

  predicate DistinctOps(ops: seq<Op>) {
    forall i, j :: 0 <= i < j < |ops| ==> ops[i].instance.id != ops[j].instance.id
  }

  /** What one operation makes of the pod under its id. */
  function Effect(op: Op, current: Option<Pod>): Option<Pod> {
    match op.kind
    case Create => if current.Some? then current else Some(Admitted(op.instance.pod))
    case Delete => if current.Some? then Some(current.value.(dying := true)) else None
    case ForceDelete => None
  }

  lemma ActAt(op: Op, store: Store, current: Option<Pod>, id: Id)
    requires current == Lookup(store, op.instance.id)
    ensures Lookup(Act(op, current, store), id)
         == if id == op.instance.id then Effect(op, current) else Lookup(store, id)
  {
  }

  /** Every interleaving keeps, per goroutine, either the pod it found at the start or its own effect. */
  ghost predicate Consistent(ops: seq<Op>, before: Store, c: Config) {
    |c.threads| == |ops|
    && (forall id :: (forall i :: 0 <= i < |ops| ==> ops[i].instance.id != id) ==>
        Lookup(c.store, id) == Lookup(before, id))
    && (forall i :: 0 <= i < |ops| ==> ThreadConsistent(ops[i], before, c.store, c.threads[i]))
  }

  ghost predicate ThreadConsistent(op: Op, before: Store, store: Store, thread: Thread) {
    var found := Lookup(before, op.instance.id);
    match thread
    case Ready => Lookup(store, op.instance.id) == found
    case Fetched(current) => current == found && Lookup(store, op.instance.id) == found
    case Done => Lookup(store, op.instance.id) == Effect(op, found)
  }

  lemma StepKeepsConsistent(ops: seq<Op>, before: Store, i: nat, c: Config)
    requires DistinctOps(ops) && Consistent(ops, before, c) && i < |ops|
    ensures Consistent(ops, before, StepThread(ops, i, c))
  {
    var d := StepThread(ops, i, c);
    assert ThreadConsistent(ops[i], before, c.store, c.threads[i]);
    if c.threads[i].Fetched? {
      forall id
        ensures Lookup(d.store, id)
             == if id == ops[i].instance.id then Effect(ops[i], Lookup(before, id)) else Lookup(c.store, id)
      {
        ActAt(ops[i], c.store, c.threads[i].current, id);
      }
    }
    forall k | 0 <= k < |ops| ensures ThreadConsistent(ops[k], before, d.store, d.threads[k]) {
      assert ThreadConsistent(ops[k], before, c.store, c.threads[k]);
      assert k != i ==> ops[k].instance.id != ops[i].instance.id;
    }
  }

  lemma {:induction false} ExecuteKeepsConsistent(ops: seq<Op>, before: Store, schedule: seq<nat>, c: Config)
    requires DistinctOps(ops) && Consistent(ops, before, c) && ValidSchedule(ops, schedule)
    ensures Consistent(ops, before, Execute(ops, schedule, c))
    decreases |schedule|
  {
    if schedule != [] {
      StepKeepsConsistent(ops, before, schedule[0], c);
      ExecuteKeepsConsistent(ops, before, schedule[1..], StepThread(ops, schedule[0], c));
    }
  }

  lemma {:induction false} RunAllPointwise(ops: seq<Op>, store: Store, id: Id)
    requires DistinctOps(ops)
    ensures forall i :: 0 <= i < |ops| && ops[i].instance.id == id ==>
              Lookup(RunAll(ops, store), id) == Effect(ops[i], Lookup(store, id))
    ensures (forall i :: 0 <= i < |ops| ==> ops[i].instance.id != id) ==>
        Lookup(RunAll(ops, store), id) == Lookup(store, id)
    decreases |ops|
  {
    if ops != [] {
      var next := Act(ops[0], Lookup(store, ops[0].instance.id), store);
      ActAt(ops[0], store, Lookup(store, ops[0].instance.id), id);
      RunAllPointwise(ops[1..], next, id);
      forall i | 0 <= i < |ops| && ops[i].instance.id == id
        ensures Lookup(RunAll(ops, store), id) == Effect(ops[i], Lookup(store, id))
      {
        if i == 0 {
          forall k | 0 <= k < |ops[1..]| ensures ops[1..][k].instance.id != id {
            assert ops[1..][k] == ops[k + 1];
          }
        } else {
          assert ops[1..][i - 1] == ops[i];
        }
      }
    }
  }

  lemma SameLookups(a: Store, b: Store)
    requires forall id :: Lookup(a, id) == Lookup(b, id)
    ensures a == b
  {
    forall id ensures id in a <==> id in b { assert Lookup(a, id) == Lookup(b, id); }
    forall id | id in a ensures a[id] == b[id] { assert Lookup(a, id) == Lookup(b, id); }
  }

  /** Confluence: with distinct ids, every interleaving of the Get and act halves that lets all
      goroutines finish leaves the store that running them one after the other leaves. */
  lemma EveryInterleavingAgrees(ops: seq<Op>, store: Store, schedule: seq<nat>)
    requires DistinctOps(ops) && ValidSchedule(ops, schedule)
    requires AllDone(Execute(ops, schedule, Started(ops, store)))
    ensures Execute(ops, schedule, Started(ops, store)).store == RunAll(ops, store)
  {
    ExecuteKeepsConsistent(ops, store, schedule, Started(ops, store));
    var c := Execute(ops, schedule, Started(ops, store));
    forall id ensures Lookup(c.store, id) == Lookup(RunAll(ops, store), id) {
      RunAllPointwise(ops, store, id);
      if i :| 0 <= i < |ops| && ops[i].instance.id == id {
        assert ThreadConsistent(ops[i], store, c.store, c.threads[i]);
      }
    }
    SameLookups(c.store, RunAll(ops, store));
  }

  function Rank(thread: Thread): nat {
    match thread case Ready => 0 case Fetched(_) => 1 case Done => 2
  }

  /** How far a goroutine gets: all of them finish exactly when each was scheduled twice. */
  lemma {:induction false} ProgressOfSchedule(ops: seq<Op>, schedule: seq<nat>, c: Config, i: nat)
    requires |ops| == |c.threads| && i < |ops| && ValidSchedule(ops, schedule)
    ensures var total := Rank(c.threads[i]) + multiset(schedule)[i];
            Rank(Execute(ops, schedule, c).threads[i]) == if total < 2 then total else 2
    decreases |schedule|
  {
    if schedule != [] {
      assert schedule == [schedule[0]] + schedule[1..];
      ProgressOfSchedule(ops, schedule[1..], StepThread(ops, schedule[0], c), i);
    }
  }

  // ---------------------------------------------------------------- updates

  function RunUpdates(updates: seq<Instance>, store: Store): Store
    decreases |updates|
  {
    if updates == [] then store
    else
      var n := |updates| - 1;
      var rest := RunUpdates(updates[..n], store);
      if updates[n].id in rest then rest[updates[n].id := MergePod(rest[updates[n].id], updates[n].pod)] else rest
  }

  predicate DistinctIds(xs: seq<Instance>) {
    forall i, j :: 0 <= i < j < |xs| ==> xs[i].id != xs[j].id
  }

  lemma {:induction false} RunUpdatesPointwise(updates: seq<Instance>, store: Store, id: Id)
    requires DistinctIds(updates)
    ensures forall i :: 0 <= i < |updates| && updates[i].id == id ==>
              Lookup(RunUpdates(updates, store), id)
              == if id in store then Some(MergePod(store[id], updates[i].pod)) else None
    ensures (forall i :: 0 <= i < |updates| ==> updates[i].id != id) ==>
              Lookup(RunUpdates(updates, store), id) == Lookup(store, id)
    decreases |updates|
  {
    if updates != [] {
      var n := |updates| - 1;
      RunUpdatesPointwise(updates[..n], store, id);
      assert forall i :: 0 <= i < n ==> updates[..n][i] == updates[i];
    }
  }

  /** Updates of one id follow each other in list order. */
  lemma UpdatesFollow(store: Store, first: Instance, second: Instance)
    requires first.id == second.id && first.id in store
    ensures RunUpdates([first, second], store)
         == store[first.id := MergePod(MergePod(store[first.id], first.pod), second.pod)]
  {
    assert [first, second][..1] == [first] && [first][..0] == [];
    assert RunUpdates([first], store) == store[first.id := MergePod(store[first.id], first.pod)];
  }

  // ---------------------------------------------------------------- whole plans

  function OpsOf(kind: Kind, xs: seq<Instance>): seq<Op> {
    seq(|xs|, i requires 0 <= i < |xs| => Op(kind, xs[i]))
  }

  function Ops(plan: Plan): seq<Op> {
    OpsOf(Create, plan.add) + OpsOf(Delete, plan.del) + OpsOf(ForceDelete, plan.forceDel)
  }

  function AllInstances(plan: Plan): seq<Instance> {
    plan.add + plan.del + plan.forceDel + plan.update
  }

  /** The store after a plan: creates and deletes first, all updates after them. */
  function SyncStore(store: Store, plan: Plan): Store {
    RunUpdates(plan.update, RunAll(Ops(plan), store))
  }

  function SyncEffect(store: Store, plan: Plan, id: Id): Option<Pod> {
    Lookup(SyncStore(store, plan), id)
  }

  lemma PlanIsDistinct(plan: Plan)
    requires DistinctIds(AllInstances(plan))
    ensures DistinctOps(Ops(plan)) && DistinctIds(plan.update)
    ensures forall i, j :: 0 <= i < |Ops(plan)| && 0 <= j < |plan.update| ==>
        Ops(plan)[i].instance.id != plan.update[j].id
  {
    var all, ops := AllInstances(plan), Ops(plan);
    assert forall i :: 0 <= i < |ops| ==> ops[i].instance == all[i];
    assert forall j :: 0 <= j < |plan.update| ==> plan.update[j] == all[|ops| + j];
  }

  lemma SyncedByOp(store: Store, plan: Plan, i: nat)
    requires DistinctIds(AllInstances(plan)) && i < |Ops(plan)|
    ensures var op := Ops(plan)[i]; SyncEffect(store, plan, op.instance.id) == Effect(op, Lookup(store, op.instance.id))
  {
    PlanIsDistinct(plan);
    RunAllPointwise(Ops(plan), store, Ops(plan)[i].instance.id);
    RunUpdatesPointwise(plan.update, RunAll(Ops(plan), store), Ops(plan)[i].instance.id);
  }

  lemma SyncedByUpdate(store: Store, plan: Plan, k: nat)
    requires DistinctIds(AllInstances(plan)) && k < |plan.update|
    ensures var ins := plan.update[k];
            SyncEffect(store, plan, ins.id) == if ins.id in store then Some(MergePod(store[ins.id], ins.pod)) else None
  {
    PlanIsDistinct(plan);
    var id := plan.update[k].id;
    RunAllPointwise(Ops(plan), store, id);
    assert Lookup(RunAll(Ops(plan), store), id) == Lookup(store, id);
    RunUpdatesPointwise(plan.update, RunAll(Ops(plan), store), id);
  }

  lemma SyncedByCreate(store: Store, plan: Plan, i: nat)
    requires DistinctIds(AllInstances(plan)) && i < |plan.add|
    ensures var ins := plan.add[i];
            SyncEffect(store, plan, ins.id) == Some(if ins.id in store then store[ins.id] else Admitted(ins.pod))
  {
    assert Ops(plan)[i] == Op(Create, plan.add[i]);
    SyncedByOp(store, plan, i);
  }

  ghost predicate Mentions(xs: seq<Instance>, id: Id) {
    exists k :: 0 <= k < |xs| && xs[k].id == id
  }

  ghost predicate Unplanned(plan: Plan, id: Id) {
    !Mentions(plan.add, id) && !Mentions(plan.del, id) && !Mentions(plan.forceDel, id) && !Mentions(plan.update, id)
  }

  /** A pod that a plan creates is pending. */
  lemma CreatedIsPending(store: Store, plan: Plan, id: Id)
    requires DistinctIds(AllInstances(plan)) && Mentions(plan.add, id) && id !in store
    ensures SyncEffect(store, plan, id).Some? && SyncEffect(store, plan, id).value.phase == PhasePending
  {
    var i :| 0 <= i < |plan.add| && plan.add[i].id == id;
    SyncedByCreate(store, plan, i);
  }

  lemma SyncedByNothing(store: Store, plan: Plan, id: Id)
    requires DistinctIds(AllInstances(plan))
    requires Unplanned(plan, id)
    ensures SyncEffect(store, plan, id) == Lookup(store, id)
  {
    PlanIsDistinct(plan);
    RunAllPointwise(Ops(plan), store, id);
    RunUpdatesPointwise(plan.update, RunAll(Ops(plan), store), id);
  }

  /** The store after a plan, id by id. */
  lemma SyncStoreAt(store: Store, plan: Plan, id: Id)
    requires DistinctIds(AllInstances(plan))
    ensures forall k :: 0 <= k < |plan.add| && plan.add[k].id == id ==>
              SyncEffect(store, plan, id) == Some(if id in store then store[id] else Admitted(plan.add[k].pod))
    ensures Mentions(plan.del, id) ==>
              SyncEffect(store, plan, id) == if id in store then Some(store[id].(dying := true)) else None
    ensures Mentions(plan.forceDel, id) ==> SyncEffect(store, plan, id) == None
    ensures forall k :: 0 <= k < |plan.update| && plan.update[k].id == id ==>
              SyncEffect(store, plan, id) == if id in store then Some(MergePod(store[id], plan.update[k].pod)) else None
    ensures Unplanned(plan, id) ==> SyncEffect(store, plan, id) == Lookup(store, id)
  {
    var ops, a, d := Ops(plan), |plan.add|, |plan.del|;
    forall k | 0 <= k < a && plan.add[k].id == id
      ensures SyncEffect(store, plan, id) == Some(if id in store then store[id] else Admitted(plan.add[k].pod))
    {
      SyncedByCreate(store, plan, k);
    }
    if k :| 0 <= k < d && plan.del[k].id == id {
      assert ops[a + k] == Op(Delete, plan.del[k]);
      SyncedByOp(store, plan, a + k);
    }
    if k :| 0 <= k < |plan.forceDel| && plan.forceDel[k].id == id {
      assert ops[a + d + k] == Op(ForceDelete, plan.forceDel[k]);
      SyncedByOp(store, plan, a + d + k);
    }
    forall k | 0 <= k < |plan.update| && plan.update[k].id == id
      ensures SyncEffect(store, plan, id) == if id in store then Some(MergePod(store[id], plan.update[k].pod)) else None
    {
      SyncedByUpdate(store, plan, k);
    }
    if Unplanned(plan, id) {
      SyncedByNothing(store, plan, id);
    }
  }

  /** Without a create or an update a pod can only be gone, dying or as it was. */
  lemma OnlyDeleted(store: Store, plan: Plan, id: Id)
    requires DistinctIds(AllInstances(plan)) && !Mentions(plan.add, id) && !Mentions(plan.update, id)
    ensures SyncEffect(store, plan, id).Some? ==>
              id in store && (SyncEffect(store, plan, id).value == store[id]
                              || SyncEffect(store, plan, id).value == store[id].(dying := true))
    ensures Mentions(plan.del, id) && SyncEffect(store, plan, id).Some? ==> SyncEffect(store, plan, id).value.dying
  {
    SyncStoreAt(store, plan, id);
  }

  lemma DistinctPlanIsConfluent(plan: Plan, store: Store, schedule: seq<nat>)
    requires DistinctIds(AllInstances(plan)) && ValidSchedule(Ops(plan), schedule)
    requires AllDone(Execute(Ops(plan), schedule, Started(Ops(plan), store)))
    ensures RunUpdates(plan.update, Execute(Ops(plan), schedule, Started(Ops(plan), store)).store)
         == SyncStore(store, plan)
  {
    PlanIsDistinct(plan);
    EveryInterleavingAgrees(Ops(plan), store, schedule);
  }

  /** The pod store behind the client interface. */
  class InstanceStore {
    var pods: Store

    constructor (start: Store)
      ensures pods == start
    {
      pods := start;
    }

    /** The goroutines under an arbitrary scheduler: some goroutine that is not done moves, until
        all are done. */
    method RunGoroutines(ops: seq<Op>) returns (ghost schedule: seq<nat>)
      modifies this
      ensures ValidSchedule(ops, schedule)
      ensures AllDone(Execute(ops, schedule, Started(ops, old(pods))))
      ensures pods == Execute(ops, schedule, Started(ops, old(pods))).store
    {
      var threads: seq<Thread> := seq(|ops|, i => Ready);
      schedule := [];
      var pending: set<nat> := set i | 0 <= i < |ops| && threads[i].Ready?;
      while pending != {}
        invariant |threads| == |ops|
        invariant forall i :: 0 <= i < |ops| ==> (threads[i].Done? <==> i !in pending)
        invariant forall i :: i in pending ==> i < |ops|
        invariant ValidSchedule(ops, schedule)
        invariant Execute(ops, schedule, Started(ops, old(pods))) == Config(pods, threads)
        decreases |pending|, Waiting(threads)
      {
        var i: nat :| i in pending;
        ExecuteSnoc(ops, schedule, i, Started(ops, old(pods)));
        schedule := schedule + [i];
        match threads[i] {
          case Ready =>
            WaitingDrops(threads, i, Fetched(Lookup(pods, ops[i].instance.id)));
            threads := threads[i := Fetched(Lookup(pods, ops[i].instance.id))];
          case Fetched(current) =>
            pods := Act(ops[i], current, pods);
            threads := threads[i := Done];
            pending := pending - {i};
        }
      }
    }

    method UpdateInOrder(updates: seq<Instance>)
      modifies this
      ensures pods == RunUpdates(updates, old(pods))
    {
      for k := 0 to |updates|
        invariant pods == RunUpdates(updates[..k], old(pods))
      {
        assert updates[..k + 1][..k] == updates[..k];
        var ins := updates[k];
        if ins.id in pods {
          pods := pods[ins.id := MergePod(pods[ins.id], ins.pod)];
        }
      }
      assert updates[..|updates|] == updates;
    }

    /** SyncInstances: the goroutines to the end, then the updates. */
    method SyncInstances(plan: Plan)
      modifies this
      ensures exists schedule: seq<nat> ::
                ValidSchedule(Ops(plan), schedule)
                && AllDone(Execute(Ops(plan), schedule, Started(Ops(plan), old(pods))))
                && pods == RunUpdates(plan.update, Execute(Ops(plan), schedule, Started(Ops(plan), old(pods))).store)
      ensures DistinctIds(AllInstances(plan)) ==> pods == SyncStore(old(pods), plan)
    {
      ghost var schedule := RunGoroutines(Ops(plan));
      if DistinctIds(AllInstances(plan)) {
        DistinctPlanIsConfluent(plan, old(pods), schedule);
      }
      UpdateInOrder(plan.update);
    }
  }

  ghost function Waiting(threads: seq<Thread>): nat {
    if threads == [] then 0 else (if threads[0].Ready? then 1 else 0) + Waiting(threads[1..])
  }

  lemma {:induction false} WaitingDrops(threads: seq<Thread>, i: nat, next: Thread)
    requires i < |threads| && threads[i].Ready? && !next.Ready?
    ensures Waiting(threads[i := next]) < Waiting(threads)
  {
    if i == 0 {
      assert threads[i := next][1..] == threads[1..];
    } else {
      WaitingDrops(threads[1..], i - 1, next);
      assert threads[i := next][1..] == threads[1..][i - 1 := next];
    }
  }

  lemma {:induction false} ExecuteSnoc(ops: seq<Op>, schedule: seq<nat>, i: nat, c: Config)
    requires |ops| == |c.threads| && i < |ops| && ValidSchedule(ops, schedule)
    ensures Execute(ops, schedule + [i], c) == StepThread(ops, i, Execute(ops, schedule, c))
    decreases |schedule|
  {
    if schedule == [] {
      assert ([i] + [])[1..] == [];
      assert Execute(ops, [i], c) == StepThread(ops, i, c);
    } else {
      ExecuteSnoc(ops, schedule[1..], i, StepThread(ops, schedule[0], c));
      assert (schedule + [i])[1..] == schedule[1..] + [i];
    }
  }
}
