/** Plans read in the controller's own terms: which instance is in which list, told from the spec, the pods
    and the nodes alone, and how many changes the budgets let through. */
module Plans {
  import opened Decimal
  import opened Model
  import opened Templates
  import opened Instances
  import opened Admission
  import opened Syncer
  import opened Readiness
  import opened Planner
  import opened Transformer
  import opened Selection
  import opened Guarantees
  import opened Cluster

  // ---------------------------------------------------------------- one instance

  /** The instance's template is the rolling one, by name. */
  predicate NamedRolling(spec: TAppSpec, id: Id) {
    (if id in spec.templates then spec.templates[id] else spec.defaultTemplateName)
    == if spec.rollingTemplate == "" then spec.defaultTemplateName else spec.rollingTemplate
  }

  /** The spec a plan is made from. */
  function PlannedSpec(c: Setup, s: State): TAppSpec {
    Hashed(c.h, s.t).spec
  }

  predicate HasTemplate(c: Setup, s: State, id: Id) {
    PodTemplate(PlannedSpec(c, s), id).Some?
  }

  /** The pod carries the same label as the template of its instance, if there is one. */
  predicate SameLabel(c: Setup, s: State, id: Id, key: string) {
    id in s.store && HasTemplate(c, s, id)
    && Label(s.store[id].labels, key) == Label(LabelsOf(PodTemplate(PlannedSpec(c, s), id).value), key)
  }

  predicate IsLiving(s: State, id: Id) {
    id in s.store && !s.store[id].dying
  }

  predicate HasEnded(s: State, id: Id) {
    id in s.store && s.store[id].phase in {PhaseFailed, PhaseSucceeded}
  }

  /** A desired living pod that has not ended and was not made from the template of its instance. */
  predicate Changes(c: Setup, s: State, id: Id) {
    id in Wanted(c, s.t) && IsLiving(s, id) && !HasEnded(s, id) && !SameLabel(c, s, id, "tapp_template_hash_key")
  }

  /** A desired living pod that has ended and is to be started again. */
  predicate StartsOver(c: Setup, s: State, id: Id) {
    id in Wanted(c, s.t) && IsLiving(s, id) && HasEnded(s, id)
    && ShouldPodMigrate(PlannedSpec(c, s), s.store[id], id) == Decided(true)
  }

  /** A pod of a completed instance, or one numerically beyond the replicas. */
  predicate Surplus(c: Setup, s: State, id: Id) {
    id in s.store && (id in DesiredCompleted(c.deleteAfterFinish, s.t) || IsBeyond(id, s.t.spec.replicas))
  }

  /** A dying pod whose node is gone or not ready, in an app that asks for forced deletion. A node whose
      lookup fails in another way, or that does not report readiness, leaves the pod alone. */
  ghost predicate GoesAtOnce(t: TApp, nodes: NodeStore, pod: Pod) {
    && pod.dying && t.spec.forceDeletePod && pod.nodeName != "" && pod.nodeName !in nodes.failing
    && (pod.nodeName in nodes.nodes ==>
          exists k :: FirstAt(nodes.nodes[pod.nodeName], "Ready", k)
                      && nodes.nodes[pod.nodeName][k].status in {CondFalse, CondUnknown})
  }

  lemma ForceDeleteMeans(t: TApp, nodes: NodeStore, pod: Pod)
    ensures NeedForceDelete(t, nodes, pod) <==> GoesAtOnce(t, nodes, pod)
  {
    if pod.nodeName in nodes.nodes {
      var conditions := nodes.nodes[pod.nodeName];
      var first := FirstCondition(conditions, "Ready");
      assert first < |conditions| ==> FirstAt(conditions, "Ready", first);
      forall k | FirstAt(conditions, "Ready", k) ensures k == first { FirstAtIsFirst(conditions, "Ready", k); }
    }
  }

  /** The verdict on an instance, told from spec, pods and nodes. */
  ghost predicate Judged(c: Setup, s: State, nodes: NodeStore, id: Id, v: Verdict) {
    && (v == AddIt <==> id in Wanted(c, s.t) && id !in s.store && HasTemplate(c, s, id))
    && (v == ForceDeleteIt <==>
          id in s.store && GoesAtOnce(s.t, nodes, s.store[id]) && (id in Wanted(c, s.t) || Surplus(c, s, id)))
    && (v == DeleteIt <==> IsLiving(s, id) && (Surplus(c, s, id) || StartsOver(c, s, id)))
    && (v.ChangeIt? <==> Changes(c, s, id))
    && (v.ChangeIt? ==>
          v.rolling == NamedRolling(s.t.spec, id)
          && v.how == if SameLabel(c, s, id, "tapp_uniq_hash_key") then InPlace else ByRecreation)
  }

  lemma WantedIsNoSurplus(c: Setup, s: State, id: Id)
    requires id in Wanted(c, s.t)
    ensures !Surplus(c, s, id)
  {
    OrdinalParses(id, s.t.spec.replicas);
  }

  lemma ActionOfWanted(c: Setup, s: State, nodes: NodeStore, id: Id)
    requires id in Wanted(c, s.t)
    ensures var actions := JobIn(c, s, nodes).actions;
            (if id in actions then Some(actions[id]) else None) == RunningAction(PlannedSpec(c, s), s.store, id)
  {
    NextActionsAt(c.deleteAfterFinish, Hashed(c.h, s.t), s.store, id);
    HashKeepsDesired(c.deleteAfterFinish, c.h, s.t);
  }

  lemma ActionOfOthers(c: Setup, s: State, nodes: NodeStore, id: Id)
    requires id !in Wanted(c, s.t)
    ensures var actions := JobIn(c, s, nodes).actions;
            (if id in actions then Some(actions[id]) else None) == if Surplus(c, s, id) then Some(DeletePod) else None
  {
    NextActionsAt(c.deleteAfterFinish, Hashed(c.h, s.t), s.store, id);
    HashKeepsDesired(c.deleteAfterFinish, c.h, s.t);
  }

  lemma JudgedOther(c: Setup, s: State, nodes: NodeStore, j: Job, id: Id)
    requires j.t == Hashed(c.h, s.t) && j.nodes == nodes && j.podMap == s.store && Backed(j) && id !in Wanted(c, s.t)
    requires (if id in j.actions then Some(j.actions[id]) else None)
          == if Surplus(c, s, id) then Some(DeletePod) else None
    ensures Judged(c, s, nodes, id, VerdictAt(VerdictsOf(j), id))
  {
    if id in s.store { ForceDeleteMeans(j.t, nodes, s.store[id]); }
  }

  lemma JudgedWanted(c: Setup, s: State, nodes: NodeStore, j: Job, id: Id)
    requires j.t == Hashed(c.h, s.t) && j.nodes == nodes && j.podMap == s.store && Backed(j)
    requires id in Wanted(c, s.t) && !Surplus(c, s, id)
    requires (if id in j.actions then Some(j.actions[id]) else None) == RunningAction(PlannedSpec(c, s), s.store, id)
    ensures Judged(c, s, nodes, id, VerdictAt(VerdictsOf(j), id))
  {
    if id in s.store { ForceDeleteMeans(j.t, nodes, s.store[id]); }
  }

  lemma JudgedAs(c: Setup, s: State, nodes: NodeStore, j: Job, id: Id)
    requires j == JobIn(c, s, nodes) && Backed(j)
    ensures Judged(c, s, nodes, id, VerdictAt(VerdictsOf(j), id))
  {
    if id in Wanted(c, s.t) {
      WantedIsNoSurplus(c, s, id);
      ActionOfWanted(c, s, nodes, id);
      JudgedWanted(c, s, nodes, j, id);
    } else {
      ActionOfOthers(c, s, nodes, id);
      JudgedOther(c, s, nodes, j, id);
    }
  }

  /** Which list an instance is in: creates, deletes and forced deletes are decided by the instance alone;
      a change that is started is an update in place if the pod has the uniq hash of its template, and a
      deletion otherwise. */
  ghost predicate Listed(c: Setup, s: State, nodes: NodeStore, plan: Plan, id: Id) {
    && (Mentions(plan.add, id) <==> id in Wanted(c, s.t) && id !in s.store && HasTemplate(c, s, id))
    && (Mentions(plan.forceDel, id) <==>
          id in s.store && GoesAtOnce(s.t, nodes, s.store[id]) && (id in Wanted(c, s.t) || Surplus(c, s, id)))
    && (IsLiving(s, id) && (Surplus(c, s, id) || StartsOver(c, s, id)) ==> Mentions(plan.del, id))
    && (Mentions(plan.del, id) ==>
          IsLiving(s, id)
          && (Surplus(c, s, id) || StartsOver(c, s, id)
              || (Changes(c, s, id) && !SameLabel(c, s, id, "tapp_uniq_hash_key"))))
    && (Mentions(plan.update, id) ==> Changes(c, s, id) && SameLabel(c, s, id, "tapp_uniq_hash_key"))
  }

  lemma UpdatesAreInPlace(k: Stock, p: Progress, id: Id)
    requires Underway(k, p)
    ensures id in p.update ==> IsInPlace(k.vs, id)
    ensures id in p.del ==> Has(k.vs, id, DeleteIt) || IsRecreation(k.vs, id)
    ensures id in Launched(k.vs, p) <==> id in p.update || (id in p.del && IsRecreation(k.vs, id))
  {
  }

  /** Every plan of a sync lists every instance as it should. */
  lemma PlanListsExactly(c: Setup, s: State, nodes: NodeStore, plan: Plan, id: Id)
    requires IsPlan(JobIn(c, s, nodes), plan)
    ensures Listed(c, s, nodes, plan, id)
  {
    var ch := Choice(nodes, [], plan);
    var w := SyncPlan(c, s, ch);
    PlacedInPlan(c, s, ch, w, id);
    JudgedAs(c, s, nodes, w.j, id);
    UpdatesAreInPlace(w.k, w.p, id);
    ListedByVerdict(c, s, nodes, w, plan, id, VerdictAt(w.k.vs, id));
  }

  lemma ListedByVerdict(c: Setup, s: State, nodes: NodeStore, w: Trace, plan: Plan, id: Id, v: Verdict)
    requires v == VerdictAt(w.k.vs, id) && PlacedBy(w, plan, id) && Judged(c, s, nodes, id, v)
    requires id in w.p.update ==> IsInPlace(w.k.vs, id)
    requires id in w.p.del ==> Has(w.k.vs, id, DeleteIt) || IsRecreation(w.k.vs, id)
    ensures Listed(c, s, nodes, plan, id)
  {
  }

  // ---------------------------------------------------------------- how many changes, and which

  /** The changes that are due, by phase: those of the rolling template and the others. */
  ghost function Due(c: Setup, s: State, rolling: bool): set<Id> {
    set id | id in Wanted(c, s.t) && Changes(c, s, id) && NamedRolling(s.t.spec, id) == rolling
  }

  /** The changes a plan starts. */
  ghost function Begun(c: Setup, s: State, plan: Plan, rolling: bool): set<Id> {
    set id | id in Due(c, s, rolling) && (Mentions(plan.update, id) || Mentions(plan.del, id))
  }

  lemma DueAreCandidates(c: Setup, s: State, nodes: NodeStore, j: Job, rolling: bool)
    requires j == JobIn(c, s, nodes) && Backed(j)
    ensures CandidateSet(VerdictsOf(j), rolling) == Due(c, s, rolling)
  {
    var vs, due := VerdictsOf(j), Due(c, s, rolling);
    forall id ensures id in CandidateSet(vs, rolling) <==> id in due {
      JudgedAs(c, s, nodes, j, id);
    }
  }

  lemma BegunIsLaunched(c: Setup, s: State, ch: Choice, w: Trace, id: Id)
    requires Explains(c, s, ch, w)
    ensures id in Launched(w.k.vs, w.p) <==> id in Begun(c, s, ch.plan, true) + Begun(c, s, ch.plan, false)
  {
    JudgedAs(c, s, ch.nodes, w.j, id);
    PlacedInPlan(c, s, ch, w, id);
    UpdatesAreInPlace(w.k, w.p, id);
  }

  lemma TraceIsNumbered(c: Setup, s: State, ch: Choice, w: Trace)
    requires Explains(c, s, ch, w)
    ensures Numbered(w.k.vs)
  {
    JobIsSane(c.deleteAfterFinish, c.h, s.t, ch.nodes, s.store);
  }

  lemma LaunchedIsBegun(c: Setup, s: State, ch: Choice, w: Trace)
    requires Explains(c, s, ch, w)
    ensures Launched(w.k.vs, w.p) == Begun(c, s, ch.plan, true) + Begun(c, s, ch.plan, false)
  {
    var launched, begun := Launched(w.k.vs, w.p), Begun(c, s, ch.plan, true) + Begun(c, s, ch.plan, false);
    forall id ensures id in launched <==> id in begun {
      BegunIsLaunched(c, s, ch, w, id);
    }
  }

  lemma DueIsSplit(c: Setup, s: State, plan: Plan)
    ensures Due(c, s, false) !! Due(c, s, true)
    ensures Begun(c, s, plan, false) <= Due(c, s, false) && Begun(c, s, plan, true) <= Due(c, s, true)
  {
  }

  lemma SplitIsUnique(forced: set<Id>, rolled: set<Id>, forced': set<Id>, rolled': set<Id>,
                      others: set<Id>, due: set<Id>)
    requires forced + rolled == rolled' + forced' && others !! due
    requires forced <= others && forced' <= others && rolled <= due && rolled' <= due
    ensures forced == forced' && rolled == rolled'
  {
    forall id ensures (id in forced <==> id in forced') && (id in rolled <==> id in rolled') {
      assert id in forced + rolled <==> id in rolled' + forced';
    }
  }

  /** What begins in the force phase has another template than the rolling one, what begins after it has the
      rolling one. */
  lemma BegunByPhase(c: Setup, s: State, ch: Choice, w: Trace, forced: set<Id>, rolled: set<Id>)
    requires Explains(c, s, ch, w) && forced !! rolled && Launched(w.k.vs, w.p) == forced + rolled
    requires forced <= CandidateSet(w.k.vs, false) && rolled <= CandidateSet(w.k.vs, true)
    ensures forced == Begun(c, s, ch.plan, false) && rolled == Begun(c, s, ch.plan, true)
    ensures CandidateSet(w.k.vs, false) == Due(c, s, false) && CandidateSet(w.k.vs, true) == Due(c, s, true)
  {
    DueAreCandidates(c, s, ch.nodes, w.j, false);
    DueAreCandidates(c, s, ch.nodes, w.j, true);
    LaunchedIsBegun(c, s, ch, w);
    DueIsSplit(c, s, ch.plan);
    SplitIsUnique(forced, rolled, Begun(c, s, ch.plan, false), Begun(c, s, ch.plan, true),
                  Due(c, s, false), Due(c, s, true));
  }

  /** The two budgets, exactly, in every plan of a sync. Of the available pods with another template than the
      rolling one, as many begin to change as are due, or as the available pods exceed what the force budget
      keeps; of those with the rolling template, as many as are due, or as the pods still available exceed
      what the rolling budget keeps, and those with the lowest numbers; unavailable ones always begin. */
  lemma BudgetsAreSpent(c: Setup, s: State, nodes: NodeStore, plan: Plan, force: int, rolling: int,
                        minForced: int, minRolled: int)
    requires IsPlan(JobIn(c, s, nodes), plan)
    requires ForceBudget(s.t.spec, |Wanted(c, s.t)|) == Some(force) && minForced == |Wanted(c, s.t)| - force
    requires RollingBudget(s.t.spec, |Wanted(c, s.t)|) == Some(rolling) && minRolled == |Wanted(c, s.t)| - rolling
    ensures SpentExactly(Available(c, s), Due(c, s, false), Due(c, s, true),
                         Begun(c, s, plan, false), Begun(c, s, plan, true), minForced, minRolled)
  {
    var ch := Choice(nodes, [], plan);
    var w := SyncPlan(c, s, ch);
    SpentInTrace(c, s, ch, w, force, rolling, minForced, minRolled);
  }

  lemma SpentInTrace(c: Setup, s: State, ch: Choice, w: Trace, force: int, rolling: int, minForced: int, minRolled: int)
    requires Explains(c, s, ch, w) && minForced == w.k.size - force && minRolled == w.k.size - rolling
    requires ForceBudget(s.t.spec, w.k.size) == Some(force) && RollingBudget(s.t.spec, w.k.size) == Some(rolling)
    ensures SpentExactly(Available(c, s), Due(c, s, false), Due(c, s, true),
                         Begun(c, s, ch.plan, false), Begun(c, s, ch.plan, true), minForced, minRolled)
  {
    TraceIsNumbered(c, s, ch, w);
    var forced, rolled := BothPhases(w.k, w.order1, w.order2, force, rolling, minForced, minRolled);
    TraceIsSpend(c, s, ch, w, Some(force), Some(rolling));
    SpentWithin(w.k.available, CandidateSet(w.k.vs, false), CandidateSet(w.k.vs, true), forced, rolled,
                minForced, minRolled);
    BegunByPhase(c, s, ch, w, forced, rolled);
  }

  lemma SpentWithin(available: set<Id>, others: set<Id>, due: set<Id>, forced: set<Id>, rolled: set<Id>,
                    minForced: int, minRolled: int)
    requires SpentExactly(available, others, due, forced, rolled, minForced, minRolled)
    ensures forced <= others && rolled <= due
  {
  }

  lemma TraceIsSpend(c: Setup, s: State, ch: Choice, w: Trace, force: Option<int>, rolling: Option<int>)
    requires Explains(c, s, ch, w)
    requires ForceBudget(s.t.spec, w.k.size) == force && RollingBudget(s.t.spec, w.k.size) == rolling
    ensures w.p == Spend(w.k, w.order1, w.order2, force, rolling)
  {
  }

  lemma NoBudgetNoPhase(k: Stock, order1: seq<Id>, order2: seq<Id>, force: Option<int>, rolling: Option<int>)
    requires Sane(k) && IsOrder(k.vs, order1) && IsOrder(k.vs, order2)
    ensures var launched := Launched(k.vs, Spend(k, order1, order2, force, rolling));
            && (force == None ==> launched == {})
            && (rolling == None ==> launched <= CandidateSet(k.vs, false))
  {
    AfterForceShape(k, order1, order2, force);
  }

  /** An unreadable force budget lets no change begin, an unreadable rolling budget none of its kind. */
  lemma UnreadableBudgets(c: Setup, s: State, nodes: NodeStore, plan: Plan)
    requires IsPlan(JobIn(c, s, nodes), plan)
    ensures ForceBudget(s.t.spec, |Wanted(c, s.t)|) == None ==>
              Begun(c, s, plan, false) == {} && Begun(c, s, plan, true) == {}
    ensures RollingBudget(s.t.spec, |Wanted(c, s.t)|) == None ==> Begun(c, s, plan, true) == {}
  {
    var ch := Choice(nodes, [], plan);
    var w := SyncPlan(c, s, ch);
    UnreadableInTrace(c, s, ch, w, ForceBudget(s.t.spec, w.k.size), RollingBudget(s.t.spec, w.k.size));
  }

  lemma UnreadableInTrace(c: Setup, s: State, ch: Choice, w: Trace, force: Option<int>, rolling: Option<int>)
    requires Explains(c, s, ch, w)
    requires ForceBudget(s.t.spec, w.k.size) == force && RollingBudget(s.t.spec, w.k.size) == rolling
    ensures force == None ==> Begun(c, s, ch.plan, false) == {} && Begun(c, s, ch.plan, true) == {}
    ensures rolling == None ==> Begun(c, s, ch.plan, true) == {}
  {
    TraceIsSpend(c, s, ch, w, force, rolling);
    NoBudgetNoPhase(w.k, w.order1, w.order2, force, rolling);
    LaunchedIsBegun(c, s, ch, w);
    DueIsSplit(c, s, ch.plan);
    DueAreCandidates(c, s, ch.nodes, w.j, false);
    NothingRolled(Launched(w.k.vs, w.p), Begun(c, s, ch.plan, false), Begun(c, s, ch.plan, true),
                  Due(c, s, false), Due(c, s, true));
  }

  lemma NothingRolled(launched: set<Id>, forced: set<Id>, rolled: set<Id>, others: set<Id>, due: set<Id>)
    requires launched == rolled + forced && rolled <= due && others !! due
    ensures launched == {} ==> forced == {} && rolled == {}
    ensures launched <= others ==> rolled == {}
  {
    forall id ensures id in rolled || id in forced ==> id in launched { }
  }

  lemma AllRolling(c: Setup, s: State)
    requires s.t.spec.templates == map[] && s.t.spec.rollingTemplate == ""
    ensures Due(c, s, false) == {}
  {
  }

  /** With one template for all instances and no rolling template named, every change is a rolling one: no
      plan takes more available pods than exceed what the rolling budget keeps. */
  lemma OneTemplateRollsAll(c: Setup, s: State, nodes: NodeStore, plan: Plan, force: int, rolling: int,
                            minForced: int, minRolled: int)
    requires IsPlan(JobIn(c, s, nodes), plan) && s.t.spec.templates == map[] && s.t.spec.rollingTemplate == ""
    requires ForceBudget(s.t.spec, |Wanted(c, s.t)|) == Some(force) && minForced == |Wanted(c, s.t)| - force
    requires RollingBudget(s.t.spec, |Wanted(c, s.t)|) == Some(rolling) && minRolled == |Wanted(c, s.t)| - rolling
    ensures Begun(c, s, plan, false) == {}
    ensures |Begun(c, s, plan, true) * Available(c, s)| <= Max(0, |Available(c, s)| - minRolled)
  {
    BudgetsAreSpent(c, s, nodes, plan, force, rolling, minForced, minRolled);
    AllRolling(c, s);
    RolledAlone(Available(c, s), Due(c, s, true), Begun(c, s, plan, false), Begun(c, s, plan, true),
                minForced, minRolled);
  }

  lemma RolledAlone(available: set<Id>, due: set<Id>, forced: set<Id>, rolled: set<Id>, minForced: int, minRolled: int)
    requires SpentExactly(available, {}, due, forced, rolled, minForced, minRolled)
    ensures forced == {} && |rolled * available| <= Max(0, |available| - minRolled)
  {
    assert available - forced == available;
  }

  // ---------------------------------------------------------------- in place or by recreation

  /** The pod still has the uniq label it was given from `before`. */
  predicate MadeFrom(c: Setup, pod: Pod, before: Template) {
    Label(pod.labels, "tapp_uniq_hash_key") == UniqHash(c.h, before.spec)
  }

  /** The uniq hash tells these two pod specs apart if they differ in anything but images. */
  predicate NoCollision(h: Hasher, a: PodSpec, b: PodSpec) {
    h.uniq(WithoutImages(a)) == h.uniq(WithoutImages(b)) ==> WithoutImages(a) == WithoutImages(b)
  }

  /** A change that begins is an update in place exactly when the template changed in images only. */
  lemma ImageChangesAreInPlace(c: Setup, s: State, nodes: NodeStore, plan: Plan, id: Id, before: Template)
    requires IsPlan(JobIn(c, s, nodes), plan) && Changes(c, s, id) && MadeFrom(c, s.store[id], before)
    requires HasTemplate(c, s, id) && Truthful(c.h, PodTemplate(PlannedSpec(c, s), id).value)
    ensures var after := PodTemplate(PlannedSpec(c, s), id).value;
            && (SameSpecButImages(before.spec, after.spec) ==> !Mentions(plan.del, id))
            && (!SameSpecButImages(before.spec, after.spec) && NoCollision(c.h, before.spec, after.spec) ==>
                  !Mentions(plan.update, id))
  {
    var after := PodTemplate(PlannedSpec(c, s), id).value;
    PlanListsExactly(c, s, nodes, plan, id);
    WantedIsNoSurplus(c, s, id);
    BlankEquals(before.spec.containers, after.spec.containers);
    BlankEquals(before.spec.initContainers, after.spec.initContainers);
    assert WithoutImages(before.spec) == WithoutImages(after.spec) <==> SameSpecButImages(before.spec, after.spec);
    if SameLabel(c, s, id, "tapp_uniq_hash_key") {
      PrintInjective(c.h.uniq(WithoutImages(before.spec)), c.h.uniq(WithoutImages(after.spec)));
    }
  }

  /** What every planned update makes of its pod: the main containers and hash labels of a new one. */
  lemma PlannedUpdateAgrees(c: Setup, s: State, nodes: NodeStore, plan: Plan, i: nat, before: Template)
    requires IsPlan(JobIn(c, s, nodes), plan) && i < |plan.update|
    requires plan.update[i].id in s.store ==>
               var pod := s.store[plan.update[i].id];
               && pod.spec.containers == before.spec.containers && pod.spec.initContainers == before.spec.initContainers
               && MadeFrom(c, pod, before)
    requires Truthful(c.h, before)
    requires HasTemplate(c, s, plan.update[i].id) ==>
               var after := PodTemplate(PlannedSpec(c, s), plan.update[i].id).value;
               Truthful(c.h, after) && NoCollision(c.h, before.spec, after.spec)
    ensures plan.update[i].id in s.store && HasTemplate(c, s, plan.update[i].id)
    ensures var id := plan.update[i].id;
            var merged, made := MergePod(s.store[id], plan.update[i].pod), NewPod(Hashed(c.h, s.t), id).value;
            && merged.spec.containers == PodTemplate(PlannedSpec(c, s), id).value.spec.containers
            && Label(merged.labels, "tapp_uniq_hash_key") == Label(made.labels, "tapp_uniq_hash_key")
            && !IsTemplateHashChanged(PlannedSpec(c, s), id, merged)
  {
    var id := plan.update[i].id;
    assert Mentions(plan.update, id);
    PlanListsExactly(c, s, nodes, plan, id);
    SoundPartition(c.deleteAfterFinish, c.h, s.t, nodes, s.store, plan);
    InPlaceUpdateAgreesWithRecreation(c.h, Hashed(c.h, s.t), id, before, s.store[id]);
  }

  // ---------------------------------------------------------------- what a full sync leaves

  ghost predicate FullSync(c: Setup, s: State, ch: Choice) {
    ValidChoice(c, s, ch) && WellKept(s) && !ExitsEarly(s.t, ch.pods)
  }

  lemma SyncedBy(c: Setup, s: State, ch: Choice, id: Id)
    requires FullSync(c, s, ch)
    ensures DistinctIds(AllInstances(ch.plan))
    ensures Lookup(Sync(s, ch).store, id) == SyncEffect(GatedStore(s.store, Selected(ch.plan)), ch.plan, id)
    ensures WellKept(Sync(s, ch))
  {
    PlannedIdsAreDistinct(c.deleteAfterFinish, c.h, s.t, ch.nodes, s.store, ch.plan);
    SyncKeepsWellKept(c, s, ch);
  }

  lemma PlannedAdd(c: Setup, s: State, nodes: NodeStore, plan: Plan, i: nat)
    requires IsPlan(JobIn(c, s, nodes), plan) && i < |plan.add|
    ensures plan.add[i].id !in s.store && NewPod(Hashed(c.h, s.t), plan.add[i].id) == Some(plan.add[i].pod)
  {
    SoundPartition(c.deleteAfterFinish, c.h, s.t, nodes, s.store, plan);
  }

  lemma PlannedUpdate(c: Setup, s: State, nodes: NodeStore, plan: Plan, i: nat)
    requires IsPlan(JobIn(c, s, nodes), plan) && i < |plan.update|
    ensures plan.update[i].id in s.store && NewPod(Hashed(c.h, s.t), plan.update[i].id).Some?
    ensures plan.update[i].pod == MarkUpdating(NewPod(Hashed(c.h, s.t), plan.update[i].id).value)
  {
    SoundPartition(c.deleteAfterFinish, c.h, s.t, nodes, s.store, plan);
  }

  lemma CreatedPod(c: Setup, s: State, ch: Choice, id: Id) returns (made: Pod)
    requires FullSync(c, s, ch) && Mentions(ch.plan.add, id)
    ensures NewPod(Hashed(c.h, s.t), id) == Some(made) && Lookup(Sync(s, ch).store, id) == Some(Admitted(made))
  {
    SyncedBy(c, s, ch, id);
    var i :| 0 <= i < |ch.plan.add| && ch.plan.add[i].id == id;
    PlannedAdd(c, s, ch.nodes, ch.plan, i);
    SyncedByCreate(GatedStore(s.store, Selected(ch.plan)), ch.plan, i);
    made := ch.plan.add[i].pod;
  }

  lemma HashKeepsTemplate(h: Hasher, spec: TAppSpec, id: Id, template: Template)
    requires PodTemplate(spec, id) == Some(template)
    ensures var hashed := PodTemplate(UpdateTemplateHash(h, spec), id);
            hashed.Some? && hashed.value.spec == template.spec && hashed.value.annotations == template.annotations
  {
  }

  /** A created pod is a new one of the instance's template, with the readiness gate added. */
  lemma CreatedFromTemplate(c: Setup, s: State, ch: Choice, id: Id, template: Template)
    requires FullSync(c, s, ch) && Mentions(ch.plan.add, id) && PodTemplate(s.t.spec, id) == Some(template)
    ensures Lookup(Sync(s, ch).store, id).Some? && MadeOf(Lookup(Sync(s, ch).store, id).value, s.t.name, id, template)
  {
    var made := CreatedPod(c, s, ch, id);
    HashKeepsTemplate(c.h, s.t.spec, id, template);
    AdmittedMeans(made);
    NewPodMeans(Hashed(c.h, s.t), id, PodTemplate(PlannedSpec(c, s), id).value);
  }

  /** A pod waiting to be scheduled, as the template asks for it. */
  predicate MadeOf(pod: Pod, app: string, id: Id, template: Template) {
    && pod.name == app + "-" + id && PodIndex(pod) == Some(id)
    && pod.phase == PhasePending && !pod.dying && pod.conditions == []
    && "tkestack.io/InPlaceUpdate" in pod.spec.readinessGates
    && pod.spec.(readinessGates := template.spec.readinessGates) == template.spec
    && pod.annotations == template.annotations
  }

  lemma SelectedByName(c: Setup, s: State, ch: Choice, id: Id)
    requires FullSync(c, s, ch) && (Mentions(ch.plan.del, id) || Mentions(ch.plan.update, id)) && id in s.store
    ensures s.store[id].name in Selected(ch.plan)
  {
    PlannedNames(c, s, ch);
    NamedInUnion(s.t.name, ch.plan.del, ch.plan.update, id);
  }

  lemma NamedInUnion(app: string, xs: seq<Instance>, ys: seq<Instance>, id: Id)
    requires NamedById(app, xs) && NamedById(app, ys) && (Mentions(xs, id) || Mentions(ys, id))
    ensures PodName(app, id) in NamesOf(xs + ys)
  {
    var zs := xs + ys;
    if Mentions(xs, id) {
      var i :| 0 <= i < |xs| && xs[i].id == id;
      assert zs[i] == xs[i];
    } else {
      var i :| 0 <= i < |ys| && ys[i].id == id;
      assert zs[|xs| + i] == ys[i];
    }
  }

  /** A pod that a sync deletes is dying afterwards, one that it force-deletes is gone. */
  lemma DeletedIsDown(c: Setup, s: State, ch: Choice, id: Id)
    requires FullSync(c, s, ch) && (Mentions(ch.plan.del, id) || Mentions(ch.plan.forceDel, id))
    ensures Mentions(ch.plan.forceDel, id) ==> id !in Sync(s, ch).store
    ensures Mentions(ch.plan.del, id) ==> id in Sync(s, ch).store && Sync(s, ch).store[id].dying
    ensures id !in Available(c, Sync(s, ch))
  {
    SyncedBy(c, s, ch, id);
    PlanListsExactly(c, s, ch.nodes, ch.plan, id);
    SyncStoreAt(GatedStore(s.store, Selected(ch.plan)), ch.plan, id);
  }

  /** What a sync makes of a pod that it updates in place: merged with a new pod that is marked for update,
      behind a closed gate. */
  lemma UpdatedPod(c: Setup, s: State, ch: Choice, id: Id) returns (made: Pod)
    requires FullSync(c, s, ch) && Mentions(ch.plan.update, id)
    ensures id in s.store && id in Sync(s, ch).store && NewPod(Hashed(c.h, s.t), id) == Some(made)
    ensures Sync(s, ch).store[id] == MergePod(SyncCondition(s.store[id], Selected(ch.plan)), MarkUpdating(made))
    ensures s.store[id].name in Selected(ch.plan)
  {
    SyncedBy(c, s, ch, id);
    var i :| 0 <= i < |ch.plan.update| && ch.plan.update[i].id == id;
    PlannedUpdate(c, s, ch.nodes, ch.plan, i);
    SelectedByName(c, s, ch, id);
    made := NewPod(Hashed(c.h, s.t), id).value;
    MergedInStore(s.store, Selected(ch.plan), ch.plan, i, MarkUpdating(made));
  }

  lemma MergedInStore(store: Store, selected: set<string>, plan: Plan, i: nat, expected: Pod)
    requires DistinctIds(AllInstances(plan)) && i < |plan.update| && plan.update[i].pod == expected
    requires plan.update[i].id in store
    ensures var id := plan.update[i].id;
            SyncEffect(GatedStore(store, selected), plan, id)
            == Some(MergePod(SyncCondition(store[id], selected), expected))
  {
    SyncedByUpdate(GatedStore(store, selected), plan, i);
  }

  /** After its update a pod has a closed gate and the mark of an update under way, and counts as updating as
      long as some container has not taken over its image. It is available only if it had been so all along
      with its gate closed, and nothing is left to swap. */
  lemma UpdatedIsDown(c: Setup, s: State, ch: Choice, id: Id)
    requires FullSync(c, s, ch) && Mentions(ch.plan.update, id)
    ensures id in s.store && id in Sync(s, ch).store
    ensures var was, now := s.store[id], Sync(s, ch).store[id];
            && HasGate(now.conditions, CondFalse)
            && (IsUpdating(now) <==> exists status, i :: status in was.containerStatuses && Swapping(now, status, i))
            && (IsAvailable(now) <==>
                  !was.dying && was.phase == PhaseRunning && IsMarkedReady(was) && HasGate(was.conditions, CondFalse)
                  && !IsUpdating(now))
  {
    var made := UpdatedPod(c, s, ch, id);
    var gated := SyncCondition(s.store[id], Selected(ch.plan));
    MergedCountsAsUpdating(gated, made);
    UpdatedAvailability(s.store[id], Selected(ch.plan), gated, made);
  }

  lemma UpdatedAvailability(was: Pod, selected: set<string>, gated: Pod, made: Pod)
    requires was.name in selected && gated == SyncCondition(was, selected)
    ensures var now := MergePod(gated, MarkUpdating(made));
            && HasGate(now.conditions, CondFalse) && now.containerStatuses == was.containerStatuses
            && (IsAvailable(now) <==>
                  !was.dying && was.phase == PhaseRunning && IsMarkedReady(was) && HasGate(was.conditions, CondFalse)
                  && !IsUpdating(now))
  {
    SetGateConditions(was.conditions, CondFalse);
  }

  ghost predicate HonestStore(store: Store) {
    forall id :: id in store ==> IsHonest(store[id])
  }

  /** As long as a closed gate means not ready, no pod that a sync deletes or updates is available after it. */
  lemma PlannedIsDown(c: Setup, s: State, ch: Choice, id: Id)
    requires FullSync(c, s, ch) && HonestStore(s.store)
    requires Mentions(ch.plan.del, id) || Mentions(ch.plan.forceDel, id) || Mentions(ch.plan.update, id)
    ensures id !in Available(c, Sync(s, ch))
  {
    if Mentions(ch.plan.update, id) {
      UpdatedIsDown(c, s, ch, id);
    } else {
      DeletedIsDown(c, s, ch, id);
    }
  }

  /** And a sync keeps it so. */
  lemma SyncKeepsHonest(c: Setup, s: State, ch: Choice)
    requires FullSync(c, s, ch) && HonestStore(s.store)
    ensures HonestStore(Sync(s, ch).store)
  {
    forall id | id in Sync(s, ch).store ensures IsHonest(Sync(s, ch).store[id]) {
      HonestAfterSync(c, s, ch, id);
    }
  }

  lemma HonestAfterSync(c: Setup, s: State, ch: Choice, id: Id)
    requires FullSync(c, s, ch) && HonestStore(s.store) && id in Sync(s, ch).store
    ensures IsHonest(Sync(s, ch).store[id])
  {
    if id in s.store { GatePassIsHonest(s.store[id], Selected(ch.plan)); }
    if Mentions(ch.plan.update, id) {
      var made := UpdatedPod(c, s, ch, id);
    } else if Mentions(ch.plan.add, id) {
      var made := CreatedPod(c, s, ch, id);
      NewIsHonest(made);
    } else {
      SyncedBy(c, s, ch, id);
      HonestUnlessPlanned(GatedStore(s.store, Selected(ch.plan)), ch.plan, id);
    }
  }

  lemma NewIsHonest(made: Pod)
    ensures IsHonest(Admitted(made))
  {
  }

  lemma HonestUnlessPlanned(store: Store, plan: Plan, id: Id)
    requires DistinctIds(AllInstances(plan)) && !Mentions(plan.add, id) && !Mentions(plan.update, id)
    requires (id in store ==> IsHonest(store[id])) && SyncEffect(store, plan, id).Some?
    ensures IsHonest(SyncEffect(store, plan, id).value)
  {
    OnlyDeleted(store, plan, id);
  }
}
