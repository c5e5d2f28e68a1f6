/** What every plan satisfies, for every order in which the controller's loops visit their maps. */
module Selection {
  import opened Decimal
  import opened Model
  import opened Templates
  import opened Instances
  import opened Planner
  import opened Transformer

  // ---------------------------------------------------------------- actions and ids

  lemma OrdinalParses(id: Id, n: int32)
    requires id in Ordinals(n)
    ensures Parse(id) == Number(ValueOrZero(id)) && 0 <= ValueOrZero(id) < n && id == Print(ValueOrZero(id))
    ensures !IsBeyond(id, n)
  {
    var i: nat :| i < n && id == Print(i);
    ParsePrint(i);
  }

  /** There are as many ordinals as replicas, and none for a negative count. */
  lemma {:induction false} OrdinalCount(n: int)
    ensures |Ordinals(n)| == Max(0, n)
    decreases Max(0, n)
  {
    if n <= 0 {
      assert Ordinals(n) == {};
    } else {
      OrdinalCount(n - 1);
      assert Ordinals(n) == Ordinals(n - 1) + {Print(n - 1)};
      forall i | 0 <= i < n - 1 ensures Print(i) != Print(n - 1) {
        if Print(i) == Print(n - 1) { PrintInjective(i, n - 1); }
      }
    }
  }

  /** Which ids are beyond the replicas: those that spell a number from the replica count up, within 64 bits.
      Of the canonical ones, exactly the ordinals that are not below the count. */
  lemma BeyondMeans(id: Id, replicas: int32, n: nat)
    ensures IsBeyond(id, replicas) <==> exists sign, zeros, m :: SpellsFrom(id, sign, zeros, m, replicas)
    ensures n <= MAX_INT64 ==> (IsBeyond(Print(n), replicas) <==> n >= replicas)
  {
    if IsBeyond(id, replicas) {
      ParsesExactlySpelled(id);
      var sign, zeros, m :| Spells(id, sign, zeros, m);
      SpelledParses(id, sign, zeros, m);
      assert SpellsFrom(id, sign, zeros, m, replicas);
    }
    if sign, zeros, m :| SpellsFrom(id, sign, zeros, m, replicas) {
      SpelledParses(id, sign, zeros, m);
    }
    if n <= MAX_INT64 { ParsePrint(n); }
  }

  predicate SpellsFrom(id: Id, sign: string, zeros: nat, m: nat, least: int) {
    Spells(id, sign, zeros, m) && least <= Signed(sign, m) <= MAX_INT64
  }

  /** No action of the running set shares an id with the completed or the unwanted pods, and those two
      both say delete. */
  lemma PartsAgree(deleteAfterFinish: bool, t: TApp, podMap: map<Id, Pod>)
    ensures var running, completed := DesiredRunning(deleteAfterFinish, t), DesiredCompleted(deleteAfterFinish, t);
            var a := RunningActions(t.spec, running, podMap);
            var b, c := CompletedActions(completed, podMap), UnwantedActions(t.spec.replicas, podMap);
            && a.Keys !! b.Keys && a.Keys !! c.Keys
            && (forall id :: id in b && id in c ==> b[id] == c[id] == DeletePod)
  {
    forall id | id in DesiredRunning(deleteAfterFinish, t) ensures !IsBeyond(id, t.spec.replicas) {
      OrdinalParses(id, t.spec.replicas);
    }
  }

  ghost predicate Agreeing(parts: seq<map<Id, PodAction>>) {
    forall p, q, id :: p in parts && q in parts && id in p && id in q ==> p[id] == q[id]
  }

  /** A merge of agreeing maps holds at an id what any part holds there. */
  lemma {:induction false} MergeAt(parts: seq<map<Id, PodAction>>, id: Id)
    requires Agreeing(parts)
    ensures id in MergeActions(parts) ==> exists p :: p in parts && id in p
    ensures forall p :: p in parts && id in p ==> id in MergeActions(parts) && MergeActions(parts)[id] == p[id]
  {
    if parts != [] {
      var init, last := parts[..|parts| - 1], parts[|parts| - 1];
      assert parts == init + [last];
      MergeAt(init, id);
    }
  }

  lemma MergeAlikeAt(parts: seq<map<Id, PodAction>>, others: seq<map<Id, PodAction>>, id: Id)
    requires Agreeing(parts) && Agreeing(others) && forall p :: p in parts <==> p in others
    ensures id in MergeActions(parts) <==> id in MergeActions(others)
    ensures id in MergeActions(parts) ==> MergeActions(parts)[id] == MergeActions(others)[id]
  {
    MergeAt(parts, id);
    MergeAt(others, id);
  }

  lemma SameMembersMergeAlike(parts: seq<map<Id, PodAction>>, others: seq<map<Id, PodAction>>)
    requires Agreeing(parts) && multiset(parts) == multiset(others)
    ensures MergeActions(parts) == MergeActions(others)
  {
    forall p ensures p in parts <==> p in others {
      assert p in parts <==> p in multiset(parts);
      assert p in others <==> p in multiset(others);
    }
    forall id ensures id in MergeActions(parts) <==> id in MergeActions(others)
      ensures id in MergeActions(parts) ==> MergeActions(parts)[id] == MergeActions(others)[id]
    {
      MergeAlikeAt(parts, others, id);
    }
  }

  lemma ThreeAgree(a: map<Id, PodAction>, b: map<Id, PodAction>, c: map<Id, PodAction>)
    requires a.Keys !! b.Keys && a.Keys !! c.Keys && forall id :: id in b && id in c ==> b[id] == c[id]
    ensures Agreeing([a, b, c])
  {
    forall p, q, id | p in [a, b, c] && q in [a, b, c] && id in p && id in q ensures p[id] == q[id] {
      assert id in a.Keys || id in b.Keys || id in c.Keys;
    }
  }

  /** Merging the three action maps in any order gives the same actions. */
  lemma MergeIsOrderIndependent(deleteAfterFinish: bool, t: TApp, podMap: map<Id, Pod>,
                                a: map<Id, PodAction>, b: map<Id, PodAction>, c: map<Id, PodAction>,
                                parts: seq<map<Id, PodAction>>)
    requires a == RunningActions(t.spec, DesiredRunning(deleteAfterFinish, t), podMap)
    requires b == CompletedActions(DesiredCompleted(deleteAfterFinish, t), podMap)
    requires c == UnwantedActions(t.spec.replicas, podMap)
    requires multiset(parts) == multiset([a, b, c])
    ensures MergeActions(parts)
         == NextActions(t.spec, DesiredRunning(deleteAfterFinish, t), DesiredCompleted(deleteAfterFinish, t), podMap)
  {
    PartsAgree(deleteAfterFinish, t, podMap);
    ThreeAgree(a, b, c);
    SameMembersMergeAlike([a, b, c], parts);
  }

  /** What the merged actions say of an id. */
  lemma NextActionsAt(deleteAfterFinish: bool, t: TApp, podMap: map<Id, Pod>, id: Id)
    ensures var running, completed := DesiredRunning(deleteAfterFinish, t), DesiredCompleted(deleteAfterFinish, t);
            var actions := NextActions(t.spec, running, completed, podMap);
            if id in running then
              id !in completed && !IsBeyond(id, t.spec.replicas)
              && (if id in actions then Some(actions[id]) else None) == RunningAction(t.spec, podMap, id)
            else
              (if id in actions then Some(actions[id]) else None)
              == if id in podMap && (id in completed || IsBeyond(id, t.spec.replicas)) then Some(DeletePod) else None
  {
    var running, completed := DesiredRunning(deleteAfterFinish, t), DesiredCompleted(deleteAfterFinish, t);
    if id in running {
      OrdinalParses(id, t.spec.replicas);
    }
    MergedOfThree(RunningActions(t.spec, running, podMap), CompletedActions(completed, podMap),
                  UnwantedActions(t.spec.replicas, podMap));
  }

  // ---------------------------------------------------------------- verdicts

  /** Nothing the first phase takes away was available, and every change can be built. */
  ghost predicate Sane(k: Stock) {
    (forall id :: id in k.vs && k.vs[id] in {DeleteIt, ForceDeleteIt, AwaitIt} ==> id !in k.available)
    && (forall id :: id in k.vs && k.vs[id].ChangeIt? ==> k.vs[id].how != Unbuildable)
  }

  /** Changes concern ids whose numbers differ. */
  ghost predicate Numbered(vs: Verdicts) {
    forall a, b :: a in vs && b in vs && vs[a].ChangeIt? && vs[b].ChangeIt? && a != b ==>
        ValueOrZero(a) != ValueOrZero(b)
  }

  /** What a verdict says about its pod. */
  predicate VerdictFits(j: Job, id: Id, v: Verdict) {
    match v
    case IgnoreIt => true
    case AddIt => id in j.running && id !in j.podMap && NewPod(j.t, id).Some?
    case DeleteIt => id in j.podMap && !j.podMap[id].dying
    case ForceDeleteIt => id in j.podMap && j.podMap[id].dying
    case AwaitIt => id in j.podMap && j.podMap[id].dying
    case ChangeIt(how, _) =>
      id in j.running && id in j.podMap && !j.podMap[id].dying && how != Unbuildable
      && (how == InPlace ==> NewPod(j.t, id).Some?)
  }

  /** What the first phase takes away was not available. */
  predicate TakesNoneAvailable(j: Job, id: Id, v: Verdict) {
    v in {DeleteIt, ForceDeleteIt, AwaitIt} && id in j.running ==> id in j.podMap && !IsAvailable(j.podMap[id])
  }

  lemma VerdictOfJob(deleteAfterFinish: bool, h: Hasher, t: TApp, nodes: NodeStore, podMap: map<Id, Pod>, id: Id)
    requires Backed(JobOf(deleteAfterFinish, h, t, nodes, podMap))
    requires id in JobOf(deleteAfterFinish, h, t, nodes, podMap).actions
    ensures var j := JobOf(deleteAfterFinish, h, t, nodes, podMap);
            VerdictFits(j, id, VerdictOf(j, id)) && TakesNoneAvailable(j, id, VerdictOf(j, id))
  {
    NextActionsAt(deleteAfterFinish, Hashed(h, t), podMap, id);
    var j := JobOf(deleteAfterFinish, h, t, nodes, podMap);
    if id in j.running {
      RunningVerdictFits(j, id);
    }
  }

  lemma RunningVerdictFits(j: Job, id: Id)
    requires Backed(j) && id in j.running && id in j.actions
        && Some(j.actions[id]) == RunningAction(j.t.spec, j.podMap, id)
    ensures VerdictFits(j, id, VerdictOf(j, id)) && TakesNoneAvailable(j, id, VerdictOf(j, id))
  {
  }

  ghost predicate AllFit(j: Job)
    requires Backed(j)
  {
    forall id :: id in j.actions ==> VerdictFits(j, id, VerdictOf(j, id))
  }

  ghost predicate AllSafe(j: Job)
    requires Backed(j)
  {
    forall id :: id in j.actions ==> TakesNoneAvailable(j, id, VerdictOf(j, id))
  }

  ghost predicate NumbersDiffer(ids: set<Id>) {
    forall a, b :: a in ids && b in ids && a != b ==> ValueOrZero(a) != ValueOrZero(b)
  }

  lemma OrdinalsDiffer(n: int32, ids: set<Id>)
    requires ids <= Ordinals(n)
    ensures NumbersDiffer(ids)
  {
    forall a, b | a in ids && b in ids && a != b ensures ValueOrZero(a) != ValueOrZero(b) {
      OrdinalParses(a, n);
      OrdinalParses(b, n);
    }
  }

  lemma JobFits(deleteAfterFinish: bool, h: Hasher, t: TApp, nodes: NodeStore, podMap: map<Id, Pod>)
    ensures var j := JobOf(deleteAfterFinish, h, t, nodes, podMap);
            Backed(j) && AllFit(j) && AllSafe(j) && NumbersDiffer(j.running)
  {
    JobBacked(deleteAfterFinish, h, t, nodes, podMap);
    var j := JobOf(deleteAfterFinish, h, t, nodes, podMap);
    forall id | id in j.actions
      ensures VerdictFits(j, id, VerdictOf(j, id)) && TakesNoneAvailable(j, id, VerdictOf(j, id))
    {
      VerdictOfJob(deleteAfterFinish, h, t, nodes, podMap, id);
    }
    OrdinalsDiffer(t.spec.replicas, j.running);
  }

  lemma SafeStockIsSane(j: Job, vs: Verdicts)
    requires Backed(j) && AllFit(j) && AllSafe(j) && vs == VerdictsOf(j)
    ensures Sane(Stock(vs, AvailablePods(j.podMap, j.running), |j.running|))
  {
    forall id | id in vs ensures VerdictFits(j, id, vs[id]) && TakesNoneAvailable(j, id, vs[id]) {
      assert vs[id] == VerdictOf(j, id);
    }
  }

  lemma FittingIsNumbered(j: Job, vs: Verdicts)
    requires Backed(j) && AllFit(j) && NumbersDiffer(j.running) && vs == VerdictsOf(j)
    ensures Numbered(vs)
  {
    forall id | id in vs ensures VerdictFits(j, id, vs[id]) { assert vs[id] == VerdictOf(j, id); }
  }

  /** The jobs the controller builds are sane; in particular phase-one deletes never hit an available pod. */
  lemma JobIsSane(deleteAfterFinish: bool, h: Hasher, t: TApp, nodes: NodeStore, podMap: map<Id, Pod>)
    ensures var j := JobOf(deleteAfterFinish, h, t, nodes, podMap);
            Backed(j) && Sane(StockOf(j)) && Numbered(VerdictsOf(j))
  {
    JobFits(deleteAfterFinish, h, t, nodes, podMap);
    var j := JobOf(deleteAfterFinish, h, t, nodes, podMap);
    SafeStockIsSane(j, VerdictsOf(j));
    FittingIsNumbered(j, VerdictsOf(j));
  }

  // ---------------------------------------------------------------- what the phases decide

  predicate Has(vs: Verdicts, id: Id, v: Verdict) {
    id in vs && vs[id] == v
  }

  predicate IsRecreation(vs: Verdicts, id: Id) {
    id in vs && vs[id].ChangeIt? && vs[id].how == ByRecreation
  }

  predicate IsInPlace(vs: Verdicts, id: Id) {
    id in vs && vs[id].ChangeIt? && vs[id].how == InPlace
  }

  predicate IsCandidate(vs: Verdicts, id: Id, rolling: bool) {
    id in vs && vs[id].ChangeIt? && vs[id].rolling == rolling
  }

  /** The pods whose update or recreation has been started. */
  function Launched(vs: Verdicts, s: Progress): set<Id> {
    (set id | id in s.update) + (set id | id in s.del && IsRecreation(vs, id))
  }

  /** How often an id is planned. */
  ghost function Tally(s: Progress): multiset<Id> {
    multiset(s.add) + multiset(s.del) + multiset(s.forceDel) + multiset(s.update)
  }

  ghost predicate Once(s: Progress) {
    forall id :: Tally(s)[id] <= 1
  }

  lemma TallyMore(s: Progress, next: Progress, id: Id)
    requires || next == s.(add := s.add + [id], available := next.available)
             || next == s.(del := s.del + [id], available := next.available)
             || next == s.(forceDel := s.forceDel + [id], available := next.available)
             || next == s.(update := s.update + [id], available := next.available)
    ensures Tally(next) == Tally(s) + multiset{id}
  {
  }

  lemma OnceMore(s: Progress, next: Progress, id: Id)
    requires Once(s) && id !in s.add && id !in s.del && id !in s.forceDel && id !in s.update
    requires || next == s.(add := s.add + [id], available := next.available)
             || next == s.(del := s.del + [id], available := next.available)
             || next == s.(forceDel := s.forceDel + [id], available := next.available)
             || next == s.(update := s.update + [id], available := next.available)
    ensures Once(next)
  {
    assert Tally(s)[id] == 0;
    TallyMore(s, next, id);
  }

  /** The shape of every intermediate result once the first phase is over. */
  ghost predicate Underway(k: Stock, s: Progress) {
    && (forall id :: id in s.add <==> Has(k.vs, id, AddIt))
    && (forall id :: id in s.forceDel <==> Has(k.vs, id, ForceDeleteIt))
    && (forall id :: id in s.del ==> Has(k.vs, id, DeleteIt) || IsRecreation(k.vs, id))
    && (forall id :: Has(k.vs, id, DeleteIt) ==> id in s.del)
    && (forall id :: id in s.update ==> IsInPlace(k.vs, id))
    && Once(s)
    && s.available == k.available - Launched(k.vs, s)
  }

  predicate OpenedAt(k: Stock, order: seq<Id>, s: Progress, id: Id) {
    && (id in s.add <==> id in order && Has(k.vs, id, AddIt))
    && (id in s.forceDel <==> id in order && Has(k.vs, id, ForceDeleteIt))
    && (id in s.del <==> id in order && Has(k.vs, id, DeleteIt))
  }

  ghost predicate Opened(k: Stock, order: seq<Id>, s: Progress) {
    && (forall id :: OpenedAt(k, order, s, id))
    && s.update == [] && s.rolling == []
    && Once(s)
    && s.available == k.available
  }

  lemma OpenedStep(k: Stock, init: seq<Id>, id: Id, s: Progress)
    requires Sane(k) && id !in init && Opened(k, init, s)
    ensures Opened(k, init + [id], Step(DeleteCreate, VerdictAt(k.vs, id), id, s))
  {
    var next := Step(DeleteCreate, VerdictAt(k.vs, id), id, s);
    assert OpenedAt(k, init, s, id);
    if VerdictAt(k.vs, id) in {AddIt, DeleteIt, ForceDeleteIt} {
      OnceMore(s, next, id);
    }
    forall x ensures OpenedAt(k, init + [id], next, x) {
      assert OpenedAt(k, init, s, x);
    }
    assert s.available - {id} == s.available || VerdictAt(k.vs, id) in {IgnoreIt, AddIt}
        || VerdictAt(k.vs, id).ChangeIt?;
  }

  lemma {:induction false} DeleteCreatePhase(k: Stock, order: seq<Id>)
    requires Sane(k) && Distinct(order)
    ensures Opened(k, order, Run(DeleteCreate, k.vs, order, Opening(k.available)))
    decreases |order|
  {
    if order != [] {
      var init, id := order[..|order| - 1], order[|order| - 1];
      assert order == init + [id];
      DeleteCreatePhase(k, init);
      OpenedStep(k, init, id, Run(DeleteCreate, k.vs, init, Opening(k.available)));
    }
  }

  lemma OrderFacts(vs: Verdicts, order: seq<Id>)
    requires IsOrder(vs, order)
    ensures Distinct(order) && forall id :: id in order <==> id in vs
  {
    assert forall id :: id in order <==> id in multiset(order);
    DistinctOfCounts(order);
  }

  /** After a complete first phase nothing has been launched yet. */
  lemma FirstPhase(k: Stock, order: seq<Id>)
    requires Sane(k) && IsOrder(k.vs, order)
    ensures var s1 := Run(DeleteCreate, k.vs, order, Opening(k.available));
            Underway(k, s1) && Launched(k.vs, s1) == {} && s1.rolling == [] && s1.available == k.available
  {
    OrderFacts(k.vs, order);
    DeleteCreatePhase(k, order);
    var s1 := Run(DeleteCreate, k.vs, order, Opening(k.available));
    OpenedIsUnderway(k, order, s1);
  }

  lemma OpenedIsUnderway(k: Stock, order: seq<Id>, s: Progress)
    requires Opened(k, order, s) && forall id :: id in order <==> id in k.vs
    ensures Underway(k, s) && Launched(k.vs, s) == {}
  {
    forall id ensures (id in s.add <==> Has(k.vs, id, AddIt)) && (id in s.forceDel <==> Has(k.vs, id, ForceDeleteIt))
      ensures id in s.del <==> Has(k.vs, id, DeleteIt)
    {
      assert OpenedAt(k, order, s, id);
    }
    assert Launched(k.vs, s) == {};
  }

  /** Starting one more change keeps the shape and takes exactly that pod out of the available set. */
  lemma LaunchKeepsUnderway(k: Stock, id: Id, s: Progress)
    requires Sane(k) && Underway(k, s)
    requires id in k.vs && k.vs[id].ChangeIt? && id !in Launched(k.vs, s)
    ensures var next := Launch(k.vs[id].how, id, s);
            && Underway(k, next)
            && Launched(k.vs, next) == Launched(k.vs, s) + {id}
            && next.available == s.available - {id} && next.rolling == s.rolling
  {
    assert id !in s.add && id !in s.forceDel && id !in s.del && id !in s.update;
    var next := Launch(k.vs[id].how, id, s);
    OnceMore(s, next, id);
    assert Launched(k.vs, next) == Launched(k.vs, s) + {id};
    assert s.available - {id} == k.available - Launched(k.vs, next);
  }

  function Min(a: int, b: int): int {
    if a < b then a else b
  }

  function Max(a: int, b: int): int {
    if a < b then b else a
  }

  function Candidates(vs: Verdicts, order: seq<Id>, rolling: bool): set<Id> {
    set id | id in order && IsCandidate(vs, id, rolling)
  }

  /** One visit of the force phase. */
  lemma ForceStep(k: Stock, id: Id, minAvailable: int, s: Progress)
    requires Sane(k) && Underway(k, s) && id !in Launched(k.vs, s)
    ensures var next := Step(ForceUpdate(minAvailable), VerdictAt(k.vs, id), id, s);
            var launch := IsCandidate(k.vs, id, false) && |s.available| > minAvailable;
            && Underway(k, next)
            && Launched(k.vs, next) == (if launch then Launched(k.vs, s) + {id} else Launched(k.vs, s))
            && next.available == (if launch then s.available - {id} else s.available)
            && next.rolling == (if IsCandidate(k.vs, id, true) then s.rolling + [id] else s.rolling)
  {
    var next := Step(ForceUpdate(minAvailable), VerdictAt(k.vs, id), id, s);
    LaunchOrNot(k, id, s, IsCandidate(k.vs, id, false) && |s.available| > minAvailable, next);
  }

  lemma LaunchOrNot(k: Stock, id: Id, s: Progress, launch: bool, next: Progress)
    requires Sane(k) && Underway(k, s) && id !in Launched(k.vs, s) && (launch ==> id in k.vs && k.vs[id].ChangeIt?)
    requires next == if launch then Launch(k.vs[id].how, id, s) else s.(rolling := next.rolling)
    ensures Underway(k, next)
    ensures Launched(k.vs, next) == if launch then Launched(k.vs, s) + {id} else Launched(k.vs, s)
    ensures next.available == if launch then s.available - {id} else s.available
  {
    if launch {
      LaunchKeepsUnderway(k, id, s);
    } else {
      RollingIsFree(k, s, next.rolling);
    }
  }

  lemma RollingIsFree(k: Stock, s: Progress, rolling: seq<Id>)
    requires Underway(k, s)
    ensures Underway(k, s.(rolling := rolling)) && Launched(k.vs, s.(rolling := rolling)) == Launched(k.vs, s)
  {
    assert Tally(s.(rolling := rolling)) == Tally(s);
  }

  /** One visit of the rolling phase. */
  lemma RollingStep(k: Stock, id: Id, minAvailable: int, s: Progress)
    requires Sane(k) && Underway(k, s) && IsCandidate(k.vs, id, true) && id !in Launched(k.vs, s)
    ensures var next := Step(RollingUpdate(minAvailable), VerdictAt(k.vs, id), id, s);
            var launch := id !in s.available || |s.available| > minAvailable;
            && Underway(k, next)
            && Launched(k.vs, next) == (if launch then Launched(k.vs, s) + {id} else Launched(k.vs, s))
            && next.available == (if launch then s.available - {id} else s.available)
  {
    var next := Step(RollingUpdate(minAvailable), VerdictAt(k.vs, id), id, s);
    LaunchOrNot(k, id, s, id !in s.available || |s.available| > minAvailable, next);
  }

  lemma CandidatesSnoc(vs: Verdicts, init: seq<Id>, id: Id, rolling: bool)
    ensures Candidates(vs, init + [id], rolling)
         == Candidates(vs, init, rolling) + if IsCandidate(vs, id, rolling) then {id} else {}
  {
  }

  /** The rolling candidates met so far, each once. */
  ghost predicate Collected(k: Stock, order: seq<Id>, s: Progress) {
    (forall id :: id in s.rolling <==> id in Candidates(k.vs, order, true)) && Distinct(s.rolling)
  }

  /** How much the force phase has spent on `launched` after meeting some candidates. The number of
      available candidates it starts does not depend on the order of the visit, only their choice does. */
  ghost predicate Spent(available: set<Id>, candidates: set<Id>, launched: set<Id>, minAvailable: int) {
    && launched <= candidates
    && |available - launched| == |available| - Min(|candidates * available|, Max(0, |available| - minAvailable))
    && (|available| > minAvailable && candidates != {} ==> launched != {})
    && (|available| <= minAvailable ==> launched == {})
  }

  lemma CardOfMore(available: set<Id>, candidates: set<Id>, id: Id)
    requires id !in candidates
    ensures |(candidates + {id}) * available| == |candidates * available| + if id in available then 1 else 0
  {
    if id in available {
      assert (candidates + {id}) * available == candidates * available + {id};
    } else {
      assert (candidates + {id}) * available == candidates * available;
    }
  }

  lemma CardOfLess(available: set<Id>, launched: set<Id>, id: Id)
    requires id !in launched
    ensures |available - (launched + {id})| == |available - launched| - if id in available then 1 else 0
  {
    if id in available {
      assert available - launched == (available - (launched + {id})) + {id};
    } else {
      assert available - (launched + {id}) == available - launched;
    }
  }

  lemma SpentNumbers(all: nat, candidates: nat, left: int, minAvailable: int, taken: nat)
    requires left == all - Min(candidates, Max(0, all - minAvailable)) && taken <= 1
    ensures (if left > minAvailable then left - taken else left)
         == all - Min(candidates + taken, Max(0, all - minAvailable))
  {
  }

  lemma SpentStep(available: set<Id>, candidates: set<Id>, launched: set<Id>, minAvailable: int, id: Id)
    requires Spent(available, candidates, launched, minAvailable) && id !in candidates
    ensures Spent(available, candidates + {id},
                  if |available - launched| > minAvailable then launched + {id} else launched, minAvailable)
  {
    var left, taken := |available - launched|, if id in available then 1 else 0;
    CardOfMore(available, candidates, id);
    CardOfLess(available, launched, id);
    SpentNumbers(|available|, |candidates * available|, left, minAvailable, taken);
    if left > minAvailable {
      SpentOn(available, candidates + {id}, launched + {id}, minAvailable);
    } else {
      StillSpent(available, candidates, launched, minAvailable, id);
    }
  }

  lemma SpentOn(available: set<Id>, candidates: set<Id>, launched: set<Id>, minAvailable: int)
    requires {} < launched <= candidates && |available| > minAvailable
    requires |available - launched| == |available| - Min(|candidates * available|, Max(0, |available| - minAvailable))
    ensures Spent(available, candidates, launched, minAvailable)
  {
  }

  lemma StillSpent(available: set<Id>, candidates: set<Id>, launched: set<Id>, minAvailable: int, id: Id)
    requires Spent(available, candidates, launched, minAvailable) && |available - launched| <= minAvailable
    requires |available - launched|
          == |available| - Min(|(candidates + {id}) * available|, Max(0, |available| - minAvailable))
    ensures Spent(available, candidates + {id}, launched, minAvailable)
  {
    if launched == {} {
      assert available - launched == available;
    }
  }

  lemma CollectedStep(k: Stock, init: seq<Id>, id: Id, s: Progress, next: Progress)
    requires Collected(k, init, s) && id !in init
    requires next.rolling == if IsCandidate(k.vs, id, true) then s.rolling + [id] else s.rolling
    ensures Collected(k, init + [id], next)
  {
    CandidatesSnoc(k.vs, init, id, true);
  }

  lemma ForceVisit(k: Stock, init: seq<Id>, id: Id, minAvailable: int, s: Progress)
    requires Sane(k) && id !in init
    requires Underway(k, s) && Collected(k, init, s)
    requires Spent(k.available, Candidates(k.vs, init, false), Launched(k.vs, s), minAvailable)
    ensures var next := Step(ForceUpdate(minAvailable), VerdictAt(k.vs, id), id, s);
            && Underway(k, next) && Collected(k, init + [id], next)
            && Spent(k.available, Candidates(k.vs, init + [id], false), Launched(k.vs, next), minAvailable)
  {
    var next := Step(ForceUpdate(minAvailable), VerdictAt(k.vs, id), id, s);
    assert id !in Candidates(k.vs, init, false);
    ForceStep(k, id, minAvailable, s);
    CollectedStep(k, init, id, s, next);
    SpentVisit(k, init, id, minAvailable, Launched(k.vs, s), Launched(k.vs, next));
  }

  lemma SpentVisit(k: Stock, init: seq<Id>, id: Id, minAvailable: int, before: set<Id>, after: set<Id>)
    requires id !in init && Spent(k.available, Candidates(k.vs, init, false), before, minAvailable)
    requires var launch := IsCandidate(k.vs, id, false) && |k.available - before| > minAvailable;
             after == if launch then before + {id} else before
    ensures Spent(k.available, Candidates(k.vs, init + [id], false), after, minAvailable)
  {
    var candidates := Candidates(k.vs, init, false);
    CandidatesSnoc(k.vs, init, id, false);
    if IsCandidate(k.vs, id, false) {
      SpentStep(k.available, candidates, before, minAvailable, id);
    } else {
      assert candidates + {} == candidates;
    }
  }

  lemma SpentNothing(available: set<Id>, minAvailable: int)
    ensures Spent(available, {}, {}, minAvailable)
  {
    assert {} * available == {};
    assert available - {} == available;
  }

  lemma {:induction false} ForcePhase(k: Stock, order: seq<Id>, minAvailable: int, s1: Progress)
    requires Sane(k) && Distinct(order)
    requires Underway(k, s1) && Launched(k.vs, s1) == {} && s1.rolling == []
    ensures var s2 := Run(ForceUpdate(minAvailable), k.vs, order, s1);
            && Underway(k, s2) && Collected(k, order, s2)
            && Spent(k.available, Candidates(k.vs, order, false), Launched(k.vs, s2), minAvailable)
    decreases |order|
  {
    if order == [] {
      assert Candidates(k.vs, order, false) == {};
      SpentNothing(k.available, minAvailable);
    } else {
      var init, id := order[..|order| - 1], order[|order| - 1];
      assert order == init + [id];
      ForcePhase(k, init, minAvailable, s1);
      ForceVisit(k, init, id, minAvailable, Run(ForceUpdate(minAvailable), k.vs, init, s1));
    }
  }

  /** Available ids among the first ones of a list. */
  function AvailableIn(ids: seq<Id>, available: set<Id>): set<Id> {
    set id | id in ids && id in available
  }

  /** Is this candidate of the rolling phase started? */
  predicate Picks(order: seq<Id>, i: nat, available: set<Id>, minAvailable: int)
    requires i < |order|
  {
    order[i] !in available || |AvailableIn(order[..i], available)| < |available| - minAvailable
  }

  predicate PickedRight(order: seq<Id>, i: nat, available: set<Id>, launched: set<Id>, minAvailable: int) {
    i < |order| ==> (order[i] in launched <==> Picks(order, i, available, minAvailable))
  }

  /** What the rolling phase has launched, beyond `base`, after part of its list. */
  ghost predicate Rolled(available: set<Id>, order: seq<Id>, base: set<Id>, launched: set<Id>, minAvailable: int) {
    && base <= launched
    && (forall id :: id in launched ==> id in base || id in order)
    && (forall i: nat :: PickedRight(order, i, available, launched, minAvailable))
    && |available - launched| == |available| - Min(|AvailableIn(order, available)|, Max(0, |available| - minAvailable))
  }

  lemma AvailableInSnoc(init: seq<Id>, id: Id, available: set<Id>)
    requires id !in init
    ensures |AvailableIn(init + [id], available)| == |AvailableIn(init, available)| + if id in available then 1 else 0
  {
    if id in available {
      assert AvailableIn(init + [id], available) == AvailableIn(init, available) + {id};
    } else {
      assert AvailableIn(init + [id], available) == AvailableIn(init, available);
    }
  }

  lemma RolledStep(available: set<Id>, init: seq<Id>, base: set<Id>, launched: set<Id>, minAvailable: int, id: Id)
    requires Rolled(available, init, base, launched, minAvailable) && id !in init && id !in base
    ensures Rolled(available, init + [id], base,
                   if id !in available || |available - launched| > minAvailable then launched + {id} else launched,
                   minAvailable)
  {
    var order := init + [id];
    var next := if id !in available || |available - launched| > minAvailable then launched + {id} else launched;
    AvailableInSnoc(init, id, available);
    CardOfLess(available, launched, id);
    forall i: nat ensures PickedRight(order, i, available, next, minAvailable) {
      if i < |init| {
        assert PickedRight(init, i, available, launched, minAvailable);
        assert order[i] == init[i] != id && order[..i] == init[..i];
      } else if i == |init| {
        assert order[..i] == init;
      }
    }
  }

  lemma RollingVisit(k: Stock, init: seq<Id>, id: Id, minAvailable: int, s2: Progress, s: Progress)
    requires Sane(k) && IsCandidate(k.vs, id, true) && id !in init && id !in Launched(k.vs, s2)
    requires Underway(k, s2) && Underway(k, s)
    requires Rolled(s2.available, init, Launched(k.vs, s2), Launched(k.vs, s), minAvailable)
    ensures var next := Step(RollingUpdate(minAvailable), VerdictAt(k.vs, id), id, s);
            && Underway(k, next)
            && Rolled(s2.available, init + [id], Launched(k.vs, s2), Launched(k.vs, next), minAvailable)
  {
    assert id !in Launched(k.vs, s);
    assert s.available == s2.available - Launched(k.vs, s);
    RollingStep(k, id, minAvailable, s);
    RolledStep(s2.available, init, Launched(k.vs, s2), Launched(k.vs, s), minAvailable, id);
  }

  lemma RolledNothing(available: set<Id>, base: set<Id>, minAvailable: int)
    requires available !! base
    ensures Rolled(available, [], base, base, minAvailable)
  {
    assert AvailableIn([], available) == {};
    assert available - base == available;
  }

  predicate FreshCandidates(k: Stock, order: seq<Id>, s2: Progress) {
    forall i :: 0 <= i < |order| ==> IsCandidate(k.vs, order[i], true) && order[i] !in Launched(k.vs, s2)
  }

  lemma {:induction false} RollingPhase(k: Stock, order: seq<Id>, minAvailable: int, s2: Progress)
    requires Sane(k) && Distinct(order) && Underway(k, s2) && FreshCandidates(k, order, s2)
    ensures var s3 := Run(RollingUpdate(minAvailable), k.vs, order, s2);
            Underway(k, s3) && Rolled(s2.available, order, Launched(k.vs, s2), Launched(k.vs, s3), minAvailable)
    decreases |order|
  {
    if order == [] {
      RolledNothing(s2.available, Launched(k.vs, s2), minAvailable);
    } else {
      var init, id := order[..|order| - 1], order[|order| - 1];
      assert order == init + [id];
      RollingPhase(k, init, minAvailable, s2);
      RollingVisit(k, init, id, minAvailable, s2, Run(RollingUpdate(minAvailable), k.vs, init, s2));
    }
  }

  // ---------------------------------------------------------------- sorting

  predicate Ascending(ids: seq<Id>) {
    forall i, k :: 0 <= i < k < |ids| ==> ValueOrZero(ids[i]) <= ValueOrZero(ids[k])
  }

  lemma {:induction false} InsertAscending(id: Id, sorted: seq<Id>)
    requires Ascending(sorted)
    ensures Ascending(Insert(id, sorted))
    decreases |sorted|
  {
    if sorted != [] && ValueOrZero(id) > ValueOrZero(sorted[0]) {
      InsertAscending(id, sorted[1..]);
      var rest := Insert(id, sorted[1..]);
      forall k | 0 <= k < |rest| ensures ValueOrZero(sorted[0]) <= ValueOrZero(rest[k]) {
        assert rest[k] in multiset(rest);
        assert rest[k] == id || rest[k] in sorted[1..];
      }
    }
  }

  lemma {:induction false} SortAscending(ids: seq<Id>)
    ensures Ascending(SortIds(ids))
    decreases |ids|
  {
    if ids != [] {
      SortAscending(ids[1..]);
      InsertAscending(ids[0], SortIds(ids[1..]));
    }
  }

  lemma CountsOfDistinct(ids: seq<Id>)
    requires Distinct(ids)
    ensures forall id :: multiset(ids)[id] <= 1
  {
    if ids != [] {
      var init, last := ids[..|ids| - 1], ids[|ids| - 1];
      assert ids == init + [last];
      CountsOfDistinct(init);
      assert last !in init;
      assert last !in multiset(init);
    }
  }

  lemma DistinctOfCounts(ids: seq<Id>)
    requires forall id :: multiset(ids)[id] <= 1
    ensures Distinct(ids)
  {
    forall i, k | 0 <= i < k < |ids| ensures ids[i] != ids[k] {
      assert ids == ids[..k] + [ids[k]] + ids[k + 1..];
      assert ids[..k][i] in multiset(ids[..k]);
      assert multiset(ids)[ids[k]] >= multiset(ids[..k])[ids[k]] + 1;
    }
  }

  lemma SortDistinct(ids: seq<Id>)
    requires Distinct(ids)
    ensures Distinct(SortIds(ids))
  {
    CountsOfDistinct(ids);
    DistinctOfCounts(SortIds(ids));
  }
}
