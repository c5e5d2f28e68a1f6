/** The planner's guarantees for whole plans: who is started, how many, in which order, what is left
    available, and that the four lists are a sound partition. */
module Guarantees {
  import opened Decimal
  import opened Model
  import opened Templates
  import opened Instances
  import opened Admission
  import opened Syncer
  import opened Planner
  import opened Transformer
  import opened Selection

  function CandidateSet(vs: Verdicts, rolling: bool): set<Id> {
    set id | id in vs && IsCandidate(vs, id, rolling)
  }

  lemma CandidatesOfOrder(vs: Verdicts, order: seq<Id>, rolling: bool)
    requires IsOrder(vs, order)
    ensures Candidates(vs, order, rolling) == CandidateSet(vs, rolling)
  {
    OrderFacts(vs, order);
  }

  // ---------------------------------------------------------------- the force phase

  lemma AfterForceShape(k: Stock, order1: seq<Id>, order2: seq<Id>, force: Option<int>)
    requires Sane(k) && IsOrder(k.vs, order1) && IsOrder(k.vs, order2)
    ensures var s2 := AfterForce(k, order1, order2, force);
            && Underway(k, s2)
            && Launched(k.vs, s2) <= CandidateSet(k.vs, false)
            && (if force.Some? then Collected(k, order2, s2)
                   && Spent(k.available, CandidateSet(k.vs, false), Launched(k.vs, s2), k.size - force.value)
                else Launched(k.vs, s2) == {})
  {
    if force.Some? {
      AfterForceOf(k, order1, order2, force, k.size - force.value, AfterForce(k, order1, order2, force));
    } else {
      FirstPhase(k, order1);
    }
  }

  lemma AfterForceOf(k: Stock, order1: seq<Id>, order2: seq<Id>, force: Option<int>, minAvailable: int, s2: Progress)
    requires Sane(k) && IsOrder(k.vs, order1) && IsOrder(k.vs, order2)
    requires force.Some? && minAvailable == k.size - force.value && s2 == AfterForce(k, order1, order2, force)
    ensures Underway(k, s2) && Launched(k.vs, s2) <= CandidateSet(k.vs, false) && Collected(k, order2, s2)
    ensures Spent(k.available, CandidateSet(k.vs, false), Launched(k.vs, s2), minAvailable)
  {
    var s1 := Run(DeleteCreate, k.vs, order1, Opening(k.available));
    FirstPhase(k, order1);
    ForceFrom(k, s1, order2, minAvailable);
    ForceIsAfterForce(k, order1, order2, force, minAvailable, s1);
  }

  lemma ForceIsAfterForce(k: Stock, order1: seq<Id>, order2: seq<Id>, force: Option<int>, minAvailable: int,
                          s1: Progress)
    requires force.Some? && minAvailable == k.size - force.value
    requires s1 == Run(DeleteCreate, k.vs, order1, Opening(k.available))
    ensures AfterForce(k, order1, order2, force) == Force(k, s1, order2, minAvailable)
  {
  }

  lemma ForceFrom(k: Stock, s1: Progress, order: seq<Id>, minAvailable: int)
    requires Sane(k) && IsOrder(k.vs, order) && Underway(k, s1) && Launched(k.vs, s1) == {} && s1.rolling == []
    ensures var s2 := Force(k, s1, order, minAvailable);
            && Underway(k, s2) && Collected(k, order, s2)
            && Spent(k.available, CandidateSet(k.vs, false), Launched(k.vs, s2), minAvailable)
  {
    OrderFacts(k.vs, order);
    ForcePhase(k, order, minAvailable, s1);
    CandidatesOfOrder(k.vs, order, false);
  }

  /** However the map is visited, the force phase starts the same number of available candidates: all of
      them, or as many as the available pods exceed the minimum. When every candidate is available that
      is the number of pods it starts. */
  lemma ExactForceCount(k: Stock, order1: seq<Id>, order2: seq<Id>, budget: int)
    requires Sane(k) && IsOrder(k.vs, order1) && IsOrder(k.vs, order2)
    ensures var started := Launched(k.vs, AfterForce(k, order1, order2, Some(budget)));
            var candidates := CandidateSet(k.vs, false);
            var spare := Max(0, |k.available| - (k.size - budget));
            && started <= candidates
            && |started * k.available| == Min(|candidates * k.available|, spare)
            && (candidates <= k.available ==> |started| == Min(|candidates|, spare))
  {
    AfterForceShape(k, order1, order2, Some(budget));
    var started := Launched(k.vs, AfterForce(k, order1, order2, Some(budget)));
    var candidates := CandidateSet(k.vs, false);
    CardOfSplit(k.available, started);
    if candidates <= k.available {
      assert started * k.available == started && candidates * k.available == candidates;
    }
  }

  lemma CardOfSplit(a: set<Id>, b: set<Id>)
    ensures |a| == |a - b| + |b * a|
  {
    assert a == (a - b) + (b * a);
  }

  // ---------------------------------------------------------------- the rolling phase

  /** The available candidates with a smaller number. */
  function LowerAvailable(vs: Verdicts, available: set<Id>, id: Id): set<Id> {
    set c | c in CandidateSet(vs, true) && c in available && ValueOrZero(c) < ValueOrZero(id)
  }

  ghost predicate SameMembers(ids: seq<Id>, all: set<Id>) {
    forall id :: id in ids <==> id in all
  }

  lemma RollingOrder(k: Stock, order1: seq<Id>, order2: seq<Id>, force: Option<int>)
    requires Sane(k) && IsOrder(k.vs, order1) && IsOrder(k.vs, order2) && force.Some?
    ensures var s2 := AfterForce(k, order1, order2, force);
            var sorted := SortIds(s2.rolling);
            && Underway(k, s2) && Distinct(sorted) && FreshCandidates(k, sorted, s2)
            && SameMembers(sorted, CandidateSet(k.vs, true))
  {
    var s2 := AfterForce(k, order1, order2, force);
    AfterForceShape(k, order1, order2, force);
    SortDistinct(s2.rolling);
    SortedMembers(s2.rolling);
    CandidatesOfOrder(k.vs, order2, true);
    var sorted := SortIds(s2.rolling);
    forall i | 0 <= i < |sorted| ensures IsCandidate(k.vs, sorted[i], true) && sorted[i] !in Launched(k.vs, s2) {
      assert sorted[i] in s2.rolling;
    }
  }

  lemma LowerAvailableIsPrefix(k: Stock, sorted: seq<Id>, available: set<Id>, i: nat)
    requires Numbered(k.vs) && i < |sorted| && Distinct(sorted) && Ascending(sorted)
    requires SameMembers(sorted, CandidateSet(k.vs, true))
    ensures LowerAvailable(k.vs, available, sorted[i]) == AvailableIn(sorted[..i], available)
  {
    forall m | 0 <= m < |sorted| ensures ValueOrZero(sorted[m]) < ValueOrZero(sorted[i]) <==> m < i {
      assert sorted[m] in sorted && sorted[i] in sorted;
      if m != i {
        assert sorted[m] != sorted[i];
      }
    }
    forall c ensures c in LowerAvailable(k.vs, available, sorted[i]) <==> c in AvailableIn(sorted[..i], available) {
      if c in sorted {
        var m :| 0 <= m < |sorted| && sorted[m] == c;
        assert m < i ==> sorted[..i][m] == c;
      }
    }
  }

  lemma RolledExactly(k: Stock, sorted: seq<Id>, available: set<Id>, base: set<Id>, launched: set<Id>,
                      minAvailable: int, id: Id)
    requires Numbered(k.vs) && Distinct(sorted) && Ascending(sorted) && SameMembers(sorted, CandidateSet(k.vs, true))
    requires Rolled(available, sorted, base, launched, minAvailable) && base !! CandidateSet(k.vs, true)
    ensures id in launched - base <==>
              id in CandidateSet(k.vs, true)
              && (id !in available || |LowerAvailable(k.vs, available, id)| < |available| - minAvailable)
  {
    if id in sorted {
      var i :| 0 <= i < |sorted| && sorted[i] == id;
      LowerAvailableIsPrefix(k, sorted, available, i);
      assert PickedRight(sorted, i, available, launched, minAvailable);
    }
  }

  lemma ForceMissesRolling(k: Stock, launched: set<Id>)
    requires launched <= CandidateSet(k.vs, false)
    ensures launched !! CandidateSet(k.vs, true)
  {
  }

  lemma SpendIsRolling(k: Stock, order1: seq<Id>, order2: seq<Id>, force: int, rolling: int, minAvailable: int,
                       s2: Progress, sorted: seq<Id>, s3: Progress)
    requires Sane(k) && IsOrder(k.vs, order1) && IsOrder(k.vs, order2)
    requires s2 == AfterForce(k, order1, order2, Some(force)) && sorted == SortIds(s2.rolling)
    requires s3 == Spend(k, order1, order2, Some(force), Some(rolling)) && minAvailable == k.size - rolling
    ensures Underway(k, s3)
    ensures Rolled(s2.available, sorted, Launched(k.vs, s2), Launched(k.vs, s3), minAvailable)
  {
    RollIsSpend(k, order1, order2, Some(force), Some(rolling), minAvailable, s2);
    RollingOrder(k, order1, order2, Some(force));
    RollFrom(k, s2, s3, sorted, minAvailable);
  }

  lemma RollFrom(k: Stock, s2: Progress, s3: Progress, sorted: seq<Id>, minAvailable: int)
    requires Sane(k) && Distinct(sorted) && Underway(k, s2) && FreshCandidates(k, sorted, s2)
    requires sorted == SortIds(s2.rolling) && s3 == Roll(k, s2, minAvailable)
    ensures Underway(k, s3) && Rolled(s2.available, sorted, Launched(k.vs, s2), Launched(k.vs, s3), minAvailable)
  {
    RollingPhase(k, sorted, minAvailable, s2);
  }

  /** The rolling phase starts every unavailable candidate and, of the available ones, exactly those with
      fewer lower-numbered available candidates than the budget leaves room for, by numeric order. */
  lemma ExactRollingSelection(k: Stock, order1: seq<Id>, order2: seq<Id>, force: int, rolling: int, id: Id)
    requires Sane(k) && Numbered(k.vs) && IsOrder(k.vs, order1) && IsOrder(k.vs, order2)
    ensures var s2 := AfterForce(k, order1, order2, Some(force));
            var s3 := Spend(k, order1, order2, Some(force), Some(rolling));
            id in Launched(k.vs, s3) - Launched(k.vs, s2) <==>
              id in CandidateSet(k.vs, true)
              && (id !in s2.available
                  || |LowerAvailable(k.vs, s2.available, id)| < |s2.available| - (k.size - rolling))
  {
    var s2 := AfterForce(k, order1, order2, Some(force));
    AfterForceShape(k, order1, order2, Some(force));
    ForceMissesRolling(k, Launched(k.vs, s2));
    RollingOrder(k, order1, order2, Some(force));
    var sorted, minAvailable := SortIds(s2.rolling), k.size - rolling;
    var s3 := Spend(k, order1, order2, Some(force), Some(rolling));
    SpendIsRolling(k, order1, order2, force, rolling, minAvailable, s2, sorted, s3);
    SortAscending(s2.rolling);
    RolledExactly(k, sorted, s2.available, Launched(k.vs, s2), Launched(k.vs, s3), minAvailable, id);
  }

  /** And so the number of available candidates it starts is all of them, or what the budget leaves. */
  lemma ExactRollingCount(k: Stock, order1: seq<Id>, order2: seq<Id>, force: int, rolling: int)
    requires Sane(k) && IsOrder(k.vs, order1) && IsOrder(k.vs, order2)
    ensures var s2 := AfterForce(k, order1, order2, Some(force));
            var s3 := Spend(k, order1, order2, Some(force), Some(rolling));
            |Launched(k.vs, s3) * s2.available| == Min(|CandidateSet(k.vs, true) * s2.available|,
                                                       Max(0, |s2.available| - (k.size - rolling)))
  {
    var s2, s3 := AfterForce(k, order1, order2, Some(force)), Spend(k, order1, order2, Some(force), Some(rolling));
    var sorted, minAvailable := SortIds(s2.rolling), k.size - rolling;
    RollingOrder(k, order1, order2, Some(force));
    SpendIsRolling(k, order1, order2, force, rolling, minAvailable, s2, sorted, s3);
    RolledCount(s2.available, sorted, Launched(k.vs, s2), Launched(k.vs, s3), minAvailable, CandidateSet(k.vs, true));
  }

  lemma RolledCount(available: set<Id>, sorted: seq<Id>, base: set<Id>, launched: set<Id>, minAvailable: int,
                    candidates: set<Id>)
    requires Rolled(available, sorted, base, launched, minAvailable) && SameMembers(sorted, candidates)
    ensures |launched * available| == Min(|candidates * available|, Max(0, |available| - minAvailable))
  {
    CardOfSplit(available, launched);
    assert AvailableIn(sorted, available) == candidates * available;
  }

  /** Of the pods that are available, as many due ones begin as there are, or as the minimum leaves. */
  ghost predicate StartsWithinBudget(available: set<Id>, due: set<Id>, begun: set<Id>, minAvailable: int) {
    && begun <= due
    && |begun * available| == Min(|due * available|, Max(0, |available| - minAvailable))
  }

  /** The available due ones with a smaller number. */
  function DueBefore(due: set<Id>, available: set<Id>, id: Id): set<Id> {
    set x | x in due && x in available && ValueOrZero(x) < ValueOrZero(id)
  }

  /** Which due ones begin: the unavailable ones, and of the others those with the lowest numbers. */
  ghost predicate BeginsLowest(available: set<Id>, due: set<Id>, begun: set<Id>, minAvailable: int) {
    forall id :: id in begun <==> Begins(due, available, id, minAvailable)
  }

  predicate Begins(due: set<Id>, available: set<Id>, id: Id, minAvailable: int) {
    id in due && (id !in available || |DueBefore(due, available, id)| < |available| - minAvailable)
  }

  /** Both budgets: `forced` out of `others` against one minimum, then `rolled` out of `due` against another. */
  ghost predicate SpentExactly(available: set<Id>, others: set<Id>, due: set<Id>, forced: set<Id>, rolled: set<Id>,
                               minForced: int, minRolled: int) {
    && StartsWithinBudget(available, others, forced, minForced)
    && StartsWithinBudget(available - forced, due, rolled, minRolled)
    && BeginsLowest(available - forced, due, rolled, minRolled)
  }

  lemma ForcedPhase(k: Stock, order1: seq<Id>, order2: seq<Id>, force: int, minAvailable: int, s2: Progress)
    requires Sane(k) && IsOrder(k.vs, order1) && IsOrder(k.vs, order2) && minAvailable == k.size - force
    requires s2 == AfterForce(k, order1, order2, Some(force))
    ensures StartsWithinBudget(k.available, CandidateSet(k.vs, false), Launched(k.vs, s2), minAvailable)
    ensures s2.available == k.available - Launched(k.vs, s2)
  {
    ExactForceCount(k, order1, order2, force);
    AfterForceShape(k, order1, order2, Some(force));
  }

  lemma RolledPhase(k: Stock, order1: seq<Id>, order2: seq<Id>, force: int, rolling: int, minAvailable: int,
                    left: set<Id>, forced: set<Id>, launched: set<Id>)
    requires Sane(k) && Numbered(k.vs) && IsOrder(k.vs, order1) && IsOrder(k.vs, order2)
    requires minAvailable == k.size - rolling && left == AfterForce(k, order1, order2, Some(force)).available
    requires forced == Launched(k.vs, AfterForce(k, order1, order2, Some(force))) && left !! forced
    requires launched == Launched(k.vs, Spend(k, order1, order2, Some(force), Some(rolling)))
    ensures BeginsLowest(left, CandidateSet(k.vs, true), launched - forced, minAvailable)
    ensures StartsWithinBudget(left, CandidateSet(k.vs, true), launched - forced, minAvailable)
  {
    var due := CandidateSet(k.vs, true);
    forall id ensures id in launched - forced <==> Begins(due, left, id, minAvailable) {
      RolledOne(k, order1, order2, force, rolling, minAvailable, left, id);
    }
    ExactRollingCount(k, order1, order2, force, rolling);
    assert (launched - forced) * left == launched * left;
  }

  lemma RolledOne(k: Stock, order1: seq<Id>, order2: seq<Id>, force: int, rolling: int, minAvailable: int,
                  left: set<Id>, id: Id)
    requires Sane(k) && Numbered(k.vs) && IsOrder(k.vs, order1) && IsOrder(k.vs, order2)
    requires minAvailable == k.size - rolling && left == AfterForce(k, order1, order2, Some(force)).available
    ensures id in Launched(k.vs, Spend(k, order1, order2, Some(force), Some(rolling)))
                  - Launched(k.vs, AfterForce(k, order1, order2, Some(force)))
       <==> Begins(CandidateSet(k.vs, true), left, id, minAvailable)
  {
    ExactRollingSelection(k, order1, order2, force, rolling, id);
    assert LowerAvailable(k.vs, left, id) == DueBefore(CandidateSet(k.vs, true), left, id);
  }

  /** The two phases of a whole plan, whatever the orders. */
  lemma BothPhases(k: Stock, order1: seq<Id>, order2: seq<Id>, force: int, rolling: int, minForced: int, minRolled: int)
    returns (forced: set<Id>, rolled: set<Id>)
    requires Sane(k) && Numbered(k.vs) && IsOrder(k.vs, order1) && IsOrder(k.vs, order2)
    requires minForced == k.size - force && minRolled == k.size - rolling
    ensures Launched(k.vs, Spend(k, order1, order2, Some(force), Some(rolling))) == forced + rolled && forced !! rolled
    ensures SpentExactly(k.available, CandidateSet(k.vs, false), CandidateSet(k.vs, true), forced, rolled,
                         minForced, minRolled)
  {
    var s2 := AfterForce(k, order1, order2, Some(force));
    var launched := Launched(k.vs, Spend(k, order1, order2, Some(force), Some(rolling)));
    forced := Launched(k.vs, s2);
    ForcedPhase(k, order1, order2, force, minForced, s2);
    RolledPhase(k, order1, order2, force, rolling, minRolled, s2.available, forced, launched);
    LaunchedGrows(k, order1, order2, force, rolling, minRolled, forced, launched);
    rolled := launched - forced;
  }

  lemma LaunchedGrows(k: Stock, order1: seq<Id>, order2: seq<Id>, force: int, rolling: int, minRolled: int,
                      forced: set<Id>, launched: set<Id>)
    requires Sane(k) && IsOrder(k.vs, order1) && IsOrder(k.vs, order2) && minRolled == k.size - rolling
    requires forced == Launched(k.vs, AfterForce(k, order1, order2, Some(force)))
    requires launched == Launched(k.vs, Spend(k, order1, order2, Some(force), Some(rolling)))
    ensures forced <= launched && launched == forced + (launched - forced)
  {
    var s2 := AfterForce(k, order1, order2, Some(force));
    SpendIsRolling(k, order1, order2, force, rolling, minRolled, s2, SortIds(s2.rolling),
                   Spend(k, order1, order2, Some(force), Some(rolling)));
  }

  lemma SpendShape(k: Stock, order1: seq<Id>, order2: seq<Id>, force: Option<int>, rolling: Option<int>)
    requires Sane(k) && IsOrder(k.vs, order1) && IsOrder(k.vs, order2)
    ensures Underway(k, Spend(k, order1, order2, force, rolling))
  {
    AfterForceShape(k, order1, order2, force);
    var s2 := AfterForce(k, order1, order2, force);
    if force.Some? && rolling.Some? {
      SpendIsRolling(k, order1, order2, force.value, rolling.value, k.size - rolling.value, s2, SortIds(s2.rolling),
          Spend(k, order1, order2, force, rolling));
    }
  }

  // ---------------------------------------------------------------- floor and progress

  lemma SpentKeepsFloor(available: set<Id>, candidates: set<Id>, launched: set<Id>, minAvailable: int, floor: int)
    requires Spent(available, candidates, launched, minAvailable) && floor <= |available| && floor <= minAvailable
    ensures |available - launched| >= floor
  {
  }

  lemma RolledKeepsFloor(available: set<Id>, order: seq<Id>, base: set<Id>, launched: set<Id>, minAvailable: int,
                         floor: int)
    requires Rolled(available, order, base, launched, minAvailable) && floor <= |available| && floor <= minAvailable
    ensures |available - launched| >= floor
  {
  }

  lemma ForceKeepsFloor(k: Stock, order1: seq<Id>, order2: seq<Id>, force: Option<int>, floor: int)
    requires Sane(k) && IsOrder(k.vs, order1) && IsOrder(k.vs, order2)
    requires floor <= |k.available| && (force.Some? ==> floor <= k.size - force.value)
    ensures |AfterForce(k, order1, order2, force).available| >= floor
  {
    AfterForceShape(k, order1, order2, force);
    var launched := Launched(k.vs, AfterForce(k, order1, order2, force));
    if force.Some? {
      var minAvailable := k.size - force.value;
      SpentKeepsFloor(k.available, CandidateSet(k.vs, false), launched, minAvailable, floor);
    } else {
      assert k.available - launched == k.available;
    }
  }

  lemma RollingKeepsFloor(k: Stock, s2: Progress, s3: Progress, sorted: seq<Id>, minAvailable: int, floor: int)
    requires Underway(k, s2) && Underway(k, s3)
    requires Rolled(s2.available, sorted, Launched(k.vs, s2), Launched(k.vs, s3), minAvailable)
    requires floor <= |s2.available| && floor <= minAvailable
    ensures |s3.available| >= floor
  {
    RolledKeepsFloor(s2.available, sorted, Launched(k.vs, s2), Launched(k.vs, s3), minAvailable, floor);
    TakenTwice(k.available, Launched(k.vs, s2), Launched(k.vs, s3));
  }

  lemma TakenTwice(available: set<Id>, some: set<Id>, more: set<Id>)
    requires some <= more
    ensures (available - some) - more == available - more
  {
  }

  /** A plan leaves available what it found, or no less than either phase's minimum. */
  lemma PlanKeepsFloor(k: Stock, order1: seq<Id>, order2: seq<Id>, force: Option<int>, rolling: Option<int>, floor: int)
    requires Sane(k) && IsOrder(k.vs, order1) && IsOrder(k.vs, order2)
    requires floor <= |k.available|
    requires force.Some? ==> floor <= k.size - force.value
    requires rolling.Some? ==> floor <= k.size - rolling.value
    ensures |Spend(k, order1, order2, force, rolling).available| >= floor
  {
    ForceKeepsFloor(k, order1, order2, force, floor);
    if force.Some? && rolling.Some? {
      AfterForceShape(k, order1, order2, force);
      var s2, s3 := AfterForce(k, order1, order2, force), Spend(k, order1, order2, force, rolling);
      var sorted, minAvailable := SortIds(s2.rolling), k.size - rolling.value;
      SpendIsRolling(k, order1, order2, force.value, rolling.value, minAvailable, s2, sorted, s3);
      RollingKeepsFloor(k, s2, s3, sorted, minAvailable, floor);
    }
  }

  /** With every desired pod available and both budgets at least one, a pending change is started. */
  lemma PendingChangeStarts(k: Stock, order1: seq<Id>, order2: seq<Id>, force: int, rolling: int)
    requires Sane(k) && IsOrder(k.vs, order1) && IsOrder(k.vs, order2)
    requires |k.available| == k.size && force >= 1 && rolling >= 1
    requires CandidateSet(k.vs, false) + CandidateSet(k.vs, true) != {}
    ensures Launched(k.vs, Spend(k, order1, order2, Some(force), Some(rolling))) != {}
  {
    AfterForceShape(k, order1, order2, Some(force));
    var s2, s3 := AfterForce(k, order1, order2, Some(force)), Spend(k, order1, order2, Some(force), Some(rolling));
    var sorted, minAvailable := SortIds(s2.rolling), k.size - rolling;
    SpendIsRolling(k, order1, order2, force, rolling, minAvailable, s2, sorted, s3);
    if CandidateSet(k.vs, false) == {} {
      RollingOrder(k, order1, order2, Some(force));
      var id :| id in CandidateSet(k.vs, true);
      assert id in sorted;
      assert s2.available == k.available;
      RolledFirst(s2.available, sorted, Launched(k.vs, s2), Launched(k.vs, s3), minAvailable);
    }
  }

  lemma RolledFirst(available: set<Id>, sorted: seq<Id>, base: set<Id>, launched: set<Id>, minAvailable: int)
    requires Rolled(available, sorted, base, launched, minAvailable) && sorted != [] && |available| > minAvailable
    ensures sorted[0] in launched
  {
    assert AvailableIn(sorted[..0], available) == {};
    assert PickedRight(sorted, 0, available, launched, minAvailable);
  }

  // ---------------------------------------------------------------- the partition

  ghost function IdsOf(s: Progress): seq<Id> {
    s.add + s.del + s.forceDel + s.update
  }

  /** What the verdicts promise of a planned id. */
  lemma PlannedIdFits(j: Job, s: Progress, id: Id)
    requires Backed(j) && AllFit(j) && Underway(StockOf(j), s)
    ensures id in s.add ==> id in j.running && id !in j.podMap && NewPod(j.t, id).Some?
    ensures id in s.del ==> id in j.podMap && !j.podMap[id].dying
    ensures id in s.forceDel ==> id in j.podMap && j.podMap[id].dying
    ensures id in s.update ==> id in j.running && id in j.podMap && !j.podMap[id].dying && NewPod(j.t, id).Some?
  {
    var vs := VerdictsOf(j);
    if id in vs {
      assert vs[id] == VerdictOf(j, id);
      assert VerdictFits(j, id, vs[id]);
    }
  }

  lemma UnderwayIsBuildable(j: Job, s: Progress)
    requires Backed(j) && AllFit(j) && Underway(StockOf(j), s)
    ensures Buildable(j, s)
  {
    forall i | 0 <= i < |s.add| ensures NewPod(j.t, s.add[i]).Some? { PlannedIdFits(j, s, s.add[i]); }
    forall i | 0 <= i < |s.update| ensures NewPod(j.t, s.update[i]).Some? { PlannedIdFits(j, s, s.update[i]); }
    forall i | 0 <= i < |s.del| ensures s.del[i] in j.podMap { PlannedIdFits(j, s, s.del[i]); }
    forall i | 0 <= i < |s.forceDel| ensures s.forceDel[i] in j.podMap { PlannedIdFits(j, s, s.forceDel[i]); }
  }

  lemma OncePlanIsDistinct(j: Job, s: Progress)
    requires Buildable(j, s) && Once(s)
    ensures DistinctIds(AllInstances(PlanOf(j, s)))
  {
    assert multiset(IdsOf(s)) == Tally(s);
    DistinctOfCounts(IdsOf(s));
    var all := AllInstances(PlanOf(j, s));
    assert forall i :: 0 <= i < |all| ==> all[i].id == IdsOf(s)[i];
  }

  /** The steps every plan goes through, for reuse on the store. */
  lemma PlanShape(deleteAfterFinish: bool, h: Hasher, t: TApp, nodes: NodeStore, podMap: map<Id, Pod>, plan: Plan)
    returns (s: Progress, order1: seq<Id>, order2: seq<Id>)
    requires IsPlan(JobOf(deleteAfterFinish, h, t, nodes, podMap), plan)
    ensures var j := JobOf(deleteAfterFinish, h, t, nodes, podMap);
            && Backed(j) && AllFit(j) && Sane(StockOf(j)) && IsOrder(VerdictsOf(j), order1)
            && IsOrder(VerdictsOf(j), order2)
            && s == Transform(j, order1, order2) && Underway(StockOf(j), s) && Buildable(j, s) && plan == PlanOf(j, s)
            && DistinctIds(AllInstances(plan))
  {
    var j := JobOf(deleteAfterFinish, h, t, nodes, podMap);
    JobFits(deleteAfterFinish, h, t, nodes, podMap);
    JobIsSane(deleteAfterFinish, h, t, nodes, podMap);
    order1, order2 :| IsOrder(VerdictsOf(j), order1) && IsOrder(VerdictsOf(j), order2)
      && Buildable(j, Transform(j, order1, order2)) && plan == PlanOf(j, Transform(j, order1, order2));
    s := Transform(j, order1, order2);
    SpendShape(StockOf(j), order1, order2, ForceBudget(j.t.spec, |j.running|), RollingBudget(j.t.spec, |j.running|));
    OncePlanIsDistinct(j, s);
  }

  /** Whatever the orders, a plan exists for every job. */
  lemma TransformIsPlan(deleteAfterFinish: bool, h: Hasher, t: TApp, nodes: NodeStore, podMap: map<Id, Pod>,
                        order1: seq<Id>, order2: seq<Id>)
    requires Backed(JobOf(deleteAfterFinish, h, t, nodes, podMap))
    requires var j := JobOf(deleteAfterFinish, h, t, nodes, podMap);
             IsOrder(VerdictsOf(j), order1) && IsOrder(VerdictsOf(j), order2)
    ensures var j := JobOf(deleteAfterFinish, h, t, nodes, podMap);
            var s := Transform(j, order1, order2);
            Buildable(j, s) && IsPlan(j, PlanOf(j, s))
  {
    var j := JobOf(deleteAfterFinish, h, t, nodes, podMap);
    JobFits(deleteAfterFinish, h, t, nodes, podMap);
    JobIsSane(deleteAfterFinish, h, t, nodes, podMap);
    SpendShape(StockOf(j), order1, order2, ForceBudget(j.t.spec, |j.running|), RollingBudget(j.t.spec, |j.running|));
    UnderwayIsBuildable(j, Transform(j, order1, order2));
  }

  /** The four lists never share or repeat an id; creates are for missing pods of the desired set, the
      others for existing pods; only dying pods are force-deleted and no dying pod is deleted or updated;
      and every living pod that is completed or numerically beyond the replicas is deleted. */
  lemma SoundPartition(deleteAfterFinish: bool, h: Hasher, t: TApp, nodes: NodeStore, podMap: map<Id, Pod>, plan: Plan)
    requires IsPlan(JobOf(deleteAfterFinish, h, t, nodes, podMap), plan)
    ensures DistinctIds(AllInstances(plan))
    ensures forall i :: 0 <= i < |plan.add| ==>
              plan.add[i].id !in podMap && plan.add[i].id in DesiredRunning(deleteAfterFinish, t)
              && NewPod(Hashed(h, t), plan.add[i].id) == Some(plan.add[i].pod)
    ensures forall i :: 0 <= i < |plan.del| ==>
              plan.del[i].id in podMap && plan.del[i].pod == podMap[plan.del[i].id] && !plan.del[i].pod.dying
    ensures forall i :: 0 <= i < |plan.forceDel| ==>
              plan.forceDel[i].id in podMap && plan.forceDel[i].pod == podMap[plan.forceDel[i].id]
                  && plan.forceDel[i].pod.dying
    ensures forall i :: 0 <= i < |plan.update| ==>
              plan.update[i].id in podMap && !podMap[plan.update[i].id].dying
              && plan.update[i].id in DesiredRunning(deleteAfterFinish, t)
              && NewPod(Hashed(h, t), plan.update[i].id).Some?
              && plan.update[i].pod == MarkUpdating(NewPod(Hashed(h, t), plan.update[i].id).value)
    ensures forall id :: IsUnwanted(deleteAfterFinish, t, podMap, id) ==> Mentions(plan.del, id)
  {
    var s, _, _ := PlanShape(deleteAfterFinish, h, t, nodes, podMap, plan);
    HashKeepsDesired(deleteAfterFinish, h, t);
    PlanFits(JobOf(deleteAfterFinish, h, t, nodes, podMap), s, plan);
    UnwantedAreDeleted(deleteAfterFinish, h, t, nodes, podMap, s);
  }

  lemma UnwantedAreDeleted(deleteAfterFinish: bool, h: Hasher, t: TApp, nodes: NodeStore, podMap: map<Id, Pod>,
                           s: Progress)
    requires var j := JobOf(deleteAfterFinish, h, t, nodes, podMap);
             Backed(j) && Underway(StockOf(j), s) && Buildable(j, s)
    ensures var plan := PlanOf(JobOf(deleteAfterFinish, h, t, nodes, podMap), s);
            forall id :: IsUnwanted(deleteAfterFinish, t, podMap, id) ==> Mentions(plan.del, id)
  {
    var j := JobOf(deleteAfterFinish, h, t, nodes, podMap);
    forall id | IsUnwanted(deleteAfterFinish, t, podMap, id) ensures Mentions(PlanOf(j, s).del, id) {
      UnwantedIsDeleted(deleteAfterFinish, h, t, nodes, podMap, id);
      PlannedDeletes(j, s, id);
    }
  }

  lemma UnwantedIsMentioned(deleteAfterFinish: bool, h: Hasher, t: TApp, nodes: NodeStore, podMap: map<Id, Pod>,
                            plan: Plan, id: Id)
    requires IsPlan(JobOf(deleteAfterFinish, h, t, nodes, podMap), plan)
    requires IsUnwanted(deleteAfterFinish, t, podMap, id)
    ensures Mentions(plan.del, id)
  {
    var s, _, _ := PlanShape(deleteAfterFinish, h, t, nodes, podMap, plan);
    UnwantedAreDeleted(deleteAfterFinish, h, t, nodes, podMap, s);
  }

  /** The planned instances carry what their verdicts promise. */
  lemma PlanFits(j: Job, s: Progress, plan: Plan)
    requires Backed(j) && AllFit(j) && Underway(StockOf(j), s) && Buildable(j, s) && plan == PlanOf(j, s)
    ensures forall i :: 0 <= i < |plan.add| ==>
              plan.add[i].id !in j.podMap && plan.add[i].id in j.running
                  && NewPod(j.t, plan.add[i].id) == Some(plan.add[i].pod)
    ensures forall i :: 0 <= i < |plan.del| ==>
              plan.del[i].id in j.podMap && plan.del[i].pod == j.podMap[plan.del[i].id] && !plan.del[i].pod.dying
    ensures forall i :: 0 <= i < |plan.forceDel| ==>
              plan.forceDel[i].id in j.podMap && plan.forceDel[i].pod == j.podMap[plan.forceDel[i].id]
                  && plan.forceDel[i].pod.dying
    ensures forall i :: 0 <= i < |plan.update| ==>
              plan.update[i].id in j.podMap && !j.podMap[plan.update[i].id].dying && plan.update[i].id in j.running
              && NewPod(j.t, plan.update[i].id).Some?
              && plan.update[i].pod == MarkUpdating(NewPod(j.t, plan.update[i].id).value)
  {
    forall i | 0 <= i < |plan.add|
      ensures plan.add[i].id !in j.podMap && plan.add[i].id in j.running
          && NewPod(j.t, plan.add[i].id) == Some(plan.add[i].pod)
    {
      PlannedIdFits(j, s, s.add[i]);
    }
    forall i | 0 <= i < |plan.del| ensures plan.del[i].id in j.podMap && !j.podMap[plan.del[i].id].dying {
      PlannedIdFits(j, s, s.del[i]);
    }
    forall i | 0 <= i < |plan.forceDel| ensures plan.forceDel[i].id in j.podMap && j.podMap[plan.forceDel[i].id].dying {
      PlannedIdFits(j, s, s.forceDel[i]);
    }
    forall i | 0 <= i < |plan.update|
      ensures plan.update[i].id in j.podMap && !j.podMap[plan.update[i].id].dying && plan.update[i].id in j.running
    {
      PlannedIdFits(j, s, s.update[i]);
    }
  }

  /** A living pod of a completed instance, or one numerically beyond the replicas. */
  predicate IsUnwanted(deleteAfterFinish: bool, t: TApp, podMap: map<Id, Pod>, id: Id) {
    id in podMap && !podMap[id].dying
    && (id in DesiredCompleted(deleteAfterFinish, t) || IsBeyond(id, t.spec.replicas))
  }

  lemma PlannedDeletes(j: Job, s: Progress, id: Id)
    requires Backed(j) && Underway(StockOf(j), s) && Buildable(j, s)
    requires id in j.actions && VerdictOf(j, id) == DeleteIt
    ensures Mentions(PlanOf(j, s).del, id)
  {
    assert Has(VerdictsOf(j), id, DeleteIt);
    var i :| 0 <= i < |s.del| && s.del[i] == id;
    assert PlanOf(j, s).del[i].id == id;
  }

  lemma UnwantedIsDeleted(deleteAfterFinish: bool, h: Hasher, t: TApp, nodes: NodeStore, podMap: map<Id, Pod>, id: Id)
    requires id in podMap && (id in DesiredCompleted(deleteAfterFinish, t) || IsBeyond(id, t.spec.replicas))
    ensures var j := JobOf(deleteAfterFinish, h, t, nodes, podMap);
            && Backed(j) && id !in j.running && id in j.actions && j.actions[id] == DeletePod
            && (!podMap[id].dying ==> VerdictOf(j, id) == DeleteIt)
  {
    JobBacked(deleteAfterFinish, h, t, nodes, podMap);
    NextActionsAt(deleteAfterFinish, Hashed(h, t), podMap, id);
    HashKeepsDesired(deleteAfterFinish, h, t);
  }

  // ---------------------------------------------------------------- the guarantees for a sync

  /** The force phase of a sync, for every order: with readable budget v and n desired pods, the started
      force candidates that were available number the lesser of all such candidates and what the
      available pods exceed n - v by. */
  lemma ForceCountOfSync(deleteAfterFinish: bool, h: Hasher, t: TApp, nodes: NodeStore, podMap: map<Id, Pod>,
                         order1: seq<Id>, order2: seq<Id>, v: int)
    requires var j := JobOf(deleteAfterFinish, h, t, nodes, podMap);
             && Backed(j) && IsOrder(VerdictsOf(j), order1) && IsOrder(VerdictsOf(j), order2)
             && ForceBudget(j.t.spec, |j.running|) == Some(v)
    ensures var j := JobOf(deleteAfterFinish, h, t, nodes, podMap);
            var started := Launched(VerdictsOf(j), AfterForce(StockOf(j), order1, order2, Some(v)));
            var available, candidates := AvailablePods(podMap, j.running), CandidateSet(VerdictsOf(j), false);
            var spare := Max(0, |available| - (|j.running| - v));
            && started <= candidates
            && |started * available| == Min(|candidates * available|, spare)
            && (candidates <= available ==> |started| == Min(|candidates|, spare))
  {
    JobIsSane(deleteAfterFinish, h, t, nodes, podMap);
    ExactForceCount(StockOf(JobOf(deleteAfterFinish, h, t, nodes, podMap)), order1, order2, v);
  }

  /** The rolling phase of a sync, for every order: who is started, by availability and numeric order. */
  lemma RollingSelectionOfSync(deleteAfterFinish: bool, h: Hasher, t: TApp, nodes: NodeStore, podMap: map<Id, Pod>,
                               order1: seq<Id>, order2: seq<Id>, force: int, rolling: int, id: Id)
    requires var j := JobOf(deleteAfterFinish, h, t, nodes, podMap);
             && Backed(j) && IsOrder(VerdictsOf(j), order1) && IsOrder(VerdictsOf(j), order2)
             && ForceBudget(j.t.spec, |j.running|) == Some(force)
             && RollingBudget(j.t.spec, |j.running|) == Some(rolling)
    ensures var j := JobOf(deleteAfterFinish, h, t, nodes, podMap);
            var vs, s2 := VerdictsOf(j), AfterForce(StockOf(j), order1, order2, Some(force));
            id in Launched(vs, Transform(j, order1, order2)) - Launched(vs, s2) <==>
              id in CandidateSet(vs, true)
              && (id !in s2.available
                  || |LowerAvailable(vs, s2.available, id)| < |s2.available| - (|j.running| - rolling))
  {
    JobIsSane(deleteAfterFinish, h, t, nodes, podMap);
    ExactRollingSelection(StockOf(JobOf(deleteAfterFinish, h, t, nodes, podMap)), order1, order2, force, rolling, id);
  }

  lemma PlannedIdsAreDistinct(deleteAfterFinish: bool, h: Hasher, t: TApp, nodes: NodeStore, podMap: map<Id, Pod>,
                              plan: Plan)
    requires IsPlan(JobOf(deleteAfterFinish, h, t, nodes, podMap), plan)
    ensures DistinctIds(AllInstances(plan))
  {
    var _, _, _ := PlanShape(deleteAfterFinish, h, t, nodes, podMap, plan);
  }

  /** However the goroutines of a planned sync interleave, and with the updates after them, the store ends
      as if the plan had been carried out in list order. */
  lemma PlannedSyncIsConfluent(deleteAfterFinish: bool, h: Hasher, t: TApp, nodes: NodeStore, podMap: map<Id, Pod>,
                               plan: Plan, store: Store, schedule: seq<nat>)
    requires IsPlan(JobOf(deleteAfterFinish, h, t, nodes, podMap), plan)
    requires ValidSchedule(Ops(plan), schedule) && AllDone(Execute(Ops(plan), schedule, Started(Ops(plan), store)))
    ensures RunUpdates(plan.update, Execute(Ops(plan), schedule, Started(Ops(plan), store)).store)
        == SyncStore(store, plan)
  {
    PlannedIdsAreDistinct(deleteAfterFinish, h, t, nodes, podMap, plan);
    DistinctPlanIsConfluent(plan, store, schedule);
  }

  // ---------------------------------------------------------------- plans and template collection

  /** Two jobs over the same pods whose apps differ only in templates no id refers to. */
  ghost predicate SameMeaning(a: Job, b: Job) {
    && a.nodes == b.nodes && a.podMap == b.podMap && a.running == b.running && a.actions == b.actions
    && a.t.name == b.t.name && a.t.spec.forceDeletePod == b.t.spec.forceDeletePod
    && a.t.spec.maxUnavailable == b.t.spec.maxUnavailable
    && a.t.spec.forceMaxUnavailable == b.t.spec.forceMaxUnavailable
    && (forall id :: PodTemplate(a.t.spec, id) == PodTemplate(b.t.spec, id))
    && (forall id :: IsInRollingUpdate(a.t.spec, id) == IsInRollingUpdate(b.t.spec, id))
  }

  lemma SameMeaningSamePlan(a: Job, b: Job, plan: Plan)
    requires SameMeaning(a, b) && IsPlan(a, plan)
    ensures IsPlan(b, plan)
  {
    var order1, order2 :| IsOrder(VerdictsOf(a), order1) && IsOrder(VerdictsOf(a), order2)
      && Buildable(a, Transform(a, order1, order2)) && plan == PlanOf(a, Transform(a, order1, order2));
    SameMeaningSameStock(a, b);
    assert Transform(a, order1, order2) == Transform(b, order1, order2);
    SameMeaningSameInstances(a, b, Transform(a, order1, order2));
  }

  lemma SameMeaningSameStock(a: Job, b: Job)
    requires SameMeaning(a, b) && Backed(a)
    ensures Backed(b) && VerdictsOf(a) == VerdictsOf(b) && StockOf(a) == StockOf(b)
  {
    forall id | id in a.actions ensures VerdictOf(a, id) == VerdictOf(b, id) {
      SameMeaningSameVerdict(a, b, id);
    }
  }

  lemma SameMeaningSameVerdict(a: Job, b: Job, id: Id)
    requires SameMeaning(a, b) && Backed(a) && Backed(b) && id in a.actions
    ensures VerdictOf(a, id) == VerdictOf(b, id)
  {
    assert PodTemplate(a.t.spec, id) == PodTemplate(b.t.spec, id);
    assert IsInRollingUpdate(a.t.spec, id) == IsInRollingUpdate(b.t.spec, id);
  }

  lemma SameMeaningSameInstances(a: Job, b: Job, s: Progress)
    requires SameMeaning(a, b) && Buildable(a, s)
    ensures Buildable(b, s) && PlanOf(a, s) == PlanOf(b, s)
  {
    forall id ensures NewPod(a.t, id) == NewPod(b.t, id) { }
    assert Fresh(a.t, s.add) == Fresh(b.t, s.add);
    assert Updated(a.t, s.update) == Updated(b.t, s.update);
  }

  lemma CollectionKeepsAction(spec: TAppSpec, podMap: map<Id, Pod>, id: Id)
    ensures RunningAction(RemoveUnused(spec), podMap, id) == RunningAction(spec, podMap, id)
  {
    RemoveUnusedPreservesMeaning(spec);
  }

  lemma CollectionKeepsMeaning(deleteAfterFinish: bool, h: Hasher, t: TApp, nodes: NodeStore, podMap: map<Id, Pod>)
    ensures SameMeaning(JobOf(deleteAfterFinish, h, t, nodes, podMap),
                        JobOf(deleteAfterFinish, h, t.(spec := RemoveUnused(t.spec)), nodes, podMap))
  {
    var collected := t.(spec := RemoveUnused(t.spec));
    var a, b := JobOf(deleteAfterFinish, h, t, nodes, podMap), JobOf(deleteAfterFinish, h, collected, nodes, podMap);
    RemoveUnusedCommutesWithHash(h, t.spec);
    CollectedJob(a, b);
    SameRunningActions(a.t.spec, b.t.spec, a.running, podMap);
  }

  /** The parts of a job that collection leaves alone. */
  lemma CollectedJob(a: Job, b: Job)
    requires b.t == a.t.(spec := RemoveUnused(a.t.spec))
    ensures forall id :: PodTemplate(a.t.spec, id) == PodTemplate(b.t.spec, id)
    ensures forall id :: IsInRollingUpdate(a.t.spec, id) == IsInRollingUpdate(b.t.spec, id)
  {
    RemoveUnusedPreservesMeaning(a.t.spec);
  }

  lemma SameRunningActions(a: TAppSpec, b: TAppSpec, running: set<Id>, podMap: map<Id, Pod>)
    requires b == RemoveUnused(a)
    ensures RunningActions(a, running, podMap) == RunningActions(b, running, podMap)
  {
    forall id ensures RunningAction(a, podMap, id) == RunningAction(b, podMap, id) {
      CollectionKeepsAction(a, podMap, id);
    }
  }

  /** Collecting unused templates changes no plan: a sync can plan the same before and after. */
  lemma CollectionKeepsPlans(deleteAfterFinish: bool, h: Hasher, t: TApp, nodes: NodeStore, podMap: map<Id, Pod>,
                             plan: Plan)
    ensures IsPlan(JobOf(deleteAfterFinish, h, t, nodes, podMap), plan)
       <==> IsPlan(JobOf(deleteAfterFinish, h, t.(spec := RemoveUnused(t.spec)), nodes, podMap), plan)
  {
    var a := JobOf(deleteAfterFinish, h, t, nodes, podMap);
    var b := JobOf(deleteAfterFinish, h, t.(spec := RemoveUnused(t.spec)), nodes, podMap);
    CollectionKeepsMeaning(deleteAfterFinish, h, t, nodes, podMap);
    if IsPlan(a, plan) { SameMeaningSamePlan(a, b, plan); }
    if IsPlan(b, plan) { SameMeaningSamePlan(b, a, plan); }
  }
}
