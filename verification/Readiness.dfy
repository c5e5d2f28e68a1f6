/** The readiness gate of in-place updates and its effect on a pod's Ready condition.
    Status writes are taken to succeed, so the retry loop runs once. */
module Readiness {
  import opened Model
  import opened Instances

  const REASON := "ReadinessGatesNotReady"
  const MESSAGE := "the status of pod readiness gate \"tkestack.io/InPlaceUpdate\" is not \"True\", but False"

  /** Ready is False and it was the gate that made it so. */
  predicate GateOwned(c: Condition) {
    c.status == CondFalse && c.reason == REASON && c.message == MESSAGE
  }

  /** The gate entry gets the status, appended when missing. */
  function WriteGate(conditions: seq<Condition>, status: ConditionStatus): seq<Condition> {
    var i := FirstCondition(conditions, GATE_TYPE);
    if i < |conditions| then conditions[i := conditions[i].(status := status)]
    else conditions + [Condition(GATE_TYPE, status, "", "")]
  }

  /** Ready follows the gate down, and up again only when the gate took it down. */
  function FollowGate(conditions: seq<Condition>, status: ConditionStatus): seq<Condition> {
    var r := FirstCondition(conditions, READY_TYPE);
    if r == |conditions| then conditions
    else if status == CondFalse then
      if conditions[r].status == CondFalse then conditions
      else conditions[r := Condition(READY_TYPE, CondFalse, REASON, MESSAGE)]
    else
      if GateOwned(conditions[r]) then conditions[r := Condition(READY_TYPE, CondTrue, "", "")] else conditions
  }

  function SetGate(conditions: seq<Condition>, status: ConditionStatus): seq<Condition> {
    if HasGate(conditions, status) then conditions else FollowGate(WriteGate(conditions, status), status)
  }

  predicate HasGate(conditions: seq<Condition>, status: ConditionStatus) {
    var c := ConditionOf(conditions, GATE_TYPE);
    c.Some? && c.value.status == status
  }

  method FindCondition(conditions: seq<Condition>, kind: string) returns (i: nat)
    ensures i == FirstCondition(conditions, kind)
  {
    i := 0;
    while i < |conditions| && conditions[i].kind != kind
      invariant i <= |conditions|
      invariant forall k :: 0 <= k < i ==> conditions[k].kind != kind
    {
      i := i + 1;
    }
    FirstIs(conditions, kind, i);
  }

  method SetInPlaceUpdateCondition(pod: PodObject, status: ConditionStatus)
    modifies pod`conditions
    ensures pod.conditions == SetGate(old(pod.conditions), status)
  {
    var i := FindCondition(pod.conditions, GATE_TYPE);
    if i < |pod.conditions| {
      if pod.conditions[i].status == status { return; }
      pod.conditions := pod.conditions[i := pod.conditions[i].(status := status)];
    } else {
      pod.conditions := pod.conditions + [Condition(GATE_TYPE, status, "", "")];
    }
    var r := FindCondition(pod.conditions, READY_TYPE);
    if r < |pod.conditions| {
      var c := pod.conditions[r];
      if status == CondFalse {
        if c.status != CondFalse {
          pod.conditions := pod.conditions[r := c.(status := CondFalse, reason := REASON, message := MESSAGE)];
        }
      } else if c.status == CondFalse && c.reason == REASON && c.message == MESSAGE {
        pod.conditions := pod.conditions[r := c.(status := CondTrue, reason := "", message := "")];
      }
    }
  }

  lemma FirstIs(conditions: seq<Condition>, kind: string, i: nat)
    requires i <= |conditions| && (i < |conditions| ==> conditions[i].kind == kind)
    requires forall k :: 0 <= k < i ==> conditions[k].kind != kind
    ensures FirstCondition(conditions, kind) == i
  {
  }

  lemma KindsDiffer()
    ensures GATE_TYPE != READY_TYPE
  {
    assert |GATE_TYPE| != |READY_TYPE|;
  }

  lemma WriteGateConditions(conditions: seq<Condition>, status: ConditionStatus)
    ensures HasGate(WriteGate(conditions, status), status)
    ensures ConditionOf(WriteGate(conditions, status), READY_TYPE) == ConditionOf(conditions, READY_TYPE)
  {
    KindsDiffer();
    var written := WriteGate(conditions, status);
    var g, r := FirstCondition(conditions, GATE_TYPE), FirstCondition(conditions, READY_TYPE);
    FirstIs(written, GATE_TYPE, g);
    FirstIs(written, READY_TYPE, if r < |conditions| then r else |written|);
  }

  /** What becomes of a Ready condition when the gate changes to a status. */
  function Followed(ready: Condition, status: ConditionStatus): Condition {
    if status == CondFalse && ready.status != CondFalse then Condition(READY_TYPE, CondFalse, REASON, MESSAGE)
    else if status != CondFalse && GateOwned(ready) then Condition(READY_TYPE, CondTrue, "", "")
    else ready
  }

  lemma FollowGateConditions(conditions: seq<Condition>, status: ConditionStatus)
    ensures ConditionOf(FollowGate(conditions, status), GATE_TYPE) == ConditionOf(conditions, GATE_TYPE)
    ensures ConditionOf(FollowGate(conditions, status), READY_TYPE)
         == var ready := ConditionOf(conditions, READY_TYPE);
            if ready.None? then None else Some(Followed(ready.value, status))
  {
    KindsDiffer();
    var followed := FollowGate(conditions, status);
    FirstIs(followed, GATE_TYPE, FirstCondition(conditions, GATE_TYPE));
    FirstIs(followed, READY_TYPE, FirstCondition(conditions, READY_TYPE));
  }

  /** What one gate write leaves: the gate has the status, and Ready is decided by its old value. */
  lemma SetGateConditions(conditions: seq<Condition>, status: ConditionStatus)
    ensures HasGate(SetGate(conditions, status), status)
    ensures ConditionOf(SetGate(conditions, status), READY_TYPE)
         == var ready := ConditionOf(conditions, READY_TYPE);
            if ready.None? || HasGate(conditions, status) then ready else Some(Followed(ready.value, status))
  {
    WriteGateConditions(conditions, status);
    FollowGateConditions(WriteGate(conditions, status), status);
  }

  /** Ready before, with the gate closed and with it open again, as SetGateConditions has them. */
  lemma FollowedTwice(before: Option<Condition>, down: Option<Condition>, up: Option<Condition>, closed: bool)
    requires down == if before.None? || closed then before else Some(Followed(before.value, CondFalse))
    requires up == if down.None? then down else Some(Followed(down.value, CondTrue))
    ensures StatusIn(up) == StatusIn(before) <==>
              (before.Some? ==> !GateOwned(before.value) && (before.value.status == CondUnknown ==> closed))
  {
  }

  function StatusIn(condition: Option<Condition>): Option<ConditionStatus> {
    if condition.None? then None else Some(condition.value.status)
  }

  function ReadyStatus(conditions: seq<Condition>): Option<ConditionStatus> {
    StatusIn(ConditionOf(conditions, READY_TYPE))
  }

  lemma ReadyAfterTwoWrites(conditions: seq<Condition>, closed: seq<Condition>, open: seq<Condition>)
    requires closed == SetGate(conditions, CondFalse) && open == SetGate(closed, CondTrue)
    ensures var ready, down := ConditionOf(conditions, READY_TYPE), ConditionOf(closed, READY_TYPE);
            && (down == if ready.None? || HasGate(conditions, CondFalse) then ready
                        else Some(Followed(ready.value, CondFalse)))
            && ConditionOf(open, READY_TYPE) == if down.None? then down else Some(Followed(down.value, CondTrue))
  {
    SetGateConditions(conditions, CondFalse);
    SetGateConditions(closed, CondTrue);
  }

  /** Closing the gate and opening it again gives Ready its old status, exactly when the gate did
      not own a False Ready before and did not overwrite an Unknown one. */
  lemma GateRoundTrip(conditions: seq<Condition>)
    ensures ReadyStatus(SetGate(SetGate(conditions, CondFalse), CondTrue)) == ReadyStatus(conditions)
       <==> var ready := ConditionOf(conditions, READY_TYPE);
            ready.Some? ==> !GateOwned(ready.value)
                            && (ready.value.status == CondUnknown ==> HasGate(conditions, CondFalse))
  {
    var closed := SetGate(conditions, CondFalse);
    var open := SetGate(closed, CondTrue);
    ReadyAfterTwoWrites(conditions, closed, open);
    FollowedTwice(ConditionOf(conditions, READY_TYPE), ConditionOf(closed, READY_TYPE),
                  ConditionOf(open, READY_TYPE), HasGate(conditions, CondFalse));
  }

  /** A Ready that somebody else turned False survives every sequence of gate writes unchanged. */
  lemma {:induction false} OthersReadyFalseSurvives(conditions: seq<Condition>, writes: seq<ConditionStatus>)
    requires var ready := ConditionOf(conditions, READY_TYPE);
             ready.Some? && ready.value.status == CondFalse && !GateOwned(ready.value)
    ensures ConditionOf(SetGates(conditions, writes), READY_TYPE) == ConditionOf(conditions, READY_TYPE)
    decreases |writes|
  {
    if writes != [] {
      SetGateConditions(conditions, writes[0]);
      OthersReadyFalseSurvives(SetGate(conditions, writes[0]), writes[1..]);
    }
  }

  function SetGates(conditions: seq<Condition>, writes: seq<ConditionStatus>): seq<Condition>
    decreases |writes|
  {
    if writes == [] then conditions else SetGates(SetGate(conditions, writes[0]), writes[1..])
  }

  function GateEntries(conditions: seq<Condition>): nat {
    if conditions == [] then 0
    else GateEntries(conditions[..|conditions| - 1]) + (if conditions[|conditions| - 1].kind == GATE_TYPE then 1 else 0)
  }

  lemma {:induction false} GateEntriesOfSameKinds(a: seq<Condition>, b: seq<Condition>)
    requires |a| == |b| && forall k :: 0 <= k < |a| ==> a[k].kind == b[k].kind
    ensures GateEntries(a) == GateEntries(b)
  {
    if a != [] {
      GateEntriesOfSameKinds(a[..|a| - 1], b[..|b| - 1]);
    }
  }

  lemma {:induction false} NoEntryWithoutIndex(conditions: seq<Condition>)
    requires forall k :: 0 <= k < |conditions| ==> conditions[k].kind != GATE_TYPE
    ensures GateEntries(conditions) == 0
  {
    if conditions != [] {
      NoEntryWithoutIndex(conditions[..|conditions| - 1]);
    }
  }

  /** A gate write never adds a second gate entry. */
  lemma GateStaysSingle(conditions: seq<Condition>, status: ConditionStatus)
    ensures GateEntries(SetGate(conditions, status))
         == if ConditionOf(conditions, GATE_TYPE).None? then 1 else GateEntries(conditions)
  {
    KindsDiffer();
    if !HasGate(conditions, status) {
      var written := WriteGate(conditions, status);
      GateEntriesOfSameKinds(FollowGate(written, status), written);
      if ConditionOf(conditions, GATE_TYPE).None? {
        NoEntryWithoutIndex(conditions);
        assert written[..|written| - 1] == conditions;
      } else {
        GateEntriesOfSameKinds(written, conditions);
      }
    }
  }

  // ---------------------------------------------------------------- all pods of a sync

  /** Pods about to be deleted or updated close the gate, the others follow their own update state. */
  function GateStatus(pod: Pod, selected: set<string>): ConditionStatus {
    if pod.name in selected || (pod.phase == PhaseRunning && IsUpdating(pod)) then CondFalse else CondTrue
  }

  function SyncCondition(pod: Pod, selected: set<string>): Pod {
    pod.(conditions := SetGate(pod.conditions, GateStatus(pod, selected)))
  }

  function NamesOf(xs: seq<Instance>): set<string> {
    set k | 0 <= k < |xs| :: xs[k].pod.name
  }

  function Positions(n: nat): (r: set<nat>)
    ensures forall k: nat :: k in r <==> k < n
  {
    if n == 0 then {} else Positions(n - 1) + {n - 1}
  }

  /** The goroutines touch one pod each, so any order gives the same list. */
  method SyncPodConditions(pods: seq<Pod>, notReady: seq<Instance>) returns (synced: seq<Pod>)
    ensures synced == seq(|pods|, k requires 0 <= k < |pods| => SyncCondition(pods[k], NamesOf(notReady)))
  {
    var selected: set<string> := {};
    for k := 0 to |notReady|
      invariant selected == NamesOf(notReady[..k])
    {
      selected := selected + {notReady[k].pod.name};
      assert forall m :: 0 <= m < k + 1 ==> notReady[..k + 1][m] == notReady[m];
      assert forall m :: 0 <= m < k ==> notReady[..k][m] == notReady[m];
    }
    assert notReady[..|notReady|] == notReady;
    synced := pods;
    var todo := Positions(|pods|);
    while todo != {}
      invariant |synced| == |pods| && forall k :: k in todo ==> 0 <= k < |pods|
      invariant forall k :: 0 <= k < |pods| ==>
                  synced[k] == if k in todo then pods[k] else SyncCondition(pods[k], selected)
    {
      var k :| k in todo;
      var pod := new PodObject(synced[k]);
      SetInPlaceUpdateCondition(pod, GateStatus(synced[k], selected));
      synced := synced[k := synced[k].(conditions := pod.conditions)];
      todo := todo - {k};
    }
  }

  /** The gate pass changes conditions only. It closes the gate of exactly the pods that are selected, or
      running with an update under way, and opens it for all others. */
  lemma GatePassMeans(pod: Pod, selected: set<string>)
    ensures var gated := SyncCondition(pod, selected);
            && gated.(conditions := pod.conditions) == pod
            && HasGate(gated.conditions,
                       if pod.name in selected || (pod.phase == PhaseRunning && IsUpdating(pod)) then CondFalse
                       else CondTrue)
  {
    SetGateConditions(pod.conditions, GateStatus(pod, selected));
  }

  /** A closed gate keeps the pod from being ready. Status writes by others may break this, the controller's
      own writes never do. */
  predicate IsHonest(pod: Pod) {
    HasGate(pod.conditions, CondFalse) ==> !IsMarkedReady(pod)
  }

  lemma GatePassIsHonest(pod: Pod, selected: set<string>)
    requires IsHonest(pod)
    ensures IsHonest(SyncCondition(pod, selected))
  {
    SetGateConditions(pod.conditions, GateStatus(pod, selected));
  }

  /** Exactly when a selected pod is still available after the pass: it was, with its gate closed already, so
      that the write is skipped. */
  lemma SelectedIsDown(pod: Pod, selected: set<string>)
    requires pod.name in selected
    ensures HasGate(SyncCondition(pod, selected).conditions, CondFalse)
    ensures IsAvailable(SyncCondition(pod, selected)) <==>
              IsAvailable(pod) && HasGate(pod.conditions, CondFalse)
  {
    SetGateConditions(pod.conditions, CondFalse);
    assert IsUpdating(SyncCondition(pod, selected)) == IsUpdating(pod);
  }

  /** A gate write touches at most two entries: the first gate entry, whose status alone it sets, and the
      first Ready one. What it adds is a bare gate entry. */
  lemma GateWriteKeepsTheRest(conditions: seq<Condition>, status: ConditionStatus, k: nat)
    requires k < |conditions|
    ensures var after := SetGate(conditions, status);
            && |conditions| <= |after| <= |conditions| + 1
            && (!FirstAt(conditions, "tkestack.io/InPlaceUpdate", k) && !FirstAt(conditions, "Ready", k) ==>
                  after[k] == conditions[k])
            && (FirstAt(conditions, "tkestack.io/InPlaceUpdate", k) ==> after[k] == conditions[k].(status := status))
            && (|after| > |conditions| ==>
                  after[|conditions|] == Condition("tkestack.io/InPlaceUpdate", status, "", ""))
  {
    var g := FirstCondition(conditions, "tkestack.io/InPlaceUpdate");
    assert g < |conditions| ==> FirstAt(conditions, "tkestack.io/InPlaceUpdate", g);
    if FirstAt(conditions, "tkestack.io/InPlaceUpdate", k) {
      FirstAtIsFirst(conditions, "tkestack.io/InPlaceUpdate", k);
    }
    if !HasGate(conditions, status) {
      WriteKeepsFirstReady(conditions, status, k);
      FollowKeepsTheRest(WriteGate(conditions, status), status, k);
    }
  }

  lemma WriteKeepsFirstReady(conditions: seq<Condition>, status: ConditionStatus, k: nat)
    requires k < |conditions|
    ensures FirstAt(WriteGate(conditions, status), "Ready", k) <==> FirstAt(conditions, "Ready", k)
  {
    KindsDiffer();
    var written := WriteGate(conditions, status);
    assert forall m :: 0 <= m < |conditions| ==> written[m].kind == conditions[m].kind;
  }

  lemma FollowKeepsTheRest(conditions: seq<Condition>, status: ConditionStatus, k: nat)
    requires k < |conditions|
    ensures |FollowGate(conditions, status)| == |conditions|
    ensures !FirstAt(conditions, "Ready", k) ==> FollowGate(conditions, status)[k] == conditions[k]
  {
    var r := FirstCondition(conditions, "Ready");
    assert r < |conditions| ==> FirstAt(conditions, "Ready", r);
  }

  /** The gate that is taken as closing Ready: False, with exactly the reason and the message written. */
  lemma ReopenedMeans(conditions: seq<Condition>, k: int)
    requires FirstAt(conditions, "Ready", k) && !HasGate(conditions, CondTrue)
    ensures var was, now := conditions[k], ConditionOf(SetGate(conditions, CondTrue), "Ready");
            now == Some(if was.status == CondFalse && was.reason == REASON && was.message == MESSAGE
                        then Condition("Ready", CondTrue, "", "") else was)
  {
    FirstAtIsFirst(conditions, "Ready", k);
    SetGateConditions(conditions, CondTrue);
  }

  /** Closing the gate takes a Ready that is not False down, with that reason and message. */
  lemma ClosedMeans(conditions: seq<Condition>, k: int)
    requires FirstAt(conditions, "Ready", k) && !HasGate(conditions, CondFalse)
    ensures var was, now := conditions[k], ConditionOf(SetGate(conditions, CondFalse), "Ready");
            now == Some(if was.status == CondFalse then was else Condition("Ready", CondFalse, REASON, MESSAGE))
    ensures REASON == "ReadinessGatesNotReady"
    ensures MESSAGE == "the status of pod readiness gate \"tkestack.io/InPlaceUpdate\" is not \"True\", but False"
  {
    FirstAtIsFirst(conditions, "Ready", k);
    SetGateConditions(conditions, CondFalse);
  }

  /** The gate sync leaves an available pod that was not selected available. */
  lemma UnselectedStaysAvailable(pod: Pod, selected: set<string>)
    requires IsAvailable(pod) && pod.name !in selected
    ensures IsAvailable(SyncCondition(pod, selected))
  {
    SetGateConditions(pod.conditions, GateStatus(pod, selected));
    assert IsUpdating(SyncCondition(pod, selected)) == IsUpdating(pod);
  }
}
