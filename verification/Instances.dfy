/** Pods built from templates, and the in-place merge of a new template into a living pod. */
module Instances {
  import opened Decimal
  import opened Model
  import opened Templates

  /** The control block handed to the syncer. */
  datatype Instance = Instance(id: Id, pod: Pod)

  function PodName(app: string, id: Id): string {
    app + "-" + id
  }

  lemma PodNameInjective(app: string, id: Id, other: Id)
    requires PodName(app, id) == PodName(app, other)
    ensures id == other
  {
    assert PodName(app, id)[|app| + 1..] == id;
    assert PodName(app, other)[|app| + 1..] == other;
  }

  /** newInstance: None when the template of the id does not resolve. */
  function NewPod(t: TApp, id: Id): Option<Pod> {
    match PodTemplate(t.spec, id)
    case None => None
    case Some(template) =>
      Some(Pod(PodName(t.name, id), LabelsOf(template)[INSTANCE_KEY := id], template.annotations,
               false, "", template.spec, PhaseOther, [], [], []))
  }

  function MarkUpdating(pod: Pod): Pod {
    pod.(annotations := pod.annotations[UPDATE_STATE_KEY := UPDATE_STATE_VALUE])
  }

  predicate IsTemplateHashChanged(spec: TAppSpec, id: Id, pod: Pod) {
    match PodTemplate(spec, id)
    case None => true
    case Some(template) => Label(pod.labels, TEMPLATE_HASH_KEY) != Label(LabelsOf(template), TEMPLATE_HASH_KEY)
  }

  predicate IsUniqHashChanged(spec: TAppSpec, id: Id, pod: Pod) {
    match PodTemplate(spec, id)
    case None => true
    case Some(template) => Label(pod.labels, UNIQ_HASH_KEY) != Label(LabelsOf(template), UNIQ_HASH_KEY)
  }

  // ---------------------------------------------------------------- mergePod

  function MergeContainers(current: seq<Container>, expected: seq<Container>): seq<Container> {
    seq(|current|, i requires 0 <= i < |current| =>
      if i < |expected| then current[i].(image := expected[i].image) else current[i])
  }

  /** The one annotation a living pod keeps against the template. */
  function KeepSpecial(current: map<string, string>, expected: map<string, string>): map<string, string> {
    if SPECIAL_ANNOTATION in current then expected[SPECIAL_ANNOTATION := current[SPECIAL_ANNOTATION]] else expected
  }

  function MergePod(current: Pod, expected: Pod): Pod {
    current.(spec := current.spec.(containers := MergeContainers(current.spec.containers, expected.spec.containers)),
             labels := current.labels + expected.labels,
             annotations := current.annotations + KeepSpecial(current.annotations, expected.annotations))
  }

  /** A pod whose specification, metadata and conditions the controller writes in memory. */
  class PodObject {
    const rest: Pod
    var containers: seq<Container>
    var labels: map<string, string>
    var annotations: map<string, string>
    var conditions: seq<Condition>

    ghost function View(): Pod
      reads this
    {
      rest.(spec := rest.spec.(containers := containers), labels := labels, annotations := annotations,
            conditions := conditions)
    }

    constructor (pod: Pod)
      ensures View() == pod
    {
      rest, containers, labels := pod, pod.spec.containers, pod.labels;
      annotations, conditions := pod.annotations, pod.conditions;
    }

    /** mergePod writes the expected pod too: the special annotation is copied into it first. */
    method MergeFrom(expected: PodObject)
      requires expected != this
      modifies this, expected`annotations
      ensures View() == MergePod(old(View()), old(expected.View()))
      ensures expected.annotations == KeepSpecial(old(annotations), old(expected.annotations))
    {
      var merged: seq<Container> := [];
      for i := 0 to |containers|
        invariant merged == MergeContainers(containers, expected.containers)[..i]
      {
        var c := containers[i];
        merged := merged + [if i < |expected.containers| then c.(image := expected.containers[i].image) else c];
      }
      containers := merged;
      labels := CopyInto(labels, expected.labels);
      if SPECIAL_ANNOTATION in annotations {
        expected.annotations := expected.annotations[SPECIAL_ANNOTATION := annotations[SPECIAL_ANNOTATION]];
      }
      annotations := CopyInto(annotations, expected.annotations);
    }
  }

  method CopyInto(target: map<string, string>, source: map<string, string>) returns (result: map<string, string>)
    ensures result == target + source
  {
    result := target;
    var keys := source.Keys;
    while keys != {}
      invariant keys <= source.Keys
      invariant result == target + (source - keys)
    {
      var k :| k in keys;
      result, keys := result[k := source[k]], keys - {k};
    }
    assert source - keys == source;
  }

  // ---------------------------------------------------------------- in-place update versus recreation

  /** Both hash labels of the template describe the template. */
  predicate Truthful(h: Hasher, template: Template) {
    Label(LabelsOf(template), TEMPLATE_HASH_KEY) == TemplateHash(h, template)
    && Label(LabelsOf(template), UNIQ_HASH_KEY) == UniqHash(h, template.spec)
  }

  /** Hashing a template that carries no hash label of its own makes it truthful. */
  lemma HashedTemplateIsTruthful(h: Hasher, template: Template)
    requires template.labels.Some? && TEMPLATE_HASH_KEY !in template.labels.value
    ensures Truthful(h, HashTemplate(h, template))
  {
    HashTemplateLabels(h, template);
    HashIgnoresItself(h, template);
  }

  lemma BlankEqualMergesToExpected(current: seq<Container>, expected: seq<Container>)
    requires BlankImages(current) == BlankImages(expected)
    ensures MergeContainers(current, expected) == expected
  {
    assert |current| == |BlankImages(current)| == |expected|;
    forall i | 0 <= i < |expected| ensures MergeContainers(current, expected)[i] == expected[i] {
      assert BlankImages(current)[i] == BlankImages(expected)[i];
    }
  }

  /** The pod was built from `before`, the app now asks for another template, and the planner
      found the uniq hash unchanged. If the uniq hash does not collide on these two templates, the
      merge gives the same main containers and the same hash labels as a new pod, so the next sync
      sees no template change. Init containers are not merged: they agree only if they agreed before. */
  lemma InPlaceUpdateAgreesWithRecreation(h: Hasher, t: TApp, id: Id, before: Template, pod: Pod)
    requires PodTemplate(t.spec, id).Some?
    requires Truthful(h, before) && Truthful(h, PodTemplate(t.spec, id).value)
    requires pod.spec.containers == before.spec.containers && pod.spec.initContainers == before.spec.initContainers
    requires Label(pod.labels, UNIQ_HASH_KEY) == Label(LabelsOf(before), UNIQ_HASH_KEY)
    requires !IsUniqHashChanged(t.spec, id, pod)
    requires var after := PodTemplate(t.spec, id).value;
             h.uniq(WithoutImages(before.spec)) == h.uniq(WithoutImages(after.spec)) ==>
               WithoutImages(before.spec) == WithoutImages(after.spec)
    ensures var made := NewPod(t, id).value;
            var merged := MergePod(pod, MarkUpdating(made));
            && merged.spec.containers == made.spec.containers == PodTemplate(t.spec, id).value.spec.containers
            && Label(merged.labels, TEMPLATE_HASH_KEY) == Label(made.labels, TEMPLATE_HASH_KEY)
            && Label(merged.labels, UNIQ_HASH_KEY) == Label(made.labels, UNIQ_HASH_KEY)
            && !IsTemplateHashChanged(t.spec, id, merged)
            && (merged.spec.initContainers == made.spec.initContainers <==>
                before.spec.initContainers == made.spec.initContainers)
  {
    var after := PodTemplate(t.spec, id).value;
    var made := NewPod(t, id).value;
    assert INSTANCE_KEY !in {TEMPLATE_HASH_KEY, UNIQ_HASH_KEY} by {
      assert |INSTANCE_KEY| != |TEMPLATE_HASH_KEY| && INSTANCE_KEY[5] != UNIQ_HASH_KEY[5];
    }
    PrintInjective(h.uniq(WithoutImages(before.spec)), h.uniq(WithoutImages(after.spec)));
    BlankEqualMergesToExpected(before.spec.containers, after.spec.containers);
    assert TEMPLATE_HASH_KEY in LabelsOf(after);
  }

  // ---------------------------------------------------------------- what a new and a merged pod look like

  /** A new pod is the template with the instance's name and id label put on, and nothing has happened to it. */
  lemma NewPodMeans(t: TApp, id: Id, template: Template)
    requires PodTemplate(t.spec, id) == Some(template)
    ensures NewPod(t, id).Some?
    ensures var pod := NewPod(t, id).value;
            && pod.name == t.name + "-" + id && pod.spec == template.spec && pod.annotations == template.annotations
            && "tapp_instance_key" in pod.labels && pod.labels["tapp_instance_key"] == id
            && (forall key :: key != "tapp_instance_key" ==>
                  (key in pod.labels <==> key in LabelsOf(template))
                  && (key in pod.labels ==> pod.labels[key] == LabelsOf(template)[key]))
            && !pod.dying && pod.nodeName == "" && pod.conditions == []
            && pod.initStatuses == [] && pod.containerStatuses == []
  {
  }

  /** Container `i` of a pod after a merge: only the image can change, and only where the template has one. */
  lemma MergedContainer(pod: Pod, expected: Pod, i: nat)
    requires i < |pod.spec.containers|
    ensures |MergePod(pod, expected).spec.containers| == |pod.spec.containers|
    ensures var was, now := pod.spec.containers[i], MergePod(pod, expected).spec.containers[i];
            && now.name == was.name && now.settings == was.settings
            && now.image == if i < |expected.spec.containers| then expected.spec.containers[i].image else was.image
  {
  }

  /** What a merge does besides: the expected labels and annotations win, except for the port mapping, which
      the living pod keeps; everything else of the pod stays. */
  lemma MergedMetadata(pod: Pod, expected: Pod, key: string)
    ensures var merged := MergePod(pod, expected);
            && (key in merged.labels <==> key in pod.labels || key in expected.labels)
            && (key in expected.labels ==> merged.labels[key] == expected.labels[key])
            && (key in pod.labels && key !in expected.labels ==> merged.labels[key] == pod.labels[key])
            && (key in merged.annotations <==> key in pod.annotations || key in expected.annotations)
            && (key in pod.annotations && (key == "tkestack.io/portmapping" || key !in expected.annotations) ==>
                  merged.annotations[key] == pod.annotations[key])
            && (key in expected.annotations && (key != "tkestack.io/portmapping" || key !in pod.annotations) ==>
                  merged.annotations[key] == expected.annotations[key])
    ensures var merged := MergePod(pod, expected);
            merged.(labels := pod.labels, annotations := pod.annotations,
                    spec := merged.spec.(containers := pod.spec.containers)) == pod
  {
  }

  /** A pod merged with one marked for update counts as updating as long as a container status shows an
      image that is not the new one, or none yet. */
  lemma MergedCountsAsUpdating(pod: Pod, made: Pod)
    ensures var merged := MergePod(pod, MarkUpdating(made));
            IsUpdating(merged) <==>
              exists status, i :: status in pod.containerStatuses && Swapping(merged, status, i)
  {
    var merged := MergePod(pod, MarkUpdating(made));
    MergedMetadata(pod, MarkUpdating(made), UPDATE_STATE_KEY);
    assert UPDATE_STATE_KEY != SPECIAL_ANNOTATION by { assert |UPDATE_STATE_KEY| != |SPECIAL_ANNOTATION|; }
    assert merged.annotations[UPDATE_STATE_KEY] == UPDATE_STATE_VALUE;
    UpdatingMeans(merged);
  }
}
