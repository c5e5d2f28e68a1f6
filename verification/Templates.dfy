/** Template identity: the two hash labels and the collection of unused templates.
    The hash itself is any function at all; nothing here assumes it is injective. */
module Templates {
  import opened Decimal
  import opened Model

  datatype Hasher = Hasher(template: Template -> nat, uniq: PodSpec -> nat)

  function LabelsOf(template: Template): map<string, string> {
    if template.labels.Some? then template.labels.value else map[]
  }

  // ---------------------------------------------------------------- the two hashes

  function WithoutHashLabels(template: Template): Template {
    if template.labels.None? then template
    else template.(labels := Some(template.labels.value - {TEMPLATE_HASH_KEY, UNIQ_HASH_KEY}))
  }

  function BlankImages(containers: seq<Container>): (blank: seq<Container>) {
    seq(|containers|, i requires 0 <= i < |containers| => containers[i].(image := ""))
  }

  function WithoutImages(spec: PodSpec): PodSpec {
    spec.(containers := BlankImages(spec.containers), initContainers := BlankImages(spec.initContainers))
  }

  function TemplateHash(h: Hasher, template: Template): string {
    Print(h.template(WithoutHashLabels(template)))
  }

  function UniqHash(h: Hasher, spec: PodSpec): string {
    Print(h.uniq(WithoutImages(spec)))
  }

  method CopyWithoutImages(containers: seq<Container>) returns (blank: seq<Container>)
    ensures blank == BlankImages(containers)
  {
    blank := [];
    for i := 0 to |containers|
      invariant blank == BlankImages(containers[..i])
    {
      blank := blank + [containers[i].(image := "")];
    }
    assert containers[..|containers|] == containers;
  }

  method GenerateUniqHash(h: Hasher, spec: PodSpec) returns (hash: string)
    ensures hash == UniqHash(h, spec)
  {
    var inits := CopyWithoutImages(spec.initContainers);
    var mains := CopyWithoutImages(spec.containers);
    hash := Print(h.uniq(spec.(containers := mains, initContainers := inits)));
  }

  function SetLabel(template: Template, key: string, value: string): Template {
    template.(labels := Some(LabelsOf(template)[key := value]))
  }

  /** The uniq hash is refreshed only when the template hash was stale. */
  function HashTemplate(h: Hasher, template: Template): Template {
    if Label(LabelsOf(template), TEMPLATE_HASH_KEY) == TemplateHash(h, template) then template
    else
      var t1 := SetLabel(template, TEMPLATE_HASH_KEY, TemplateHash(h, template));
      if Label(LabelsOf(t1), UNIQ_HASH_KEY) == UniqHash(h, t1.spec) then t1
      else SetLabel(t1, UNIQ_HASH_KEY, UniqHash(h, t1.spec))
  }

  /** The loop over the pool works on copies, so a nil label map stays nil there. */
  function HashPooled(h: Hasher, template: Template): Template {
    if template.labels.None? then template else HashTemplate(h, template)
  }

  function HashPool(h: Hasher, pool: map<string, Template>): map<string, Template> {
    map k | k in pool :: HashPooled(h, pool[k])
  }

  function UpdateTemplateHash(h: Hasher, spec: TAppSpec): TAppSpec {
    spec.(template := HashTemplate(h, spec.template), templatePool := HashPool(h, spec.templatePool))
  }

  /** A template whose labels the hash functions write. */
  class TemplateObject {
    var labels: Option<map<string, string>>
    const annotations: map<string, string>
    const spec: PodSpec

    ghost function View(): Template
      reads this
    {
      Template(labels, annotations, spec)
    }

    constructor (template: Template)
      ensures View() == template
    {
      labels, annotations, spec := template.labels, template.annotations, template.spec;
    }

    method SetTemplateHash(h: Hasher) returns (changed: bool)
      modifies this
      ensures changed <==> Label(LabelsOf(old(View())), TEMPLATE_HASH_KEY) != TemplateHash(h, old(View()))
      ensures View() == if changed then SetLabel(old(View()), TEMPLATE_HASH_KEY, TemplateHash(h, old(View())))
                        else old(View())
    {
      var current := Template(labels, annotations, spec);
      var expected := TemplateHash(h, current);
      changed := Label(LabelsOf(current), TEMPLATE_HASH_KEY) != expected;
      if changed {
        if labels.None? { labels := Some(map[]); }
        labels := Some(labels.value[TEMPLATE_HASH_KEY := expected]);
      }
    }

    method SetUniqHash(h: Hasher) returns (changed: bool)
      modifies this
      ensures changed <==> Label(LabelsOf(old(View())), UNIQ_HASH_KEY) != UniqHash(h, spec)
      ensures View() == if changed then SetLabel(old(View()), UNIQ_HASH_KEY, UniqHash(h, spec))
                        else old(View())
    {
      var expected := GenerateUniqHash(h, spec);
      changed := Label(LabelsOf(Template(labels, annotations, spec)), UNIQ_HASH_KEY) != expected;
      if changed {
        if labels.None? { labels := Some(map[]); }
        labels := Some(labels.value[UNIQ_HASH_KEY := expected]);
      }
    }

    method UpdateHash(h: Hasher)
      modifies this
      ensures View() == HashTemplate(h, old(View()))
    {
      var changed := SetTemplateHash(h);
      if changed {
        var _ := SetUniqHash(h);
      }
    }
  }

  lemma StrippedAfterSet(template: Template, value: string, key: string)
    requires template.labels.Some? && key in {TEMPLATE_HASH_KEY, UNIQ_HASH_KEY}
    ensures WithoutHashLabels(SetLabel(template, key, value)) == WithoutHashLabels(template)
  {
    assert template.labels.value[key := value] - {TEMPLATE_HASH_KEY, UNIQ_HASH_KEY}
        == template.labels.value - {TEMPLATE_HASH_KEY, UNIQ_HASH_KEY};
  }

  /** On a non-nil label map hashing ignores its own two labels. */
  lemma HashIgnoresItself(h: Hasher, template: Template)
    requires template.labels.Some?
    ensures TemplateHash(h, HashTemplate(h, template)) == TemplateHash(h, template)
    ensures HashTemplate(h, template).spec == template.spec
  {
    StrippedAfterSet(template, TemplateHash(h, template), TEMPLATE_HASH_KEY);
    var t1 := SetLabel(template, TEMPLATE_HASH_KEY, TemplateHash(h, template));
    StrippedAfterSet(t1, UniqHash(h, t1.spec), UNIQ_HASH_KEY);
  }

  /** Does the hash tell a nil label map from an empty one on this template? */
  predicate SeesNilLabels(h: Hasher, template: Template) {
    template.labels.None? && h.template(template) != h.template(template.(labels := Some(map[])))
  }

  /** Hashing twice is hashing once, exactly when the label map is not nil or the hash cannot
      see the difference between nil and empty. */
  lemma HashTemplateIdempotent(h: Hasher, template: Template)
    ensures HashTemplate(h, HashTemplate(h, template)) == HashTemplate(h, template)
       <==> !SeesNilLabels(h, template)
  {
    var once := HashTemplate(h, template);
    if template.labels.Some? {
      HashIgnoresItself(h, template);
    } else {
      var empty := template.(labels := Some(map[]));
      assert WithoutHashLabels(once) == empty by {
        assert LabelsOf(once) - {TEMPLATE_HASH_KEY, UNIQ_HASH_KEY} == map[];
      }
      assert Label(LabelsOf(once), TEMPLATE_HASH_KEY) == TemplateHash(h, template);
      if !SeesNilLabels(h, template) {
        assert TemplateHash(h, once) == TemplateHash(h, template);
      } else {
        if TemplateHash(h, once) == TemplateHash(h, template) {
          PrintInjective(h.template(empty), h.template(template));
          assert false;
        }
        assert Label(LabelsOf(HashTemplate(h, once)), TEMPLATE_HASH_KEY) == TemplateHash(h, once);
      }
    }
  }

  lemma HashPoolIdempotent(h: Hasher, pool: map<string, Template>)
    ensures HashPool(h, HashPool(h, pool)) == HashPool(h, pool)
  {
    forall k | k in pool ensures HashPooled(h, HashPooled(h, pool[k])) == HashPooled(h, pool[k]) {
      HashTemplateIdempotent(h, pool[k]);
    }
  }

  /** The whole pass over a spec is idempotent, for every pool, under the same condition on the
      inline template alone. */
  lemma UpdateTemplateHashIdempotent(h: Hasher, spec: TAppSpec)
    ensures UpdateTemplateHash(h, UpdateTemplateHash(h, spec)) == UpdateTemplateHash(h, spec)
       <==> !SeesNilLabels(h, spec.template)
  {
    HashTemplateIdempotent(h, spec.template);
    HashPoolIdempotent(h, spec.templatePool);
  }

  /** Which labels come out as the hashes of the template that went in: the template label always,
      the uniq label exactly when the template label was stale on the way in or the uniq label was
      right already. A nil label map hashes as nil, although the result has one. */
  lemma HashTemplateLabels(h: Hasher, template: Template)
    ensures Label(LabelsOf(HashTemplate(h, template)), TEMPLATE_HASH_KEY) == TemplateHash(h, template)
    ensures Label(LabelsOf(HashTemplate(h, template)), UNIQ_HASH_KEY) == UniqHash(h, template.spec)
       <==> (Label(LabelsOf(template), TEMPLATE_HASH_KEY) != TemplateHash(h, template)
             || Label(LabelsOf(template), UNIQ_HASH_KEY) == UniqHash(h, template.spec))
    ensures TEMPLATE_HASH_KEY in LabelsOf(HashTemplate(h, template))
  {
    assert TEMPLATE_HASH_KEY != UNIQ_HASH_KEY by { assert |TEMPLATE_HASH_KEY| != |UNIQ_HASH_KEY|; }
  }

  // ---------------------------------------------------------------- what the hashes see

  /** Container by container the same, but for the image. */
  predicate SameButImages(a: seq<Container>, b: seq<Container>) {
    |a| == |b| && forall i :: 0 <= i < |a| ==> a[i].name == b[i].name && a[i].settings == b[i].settings
  }

  predicate SameSpecButImages(a: PodSpec, b: PodSpec) {
    && SameButImages(a.containers, b.containers) && SameButImages(a.initContainers, b.initContainers)
    && a.restartPolicy == b.restartPolicy && a.readinessGates == b.readinessGates && a.settings == b.settings
  }

  lemma BlankEquals(a: seq<Container>, b: seq<Container>)
    ensures BlankImages(a) == BlankImages(b) <==> SameButImages(a, b)
  {
    if BlankImages(a) == BlankImages(b) {
      assert |a| == |BlankImages(a)| == |b|;
      forall i | 0 <= i < |a| ensures a[i].name == b[i].name && a[i].settings == b[i].settings {
        assert BlankImages(a)[i] == BlankImages(b)[i];
      }
    }
  }

  /** The uniq hash ignores the images of main and init containers, and nothing else. */
  lemma UniqHashIgnoresImages(a: PodSpec, b: PodSpec)
    ensures (forall h :: UniqHash(h, a) == UniqHash(h, b)) <==> SameSpecButImages(a, b)
  {
    BlankEquals(a.containers, b.containers);
    BlankEquals(a.initContainers, b.initContainers);
    assert WithoutImages(a) == WithoutImages(b) <==> SameSpecButImages(a, b);
    if forall h :: UniqHash(h, a) == UniqHash(h, b) {
      var telling := Hasher((t: Template) => 0, (p: PodSpec) => if p == WithoutImages(a) then 1 else 0);
      assert UniqHash(telling, a) == UniqHash(telling, b);
      PrintInjective(telling.uniq(WithoutImages(a)), telling.uniq(WithoutImages(b)));
    }
  }

  /** The same template, but for the values of the two hash labels. */
  ghost predicate SameButHashLabels(a: Template, b: Template) {
    && a.annotations == b.annotations && a.spec == b.spec && (a.labels.None? <==> b.labels.None?)
    && forall key :: key != "tapp_template_hash_key" && key != "tapp_uniq_hash_key" ==>
         (key in LabelsOf(a) <==> key in LabelsOf(b))
         && (key in LabelsOf(a) ==> LabelsOf(a)[key] == LabelsOf(b)[key])
  }

  lemma StrippedEquals(a: map<string, string>, b: map<string, string>)
    ensures a - {TEMPLATE_HASH_KEY, UNIQ_HASH_KEY} == b - {TEMPLATE_HASH_KEY, UNIQ_HASH_KEY} <==>
              forall key :: key != TEMPLATE_HASH_KEY && key != UNIQ_HASH_KEY ==>
                (key in a <==> key in b) && (key in a ==> a[key] == b[key])
  {
    var x, y := a - {TEMPLATE_HASH_KEY, UNIQ_HASH_KEY}, b - {TEMPLATE_HASH_KEY, UNIQ_HASH_KEY};
    if x == y {
      forall key | key != TEMPLATE_HASH_KEY && key != UNIQ_HASH_KEY
        ensures (key in a <==> key in b) && (key in a ==> a[key] == b[key])
      {
        assert key in x <==> key in y;
        assert key in x ==> x[key] == y[key];
      }
    }
  }

  /** The template hash ignores the two hash labels, and nothing else. */
  lemma TemplateHashIgnoresHashLabels(a: Template, b: Template)
    ensures (forall h :: TemplateHash(h, a) == TemplateHash(h, b)) <==> SameButHashLabels(a, b)
  {
    StrippedEquals(LabelsOf(a), LabelsOf(b));
    assert WithoutHashLabels(a) == WithoutHashLabels(b) <==> SameButHashLabels(a, b);
    if forall h :: TemplateHash(h, a) == TemplateHash(h, b) {
      var telling := Hasher((t: Template) => if t == WithoutHashLabels(a) then 1 else 0, (p: PodSpec) => 0);
      assert TemplateHash(telling, a) == TemplateHash(telling, b);
      PrintInjective(telling.template(WithoutHashLabels(a)), telling.template(WithoutHashLabels(b)));
    }
  }

  // ---------------------------------------------------------------- unused templates

  /** The names some instance, the default or the rolling update refers to. */
  function Referenced(spec: TAppSpec): set<string> {
    spec.templates.Values
    + (if spec.defaultTemplateName != DEFAULT_TEMPLATE then {spec.defaultTemplateName} else {})
    + (if RollingTemplateKey(spec) != "" then {RollingTemplateKey(spec)} else {})
  }

  function RemoveUnused(spec: TAppSpec): TAppSpec {
    if !spec.autoDeleteUnusedTemplate then spec
    else spec.(templatePool := map k | k in spec.templatePool && k in Referenced(spec) :: spec.templatePool[k])
  }

  /** Some instance names the template, it is the default one, or it is the rolling one. */
  predicate IsUsed(spec: TAppSpec, name: string) {
    || (exists id :: id in spec.templates && spec.templates[id] == name)
    || (name == spec.defaultTemplateName && name != "default")
    || (name != "" && name == if spec.rollingTemplate == "" then spec.defaultTemplateName else spec.rollingTemplate)
  }

  lemma ReferencedIsUsed(spec: TAppSpec, name: string)
    ensures name in Referenced(spec) <==> IsUsed(spec, name)
  {
  }

  /** Collection keeps the meaning of every instance id, keeps the rolling template, leaves
      exactly the referenced names and does nothing the second time. */
  lemma RemoveUnusedPreservesMeaning(spec: TAppSpec)
    ensures forall id :: PodTemplate(RemoveUnused(spec), id) == PodTemplate(spec, id)
    ensures forall id :: IsInRollingUpdate(RemoveUnused(spec), id) == IsInRollingUpdate(spec, id)
    ensures RollingTemplateKey(spec) in spec.templatePool && RollingTemplateKey(spec) != "" ==>
              RollingTemplateKey(spec) in RemoveUnused(spec).templatePool
    ensures forall name :: name in RemoveUnused(spec).templatePool <==>
              name in spec.templatePool && (spec.autoDeleteUnusedTemplate ==> IsUsed(spec, name))
    ensures RemoveUnused(spec).(templatePool := spec.templatePool) == spec
    ensures RemoveUnused(RemoveUnused(spec)) == RemoveUnused(spec)
  {
    forall id ensures PodTemplate(RemoveUnused(spec), id) == PodTemplate(spec, id) {
      assert id in spec.templates ==> spec.templates[id] in spec.templates.Values;
    }
    forall name ensures name in Referenced(spec) <==> IsUsed(spec, name) { ReferencedIsUsed(spec, name); }
    var once := RemoveUnused(spec);
    assert Referenced(once) == Referenced(spec);
    assert RemoveUnused(once).templatePool == once.templatePool;
  }

  lemma OnlyReferencedRemain(spec: TAppSpec, unused: set<string>, pool: map<string, Template>)
    requires spec.autoDeleteUnusedTemplate && pool == spec.templatePool - unused
    requires forall k :: k in spec.templatePool ==> (k in unused <==> k !in Referenced(spec))
    ensures pool == RemoveUnused(spec).templatePool
  {
  }

  /** Collecting and then hashing is hashing and then collecting. */
  lemma RemoveUnusedCommutesWithHash(h: Hasher, spec: TAppSpec)
    ensures UpdateTemplateHash(h, RemoveUnused(spec)) == RemoveUnused(UpdateTemplateHash(h, spec))
  {
    assert Referenced(UpdateTemplateHash(h, spec)) == Referenced(spec);
    assert UpdateTemplateHash(h, RemoveUnused(spec)).templatePool
        == RemoveUnused(UpdateTemplateHash(h, spec)).templatePool;
  }

  /** A deep copy of an app that a sync changes. */
  class TAppObject {
    const name: string
    const generation: int
    var spec: TAppSpec
    var status: TAppStatus

    ghost function View(): TApp
      reads this
    {
      TApp(name, generation, spec, status)
    }

    constructor (t: TApp)
      ensures View() == t
    {
      name, generation, spec, status := t.name, t.generation, t.spec, t.status;
    }

    method RemoveUnusedTemplate()
      modifies this`spec
      ensures spec == RemoveUnused(old(spec))
    {
      if !spec.autoDeleteUnusedTemplate { return; }
      var unused := spec.templatePool.Keys;
      if spec.defaultTemplateName != DEFAULT_TEMPLATE {
        unused := unused - {spec.defaultTemplateName};
      }
      ghost var start := unused;
      var ids := spec.templates.Keys;
      while ids != {}
        invariant ids <= spec.templates.Keys
        invariant unused == start - (set id | id in spec.templates && id !in ids :: spec.templates[id])
      {
        var id :| id in ids;
        unused, ids := unused - {spec.templates[id]}, ids - {id};
      }
      var rolling := RollingTemplateKey(spec);
      if rolling != "" {
        unused := unused - {rolling};
      }
      assert forall k :: k in spec.templatePool ==> (k in unused <==> k !in Referenced(spec));
      var pool := spec.templatePool;
      var doomed := unused;
      while doomed != {}
        invariant doomed <= unused
        invariant pool == spec.templatePool - (unused - doomed)
      {
        var k :| k in doomed;
        pool, doomed := pool - {k}, doomed - {k};
      }
      OnlyReferencedRemain(spec, unused, pool);
      spec := spec.(templatePool := pool);
    }

    method RefreshTemplateHash(h: Hasher)
      modifies this`spec
      ensures spec == UpdateTemplateHash(h, old(spec))
    {
      var inline := new TemplateObject(spec.template);
      inline.UpdateHash(h);
      var hashed := Template(inline.labels, inline.annotations, inline.spec);
      assert hashed == inline.View() == HashTemplate(h, spec.template);
      var pool := spec.templatePool;
      var todo := pool.Keys;
      while todo != {}
        invariant spec == old(spec)
        invariant todo <= spec.templatePool.Keys == pool.Keys
        invariant forall k :: k in todo ==> pool[k] == spec.templatePool[k]
        invariant forall k :: k in pool.Keys - todo ==>
                    pool[k] == HashPooled(h, spec.templatePool[k])
      {
        var k :| k in todo;
        var copy := new TemplateObject(pool[k]);
        copy.UpdateHash(h);
        // The copy shares the label map of the pool entry, unless that one is nil.
        if pool[k].labels.Some? {
          assert copy.View() == HashTemplate(h, pool[k]);
          pool := pool[k := pool[k].(labels := copy.labels)];
        }
        todo := todo - {k};
      }
      assert pool == HashPool(h, spec.templatePool);
      spec := spec.(template := hashed, templatePool := pool);
    }
  }
}
