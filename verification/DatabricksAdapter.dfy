/** The export stub: which stored versions it selects, when it refuses, and which governance
    annotations it attaches. Asset bodies are not modelled. */
module DatabricksAdapter {
  import opened Domain
  import opened RunLog
  import opened GovernanceMerge

  datatype AdapterError = WrongPlatform | ApprovalRequired | MissingArtefacts(missing: seq<Kind>)

  /** The manifest's references, in its order, and the governance of each asset. */
  datatype Manifest = Manifest(
    reviewPackage: Ref,
    artefacts: seq<Ref>,
    bundle: Option<Governance>,
    job: Option<Governance>,
    tables: Option<Governance>,
    metricView: Option<Governance>)

  /** The exportable types, sorted by their names. */
  const EXPORTABLE := [DataModel, MetricDefinitions, PipelineSpecification, SemanticModel]

  function Indexed(artefacts: seq<Row>): map<Kind, Row> {
    if artefacts == [] then
      map[]
    else
      var n := |artefacts| - 1;
      var before := Indexed(artefacts[..n]);
      var a := artefacts[n];
      if a.kind !in before || a.version >= before[a.kind].version then before[a.kind := a] else before
  }

  method IndexByType(artefacts: seq<Row>) returns (indexed: map<Kind, Row>)
    ensures indexed == Indexed(artefacts)
  {
    indexed := map[];
    for i := 0 to |artefacts|
      invariant indexed == Indexed(artefacts[..i])
    {
      assert artefacts[..i + 1][..i] == artefacts[..i];
      var a := artefacts[i];
      if a.kind !in indexed || a.version >= indexed[a.kind].version {
        indexed := indexed[a.kind := a];
      }
    }
    assert artefacts[..|artefacts|] == artefacts;
  }

  /** Each type present is indexed once, under an artefact of the highest version. */
  lemma {:induction false} IndexedIsHighest(artefacts: seq<Row>, k: Kind)
    ensures k in Indexed(artefacts) <==> exists a :: a in artefacts && a.kind == k
    ensures k in Indexed(artefacts) ==>
      && Indexed(artefacts)[k] in artefacts && Indexed(artefacts)[k].kind == k
      && forall a :: a in artefacts && a.kind == k ==> a.version <= Indexed(artefacts)[k].version
  {
    if artefacts != [] {
      var n := |artefacts| - 1;
      IndexedIsHighest(artefacts[..n], k);
      assert forall a :: a in artefacts <==> a in artefacts[..n] || a == artefacts[n];
    }
  }

  function Missing(indexed: map<Kind, Row>, kinds: seq<Kind>): seq<Kind> {
    if kinds == [] then
      []
    else
      (if kinds[0] in indexed then [] else [kinds[0]]) + Missing(indexed, kinds[1..])
  }

  predicate ApprovedPackage(indexed: map<Kind, Row>) {
    && ReviewPackage in indexed && indexed[ReviewPackage].payload.ReviewPackageBody?
    && indexed[ReviewPackage].payload.rp.decisionState == PackageApproved
  }

  lemma {:induction false} NothingMissing(indexed: map<Kind, Row>, kinds: seq<Kind>)
    ensures Missing(indexed, kinds) == [] <==> forall k :: k in kinds ==> k in indexed
  {
    if kinds != [] {
      NothingMissing(indexed, kinds[1..]);
      assert forall k :: k in kinds <==> k == kinds[0] || k in kinds[1..];
    }
  }

  function ManifestOf(indexed: map<Kind, Row>): Manifest
    requires ReviewPackage in indexed && forall k :: k in EXPORTABLE ==> k in indexed
  {
    assert EXPORTABLE[0] in EXPORTABLE && EXPORTABLE[1] in EXPORTABLE;
    assert EXPORTABLE[2] in EXPORTABLE && EXPORTABLE[3] in EXPORTABLE;
    var rp, dm, sm, pl, me :=
      indexed[ReviewPackage], indexed[DataModel], indexed[SemanticModel],
      indexed[PipelineSpecification], indexed[MetricDefinitions];
    var bundle := Merge([rp.governance, dm.governance, sm.governance, pl.governance, me.governance]);
    Manifest(
      rp.ToRef(),
      [dm.ToRef(), sm.ToRef(), pl.ToRef(), me.ToRef(), rp.ToRef()],
      bundle,
      Merge([pl.governance, bundle]),
      Merge([dm.governance, bundle]),
      Merge([sm.governance, me.governance, bundle]))
  }

  /** The same entries in every list, the same `extra` values. */
  ghost predicate SameAnnotations(g: Option<Governance>, h: Option<Governance>) {
    && g.Some? == h.Some?
    && (g.Some? ==>
          && (forall field, x :: x in FieldOf(g.value, field) <==> x in FieldOf(h.value, field))
          && g.value.extra == h.value.extra)
  }

  ghost predicate AnnotatedAs(m: Manifest, g: Option<Governance>) {
    && SameAnnotations(m.bundle, g) && SameAnnotations(m.job, g)
    && SameAnnotations(m.tables, g) && SameAnnotations(m.metricView, g)
  }

  lemma OnlyAnnotated(items: seq<Option<Governance>>, i: nat)
    requires i < |items| && forall j :: 0 <= j < |items| && j != i ==> items[j].None?
    ensures SameAnnotations(Merge(items), items[i])
  {
    hide Distinct, Entries, Extras;
    OnlyExtra(items, i);
    assert items[i] in items;
    forall field, x | items[i].Some?
      ensures x in FieldOf(Merge(items).value, field) <==> x in FieldOf(items[i].value, field)
    {
      MergeIsUnion(items, field, x);
      assert Some(items[i].value) in items;
    }
  }

  lemma BundleAgain(items: seq<Option<Governance>>, members: seq<Option<Governance>>)
    requires forall m :: m in members ==> m in items
    ensures SameAnnotations(Merge(members + [Merge(items)]), Merge(items))
  {
    hide Merge;
    var bundle, again := Merge(items), Merge(members + [Merge(items)]);
    MembersAgain(items, members, Labels);
    forall field, x | bundle.Some?
      ensures again.Some? && (x in FieldOf(again.value, field) <==> x in FieldOf(bundle.value, field))
    {
      MembersAgain(items, members, field);
    }
  }

  /** Every asset carries exactly the annotations of the bundle, none if no artefact has any. */
  lemma AssetsCarryTheBundle(indexed: map<Kind, Row>)
    requires ReviewPackage in indexed && forall k :: k in EXPORTABLE ==> k in indexed
    ensures var m := ManifestOf(indexed);
      SameAnnotations(m.job, m.bundle) && SameAnnotations(m.tables, m.bundle) && SameAnnotations(m.metricView, m.bundle)
  {
    hide Merge;
    assert EXPORTABLE[0] in EXPORTABLE && EXPORTABLE[1] in EXPORTABLE;
    assert EXPORTABLE[2] in EXPORTABLE && EXPORTABLE[3] in EXPORTABLE;
    var rp, dm := indexed[ReviewPackage].governance, indexed[DataModel].governance;
    var sm := indexed[SemanticModel].governance;
    var pl, me := indexed[PipelineSpecification].governance, indexed[MetricDefinitions].governance;
    var items := [rp, dm, sm, pl, me];
    assert [pl] + [Merge(items)] == [pl, Merge(items)] && [dm] + [Merge(items)] == [dm, Merge(items)];
    assert [sm, me] + [Merge(items)] == [sm, me, Merge(items)];
    BundleAgain(items, [pl]);
    BundleAgain(items, [dm]);
    BundleAgain(items, [sm, me]);
  }

  /** Where only the data model is annotated, the whole export is annotated as the data model is. */
  lemma DataModelAnnotates(indexed: map<Kind, Row>)
    requires ReviewPackage in indexed && forall k :: k in EXPORTABLE ==> k in indexed
    requires forall k :: k in indexed && k != DataModel ==> indexed[k].governance == None
    ensures DataModel in indexed && AnnotatedAs(ManifestOf(indexed), indexed[DataModel].governance)
  {
    hide Merge, SameAnnotations;
    assert EXPORTABLE[0] in EXPORTABLE && EXPORTABLE[1] in EXPORTABLE;
    assert EXPORTABLE[2] in EXPORTABLE && EXPORTABLE[3] in EXPORTABLE;
    AssetsCarryTheBundle(indexed);
    var m, g := ManifestOf(indexed), indexed[DataModel].governance;
    OnlyAnnotated([None, g, None, None, None], 1);
    SameThrough(m.job, m.bundle, g);
    SameThrough(m.tables, m.bundle, g);
    SameThrough(m.metricView, m.bundle, g);
  }

  lemma SameThrough(f: Option<Governance>, g: Option<Governance>, h: Option<Governance>)
    requires SameAnnotations(f, g) && SameAnnotations(g, h)
    ensures SameAnnotations(f, h)
  {
  }

  /** The types whose annotations an export carries. */
  const SELECTED: set<Kind> :=
    {ReviewPackage, DataModel, SemanticModel, PipelineSpecification, MetricDefinitions}

  function Annotation(indexed: map<Kind, Row>, k: Kind): Option<Governance> {
    if k in SELECTED && k in indexed then indexed[k].governance else None
  }

  /** `g` holds exactly what the artefacts to export are annotated with, and is none if none is. */
  ghost predicate CarriesAnnotations(indexed: map<Kind, Row>, g: Option<Governance>) {
    && (g.Some? <==> exists k :: Annotation(indexed, k).Some?)
    && (g.Some? ==>
          && (forall field, x ::
                x in FieldOf(g.value, field)
                <==> exists k :: Annotation(indexed, k).Some? && x in FieldOf(Annotation(indexed, k).value, field))
          && (forall x ::
                x in g.value.extra
                <==> exists k :: Annotation(indexed, k).Some? && x in Annotation(indexed, k).value.extra))
  }

  lemma MergedArtefacts(indexed: map<Kind, Row>, items: seq<Option<Governance>>, h: Governance)
    requires forall k :: k in SELECTED ==> k in indexed
    requires items == [indexed[ReviewPackage].governance, indexed[DataModel].governance,
                       indexed[SemanticModel].governance, indexed[PipelineSpecification].governance,
                       indexed[MetricDefinitions].governance]
    ensures Some(h) in items <==> exists k :: Annotation(indexed, k) == Some(h)
  {
    assert items[0] in items && items[1] in items && items[2] in items && items[3] in items && items[4] in items;
    assert items[0] == Annotation(indexed, ReviewPackage) && items[1] == Annotation(indexed, DataModel);
    assert items[2] == Annotation(indexed, SemanticModel) && items[3] == Annotation(indexed, PipelineSpecification);
    assert items[4] == Annotation(indexed, MetricDefinitions);
  }

  lemma MergedCarries(indexed: map<Kind, Row>, items: seq<Option<Governance>>)
    requires forall h :: Some(h) in items <==> exists k :: Annotation(indexed, k) == Some(h)
    ensures CarriesAnnotations(indexed, Merge(items))
  {
    hide Annotation, Distinct, Entries, Extras;
    var g := Merge(items);
    if g.Some? {
      var item :| item in items && item.Some?;
      assert Some(item.value) in items;
    }
    if k :| Annotation(indexed, k).Some? {
      assert Some(Annotation(indexed, k).value) in items;
    }
    forall field, x | g.Some?
      ensures x in FieldOf(g.value, field)
        <==> exists k :: Annotation(indexed, k).Some? && x in FieldOf(Annotation(indexed, k).value, field)
    {
      MergeIsUnion(items, field, x);
      FieldHolders(indexed, items, field, x);
    }
    forall x | g.Some?
      ensures x in g.value.extra
        <==> exists k :: Annotation(indexed, k).Some? && x in Annotation(indexed, k).value.extra
    {
      ExtraKeys(items, x);
      ExtraHolders(indexed, items, x);
    }
  }

  lemma FieldHolders(indexed: map<Kind, Row>, items: seq<Option<Governance>>, field: Field, x: string)
    requires forall h :: Some(h) in items <==> exists k :: Annotation(indexed, k) == Some(h)
    ensures (exists h :: Some(h) in items && x in FieldOf(h, field))
      <==> exists k :: Annotation(indexed, k).Some? && x in FieldOf(Annotation(indexed, k).value, field)
  {
    hide Annotation;
    if k :| Annotation(indexed, k).Some? && x in FieldOf(Annotation(indexed, k).value, field) {
      assert Some(Annotation(indexed, k).value) in items;
    }
  }

  lemma ExtraHolders(indexed: map<Kind, Row>, items: seq<Option<Governance>>, x: string)
    requires forall h :: Some(h) in items <==> exists k :: Annotation(indexed, k) == Some(h)
    ensures (exists h :: Some(h) in items && x in h.extra)
      <==> exists k :: Annotation(indexed, k).Some? && x in Annotation(indexed, k).value.extra
  {
    hide Annotation;
    if k :| Annotation(indexed, k).Some? && x in Annotation(indexed, k).value.extra {
      assert Some(Annotation(indexed, k).value) in items;
    }
  }

  lemma SameCarries(indexed: map<Kind, Row>, g: Option<Governance>, h: Option<Governance>)
    requires CarriesAnnotations(indexed, h) && SameAnnotations(g, h)
    ensures CarriesAnnotations(indexed, g)
  {
    hide Annotation;
  }

  /** An export is annotated with exactly what its five artefacts are annotated with, as a whole and
      on each of its assets. */
  ghost predicate ExportCarries(indexed: map<Kind, Row>, m: Manifest) {
    && CarriesAnnotations(indexed, m.bundle) && CarriesAnnotations(indexed, m.job)
    && CarriesAnnotations(indexed, m.tables) && CarriesAnnotations(indexed, m.metricView)
  }

  lemma ManifestCarries(indexed: map<Kind, Row>)
    requires ReviewPackage in indexed && forall k :: k in EXPORTABLE ==> k in indexed
    ensures ExportCarries(indexed, ManifestOf(indexed))
  {
    hide Merge, CarriesAnnotations, SameAnnotations;
    assert EXPORTABLE[0] in EXPORTABLE && EXPORTABLE[1] in EXPORTABLE;
    assert EXPORTABLE[2] in EXPORTABLE && EXPORTABLE[3] in EXPORTABLE;
    var items := [indexed[ReviewPackage].governance, indexed[DataModel].governance, indexed[SemanticModel].governance,
                  indexed[PipelineSpecification].governance, indexed[MetricDefinitions].governance];
    forall h: Governance
      ensures Some(h) in items <==> exists k :: Annotation(indexed, k) == Some(h)
    {
      MergedArtefacts(indexed, items, h);
    }
    MergedCarries(indexed, items);
    AssetsCarryTheBundle(indexed);
    var m := ManifestOf(indexed);
    SameCarries(indexed, m.job, m.bundle);
    SameCarries(indexed, m.tables, m.bundle);
    SameCarries(indexed, m.metricView, m.bundle);
  }

  function Platform(indexed: map<Kind, Row>, platform: string): Result<Manifest, AdapterError> {
    if platform != "databricks" then
      Err(WrongPlatform)
    else if !ApprovedPackage(indexed) then
      Err(ApprovalRequired)
    else if Missing(indexed, EXPORTABLE) != [] then
      Err(MissingArtefacts(Missing(indexed, EXPORTABLE)))
    else
      NothingMissing(indexed, EXPORTABLE);
      Ok(ManifestOf(indexed))
  }

  lemma {:induction false} MissingMembers(indexed: map<Kind, Row>, kinds: seq<Kind>, k: Kind)
    ensures k in Missing(indexed, kinds) <==> k in kinds && k !in indexed
  {
    if kinds != [] {
      MissingMembers(indexed, kinds[1..], k);
      assert k in kinds <==> k == kinds[0] || k in kinds[1..];
    }
  }

  /** Why an export is refused: the platform, then the approval, then the artefacts that are not
      there, all of them and no others. */
  ghost predicate RefusedFor(indexed: map<Kind, Row>, platform: string, error: AdapterError) {
    match error
    case WrongPlatform => platform != "databricks"
    case ApprovalRequired => platform == "databricks" && !ApprovedPackage(indexed)
    case MissingArtefacts(missing) =>
      && platform == "databricks" && ApprovedPackage(indexed) && missing != []
      && forall k ::
           k in missing
           <==> k in {DataModel, MetricDefinitions, PipelineSpecification, SemanticModel} && k !in indexed
  }

  lemma PlatformRefuses(indexed: map<Kind, Row>, platform: string)
    ensures match Platform(indexed, platform)
      case Err(error) => RefusedFor(indexed, platform, error)
      case Ok(m) => platform == "databricks" && ApprovedPackage(indexed) && ExportCarries(indexed, m)
  {
    hide ApprovedPackage, ManifestOf, ExportCarries;
    forall k
      ensures k in Missing(indexed, EXPORTABLE) <==> k in EXPORTABLE && k !in indexed
    {
      MissingMembers(indexed, EXPORTABLE, k);
    }
    NothingMissing(indexed, EXPORTABLE);
    if Platform(indexed, platform).Ok? {
      PackageIndexed(indexed);
      ManifestCarries(indexed);
    }
  }

  lemma PackageIndexed(indexed: map<Kind, Row>)
    requires ApprovedPackage(indexed)
    ensures ReviewPackage in indexed
  {
  }

  method ToPlatform(artefacts: seq<Row>, platform: string) returns (r: Result<Manifest, AdapterError>)
    ensures r == Platform(Indexed(artefacts), platform)
    ensures r.Err? ==> RefusedFor(Indexed(artefacts), platform, r.error)
    ensures r.Ok? ==> ExportCarries(Indexed(artefacts), r.value)
  {
    hide ExportCarries, RefusedFor;
    PlatformRefuses(Indexed(artefacts), platform);
    if platform != "databricks" {
      return Err(WrongPlatform);
    }
    var indexed := IndexByType(artefacts);
    if !ApprovedPackage(indexed) {
      return Err(ApprovalRequired);
    }
    var missing := Missing(indexed, EXPORTABLE);
    if missing != [] {
      return Err(MissingArtefacts(missing));
    }
    NothingMissing(indexed, EXPORTABLE);
    assert EXPORTABLE[0] in EXPORTABLE && EXPORTABLE[1] in EXPORTABLE;
    assert EXPORTABLE[2] in EXPORTABLE && EXPORTABLE[3] in EXPORTABLE;
    var rp, dm, sm := indexed[ReviewPackage], indexed[DataModel], indexed[SemanticModel];
    var pl, me := indexed[PipelineSpecification], indexed[MetricDefinitions];
    var bundle := MergeGovernance([rp.governance, dm.governance, sm.governance, pl.governance, me.governance]);
    var job := MergeGovernance([pl.governance, bundle]);
    var tables := MergeGovernance([dm.governance, bundle]);
    var metricView := MergeGovernance([sm.governance, me.governance, bundle]);
    r := Ok(Manifest(
      rp.ToRef(), [dm.ToRef(), sm.ToRef(), pl.ToRef(), me.ToRef(), rp.ToRef()], bundle, job, tables, metricView));
  }
}
