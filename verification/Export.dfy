/** Which runs can be exported, and what the export lists. */
module Export {
  import opened Domain
  import opened RunLog
  import opened Workflow
  import opened Coherence
  import opened Conservation
  import opened Lineage
  import opened Runs
  import opened RunTheorems
  import opened DatabricksAdapter
  import opened Contents
  import opened DeterministicRuns
  import opened GovernanceMerge

  const KINDS: set<Kind> := {BusinessRequirement, TechnicalRequirement, SemanticModel, DataModel,
                             PipelineSpecification, MetricDefinitions, ReviewPackage}

  /** The newest row of every type the run has. */
  function NewestIndex(rows: seq<Row>): map<Kind, Row> {
    map k | k in KINDS && OfKind(rows, k) != [] :: OfKind(rows, k)[|OfKind(rows, k)| - 1]
  }

  function ExportOf(v: RunView, platform: string): Result<Manifest, AdapterError> {
    Platform(NewestIndex(v.rows), platform)
  }

  lemma NewestPackage(g: State)
    requires Good(g)
    ensures ApprovedPackage(NewestIndex(g.view.rows)) <==> IsApproved(g)
  {
    hide Coherent, Rooted, OfKind;
  }

  lemma ApprovedHasAll(g: State, k: Kind)
    requires Good(g) && IsApproved(g)
    ensures OfKind(g.view.rows, k) != [] && Latest(g.view.rows, k) == Some(NewestIndex(g.view.rows)[k].ToPtr())
  {
    hide LogOk, Typed, UnderReview, Rooted, OfKind, Stocked;
    assert |Pins(g.cp)| == 6;
  }

  lemma ApprovedMissesNothing(g: State)
    requires Good(g) && IsApproved(g)
    ensures Missing(NewestIndex(g.view.rows), EXPORTABLE) == []
  {
    hide Good, OfKind, NewestIndex, Missing;
    forall k | k in EXPORTABLE
      ensures k in NewestIndex(g.view.rows)
    {
      NewestRef(g, k);
    }
    NothingMissing(NewestIndex(g.view.rows), EXPORTABLE);
  }

  /** In every state that calls can lead to, export succeeds exactly when the run is approved. */
  lemma ExportExactlyWhenApproved(g: State, v: Verdict)
    requires Good(g) && (Stuck(g) || Matches(g, v))
    ensures ExportOf(g.view, "databricks").Ok? <==> g.view.status == RunStatus.Approved
  {
    hide Coherent, Packaged, Rooted, Counted, NewestIndex, ApprovedPackage, Missing;
    NewestPackage(g);
    if IsApproved(g) {
      ApprovedMissesNothing(g);
    }
  }

  /** Whatever calls a run has seen, export succeeds exactly when its status row says approved. */
  lemma ExportAfterAnyCalls(r: Run)
    ensures ExportOf(Now(r).view, "databricks").Ok? <==> Now(r).view.status == RunStatus.Approved
  {
    hide *;
    AnyRun(r);
    ExportExactlyWhenApproved(Now(r), Walk(DecisionsOf(r.calls)));
  }

  lemma PinsInOrder(rows: seq<Row>)
    requires |NewestRefs(rows)| == 6
    ensures NewestRefs(rows)[2..] ==
      RefTo(Latest(rows, SemanticModel), SemanticModel) + RefTo(Latest(rows, DataModel), DataModel)
      + RefTo(Latest(rows, PipelineSpecification), PipelineSpecification)
      + RefTo(Latest(rows, MetricDefinitions), MetricDefinitions)
  {
    hide Latest;
  }

  lemma NewestRef(g: State, k: Kind)
    requires Good(g) && IsApproved(g)
    ensures k in NewestIndex(g.view.rows) && [NewestIndex(g.view.rows)[k].ToRef()] == RefTo(Latest(g.view.rows, k), k)
  {
    hide Good, OfKind, Latest;
    ApprovedHasAll(g, k);
    NewestKinds(g);
  }

  /** Whenever a run can be exported, the export lists, for the four exportable types, exactly the
      references that the approved package pins, and that package itself. */
  lemma ExportListsPins(r: Run, m: Moment)
    requires ExportOf(At(r, m).view, "databricks").Ok?
    ensures var manifest := ExportOf(At(r, m).view, "databricks").value;
      var newest := NewestIndex(At(r, m).view.rows);
      ReviewPackage in newest && ListsPins(manifest, newest[ReviewPackage])
  {
    hide At, Good, NewestIndex, Platform, ListsPins;
    AlwaysGood(r, m);
    GoodExportListsPins(At(r, m));
  }

  ghost predicate ListsPins(manifest: Manifest, package: Row) {
    && package.payload.ReviewPackageBody?
    && var pins := package.payload.rp.pinned;
       && |pins| == 6 && manifest.reviewPackage == package.ToRef()
       && manifest.artefacts == [pins[3], pins[2], pins[4], pins[5], manifest.reviewPackage]
  }

  lemma GoodExportListsPins(g: State)
    requires Good(g) && ExportOf(g.view, "databricks").Ok?
    ensures var newest := NewestIndex(g.view.rows);
      ReviewPackage in newest && ListsPins(ExportOf(g.view, "databricks").value, newest[ReviewPackage])
  {
    hide Good, Latest, Missing, Merge, NewestIndex, NewestRefs;
    NewestPackage(g);
    NewestPackagePins(g);
    PinsInOrder(g.view.rows);
    NewestRef(g, SemanticModel);
    NewestRef(g, DataModel);
    NewestRef(g, PipelineSpecification);
    NewestRef(g, MetricDefinitions);
    var pins := NewestRefs(g.view.rows);
    assert pins[2] == pins[2..][0] && pins[3] == pins[2..][1] && pins[4] == pins[2..][2] && pins[5] == pins[2..][3];
  }

  lemma NewestPackagePins(g: State)
    requires Good(g) && IsApproved(g)
    ensures var package := NewestIndex(g.view.rows);
      && ReviewPackage in package && package[ReviewPackage].payload.ReviewPackageBody?
      && package[ReviewPackage].payload.rp.pinned == NewestRefs(g.view.rows) && |NewestRefs(g.view.rows)| == 6
  {
    hide Good, Latest, NewestRefs;
    ApprovedHasAll(g, ReviewPackage);
    var own := OfKind(g.view.rows, ReviewPackage);
    OfKindMembers(g.view.rows, ReviewPackage);
    GoodPackagesPinNewest(g, own[|own| - 1]);
  }

  // ----- what the export is annotated with, and when it is refused -----

  /** Whenever a run can be exported, the export and each of its assets is annotated with exactly
      what the newest rows are, which is what the newest data model is annotated with. */
  lemma ExportCarriesAnnotations(r: Run, m: Moment)
    requires ExportOf(At(r, m).view, "databricks").Ok?
    ensures var rows := At(r, m).view.rows; var manifest := ExportOf(At(r, m).view, "databricks").value;
      && ExportCarries(NewestIndex(rows), manifest)
      && StoredDm(rows).Some? && AnnotatedAs(manifest, StoredDm(rows).value.governance)
  {
    hide At, Good, Sound, NewestIndex, Platform, ExportCarries, AnnotatedAs, Newest;
    AlwaysSound(r, m);
    PlatformRefuses(NewestIndex(At(r, m).view.rows), "databricks");
    GoodExportIsAnnotated(At(r, m));
  }

  lemma GoodExportIsAnnotated(g: State)
    requires Good(g) && Sound(g) && ExportOf(g.view, "databricks").Ok?
    ensures StoredDm(g.view.rows).Some?
    ensures AnnotatedAs(ExportOf(g.view, "databricks").value, StoredDm(g.view.rows).value.governance)
  {
    hide Good, Sound, NewestIndex, Missing, ManifestOf, AnnotatedAs, StoredDm;
    var newest := NewestIndex(g.view.rows);
    NewestPackage(g);
    ApprovedMissesNothing(g);
    NothingMissing(newest, EXPORTABLE);
    forall k | k in newest && k != DataModel
      ensures newest[k].governance == None
    {
      NewestAnnotation(g, k);
    }
    NewestAnnotation(g, DataModel);
    DataModelAnnotates(newest);
  }

  lemma NewestAnnotation(g: State, k: Kind)
    requires Good(g) && Sound(g)
    ensures var newest := NewestIndex(g.view.rows);
      k in newest ==>
        && newest[k].governance == AnnotationOf(newest[k].payload)
        && (k != DataModel ==> newest[k].governance == None)
        && (k == DataModel ==>
              && StoredDm(g.view.rows).Some?
              && newest[k].governance == StoredDm(g.view.rows).value.governance)
  {
    hide LogOk, Pointers, Stocked, UnderReview, Packaged, Rooted, OfKind, Payloads, Reported, Parented, EdgesMatch;
    var own := OfKind(g.view.rows, k);
    OfKindMembers(g.view.rows, k);
    if own != [] {
      assert own[|own| - 1] in own;
    }
  }

  /** With the deterministic agents everything exported says that it is derived from objects the user
      can see. */
  lemma ExportKeepsAccessNote(r: Run, m: Moment, g: Option<Governance>)
    requires AllDeterministic(r) && ExportOf(At(r, m).view, "databricks").Ok?
    requires var manifest := ExportOf(At(r, m).view, "databricks").value;
      g in [manifest.bundle, manifest.job, manifest.tables, manifest.metricView]
    ensures g.Some? && "Derived only from user-visible fixture objects" in FieldOf(g.value, AccessNotes)
  {
    hide At, AllDeterministic, NewestIndex, Platform, ExportCarries, Newest;
    ExportCarriesAnnotations(r, m);
    DataModelKeepsAnnotations(r, m);
    var stored := StoredDm(At(r, m).view.rows).value.governance;
    assert "Derived only from user-visible fixture objects" in FieldOf(stored.value, AccessNotes);
  }

  /** After any calls a refused export is refused for its platform or, failing that, for want of
      approval; an approved run is never refused for an artefact that is not there. */
  lemma ExportRefusals(r: Run, platform: string)
    ensures var v := Now(r).view;
      match ExportOf(v, platform)
      case Err(error) =>
        error == if platform != "databricks" then WrongPlatform else ApprovalRequired
      case Ok(manifest) => platform == "databricks" && v.status == RunStatus.Approved
  {
    hide Good, Now, NewestIndex, ApprovedPackage, Missing, ManifestOf, Walk, Stuck, Matches;
    AnyRun(r);
    ExportAfterAnyCalls(r);
    NewestPackage(Now(r));
    if IsApproved(Now(r)) {
      ApprovedMissesNothing(Now(r));
    }
  }

  lemma NewestKinds(g: State)
    ensures forall k :: k in NewestIndex(g.view.rows) ==> NewestIndex(g.view.rows)[k].kind == k
  {
    forall k | k in NewestIndex(g.view.rows)
      ensures NewestIndex(g.view.rows)[k].kind == k
    {
      OfKindMembers(g.view.rows, k);
      assert NewestIndex(g.view.rows)[k] in OfKind(g.view.rows, k);
    }
  }
}
