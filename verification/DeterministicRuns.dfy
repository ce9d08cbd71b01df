/** Runs whose modelling and engineer agents are the deterministic ones: what discovery lets the
    user see is what the pipeline ingests, and the data model is a proper star schema. */
module DeterministicRuns {
  import opened Domain
  import opened Discovery
  import opened Mapping
  import opened RunLog
  import opened Workflow
  import opened Coherence
  import opened Lineage
  import opened Runs
  import opened Sources
  import opened Contents
  import opened Modelling
  import Engineer

  function DeterministicModels(tr: TechnicalRequirementPayload, dm: Option<DataModelPayload>, feedback: Option<string>)
    : Option<(SemanticModelPayload, DataModelPayload)>
  {
    match Remodel(tr, dm, feedback)
    case Err(_) => None
    case Ok(models) =>
      StarIsNeverEmpty(if dm.Some? then dm.value.entities else [], Dimensions(tr));
      Some((models.0, models.1))
  }

  /** Requirements and metrics may come from anywhere; the node passes the engineer no feedback. */
  ghost predicate Deterministic(a: Agents) {
    && (forall tr, dm, f :: a.modelling(tr, dm, f) == DeterministicModels(tr, dm, f))
    && (forall tr, sm, dm :: a.pipeline(tr, sm, dm) == Some(Engineer.GeneratePipeline(tr, dm, None)))
  }

  function SourceIds(c: Settings, cp: Checkpoint): seq<string> {
    ObjectIds(Found(c, cp))
  }

  /** What mapping makes of the visible objects. */
  function SliceEntities(found: seq<CatalogueObject>): seq<Entity> {
    if found == [] then [PLACEHOLDER] else EntitiesOf(found)
  }

  ghost predicate SliceModel(dm: DataModelFields, found: seq<CatalogueObject>) {
    && dm.entities == SliceEntities(found) && dm.relationships == JoinsOf(EntitiesOf(found))
    && Closed(dm.entities, dm.relationships) && dm.governance == Some(SLICE_GOVERNANCE)
  }

  ghost predicate StarModel(dm: DataModelFields, found: seq<CatalogueObject>, dims: seq<string>) {
    && dm.entities == StarEntities(SliceEntities(found), dims)
    && Closed(dm.entities, dm.relationships) && dm.governance == Some(SLICE_GOVERNANCE)
  }

  /** Before modelling the slice; afterwards the star schema built on it, which agrees with the
      requirement and the semantic model. */
  ghost predicate ModelFits(c: Settings, cp: Checkpoint, dm: DataModelFields) {
    if cp.sm.None? then
      SliceModel(dm, Found(c, cp))
    else
      && cp.trPayload.Some? && cp.smPayload.Some?
      && StarModel(dm, Found(c, cp), Dimensions(cp.trPayload.value))
      && ModelsAgree(cp.trPayload.value, JoinsOf(EntitiesOf(Found(c, cp))), cp.smPayload.value, dm)
  }

  predicate IngestsFrom(p: PipelinePayload, ids: seq<string>) {
    |p.stages| >= 1 && p.stages[0].kind == Ingest && p.stages[0].inputs == Engineer.IngestInputs(ids)
  }

  /** The newest data model is what the phase calls for, and sources are passed on unchanged. */
  ghost predicate Sourced(c: Settings, g: State) {
    var own := OfKind(g.view.rows, DataModel);
    && !g.cp.forceEmptySources
    && (g.next.MapData? || g.next.JudgeMapping? ==> g.cp.discovered == Found(c, g.cp))
    && (g.next.JudgeMapping? || g.next.PersistMapping? ==>
          g.cp.proposal == Propose(Found(c, g.cp), g.cp.trPayload, g.cp.feedback, false))
    && (own != [] ==>
          && own[|own| - 1].payload.DataModelBody?
          && own[|own| - 1].payload.dm.context.sourceIds == SourceIds(c, g.cp)
          && ModelFits(c, g.cp, own[|own| - 1].payload.dm)
          && (g.cp.dmPayload.Some? ==> g.cp.dmPayload.value == own[|own| - 1].payload.dm))
    && (g.cp.pipelinePayload.Some? ==> IngestsFrom(g.cp.pipelinePayload.value, SourceIds(c, g.cp)))
    && (forall r :: r in g.view.rows && r.kind == PipelineSpecification ==>
          g.cp.pipelinePayload.Some? && r.payload == PipelineBody(g.cp.pipelinePayload.value))
  }

  /** A slice built from what was found is closed. */
  lemma SliceFits(found: seq<CatalogueObject>, cp: Checkpoint)
    requires cp.proposal == Propose(found, cp.trPayload, cp.feedback, false)
    ensures SliceModel(Slice(cp.proposal, cp.judgeNotes, cp.escalated), found)
  {
    hide NotesOf, JoinsOf, EntityOf, HasEntity;
    var slice := Slice(cp.proposal, cp.judgeNotes, cp.escalated);
    forall l | l in slice.relationships
      ensures HasEntity(slice.entities, l.fromEntity) && HasEntity(slice.entities, l.toEntity)
    {
      SliceIsClosed(found, cp.trPayload, cp.feedback, false, cp.judgeNotes, cp.escalated, l);
    }
  }

  // ----- every node keeps it -----

  /** States that agree on what `Sourced` reads of the store and the model payloads. */
  ghost predicate SameModels(g: State, h: State) {
    && OfKind(h.view.rows, DataModel) == OfKind(g.view.rows, DataModel)
    && (forall r :: r in h.view.rows && r.kind == PipelineSpecification ==> r in g.view.rows)
    && h.cp.userId == g.cp.userId && h.cp.accessible == g.cp.accessible
    && h.cp.sm == g.cp.sm && h.cp.smPayload == g.cp.smPayload
    && h.cp.dmPayload == g.cp.dmPayload && h.cp.pipelinePayload == g.cp.pipelinePayload
    && !h.cp.forceEmptySources
  }

  lemma OutsideMapping(c: Settings, g: State, h: State)
    requires Sourced(c, g) && SameModels(g, h)
    requires h.cp.trPayload == g.cp.trPayload || g.cp.sm.None?
    requires !h.next.MapData? && !h.next.JudgeMapping? && !h.next.PersistMapping?
    ensures Sourced(c, h)
  {
    hide OfKind, SliceModel, StarModel, ModelsAgree, IngestsFrom, Found;
    SameFound(c, g.cp, h.cp);
  }

  lemma QuietSourced(c: Settings, a: Agents, g: State)
    requires Quiet(g.next) && !Raises(a, g) && Sourced(c, g)
    ensures Sourced(c, StepOrRaise(c, a, g))
  {
    hide OfKind, SliceModel, StarModel, ModelsAgree, IngestsFrom, Propose, DiscoverAccessibleObjects, Judged, Strip;
    hide EnsureBrStep, GenerateTrStep, PersistStep, ModelStep, PipelineStep, MetricsStep, AssembleStep, ApproveStep;
  }

  lemma OtherKinds(v: RunView, minted: Uuid, q: Request, parents: seq<Ref>, s: SavedRow)
    requires Stores(v, minted, q, parents, s) && q.kind != DataModel && q.kind != PipelineSpecification
    ensures OfKind(s.view.rows, DataModel) == OfKind(v.rows, DataModel)
    ensures forall r :: r in s.view.rows && r.kind == PipelineSpecification ==> r in v.rows
  {
    hide OfKind, LogOk, Typed;
    NewRowOnly(v, minted, q, parents, s);
  }

  lemma KeepsHooksOff(c: Settings, g: State)
    requires Sourced(c, g)
    ensures !g.cp.forceEmptySources
  {
    hide OfKind, SliceModel, StarModel, ModelsAgree, IngestsFrom, ModelFits, Found, Propose;
  }

  /** A node that saves one row of another kind and leaves the models in the checkpoint alone. */
  lemma OneSaveSourced(c: Settings, g: State, h: State, q: Request, parents: seq<Ref>, s: SavedRow)
    requires Sourced(c, g) && Stores(g.view, g.minted, q, parents, s) && h.view == s.view
    requires q.kind != DataModel && q.kind != PipelineSpecification
    requires SameUser(g.cp, h.cp) && h.cp.forceEmptySources == g.cp.forceEmptySources
    requires h.cp.sm == g.cp.sm && h.cp.smPayload == g.cp.smPayload
    requires h.cp.dmPayload == g.cp.dmPayload && h.cp.pipelinePayload == g.cp.pipelinePayload
    requires h.cp.trPayload == g.cp.trPayload || g.cp.sm.None?
    requires !h.next.MapData? && !h.next.JudgeMapping? && !h.next.PersistMapping?
    ensures Sourced(c, h)
  {
    hide Stores, OfKind, ModelFits, Found, Propose, Sourced;
    KeepsHooksOff(c, g);
    OtherKinds(g.view, g.minted, q, parents, s);
    OutsideMapping(c, g, h);
  }

  lemma EnsureBrSourced(c: Settings, g: State)
    requires Coherent(g) && Sourced(c, g) && g.next == EnsureBr
    ensures Sourced(c, EnsureBrStep(g))
  {
    hide Coherent, Stores, Keep, Sourced, Requirement;
    BrStores(g);
    OneSaveSourced(c, g, EnsureBrStep(g), BrRequest(g.cp), [], Keep(g.view, g.minted, BrRequest(g.cp)));
  }

  lemma GenerateTrSourced(c: Settings, a: Agents, g: State)
    requires Coherent(g) && Sourced(c, g) && g.next == GenerateTr && AskRequirement(a, g).Some?
    ensures Sourced(c, GenerateTrStep(a, g))
  {
    hide LogOk, Typed, Pointers, UnderReview, Stores, Derive, Sourced, AskRequirement;
    var q := TrRequest(g.cp, AskRequirement(a, g).value);
    TrStores(g, AskRequirement(a, g).value);
    OneSaveSourced(c, g, GenerateTrStep(a, g), q, q.parents, Derive(g.view, g.minted, q));
  }

  lemma MetricsSourced(c: Settings, a: Agents, g: State)
    requires Coherent(g) && Sourced(c, g) && g.next == DefineMetrics && AskMetrics(a, g).Some?
    ensures Sourced(c, MetricsStep(a, g))
  {
    hide Coherent, Stores, Derive, Sourced, AskMetrics;
    var q := MetricsRequest(g.cp, AskMetrics(a, g).value);
    MetricsStores(g, AskMetrics(a, g).value);
    OneSaveSourced(c, g, MetricsStep(a, g), q, q.parents, Derive(g.view, g.minted, q));
  }

  lemma AssembleSourced(c: Settings, g: State)
    requires Coherent(g) && Sourced(c, g) && g.next == AssemblePackage
    ensures Pins(g.cp) != [] && Sourced(c, AssembleStep(g))
  {
    hide Coherent, Stores, Derive, Sourced, Pins;
    PackageStores(g);
    var q := PackageRequest(g.cp);
    OneSaveSourced(c, g, AssembleStep(g), q, q.parents, Derive(g.view, g.minted, q));
  }

  lemma ApproveSourced(c: Settings, a: Agents, g: State)
    requires g.next == MarkApproved && !Raises(a, g) && Coherent(g) && Sourced(c, g)
    ensures Sourced(c, StepOrRaise(c, a, g))
  {
    hide Coherent, Stores, Keep, Sourced, PackageRow;
    ApprovalStores(g);
    var q := ApprovalRequest(PackageRow(g).value);
    assert StepOrRaise(c, a, g) == ApproveStep(g);
    OneSaveSourced(c, g, ApproveStep(g), q, [], Keep(g.view, g.minted, q));
  }

  lemma PersistSourced(c: Settings, g: State)
    requires Coherent(g) && Sourced(c, g) && g.next == PersistMapping
    ensures Sourced(c, PersistStep(g))
  {
    hide LogOk, Typed, Pointers, UnderReview, OfKind, Derive, SliceModel, StarModel, ModelsAgree, IngestsFrom, Found;
    hide Stores;
    SliceStores(g);
    var q := SliceRequest(g.cp);
    NewRowOnly(g.view, g.minted, q, q.parents, Derive(g.view, g.minted, q));
    SliceFits(Found(c, g.cp), g.cp);
    SameFound(c, g.cp, PersistStep(g).cp);
  }

  /** One more modelling round keeps, or first makes, a star schema that agrees with its semantic
      model. */
  lemma ModelRound(c: Settings, cp: Checkpoint, dm: DataModelPayload, feedback: Option<string>)
    requires cp.trPayload.Some? && Remodel(cp.trPayload.value, Some(dm), feedback).Ok? && ModelFits(c, cp, dm)
    ensures var models := Remodel(cp.trPayload.value, Some(dm), feedback).value;
      && models.1.context.sourceIds == dm.context.sourceIds
      && StarModel(models.1, Found(c, cp), Dimensions(cp.trPayload.value))
      && ModelsAgree(cp.trPayload.value, JoinsOf(EntitiesOf(Found(c, cp))), models.0, models.1)
  {
    hide Remodel, StarModel, ModelFits, ModelsAgree, Found, JoinsOf;
    RoundIsStar(c, cp, dm, feedback);
    RemodelAgrees(cp.trPayload.value, Some(dm), feedback);
    AgreedBefore(c, cp, dm);
    if cp.sm.Some? {
      var models := Remodel(cp.trPayload.value, Some(dm), feedback).value;
      AgreeingRound(cp.trPayload.value, JoinsOf(EntitiesOf(Found(c, cp))), dm, cp.smPayload.value, models);
    }
  }

  lemma AgreedBefore(c: Settings, cp: Checkpoint, dm: DataModelPayload)
    requires ModelFits(c, cp, dm)
    ensures
      if cp.sm.None? then
        dm.relationships == JoinsOf(EntitiesOf(Found(c, cp)))
      else
        && cp.trPayload.Some? && cp.smPayload.Some?
        && ModelsAgree(cp.trPayload.value, JoinsOf(EntitiesOf(Found(c, cp))), cp.smPayload.value, dm)
  {
    hide Found, JoinsOf, ModelsAgree, StarModel;
  }

  /** What agrees with the round before agrees with what that round started from. */
  lemma AgreeingRound(
    tr: TechnicalRequirementPayload,
    joins: seq<Relationship>,
    dm: DataModelPayload,
    sm: SemanticModelPayload,
    models: (SemanticModelPayload, DataModelFields))
    requires ModelsAgree(tr, joins, sm, dm) && ModelsAgree(tr, dm.relationships, models.0, models.1)
    ensures ModelsAgree(tr, joins, models.0, models.1)
  {
    hide HasEntity, JoinsDimension;
  }

  lemma RoundIsStar(c: Settings, cp: Checkpoint, dm: DataModelPayload, feedback: Option<string>)
    requires cp.trPayload.Some? && Remodel(cp.trPayload.value, Some(dm), feedback).Ok? && ModelFits(c, cp, dm)
    ensures var models := Remodel(cp.trPayload.value, Some(dm), feedback).value;
      && models.1.context.sourceIds == dm.context.sourceIds
      && StarModel(models.1, Found(c, cp), Dimensions(cp.trPayload.value))
  {
    hide Dimensions, Measures, StarLinks, StarEntities, HasEntity, SliceEntities, Found, ModelsAgree, JoinsOf;
    var dims := Dimensions(cp.trPayload.value);
    StarAdds(dm.entities, dims);
    StarIsComplete(dm.entities, dims);
    StarIsComplete(SliceEntities(Found(c, cp)), dims);
    ClosedStays(dm.entities, StarEntities(dm.entities, dims), dm.relationships);
  }

  lemma ClosedStays(entities: seq<Entity>, more: seq<Entity>, links: seq<Relationship>)
    requires Closed(entities, links) && forall e :: e in entities ==> e in more
    ensures Closed(more, links)
  {
  }

  /** What the deterministic agents answer at their nodes. */
  lemma DeterministicAnswers(a: Agents, g: State)
    requires Coherent(g) && !Raises(a, g) && Deterministic(a)
    ensures g.next == Model ==>
      && g.cp.trPayload.Some? && MappingModel(g).Some? && AskModels(a, g).Some?
      && Remodel(g.cp.trPayload.value, MappingModel(g), g.cp.feedback).Ok?
      && var models := Remodel(g.cp.trPayload.value, MappingModel(g), g.cp.feedback).value;
         AskModels(a, g).value.0 == models.0 && AskModels(a, g).value.1 == models.1
    ensures g.next == BuildPipeline ==>
      && g.cp.trPayload.Some? && g.cp.dmPayload.Some? && AskPipeline(a, g).Some?
      && AskPipeline(a, g).value == Engineer.GeneratePipeline(g.cp.trPayload.value, g.cp.dmPayload.value, None)
  {
    hide LogOk, Typed, Pointers, UnderReview, Remodel, MappingRow, MappingModel, Engineer.GeneratePipeline;
    if g.next == Model {
      MappingIsLatest(g);
      assert a.modelling(g.cp.trPayload.value, MappingModel(g), g.cp.feedback)
          == DeterministicModels(g.cp.trPayload.value, MappingModel(g), g.cp.feedback);
    }
  }

  /** The two rows that modelling adds. */
  lemma ModelRows(a: Agents, g: State)
    requires Coherent(g) && g.next == Model && AskModels(a, g).Some?
    ensures var h := ModelStep(a, g); var dm := ModelData(a, g).row;
      && OfKind(h.view.rows, DataModel) == OfKind(g.view.rows, DataModel) + [dm]
      && dm.payload == DataModelBody(AskModels(a, g).value.1)
      && (forall r :: r in h.view.rows && r.kind == PipelineSpecification ==> r in g.view.rows)
  {
    hide Coherent, OfKind, Stores, ModelData, ModelSemantics, AskModels, SemanticRequest;
    ModelSaves(a, g);
    var models, d := AskModels(a, g).value, ModelData(a, g);
    var q, r := DataModelRequest(g, models.1), SemanticRequest(g.cp, models.0, d.row.ToRef());
    NewRowOnly(g.view, g.minted, q, q.parents, d);
    NewRowOnly(d.view, d.minted, r, r.parents, ModelSemantics(a, g));
  }

  lemma ModelSourced(c: Settings, a: Agents, g: State)
    requires g.next == Model && AskModels(a, g).Some? && !Raises(a, g)
    requires Coherent(g) && Sourced(c, g) && Deterministic(a)
    ensures Sourced(c, ModelStep(a, g))
  {
    hide Coherent, OfKind, ModelData, ModelSemantics, MappingRow, MappingModel, AskModels, Raises;
    hide Found, StarModel, SliceModel, ModelsAgree, IngestsFrom, Remodel, Dimensions, Propose, Deterministic;
    assert g.cp.mapping.Some? by {
      MappingStocked(g);
    }
    MappingIsLatest(g);
    DeterministicAnswers(a, g);
    ModelRound(c, g.cp, MappingModel(g).value, g.cp.feedback);
    ModelRows(a, g);
    SameFound(c, g.cp, ModelStep(a, g).cp);
  }

  lemma MappingStocked(g: State)
    requires Coherent(g) && g.next == Model
    ensures g.cp.mapping.Some?
  {
    hide LogOk, Typed, Pointers, UnderReview;
  }

  /** The first pipeline row, and nothing else new. */
  lemma FirstPipeline(c: Settings, g: State, h: State, row: Row)
    requires Sourced(c, g) && OfKind(g.view.rows, DataModel) != []
    requires forall r :: r in g.view.rows ==> r.kind != PipelineSpecification
    requires h.view.rows == g.view.rows + [row] && OfKind(h.view.rows, DataModel) == OfKind(g.view.rows, DataModel)
    requires h.cp.pipelinePayload.Some? && row.payload == PipelineBody(h.cp.pipelinePayload.value)
    requires IngestsFrom(h.cp.pipelinePayload.value, SourceIds(c, g.cp))
    requires h.next == ValidatePipeline && h.cp.userId == g.cp.userId && h.cp.accessible == g.cp.accessible
    requires h.cp.sm == g.cp.sm && h.cp.smPayload == g.cp.smPayload
    requires h.cp.dmPayload == g.cp.dmPayload && h.cp.trPayload == g.cp.trPayload
    requires h.cp.forceEmptySources == g.cp.forceEmptySources
    ensures Sourced(c, h)
  {
    hide OfKind, StarModel, SliceModel, ModelsAgree, IngestsFrom, Found, Propose;
    SameFound(c, g.cp, h.cp);
  }

  lemma PipelineSourced(c: Settings, a: Agents, g: State)
    requires Coherent(g) && Sourced(c, g) && g.next == BuildPipeline && !Raises(a, g) && Deterministic(a)
    ensures Sourced(c, PipelineStep(a, g))
  {
    hide Coherent, Sourced, OfKind, Stores, Derive, AskPipeline, Deterministic, SourceIds, Raises;
    hide IngestsFrom, Engineer.GeneratePipeline, ModelFits;
    ModelsExist(g);
    NoPipelineYet(g);
    DeterministicAnswers(a, g);
    DmPayloadSources(c, g);
    GeneratedIngests(g.cp.trPayload.value, g.cp.dmPayload.value);
    var pipeline := AskPipeline(a, g).value;
    PipelineStores(g, pipeline);
    var q := PipelineRequest(g.cp, pipeline);
    var s := Derive(g.view, g.minted, q);
    NewRowOnly(g.view, g.minted, q, q.parents, s);
    FirstPipeline(c, g, PipelineStep(a, g), s.row);
  }

  lemma DmPayloadSources(c: Settings, g: State)
    requires Sourced(c, g) && OfKind(g.view.rows, DataModel) != [] && g.cp.dmPayload.Some?
    ensures g.cp.dmPayload.value.context.sourceIds == SourceIds(c, g.cp)
  {
    hide OfKind, StarModel, SliceModel, ModelsAgree, IngestsFrom, Found, Propose;
  }

  lemma GeneratedIngests(tr: TechnicalRequirementPayload, dm: DataModelPayload)
    ensures IngestsFrom(Engineer.GeneratePipeline(tr, dm, None), dm.context.sourceIds)
  {
  }

  lemma NoPipelineYet(g: State)
    requires Coherent(g) && g.next == BuildPipeline
    ensures forall r :: r in g.view.rows ==> r.kind != PipelineSpecification
  {
    hide LogOk, Typed, UnderReview;
    OfKindMembers(g.view.rows, PipelineSpecification);
  }

  lemma ModelsExist(g: State)
    requires Coherent(g) && g.next == BuildPipeline
    ensures OfKind(g.view.rows, DataModel) != []
  {
    hide LogOk, Typed, UnderReview;
  }

  lemma StepSourced(c: Settings, a: Agents, g: State)
    requires Coherent(g) && Sourced(c, g) && !Paused(g) && !Raises(a, g) && Deterministic(a)
    ensures Sourced(c, Step(c, a, g))
  {
    hide Coherent, Sourced, Deterministic, EnsureBrStep, GenerateTrStep, PersistStep, ModelStep, PipelineStep;
    hide MetricsStep;
    hide AssembleStep, ApproveStep;
    match g.next {
      case EnsureBr => EnsureBrSourced(c, g);
      case GenerateTr => GenerateTrSourced(c, a, g);
      case PersistMapping => PersistSourced(c, g);
      case Model => ModelSourced(c, a, g);
      case BuildPipeline => PipelineSourced(c, a, g);
      case DefineMetrics => MetricsSourced(c, a, g);
      case AssemblePackage => AssembleSourced(c, g);
      case MarkApproved => ApproveSourced(c, a, g);
      case _ =>
        hide Step;
        QuietSourced(c, a, g);
    }
  }

  // ----- whole runs -----

  lemma SyncSourced(c: Settings, g: State)
    requires Sourced(c, g) && Paused(g)
    ensures Sourced(c, Sync(g))
  {
    hide OfKind, SliceModel, StarModel, IngestsFrom, Found, Propose;
    if Sync(g) != g {
      OutsideMapping(c, g, Sync(g));
    }
  }

  lemma LaterSourced(c: Settings, g: State, minted: Uuid)
    requires Sourced(c, g)
    ensures Sourced(c, Later(g, minted))
  {
    hide OfKind, SliceModel, StarModel, IngestsFrom, Found, Propose;
  }

  lemma ReviewedSourced(c: Settings, g: State, d: Decision, comments: string)
    requires Sourced(c, g) && IsGate(g.next)
    ensures Sourced(c, Reviewed(g, d, comments))
  {
    hide OfKind, SliceModel, StarModel, IngestsFrom, Found, Propose;
    assert g.cp.forceEmptySources == false;
    OutsideMapping(c, g, Reviewed(g, d, comments));
  }

  ghost predicate AllDeterministic(r: Run) {
    Deterministic(r.agents) && forall call :: call in r.calls ==> Deterministic(call.agents)
  }

  lemma AlwaysSourced(r: Run, m: Moment)
    requires AllDeterministic(r)
    ensures Good(At(r, m)) && Sourced(r.settings, At(r, m))
  {
    hide Good, Sourced, Deterministic, Step, Raises, Reviewed, Sync, Later, At;
    var c := r.settings;
    var who: Agents -> bool, inv: State -> bool := (a: Agents) => Deterministic(a), (g: State) => Sourced(c, g);
    assert inv(InitialState(r.request, r.minted)) by {
      InitialSourced(c, r.request, r.minted);
    }
    forall a, g | who(a) && Good(g) && inv(g) && !Paused(g) && !Raises(a, g)
      ensures inv(Step(c, a, g))
    {
      GoodIsCoherent(g);
      StepSourced(c, a, g);
    }
    forall g, d, comments | Good(g) && inv(g) && IsGate(g.next)
      ensures inv(Reviewed(g, d, comments))
    {
      ReviewedSourced(c, g, d, comments);
    }
    forall g | Paused(g) && inv(g)
      ensures inv(Sync(g))
    {
      SyncSourced(c, g);
    }
    forall g, minted | inv(g)
      ensures inv(Later(g, minted))
    {
      LaterSourced(c, g, minted);
    }
    Always(r, m, who, inv);
  }

  lemma InitialSourced(c: Settings, q: StartRequest, minted: Uuid)
    ensures Sourced(c, InitialState(q, minted))
  {
  }

  /** Through any revisions at any gate, a stored pipeline ingests exactly the catalogue objects
      whose access list names the user and whose id the allow-list admits, in catalogue order,
      or the placeholder when there is none. */
  lemma PipelineIngestsVisible(r: Run, m: Moment, row: Row)
    requires AllDeterministic(r) && row in At(r, m).view.rows && row.kind == PipelineSpecification
    ensures row.payload.PipelineBody? && IngestsFrom(row.payload.pipeline, ObjectIds(Seen(r)))
  {
    hide At, Good, Sourced, IngestsFrom, AllDeterministic, Seen, Found;
    AlwaysSourced(r, m);
    FoundIsSeen(r, m);
    SourcedPipeline(r.settings, At(r, m), row);
  }

  lemma SourcedPipeline(c: Settings, g: State, row: Row)
    requires Sourced(c, g) && row in g.view.rows && row.kind == PipelineSpecification
    ensures row.payload.PipelineBody? && IngestsFrom(row.payload.pipeline, SourceIds(c, g.cp))
  {
    hide OfKind, ModelFits, IngestsFrom, Found, Propose;
  }

  /** And once modelling has run, the newest data model is the star schema that the newest stored
      requirement asks for, over the visible objects: no relationship dangles, names are distinct if
      and only if the objects' are, and every star key is on both of its ends unless an object bears
      a star name without the key. */
  lemma DataModelIsStar(r: Run, m: Moment)
    requires AllDeterministic(r) && At(r, m).cp.sm.Some?
    ensures var rows := At(r, m).view.rows; var tr, dm := StoredTr(rows), StoredDm(rows);
      tr.Some? && dm.Some? && StarOver(dm.value, SliceEntities(Seen(r)), Dimensions(tr.value))
  {
    hide At, Good, Sourced, AllDeterministic, Seen, Found, Newest, StarOver, Sound, ModelsAgree, StarModel;
    ModelsInRuns(r, m);
    StarIsOver(StoredDm(At(r, m).view.rows).value, Seen(r), Dimensions(StoredTr(At(r, m).view.rows).value));
  }

  /** The newest stored semantic model names what the newest stored requirement asks for, and the
      newest stored data model realises it and relates nothing else but the joins of the mapping. */
  lemma SemanticModelAgrees(r: Run, m: Moment)
    requires AllDeterministic(r) && At(r, m).cp.sm.Some?
    ensures var rows := At(r, m).view.rows; var tr, sm, dm := StoredTr(rows), StoredSm(rows), StoredDm(rows);
      tr.Some? && sm.Some? && dm.Some? && ModelsAgree(tr.value, JoinsOf(EntitiesOf(Seen(r))), sm.value, dm.value)
  {
    hide At, Good, Sourced, AllDeterministic, Seen, Found, Newest, Sound, ModelsAgree, StarModel;
    ModelsInRuns(r, m);
  }

  /** The newest data model still says that it is made of visible objects only. */
  lemma DataModelKeepsAnnotations(r: Run, m: Moment)
    requires AllDeterministic(r) && StoredDm(At(r, m).view.rows).Some?
    ensures var governance := StoredDm(At(r, m).view.rows).value.governance;
      governance.Some? && "Derived only from user-visible fixture objects" in governance.value.accessNotes
  {
    hide At, Good, Sourced, AllDeterministic, Newest;
    AlwaysSourced(r, m);
    AnnotationsOfSourced(r.settings, At(r, m));
    assert SLICE_GOVERNANCE.accessNotes[0] == "Derived only from user-visible fixture objects";
  }

  lemma AnnotationsOfSourced(c: Settings, g: State)
    requires Sourced(c, g) && StoredDm(g.view.rows).Some?
    ensures StoredDm(g.view.rows).value.governance == Some(SLICE_GOVERNANCE)
  {
    hide OfKind, Found, IngestsFrom, ModelsAgree, StarEntities, SliceEntities, JoinsOf, Closed, Propose;
  }

  /** What modelling has stored by then. */
  lemma ModelsInRuns(r: Run, m: Moment)
    requires AllDeterministic(r) && At(r, m).cp.sm.Some?
    ensures var rows := At(r, m).view.rows; var tr, sm, dm := StoredTr(rows), StoredSm(rows), StoredDm(rows);
      && tr.Some? && sm.Some? && dm.Some?
      && StarModel(dm.value, Seen(r), Dimensions(tr.value))
      && ModelsAgree(tr.value, JoinsOf(EntitiesOf(Seen(r))), sm.value, dm.value)
  {
    hide At, Good, Sourced, AllDeterministic, Seen, Found, Newest, Sound, ModelsAgree, StarModel, JoinsOf;
    AlwaysSourced(r, m);
    AlwaysSound(r, m);
    FoundIsSeen(r, m);
    StoredPayloads(At(r, m));
    DataModelStored(At(r, m));
    ModelsOfSourced(r.settings, At(r, m));
  }

  lemma DataModelStored(g: State)
    requires Good(g) && g.cp.sm.Some?
    ensures g.cp.dmPayload.Some?
  {
    hide LogOk, Typed, Pointers, UnderReview, Packaged, Rooted;
  }

  lemma ModelsOfSourced(c: Settings, g: State)
    requires Sourced(c, g) && g.cp.sm.Some? && StoredDm(g.view.rows).Some?
    ensures g.cp.trPayload.Some? && g.cp.smPayload.Some?
    ensures StarModel(StoredDm(g.view.rows).value, Found(c, g.cp), Dimensions(g.cp.trPayload.value))
    ensures ModelsAgree(g.cp.trPayload.value, JoinsOf(EntitiesOf(Found(c, g.cp))), g.cp.smPayload.value,
                        StoredDm(g.view.rows).value)
  {
    hide OfKind, Found, IngestsFrom, StarModel, SliceModel, ModelsAgree, JoinsOf, Propose;
  }

  /** The star schema that modelling builds over the entities of a slice. */
  ghost predicate StarOver(dm: DataModelFields, slice: seq<Entity>, dims: seq<string>) {
    && dm.entities == StarEntities(slice, dims) && Closed(dm.entities, dm.relationships)
    && (DistinctNames(dm.entities) <==> DistinctNames(slice))
    && (StarKeysPresent(dm.entities, dims) <==> StarKeysPresent(slice, dims))
    && (PrimaryKeysPresent(dm.entities) <==> PrimaryKeysPresent(slice))
  }

  lemma StarIsOver(dm: DataModelFields, found: seq<CatalogueObject>, dims: seq<string>)
    requires StarModel(dm, found, dims)
    ensures StarOver(dm, SliceEntities(found), dims)
  {
    hide DistinctNames, Closed, StarKeysPresent, PrimaryKeysPresent, SliceEntities, StarEntities;
    StarAdds(SliceEntities(found), dims);
    StarKeysAfterRound(SliceEntities(found), dims);
    PrimaryKeysAfterRound(SliceEntities(found), dims);
  }
}
