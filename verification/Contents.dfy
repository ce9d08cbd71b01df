/** What the stored rows say: at every node boundary the checkpoint's payloads are those of the
    newest rows, every row's parents are the versions that were newest when it was saved, lineage
    edges are exactly those parents, annotations stay with the data model they came from, and
    every review package carries the validator's report about the pipeline it pins. */
module Contents {
  import opened Domain
  import opened Mapping
  import opened RunLog
  import opened Workflow
  import opened Coherence
  import opened Lineage
  import opened Runs
  import opened RunTheorems
  import opened PipelineValidation

  /** The payload of the newest row of a type. */
  function Newest(rows: seq<Row>, kind: Kind): Option<Payload> {
    var own := OfKind(rows, kind);
    if own == [] then None else Some(own[|own| - 1].payload)
  }

  /** The payload of a type that the checkpoint hands to later nodes. */
  function PayloadAt(cp: Checkpoint, kind: Kind): Option<Payload> {
    match kind
    case BusinessRequirement => if cp.brPayload.Some? then Some(BusinessRequirementBody(cp.brPayload.value)) else None
    case TechnicalRequirement => if cp.trPayload.Some? then Some(TechnicalRequirementBody(cp.trPayload.value)) else None
    case SemanticModel => if cp.smPayload.Some? then Some(SemanticModelBody(cp.smPayload.value)) else None
    case DataModel => if cp.dmPayload.Some? then Some(DataModelBody(cp.dmPayload.value)) else None
    case PipelineSpecification =>
      if cp.pipelinePayload.Some? then Some(PipelineBody(cp.pipelinePayload.value)) else None
    case MetricDefinitions => None
    case ReviewPackage => None
  }

  ghost predicate Payloads(g: State) {
    forall k :: PayloadAt(g.cp, k).Some? ==> Newest(g.view.rows, k) == PayloadAt(g.cp, k)
  }

  /** The nodes behind the static validator. */
  predicate Validated(n: Node) {
    n.DefineMetrics? || AfterMetrics(n)
  }

  ghost predicate Reports(row: Row, pipeline: Option<PipelinePayload>) {
    row.payload.ReviewPackageBody? && pipeline.Some? && row.payload.rp.validationResults == Report(pipeline.value)
  }

  ghost predicate Reported(g: State) {
    && (Validated(g.next) ==>
          g.cp.pipelinePayload.Some? && g.cp.validation == Report(g.cp.pipelinePayload.value))
    && forall row :: row in g.view.rows && row.kind == ReviewPackage ==> Reports(row, g.cp.pipelinePayload)
  }

  function NewestRef(rows: seq<Row>, kind: Kind): seq<Ref> {
    RefTo(Latest(rows, kind), kind)
  }

  /** Row `i` names as parents what was newest when it was saved: a requirement the business
      requirement, a mapping slice the requirement, an enriched data model the requirement and the
      slice, the semantic model saved right after it those two and that data model, a pipeline both
      models, metrics the semantic model and the pipeline, a package all six. */
  ghost predicate ParentsFit(rows: seq<Row>, i: nat)
    requires i < |rows|
  {
    var before, parents := rows[..i], rows[i].parents;
    match rows[i].kind
    case BusinessRequirement => parents == []
    case TechnicalRequirement => |parents| == 1 && parents == NewestRef(before, BusinessRequirement)
    case DataModel =>
      || (|parents| == 1 && parents == NewestRef(before, TechnicalRequirement))
      || Enriches(before, parents)
    case SemanticModel =>
      && i > 0 && rows[i - 1].kind == DataModel && Enriches(rows[..i - 1], rows[i - 1].parents)
      && parents == rows[i - 1].parents + [rows[i - 1].ToRef()]
    case PipelineSpecification =>
      |parents| == 2 && parents == NewestRef(before, SemanticModel) + NewestRef(before, DataModel)
    case MetricDefinitions =>
      |parents| == 2 && parents == NewestRef(before, SemanticModel) + NewestRef(before, PipelineSpecification)
    case ReviewPackage => |parents| == 6 && parents == NewestRefs(before)
  }

  /** The parents of an enriched data model. */
  ghost predicate Enriches(before: seq<Row>, parents: seq<Ref>) {
    |parents| == 2 && parents == NewestRef(before, TechnicalRequirement) + NewestRef(before, DataModel)
  }

  ghost predicate Parented(rows: seq<Row>) {
    forall i :: 0 <= i < |rows| ==> ParentsFit(rows, i)
  }

  /** `e` leads from a parent of a row to the row, which is not the approval. */
  ghost predicate Derives(rows: seq<Row>, e: Edge) {
    exists row, p :: row in rows && p in row.parents && !IsApproval(row) && e == Edge(p.ToPtr(), row.ToPtr())
  }

  ghost predicate EdgesMatch(v: RunView) {
    forall e :: e in v.edges <==> Derives(v.rows, e)
  }

  /** Only data models carry annotations, and a row carries those of its payload. */
  function AnnotationOf(payload: Payload): Option<Governance> {
    if payload.DataModelBody? then payload.dm.governance else None
  }

  ghost predicate Annotated(rows: seq<Row>) {
    forall row :: row in rows ==> row.governance == AnnotationOf(row.payload)
  }

  ghost predicate RowsTell(v: RunView) {
    Parented(v.rows) && EdgesMatch(v) && Annotated(v.rows)
  }

  ghost predicate Sound(g: State) {
    RowsTell(g.view) && Payloads(g) && Reported(g)
  }

  // ----- what one save does -----

  lemma ParentedAppend(rows: seq<Row>, row: Row)
    requires Parented(rows) && ParentsFit(rows + [row], |rows|)
    ensures Parented(rows + [row])
  {
    hide NewestRefs, Latest;
    var rows' := rows + [row];
    forall i | 0 <= i < |rows'|
      ensures ParentsFit(rows', i)
    {
      if i < |rows| {
        assert ParentsFit(rows, i);
        assert rows'[..i] == rows[..i];
        assert i > 0 ==> rows'[..i - 1] == rows[..i - 1];
      }
    }
  }

  lemma EdgesAppend(v: RunView, edges: seq<Edge>, row: Row, parents: seq<Ref>)
    requires EdgesMatch(v) && Linked(v.edges, edges, parents, row.ToPtr())
    requires if IsApproval(row) then parents == [] else parents == row.parents
    ensures EdgesMatch(v.(rows := v.rows + [row], edges := edges))
  {
    var rows := v.rows + [row];
    forall e
      ensures e in edges <==> Derives(rows, e)
    {
      if e in v.edges {
        var r, p :| r in v.rows && p in r.parents && !IsApproval(r) && e == Edge(p.ToPtr(), r.ToPtr());
        assert r in rows;
      } else if e in edges {
        var p :| p in parents && e == Edge(p.ToPtr(), row.ToPtr());
        assert row in rows;
      }
      if Derives(rows, e) {
        var r, p :| r in rows && p in r.parents && !IsApproval(r) && e == Edge(p.ToPtr(), r.ToPtr());
        if r in v.rows {
          assert Derives(v.rows, e);
        } else {
          assert r == row;
        }
      }
    }
  }

  lemma SaveTells(v: RunView, minted: Uuid, q: Request, parents: seq<Ref>, s: SavedRow)
    requires RowsTell(v) && Stores(v, minted, q, parents, s)
    requires ParentsFit(v.rows + [s.row], |v.rows|) && q.governance == AnnotationOf(q.payload)
    requires if IsApproval(s.row) then parents == [] else parents == q.parents
    ensures RowsTell(s.view)
  {
    hide ParentsFit, LogOk, Typed, OfKind, Latest, Derives, Linked;
    ParentedAppend(v.rows, s.row);
    EdgesAppend(v, s.view.edges, s.row, parents);
    assert EdgesMatch(s.view);
  }

  /** Afterwards the newest payload of its type is the one saved, and no other type has changed. */
  lemma NewestAfter(v: RunView, minted: Uuid, q: Request, parents: seq<Ref>, s: SavedRow)
    requires Stores(v, minted, q, parents, s)
    ensures forall k :: Newest(s.view.rows, k) == if k == q.kind then Some(q.payload) else Newest(v.rows, k)
    ensures forall row :: row in s.view.rows <==> row in v.rows || row == s.row
  {
    hide LogOk, Typed, OfKind;
    NewRowOnly(v, minted, q, parents, s);
  }

  /** A node that saves one row and puts its payload, or none, into the checkpoint. */
  lemma OneSaveSound(g: State, h: State, q: Request, parents: seq<Ref>, s: SavedRow)
    requires Sound(g) && Stores(g.view, g.minted, q, parents, s) && h.view == s.view
    requires ParentsFit(g.view.rows + [s.row], |g.view.rows|) && q.governance == AnnotationOf(q.payload)
    requires if IsApproval(s.row) then parents == [] else parents == q.parents
    requires forall k :: k != q.kind ==> PayloadAt(h.cp, k) == PayloadAt(g.cp, k)
    requires PayloadAt(h.cp, q.kind) == None || PayloadAt(h.cp, q.kind) == Some(q.payload)
    requires Validated(h.next) ==> h.cp.pipelinePayload.Some? && h.cp.validation == Report(h.cp.pipelinePayload.value)
    requires q.kind == ReviewPackage ==> Reports(s.row, h.cp.pipelinePayload)
    requires
      || h.cp.pipelinePayload == g.cp.pipelinePayload
      || forall row :: row in g.view.rows ==> row.kind != ReviewPackage
    ensures Sound(h)
  {
    SaveTells(g.view, g.minted, q, parents, s);
    NewestAfter(g.view, g.minted, q, parents, s);
    RowKind(g.view, g.minted, q, parents, s);
    hide Stores, RowsTell, PayloadAt, Newest, ParentsFit, Reports, Report;
  }

  lemma RowKind(v: RunView, minted: Uuid, q: Request, parents: seq<Ref>, s: SavedRow)
    requires Stores(v, minted, q, parents, s)
    ensures s.row.kind == q.kind && s.row.payload == q.payload && s.row.parents == q.parents
  {
    hide LogOk, Typed, OneMore, Linked;
  }

  /** Before the package gate there are no packages. */
  lemma NoPackageRows(g: State)
    requires Coherent(g) && BeforePackage(g.next)
    ensures forall row :: row in g.view.rows ==> row.kind != ReviewPackage
  {
    NoPackageBefore(g);
    hide LogOk, Typed, Stocked, UnderReview;
    OfKindMembers(g.view.rows, ReviewPackage);
  }

  // ----- every node keeps it -----

  lemma AppendedPrefix(rows: seq<Row>, row: Row)
    ensures (rows + [row])[..|rows|] == rows && (rows + [row])[|rows|] == row
  {
  }

  /** What the nodes before the package list as parents is what the rows call for. */
  lemma EarlyParentsFit(g: State, row: Row)
    requires Coherent(g)
    requires || (g.next == EnsureBr && row.kind == BusinessRequirement && row.parents == [])
             || (g.next == GenerateTr && row.kind == TechnicalRequirement
                 && row.parents == RefTo(g.cp.br, BusinessRequirement))
             || (g.next == PersistMapping && row.kind == DataModel
                 && row.parents == RefTo(g.cp.tr, TechnicalRequirement))
    ensures ParentsFit(g.view.rows + [row], |g.view.rows|)
  {
    hide LogOk, Typed, UnderReview, Latest, NewestRefs, Enriches;
    AppendedPrefix(g.view.rows, row);
  }

  lemma LateParentsFit(g: State, row: Row)
    requires Coherent(g)
    requires || (g.next == BuildPipeline && row.kind == PipelineSpecification
                 && row.parents == RefTo(g.cp.sm, SemanticModel) + RefTo(g.cp.dm, DataModel))
             || (g.next == DefineMetrics && row.kind == MetricDefinitions
                 && row.parents == RefTo(g.cp.sm, SemanticModel) + RefTo(g.cp.pipeline, PipelineSpecification))
    ensures ParentsFit(g.view.rows + [row], |g.view.rows|)
  {
    hide LogOk, Typed, UnderReview, Latest, NewestRefs, Enriches;
    AppendedPrefix(g.view.rows, row);
  }

  lemma PackageParentsFit(g: State, row: Row)
    requires Coherent(g) && (g.next == AssemblePackage || g.next == MarkApproved)
    requires row.kind == ReviewPackage && row.parents == Pins(g.cp)
    ensures ParentsFit(g.view.rows + [row], |g.view.rows|)
  {
    hide LogOk, Typed, UnderReview, Latest, Enriches;
    AppendedPrefix(g.view.rows, row);
  }

  lemma BrSound(g: State)
    requires Coherent(g) && Sound(g) && g.next == EnsureBr
    ensures Sound(EnsureBrStep(g))
  {
    hide Coherent, Stores, Keep, Sound, Requirement, ParentsFit, Report, Reports;
    BrStores(g);
    NoPackageRows(g);
    var q := BrRequest(g.cp);
    var s := Keep(g.view, g.minted, q);
    RowKind(g.view, g.minted, q, [], s);
    EarlyParentsFit(g, s.row);
    OneSaveSound(g, EnsureBrStep(g), q, [], s);
  }

  lemma TrSound(a: Agents, g: State)
    requires Coherent(g) && Sound(g) && g.next == GenerateTr && AskRequirement(a, g).Some?
    ensures Sound(GenerateTrStep(a, g))
  {
    hide Coherent, Stores, Derive, Sound, AskRequirement, ParentsFit, Report, Reports;
    TrStores(g, AskRequirement(a, g).value);
    NoPackageRows(g);
    var q := TrRequest(g.cp, AskRequirement(a, g).value);
    var s := Derive(g.view, g.minted, q);
    RowKind(g.view, g.minted, q, q.parents, s);
    EarlyParentsFit(g, s.row);
    OneSaveSound(g, GenerateTrStep(a, g), q, q.parents, s);
  }

  lemma NoModelYet(g: State)
    requires Coherent(g) && g.next == PersistMapping
    ensures g.cp.dmPayload == None
  {
    hide LogOk, Typed, Pointers, UnderReview;
  }

  lemma PersistSound(g: State)
    requires Coherent(g) && Sound(g) && g.next == PersistMapping
    ensures Sound(PersistStep(g))
  {
    hide Coherent, Stores, Derive, Sound, ParentsFit, Report, Reports, Slice;
    NoModelYet(g);
    SliceStores(g);
    NoPackageRows(g);
    var q := SliceRequest(g.cp);
    var s := Derive(g.view, g.minted, q);
    RowKind(g.view, g.minted, q, q.parents, s);
    EarlyParentsFit(g, s.row);
    OneSaveSound(g, PersistStep(g), q, q.parents, s);
  }

  lemma ModelSound(a: Agents, g: State)
    requires Coherent(g) && Sound(g) && g.next == Model && AskModels(a, g).Some?
    ensures Sound(ModelStep(a, g))
  {
    hide Coherent, Stores, ModelData, ModelSemantics, AskModels, Sound, ParentsFit, Report, Reports, SliceRefs;
    hide PayloadAt;
    ModelSaves(a, g);
    NoPackageRows(g);
    var models, d := AskModels(a, g).value, ModelData(a, g);
    var q, t := DataModelRequest(g, models.1), SemanticRequest(g.cp, models.0, d.row.ToRef());
    RowKind(g.view, g.minted, q, q.parents, d);
    RowKind(d.view, d.minted, t, t.parents, ModelSemantics(a, g));
    var mid := g.(view := d.view, minted := d.minted, cp := g.cp.(dmPayload := Some(models.1)));
    MidPayloads(g, models.1, models.0);
    EnrichedFits(g, d.row);
    OneSaveSound(g, mid, q, q.parents, d);
    AppendedPrefix(g.view.rows, d.row);
    NewestAfter(g.view, g.minted, q, q.parents, d);
    AddsOne(g.view, g.minted, q, q.parents, d);
    SemanticFits(g, d.row, ModelSemantics(a, g).row);
    OneSaveSound(mid, ModelStep(a, g), t, t.parents, ModelSemantics(a, g));
  }

  lemma AddsOne(v: RunView, minted: Uuid, q: Request, parents: seq<Ref>, s: SavedRow)
    requires Stores(v, minted, q, parents, s)
    ensures s.view.rows == v.rows + [s.row]
  {
    hide LogOk, Typed, Linked;
  }

  /** What the modelling node puts into the checkpoint. */
  lemma MidPayloads(g: State, dm: DataModelPayload, sm: SemanticModelPayload)
    ensures var mid := g.cp.(dmPayload := Some(dm));
      && (forall k :: k != DataModel ==> PayloadAt(mid, k) == PayloadAt(g.cp, k))
      && PayloadAt(mid, DataModel) == Some(DataModelBody(dm))
    ensures forall cp: Checkpoint ::
      cp.brPayload == g.cp.brPayload && cp.trPayload == g.cp.trPayload && cp.smPayload == Some(sm)
      && cp.dmPayload == Some(dm) && cp.pipelinePayload == g.cp.pipelinePayload ==>
        && (forall k :: k != SemanticModel ==> PayloadAt(cp, k) == PayloadAt(g.cp.(dmPayload := Some(dm)), k))
        && PayloadAt(cp, SemanticModel) == Some(SemanticModelBody(sm))
  {
  }

  lemma EnrichedFits(g: State, row: Row)
    requires Coherent(g) && g.next == Model && row.kind == DataModel && row.parents == ModelParents(g.cp)
    ensures Enriches(g.view.rows, row.parents) && ParentsFit(g.view.rows + [row], |g.view.rows|)
  {
    hide LogOk, Typed, UnderReview, Latest, NewestRefs;
    AppendedPrefix(g.view.rows, row);
  }

  lemma SemanticFits(g: State, dm: Row, row: Row)
    requires Coherent(g) && g.next == Model && dm.kind == DataModel && dm.parents == ModelParents(g.cp)
    requires row.kind == SemanticModel && row.parents == ModelParents(g.cp) + [dm.ToRef()]
    ensures ParentsFit(g.view.rows + [dm] + [row], |g.view.rows| + 1)
  {
    hide Coherent, Latest, NewestRefs, Enriches, ModelParents;
    EnrichedFits(g, dm);
    var rows := g.view.rows + [dm] + [row];
    assert rows[..|g.view.rows|] == g.view.rows && rows[|g.view.rows|] == dm && rows[|g.view.rows| + 1] == row;
  }

  lemma PipelineSound(a: Agents, g: State)
    requires Coherent(g) && Sound(g) && g.next == BuildPipeline && AskPipeline(a, g).Some?
    ensures Sound(PipelineStep(a, g))
  {
    hide Coherent, Stores, Derive, Sound, AskPipeline, ParentsFit, Report, Reports;
    PipelineStores(g, AskPipeline(a, g).value);
    NoPackageRows(g);
    var q := PipelineRequest(g.cp, AskPipeline(a, g).value);
    var s := Derive(g.view, g.minted, q);
    RowKind(g.view, g.minted, q, q.parents, s);
    LateParentsFit(g, s.row);
    OneSaveSound(g, PipelineStep(a, g), q, q.parents, s);
  }

  lemma MetricsSound(a: Agents, g: State)
    requires Coherent(g) && Sound(g) && g.next == DefineMetrics && AskMetrics(a, g).Some?
    ensures Sound(MetricsStep(a, g))
  {
    hide Coherent, Stores, Derive, Sound, AskMetrics, ParentsFit, Report, Reports;
    ReportReady(g);
    MetricsStores(g, AskMetrics(a, g).value);
    var q := MetricsRequest(g.cp, AskMetrics(a, g).value);
    var s := Derive(g.view, g.minted, q);
    RowKind(g.view, g.minted, q, q.parents, s);
    LateParentsFit(g, s.row);
    OneSaveSound(g, MetricsStep(a, g), q, q.parents, s);
  }

  lemma ReportReady(g: State)
    requires Sound(g) && Validated(g.next)
    ensures g.cp.pipelinePayload.Some? && g.cp.validation == Report(g.cp.pipelinePayload.value)
  {
    hide RowsTell, Payloads, Report, Reports;
  }

  lemma AssembleSound(g: State)
    requires Coherent(g) && Sound(g) && g.next == AssemblePackage
    ensures Pins(g.cp) != [] && Sound(AssembleStep(g))
  {
    hide Coherent, Stores, Derive, Sound, ParentsFit, Report, Pins;
    ReportReady(g);
    PackageStores(g);
    var q := PackageRequest(g.cp);
    var s := Derive(g.view, g.minted, q);
    RowKind(g.view, g.minted, q, q.parents, s);
    PackageParentsFit(g, s.row);
    OneSaveSound(g, AssembleStep(g), q, q.parents, s);
  }

  /** The package that is approved. */
  lemma FormerPackage(g: State)
    requires Good(g) && Sound(g) && g.next == MarkApproved
    ensures PackageRow(g).Some? && PackageRow(g).value.payload.ReviewPackageBody?
    ensures var former := PackageRow(g).value;
      former.payload.rp.pinned == Pins(g.cp) && Reports(former, g.cp.pipelinePayload)
  {
    PackageIsLatest(g);
    hide Coherent, Rooted, RowsTell, Payloads, PackageRow, Reports, Report;
    OfKindMembers(g.view.rows, ReviewPackage);
    var own := OfKind(g.view.rows, ReviewPackage);
    assert own[|own| - 1] in own;
  }

  lemma ApproveSound(c: Settings, a: Agents, g: State)
    requires g.next == MarkApproved && !Raises(a, g) && Good(g) && Sound(g)
    ensures Sound(StepOrRaise(c, a, g))
  {
    hide Good, Coherent, Stores, Keep, Sound, ParentsFit, Report, Pins, PackageRow;
    GoodIsCoherent(g);
    FormerPackage(g);
    ReportReady(g);
    ApprovalStores(g);
    var q := ApprovalRequest(PackageRow(g).value);
    var s := Keep(g.view, g.minted, q);
    RowKind(g.view, g.minted, q, [], s);
    PackageParentsFit(g, s.row);
    assert StepOrRaise(c, a, g) == ApproveStep(g);
    OneSaveSound(g, ApproveStep(g), q, [], s);
  }

  lemma QuietSound(c: Settings, a: Agents, g: State)
    requires Quiet(g.next) && !Raises(a, g) && Sound(g)
    ensures Sound(Step(c, a, g))
  {
    hide RowsTell, Reports, Newest, Step, Raises, Report;
    QuietStep(c, a, g);
    if g.next == ValidatePipeline {
      ValidateReports(c, a, g);
    }
  }

  lemma ValidateReports(c: Settings, a: Agents, g: State)
    requires g.next == ValidatePipeline && !Raises(a, g)
    ensures g.cp.pipelinePayload.Some? && Step(c, a, g).cp.validation == Report(g.cp.pipelinePayload.value)
  {
    hide Report;
  }

  lemma StepSound(c: Settings, a: Agents, g: State)
    requires Good(g) && Sound(g) && !Paused(g) && !Raises(a, g)
    ensures Sound(Step(c, a, g))
  {
    hide Good, Coherent, Sound, EnsureBrStep, GenerateTrStep, PersistStep, ModelStep, PipelineStep, MetricsStep;
    hide AssembleStep, ApproveStep;
    GoodIsCoherent(g);
    match g.next {
      case EnsureBr => BrSound(g);
      case GenerateTr => TrSound(a, g);
      case PersistMapping => PersistSound(g);
      case Model => ModelSound(a, g);
      case BuildPipeline => PipelineSound(a, g);
      case DefineMetrics => MetricsSound(a, g);
      case AssemblePackage => AssembleSound(g);
      case MarkApproved => ApproveSound(c, a, g);
      case _ => QuietSound(c, a, g);
    }
  }

  // ----- whole runs -----

  lemma ApiKeepsSound(g: State, d: Decision, comments: string, minted: Uuid)
    requires Sound(g)
    ensures Sound(Later(g, minted)) && Sound(Sync(g))
    ensures IsGate(g.next) ==> Sound(Reviewed(g, d, comments))
  {
    hide Newest, Reports, Report, Parented, Derives, Annotated;
    if IsGate(g.next) && Validated(Reviewed(g, d, comments).next) {
      RoutedReady(g, Reviewed(g, d, comments), d);
    }
  }

  /** A decision leads behind the validator only from behind it. */
  lemma RoutedReady(g: State, h: State, d: Decision)
    requires IsGate(g.next) && h.next == Route(g.next, d) && Validated(h.next)
    ensures Validated(g.next)
  {
  }

  lemma InitialSound(q: StartRequest, minted: Uuid)
    ensures Sound(InitialState(q, minted))
  {
  }

  lemma AlwaysSound(r: Run, m: Moment)
    ensures Good(At(r, m)) && Sound(At(r, m))
  {
    hide Good, Sound, Step, Raises, Reviewed, Sync, Later, At;
    var c := r.settings;
    var who: Agents -> bool, inv: State -> bool := (a: Agents) => true, (g: State) => Sound(g);
    assert inv(InitialState(r.request, r.minted)) by {
      InitialSound(r.request, r.minted);
    }
    forall a, g | who(a) && Good(g) && inv(g) && !Paused(g) && !Raises(a, g)
      ensures inv(Step(c, a, g))
    {
      StepSound(c, a, g);
    }
    forall g, d, comments | Good(g) && inv(g) && IsGate(g.next)
      ensures inv(Reviewed(g, d, comments))
    {
      ApiKeepsSound(g, d, comments, 0);
    }
    forall g | Paused(g) && inv(g)
      ensures inv(Sync(g))
    {
      ApiKeepsSound(g, Approve, "", 0);
    }
    forall g, minted | inv(g)
      ensures inv(Later(g, minted))
    {
      ApiKeepsSound(g, Approve, "", minted);
    }
    Always(r, m, who, inv);
  }

  /** At every node boundary of every run, whatever the agents answer, the payloads that later nodes
      and agents are given are those of the newest stored rows, and they are there as soon as such a
      row is. The data model's counts from modelling on; before that it is read from the store. */
  lemma PayloadsAreStored(r: Run, m: Moment, k: Kind)
    requires k != MetricDefinitions && k != ReviewPackage
    ensures var g := At(r, m);
      if k == DataModel && g.cp.sm.None? then g.cp.dmPayload == None
      else PayloadAt(g.cp, k) == Newest(g.view.rows, k)
  {
    hide At, Good, Sound;
    AlwaysSound(r, m);
    ExactPayload(At(r, m), k);
  }

  lemma ExactPayload(g: State, k: Kind)
    requires Good(g) && Sound(g) && k != MetricDefinitions && k != ReviewPackage
    ensures
      if k == DataModel && g.cp.sm.None? then g.cp.dmPayload == None
      else PayloadAt(g.cp, k) == Newest(g.view.rows, k)
  {
    hide LogOk, Typed, UnderReview, Packaged, Rooted, RowsTell, Reported, OfKind;
    assert PayloadAt(g.cp, k).Some? ==> Newest(g.view.rows, k) == PayloadAt(g.cp, k);
  }

  // ----- what the agents are asked and what becomes of their answers -----

  function StoredBr(rows: seq<Row>): Option<BusinessRequirementPayload> {
    match Newest(rows, BusinessRequirement)
    case Some(BusinessRequirementBody(p)) => Some(p)
    case _ => None
  }

  function StoredTr(rows: seq<Row>): Option<TechnicalRequirementPayload> {
    match Newest(rows, TechnicalRequirement)
    case Some(TechnicalRequirementBody(p)) => Some(p)
    case _ => None
  }

  function StoredSm(rows: seq<Row>): Option<SemanticModelPayload> {
    match Newest(rows, SemanticModel)
    case Some(SemanticModelBody(p)) => Some(p)
    case _ => None
  }

  function StoredDm(rows: seq<Row>): Option<DataModelPayload> {
    match Newest(rows, DataModel)
    case Some(DataModelBody(p)) => Some(p)
    case _ => None
  }

  function StoredPipeline(rows: seq<Row>): Option<PipelinePayload> {
    match Newest(rows, PipelineSpecification)
    case Some(PipelineBody(p)) => Some(p)
    case _ => None
  }

  function StoredMetrics(rows: seq<Row>): Option<MetricsPayload> {
    match Newest(rows, MetricDefinitions)
    case Some(MetricsBody(p)) => Some(p)
    case _ => None
  }

  /** What a node stores of its agent's answer, or that it raises without one. */
  ghost predicate Becomes<T(!new)>(answer: Option<T>, raises: bool, stored: Option<T>) {
    if answer.None? then raises else !raises && stored == answer
  }

  /** The payloads in the checkpoint, as the store has them. */
  lemma StoredPayloads(g: State)
    requires Good(g) && Sound(g)
    ensures g.cp.brPayload == StoredBr(g.view.rows) && g.cp.trPayload == StoredTr(g.view.rows)
    ensures g.cp.smPayload == StoredSm(g.view.rows) && g.cp.pipelinePayload == StoredPipeline(g.view.rows)
    ensures g.cp.sm.Some? ==> g.cp.dmPayload == StoredDm(g.view.rows)
  {
    hide Good, Sound, Newest;
    ExactPayload(g, BusinessRequirement);
    ExactPayload(g, TechnicalRequirement);
    ExactPayload(g, SemanticModel);
    ExactPayload(g, DataModel);
    ExactPayload(g, PipelineSpecification);
  }

  /** The requirements agent is asked about the newest stored business requirement, and its answer
      becomes the newest technical requirement. */
  lemma RequirementIsAnswer(r: Run, m: Moment, a: Agents)
    requires At(r, m).next == GenerateTr
    ensures var g := At(r, m); var h := StepOrRaise(r.settings, a, g); var br := StoredBr(g.view.rows);
      && br.Some?
      && Becomes(a.technicalRequirement(br.value, g.cp.feedback), Raises(a, g), StoredTr(h.view.rows))
  {
    hide At, Good, Sound, StepOrRaise, Raises, Newest;
    AlwaysSound(r, m);
    var g := At(r, m);
    StoredPayloads(g);
    GoodIsCoherent(g);
    TrAnswer(r.settings, a, g);
  }

  /** What the nodes that ask an agent have to show it. */
  lemma AskedHas(g: State)
    requires Coherent(g)
    ensures g.next == GenerateTr ==> g.cp.brPayload.Some?
    ensures g.next == Model || g.next == BuildPipeline || g.next == DefineMetrics ==> g.cp.trPayload.Some?
    ensures g.next == Model ==> g.cp.mapping.Some?
    ensures g.next == BuildPipeline || g.next == DefineMetrics ==> g.cp.smPayload.Some? && g.cp.sm.Some?
    ensures g.next == BuildPipeline ==> g.cp.dmPayload.Some?
  {
    hide LogOk, Typed, Pointers, UnderReview;
  }

  lemma TrAnswer(c: Settings, a: Agents, g: State)
    requires Coherent(g) && g.next == GenerateTr
    ensures g.cp.brPayload.Some?
    ensures Becomes(a.technicalRequirement(g.cp.brPayload.value, g.cp.feedback), Raises(a, g),
                    StoredTr(StepOrRaise(c, a, g).view.rows))
  {
    hide Coherent, Stores, Derive, Newest, StepOrRaise, Raises;
    AskedHas(g);
    AgentNodes(c, a, g);
    if tr :| a.technicalRequirement(g.cp.brPayload.value, g.cp.feedback) == Some(tr) {
      var q := TrRequest(g.cp, tr);
      TrStores(g, tr);
      NewestAfter(g.view, g.minted, q, q.parents, Derive(g.view, g.minted, q));
    }
  }

  /** The modelling agent is asked about the newest requirement and the newest data model, slice or
      enriched; its answers become the newest data model and semantic model. */
  lemma ModelsAreAnswer(r: Run, m: Moment, a: Agents)
    requires At(r, m).next == Model
    ensures var g := At(r, m); var h := StepOrRaise(r.settings, a, g);
      var tr, dm := StoredTr(g.view.rows), StoredDm(g.view.rows);
      && tr.Some? && dm.Some?
      && match a.modelling(tr.value, dm, g.cp.feedback)
         case None => Raises(a, g)
         case Some(models) =>
           !Raises(a, g) && StoredSm(h.view.rows) == Some(models.0) && StoredDm(h.view.rows) == Some(models.1)
  {
    hide At, Good, Sound, StepOrRaise, Raises, Newest;
    AlwaysSound(r, m);
    var g := At(r, m);
    StoredPayloads(g);
    GoodIsCoherent(g);
    ModelAnswer(r.settings, a, g);
  }

  lemma ModelAnswer(c: Settings, a: Agents, g: State)
    requires Coherent(g) && g.next == Model
    ensures g.cp.trPayload.Some? && StoredDm(g.view.rows).Some?
    ensures var h := StepOrRaise(c, a, g);
      match a.modelling(g.cp.trPayload.value, StoredDm(g.view.rows), g.cp.feedback)
      case None => Raises(a, g)
      case Some(models) =>
        !Raises(a, g) && StoredSm(h.view.rows) == Some(models.0) && StoredDm(h.view.rows) == Some(models.1)
  {
    hide Coherent, Stores, ModelData, ModelSemantics, StoredDm, StoredSm, MappingModel, MappingRow, StepOrRaise, Raises;
    hide Newest, DataModelRequest, SemanticRequest;
    SliceIsStored(g);
    AgentNodes(c, a, g);
    if AskModels(a, g).Some? {
      ModelSaves(a, g);
      var models, d := AskModels(a, g).value, ModelData(a, g);
      var q, t := DataModelRequest(g, models.1), SemanticRequest(g.cp, models.0, d.row.ToRef());
      NewestAfter(g.view, g.minted, q, q.parents, d);
      NewestAfter(d.view, d.minted, t, t.parents, ModelSemantics(a, g));
      ModelPayloads(g, models, d.row.ToRef());
      NewestStored(ModelSemantics(a, g).view.rows, models.0, models.1);
    }
  }

  lemma ModelPayloads(g: State, models: (SemanticModelPayload, DataModelPayload), dm: Ref)
    ensures var q, t := DataModelRequest(g, models.1), SemanticRequest(g.cp, models.0, dm);
      && q.kind == DataModel && q.payload == DataModelBody(models.1)
      && t.kind == SemanticModel && t.payload == SemanticModelBody(models.0)
  {
  }

  lemma NewestStored(rows: seq<Row>, sm: SemanticModelPayload, dm: DataModelPayload)
    requires Newest(rows, SemanticModel) == Some(SemanticModelBody(sm))
    requires Newest(rows, DataModel) == Some(DataModelBody(dm))
    ensures StoredSm(rows) == Some(sm) && StoredDm(rows) == Some(dm)
  {
  }

  lemma SliceIsStored(g: State)
    requires Coherent(g) && g.next == Model
    ensures g.cp.trPayload.Some? && MappingModel(g) == StoredDm(g.view.rows) && MappingModel(g).Some?
  {
    hide Coherent, MappingModel, MappingRow, OfKind;
    AskedHas(g);
    MappingIsLatest(g);
  }

  /** The engineer is asked about the newest requirement, semantic model and data model. */
  lemma PipelineIsAnswer(r: Run, m: Moment, a: Agents)
    requires At(r, m).next == BuildPipeline
    ensures var g := At(r, m); var h := StepOrRaise(r.settings, a, g);
      var tr, sm, dm := StoredTr(g.view.rows), StoredSm(g.view.rows), StoredDm(g.view.rows);
      && tr.Some? && sm.Some? && dm.Some?
      && Becomes(a.pipeline(tr.value, sm.value, dm.value), Raises(a, g), StoredPipeline(h.view.rows))
  {
    hide At, Good, Sound, StepOrRaise, Raises, Newest;
    AlwaysSound(r, m);
    var g := At(r, m);
    StoredPayloads(g);
    GoodIsCoherent(g);
    PipelineAnswer(r.settings, a, g);
  }

  lemma PipelineAnswer(c: Settings, a: Agents, g: State)
    requires Coherent(g) && g.next == BuildPipeline
    ensures g.cp.trPayload.Some? && g.cp.smPayload.Some? && g.cp.dmPayload.Some? && g.cp.sm.Some?
    ensures Becomes(a.pipeline(g.cp.trPayload.value, g.cp.smPayload.value, g.cp.dmPayload.value), Raises(a, g),
                    StoredPipeline(StepOrRaise(c, a, g).view.rows))
  {
    hide Coherent, Stores, Derive, Newest, StepOrRaise, Raises;
    AskedHas(g);
    AgentNodes(c, a, g);
    if p :| a.pipeline(g.cp.trPayload.value, g.cp.smPayload.value, g.cp.dmPayload.value) == Some(p) {
      var q := PipelineRequest(g.cp, p);
      PipelineStores(g, p);
      NewestAfter(g.view, g.minted, q, q.parents, Derive(g.view, g.minted, q));
    }
  }

  /** The metrics agent is asked about the newest semantic model and requirement. */
  lemma MetricsAreAnswer(r: Run, m: Moment, a: Agents)
    requires At(r, m).next == DefineMetrics
    ensures var g := At(r, m); var h := StepOrRaise(r.settings, a, g);
      var sm, tr := StoredSm(g.view.rows), StoredTr(g.view.rows);
      && sm.Some? && tr.Some?
      && Becomes(a.metrics(sm.value, tr, g.cp.feedback), Raises(a, g), StoredMetrics(h.view.rows))
  {
    hide At, Good, Sound, StepOrRaise, Raises, Newest;
    AlwaysSound(r, m);
    var g := At(r, m);
    StoredPayloads(g);
    GoodIsCoherent(g);
    MetricsAnswer(r.settings, a, g);
  }

  lemma MetricsAnswer(c: Settings, a: Agents, g: State)
    requires Coherent(g) && g.next == DefineMetrics
    ensures g.cp.trPayload.Some? && g.cp.smPayload.Some?
    ensures Becomes(a.metrics(g.cp.smPayload.value, g.cp.trPayload, g.cp.feedback), Raises(a, g),
                    StoredMetrics(StepOrRaise(c, a, g).view.rows))
  {
    hide Coherent, Stores, Derive, Newest, StepOrRaise, Raises;
    AskedHas(g);
    AgentNodes(c, a, g);
    if p :| a.metrics(g.cp.smPayload.value, g.cp.trPayload, g.cp.feedback) == Some(p) {
      var q := MetricsRequest(g.cp, p);
      MetricsStores(g, p);
      NewestAfter(g.view, g.minted, q, q.parents, Derive(g.view, g.minted, q));
    }
  }

  // ----- what the rows of every run tell -----

  /** Every version of the review package, the approved one included, carries the validator's report
      about the very pipeline row it pins; the report's last line passes if and only if that pipeline
      has stages and can be run. */
  lemma PackagesCarryReports(r: Run, m: Moment, row: Row)
    requires row in At(r, m).view.rows && row.kind == ReviewPackage
    ensures row.payload.ReviewPackageBody? && |row.payload.rp.pinned| == 6
    ensures exists p ::
      && p in At(r, m).view.rows && p.ToRef() == row.payload.rp.pinned[4] && p.payload.PipelineBody?
      && var lines := row.payload.rp.validationResults;
         && lines == Report(p.payload.pipeline)
         && (lines[|lines| - 1].Pass? <==> p.payload.pipeline.stages != [] && Runnable(p.payload.pipeline.stages))
  {
    hide At, Good, Sound, Report, Runnable;
    AlwaysSound(r, m);
    ReportOfPinned(At(r, m), row);
  }

  lemma ReportOfPinned(g: State, row: Row)
    requires Good(g) && Sound(g) && row in g.view.rows && row.kind == ReviewPackage
    ensures row.payload.ReviewPackageBody? && |row.payload.rp.pinned| == 6
    ensures exists p ::
      && p in g.view.rows && p.ToRef() == row.payload.rp.pinned[4] && p.payload.PipelineBody?
      && var lines := row.payload.rp.validationResults;
         && lines == Report(p.payload.pipeline)
         && (lines[|lines| - 1].Pass? <==> p.payload.pipeline.stages != [] && Runnable(p.payload.pipeline.stages))
  {
    hide Good, Report, Runnable, NewestRefs, Latest, OfKind, Newest, Payloads, RowsTell;
    GoodPackagesPinNewest(g, row);
    assert Reports(row, g.cp.pipelinePayload);
    StoredPayloads(g);
    PinnedPipeline(g.view.rows);
    var own := OfKind(g.view.rows, PipelineSpecification);
    NewestIsLast(g.view.rows, PipelineSpecification);
    LastLinePassesExactlyWhenRunnable(g.cp.pipelinePayload.value);
    assert own[|own| - 1] in g.view.rows;
  }

  /** The newest pipeline stands fifth among the six. */
  lemma PinnedPipeline(rows: seq<Row>)
    requires |NewestRefs(rows)| == 6
    ensures Latest(rows, PipelineSpecification).Some?
    ensures [NewestRefs(rows)[4]] == NewestRef(rows, PipelineSpecification)
  {
    hide Latest;
  }

  lemma NewestIsLast(rows: seq<Row>, kind: Kind)
    requires Latest(rows, kind).Some?
    ensures var own := OfKind(rows, kind);
      && own != [] && own[|own| - 1] in rows && Newest(rows, kind) == Some(own[|own| - 1].payload)
      && NewestRef(rows, kind) == [own[|own| - 1].ToRef()]
  {
    var own := OfKind(rows, kind);
    OfKindMembers(rows, kind);
    assert own[|own| - 1] in own;
  }

  /** Every row's parents are the versions that were newest when it was saved. */
  lemma ParentsWereNewest(r: Run, m: Moment, i: nat)
    requires i < |At(r, m).view.rows|
    ensures ParentsFit(At(r, m).view.rows, i)
  {
    hide At, Good, ParentsFit, EdgesMatch, Annotated, Payloads, Reported;
    AlwaysSound(r, m);
  }

  /** The lineage edges are exactly those from each row's parents to the row, the approval's parents
      excepted. */
  lemma EdgesAreParents(r: Run, m: Moment, e: Edge)
    ensures e in At(r, m).view.edges <==> Derives(At(r, m).view.rows, e)
  {
    hide At, Good, Parented, Derives, Annotated, Payloads, Reported;
    AlwaysSound(r, m);
  }

  /** A stored data model keeps its annotations, and no other artefact has any. */
  lemma AnnotationsAreKept(r: Run, m: Moment, row: Row)
    requires row in At(r, m).view.rows
    ensures row.governance == AnnotationOf(row.payload)
  {
    hide At, Good, Parented, EdgesMatch, AnnotationOf, Payloads, Reported;
    AlwaysSound(r, m);
  }

  // ----- the business requirement -----

  /** What was asked for: the seed if one was given, otherwise a requirement under the given title, or
      under the default one where there is no title. */
  ghost predicate AskedFor(q: StartRequest, br: BusinessRequirementPayload) {
    match q.seed
    case Some(seed) => br == seed
    case None =>
      && (q.title.Some? && q.title.value != "" ==> br.title == q.title.value)
      && (q.title == None || q.title.value == "" ==> br.title == "Sales analytics data product")
  }

  ghost predicate Requested(q: StartRequest, cp: Checkpoint) {
    cp.seed == q.seed && cp.title == q.title && (cp.brPayload.Some? ==> AskedFor(q, cp.brPayload.value))
  }

  lemma StepKeepsRequest(c: Settings, a: Agents, g: State, q: StartRequest)
    requires !Paused(g) && !Raises(a, g) && Requested(q, g.cp)
    ensures Requested(q, Step(c, a, g).cp)
  {
    hide AskedFor, Raises, Step;
    if g.next == EnsureBr {
      RequirementAsked(q, g.cp);
      StepCarriesRequest(c, a, g);
    } else {
      StepCarriesRequest(c, a, g);
    }
  }

  lemma StepCarriesRequest(c: Settings, a: Agents, g: State)
    requires !Paused(g) && !Raises(a, g)
    ensures var h := Step(c, a, g).cp;
      && h.seed == g.cp.seed && h.title == g.cp.title
      && h.brPayload == if g.next == EnsureBr then Some(Requirement(g.cp)) else g.cp.brPayload
  {
    hide Keep, Derive, ModelData, ModelSemantics, AskModels, AskMetrics, AskPipeline, AskRequirement, Judged, Propose;
    hide PackageRow, Requirement, Raises, Slice, Pins;
  }

  lemma RequirementAsked(q: StartRequest, cp: Checkpoint)
    requires cp.seed == q.seed && cp.title == q.title
    ensures AskedFor(q, Requirement(cp))
  {
  }

  /** The stored business requirement is the one the run was started for. */
  lemma RequirementIsAskedFor(r: Run, m: Moment)
    ensures StoredBr(At(r, m).view.rows).Some? ==> AskedFor(r.request, StoredBr(At(r, m).view.rows).value)
  {
    hide Good, Sound, Step, Raises, At, AskedFor, Newest;
    var q, c := r.request, r.settings;
    var who: Agents -> bool, inv: State -> bool := (a: Agents) => true, (g: State) => Requested(q, g.cp);
    forall a, g | who(a) && Good(g) && inv(g) && !Paused(g) && !Raises(a, g)
      ensures inv(Step(c, a, g))
    {
      StepKeepsRequest(c, a, g, q);
    }
    Always(r, m, who, inv);
    AlwaysSound(r, m);
    StoredPayloads(At(r, m));
  }
}
