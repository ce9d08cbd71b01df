/** The human-in-the-loop graph: nineteen nodes over a checkpoint of pointers into the store.
    One node runs at a time, the keys it returns overwrite the checkpoint, a review node
    pauses the graph and resuming continues at that node. These are the specifications; the
    class in HitlRunner.dfy carries them out. */
module Workflow {
  import opened Domain
  import opened Discovery
  import opened Mapping
  import opened RunLog
  import PipelineValidation

  datatype Node =
    | EnsureBr
    | GenerateTr
    | AwaitTr
    | ResetRetries
    | DiscoverSources
    | MapData
    | JudgeMapping
    | PersistMapping
    | AwaitMapping
    | Model
    | AwaitModelling
    | BuildPipeline
    | ValidatePipeline
    | DefineMetrics
    | AwaitImplementation
    | AssemblePackage
    | AwaitPackage
    | MarkApproved
    | MarkTerminated
    | End

  /** The checkpointed state. `current` is the artefact under review; `discovered` also stands
      for the list of discovered ids, which is always written together with it. */
  datatype Checkpoint = Checkpoint(
    title: Option<string>,
    seed: Option<BusinessRequirementPayload>,
    userId: Option<string>,
    accessible: Option<seq<string>>,
    current: Option<Ref>,
    decision: Option<Decision>,
    feedback: Option<string>,
    br: Option<Ptr>,
    tr: Option<Ptr>,
    mapping: Option<Ptr>,
    sm: Option<Ptr>,
    dm: Option<Ptr>,
    pipeline: Option<Ptr>,
    metrics: Option<Ptr>,
    rp: Option<Ptr>,
    brPayload: Option<BusinessRequirementPayload>,
    trPayload: Option<TechnicalRequirementPayload>,
    smPayload: Option<SemanticModelPayload>,
    dmPayload: Option<DataModelPayload>,
    pipelinePayload: Option<PipelinePayload>,
    validation: seq<Line>,
    discovered: seq<CatalogueObject>,
    proposal: Proposal,
    schemaRetries: nat,
    logicRetries: nat,
    judgeNotes: Option<string>,
    escalated: bool,
    stage: MappingStage,
    forceOutcome: Option<Outcome>,
    forceEmptySources: bool)

  datatype Settings = Settings(catalogue: seq<CatalogueObject>, schemaCap: nat, logicCap: nat)

  /** The generating agents as one API call meets them: any schema-valid answer, or none when
      the agent raises. */
  datatype Agents = Agents(
    technicalRequirement: (BusinessRequirementPayload, Option<string>) -> Option<TechnicalRequirementPayload>,
    modelling: (TechnicalRequirementPayload, Option<DataModelPayload>, Option<string>)
               -> Option<(SemanticModelPayload, DataModelPayload)>,
    pipeline: (TechnicalRequirementPayload, SemanticModelPayload, DataModelPayload) -> Option<PipelinePayload>,
    metrics: (SemanticModelPayload, Option<TechnicalRequirementPayload>, Option<string>) -> Option<MetricsPayload>)

  /** A run between two nodes: the node to run next, its checkpoint, and the store's view. */
  datatype State = State(next: Node, cp: Checkpoint, view: RunView, minted: Uuid)

  // ----- building blocks of the nodes -----

  function IdOf(p: Option<Ptr>): Option<Uuid> {
    if p.Some? then Some(p.value.id) else None
  }

  function RefTo(p: Option<Ptr>, kind: Kind): seq<Ref> {
    if p.Some? then [Ref(p.value.id, kind, p.value.version)] else []
  }

  function NodeSave(
    payload: Payload,
    id: Option<Uuid>,
    governance: Option<Governance>,
    sourceRefs: seq<string>,
    parents: seq<Ref>): Request
  {
    Request(KindOf(payload), payload, None, id, governance, sourceRefs, parents)
  }

  /** Save a new version and nothing else. */
  function Keep(v: RunView, minted: Uuid, q: Request): SavedRow
    requires KindOf(q.payload) == q.kind && q.version == None
  {
    AutoVersionNeverConflicts(v, minted, q);
    Save(v, minted, q).value
  }

  /** Save a new version and link every parent to it. */
  function Derive(v: RunView, minted: Uuid, q: Request): SavedRow
    requires KindOf(q.payload) == q.kind && q.version == None
  {
    var s := Keep(v, minted, q);
    SavedRow(Link(s.view, q.parents, s.row.ToPtr()), s.row, s.minted)
  }

  function DefaultRequirement(title: Option<string>): BusinessRequirementPayload {
    BusinessRequirementPayload(
      if title.Some? && title.value != "" then title.value else "Sales analytics data product")
  }

  /** The row a (id, version) query of this run finds. */
  function ReadRow(v: RunView, id: Uuid, version: Option<nat>): Option<Row> {
    match Find(v.rows, id, version)
    case Ok(row) => Some(row)
    case Err(_) => None
  }

  function MappingRow(g: State): Option<Row> {
    if g.cp.mapping.Some? then ReadRow(g.view, g.cp.mapping.value.id, Some(g.cp.mapping.value.version)) else None
  }

  function MappingModel(g: State): Option<DataModelPayload> {
    var row := MappingRow(g);
    if row.Some? && row.value.payload.DataModelBody? then Some(row.value.payload.dm) else None
  }

  function PackageId(cp: Checkpoint): Option<Uuid> {
    if cp.rp.Some? then Some(cp.rp.value.id)
    else if cp.current.Some? then Some(cp.current.value.id)
    else None
  }

  function PackageRow(g: State): Option<Row> {
    if PackageId(g.cp).Some? then ReadRow(g.view, PackageId(g.cp).value, None) else None
  }

  /** The six pinned references, those that exist. */
  function Pins(cp: Checkpoint): seq<Ref> {
    RefTo(cp.br, BusinessRequirement) + RefTo(cp.tr, TechnicalRequirement) + RefTo(cp.sm, SemanticModel)
    + RefTo(cp.dm, DataModel) + RefTo(cp.pipeline, PipelineSpecification) + RefTo(cp.metrics, MetricDefinitions)
  }

  // ----- pausing and raising -----

  predicate IsGate(n: Node) {
    n.AwaitTr? || n.AwaitMapping? || n.AwaitModelling? || n.AwaitImplementation? || n.AwaitPackage?
  }

  predicate Paused(g: State) {
    IsGate(g.next) || g.next == End
  }

  function AskRequirement(a: Agents, g: State): Option<TechnicalRequirementPayload> {
    if g.cp.brPayload.Some? then a.technicalRequirement(g.cp.brPayload.value, g.cp.feedback) else None
  }

  function AskModels(a: Agents, g: State): Option<(SemanticModelPayload, DataModelPayload)> {
    if g.cp.trPayload.Some? && (g.cp.mapping.Some? ==> MappingModel(g).Some?)
    then a.modelling(g.cp.trPayload.value, MappingModel(g), g.cp.feedback)
    else None
  }

  function AskPipeline(a: Agents, g: State): Option<PipelinePayload> {
    if g.cp.trPayload.Some? && g.cp.smPayload.Some? && g.cp.dmPayload.Some?
    then a.pipeline(g.cp.trPayload.value, g.cp.smPayload.value, g.cp.dmPayload.value)
    else None
  }

  function AskMetrics(a: Agents, g: State): Option<MetricsPayload> {
    if g.cp.smPayload.Some? then a.metrics(g.cp.smPayload.value, g.cp.trPayload, g.cp.feedback) else None
  }

  /** The next node raises instead of returning: a payload or row it needs is missing, its agent
      raises, discovery has no user, or a schema rejects what it built. */
  predicate Raises(a: Agents, g: State) {
    match g.next
    case GenerateTr => AskRequirement(a, g).None?
    case DiscoverSources => Blank(g.cp.userId)
    case Model => AskModels(a, g).None?
    case BuildPipeline => AskPipeline(a, g).None?
    case ValidatePipeline => g.cp.pipelinePayload.None?
    case DefineMetrics => AskMetrics(a, g).None?
    case AssemblePackage => Pins(g.cp) == []
    case MarkApproved =>
      PackageId(g.cp).Some? && !(PackageRow(g).Some? && PackageRow(g).value.payload.ReviewPackageBody?)
    case _ => false
  }

  // ----- the nodes -----

  function Requirement(cp: Checkpoint): BusinessRequirementPayload {
    if cp.seed.Some? then cp.seed.value else DefaultRequirement(cp.title)
  }

  function BrRequest(cp: Checkpoint): Request {
    NodeSave(BusinessRequirementBody(Requirement(cp)), None, None, [], [])
  }

  function EnsureBrStep(g: State): State {
    var s := Keep(g.view, g.minted, BrRequest(g.cp));
    State(GenerateTr,
          g.cp.(br := Some(s.row.ToPtr()), brPayload := Some(Requirement(g.cp)), decision := None, feedback := None,
                schemaRetries := 0, logicRetries := 0, escalated := false),
          s.view, s.minted)
  }

  function TrRequest(cp: Checkpoint, tr: TechnicalRequirementPayload): Request {
    NodeSave(TechnicalRequirementBody(tr), IdOf(cp.tr), None, [], RefTo(cp.br, BusinessRequirement))
  }

  function GenerateTrStep(a: Agents, g: State): State
    requires AskRequirement(a, g).Some?
  {
    var tr := AskRequirement(a, g).value;
    var s := Derive(g.view, g.minted, TrRequest(g.cp, tr));
    State(AwaitTr,
          g.cp.(tr := Some(s.row.ToPtr()), trPayload := Some(tr), current := Some(s.row.ToRef()), decision := None),
          s.view, s.minted)
  }

  function ResetStep(g: State): State {
    g.(next := DiscoverSources,
       cp := g.cp.(schemaRetries := 0, logicRetries := 0, escalated := false, judgeNotes := None, decision := None))
  }

  function UserOf(cp: Checkpoint): Option<UserContext> {
    if Blank(cp.userId) then None else Some(UserContext(Strip(cp.userId.value), cp.accessible))
  }

  /** Discovery strips the user id and looks it up; both the node and the service check it. */
  function DiscoverStep(c: Settings, g: State): State {
    var found := DiscoverAccessibleObjects(UserOf(g.cp), c.catalogue);
    g.(next := MapData, cp := g.cp.(discovered := if found.Ok? then found.value else [], stage := ToDataMapping))
  }

  function MapDataStep(g: State): State {
    g.(next := JudgeMapping,
       cp := g.cp.(proposal := Propose(g.cp.discovered, g.cp.trPayload, g.cp.feedback, g.cp.forceEmptySources)))
  }

  function Judged(c: Settings, cp: Checkpoint): JudgeResult {
    Evaluate(ObjectIds(cp.discovered), cp.proposal, cp.schemaRetries, cp.logicRetries,
             c.schemaCap, c.logicCap, cp.forceOutcome)
  }

  function AfterJudge(stage: MappingStage): Node {
    match stage
    case ToDiscovery => DiscoverSources
    case ToDataMapping => MapData
    case ToPersist => PersistMapping
  }

  function JudgeStep(c: Settings, g: State): State {
    var r := Judged(c, g.cp);
    var stage := StageAfter(r.outcome);
    g.(next := AfterJudge(stage),
       cp := g.cp.(schemaRetries := r.schemaRetries, logicRetries := r.logicRetries, judgeNotes := Some(r.notes),
                   escalated := r.outcome == Escalate, stage := stage))
  }

  function SliceRequest(cp: Checkpoint): Request {
    var dm := Slice(cp.proposal, cp.judgeNotes, cp.escalated);
    NodeSave(DataModelBody(dm), IdOf(cp.mapping), dm.governance, cp.proposal.sourceIds,
             RefTo(cp.tr, TechnicalRequirement))
  }

  function PersistStep(g: State): State {
    var s := Derive(g.view, g.minted, SliceRequest(g.cp));
    State(AwaitMapping,
          g.cp.(mapping := Some(s.row.ToPtr()), current := Some(s.row.ToRef()), decision := None,
                forceOutcome := None, forceEmptySources := false),
          s.view, s.minted)
  }

  function ModelParents(cp: Checkpoint): seq<Ref> {
    RefTo(cp.tr, TechnicalRequirement) + RefTo(cp.mapping, DataModel)
  }

  /** The source references of the slice, which modelling carries over. */
  function SliceRefs(g: State): seq<string> {
    if MappingRow(g).Some? then MappingRow(g).value.sourceRefs else []
  }

  /** The enriched data model continues the id of the mapping slice. */
  function DataModelRequest(g: State, dm: DataModelPayload): Request {
    var id := if g.cp.mapping.Some? then IdOf(g.cp.mapping) else IdOf(g.cp.dm);
    NodeSave(DataModelBody(dm), id, dm.governance, SliceRefs(g), ModelParents(g.cp))
  }

  function SemanticRequest(cp: Checkpoint, sm: SemanticModelPayload, dataModel: Ref): Request {
    NodeSave(SemanticModelBody(sm), IdOf(cp.sm), None, [], ModelParents(cp) + [dataModel])
  }

  /** The data model version of the modelling node. */
  function ModelData(a: Agents, g: State): SavedRow
    requires AskModels(a, g).Some?
  {
    Derive(g.view, g.minted, DataModelRequest(g, AskModels(a, g).value.1))
  }

  /** Its semantic model version, which also descends from the new data model version. */
  function ModelSemantics(a: Agents, g: State): SavedRow
    requires AskModels(a, g).Some?
  {
    var d := ModelData(a, g);
    Derive(d.view, d.minted, SemanticRequest(g.cp, AskModels(a, g).value.0, d.row.ToRef()))
  }

  function ModelStep(a: Agents, g: State): State
    requires AskModels(a, g).Some?
  {
    var models, d, s := AskModels(a, g).value, ModelData(a, g), ModelSemantics(a, g);
    State(AwaitModelling,
          g.cp.(sm := Some(s.row.ToPtr()), smPayload := Some(models.0),
                dm := Some(d.row.ToPtr()), dmPayload := Some(models.1),
                mapping := Some(d.row.ToPtr()), current := Some(s.row.ToRef()), decision := None),
          s.view, s.minted)
  }

  function PipelineRequest(cp: Checkpoint, pipeline: PipelinePayload): Request {
    NodeSave(PipelineBody(pipeline), IdOf(cp.pipeline), None, [], RefTo(cp.sm, SemanticModel) + RefTo(cp.dm, DataModel))
  }

  function PipelineStep(a: Agents, g: State): State
    requires AskPipeline(a, g).Some?
  {
    var pipeline := AskPipeline(a, g).value;
    var s := Derive(g.view, g.minted, PipelineRequest(g.cp, pipeline));
    State(ValidatePipeline,
          g.cp.(pipeline := Some(s.row.ToPtr()), pipelinePayload := Some(pipeline), decision := None),
          s.view, s.minted)
  }

  ghost function ValidateStep(g: State): State
    requires g.cp.pipelinePayload.Some?
  {
    g.(next := DefineMetrics, cp := g.cp.(validation := PipelineValidation.Report(g.cp.pipelinePayload.value)))
  }

  function MetricsRequest(cp: Checkpoint, metrics: MetricsPayload): Request {
    NodeSave(MetricsBody(metrics), IdOf(cp.metrics), None, [],
             RefTo(cp.sm, SemanticModel) + RefTo(cp.pipeline, PipelineSpecification))
  }

  function MetricsStep(a: Agents, g: State): State
    requires AskMetrics(a, g).Some?
  {
    var s := Derive(g.view, g.minted, MetricsRequest(g.cp, AskMetrics(a, g).value));
    State(AwaitImplementation,
          g.cp.(metrics := Some(s.row.ToPtr()), current := Some(s.row.ToRef()), decision := None),
          s.view, s.minted)
  }

  function PackageRequest(cp: Checkpoint): Request
    requires Pins(cp) != []
  {
    var package := ReviewPackageFields(Pins(cp), cp.validation, PendingReview);
    NodeSave(ReviewPackageBody(package), IdOf(cp.rp), None, [], Pins(cp))
  }

  function AssembleStep(g: State): State
    requires Pins(g.cp) != []
  {
    var s := Derive(g.view, g.minted, PackageRequest(g.cp));
    State(AwaitPackage,
          g.cp.(rp := Some(s.row.ToPtr()), current := Some(s.row.ToRef()), decision := None),
          s.view, s.minted)
  }

  function ApprovalRequest(former: Row): Request
    requires former.payload.ReviewPackageBody?
  {
    var package := former.payload.rp.(decisionState := PackageApproved);
    NodeSave(ReviewPackageBody(package), Some(former.id), None, [], former.payload.rp.pinned)
  }

  /** mark_approved saves one more package version, with parents but without lineage edges. */
  function ApproveStep(g: State): State
    requires PackageId(g.cp).Some? ==> PackageRow(g).Some? && PackageRow(g).value.payload.ReviewPackageBody?
  {
    if PackageId(g.cp).None? then
      g.(next := End, cp := g.cp.(decision := Some(Approve)))
    else
      var s := Keep(g.view, g.minted, ApprovalRequest(PackageRow(g).value));
      State(End,
            g.cp.(decision := Some(Approve),
                  rp := if g.cp.rp.Some? then Some(g.cp.rp.value.(version := s.row.version)) else None,
                  current := if g.cp.current.Some? then Some(g.cp.current.value.(version := s.row.version)) else None),
            s.view, s.minted)
  }

  function TerminateStep(g: State): State {
    g.(next := End, cp := g.cp.(decision := Some(Reject)))
  }

  ghost function Step(c: Settings, a: Agents, g: State): State
    requires !Paused(g) && !Raises(a, g)
  {
    match g.next
    case EnsureBr => EnsureBrStep(g)
    case GenerateTr => GenerateTrStep(a, g)
    case ResetRetries => ResetStep(g)
    case DiscoverSources => DiscoverStep(c, g)
    case MapData => MapDataStep(g)
    case JudgeMapping => JudgeStep(c, g)
    case PersistMapping => PersistStep(g)
    case Model => ModelStep(a, g)
    case BuildPipeline => PipelineStep(a, g)
    case ValidatePipeline => ValidateStep(g)
    case DefineMetrics => MetricsStep(a, g)
    case AssemblePackage => AssembleStep(g)
    case MarkApproved => ApproveStep(g)
    case MarkTerminated => TerminateStep(g)
  }

  /** One node, which may raise instead. */
  ghost function StepOrRaise(c: Settings, a: Agents, g: State): State {
    if Paused(g) || Raises(a, g) then g else Step(c, a, g)
  }

  /** What the four nodes that ask an agent do, if it answers. */
  lemma AgentNodes(c: Settings, a: Agents, g: State)
    ensures g.next == GenerateTr ==>
      && (Raises(a, g) <==> AskRequirement(a, g).None?)
      && StepOrRaise(c, a, g) == if AskRequirement(a, g).None? then g else GenerateTrStep(a, g)
    ensures g.next == Model ==>
      && (Raises(a, g) <==> AskModels(a, g).None?)
      && StepOrRaise(c, a, g) == if AskModels(a, g).None? then g else ModelStep(a, g)
    ensures g.next == BuildPipeline ==>
      && (Raises(a, g) <==> AskPipeline(a, g).None?)
      && StepOrRaise(c, a, g) == if AskPipeline(a, g).None? then g else PipelineStep(a, g)
    ensures g.next == DefineMetrics ==>
      && (Raises(a, g) <==> AskMetrics(a, g).None?)
      && StepOrRaise(c, a, g) == if AskMetrics(a, g).None? then g else MetricsStep(a, g)
  {
    hide AskRequirement, AskModels, AskPipeline, AskMetrics, GenerateTrStep, ModelStep, PipelineStep, MetricsStep;
  }

  // ----- running until the graph pauses -----

  function Outer(n: Node): nat {
    if IsGate(n) || n == End then 0
    else if n == EnsureBr then 5
    else if n == GenerateTr then 4
    else if n == ResetRetries || n == BuildPipeline then 3
    else if (n.DiscoverSources? || n.MapData? || n.JudgeMapping? || n.ValidatePipeline?) then 2
    else 1
  }

  function Inner(n: Node): nat {
    match n
    case DiscoverSources => 2
    case MapData => 1
    case _ => 0
  }

  function RetryRoom(c: Settings, cp: Checkpoint): nat {
    Room(c.schemaCap, cp.schemaRetries) + Room(c.logicCap, cp.logicRetries)
  }

  /** The node that follows, where the judge has no say. */
  function Successor(n: Node): Node {
    match n
    case EnsureBr => GenerateTr
    case GenerateTr => AwaitTr
    case ResetRetries => DiscoverSources
    case DiscoverSources => MapData
    case MapData => JudgeMapping
    case PersistMapping => AwaitMapping
    case Model => AwaitModelling
    case BuildPipeline => ValidatePipeline
    case ValidatePipeline => DefineMetrics
    case DefineMetrics => AwaitImplementation
    case AssemblePackage => AwaitPackage
    case MarkApproved => End
    case MarkTerminated => End
    case _ => n
  }

  lemma StepLeadsOn(c: Settings, a: Agents, g: State)
    requires !Paused(g) && !Raises(a, g) && g.next != JudgeMapping
    ensures var h := Step(c, a, g);
      && h.next == Successor(g.next)
      && (g.next.DiscoverSources? || g.next.MapData? ==> RetryRoom(c, h.cp) == RetryRoom(c, g.cp))
  {
    hide Keep, Derive, ModelData, ModelSemantics, AskModels, AskMetrics, AskPipeline, AskRequirement, Judged;
    hide PackageRow;
    hide Propose, DiscoverAccessibleObjects, UserOf;
  }

  /** Every node moves towards a pause: along the graph, or round the mapping loop with one
      retry less in hand. */
  lemma StepMakesProgress(c: Settings, a: Agents, g: State)
    requires !Paused(g) && !Raises(a, g)
    ensures var h := Step(c, a, g);
      || Outer(h.next) < Outer(g.next)
      || (Outer(h.next) == Outer(g.next) && RetryRoom(c, h.cp) < RetryRoom(c, g.cp))
      || (Outer(h.next) == Outer(g.next) && RetryRoom(c, h.cp) == RetryRoom(c, g.cp) && Inner(h.next) < Inner(g.next))
  {
    hide RetryRoom, Raises, JudgeStep;
    if g.next == JudgeMapping {
      JudgeSpendsRetry(c, g);
    } else {
      hide Step;
      StepLeadsOn(c, a, g);
    }
  }

  lemma JudgeSpendsRetry(c: Settings, g: State)
    requires g.next == JudgeMapping
    ensures var h := JudgeStep(c, g);
      || h.next == PersistMapping
      || ((h.next == DiscoverSources || h.next == MapData) && RetryRoom(c, h.cp) < RetryRoom(c, g.cp))
  {
    hide Propose;
  }

  /** ainvoke: nodes run until the graph pauses, ends, or a node raises. */
  ghost function Invoke(c: Settings, a: Agents, g: State): State
    decreases Outer(g.next), RetryRoom(c, g.cp), Inner(g.next)
  {
    if Paused(g) || Raises(a, g) then
      g
    else
      StepMakesProgress(c, a, g);
      Invoke(c, a, Step(c, a, g))
  }

  /** How many nodes run until the graph pauses. */
  ghost function NodesRun(c: Settings, a: Agents, g: State): nat
    decreases Outer(g.next), RetryRoom(c, g.cp), Inner(g.next)
  {
    if Paused(g) || Raises(a, g) then
      0
    else
      StepMakesProgress(c, a, g);
      1 + NodesRun(c, a, Step(c, a, g))
  }

  /** The state after `n` nodes; a graph that pauses or raises stays where it is. */
  ghost function After(c: Settings, a: Agents, g: State, n: nat): State
    decreases n
  {
    if n == 0 then g else After(c, a, StepOrRaise(c, a, g), n - 1)
  }

  /** Running until the graph pauses is running that many nodes. */
  lemma {:induction false} InvokeIsAfter(c: Settings, a: Agents, g: State)
    ensures After(c, a, g, NodesRun(c, a, g)) == Invoke(c, a, g)
    ensures Paused(Invoke(c, a, g)) || Raises(a, Invoke(c, a, g))
    decreases Outer(g.next), RetryRoom(c, g.cp), Inner(g.next)
  {
    hide Step, Raises;
    if !Paused(g) && !Raises(a, g) {
      StepMakesProgress(c, a, g);
      InvokeIsAfter(c, a, Step(c, a, g));
    }
  }

  // ----- the API -----

  function Route(gate: Node, d: Decision): Node
    requires IsGate(gate)
  {
    match d
    case Reject => MarkTerminated
    case Approve => (
      match gate
      case AwaitTr => ResetRetries
      case AwaitMapping => Model
      case AwaitModelling => BuildPipeline
      case AwaitImplementation => AssemblePackage
      case AwaitPackage => MarkApproved)
    case RequestRevisions =>
      match gate
      case AwaitTr => GenerateTr
      case AwaitMapping => ResetRetries
      case AwaitModelling => Model
      case AwaitImplementation => DefineMetrics
      case AwaitPackage => AssemblePackage
  }

  function Resume(g: State, d: Decision, comments: string): State
    requires IsGate(g.next)
  {
    g.(next := Route(g.next, d),
       cp := g.cp.(decision := Some(d), feedback := if d == RequestRevisions then Some(comments) else None))
  }

  /** The application status that a checkpoint stands for. */
  function StatusFor(g: State): RunStatus {
    if IsGate(g.next) then WaitingForReview
    else if g.next == End then
      match g.cp.decision
      case Some(Reject) => Terminated
      case Some(Approve) => Approved
      case _ => Failed
    else Running
  }

  /** _sync_and_detail: the status row follows the checkpoint. A call that raised never gets here. */
  function Sync(g: State): State {
    if g.view.status == StatusFor(g) then g else g.(view := SetStatus(g.view, StatusFor(g)))
  }

  ghost function Finish(a: Agents, g: State): State {
    if Raises(a, g) then g else Sync(g)
  }

  datatype StartRequest = StartRequest(
    title: Option<string>,
    seed: Option<BusinessRequirementPayload>,
    user: Option<UserContext>)

  const NO_PROPOSAL := Proposal([], [], [], [])

  function InitialCheckpoint(q: StartRequest): Checkpoint {
    Checkpoint(q.title, q.seed,
      if q.user.Some? then Some(q.user.value.userId) else None,
      if q.user.Some? then q.user.value.accessibleObjectIds else None,
      None, None, None, None, None, None, None, None, None, None, None, None, None, None, None, None,
      [], [], NO_PROPOSAL, 0, 0, None, false, ToPersist, None, false)
  }

  function InitialState(q: StartRequest, minted: Uuid): State {
    State(EnsureBr, InitialCheckpoint(q), SetStatus(NEW_RUN, Running), minted)
  }

  ghost function StartRun(c: Settings, a: Agents, q: StartRequest, minted: Uuid): State {
    Finish(a, Invoke(c, a, InitialState(q, minted)))
  }

  function CurrentPtr(cp: Checkpoint): Option<Ptr> {
    if cp.current.Some? then Some(cp.current.value.ToPtr()) else None
  }

  /** What apply_review has recorded before it resumes the graph. */
  function Recorded(g: State, d: Decision): State {
    g.(view := SetStatus(AddReview(g.view, d, CurrentPtr(g.cp)), Running))
  }

  /** apply_review; none when the run does not wait for a review. */
  ghost function ApplyReview(c: Settings, a: Agents, g: State, d: Decision, comments: string): Option<State> {
    if g.view.status != WaitingForReview || !IsGate(g.next) then
      None
    else
      Some(Finish(a, Invoke(c, a, Resume(Recorded(g, d), d, comments))))
  }
}
