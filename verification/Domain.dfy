/** The value types shared by every part of the workflow engine: artefact kinds, run
    statuses, review decisions, references to stored versions, and the payload bodies. */
module Domain {

  datatype Option<+T> = None | Some(value: T)

  datatype Result<+T, +E> = Ok(value: T) | Err(error: E)

  type Uuid = nat

  datatype Kind =
    | BusinessRequirement
    | TechnicalRequirement
    | SemanticModel
    | DataModel
    | PipelineSpecification
    | MetricDefinitions
    | ReviewPackage

  datatype RunStatus = Created | Running | WaitingForReview | Approved | Terminated | Failed

  datatype Decision = Approve | Reject | RequestRevisions

  /** One artefact version, as lineage edges name it. */
  datatype Ptr = Ptr(id: Uuid, version: nat)

  /** One artefact version together with its type. The run is the one being looked at. */
  datatype Ref = Ref(id: Uuid, kind: Kind, version: nat) {
    function ToPtr(): Ptr {
      Ptr(id, version)
    }
  }

  datatype Governance = Governance(
    labels: seq<string>,
    classifications: seq<string>,
    accessNotes: seq<string>,
    extra: map<string, string>)

  datatype Attribute = Attribute(name: string, dataType: string, nullable: bool)

  datatype Entity = Entity(name: string, attributes: seq<Attribute>, primaryKey: seq<string>)

  datatype Relationship = Relationship(
    fromEntity: string,
    toEntity: string,
    fromKeys: seq<string>,
    toKeys: seq<string>,
    cardinality: string)

  /** The mapping_context dictionary; a missing source list reads as the empty one. */
  datatype Context = Context(
    sourceIds: seq<string>,
    notes: seq<string>,
    escalated: bool,
    modellingFeedback: Option<string>)

  datatype StageKind = Ingest | Transform | Validate | Publish | Other

  datatype Stage = Stage(
    name: string,
    kind: StageKind,
    inputs: seq<string>,
    outputs: seq<string>,
    dependencies: seq<string>)

  /** The verdict lines of the static pipeline validator, by meaning rather than wording. */
  datatype Note =
    | NoStages
    | StageCount(stages: nat)
    | StageNames
    | UnknownDependency(stage: string, dependency: string)
    | SelfDependency(stage: string)
    | DependencyCycles
    | IngestStage
    | ValidateStage
    | ValidationRules(rules: nat)
    | Completed(failures: nat)

  datatype Line = Pass(note: Note) | Fail(note: Note) | Warn(note: Note)

  datatype BusinessRequirementPayload = BusinessRequirementPayload(title: string)

  datatype TechnicalRequirementPayload = TechnicalRequirementPayload(
    summary: string,
    behaviours: seq<string>,
    candidateFacts: seq<string>,
    candidateDimensions: seq<string>,
    candidateMeasures: seq<string>)

  datatype SemanticModelPayload = SemanticModelPayload(
    name: string,
    metrics: seq<string>,
    dimensions: seq<string>)

  datatype DataModelFields = DataModelFields(
    entities: seq<Entity>,
    relationships: seq<Relationship>,
    context: Context,
    governance: Option<Governance>)

  const EMPTY_CONTEXT := Context([], [], false, None)
  const SOME_ENTITY := Entity("id", [], [])

  /** The schema demands at least one entity. */
  type DataModelPayload = d: DataModelFields | |d.entities| >= 1
    witness DataModelFields([SOME_ENTITY], [], EMPTY_CONTEXT, None)

  datatype PipelinePayload = PipelinePayload(stages: seq<Stage>, validationRules: seq<string>)

  datatype MetricsPayload = MetricsPayload(metrics: seq<string>)

  datatype DecisionState = Draft | PendingReview | PackageApproved | PackageRejected

  datatype ReviewPackageFields = ReviewPackageFields(
    pinned: seq<Ref>,
    validationResults: seq<Line>,
    decisionState: DecisionState)

  /** The schema demands at least one pinned artefact. */
  type ReviewPackagePayload = p: ReviewPackageFields | |p.pinned| >= 1
    witness ReviewPackageFields([Ref(0, BusinessRequirement, 1)], [], Draft)

  datatype Payload =
    | BusinessRequirementBody(br: BusinessRequirementPayload)
    | TechnicalRequirementBody(tr: TechnicalRequirementPayload)
    | SemanticModelBody(sm: SemanticModelPayload)
    | DataModelBody(dm: DataModelPayload)
    | PipelineBody(pipeline: PipelinePayload)
    | MetricsBody(metrics: MetricsPayload)
    | ReviewPackageBody(rp: ReviewPackagePayload)

  function KindOf(payload: Payload): Kind {
    match payload
    case BusinessRequirementBody(_) => BusinessRequirement
    case TechnicalRequirementBody(_) => TechnicalRequirement
    case SemanticModelBody(_) => SemanticModel
    case DataModelBody(_) => DataModel
    case PipelineBody(_) => PipelineSpecification
    case MetricsBody(_) => MetricDefinitions
    case ReviewPackageBody(_) => ReviewPackage
  }

  /** A stored artefact version. */
  datatype Row = Row(
    id: Uuid,
    kind: Kind,
    version: nat,
    payload: Payload,
    governance: Option<Governance>,
    sourceRefs: seq<string>,
    parents: seq<Ref>)
  {
    function ToRef(): Ref {
      Ref(id, kind, version)
    }

    function ToPtr(): Ptr {
      Ptr(id, version)
    }
  }

  ghost predicate NoDuplicates<T>(s: seq<T>) {
    forall i, j :: 0 <= i < j < |s| ==> s[i] != s[j]
  }

  /** The largest of some version numbers, zero if there is none. */
  function MaxOf(versions: seq<nat>): nat {
    if versions == [] then
      0
    else
      var n := |versions| - 1;
      var before := MaxOf(versions[..n]);
      if versions[n] > before then versions[n] else before
  }

  lemma {:induction false} MaxOfBounds(versions: seq<nat>)
    ensures forall v :: v in versions ==> v <= MaxOf(versions)
  {
    if versions != [] {
      var n := |versions| - 1;
      MaxOfBounds(versions[..n]);
      assert forall v :: v in versions <==> v in versions[..n] || v == versions[n];
    }
  }

  lemma {:induction false} MaxOfCounting(versions: seq<nat>)
    requires forall i :: 0 <= i < |versions| ==> versions[i] == i + 1
    ensures MaxOf(versions) == |versions|
  {
    if versions != [] {
      MaxOfCounting(versions[..|versions| - 1]);
    }
  }
}
