/** What a run will have stored when it next pauses is settled when the graph starts moving:
    rows in the store plus rows still to come are conserved by every node, and so is the place
    where the graph is going. Counting rows and edges of whole runs follows. */
module Conservation {
  import opened Domain
  import opened RunLog
  import opened Workflow
  import opened Coherence

  predicate InMapping(n: Node) {
    n.ResetRetries? || n.DiscoverSources? || n.MapData? || n.JudgeMapping? || n.PersistMapping?
  }

  /** Rows of kind `k` that will be saved between node `n` and the next pause. */
  function PendingRows(n: Node, k: Kind): nat {
    match k
    case BusinessRequirement => if n.EnsureBr? then 1 else 0
    case TechnicalRequirement => if n.EnsureBr? || n.GenerateTr? then 1 else 0
    case DataModel =>
      if InMapping(n) || n.Model? then 1 else 0
    case SemanticModel => if n.Model? then 1 else 0
    case PipelineSpecification => if n.BuildPipeline? then 1 else 0
    case MetricDefinitions => if n.BuildPipeline? || n.ValidatePipeline? || n.DefineMetrics? then 1 else 0
    case ReviewPackage => if n.AssemblePackage? || n.MarkApproved? then 1 else 0
  }

  function PendingEdges(n: Node): nat {
    if n.EnsureBr? || n.GenerateTr? then 1
    else if InMapping(n) then 1
    else if n.Model? then 5
    else if n.BuildPipeline? then 4
    else if n.ValidatePipeline? || n.DefineMetrics? then 2
    else if n.AssemblePackage? then 6
    else 0
  }

  function RowTotal(g: State, k: Kind): nat {
    |OfKind(g.view.rows, k)| + PendingRows(g.next, k)
  }

  function EdgeTotal(g: State): nat {
    |g.view.edges| + PendingEdges(g.next)
  }

  /** Where the graph will pause if no node raises: a gate, or the end with a decision. */
  datatype Destination = Gate(gate: Node) | Ended(decision: Option<Decision>)

  function GoingTo(g: State): Destination {
    var n := g.next;
    if n.End? then Ended(g.cp.decision)
    else if n.MarkApproved? then Ended(Some(Approve))
    else if n.MarkTerminated? then Ended(Some(Reject))
    else if n.EnsureBr? || n.GenerateTr? || n.AwaitTr? then Gate(AwaitTr)
    else if BeforeModelling(n) then Gate(AwaitMapping)
    else if n.Model? || n.AwaitModelling? then Gate(AwaitModelling)
    else if BeforePackage(n) then Gate(AwaitImplementation)
    else Gate(AwaitPackage)
  }

  /** Totals, destination and status are the same in both states. */
  ghost predicate Conserved(g: State, h: State) {
    && (forall k :: RowTotal(h, k) == RowTotal(g, k))
    && EdgeTotal(h) == EdgeTotal(g)
    && GoingTo(h) == GoingTo(g)
    && h.view.status == g.view.status
    && h.minted >= g.minted
    && h.cp.userId == g.cp.userId
  }

  /** One more row of its kind, one more edge per linked parent, nothing else. */
  lemma StoresCounts(v: RunView, minted: Uuid, q: Request, parents: seq<Ref>, s: SavedRow)
    requires Stores(v, minted, q, parents, s)
    ensures forall k :: |OfKind(s.view.rows, k)| == |OfKind(v.rows, k)| + if k == q.kind then 1 else 0
    ensures |s.view.edges| == |v.edges| + |parents| && s.view.status == v.status && s.minted >= minted
  {
    hide LogOk, Typed, OfKind;
  }

  lemma ModelConserves(a: Agents, g: State)
    requires Coherent(g) && g.next == Model && AskModels(a, g).Some?
    ensures Conserved(g, ModelStep(a, g))
  {
    hide Coherent, Stores, OfKind, ModelData, ModelSemantics, AskModels, DataModelRequest, SemanticRequest;
    ModelSaves(a, g);
    var models, d := AskModels(a, g).value, ModelData(a, g);
    var q, r := DataModelRequest(g, models.1), SemanticRequest(g.cp, models.0, d.row.ToRef());
    StoresCounts(g.view, g.minted, q, q.parents, d);
    StoresCounts(d.view, d.minted, r, r.parents, ModelSemantics(a, g));
  }

  /** A node that saves one row, whatever it does to its own part of the checkpoint. */
  lemma OneSaveConserves(g: State, h: State, q: Request, parents: seq<Ref>, s: SavedRow)
    requires Stores(g.view, g.minted, q, parents, s) && h.view == s.view && h.minted == s.minted
    requires h.cp.userId == g.cp.userId && GoingTo(h) == GoingTo(g)
    requires forall k :: PendingRows(g.next, k) == PendingRows(h.next, k) + if k == q.kind then 1 else 0
    requires PendingEdges(g.next) == PendingEdges(h.next) + |parents|
    ensures Conserved(g, h)
  {
    hide Stores, OfKind, PendingRows, GoingTo;
    StoresCounts(g.view, g.minted, q, parents, s);
  }

  lemma BrConserves(g: State)
    requires Coherent(g) && g.next == EnsureBr
    ensures Conserved(g, EnsureBrStep(g))
  {
    hide Coherent, Stores, OfKind, Keep, Conserved, Requirement;
    BrStores(g);
    OneSaveConserves(g, EnsureBrStep(g), BrRequest(g.cp), [], Keep(g.view, g.minted, BrRequest(g.cp)));
  }

  lemma TrConserves(a: Agents, g: State)
    requires Coherent(g) && g.next == GenerateTr && AskRequirement(a, g).Some?
    ensures Conserved(g, GenerateTrStep(a, g))
  {
    hide Coherent, Stores, OfKind, Derive, Conserved, AskRequirement;
    var q := TrRequest(g.cp, AskRequirement(a, g).value);
    TrStores(g, AskRequirement(a, g).value);
    OneSaveConserves(g, GenerateTrStep(a, g), q, q.parents, Derive(g.view, g.minted, q));
  }

  lemma PersistConserves(g: State)
    requires Coherent(g) && g.next == PersistMapping
    ensures Conserved(g, PersistStep(g))
  {
    hide Coherent, Stores, OfKind, Derive, Conserved;
    var q := SliceRequest(g.cp);
    SliceStores(g);
    OneSaveConserves(g, PersistStep(g), q, q.parents, Derive(g.view, g.minted, q));
  }

  lemma PipelineConserves(a: Agents, g: State)
    requires Coherent(g) && g.next == BuildPipeline && AskPipeline(a, g).Some?
    ensures Conserved(g, PipelineStep(a, g))
  {
    hide Coherent, Stores, OfKind, Derive, Conserved, AskPipeline;
    var q := PipelineRequest(g.cp, AskPipeline(a, g).value);
    PipelineStores(g, AskPipeline(a, g).value);
    OneSaveConserves(g, PipelineStep(a, g), q, q.parents, Derive(g.view, g.minted, q));
  }

  lemma MetricsConserves(a: Agents, g: State)
    requires Coherent(g) && g.next == DefineMetrics && AskMetrics(a, g).Some?
    ensures Conserved(g, MetricsStep(a, g))
  {
    hide Coherent, Stores, OfKind, Derive, Conserved, AskMetrics;
    var q := MetricsRequest(g.cp, AskMetrics(a, g).value);
    MetricsStores(g, AskMetrics(a, g).value);
    OneSaveConserves(g, MetricsStep(a, g), q, q.parents, Derive(g.view, g.minted, q));
  }

  lemma AssembleConserves(g: State)
    requires Coherent(g) && g.next == AssemblePackage
    ensures Pins(g.cp) != [] && Conserved(g, AssembleStep(g))
  {
    hide Coherent, Stores, OfKind, Derive, Conserved, Pins;
    PackageStores(g);
    var q := PackageRequest(g.cp);
    OneSaveConserves(g, AssembleStep(g), q, q.parents, Derive(g.view, g.minted, q));
  }

  lemma ApproveConserves(a: Agents, g: State)
    requires Coherent(g) && g.next == MarkApproved
    ensures !Raises(a, g) && Conserved(g, ApproveStep(g))
  {
    hide Coherent, Stores, OfKind, Keep, Conserved, PackageRow;
    ApprovalStores(g);
    var q := ApprovalRequest(PackageRow(g).value);
    OneSaveConserves(g, ApproveStep(g), q, [], Keep(g.view, g.minted, q));
  }

  /** A node that saves nothing. */
  lemma NoSaveConserves(g: State, h: State)
    requires h.view == g.view && h.minted == g.minted && h.cp.userId == g.cp.userId && QuietEdge(g.next, h.next)
    requires g.next == MarkTerminated ==> h.cp.decision == Some(Reject)
    ensures Conserved(g, h)
  {
    hide OfKind;
    forall k
      ensures PendingRows(h.next, k) == PendingRows(g.next, k)
    {
    }
  }

  lemma QuietConserves(c: Settings, a: Agents, g: State)
    requires !Raises(a, g) && Quiet(g.next)
    ensures Conserved(g, Step(c, a, g))
  {
    hide Conserved, QuietEdge, SamePointers, Step, Raises;
    QuietStep(c, a, g);
    NoSaveConserves(g, Step(c, a, g));
  }

  lemma StepConserves(c: Settings, a: Agents, g: State)
    requires Coherent(g) && !Paused(g) && !Raises(a, g)
    ensures Conserved(g, Step(c, a, g))
  {
    hide Coherent, Conserved, EnsureBrStep, GenerateTrStep, PersistStep, ModelStep, PipelineStep, MetricsStep;
    hide AssembleStep, ApproveStep;
    match g.next {
      case EnsureBr => BrConserves(g);
      case GenerateTr => TrConserves(a, g);
      case PersistMapping => PersistConserves(g);
      case Model => ModelConserves(a, g);
      case BuildPipeline => PipelineConserves(a, g);
      case DefineMetrics => MetricsConserves(a, g);
      case AssemblePackage => AssembleConserves(g);
      case MarkApproved => ApproveConserves(a, g);
      case _ => QuietConserves(c, a, g);
    }
  }

  /** Running until the graph pauses conserves the totals, and it stops where it was going
      unless a node raises on the way. */
  lemma {:induction false} InvokeConserves(c: Settings, a: Agents, g: State)
    requires Coherent(g)
    ensures var h := Invoke(c, a, g);
      && Coherent(h) && Conserved(g, h) && (Paused(h) || Raises(a, h))
    decreases Outer(g.next), RetryRoom(c, g.cp), Inner(g.next)
  {
    hide Coherent, Step, Raises;
    if !Paused(g) && !Raises(a, g) {
      StepConserves(c, a, g);
      StepCoherent(c, a, g);
      StepMakesProgress(c, a, g);
      InvokeConserves(c, a, Step(c, a, g));
    }
  }

  // ----- counting decisions -----

  /** The gates passed so far, each with the number of revisions asked for there, and the
      number asked for at the gate the run is at. */
  datatype Progress = Progress(done: seq<nat>, here: nat)

  function GateAt(i: nat): Node {
    if i == 0 then AwaitTr
    else if i == 1 then AwaitMapping
    else if i == 2 then AwaitModelling
    else if i == 3 then AwaitImplementation
    else AwaitPackage
  }

  /** Revisions asked for at gate `i`. */
  function Revisions(p: Progress, i: nat): nat {
    if i < |p.done| then p.done[i] else if i == |p.done| then p.here else 0
  }

  /** Drafts produced for gate `i`: the first one and one per revision. */
  function Drafts(p: Progress, i: nat): nat {
    if i <= |p.done| then 1 + Revisions(p, i) else 0
  }

  function ExpectedRows(p: Progress, k: Kind): nat {
    match k
    case BusinessRequirement => 1
    case TechnicalRequirement => Drafts(p, 0)
    case DataModel => Drafts(p, 1) + Drafts(p, 2)
    case SemanticModel => Drafts(p, 2)
    case PipelineSpecification => if |p.done| >= 3 then 1 else 0
    case MetricDefinitions => Drafts(p, 3)
    case ReviewPackage => Drafts(p, 4) + if |p.done| >= 5 then 1 else 0
  }

  function ExpectedEdges(p: Progress): nat {
    Drafts(p, 0) + Drafts(p, 1) + 5 * Drafts(p, 2) + (if |p.done| >= 3 then 2 else 0) + 2 * Drafts(p, 3)
    + 6 * Drafts(p, 4)
  }

  function Advance(p: Progress, d: Decision): Progress {
    match d
    case Approve => Progress(p.done + [p.here], 0)
    case RequestRevisions => Progress(p.done, p.here + 1)
    case Reject => p
  }

  ghost predicate Counted(g: State, p: Progress) {
    (forall k :: RowTotal(g, k) == ExpectedRows(p, k)) && EdgeTotal(g) == ExpectedEdges(p)
  }

  /** The run waits at the gate that `p` says, with the rows and edges that `p` implies. */
  ghost predicate WaitsAt(g: State, p: Progress) {
    |p.done| <= 4 && g.next == GateAt(|p.done|) && Counted(g, p)
  }

  function Target(p: Progress, d: Decision): Destination {
    match d
    case Reject => Ended(Some(Reject))
    case RequestRevisions => Gate(GateAt(|p.done|))
    case Approve => if |p.done| == 4 then Ended(Some(Approve)) else Gate(GateAt(|p.done| + 1))
  }

  /** What a decision adds to the pending rows is what it adds to the expected ones. */
  lemma DecisionAddsRows(p: Progress, d: Decision, k: Kind)
    requires |p.done| <= 4
    ensures PendingRows(Route(GateAt(|p.done|), d), k) + ExpectedRows(p, k) == ExpectedRows(Advance(p, d), k)
    ensures PendingRows(GateAt(|p.done|), k) == 0
  {
    match k {
      case TechnicalRequirement => DecisionAddsDrafts(p, d, 0);
      case DataModel => DecisionAddsDrafts(p, d, 1); DecisionAddsDrafts(p, d, 2);
      case SemanticModel => DecisionAddsDrafts(p, d, 2);
      case MetricDefinitions => DecisionAddsDrafts(p, d, 3);
      case ReviewPackage => DecisionAddsDrafts(p, d, 4);
      case _ =>
    }
  }

  /** A revision asks for one more draft at its gate, an approval for the first at the next. */
  lemma DecisionAddsDrafts(p: Progress, d: Decision, i: nat)
    ensures Drafts(Advance(p, d), i) == Drafts(p, i)
      + if (d == RequestRevisions && i == |p.done|) || (d == Approve && i == |p.done| + 1) then 1 else 0
  {
  }

  lemma DecisionAddsEdges(p: Progress, d: Decision)
    requires |p.done| <= 4
    ensures PendingEdges(Route(GateAt(|p.done|), d)) + ExpectedEdges(p) == ExpectedEdges(Advance(p, d))
    ensures PendingEdges(GateAt(|p.done|)) == 0
  {
    hide Drafts;
    DecisionAddsDrafts(p, d, 0);
    DecisionAddsDrafts(p, d, 1);
    DecisionAddsDrafts(p, d, 2);
    DecisionAddsDrafts(p, d, 3);
    DecisionAddsDrafts(p, d, 4);
  }

  /** A decision turns the pending work into exactly what the new progress expects. */
  lemma DecisionCounts(g: State, p: Progress, d: Decision, comments: string)
    requires WaitsAt(g, p)
    ensures var h := Resume(Recorded(g, d), d, comments);
      Counted(h, Advance(p, d)) && GoingTo(h) == Target(p, d) && h.view.status == Running
  {
    hide OfKind, ExpectedRows, ExpectedEdges;
    var h := Resume(Recorded(g, d), d, comments);
    forall k
      ensures RowTotal(h, k) == ExpectedRows(Advance(p, d), k)
    {
      assert RowTotal(g, k) == ExpectedRows(p, k);
      DecisionAddsRows(p, d, k);
    }
    DecisionAddsEdges(p, d);
  }
}
