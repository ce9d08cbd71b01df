/** What holds of a run at every node boundary: the checkpoint's pointers are the store's newest
    versions, and the store's log is consistent. */
module Coherence {
  import opened Domain
  import opened Discovery
  import opened RunLog
  import opened Workflow

  ghost predicate Typed(rows: seq<Row>) {
    forall r :: r in rows ==> KindOf(r.payload) == r.kind
  }

  /** Each checkpoint pointer is the newest (id, version) of its type in the store. */
  ghost predicate Pointers(g: State) {
    && g.cp.br == Latest(g.view.rows, BusinessRequirement)
    && g.cp.tr == Latest(g.view.rows, TechnicalRequirement)
    && g.cp.mapping == Latest(g.view.rows, DataModel)
    && g.cp.sm == Latest(g.view.rows, SemanticModel)
    && g.cp.dm == (if g.cp.sm.Some? then g.cp.mapping else None)
    && g.cp.pipeline == Latest(g.view.rows, PipelineSpecification)
    && g.cp.metrics == Latest(g.view.rows, MetricDefinitions)
    && g.cp.rp == Latest(g.view.rows, ReviewPackage)
  }

  predicate BeforeModelling(n: Node) {
    || n.EnsureBr? || n.GenerateTr? || n.AwaitTr? || n.ResetRetries? || n.DiscoverSources?
    || n.MapData? || n.JudgeMapping? || n.PersistMapping? || n.AwaitMapping?
  }

  predicate BeforePackage(n: Node) {
    || BeforeModelling(n) || n.Model? || n.AwaitModelling?
    || n.BuildPipeline? || n.ValidatePipeline? || n.DefineMetrics? || n.AwaitImplementation?
  }

  predicate AfterModelling(n: Node) {
    n.AwaitModelling? || n.BuildPipeline? || AfterPipeline(n)
  }

  predicate AfterPipeline(n: Node) {
    n.ValidatePipeline? || n.DefineMetrics? || AfterMetrics(n)
  }

  predicate AfterMetrics(n: Node) {
    n.AwaitImplementation? || n.AssemblePackage? || n.AwaitPackage? || n.MarkApproved?
  }

  /** Which artefacts exist at a node, and that their payloads are at hand. */
  ghost predicate Stocked(g: State) {
    && (g.next == EnsureBr ==> g.view.rows == [])
    && (g.next != EnsureBr ==> g.cp.br.Some?)
    && (g.next != EnsureBr && g.next != GenerateTr ==> g.cp.tr.Some?)
    && ((g.next.AwaitMapping? || g.next.Model?) || AfterModelling(g.next) ==> g.cp.mapping.Some?)
    && (BeforeModelling(g.next) ==> g.cp.sm.None?)
    && (AfterModelling(g.next) ==> g.cp.sm.Some?)
    && (BeforeModelling(g.next) || (g.next.Model? || g.next.AwaitModelling? || g.next.BuildPipeline?) ==>
          g.cp.pipeline.None?)
    && (AfterPipeline(g.next) ==> g.cp.pipeline.Some?)
    && (AfterMetrics(g.next) ==> g.cp.metrics.Some?)
    && (BeforePackage(g.next) ==> g.cp.rp.None?)
    && ((g.next.AwaitPackage? || g.next.MarkApproved?) ==> g.cp.rp.Some?)
    && (g.cp.br.Some? <==> g.cp.brPayload.Some?)
    && (g.cp.tr.Some? <==> g.cp.trPayload.Some?)
    && (g.cp.sm.Some? <==> g.cp.smPayload.Some?)
    && (g.cp.sm.Some? <==> g.cp.dmPayload.Some?)
    && (g.cp.pipeline.Some? <==> g.cp.pipelinePayload.Some?)
  }

  /** The kinds of artefact that can be the one under review at a node. */
  predicate MayReview(n: Node, k: Kind) {
    match n
    case EnsureBr => false
    case GenerateTr => k == TechnicalRequirement
    case AwaitTr => k == TechnicalRequirement
    case AwaitMapping => k == DataModel
    case Model => k == DataModel || k == SemanticModel
    case AwaitModelling => k == SemanticModel
    case BuildPipeline => k == SemanticModel
    case ValidatePipeline => k == SemanticModel
    case DefineMetrics => k == SemanticModel || k == MetricDefinitions
    case AwaitImplementation => k == MetricDefinitions
    case AssemblePackage => k == MetricDefinitions || k == ReviewPackage
    case AwaitPackage => k == ReviewPackage
    case MarkApproved => k == ReviewPackage
    case MarkTerminated => true
    case End => true
    case _ => k == TechnicalRequirement || k == DataModel
  }

  /** The review pointer, too, is the newest version of its type. */
  ghost predicate UnderReview(g: State) {
    && (g.cp.current.None? ==> g.next == EnsureBr || g.next == GenerateTr)
    && (g.cp.current.Some? ==>
          && MayReview(g.next, g.cp.current.value.kind)
          && Latest(g.view.rows, g.cp.current.value.kind) == Some(g.cp.current.value.ToPtr()))
  }

  ghost predicate Coherent(g: State) {
    && LogOk(g.view, g.minted)
    && Typed(g.view.rows)
    && Pointers(g)
    && Stocked(g)
    && UnderReview(g)
  }

  // ----- what one save does -----

  /** After saving `row`: it is the newest of its kind, and nothing changed for other kinds. */
  ghost predicate OneMore(rows: seq<Row>, rows': seq<Row>, row: Row) {
    && rows' == rows + [row]
    && OfKind(rows', row.kind) == OfKind(rows, row.kind) + [row]
    && Latest(rows', row.kind) == Some(row.ToPtr())
    && (forall k :: k != row.kind ==> OfKind(rows', k) == OfKind(rows, k) && Latest(rows', k) == Latest(rows, k))
  }

  ghost predicate ParentsStored(rows: seq<Row>, parents: seq<Ref>) {
    forall k :: 0 <= k < |parents| ==> Stored(rows, parents[k])
  }

  lemma LatestIsStored(rows: seq<Row>, kind: Kind)
    ensures Latest(rows, kind).Some? ==> Stored(rows, RefTo(Latest(rows, kind), kind)[0])
  {
    if Latest(rows, kind).Some? {
      var own := OfKind(rows, kind);
      OfKindMembers(rows, kind);
      assert own[|own| - 1] in own;
      var i :| 0 <= i < |rows| && rows[i] == own[|own| - 1];
    }
  }

  lemma StoredStays(rows: seq<Row>, row: Row, ref: Ref)
    ensures Stored(rows, ref) ==> Stored(rows + [row], ref)
    ensures Stored(rows + [row], row.ToRef())
  {
    assert (rows + [row])[|rows|] == row;
    if i :| 0 <= i < |rows| && rows[i].ToRef() == ref {
      assert (rows + [row])[i].ToRef() == ref;
    }
  }

  /** The edges from each parent to the new row, and no others, were added. */
  ghost predicate Linked(edges: seq<Edge>, edges': seq<Edge>, parents: seq<Ref>, to: Ptr) {
    && |edges'| == |edges| + |parents|
    && (forall e :: e in edges' <==> e in edges || exists p :: p in parents && e == Edge(p.ToPtr(), to))
  }

  /** `s` is what saving `q` (and linking `parents`) makes of `v`. */
  ghost predicate Stores(v: RunView, minted: Uuid, q: Request, parents: seq<Ref>, s: SavedRow) {
    && LogOk(s.view, s.minted) && Typed(s.view.rows)
    && OneMore(v.rows, s.view.rows, s.row)
    && Linked(v.edges, s.view.edges, parents, s.row.ToPtr())
    && s.minted >= minted && s.view.status == v.status
    && s.row.kind == q.kind && s.row.payload == q.payload && s.row.parents == q.parents
    && s.row.governance == q.governance && s.row.sourceRefs == q.sourceRefs
    && (q.artefactId.Some? ==> s.row.id == q.artefactId.value)
    && (forall r :: r in v.rows ==> r.ToPtr() != s.row.ToPtr())
  }

  lemma KeepEffect(v: RunView, minted: Uuid, q: Request)
    requires LogOk(v, minted) && Typed(v.rows) && NodeRequest(v.rows, q)
    ensures Stores(v, minted, q, [], Keep(v, minted, q))
    ensures Keep(v, minted, q).view.edges == v.edges
  {
    hide Faithful, EveryCommit, OfKind, Save, Dense;
    SaveKeepsDense(v, minted, q);
    SaveKeepsLogOk(v, minted, q);
    if q.artefactId.Some? {
      SaveTakesId(v, minted, q);
    }
  }

  lemma SaveTakesId(v: RunView, minted: Uuid, q: Request)
    requires Save(v, minted, q).Ok? && q.artefactId.Some?
    ensures Save(v, minted, q).value.row.id == q.artefactId.value
  {
  }

  lemma DeriveEffect(v: RunView, minted: Uuid, q: Request)
    requires LogOk(v, minted) && Typed(v.rows) && NodeRequest(v.rows, q)
    requires ParentsStored(v.rows, q.parents)
    ensures Stores(v, minted, q, q.parents, Derive(v, minted, q))
  {
    hide LogOk, OneMore, Stored;
    KeepEffect(v, minted, q);
    var s := Keep(v, minted, q);
    assert s.view.rows[..|s.view.rows| - 1] == v.rows && s.view.rows[|s.view.rows| - 1] == s.row by {
      assert OneMore(v.rows, s.view.rows, s.row);
      RowsOfOneMore(v.rows, s.view.rows, s.row);
    }
    LinkKeepsLogOk(s.view, s.minted, q.parents, s.row.ToPtr());
    LinkEffect(s.view, q.parents, s.row.ToPtr());
  }

  lemma RowsOfOneMore(rows: seq<Row>, rows': seq<Row>, row: Row)
    requires OneMore(rows, rows', row)
    ensures rows' == rows + [row]
  {
  }

  /** Passing on the id of the newest version is what the store would have chosen itself. */
  lemma LatestIdIsShared(v: RunView, minted: Uuid, kind: Kind)
    requires LogOk(v, minted)
    ensures Latest(v.rows, kind).Some? ==> IdFor(v.rows, kind) == IdOf(Latest(v.rows, kind))
  {
    hide Faithful, EveryCommit;
  }

  lemma PinsStored(g: State)
    requires Coherent(g)
    ensures ParentsStored(g.view.rows, Pins(g.cp))
  {
    hide LogOk, Typed, OfKind, Latest, IdFor, Stored, Keep, Derive, Save;
    LatestIsStored(g.view.rows, BusinessRequirement);
    LatestIsStored(g.view.rows, TechnicalRequirement);
    LatestIsStored(g.view.rows, SemanticModel);
    LatestIsStored(g.view.rows, DataModel);
    LatestIsStored(g.view.rows, PipelineSpecification);
    LatestIsStored(g.view.rows, MetricDefinitions);
  }

  // ----- what each node stores -----

  lemma BrStores(g: State)
    requires Coherent(g) && g.next == EnsureBr
    ensures BrRequest(g.cp).kind == BusinessRequirement
    ensures Stores(g.view, g.minted, BrRequest(g.cp), [], Keep(g.view, g.minted, BrRequest(g.cp)))
    ensures Keep(g.view, g.minted, BrRequest(g.cp)).view.edges == g.view.edges
  {
    hide LogOk, Typed, OfKind, Latest, IdFor, Stored, Keep, Derive, Save;
    KeepEffect(g.view, g.minted, BrRequest(g.cp));
  }

  lemma TrStores(g: State, tr: TechnicalRequirementPayload)
    requires Coherent(g) && g.next == GenerateTr
    ensures var q := TrRequest(g.cp, tr);
      && q.kind == TechnicalRequirement && |q.parents| == 1
      && Stores(g.view, g.minted, q, q.parents, Derive(g.view, g.minted, q))
  {
    hide LogOk, Typed, OfKind, Latest, IdFor, Stored, Keep, Derive, Save;
    LatestIsStored(g.view.rows, BusinessRequirement);
    LatestIdIsShared(g.view, g.minted, TechnicalRequirement);
    DeriveEffect(g.view, g.minted, TrRequest(g.cp, tr));
  }

  lemma SliceStores(g: State)
    requires Coherent(g) && g.next == PersistMapping
    ensures var q := SliceRequest(g.cp);
      && q.kind == DataModel && |q.parents| == 1
      && Stores(g.view, g.minted, q, q.parents, Derive(g.view, g.minted, q))
  {
    hide LogOk, Typed, OfKind, Latest, IdFor, Stored, Keep, Derive, Save;
    LatestIsStored(g.view.rows, TechnicalRequirement);
    LatestIdIsShared(g.view, g.minted, DataModel);
    DeriveEffect(g.view, g.minted, SliceRequest(g.cp));
  }

  lemma DataModelStores(g: State, dm: DataModelPayload)
    requires Coherent(g) && g.next == Model
    ensures var q := DataModelRequest(g, dm);
      && |q.parents| == 2 && ParentsStored(g.view.rows, q.parents)
      && q.kind == DataModel && q.payload == DataModelBody(dm)
      && Stores(g.view, g.minted, q, q.parents, Derive(g.view, g.minted, q))
  {
    hide LogOk, Typed, OfKind, Latest, IdFor, Stored, Keep, Derive, Save;
    LatestIsStored(g.view.rows, TechnicalRequirement);
    LatestIsStored(g.view.rows, DataModel);
    LatestIdIsShared(g.view, g.minted, DataModel);
    DeriveEffect(g.view, g.minted, DataModelRequest(g, dm));
  }

  lemma SemanticStores(a: Agents, g: State)
    requires Coherent(g) && g.next == Model && AskModels(a, g).Some?
    ensures var d := ModelData(a, g); var q := SemanticRequest(g.cp, AskModels(a, g).value.0, d.row.ToRef());
      |q.parents| == 3 && Stores(d.view, d.minted, q, q.parents, ModelSemantics(a, g))
  {
    hide LogOk, Typed, OfKind, Latest, IdFor, Stored, Keep, Derive, Save;
    hide AskModels, MappingRow, ModelData;
    var dm := AskModels(a, g).value.1;
    DataModelStores(g, dm);
    var d := ModelData(a, g);
    assert d == Derive(g.view, g.minted, DataModelRequest(g, dm)) by {
      ModelDataIs(a, g);
    }
    var q := SemanticRequest(g.cp, AskModels(a, g).value.0, d.row.ToRef());
    LatestIdIsShared(d.view, d.minted, SemanticModel);
    RowsOfOneMore(g.view.rows, d.view.rows, d.row);
    forall k | 0 <= k < |q.parents|
      ensures Stored(d.view.rows, q.parents[k])
    {
      StoredStays(g.view.rows, d.row, q.parents[k]);
    }
    DeriveEffect(d.view, d.minted, q);
  }

  lemma ModelDataIs(a: Agents, g: State)
    requires AskModels(a, g).Some?
    ensures ModelData(a, g) == Derive(g.view, g.minted, DataModelRequest(g, AskModels(a, g).value.1))
  {
    hide Derive, DataModelRequest;
  }

  lemma PipelineStores(g: State, pipeline: PipelinePayload)
    requires Coherent(g) && g.next == BuildPipeline
    ensures var q := PipelineRequest(g.cp, pipeline);
      && q.kind == PipelineSpecification && |q.parents| == 2
      && Stores(g.view, g.minted, q, q.parents, Derive(g.view, g.minted, q))
  {
    hide LogOk, Typed, OfKind, Latest, IdFor, Stored, Keep, Derive, Save;
    LatestIsStored(g.view.rows, SemanticModel);
    LatestIsStored(g.view.rows, DataModel);
    LatestIdIsShared(g.view, g.minted, PipelineSpecification);
    DeriveEffect(g.view, g.minted, PipelineRequest(g.cp, pipeline));
  }

  lemma MetricsStores(g: State, metrics: MetricsPayload)
    requires Coherent(g) && g.next == DefineMetrics
    ensures var q := MetricsRequest(g.cp, metrics);
      && q.kind == MetricDefinitions && |q.parents| == 2
      && Stores(g.view, g.minted, q, q.parents, Derive(g.view, g.minted, q))
  {
    hide LogOk, Typed, OfKind, Latest, IdFor, Stored, Keep, Derive, Save;
    LatestIsStored(g.view.rows, SemanticModel);
    LatestIsStored(g.view.rows, PipelineSpecification);
    LatestIdIsShared(g.view, g.minted, MetricDefinitions);
    DeriveEffect(g.view, g.minted, MetricsRequest(g.cp, metrics));
  }

  lemma PackageStores(g: State)
    requires Coherent(g) && g.next == AssemblePackage
    ensures Pins(g.cp) != []
    ensures var q := PackageRequest(g.cp);
      && q.kind == ReviewPackage && |q.parents| == 6 && q.parents == Pins(g.cp)
      && Stores(g.view, g.minted, q, q.parents, Derive(g.view, g.minted, q))
  {
    hide LogOk, Typed, OfKind, Latest, IdFor, Stored, Keep, Derive, Save;
    PinsStored(g);
    LatestIdIsShared(g.view, g.minted, ReviewPackage);
    DeriveEffect(g.view, g.minted, PackageRequest(g.cp));
  }

  // ----- every node keeps the invariant -----

  lemma EnsureBrCoherent(g: State)
    requires Coherent(g) && g.next == EnsureBr
    ensures Coherent(EnsureBrStep(g))
  {
    hide LogOk, Typed, OfKind, Latest, Keep, Save, BrRequest, Requirement;
    BrStores(g);
  }

  lemma GenerateTrCoherent(a: Agents, g: State)
    requires Coherent(g) && g.next == GenerateTr && AskRequirement(a, g).Some?
    ensures Coherent(GenerateTrStep(a, g))
  {
    hide LogOk, Typed, OfKind, Latest, Derive, Linked, TrRequest, AskRequirement;
    TrStores(g, AskRequirement(a, g).value);
  }

  lemma PersistCoherent(g: State)
    requires Coherent(g) && g.next == PersistMapping
    ensures Coherent(PersistStep(g))
  {
    hide LogOk, Typed, OfKind, Latest, Derive, Linked, SliceRequest;
    SliceStores(g);
  }

  /** Both saves of a modelling round, and the state after them. */
  lemma ModelSaves(a: Agents, g: State)
    requires Coherent(g) && g.next == Model && AskModels(a, g).Some?
    ensures var d := ModelData(a, g); var s := ModelSemantics(a, g);
      var q := DataModelRequest(g, AskModels(a, g).value.1);
      var t := SemanticRequest(g.cp, AskModels(a, g).value.0, d.row.ToRef());
      && q.kind == DataModel && |q.parents| == 2 && t.kind == SemanticModel && |t.parents| == 3
      && Stores(g.view, g.minted, q, q.parents, d) && Stores(d.view, d.minted, t, t.parents, s)
  {
    hide Coherent, DataModelRequest, SemanticRequest, ModelData, ModelSemantics, AskModels, Stores;
    DataModelStores(g, AskModels(a, g).value.1);
    ModelDataIs(a, g);
    SemanticStores(a, g);
    SemanticKind(g.cp, AskModels(a, g).value.0, ModelData(a, g).row.ToRef());
  }

  lemma SemanticKind(cp: Checkpoint, sm: SemanticModelPayload, dm: Ref)
    ensures SemanticRequest(cp, sm, dm).kind == SemanticModel
  {
  }

  lemma ModelCoherent(a: Agents, g: State)
    requires Coherent(g) && g.next == Model && AskModels(a, g).Some?
    ensures Coherent(ModelStep(a, g))
  {
    hide LogOk, Typed, OfKind, Latest, IdFor, Stored, Keep, Derive, Save;
    hide ModelData, ModelSemantics, AskModels, MappingRow, Linked, DataModelRequest, SemanticRequest;
    ModelSaves(a, g);
  }

  lemma PipelineCoherent(a: Agents, g: State)
    requires Coherent(g) && g.next == BuildPipeline && AskPipeline(a, g).Some?
    ensures Coherent(PipelineStep(a, g))
  {
    hide LogOk, Typed, OfKind, Latest, Derive, Linked, PipelineRequest, AskPipeline;
    PipelineStores(g, AskPipeline(a, g).value);
  }

  lemma MetricsCoherent(a: Agents, g: State)
    requires Coherent(g) && g.next == DefineMetrics && AskMetrics(a, g).Some?
    ensures Coherent(MetricsStep(a, g))
  {
    hide LogOk, Typed, OfKind, Latest, Derive, Linked, MetricsRequest, AskMetrics;
    MetricsStores(g, AskMetrics(a, g).value);
  }

  lemma PinsExist(g: State)
    requires Coherent(g) && g.next == AssemblePackage
    ensures |Pins(g.cp)| == 6
  {
    hide LogOk, Typed, Latest, UnderReview;
  }

  lemma AssembleCoherent(g: State)
    requires Coherent(g) && g.next == AssemblePackage
    ensures Pins(g.cp) != [] && Coherent(AssembleStep(g))
  {
    hide LogOk, Typed, OfKind, Latest, Derive, Linked, PackageRequest, Pins;
    PinsExist(g);
    PackageStores(g);
  }

  /** A query by the shared id of a kind sees exactly the rows of that kind. */
  lemma {:induction false} MatchingById(rows: seq<Row>, id: Uuid, kind: Kind)
    requires forall r :: r in rows ==> (r.id == id <==> r.kind == kind)
    ensures Matching(rows, id, None) == OfKind(rows, kind)
  {
    if rows != [] {
      assert forall r :: r in rows[..|rows| - 1] ==> r in rows;
      MatchingById(rows[..|rows| - 1], id, kind);
    }
  }

  /** Reading by id without a version returns the newest row of the kind. */
  lemma ReadLatest(v: RunView, minted: Uuid, kind: Kind)
    requires Dense(v.rows, minted) && OfKind(v.rows, kind) != []
    ensures var own := OfKind(v.rows, kind); ReadRow(v, own[0].id, None) == Some(own[|own| - 1])
  {
    var own := OfKind(v.rows, kind);
    OfKindMembers(v.rows, kind);
    forall r | r in v.rows
      ensures r.id == own[0].id <==> r.kind == kind
    {
      assert own[0] in own;
    }
    MatchingById(v.rows, own[0].id, kind);
    HighestOfDense(own);
  }

  lemma {:induction false} MatchingByVersion(rows: seq<Row>, id: Uuid, version: nat)
    ensures Matching(rows, id, Some(version)) == WithVersion(Matching(rows, id, None), version)
  {
    if rows != [] {
      MatchingByVersion(rows[..|rows| - 1], id, version);
    }
  }

  function WithVersion(rows: seq<Row>, version: nat): seq<Row> {
    if rows == [] then
      []
    else
      var n := |rows| - 1;
      WithVersion(rows[..n], version) + if rows[n].version == version then [rows[n]] else []
  }

  lemma {:induction false} WithVersionOfDense(own: seq<Row>, version: nat)
    requires forall i :: 0 <= i < |own| ==> own[i].version == i + 1
    ensures WithVersion(own, version) == if 1 <= version <= |own| then [own[version - 1]] else []
  {
    if own != [] {
      WithVersionOfDense(own[..|own| - 1], version);
    }
  }

  /** Reading by id and version returns that version of the kind. */
  lemma ReadVersion(v: RunView, minted: Uuid, kind: Kind, version: nat)
    requires Dense(v.rows, minted) && 1 <= version <= |OfKind(v.rows, kind)|
    ensures var own := OfKind(v.rows, kind); ReadRow(v, own[0].id, Some(version)) == Some(own[version - 1])
  {
    var own := OfKind(v.rows, kind);
    OfKindMembers(v.rows, kind);
    forall r | r in v.rows
      ensures r.id == own[0].id <==> r.kind == kind
    {
      assert own[0] in own;
    }
    MatchingById(v.rows, own[0].id, kind);
    MatchingByVersion(v.rows, own[0].id, version);
    WithVersionOfDense(own, version);
  }

  /** The package that mark_approved reads is the newest one. */
  lemma PackageIsLatest(g: State)
    requires Coherent(g) && g.next == MarkApproved
    ensures var own := OfKind(g.view.rows, ReviewPackage);
      own != [] && PackageRow(g) == Some(own[|own| - 1]) && PackageRow(g).value.payload.ReviewPackageBody?
    ensures g.cp.rp == Some(PackageRow(g).value.ToPtr())
  {
    hide Faithful, EveryCommit, Find;
    ReadLatest(g.view, g.minted, ReviewPackage);
    var own := OfKind(g.view.rows, ReviewPackage);
    OfKindMembers(g.view.rows, ReviewPackage);
    assert own[|own| - 1] in own;
  }

  /** The slice that modelling starts from is the newest data model. */
  lemma MappingIsLatest(g: State)
    requires Coherent(g) && g.cp.mapping.Some?
    ensures var own := OfKind(g.view.rows, DataModel);
      && own != [] && MappingRow(g) == Some(own[|own| - 1])
      && own[|own| - 1].payload.DataModelBody? && MappingModel(g) == Some(own[|own| - 1].payload.dm)
  {
    hide Faithful, EveryCommit, Find;
    var own := OfKind(g.view.rows, DataModel);
    OfKindMembers(g.view.rows, DataModel);
    assert own[|own| - 1] in own;
    ReadVersion(g.view, g.minted, DataModel, |own|);
  }

  lemma ApprovalStores(g: State)
    requires Coherent(g) && g.next == MarkApproved
    ensures PackageId(g.cp).Some? && PackageRow(g).Some? && PackageRow(g).value.payload.ReviewPackageBody?
    ensures var q := ApprovalRequest(PackageRow(g).value);
      && Stores(g.view, g.minted, q, [], Keep(g.view, g.minted, q))
      && Keep(g.view, g.minted, q).view.edges == g.view.edges
      && g.cp.rp == Some(PackageRow(g).value.ToPtr())
  {
    hide LogOk, Typed, OfKind, Latest, IdFor, Stored, Keep, Derive, Save;
    hide PackageRow;
    PackageIsLatest(g);
    LatestIdIsShared(g.view, g.minted, ReviewPackage);
    KeepEffect(g.view, g.minted, ApprovalRequest(PackageRow(g).value));
  }

  lemma ApproveCoherent(a: Agents, g: State)
    requires Coherent(g) && g.next == MarkApproved
    ensures !Raises(a, g) && Coherent(ApproveStep(g))
  {
    hide LogOk, Typed, OfKind, Latest, IdFor, Stored, Keep, Derive, Save;
    hide PackageRow;
    ApprovalStores(g);
  }

  predicate Quiet(n: Node) {
    n.ResetRetries? || n.DiscoverSources? || n.MapData? || n.JudgeMapping? || n.ValidatePipeline? || n.MarkTerminated?
  }

  /** Where a node that does not touch the store can lead. */
  predicate QuietEdge(n: Node, m: Node) {
    || (n.ResetRetries? && m.DiscoverSources?)
    || (n.DiscoverSources? && m.MapData?)
    || (n.MapData? && m.JudgeMapping?)
    || (n.JudgeMapping? && (m.DiscoverSources? || m.MapData? || m.PersistMapping?))
    || (n.ValidatePipeline? && m.DefineMetrics?)
    || (n.MarkTerminated? && m.End?)
  }

  /** Everything the invariant reads of a checkpoint. */
  predicate SamePointers(p: Checkpoint, q: Checkpoint) {
    && p.current == q.current && p.br == q.br && p.tr == q.tr && p.mapping == q.mapping && p.sm == q.sm && p.dm == q.dm
    && p.pipeline == q.pipeline && p.metrics == q.metrics && p.rp == q.rp
    && p.brPayload == q.brPayload && p.trPayload == q.trPayload && p.smPayload == q.smPayload
    && p.dmPayload == q.dmPayload && p.pipelinePayload == q.pipelinePayload
  }

  /** The nodes that do not touch the store. */
  lemma QuietStep(c: Settings, a: Agents, g: State)
    requires Quiet(g.next) && !Raises(a, g)
    ensures var h := Step(c, a, g);
      && h.view == g.view && h.minted == g.minted && QuietEdge(g.next, h.next) && SamePointers(h.cp, g.cp)
      && h.cp.userId == g.cp.userId && (g.next == MarkTerminated ==> h.cp.decision == Some(Reject))
      && (g.next != ValidatePipeline ==> h.cp.validation == g.cp.validation)
  {
    hide Judged, Mapping.Propose, DiscoverAccessibleObjects, UserOf;
  }

  lemma SameArtefacts(g: State, h: State)
    requires Coherent(g) && h.view == g.view && h.minted == g.minted
    requires SamePointers(h.cp, g.cp) && QuietEdge(g.next, h.next)
    ensures Coherent(h)
  {
    hide LogOk, Typed, Latest;
  }

  lemma QuietCoherent(c: Settings, a: Agents, g: State)
    requires Coherent(g) && !Raises(a, g) && Quiet(g.next)
    ensures Coherent(Step(c, a, g)) && Step(c, a, g).view == g.view
  {
    hide Coherent, Step, Raises, QuietEdge, SamePointers;
    QuietStep(c, a, g);
    SameArtefacts(g, Step(c, a, g));
  }

  /** Every node of the graph keeps the invariant. */
  lemma StepCoherent(c: Settings, a: Agents, g: State)
    requires Coherent(g) && !Paused(g) && !Raises(a, g)
    ensures Coherent(Step(c, a, g))
  {
    hide Coherent, EnsureBrStep, GenerateTrStep, PersistStep, ModelStep, PipelineStep, MetricsStep, AssembleStep;
    hide ApproveStep;
    match g.next {
      case EnsureBr => EnsureBrCoherent(g);
      case GenerateTr => GenerateTrCoherent(a, g);
      case PersistMapping => PersistCoherent(g);
      case Model => ModelCoherent(a, g);
      case BuildPipeline => PipelineCoherent(a, g);
      case DefineMetrics => MetricsCoherent(a, g);
      case AssemblePackage => AssembleCoherent(g);
      case MarkApproved => ApproveCoherent(a, g);
      case _ => QuietCoherent(c, a, g);
    }
  }

  /** In a coherent state a node raises only for want of a user or because its agent raised. */
  lemma WhatCanRaise(a: Agents, g: State)
    requires Coherent(g) && Raises(a, g)
    ensures || (g.next == DiscoverSources && Blank(g.cp.userId))
            || (g.next == GenerateTr && g.cp.brPayload.Some?
                && a.technicalRequirement(g.cp.brPayload.value, g.cp.feedback) == None)
            || (g.next == Model && g.cp.trPayload.Some?
                && a.modelling(g.cp.trPayload.value, MappingModel(g), g.cp.feedback) == None)
            || (g.next == BuildPipeline && g.cp.trPayload.Some? && g.cp.smPayload.Some? && g.cp.dmPayload.Some?
                && a.pipeline(g.cp.trPayload.value, g.cp.smPayload.value, g.cp.dmPayload.value) == None)
            || (g.next == DefineMetrics && g.cp.smPayload.Some?
                && a.metrics(g.cp.smPayload.value, g.cp.trPayload, g.cp.feedback) == None)
  {
    match g.next {
      case MarkApproved => ApproveCoherent(a, g);
      case AssemblePackage => AssembleCoherent(g);
      case Model => MappingIsLatest(g);
      case _ =>
    }
  }

  lemma RecordedLogOk(g: State, d: Decision)
    requires LogOk(g.view, g.minted)
    ensures LogOk(Recorded(g, d).view, g.minted) && Recorded(g, d).view.rows == g.view.rows
  {
    hide LogOk;
    StatusAndReviewKeepLogOk(g.view, g.minted, Running, d, CurrentPtr(g.cp));
    StatusAndReviewKeepLogOk(AddReview(g.view, d, CurrentPtr(g.cp)), g.minted, Running, d, None);
  }

  /** The node that a decision leads to finds what it needs. */
  lemma RouteStocked(g: State, h: State, d: Decision)
    requires IsGate(g.next) && h.next == Route(g.next, d) && SamePointers(h.cp, g.cp) && h.view.rows == g.view.rows
    requires Stocked(g) && UnderReview(g)
    ensures Stocked(h) && UnderReview(h)
  {
    hide Latest;
  }

  lemma ResumeCoherent(g: State, d: Decision, comments: string)
    requires Coherent(g) && IsGate(g.next)
    ensures Coherent(Resume(Recorded(g, d), d, comments))
  {
    hide LogOk, Typed, Stocked, UnderReview, Latest, Route;
    RecordedLogOk(g, d);
    RouteStocked(g, Resume(Recorded(g, d), d, comments), d);
  }

  lemma SyncCoherent(g: State)
    requires Coherent(g)
    ensures Coherent(Sync(g))
  {
    hide LogOk, OfKind;
    StatusAndReviewKeepLogOk(g.view, g.minted, StatusFor(g), Approve, None);
  }

  lemma InitialCoherent(q: StartRequest, minted: Uuid)
    ensures Coherent(InitialState(q, minted))
  {
    hide LogOk;
    NewRunLogOk(minted);
    StatusAndReviewKeepLogOk(NEW_RUN, minted, Running, Approve, None);
  }

  lemma {:induction false} InvokeCoherent(c: Settings, a: Agents, g: State)
    requires Coherent(g)
    ensures Coherent(Invoke(c, a, g))
    decreases Outer(g.next), RetryRoom(c, g.cp), Inner(g.next)
  {
    if !Paused(g) && !Raises(a, g) {
      StepCoherent(c, a, g);
      StepMakesProgress(c, a, g);
      InvokeCoherent(c, a, Step(c, a, g));
    }
  }

  /** New uuids taken by other runs in between do not matter. */
  lemma MintedMayGrow(g: State, minted: Uuid)
    requires Coherent(g) && minted >= g.minted
    ensures Coherent(g.(minted := minted))
  {
  }
}
