/** Two more facts of every node boundary: every review package pins the six newest artefacts,
    and everything stored descends from the business requirement. */
module Lineage {
  import opened Domain
  import opened RunLog
  import opened Workflow
  import opened Coherence

  // ----- review packages -----

  predicate IsApproved(g: State) {
    g.next == End && g.cp.decision == Some(Approve)
  }

  /** Every version of the package pins the current six references as its payload and as its
      parents; only the last version of an approved run is marked approved. */
  ghost predicate Packaged(g: State) {
    var own := OfKind(g.view.rows, ReviewPackage);
    && (forall i :: 0 <= i < |own| ==>
          && own[i].payload.ReviewPackageBody?
          && own[i].payload.rp.pinned == Pins(g.cp) && own[i].parents == Pins(g.cp)
          && (own[i].payload.rp.decisionState ==
              if i == |own| - 1 && IsApproved(g) then PackageApproved else PendingReview))
    && (own != [] ==> |Pins(g.cp)| == 6)
    && (IsApproved(g) ==> own != [] && forall e :: e in g.view.edges ==> e.to != own[|own| - 1].ToPtr())
  }

  lemma LeavesPackageAlone(c: Settings, a: Agents, g: State)
    requires BeforePackage(g.next) && !Paused(g) && !Raises(a, g)
    ensures Step(c, a, g).cp.rp == g.cp.rp && Step(c, a, g).next != End
  {
    hide Keep, Derive, ModelData, ModelSemantics, Judged, Mapping.Propose, UserOf, AskModels;
    hide AskRequirement, AskPipeline, AskMetrics, AssembleStep, ApproveStep;
  }

  lemma NoPackagesYet(g: State)
    requires Coherent(g) && g.cp.rp == None && g.next != End
    ensures Packaged(g)
  {
    hide LogOk, Typed, Stocked, UnderReview, OfKind;
  }

  lemma TerminatePackaged(g: State)
    requires Packaged(g) && g.next == MarkTerminated
    ensures Packaged(TerminateStep(g))
  {
    hide OfKind;
  }

  lemma NoPackageBefore(g: State)
    requires Coherent(g) && BeforePackage(g.next)
    ensures g.cp.rp == None
  {
    hide LogOk, Typed, Pointers, UnderReview;
  }

  /** Before the first package there is nothing to say, and only packaging nodes add one. */
  lemma OtherNodesPackaged(c: Settings, a: Agents, g: State)
    requires BeforePackage(g.next) && !Paused(g) && !Raises(a, g) && Coherent(g)
    ensures Packaged(Step(c, a, g))
  {
    hide Coherent, Packaged, Step, Raises, BeforePackage;
    NoPackageBefore(g);
    StepCoherent(c, a, g);
    LeavesPackageAlone(c, a, g);
    NoPackagesYet(Step(c, a, g));
  }

  lemma AssemblePackaged(g: State)
    requires Coherent(g) && Packaged(g) && g.next == AssemblePackage
    ensures Pins(g.cp) != [] && Packaged(AssembleStep(g))
  {
    hide Coherent, LogOk, Typed, OfKind, Derive;
    PackageStores(g);
    var q := PackageRequest(g.cp);
    var s := Derive(g.view, g.minted, q);
    NewRowOnly(g.view, g.minted, q, q.parents, s);
  }

  /** The rows of the saved kind, before and after. */
  lemma NewRowOnly(v: RunView, minted: Uuid, q: Request, parents: seq<Ref>, s: SavedRow)
    requires Stores(v, minted, q, parents, s)
    ensures s.view.rows == v.rows + [s.row] && OfKind(s.view.rows, q.kind) == OfKind(v.rows, q.kind) + [s.row]
    ensures forall k :: k != q.kind ==> OfKind(s.view.rows, k) == OfKind(v.rows, k)
    ensures s.row.payload == q.payload && s.row.parents == q.parents && s.row.kind == q.kind
    ensures forall r :: r in v.rows ==> r.ToPtr() != s.row.ToPtr()
  {
    hide LogOk, Typed, OfKind;
  }

  /** No edge leads to a row that is not stored yet. */
  lemma EdgesEndAtRows(v: RunView, minted: Uuid, p: Ptr)
    requires LogOk(v, minted) && forall r :: r in v.rows ==> r.ToPtr() != p
    ensures forall e :: e in v.edges ==> e.to != p
  {
    hide Faithful, EveryCommit, Dense;
    LogOkWellFormed(v, minted);
    forall e | e in v.edges
      ensures e.to != p
    {
      var i, j :| 0 <= i < j < |Refs(v.rows)| && Refs(v.rows)[i].ToPtr() == e.from && Refs(v.rows)[j].ToPtr() == e.to;
      assert v.rows[j] in v.rows;
    }
  }

  lemma ApprovePackaged(a: Agents, g: State)
    requires Coherent(g) && Packaged(g) && g.next == MarkApproved
    ensures !Raises(a, g) && Packaged(ApproveStep(g))
  {
    hide LogOk, Typed, OfKind, Keep, PackageRow, Pointers, Stocked, UnderReview;
    PackageIsLatest(g);
    ApprovalStores(g);
    var q := ApprovalRequest(PackageRow(g).value);
    var s := Keep(g.view, g.minted, q);
    NewRowOnly(g.view, g.minted, q, [], s);
    EdgesEndAtRows(g.view, g.minted, s.row.ToPtr());
  }

  lemma StepPackaged(c: Settings, a: Agents, g: State)
    requires Coherent(g) && Packaged(g) && !Paused(g) && !Raises(a, g)
    ensures Packaged(Step(c, a, g))
  {
    hide Coherent, Packaged, AssembleStep, ApproveStep, TerminateStep;
    if g.next == AssemblePackage {
      AssemblePackaged(g);
    } else if g.next == MarkApproved {
      ApprovePackaged(a, g);
    } else if g.next == MarkTerminated {
      TerminatePackaged(g);
    } else {
      hide Step;
      OtherNodesPackaged(c, a, g);
    }
  }

  // ----- descent from the business requirement -----

  ghost predicate Reachable(edges: seq<Edge>, from: Ptr, to: Ptr) {
    exists p :: EdgePath(edges, p) && p[0] == from && p[|p| - 1] == to
  }

  lemma ReachableStays(edges: seq<Edge>, edges': seq<Edge>, from: Ptr, to: Ptr)
    requires Reachable(edges, from, to) && forall e :: e in edges ==> e in edges'
    ensures Reachable(edges', from, to)
  {
    var p :| EdgePath(edges, p) && p[0] == from && p[|p| - 1] == to;
    assert EdgePath(edges', p);
  }

  lemma ReachableOneMore(edges: seq<Edge>, from: Ptr, mid: Ptr, to: Ptr)
    requires Reachable(edges, from, mid) && Edge(mid, to) in edges
    ensures Reachable(edges, from, to)
  {
    var p :| EdgePath(edges, p) && p[0] == from && p[|p| - 1] == mid;
    var p' := p + [to];
    forall i | 0 <= i < |p'| - 1
      ensures Edge(p'[i], p'[i + 1]) in edges
    {
      assert i < |p| - 1 ==> Edge(p[i], p[i + 1]) in edges;
    }
    assert EdgePath(edges, p');
  }

  /** The package version that mark_approved writes. */
  predicate IsApproval(r: Row) {
    r.payload.ReviewPackageBody? && r.payload.rp.decisionState == PackageApproved
  }

  ghost predicate RowsRooted(rows: seq<Row>, edges: seq<Edge>, root: Ptr) {
    forall r :: r in rows && r.kind != BusinessRequirement && !IsApproval(r) ==> Reachable(edges, root, r.ToPtr())
  }

  /** Every row but the business requirement and the approval is reachable from version 1 of the
      former. */
  ghost predicate Rooted(g: State) {
    g.cp.br.Some? ==> g.cp.br.value.version == 1 && RowsRooted(g.view.rows, g.view.edges, g.cp.br.value)
  }

  /** A row derived from something reachable is reachable. */
  lemma DerivedIsRooted(v: RunView, minted: Uuid, q: Request, s: SavedRow, root: Ptr, parent: Ref)
    requires Stores(v, minted, q, q.parents, s) && RowsRooted(v.rows, v.edges, root)
    requires parent in q.parents
    requires parent.ToPtr() == root || Reachable(v.edges, root, parent.ToPtr())
    ensures RowsRooted(s.view.rows, s.view.edges, root)
  {
    hide LogOk, Typed, OfKind, Latest, Reachable;
    assert forall e :: e in v.edges ==> e in s.view.edges;
    assert Edge(parent.ToPtr(), s.row.ToPtr()) in s.view.edges;
    if parent.ToPtr() == root {
      SelfReachable(s.view.edges, root);
    } else {
      ReachableStays(v.edges, s.view.edges, root, parent.ToPtr());
    }
    ReachableOneMore(s.view.edges, root, parent.ToPtr(), s.row.ToPtr());
    forall r | r in s.view.rows && r.kind != BusinessRequirement && !IsApproval(r)
      ensures Reachable(s.view.edges, root, r.ToPtr())
    {
      if r != s.row {
        assert r in v.rows;
        ReachableStays(v.edges, s.view.edges, root, r.ToPtr());
      }
    }
  }

  lemma SelfReachable(edges: seq<Edge>, p: Ptr)
    ensures Reachable(edges, p, p)
  {
    assert EdgePath(edges, [p]);
  }

  /** The newest version of any kind but the business requirement and the package. */
  lemma LatestReachable(g: State, kind: Kind)
    requires Typed(g.view.rows) && Rooted(g) && g.cp.br.Some?
    requires kind != BusinessRequirement && kind != ReviewPackage && Latest(g.view.rows, kind).Some?
    ensures Reachable(g.view.edges, g.cp.br.value, Latest(g.view.rows, kind).value)
  {
    hide Reachable;
    var own := OfKind(g.view.rows, kind);
    OfKindMembers(g.view.rows, kind);
    assert own[|own| - 1] in own;
  }

  lemma TrRooted(a: Agents, g: State)
    requires Coherent(g) && Rooted(g) && g.next == GenerateTr && AskRequirement(a, g).Some?
    ensures Rooted(GenerateTrStep(a, g))
  {
    hide LogOk, Typed, Stores, Latest, OfKind, Derive, RowsRooted, Reachable, AskRequirement;
    var q := TrRequest(g.cp, AskRequirement(a, g).value);
    TrStores(g, AskRequirement(a, g).value);
    DerivedIsRooted(g.view, g.minted, q, Derive(g.view, g.minted, q), g.cp.br.value, q.parents[0]);
  }

  lemma PersistRooted(g: State)
    requires Coherent(g) && Rooted(g) && g.next == PersistMapping
    ensures Rooted(PersistStep(g))
  {
    hide LogOk, Typed, Stores, Latest, OfKind, Derive, RowsRooted, Reachable;
    var q := SliceRequest(g.cp);
    SliceStores(g);
    LatestReachable(g, TechnicalRequirement);
    DerivedIsRooted(g.view, g.minted, q, Derive(g.view, g.minted, q), g.cp.br.value, q.parents[0]);
  }

  lemma PipelineRooted(a: Agents, g: State)
    requires Coherent(g) && Rooted(g) && g.next == BuildPipeline && AskPipeline(a, g).Some?
    ensures Rooted(PipelineStep(a, g))
  {
    hide LogOk, Typed, Stores, Latest, OfKind, Derive, RowsRooted, Reachable, AskPipeline;
    var q := PipelineRequest(g.cp, AskPipeline(a, g).value);
    PipelineStores(g, AskPipeline(a, g).value);
    LatestReachable(g, SemanticModel);
    DerivedIsRooted(g.view, g.minted, q, Derive(g.view, g.minted, q), g.cp.br.value, q.parents[0]);
  }

  lemma MetricsRooted(a: Agents, g: State)
    requires Coherent(g) && Rooted(g) && g.next == DefineMetrics && AskMetrics(a, g).Some?
    ensures Rooted(MetricsStep(a, g))
  {
    hide LogOk, Typed, Stores, Latest, OfKind, Derive, RowsRooted, Reachable, AskMetrics;
    var q := MetricsRequest(g.cp, AskMetrics(a, g).value);
    MetricsStores(g, AskMetrics(a, g).value);
    LatestReachable(g, SemanticModel);
    DerivedIsRooted(g.view, g.minted, q, Derive(g.view, g.minted, q), g.cp.br.value, q.parents[0]);
  }

  lemma AssembleRooted(g: State)
    requires Coherent(g) && Rooted(g) && g.next == AssemblePackage
    ensures Pins(g.cp) != [] && Rooted(AssembleStep(g))
  {
    hide LogOk, Typed, Stores, Latest, OfKind, Derive, RowsRooted, Reachable;
    PackageStores(g);
    var q := PackageRequest(g.cp);
    DerivedIsRooted(g.view, g.minted, q, Derive(g.view, g.minted, q), g.cp.br.value, q.parents[0]);
  }

  lemma ModelRooted(a: Agents, g: State)
    requires Coherent(g) && Rooted(g) && g.next == Model && AskModels(a, g).Some?
    ensures Rooted(ModelStep(a, g))
  {
    hide LogOk, Typed, Stores, Latest, OfKind, Derive, RowsRooted, Reachable, ModelData, ModelSemantics, AskModels;
    hide MappingRow;
    var models, d, root := AskModels(a, g).value, ModelData(a, g), g.cp.br.value;
    ModelSaves(a, g);
    LatestReachable(g, TechnicalRequirement);
    var q, r := DataModelRequest(g, models.1), SemanticRequest(g.cp, models.0, d.row.ToRef());
    DerivedIsRooted(g.view, g.minted, q, d, root, q.parents[0]);
    StoresAddsEdges(g.view, g.minted, q, d);
    ReachableStays(g.view.edges, d.view.edges, root, g.cp.tr.value);
    DerivedIsRooted(d.view, d.minted, r, ModelSemantics(a, g), root, r.parents[0]);
  }

  lemma StoresAddsEdges(v: RunView, minted: Uuid, q: Request, s: SavedRow)
    requires Stores(v, minted, q, q.parents, s)
    ensures forall e :: e in v.edges ==> e in s.view.edges
  {
    hide LogOk, Typed, OneMore;
  }

  lemma ApproveRooted(a: Agents, g: State)
    requires Coherent(g) && Rooted(g) && g.next == MarkApproved
    ensures !Raises(a, g) && Rooted(ApproveStep(g))
  {
    hide Coherent, LogOk, Typed, OfKind, Keep, PackageRow, Reachable;
    ApprovalStores(g);
    var q := ApprovalRequest(PackageRow(g).value);
    var s := Keep(g.view, g.minted, q);
    NewRowOnly(g.view, g.minted, q, [], s);
    assert IsApproval(s.row);
  }

  lemma EnsureBrRooted(g: State)
    requires Coherent(g) && g.next == EnsureBr
    ensures Rooted(EnsureBrStep(g))
  {
    hide LogOk, Typed, OfKind, Keep, Reachable;
    BrStores(g);
    NewRowOnly(g.view, g.minted, BrRequest(g.cp), [], Keep(g.view, g.minted, BrRequest(g.cp)));
    FirstVersion(g.view, g.minted, BrRequest(g.cp), [], Keep(g.view, g.minted, BrRequest(g.cp)));
  }

  /** The first row of a kind is its version 1. */
  lemma FirstVersion(v: RunView, minted: Uuid, q: Request, parents: seq<Ref>, s: SavedRow)
    requires Stores(v, minted, q, parents, s) && v.rows == []
    ensures s.row.version == 1
  {
    hide Faithful, EveryCommit, Typed;
    assert OfKind(s.view.rows, q.kind) == [s.row];
  }

  lemma StepRooted(c: Settings, a: Agents, g: State)
    requires Coherent(g) && Rooted(g) && !Paused(g) && !Raises(a, g)
    ensures Rooted(Step(c, a, g))
  {
    hide Coherent, Rooted, EnsureBrStep, ApproveStep, AssembleStep, ModelStep, GenerateTrStep, PersistStep;
    hide PipelineStep;
    hide MetricsStep;
    match g.next {
      case EnsureBr => EnsureBrRooted(g);
      case GenerateTr => TrRooted(a, g);
      case PersistMapping => PersistRooted(g);
      case Model => ModelRooted(a, g);
      case BuildPipeline => PipelineRooted(a, g);
      case DefineMetrics => MetricsRooted(a, g);
      case AssemblePackage => AssembleRooted(g);
      case MarkApproved => ApproveRooted(a, g);
      case _ => QuietRooted(c, a, g);
    }
  }

  lemma QuietRooted(c: Settings, a: Agents, g: State)
    requires Rooted(g) && Quiet(g.next) && !Raises(a, g)
    ensures Rooted(Step(c, a, g))
  {
    hide Step, Raises, RowsRooted;
    QuietStep(c, a, g);
  }
}
