/** What the store holds about one run: its status row, its artefact rows, its lineage edges and
    its audit events, each list in insertion order. The operations here are the transactions of
    the store, seen from the run they belong to. */
module RunLog {
  import opened Domain

  datatype Edge = Edge(from: Ptr, to: Ptr)

  datatype Event =
    | RunCreated
    | StatusUpdated(previous: RunStatus, status: RunStatus)
    | ArtefactCreated(ref: Ref)
    | LineageCreated(edge: Edge)
    | ReviewSubmitted(decision: Decision, artefact: Option<Ptr>)

  datatype RunView = RunView(status: RunStatus, rows: seq<Row>, edges: seq<Edge>, audit: seq<Event>)

  datatype StoreError = NotFound | Conflict | InvalidPayload | MultipleFound

  // ----- queries -----

  function OfKind(rows: seq<Row>, kind: Kind): seq<Row> {
    if rows == [] then
      []
    else
      var n := |rows| - 1;
      if rows[n].kind == kind then OfKind(rows[..n], kind) + [rows[n]] else OfKind(rows[..n], kind)
  }

  function VersionsOf(rows: seq<Row>): (versions: seq<nat>)
    ensures |versions| == |rows| && forall i :: 0 <= i < |rows| ==> versions[i] == rows[i].version
  {
    seq(|rows|, i requires 0 <= i < |rows| => rows[i].version)
  }

  function NextVersion(rows: seq<Row>, kind: Kind): nat {
    MaxOf(VersionsOf(OfKind(rows, kind))) + 1
  }

  /** The query has no ORDER BY; with one id per kind its choice does not matter. */
  function IdFor(rows: seq<Row>, kind: Kind): Option<Uuid> {
    var own := OfKind(rows, kind);
    if own == [] then None else Some(own[0].id)
  }

  predicate Taken(rows: seq<Row>, kind: Kind, version: nat) {
    exists r :: r in OfKind(rows, kind) && r.version == version
  }

  function Matching(rows: seq<Row>, id: Uuid, version: Option<nat>): seq<Row> {
    if rows == [] then
      []
    else
      var n := |rows| - 1;
      if rows[n].id == id && (version.Some? ==> rows[n].version == version.value)
      then Matching(rows[..n], id, version) + [rows[n]]
      else Matching(rows[..n], id, version)
  }

  /** A row of the highest version. */
  function Highest(rows: seq<Row>): Row
    requires rows != []
  {
    var n := |rows| - 1;
    if n == 0 then
      rows[0]
    else
      var before := Highest(rows[..n]);
      if rows[n].version > before.version then rows[n] else before
  }

  function Find(rows: seq<Row>, id: Uuid, version: Option<nat>): Result<Row, StoreError> {
    var found := Matching(rows, id, version);
    if found == [] then Err(NotFound)
    else if version.None? then Ok(Highest(found))
    else if |found| == 1 then Ok(found[0])
    else Err(MultipleFound)
  }

  // ----- transactions -----

  const NEW_RUN := RunView(Created, [], [], [RunCreated])

  function SetStatus(v: RunView, status: RunStatus): RunView {
    v.(status := status, audit := v.audit + [StatusUpdated(v.status, status)])
  }

  function AddReview(v: RunView, decision: Decision, artefact: Option<Ptr>): RunView {
    v.(audit := v.audit + [ReviewSubmitted(decision, artefact)])
  }

  function AddRow(v: RunView, row: Row): RunView {
    v.(rows := v.rows + [row], audit := v.audit + [ArtefactCreated(row.ToRef())])
  }

  function AddEdge(v: RunView, edge: Edge): RunView {
    v.(edges := v.edges + [edge], audit := v.audit + [LineageCreated(edge)])
  }

  /** The arguments of save_artefact. */
  datatype Request = Request(
    kind: Kind,
    payload: Payload,
    version: Option<nat>,
    artefactId: Option<Uuid>,
    governance: Option<Governance>,
    sourceRefs: seq<string>,
    parents: seq<Ref>)

  datatype SavedRow = SavedRow(view: RunView, row: Row, minted: Uuid)

  function VersionFor(rows: seq<Row>, q: Request): nat {
    if q.version.Some? then q.version.value else NextVersion(rows, q.kind)
  }

  /** The id to reuse, or none when one has to be generated. */
  function KnownId(rows: seq<Row>, q: Request): Option<Uuid> {
    if q.artefactId.Some? then q.artefactId else IdFor(rows, q.kind)
  }

  function Max(a: nat, b: nat): nat {
    if a < b then b else a
  }

  /** save_artefact. Every uuid below `minted` may be in use; a generated one is `minted`. */
  function Save(v: RunView, minted: Uuid, q: Request): Result<SavedRow, StoreError> {
    if KindOf(q.payload) != q.kind then
      Err(InvalidPayload)
    else
      var version := VersionFor(v.rows, q);
      var known := KnownId(v.rows, q);
      var id := if known.Some? then known.value else minted;
      if version < 1 || Taken(v.rows, q.kind, version) then
        Err(Conflict)
      else
        var row := Row(id, q.kind, version, q.payload, q.governance, q.sourceRefs, q.parents);
        Ok(SavedRow(AddRow(v, row), row, Max(minted, id + 1)))
  }

  /** One lineage edge from each parent to the row just saved, in order. */
  function Link(v: RunView, parents: seq<Ref>, to: Ptr): RunView {
    if parents == [] then
      v
    else
      var n := |parents| - 1;
      AddEdge(Link(v, parents[..n], to), Edge(parents[n].ToPtr(), to))
  }

  /** Whatever the store holds, a save that lets the store choose the version succeeds when no
      other save comes in between. */
  lemma AutoVersionNeverConflicts(v: RunView, minted: Uuid, q: Request)
    requires KindOf(q.payload) == q.kind && q.version == None
    ensures Save(v, minted, q).Ok?
  {
    var own := OfKind(v.rows, q.kind);
    MaxOfBounds(VersionsOf(own));
    forall r | r in own
      ensures r.version < NextVersion(v.rows, q.kind)
    {
      var i :| 0 <= i < |own| && own[i] == r;
      assert VersionsOf(own)[i] in VersionsOf(own);
    }
  }

  // ----- the audit log rebuilds the rest -----

  /** What the audit events say about a run. */
  datatype Index = Index(status: Option<RunStatus>, refs: seq<Ref>, edges: seq<Edge>)

  function Apply(i: Index, e: Event): Index {
    match e
    case RunCreated => i.(status := Some(Created))
    case StatusUpdated(_, status) => i.(status := Some(status))
    case ArtefactCreated(ref) => i.(refs := i.refs + [ref])
    case LineageCreated(edge) => i.(edges := i.edges + [edge])
    case ReviewSubmitted(_, _) => i
  }

  function Replay(audit: seq<Event>): Index {
    if audit == [] then
      Index(None, [], [])
    else
      Apply(Replay(audit[..|audit| - 1]), audit[|audit| - 1])
  }

  function Refs(rows: seq<Row>): (refs: seq<Ref>)
    ensures |refs| == |rows| && forall i :: 0 <= i < |rows| ==> refs[i] == rows[i].ToRef()
  {
    seq(|rows|, i requires 0 <= i < |rows| => rows[i].ToRef())
  }

  function IndexOf(v: RunView): Index {
    Index(Some(v.status), Refs(v.rows), v.edges)
  }

  /** Every status event names the status that the events before it left. */
  ghost predicate StatusChain(audit: seq<Event>) {
    forall k :: 0 <= k < |audit| && audit[k].StatusUpdated? ==> Replay(audit[..k]).status == Some(audit[k].previous)
  }

  ghost predicate Faithful(v: RunView) {
    Replay(v.audit) == IndexOf(v) && StatusChain(v.audit)
  }

  lemma ReplayAppend(audit: seq<Event>, e: Event)
    ensures Replay(audit + [e]) == Apply(Replay(audit), e)
  {
    assert (audit + [e])[..|audit|] == audit;
  }

  lemma StatusChainAppend(audit: seq<Event>, e: Event)
    requires StatusChain(audit)
    requires e.StatusUpdated? ==> Replay(audit).status == Some(e.previous)
    ensures StatusChain(audit + [e])
  {
    var audit' := audit + [e];
    forall k | 0 <= k < |audit'| && audit'[k].StatusUpdated?
      ensures Replay(audit'[..k]).status == Some(audit'[k].previous)
    {
      assert audit'[..k] == audit[..k];
      assert k == |audit| ==> audit[..k] == audit;
    }
  }

  lemma NewRunFaithful()
    ensures Faithful(NEW_RUN)
  {
    assert NEW_RUN.audit == [] + [RunCreated];
    ReplayAppend([], RunCreated);
    StatusChainAppend([], RunCreated);
  }

  /** Each transaction keeps the log and the tables telling the same story. */
  lemma TransactionsFaithful(v: RunView, status: RunStatus, decision: Decision, at: Option<Ptr>, row: Row, edge: Edge)
    requires Faithful(v)
    ensures Faithful(SetStatus(v, status)) && Faithful(AddReview(v, decision, at))
    ensures Faithful(AddRow(v, row)) && Faithful(AddEdge(v, edge))
  {
    ReplayAppend(v.audit, StatusUpdated(v.status, status));
    ReplayAppend(v.audit, ReviewSubmitted(decision, at));
    ReplayAppend(v.audit, ArtefactCreated(row.ToRef()));
    ReplayAppend(v.audit, LineageCreated(edge));
    StatusChainAppend(v.audit, StatusUpdated(v.status, status));
    StatusChainAppend(v.audit, ReviewSubmitted(decision, at));
    StatusChainAppend(v.audit, ArtefactCreated(row.ToRef()));
    StatusChainAppend(v.audit, LineageCreated(edge));
    assert Refs(v.rows + [row]) == Refs(v.rows) + [row.ToRef()];
  }

  // ----- dense versions -----

  /** Versions of each kind are 1..n in insertion order under one artefact id, and no id serves
      two kinds or has yet to be generated. */
  ghost predicate Dense(rows: seq<Row>, minted: Uuid) {
    && (forall kind, i :: 0 <= i < |OfKind(rows, kind)| ==>
          && OfKind(rows, kind)[i].version == i + 1
          && OfKind(rows, kind)[i].id == OfKind(rows, kind)[0].id)
    && (forall r :: r in rows ==> r.id < minted)
    && (forall r, q :: r in rows && q in rows && r.id == q.id ==> r.kind == q.kind)
  }

  /** The newest version of a kind. */
  function Latest(rows: seq<Row>, kind: Kind): Option<Ptr> {
    var own := OfKind(rows, kind);
    if own == [] then None else Some(own[|own| - 1].ToPtr())
  }

  lemma {:induction false} OfKindMembers(rows: seq<Row>, kind: Kind)
    ensures forall r :: r in OfKind(rows, kind) <==> r in rows && r.kind == kind
  {
    if rows != [] {
      var n := |rows| - 1;
      OfKindMembers(rows[..n], kind);
      assert forall r :: r in rows <==> r in rows[..n] || r == rows[n];
    }
  }

  lemma OfKindAppend(rows: seq<Row>, row: Row, kind: Kind)
    ensures OfKind(rows + [row], kind) == if row.kind == kind then OfKind(rows, kind) + [row] else OfKind(rows, kind)
  {
    assert (rows + [row])[..|rows|] == rows;
  }

  lemma {:induction false} HighestOfDense(own: seq<Row>)
    requires own != [] && forall i :: 0 <= i < |own| ==> own[i].version == i + 1
    ensures Highest(own) == own[|own| - 1]
  {
    if |own| > 1 {
      HighestOfDense(own[..|own| - 1]);
    }
  }

  /** `Latest` is what "the row with the maximal version" selects, and nothing else is. */
  lemma LatestIsMaximal(rows: seq<Row>, minted: Uuid, kind: Kind, r: Row)
    requires Dense(rows, minted) && r in rows && r.kind == kind
    ensures Latest(rows, kind).Some?
    ensures r.version <= Latest(rows, kind).value.version
    ensures Latest(rows, kind) == Some(r.ToPtr())
      <==> forall q :: q in rows && q.kind == kind ==> q.version <= r.version
  {
    var own := OfKind(rows, kind);
    OfKindMembers(rows, kind);
    var i :| 0 <= i < |own| && own[i] == r;
    var last := own[|own| - 1];
    assert last in own;
  }

  /** A save as the graph nodes make it: the version left to the store, and the id either left
      to it or the one an earlier save of this kind returned. */
  ghost predicate NodeRequest(rows: seq<Row>, q: Request) {
    && KindOf(q.payload) == q.kind && q.version == None
    && (q.artefactId.Some? ==> IdFor(rows, q.kind) == q.artefactId)
  }

  /** One more row, newest of its kind, under the next version. */
  lemma SaveAppends(v: RunView, minted: Uuid, q: Request)
    requires Dense(v.rows, minted) && NodeRequest(v.rows, q)
    ensures Save(v, minted, q).Ok?
    ensures var s := Save(v, minted, q).value; var own := OfKind(v.rows, q.kind);
      && s.view == AddRow(v, s.row) && s.minted >= minted && s.row.id < s.minted && s.row.kind == q.kind
      && s.row.payload == q.payload && s.row.parents == q.parents
      && s.row.governance == q.governance && s.row.sourceRefs == q.sourceRefs
      && s.row.version == |own| + 1 && s.row.id == (if own == [] && q.artefactId.None? then minted else own[0].id)
    ensures forall k ::
      OfKind(Save(v, minted, q).value.view.rows, k)
      == (if k == q.kind then OfKind(v.rows, k) + [Save(v, minted, q).value.row] else OfKind(v.rows, k))
  {
    AutoVersionNeverConflicts(v, minted, q);
    MaxOfCounting(VersionsOf(OfKind(v.rows, q.kind)));
    forall k
      ensures OfKind(Save(v, minted, q).value.view.rows, k)
        == if k == q.kind then OfKind(v.rows, k) + [Save(v, minted, q).value.row] else OfKind(v.rows, k)
    {
      OfKindAppend(v.rows, Save(v, minted, q).value.row, k);
    }
  }

  /** The saved row's id belongs to its kind, and its version is new. */
  lemma SavedIsNew(v: RunView, minted: Uuid, q: Request, r: Row)
    requires Dense(v.rows, minted) && NodeRequest(v.rows, q) && r in v.rows && Save(v, minted, q).Ok?
    ensures var row := Save(v, minted, q).value.row; r.ToPtr() != row.ToPtr() && (r.id == row.id ==> r.kind == row.kind)
  {
    hide OfKind, Save;
    SaveAppends(v, minted, q);
    var own := OfKind(v.rows, q.kind);
    OfKindMembers(v.rows, q.kind);
    assert own != [] ==> own[0] in own;
    assert r.kind == q.kind ==> r in own;
  }

  lemma SaveKeepsDense(v: RunView, minted: Uuid, q: Request)
    requires Dense(v.rows, minted) && NodeRequest(v.rows, q)
    ensures Save(v, minted, q).Ok?
    ensures var s := Save(v, minted, q).value;
      && s.view == AddRow(v, s.row) && s.minted >= minted && s.row.kind == q.kind
      && s.row.payload == q.payload && s.row.parents == q.parents
      && s.row.governance == q.governance && s.row.sourceRefs == q.sourceRefs
      && s.row.version == |OfKind(v.rows, q.kind)| + 1
      && Dense(s.view.rows, s.minted)
      && (forall r :: r in v.rows ==> r.ToPtr() != s.row.ToPtr())
      && Latest(s.view.rows, q.kind) == Some(s.row.ToPtr())
      && forall k :: k != q.kind ==> OfKind(s.view.rows, k) == OfKind(v.rows, k)
    ensures var s := Save(v, minted, q).value; OfKind(s.view.rows, q.kind) == OfKind(v.rows, q.kind) + [s.row]
  {
    hide OfKind, Save, NodeRequest;
    SaveAppends(v, minted, q);
    var s := Save(v, minted, q).value;
    forall r | r in v.rows
      ensures r.ToPtr() != s.row.ToPtr() && (r.id == s.row.id ==> r.kind == s.row.kind)
    {
      SavedIsNew(v, minted, q, r);
    }
  }

  // ----- lineage at every commit point -----

  /** Both ends of every edge exist, the source created before the target. */
  ghost predicate EdgesOrdered(refs: seq<Ref>, edges: seq<Edge>) {
    forall e :: e in edges ==>
      exists i, j :: 0 <= i < j < |refs| && refs[i].ToPtr() == e.from && refs[j].ToPtr() == e.to
  }

  ghost predicate DistinctPtrs(refs: seq<Ref>) {
    forall i, j :: 0 <= i < j < |refs| ==> refs[i].ToPtr() != refs[j].ToPtr()
  }

  ghost predicate WellFormed(i: Index) {
    DistinctPtrs(i.refs) && EdgesOrdered(i.refs, i.edges)
  }

  /** Each transaction appends its one event as it commits, so the prefixes of the log are the
      states in which execution can stop. */
  ghost predicate EveryCommit(audit: seq<Event>) {
    forall k :: 0 <= k <= |audit| ==> WellFormed(Replay(audit[..k]))
  }

  lemma EveryCommitAppend(audit: seq<Event>, e: Event)
    requires EveryCommit(audit) && WellFormed(Replay(audit + [e]))
    ensures EveryCommit(audit + [e])
  {
    var audit' := audit + [e];
    forall k | 0 <= k <= |audit'|
      ensures WellFormed(Replay(audit'[..k]))
    {
      if k <= |audit| {
        assert audit'[..k] == audit[..k];
      } else {
        assert audit'[..k] == audit';
      }
    }
  }

  ghost predicate EdgePath(edges: seq<Edge>, p: seq<Ptr>) {
    |p| > 0 && forall i :: 0 <= i < |p| - 1 ==> Edge(p[i], p[i + 1]) in edges
  }

  /** A lineage path that comes back to where it started. */
  ghost predicate LineageCycle(edges: seq<Edge>, p: seq<Ptr>) {
    |p| > 1 && EdgePath(edges, p) && p[0] == p[|p| - 1]
  }

  lemma {:induction false} PathsMoveOn(refs: seq<Ref>, edges: seq<Edge>, p: seq<Ptr>, at: nat) returns (end: nat)
    requires DistinctPtrs(refs) && EdgesOrdered(refs, edges) && EdgePath(edges, p)
    requires at < |refs| && refs[at].ToPtr() == p[0]
    ensures at + |p| - 1 <= end < |refs| && refs[end].ToPtr() == p[|p| - 1]
  {
    if |p| == 1 {
      end := at;
    } else {
      assert Edge(p[0], p[1]) in edges;
      var i, j :| 0 <= i < j < |refs| && refs[i].ToPtr() == p[0] && refs[j].ToPtr() == p[1];
      assert EdgePath(edges, p[1..]) by {
        forall k | 0 <= k < |p[1..]| - 1
          ensures Edge(p[1..][k], p[1..][k + 1]) in edges
        {
          assert Edge(p[k + 1], p[k + 2]) in edges;
        }
      }
      end := PathsMoveOn(refs, edges, p[1..], j);
    }
  }

  /** A well-formed index has no cyclic lineage. */
  lemma NoLineageCycle(i: Index, p: seq<Ptr>)
    requires WellFormed(i)
    ensures !LineageCycle(i.edges, p)
  {
    if |p| > 1 && EdgePath(i.edges, p) {
      assert Edge(p[0], p[1]) in i.edges;
      var a, b :| 0 <= a < b < |i.refs| && i.refs[a].ToPtr() == p[0] && i.refs[b].ToPtr() == p[1];
      var end := PathsMoveOn(i.refs, i.edges, p, a);
    }
  }

  /** Everything the log guarantees about one run between two transactions. */
  ghost predicate LogOk(v: RunView, minted: Uuid) {
    Faithful(v) && EveryCommit(v.audit) && Dense(v.rows, minted)
  }

  lemma LogOkWellFormed(v: RunView, minted: Uuid)
    requires LogOk(v, minted)
    ensures WellFormed(IndexOf(v))
  {
    assert v.audit[..|v.audit|] == v.audit;
  }

  lemma NewRunLogOk(minted: Uuid)
    ensures LogOk(NEW_RUN, minted)
  {
    NewRunFaithful();
    forall k | 0 <= k <= |NEW_RUN.audit|
      ensures WellFormed(Replay(NEW_RUN.audit[..k]))
    {
      assert k == 1 ==> NEW_RUN.audit[..k] == NEW_RUN.audit;
    }
  }

  lemma StatusAndReviewKeepLogOk(v: RunView, minted: Uuid, status: RunStatus, decision: Decision, at: Option<Ptr>)
    requires LogOk(v, minted)
    ensures LogOk(SetStatus(v, status), minted) && LogOk(AddReview(v, decision, at), minted)
  {
    LogOkWellFormed(v, minted);
    TransactionsFaithful(v, status, decision, at, ARow(), Edge(Ptr(0, 0), Ptr(0, 0)));
    EveryCommitAppend(v.audit, StatusUpdated(v.status, status));
    EveryCommitAppend(v.audit, ReviewSubmitted(decision, at));
  }

  function ARow(): Row {
    Row(0, BusinessRequirement, 1, BusinessRequirementBody(BusinessRequirementPayload("")), None, [], [])
  }

  lemma NewRefWellFormed(i: Index, ref: Ref)
    requires WellFormed(i) && forall k :: 0 <= k < |i.refs| ==> i.refs[k].ToPtr() != ref.ToPtr()
    ensures WellFormed(i.(refs := i.refs + [ref]))
  {
    var refs' := i.refs + [ref];
    forall e | e in i.edges
      ensures exists a, b :: 0 <= a < b < |refs'| && refs'[a].ToPtr() == e.from && refs'[b].ToPtr() == e.to
    {
      var a, b :| 0 <= a < b < |i.refs| && i.refs[a].ToPtr() == e.from && i.refs[b].ToPtr() == e.to;
      assert refs'[a] == i.refs[a] && refs'[b] == i.refs[b];
    }
  }

  lemma SaveKeepsLogOk(v: RunView, minted: Uuid, q: Request)
    requires LogOk(v, minted) && NodeRequest(v.rows, q)
    ensures Save(v, minted, q).Ok? && LogOk(Save(v, minted, q).value.view, Save(v, minted, q).value.minted)
  {
    hide OfKind, Save, NodeRequest, Replay, StatusChain, WellFormed, EveryCommit;
    SaveKeepsDense(v, minted, q);
    LogOkWellFormed(v, minted);
    var s := Save(v, minted, q).value;
    TransactionsFaithful(v, v.status, Approve, None, s.row, Edge(Ptr(0, 0), Ptr(0, 0)));
    forall i | 0 <= i < |Refs(v.rows)|
      ensures Refs(v.rows)[i].ToPtr() != s.row.ToPtr()
    {
      assert v.rows[i] in v.rows;
    }
    NewRefWellFormed(IndexOf(v), s.row.ToRef());
    assert Refs(s.view.rows) == Refs(v.rows) + [s.row.ToRef()];
    EveryCommitAppend(v.audit, ArtefactCreated(s.row.ToRef()));
  }

  /** `ref` names a stored version. */
  ghost predicate Stored(rows: seq<Row>, ref: Ref) {
    exists i :: 0 <= i < |rows| && rows[i].ToRef() == ref
  }

  lemma AddEdgeKeepsLogOk(v: RunView, minted: Uuid, i: nat, j: nat)
    requires LogOk(v, minted) && i < j < |v.rows|
    ensures LogOk(AddEdge(v, Edge(v.rows[i].ToPtr(), v.rows[j].ToPtr())), minted)
  {
    var edge := Edge(v.rows[i].ToPtr(), v.rows[j].ToPtr());
    TransactionsFaithful(v, v.status, Approve, None, ARow(), edge);
    LogOkWellFormed(v, minted);
    assert Refs(v.rows)[i].ToPtr() == edge.from && Refs(v.rows)[j].ToPtr() == edge.to;
    EveryCommitAppend(v.audit, LineageCreated(edge));
  }

  lemma {:induction false} LinkEffect(v: RunView, parents: seq<Ref>, to: Ptr)
    ensures var w := Link(v, parents, to);
      w.rows == v.rows && w.status == v.status && |w.edges| == |v.edges| + |parents| && v.edges <= w.edges
    ensures forall e ::
      e in Link(v, parents, to).edges <==> e in v.edges || exists p :: p in parents && e == Edge(p.ToPtr(), to)
  {
    if parents != [] {
      var n := |parents| - 1;
      LinkEffect(v, parents[..n], to);
      assert forall p :: p in parents <==> p in parents[..n] || p == parents[n];
    }
  }

  lemma {:induction false} LinkKeepsLogOk(v: RunView, minted: Uuid, parents: seq<Ref>, to: Ptr)
    requires LogOk(v, minted) && v.rows != [] && v.rows[|v.rows| - 1].ToPtr() == to
    requires forall k :: 0 <= k < |parents| ==> Stored(v.rows[..|v.rows| - 1], parents[k])
    ensures LogOk(Link(v, parents, to), minted)
  {
    if parents != [] {
      var n := |parents| - 1;
      var before := Link(v, parents[..n], to);
      LinkKeepsLogOk(v, minted, parents[..n], to);
      LinkEffect(v, parents[..n], to);
      assert Stored(v.rows[..|v.rows| - 1], parents[n]);
      var i :| 0 <= i < |v.rows| - 1 && v.rows[..|v.rows| - 1][i].ToRef() == parents[n];
      assert before.rows[i].ToPtr() == parents[n].ToPtr();
      AddEdgeKeepsLogOk(before, minted, i, |v.rows| - 1);
    }
  }
}
