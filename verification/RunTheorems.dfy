/** The promises of the workflow about whole runs, from the invariants of the other modules. */
module RunTheorems {
  import opened Domain
  import opened Discovery
  import opened RunLog
  import opened Workflow
  import opened Coherence
  import opened Conservation
  import opened Lineage
  import opened Runs

  /** Every run, after any calls: consistent, and stuck at a node that raised or exactly where the
      decisions say. */
  lemma AnyRun(r: Run)
    ensures Good(Now(r)) && (Stuck(Now(r)) || Matches(Now(r), Walk(DecisionsOf(r.calls))))
  {
    hide *;
    StartGood(r.settings, r.agents, r.request, r.minted);
    StartMatches(r.settings, r.agents, r.request, r.minted);
    assert Now(r) == Play(r.settings, StartRun(r.settings, r.agents, r.request, r.minted), r.calls) by {
      NowIsPlay(r);
    }
    RunsFollowDecisions(r.settings, StartRun(r.settings, r.agents, r.request, r.minted), r.calls);
  }

  lemma NowIsPlay(r: Run)
    ensures Now(r) == Play(r.settings, StartRun(r.settings, r.agents, r.request, r.minted), r.calls)
  {
    hide Play, StartRun;
  }

  // ----- status -----

  /** When a call returns normally the status row is the one the checkpoint stands for: the run
      waits, is approved or is terminated, and RUNNING and FAILED are not left behind. */
  lemma StatusFollowsCheckpoint(r: Run)
    ensures var g := Now(r);
      Stuck(g) || (g.view.status == StatusFor(g) && g.view.status in {WaitingForReview, RunStatus.Approved, Terminated})
  {
    hide Good, Counted, Now, Walk;
    AnyRun(r);
  }

  /** A run that does not wait refuses every review and keeps its status, checkpoint and log. */
  lemma {:induction false} FinalStaysFinal(c: Settings, g: State, calls: seq<Call>)
    requires g.view.status != WaitingForReview
    ensures var h := Play(c, g, calls); h.view == g.view && h.cp == g.cp && h.next == g.next
  {
    hide Invoke;
    if calls != [] {
      FinalStaysFinal(c, g, calls[..|calls| - 1]);
    }
  }

  // ----- when a call gets stuck -----

  ghost predicate CallsNeverRaise(calls: seq<Call>) {
    forall call :: call in calls ==> NeverRaises(call.agents)
  }

  /** Stuck exactly when there is no user and the first gate has been passed. */
  ghost predicate StuckForWantOfUser(g: State, v: Verdict) {
    Stuck(g) <==> Blank(g.cp.userId) && |v.p.done| >= 1
  }

  lemma FinishWhenStopped(a: Agents, g: State)
    requires Coherent(g) && NeverRaises(a) && g.view.status == Running && (Paused(g) || Raises(a, g))
    ensures Stuck(Finish(a, g)) <==> !Paused(g)
    ensures Finish(a, g).cp == g.cp
  {
    hide Coherent, NeverRaises;
  }

  lemma InvokeStuck(c: Settings, a: Agents, g: State, v: Verdict)
    requires Coherent(g) && NeverRaises(a) && HeadsFor(g, v)
    requires Blank(g.cp.userId) ==>
      if |v.p.done| >= 1 then g.next == ResetRetries else GoingTo(g) == Gate(AwaitTr) || GoingTo(g).Ended?
    ensures var h := Finish(a, Invoke(c, a, g)); StuckForWantOfUser(h, v) && h.cp.userId == g.cp.userId
  {
    hide Coherent, NeverRaises, Counted, GoingTo, Raises, Finish;
    InvokeStops(c, a, g);
    InvokeConserves(c, a, g);
    ConservedUser(g, Invoke(c, a, g));
    HeadsForConserved(g, Invoke(c, a, g), v);
    FinishWhenStopped(a, Invoke(c, a, g));
  }

  lemma DeliverStuck(c: Settings, g: State, call: Call, v: Verdict)
    requires Good(g) && NeverRaises(call.agents) && (Stuck(g) || Matches(g, v)) && StuckForWantOfUser(g, v)
    ensures var h := Deliver(c, g, call); StuckForWantOfUser(h, React(v, call.decision)) && h.cp.userId == g.cp.userId
  {
    hide Coherent, Packaged, Rooted, Counted, NeverRaises, Finish, Invoke;
    var m := Later(g, call.minted);
    MintedMayGrowGood(g, m.minted);
    if Counted(g, v.p) {
      SameCounts(g, m, v.p);
    }
    if !Stuck(g) && v.StillWaiting? {
      var r := Resume(Recorded(m, call.decision), call.decision, call.comments);
      ResumeCoherent(m, call.decision, call.comments);
      DecisionCounts(m, v.p, call.decision, call.comments);
      InvokeStuck(c, call.agents, r, React(v, call.decision));
    }
  }

  lemma StartStuck(c: Settings, a: Agents, q: StartRequest, minted: Uuid)
    requires NeverRaises(a)
    ensures var g := StartRun(c, a, q, minted);
      StuckForWantOfUser(g, Walk([])) && g.cp.userId == InitialCheckpoint(q).userId
  {
    hide Coherent, NeverRaises, Finish, Invoke;
    var i := InitialState(q, minted);
    InitialCoherent(q, minted);
    InvokeStuck(c, a, i, Walk([]));
  }

  lemma {:induction false} PlayStuck(c: Settings, g: State, calls: seq<Call>)
    requires Good(g) && CallsNeverRaise(calls)
    requires (Stuck(g) || Matches(g, Walk([]))) && StuckForWantOfUser(g, Walk([]))
    ensures var h := Play(c, g, calls);
      StuckForWantOfUser(h, Walk(DecisionsOf(calls))) && h.cp.userId == g.cp.userId
  {
    hide Good, Stuck, Matches, Deliver, React, NeverRaises, StuckForWantOfUser;
    if calls != [] {
      var n := |calls| - 1;
      assert forall call :: call in calls[..n] ==> call in calls;
      PlayStuck(c, g, calls[..n]);
      RunsFollowDecisions(c, g, calls[..n]);
      DeliverStuck(c, Play(c, g, calls[..n]), calls[n], Walk(DecisionsOf(calls[..n])));
      WalkOneMore(DecisionsOf(calls[..n]), calls[n].decision);
    }
  }

  /** With agents that answer, a run is left RUNNING if and only if it was started without a
      non-blank user id and its technical requirement has been approved. */
  lemma StuckExactlyWithoutUser(r: Run)
    requires NeverRaises(r.agents) && CallsNeverRaise(r.calls)
    ensures Stuck(Now(r))
      <==> (r.request.user == None || Strip(r.request.user.value.userId) == "") && PastFirstGate(DecisionsOf(r.calls))
  {
    hide Good, Matches, NeverRaises, Play, StartRun, Walk, Stuck;
    StartGood(r.settings, r.agents, r.request, r.minted);
    StartMatches(r.settings, r.agents, r.request, r.minted);
    StartStuck(r.settings, r.agents, r.request, r.minted);
    PlayStuck(r.settings, StartRun(r.settings, r.agents, r.request, r.minted), r.calls);
  }

  // ----- conservation -----

  /** A run whose reviewers asked for r1..r5 revisions at the five gates and approved all of them is
      approved, unless a node raised, and holds exactly these versions and lineage edges. */
  lemma ApprovedRunTotals(r: Run, r1: nat, r2: nat, r3: nat, r4: nat, r5: nat)
    requires DecisionsOf(r.calls) == Script([r1, r2, r3, r4, r5]) && !Stuck(Now(r))
    ensures var g := Now(r);
      && g.view.status == RunStatus.Approved
      && Versions(g, BusinessRequirement) == 1 && Versions(g, TechnicalRequirement) == 1 + r1
      && Versions(g, DataModel) == 2 + r2 + r3 && Versions(g, SemanticModel) == 1 + r3
      && Versions(g, PipelineSpecification) == 1 && Versions(g, MetricDefinitions) == 1 + r4
      && Versions(g, ReviewPackage) == 2 + r5
      && |g.view.edges| == 17 + r1 + r2 + 5 * r3 + 2 * r4 + 6 * r5
  {
    hide Good, Matches, Now, Script, Walk, Stuck, Versions;
    AnyRun(r);
    TotalsOfScript(Now(r), r1, r2, r3, r4, r5);
  }

  lemma TotalsOfScript(g: State, r1: nat, r2: nat, r3: nat, r4: nat, r5: nat)
    requires Matches(g, Walk(Script([r1, r2, r3, r4, r5])))
    ensures g.view.status == RunStatus.Approved
    ensures Versions(g, BusinessRequirement) == 1 && Versions(g, TechnicalRequirement) == 1 + r1
    ensures Versions(g, DataModel) == 2 + r2 + r3 && Versions(g, SemanticModel) == 1 + r3
    ensures Versions(g, PipelineSpecification) == 1 && Versions(g, MetricDefinitions) == 1 + r4
    ensures Versions(g, ReviewPackage) == 2 + r5
    ensures |g.view.edges| == 17 + r1 + r2 + 5 * r3 + 2 * r4 + 6 * r5
  {
    hide Walk, OfKind, Script;
    var rs := [r1, r2, r3, r4, r5];
    ScriptIsApproved(rs);
    var p := Progress(rs, 0);
    forall k
      ensures Versions(g, k) == ExpectedRows(p, k)
    {
      assert RowTotal(g, k) == ExpectedRows(p, k);
    }
    assert EdgeTotal(g) == ExpectedEdges(p);
  }

  function Versions(g: State, k: Kind): nat {
    |OfKind(g.view.rows, k)|
  }

  // ----- review packages -----

  /** The newest version of each of the six earlier types, in the order of the package. */
  function NewestRefs(rows: seq<Row>): seq<Ref> {
    RefTo(Latest(rows, BusinessRequirement), BusinessRequirement)
    + RefTo(Latest(rows, TechnicalRequirement), TechnicalRequirement)
    + RefTo(Latest(rows, SemanticModel), SemanticModel)
    + RefTo(Latest(rows, DataModel), DataModel)
    + RefTo(Latest(rows, PipelineSpecification), PipelineSpecification)
    + RefTo(Latest(rows, MetricDefinitions), MetricDefinitions)
  }

  /** At every node boundary of every run each checkpoint pointer, the one to the artefact under
      review included, names the newest version of its type in the store. */
  lemma PointersAreAlwaysLatest(r: Run, m: Moment)
    ensures Pointers(At(r, m)) && UnderReview(At(r, m))
  {
    hide At, LogOk, Typed, Pointers, Stocked, UnderReview, Packaged, Rooted;
    AlwaysGood(r, m);
  }

  /** At every node boundary of every run every version of the review package, approved or not,
      pins the six newest versions the store holds. */
  lemma PackagesPinNewest(r: Run, m: Moment, row: Row)
    requires row in At(r, m).view.rows && row.kind == ReviewPackage
    ensures row.payload.ReviewPackageBody? && row.payload.rp.pinned == NewestRefs(At(r, m).view.rows)
    ensures |NewestRefs(At(r, m).view.rows)| == 6 && row.parents == NewestRefs(At(r, m).view.rows)
  {
    hide At, Good, NewestRefs;
    AlwaysGood(r, m);
    GoodPackagesPinNewest(At(r, m), row);
  }

  lemma GoodPackagesPinNewest(g: State, row: Row)
    requires Good(g) && row in g.view.rows && row.kind == ReviewPackage
    ensures row.payload.ReviewPackageBody? && row.payload.rp.pinned == NewestRefs(g.view.rows)
    ensures |NewestRefs(g.view.rows)| == 6 && row.parents == NewestRefs(g.view.rows)
  {
    hide LogOk, Typed, Stocked, UnderReview, Rooted, OfKind, Latest;
    OfKindMembers(g.view.rows, ReviewPackage);
    var own := OfKind(g.view.rows, ReviewPackage);
    var i :| 0 <= i < |own| && own[i] == row;
  }

  // ----- lineage -----

  /** What the log holds of a run after `k` of its transactions. */
  ghost predicate CommittedIn(r: Run, m: Moment, k: nat) {
    k <= |At(r, m).view.audit|
  }

  ghost function Committed(r: Run, m: Moment, k: nat): Index
    requires CommittedIn(r, m, k)
  {
    Replay(At(r, m).view.audit[..k])
  }

  lemma CommittedIsWellFormed(r: Run, m: Moment, k: nat)
    requires CommittedIn(r, m, k)
    ensures WellFormed(Committed(r, m, k))
  {
    hide At, Faithful, Dense, Typed, Pointers, Stocked, UnderReview, Packaged, Rooted, WellFormed, Replay;
    AlwaysGood(r, m);
  }

  /** Wherever execution of a run stops between two transactions, lineage has no cycle. */
  lemma LineageAcyclicAtEveryCommit(r: Run, m: Moment, k: nat, p: seq<Ptr>)
    requires CommittedIn(r, m, k)
    ensures !LineageCycle(Committed(r, m, k).edges, p)
  {
    hide CommittedIn, Committed, LineageCycle, WellFormed;
    CommittedIsWellFormed(r, m, k);
    NoLineageCycle(Committed(r, m, k), p);
  }

  /** And both ends of every edge are stored by then. */
  lemma EdgeEndsExistAtEveryCommit(r: Run, m: Moment, k: nat, e: Edge)
    requires CommittedIn(r, m, k) && e in Committed(r, m, k).edges
    ensures exists ref :: ref in Committed(r, m, k).refs && ref.ToPtr() == e.from
    ensures exists ref :: ref in Committed(r, m, k).refs && ref.ToPtr() == e.to
  {
    hide CommittedIn, Committed;
    CommittedIsWellFormed(r, m, k);
    var i := Committed(r, m, k);
    var a, b :| 0 <= a < b < |i.refs| && i.refs[a].ToPtr() == e.from && i.refs[b].ToPtr() == e.to;
    assert i.refs[a] in i.refs && i.refs[b] in i.refs;
  }

  /** At every node boundary of every run the log alone rebuilds status, artefact index and
      lineage, and each status event names the status that the one before it left. */
  lemma LogRebuildsRun(r: Run, m: Moment)
    ensures var v := At(r, m).view; Replay(v.audit) == IndexOf(v) && StatusChain(v.audit)
  {
    hide At, Dense, EveryCommit, StatusChain, Replay, Typed, Pointers, Stocked, UnderReview, Packaged, Rooted;
    AlwaysGood(r, m);
  }

  /** At every node boundary of every run, a row other than the business requirement descends from
      business requirement version 1 by lineage edges, unless it is the approved package version:
      to that one no edge leads at all. */
  lemma EverythingDescendsFromRequirement(r: Run, m: Moment, row: Row)
    requires row in At(r, m).view.rows && row.kind != BusinessRequirement
    ensures var g := At(r, m);
      && g.cp.br.Some? && g.cp.br.value.version == 1
      && (Reachable(g.view.edges, g.cp.br.value, row.ToPtr()) <==> !IsApproval(row))
  {
    hide At, Good, Reachable, IsApproval;
    AlwaysGood(r, m);
    GoodDescends(At(r, m), row);
  }

  lemma GoodDescends(g: State, row: Row)
    requires Good(g) && row in g.view.rows && row.kind != BusinessRequirement
    ensures g.cp.br.Some? && g.cp.br.value.version == 1
    ensures Reachable(g.view.edges, g.cp.br.value, row.ToPtr()) <==> !IsApproval(row)
  {
    hide LogOk, Typed, Packaged, Pointers, UnderReview, Reachable;
    if IsApproval(row) {
      ApprovalIsLast(g, row);
      RequirementIsNotPackage(g, row);
      NothingReaches(g.view.edges, g.cp.br.value, row.ToPtr());
    }
  }

  lemma NothingReaches(edges: seq<Edge>, from: Ptr, to: Ptr)
    requires from != to && forall e :: e in edges ==> e.to != to
    ensures !Reachable(edges, from, to)
  {
    forall p | EdgePath(edges, p) && p[0] == from
      ensures p[|p| - 1] != to
    {
      if |p| > 1 {
        assert Edge(p[|p| - 2], p[|p| - 2 + 1]) in edges;
      }
    }
  }

  lemma ApprovalIsLast(g: State, r: Row)
    requires Good(g) && r in g.view.rows && IsApproval(r)
    ensures forall e :: e in g.view.edges ==> e.to != r.ToPtr()
  {
    hide LogOk, Pointers, Stocked, UnderReview, Rooted, OfKind;
    OfKindMembers(g.view.rows, ReviewPackage);
    var own := OfKind(g.view.rows, ReviewPackage);
    assert r.kind == ReviewPackage;
    var i :| 0 <= i < |own| && own[i] == r;
  }

  lemma KindsDoNotShareIds(rows: seq<Row>, minted: Uuid, r: Row, q: Row)
    requires Dense(rows, minted) && r in rows && q in rows && r.kind != q.kind
    ensures r.ToPtr() != q.ToPtr()
  {
    hide OfKind;
  }

  lemma RequirementIsNotPackage(g: State, r: Row)
    requires Good(g) && r in g.view.rows && IsApproval(r) && g.cp.br.Some?
    ensures g.cp.br.value != r.ToPtr()
  {
    hide Faithful, EveryCommit, Dense, Stocked, UnderReview, Rooted, Packaged, OfKind;
    OfKindMembers(g.view.rows, BusinessRequirement);
    var own := OfKind(g.view.rows, BusinessRequirement);
    assert own[|own| - 1] in own;
    assert r.kind == ReviewPackage;
    KindsDoNotShareIds(g.view.rows, g.minted, r, own[|own| - 1]);
  }

  // ----- the artefact shown to the reviewer -----

  /** The first reference of maximal version, of one kind. */
  function BestOfKind(refs: seq<Ref>, kind: Kind): Option<Ref> {
    if refs == [] then
      None
    else
      var n := |refs| - 1;
      var best := BestOfKind(refs[..n], kind);
      if refs[n].kind == kind && (best.None? || refs[n].version > best.value.version) then Some(refs[n]) else best
  }

  /** Types in the order of their names. */
  function Rank(k: Kind): nat {
    match k
    case BusinessRequirement => 0
    case DataModel => 1
    case MetricDefinitions => 2
    case PipelineSpecification => 3
    case ReviewPackage => 4
    case SemanticModel => 5
    case TechnicalRequirement => 6
  }

  predicate RanksAbove(a: Ref, b: Ref) {
    Rank(a.kind) > Rank(b.kind) || (a.kind == b.kind && a.version > b.version)
  }

  /** The first reference that is maximal by type name and version. */
  function BestOfAll(refs: seq<Ref>): Option<Ref> {
    if refs == [] then
      None
    else
      var n := |refs| - 1;
      var best := BestOfAll(refs[..n]);
      if best.None? || RanksAbove(refs[n], best.value) then Some(refs[n]) else best
  }

  /** Run status, artefact under review, newest artefact of the type under review. */
  datatype RunDetail = RunDetail(status: RunStatus, pending: Option<Ref>, latest: Option<Ref>)

  function DetailFrom(status: RunStatus, current: Option<Ref>, refs: seq<Ref>): RunDetail {
    var typed := if current.Some? then BestOfKind(refs, current.value.kind) else None;
    var latest := if typed.Some? then typed else BestOfAll(refs);
    RunDetail(status, if status != WaitingForReview then None else if current.Some? then current else latest, latest)
  }

  function DetailOf(g: State): RunDetail {
    DetailFrom(g.view.status, g.cp.current, Refs(g.view.rows))
  }

  function KindAt(gate: Node): Kind
    requires IsGate(gate)
  {
    match gate
    case AwaitTr => TechnicalRequirement
    case AwaitMapping => DataModel
    case AwaitModelling => SemanticModel
    case AwaitImplementation => MetricDefinitions
    case AwaitPackage => ReviewPackage
  }

  lemma {:induction false} BestOfKindIsHighest(rows: seq<Row>, kind: Kind)
    ensures var own := OfKind(rows, kind);
      BestOfKind(Refs(rows), kind) == if own == [] then None else Some(Highest(own).ToRef())
  {
    if rows != [] {
      var n := |rows| - 1;
      BestOfKindIsHighest(rows[..n], kind);
      assert Refs(rows)[..n] == Refs(rows[..n]);
      if rows[n].kind == kind {
        assert OfKind(rows, kind)[..|OfKind(rows, kind)| - 1] == OfKind(rows[..n], kind);
      }
    }
  }

  lemma BestIsLatest(rows: seq<Row>, minted: Uuid, kind: Kind)
    requires Dense(rows, minted) && Latest(rows, kind).Some?
    ensures BestOfKind(Refs(rows), kind) == Some(RefTo(Latest(rows, kind), kind)[0])
  {
    var own := OfKind(rows, kind);
    BestOfKindIsHighest(rows, kind);
    OfKindMembers(rows, kind);
    HighestOfDense(own);
    assert own[|own| - 1] in own;
  }

  lemma GateReviews(g: State)
    requires Good(g) && IsGate(g.next)
    ensures g.cp.current.Some? && g.cp.current.value.kind == KindAt(g.next)
    ensures Latest(g.view.rows, KindAt(g.next)) == Some(g.cp.current.value.ToPtr())
  {
    hide LogOk, Typed, Pointers, Stocked, Packaged, Rooted, Latest;
  }

  /** Whenever a run waits, the artefact under review is the newest one of its gate's type, and it
      is the latest artefact that the detail shows. */
  lemma PendingIsLatest(r: Run)
    requires Now(r).view.status == WaitingForReview
    ensures var g := Now(r); var d := DetailOf(g);
      && IsGate(g.next) && d.pending.Some? && d.pending == d.latest
      && d.pending.value.kind == KindAt(g.next)
      && Latest(g.view.rows, KindAt(g.next)) == Some(d.pending.value.ToPtr())
  {
    hide Now, Good, Walk, Counted, DetailOf, Latest;
    AnyRun(r);
    GoodPendingIsLatest(Now(r));
  }

  lemma GoodPendingIsLatest(g: State)
    requires Good(g) && IsGate(g.next) && g.view.status == WaitingForReview
    ensures var d := DetailOf(g);
      && d.pending.Some? && d.pending == d.latest
      && d.pending.value.kind == KindAt(g.next)
      && Latest(g.view.rows, KindAt(g.next)) == Some(d.pending.value.ToPtr())
  {
    GateReviews(g);
    assert Dense(g.view.rows, g.minted) by {
      hide Faithful, EveryCommit, Dense, Packaged, Rooted;
    }
    hide Good, Dense, Latest, BestOfKind, BestOfAll;
    BestIsLatest(g.view.rows, g.minted, KindAt(g.next));
  }

  /** The highest type by name and, within it, the highest version. */
  lemma {:induction false} BestOfAllIsTop(refs: seq<Ref>)
    ensures refs == [] <==> BestOfAll(refs) == None
    ensures refs != [] ==>
      BestOfAll(refs).value in refs && forall ref :: ref in refs ==> !RanksAbove(ref, BestOfAll(refs).value)
  {
    if refs != [] {
      var n := |refs| - 1;
      BestOfAllIsTop(refs[..n]);
      assert forall ref :: ref in refs <==> ref in refs[..n] || ref == refs[n];
    }
  }

  /** What the latest artefact of a detail is: the newest of the type last put under review; before
      anything was, the reference that ranks highest. */
  ghost predicate ShowsLatest(g: State, latest: Option<Ref>) {
    if g.cp.current.Some? then
      && latest == g.cp.current
      && Latest(g.view.rows, latest.value.kind) == Some(latest.value.ToPtr())
    else if Refs(g.view.rows) == [] then
      latest == None
    else
      && latest.Some? && latest.value in Refs(g.view.rows)
      && forall ref :: ref in Refs(g.view.rows) ==> !RanksAbove(ref, latest.value)
  }

  ghost predicate EndsOnPackage(g: State) {
    IsApproved(g) ==> g.cp.current.Some? && g.cp.current.value.kind == ReviewPackage
  }

  lemma StepEndsOnPackage(c: Settings, a: Agents, g: State)
    requires Good(g) && !Paused(g) && !Raises(a, g)
    ensures EndsOnPackage(Step(c, a, g))
  {
    hide LogOk, Typed, Pointers, Stocked, Packaged, Rooted, Latest, Keep, Raises;
    if g.next != JudgeMapping {
      hide EnsureBrStep, GenerateTrStep, PersistStep, ModelStep, PipelineStep, MetricsStep, AssembleStep, ValidateStep;
      StepLeadsOn(c, a, g);
    }
  }

  lemma EndOnPackage(r: Run, m: Moment)
    ensures EndsOnPackage(At(r, m))
  {
    hide Good, Step, Raises, At;
    var c := r.settings;
    var who: Agents -> bool, inv: State -> bool := (a: Agents) => true, (g: State) => EndsOnPackage(g);
    forall a, g | who(a) && Good(g) && inv(g) && !Paused(g) && !Raises(a, g)
      ensures inv(Step(c, a, g))
    {
      StepEndsOnPackage(c, a, g);
    }
    Always(r, m, who, inv);
  }

  /** After any calls the detail tells the stored status, something pending exactly while the run
      waits, and the latest artefact; of an approved run that is the approved package. */
  lemma DetailTells(r: Run)
    ensures var g := Now(r); var d := DetailOf(g);
      && d.status == g.view.status && ShowsLatest(g, d.latest)
      && (d.pending.Some? <==> g.view.status == WaitingForReview)
      && (d.pending.Some? ==> d.pending == d.latest)
      && (g.view.status == RunStatus.Approved ==> d.latest.Some? && d.latest.value.kind == ReviewPackage)
  {
    hide Now, Good, Walk, Counted, DetailOf, Latest, ShowsLatest;
    AnyRun(r);
    var g := Now(r);
    GoodDetailTells(g);
    EndOnPackage(r, BetweenCalls);
    if g.view.status == WaitingForReview {
      GoodPendingIsLatest(g);
    }
  }

  lemma GoodDetailTells(g: State)
    requires Good(g)
    ensures var d := DetailOf(g);
      && d.status == g.view.status && ShowsLatest(g, d.latest)
      && (g.view.status != WaitingForReview ==> d.pending == None)
      && (IsApproved(g) && EndsOnPackage(g) ==> d.latest.Some? && d.latest.value.kind == ReviewPackage)
  {
    BestOfAllIsTop(Refs(g.view.rows));
    LatestShown(g);
    hide Good, Latest, BestOfKind, BestOfAll;
  }

  lemma LatestShown(g: State)
    requires Good(g)
    ensures var c := g.cp.current;
      c.Some? ==>
        && BestOfKind(Refs(g.view.rows), c.value.kind) == c
        && Latest(g.view.rows, c.value.kind) == Some(c.value.ToPtr())
  {
    assert Dense(g.view.rows, g.minted) by {
      hide Faithful, EveryCommit, Dense, Packaged, Rooted;
    }
    hide LogOk, Typed, Pointers, Stocked, Packaged, Rooted, Dense, Latest, BestOfKind;
    if g.cp.current.Some? {
      BestIsLatest(g.view.rows, g.minted, g.cp.current.value.kind);
    }
  }

  // ----- what the agents are told -----

  lemma StepKeepsFeedback(c: Settings, a: Agents, g: State)
    requires g.next != EnsureBr
    ensures var h := StepOrRaise(c, a, g); h.cp.feedback == g.cp.feedback && h.next != EnsureBr
  {
    hide Keep, Derive, ModelData, ModelSemantics, AskModels, AskMetrics, AskPipeline, AskRequirement, Judged;
    hide Mapping.Propose, PackageRow, UserOf;
  }

  lemma {:induction false} AfterKeepsFeedback(c: Settings, a: Agents, g: State, n: nat)
    requires g.next != EnsureBr
    ensures After(c, a, g, n).cp.feedback == g.cp.feedback
    decreases n
  {
    hide StepOrRaise;
    if n > 0 {
      StepKeepsFeedback(c, a, g);
      AfterKeepsFeedback(c, a, StepOrRaise(c, a, g), n - 1);
    }
  }

  /** At every node of an accepted review call the agents see the comments of this call's decision
      if it asks for revisions, and no feedback otherwise: comments never leak into a later call. */
  lemma FeedbackIsThisCalls(r: Run, n: nat)
    requires r.calls != [] && Accepts(Met(r))
    ensures var call := r.calls[|r.calls| - 1];
      Inside(r, n).cp.feedback == if call.decision == RequestRevisions then Some(call.comments) else None
  {
    hide After, Met;
    var call := r.calls[|r.calls| - 1];
    AfterKeepsFeedback(r.settings, call.agents, Reviewed(Met(r), call.decision, call.comments), n);
  }

  /** The first drafts are generated without feedback too. */
  lemma NoFeedbackAtStart(r: Run, n: nat)
    requires r.calls == []
    ensures Inside(r, n).cp.feedback == None
  {
    hide Keep;
    if n > 0 {
      var g := StepOrRaise(r.settings, r.agents, InitialState(r.request, r.minted));
      AfterKeepsFeedback(r.settings, r.agents, g, n - 1);
    }
  }
}
