/** The mapping phase inside the graph: from the counter reset to the mapping gate, with the
    sources that discovery found. */
module Sources {
  import opened Domain
  import opened Discovery
  import opened Mapping
  import opened RunLog
  import opened Workflow
  import opened Coherence
  import opened Lineage
  import opened Runs

  // ----- the mapping phase -----

  function Found(c: Settings, cp: Checkpoint): seq<CatalogueObject> {
    var found := DiscoverAccessibleObjects(UserOf(cp), c.catalogue);
    if found.Ok? then found.value else []
  }

  function ProposalFor(c: Settings, cp: Checkpoint): Proposal {
    Propose(Found(c, cp), cp.trPayload, cp.feedback, cp.forceEmptySources)
  }

  /** The judge sees the same attempt in every round of one phase. */
  function AttemptOf(c: Settings, cp: Checkpoint): Attempt {
    Attempt(ObjectIds(Found(c, cp)), ProposalFor(c, cp), cp.forceOutcome)
  }

  ghost predicate AtJudge(c: Settings, g: State) {
    && g.next == JudgeMapping && !Blank(g.cp.userId)
    && g.cp.discovered == Found(c, g.cp) && g.cp.proposal == ProposalFor(c, g.cp)
    && g.cp.schemaRetries <= c.schemaCap && g.cp.logicRetries <= c.logicCap
  }

  /** Running from `g` to the next pause is a mapping phase that ends as `end` says. */
  ghost predicate MappingEnds(c: Settings, a: Agents, g: State, end: LoopEnd, nodes: nat) {
    var h := Invoke(c, a, g);
    && h.next == AwaitMapping && NodesRun(c, a, g) == nodes
    && h.cp.schemaRetries == end.last.schemaRetries && h.cp.logicRetries == end.last.logicRetries
    && h.cp.escalated == (end.last.outcome == Escalate) && h.cp.judgeNotes == Some(end.last.notes)
  }

  /** A step that does not pause is one node more on the same way. */
  lemma OneNodeMore(c: Settings, a: Agents, g: State)
    requires !Paused(g) && !Raises(a, g)
    ensures Invoke(c, a, g) == Invoke(c, a, Step(c, a, g)) && NodesRun(c, a, g) == 1 + NodesRun(c, a, Step(c, a, g))
  {
    hide Step, Raises;
  }

  lemma FromPersist(c: Settings, a: Agents, g: State)
    requires g.next == PersistMapping
    ensures Invoke(c, a, g) == PersistStep(g) && NodesRun(c, a, g) == 1
  {
    hide Derive, SliceRequest;
    OneNodeMore(c, a, g);
  }

  /** One round: the judge's verdict, and the nodes that lead back to the judge. */
  lemma JudgeRound(c: Settings, a: Agents, g: State) returns (h: State)
    requires AtJudge(c, g)
    ensures var r := Judged(c, g.cp); var stage := StageAfter(r.outcome);
      && Invoke(c, a, g) == Invoke(c, a, h) && h.view == g.view && h.minted == g.minted
      && NodesRun(c, a, g) ==
         NodesRun(c, a, h) + (if stage.ToDiscovery? then 3 else if stage.ToDataMapping? then 2 else 1)
      && h.cp.schemaRetries == r.schemaRetries && h.cp.logicRetries == r.logicRetries
      && h.cp.userId == g.cp.userId && h.cp.accessible == g.cp.accessible && h.cp.feedback == g.cp.feedback
      && h.cp.trPayload == g.cp.trPayload
      && h.cp.forceOutcome == g.cp.forceOutcome && h.cp.forceEmptySources == g.cp.forceEmptySources
      && h.cp.mapping == g.cp.mapping && h.cp.tr == g.cp.tr && h.cp.proposal == g.cp.proposal
      && (if stage.ToPersist? then
            h.next == PersistMapping && h.cp.escalated == (r.outcome == Escalate) && h.cp.judgeNotes == Some(r.notes)
          else AtJudge(c, h))
  {
    hide Judged, Propose, DiscoverAccessibleObjects, Invoke, NodesRun;
    OneNodeMore(c, a, g);
    h := JudgeStep(c, g);
    JudgedWithinCaps(c, g.cp);
    if h.next == DiscoverSources {
      OneNodeMore(c, a, h);
      h := DiscoverStep(c, h);
    }
    if h.next == MapData {
      OneNodeMore(c, a, h);
      h := MapDataStep(h);
    }
  }

  lemma JudgedWithinCaps(c: Settings, cp: Checkpoint)
    requires cp.schemaRetries <= c.schemaCap && cp.logicRetries <= c.logicCap
    ensures Judged(c, cp).schemaRetries <= c.schemaCap && Judged(c, cp).logicRetries <= c.logicCap
  {
  }

  /** From the judge on, the graph's routing does what the judge loop computes. */
  lemma {:induction false} FromJudge(c: Settings, a: Agents, g: State, attempts: nat -> Attempt, round: nat)
    requires AtJudge(c, g) && forall i: nat :: attempts(i) == AttemptOf(c, g.cp)
    ensures var end := JudgeLoop(attempts, round, g.cp.schemaRetries, g.cp.logicRetries, c.schemaCap, c.logicCap);
      MappingEnds(c, a, g, end, end.nodes + 1)
    decreases RetryRoom(c, g.cp)
  {
    hide Propose, DiscoverAccessibleObjects, Evaluate, Invoke, NodesRun, PersistStep;
    var h := JudgeRound(c, a, g);
    var r := Judged(c, g.cp);
    JudgedRoom(c, g.cp);
    if StageAfter(r.outcome) == ToPersist {
      FromPersist(c, a, h);
      PersistKeepsCounters(h);
    } else {
      FromJudge(c, a, h, attempts, round + 1);
    }
  }

  lemma JudgedRoom(c: Settings, cp: Checkpoint)
    ensures var r := Judged(c, cp);
      StageAfter(r.outcome) != ToPersist
      ==> Room(c.schemaCap, r.schemaRetries) + Room(c.logicCap, r.logicRetries) < RetryRoom(c, cp)
  {
  }

  lemma PersistKeepsCounters(g: State)
    ensures var h := PersistStep(g);
      && h.next == AwaitMapping && h.cp.schemaRetries == g.cp.schemaRetries && h.cp.logicRetries == g.cp.logicRetries
      && h.cp.escalated == g.cp.escalated && h.cp.judgeNotes == g.cp.judgeNotes
  {
    hide Derive, SliceRequest;
  }

  /** Entering the mapping phase with a user, whatever hooks are set: it ends at the mapping gate
      within the caps and after exactly 5 nodes plus 3 per schema and 2 per logic retry. */
  lemma MappingPhase(c: Settings, a: Agents, g: State)
    requires g.next == ResetRetries && !Blank(g.cp.userId)
    ensures var h := Invoke(c, a, g);
      && h.next == AwaitMapping
      && h.cp.schemaRetries <= c.schemaCap && h.cp.logicRetries <= c.logicCap
      && NodesRun(c, a, g) == 5 + 3 * h.cp.schemaRetries + 2 * h.cp.logicRetries
  {
    hide Propose, DiscoverAccessibleObjects, Evaluate, Invoke, NodesRun;
    var h, attempts := EnterMapping(c, a, g);
    FromJudge(c, a, h, attempts, 0);
    MappingLoopIsBounded(attempts, c.schemaCap, c.logicCap);
  }

  /** Reset, discovery and mapping lead to the first judgement. */
  lemma EnterMapping(c: Settings, a: Agents, g: State) returns (h: State, attempts: nat -> Attempt)
    requires g.next == ResetRetries && !Blank(g.cp.userId)
    ensures AtJudge(c, h) && h.cp.schemaRetries == 0 && h.cp.logicRetries == 0
    ensures forall i: nat :: attempts(i) == AttemptOf(c, h.cp)
    ensures AttemptOf(c, h.cp) == AttemptOf(c, g.cp) && Found(c, h.cp) == Found(c, g.cp)
    ensures Invoke(c, a, g) == Invoke(c, a, h) && NodesRun(c, a, g) == NodesRun(c, a, h) + 3
  {
    hide Propose, DiscoverAccessibleObjects, Invoke, NodesRun;
    OneNodeMore(c, a, g);
    var g1 := ResetStep(g);
    OneNodeMore(c, a, g1);
    var g2 := DiscoverStep(c, g1);
    OneNodeMore(c, a, g2);
    h := MapDataStep(g2);
    var attempt := AttemptOf(c, h.cp);
    attempts := i => attempt;
  }

  lemma UnhookedMappingPhase(c: Settings, a: Agents, g: State)
    requires g.next == ResetRetries && !Blank(g.cp.userId)
    requires g.cp.forceOutcome == None && !g.cp.forceEmptySources
    ensures var h := Invoke(c, a, g);
      if Found(c, g.cp) != [] then
        NodesRun(c, a, g) == 5 && !h.cp.escalated
      else
        NodesRun(c, a, g) == 5 + 3 * c.schemaCap && h.cp.escalated
  {
    hide Propose, DiscoverAccessibleObjects, Evaluate, Invoke, NodesRun, Found;
    var h, attempts := EnterMapping(c, a, g);
    var proposal := Propose(Found(c, g.cp), g.cp.trPayload, g.cp.feedback, false);
    assert forall i: nat :: attempts(i) == Attempt(ObjectIds(Found(c, g.cp)), proposal, None);
    RealBuilderLoop(Found(c, g.cp), g.cp.trPayload, g.cp.feedback, attempts, c.schemaCap, c.logicCap);
    FromJudge(c, a, h, attempts, 0);
    JudgeLoopCounts(attempts, 0, 0, 0, c.schemaCap, c.logicCap);
  }

  /** Approving the requirements and asking for mapping revisions both start a mapping phase over,
      with fresh counters, whatever the counters were. */
  lemma MappingStartsOver(c: Settings, a: Agents, g: State, d: Decision, comments: string)
    requires (g.next == AwaitTr && d == Approve) || (g.next == AwaitMapping && d == RequestRevisions)
    requires !Blank(g.cp.userId)
    ensures var h := Resume(Recorded(g, d), d, comments); var end := Invoke(c, a, h);
      && end.next == AwaitMapping
      && end.cp.schemaRetries <= c.schemaCap && end.cp.logicRetries <= c.logicCap
      && NodesRun(c, a, h) == 5 + 3 * end.cp.schemaRetries + 2 * end.cp.logicRetries
  {
    hide Invoke, NodesRun;
    MappingPhase(c, a, Resume(Recorded(g, d), d, comments));
  }

  // ----- the user stays the one the run was started for -----

  ghost predicate SameUser(cp: Checkpoint, cp': Checkpoint) {
    cp.userId == cp'.userId && cp.accessible == cp'.accessible
  }

  lemma StepKeepsUser(c: Settings, a: Agents, g: State)
    requires !Paused(g) && !Raises(a, g)
    ensures SameUser(g.cp, Step(c, a, g).cp)
  {
    hide Keep, Derive, ModelData, ModelSemantics, AskModels, AskMetrics, AskPipeline, AskRequirement, Judged, Propose;
    hide PackageRow;
  }

  lemma SameFound(c: Settings, cp: Checkpoint, cp': Checkpoint)
    requires cp.userId == cp'.userId && cp.accessible == cp'.accessible
    ensures Found(c, cp) == Found(c, cp')
  {
    hide DiscoverAccessibleObjects, Strip;
  }

  lemma AlwaysSameUser(r: Run, m: Moment)
    ensures SameUser(InitialCheckpoint(r.request), At(r, m).cp)
  {
    hide Good, Step, Raises, At;
    var cp, c := InitialCheckpoint(r.request), r.settings;
    var who: Agents -> bool, inv: State -> bool := (a: Agents) => true, (g: State) => SameUser(cp, g.cp);
    forall a, g | who(a) && Good(g) && inv(g) && !Paused(g) && !Raises(a, g)
      ensures inv(Step(c, a, g))
    {
      StepKeepsUser(c, a, g);
    }
    Always(r, m, who, inv);
  }

  /** The objects the run's user may see: none without a user. */
  function Seen(r: Run): seq<CatalogueObject> {
    if r.request.user.None? || Blank(Some(r.request.user.value.userId)) then
      []
    else
      var user := r.request.user.value;
      VisibleObjects(UserContext(Strip(user.userId), user.accessibleObjectIds), r.settings.catalogue)
  }

  /** Discovery finds them at every node boundary of the run. */
  lemma FoundIsSeen(r: Run, m: Moment)
    ensures Found(r.settings, At(r, m).cp) == Seen(r)
  {
    hide At, Strip, DiscoverAccessibleObjects, VisibleObjects;
    AlwaysSameUser(r, m);
    SameFound(r.settings, InitialCheckpoint(r.request), At(r, m).cp);
    if Seen(r) != [] || UserOf(InitialCheckpoint(r.request)).Some? {
      StripTwice(r.request.user.value.userId);
      DiscoveryIsExact(UserOf(InitialCheckpoint(r.request)).value, r.settings.catalogue);
    } else {
      NothingWithoutUser(r.settings, InitialCheckpoint(r.request));
    }
  }

  lemma NothingWithoutUser(c: Settings, cp: Checkpoint)
    requires UserOf(cp).None?
    ensures Found(c, cp) == []
  {
  }

  // ----- mapping in whole runs -----

  /** No hook is ever set, from discovery to the mapping gate the phase is about what the user sees,
      the data model at the gate is the slice made of it, and every data model row names its objects
      as source references. */
  ghost predicate Mapped(c: Settings, g: State) {
    && g.cp.forceOutcome == None && !g.cp.forceEmptySources
    && (g.next.MapData? || g.next.JudgeMapping? ==> g.cp.discovered == Found(c, g.cp))
    && (g.next.JudgeMapping? || g.next.PersistMapping? ==> g.cp.proposal == ProposalFor(c, g.cp))
    && (g.next.PersistMapping? ==> g.cp.escalated == (Found(c, g.cp) == []))
    && (g.next.AwaitMapping? ==>
          SliceStored(g.view.rows, Slice(ProposalFor(c, g.cp), g.cp.judgeNotes, Found(c, g.cp) == [])))
    && Referred(g.view.rows, ObjectIds(Found(c, g.cp)))
  }

  ghost predicate Referred(rows: seq<Row>, ids: seq<string>) {
    forall row :: row in rows && row.kind == DataModel ==> row.sourceRefs == ids
  }

  /** The newest data model is `dm`. */
  ghost predicate SliceStored(rows: seq<Row>, dm: DataModelPayload) {
    var own := OfKind(rows, DataModel);
    own != [] && own[|own| - 1].payload == DataModelBody(dm)
  }

  /** The judge of an unhooked proposal by the real builder. */
  lemma UnhookedVerdict(c: Settings, g: State)
    requires Mapped(c, g) && g.next == JudgeMapping
    ensures var r := Judged(c, g.cp);
      if Found(c, g.cp) != [] then r.outcome == Passed else r.outcome == SchemaIssue || r.outcome == Escalate
  {
    hide Found, NotesOf, EntitiesOf, JoinsOf;
    if Found(c, g.cp) != [] {
      assert ObjectIds(Found(c, g.cp))[0] in ObjectIds(Found(c, g.cp));
    }
  }

  lemma JudgeMapped(c: Settings, g: State)
    requires Mapped(c, g) && g.next == JudgeMapping
    ensures Mapped(c, JudgeStep(c, g))
  {
    hide Found, Judged, Propose, SliceStored, Slice;
    UnhookedVerdict(c, g);
    SameFound(c, g.cp, JudgeStep(c, g).cp);
  }

  lemma PersistMapped(c: Settings, g: State)
    requires Coherent(g) && Mapped(c, g) && g.next == PersistMapping
    ensures Mapped(c, PersistStep(g))
  {
    hide Coherent, OfKind, Derive, Found, Stores, Propose, Slice;
    SliceStores(g);
    var q := SliceRequest(g.cp);
    var s := Derive(g.view, g.minted, q);
    NewRowOnly(g.view, g.minted, q, q.parents, s);
    RowRefs(g.view, g.minted, q, q.parents, s);
    ProposedSources(Found(c, g.cp), g.cp);
    SameFound(c, g.cp, PersistStep(g).cp);
  }

  lemma ProposedSources(found: seq<CatalogueObject>, cp: Checkpoint)
    ensures Propose(found, cp.trPayload, cp.feedback, false).sourceIds == ObjectIds(found)
  {
  }

  lemma RowRefs(v: RunView, minted: Uuid, q: Request, parents: seq<Ref>, s: SavedRow)
    requires Stores(v, minted, q, parents, s)
    ensures s.row.sourceRefs == q.sourceRefs && s.row.kind == q.kind && s.view.rows == v.rows + [s.row]
  {
    hide LogOk, Typed, Linked;
  }

  lemma ModelMapped(c: Settings, a: Agents, g: State)
    requires Coherent(g) && Mapped(c, g) && g.next == Model && AskModels(a, g).Some?
    ensures Mapped(c, ModelStep(a, g))
  {
    hide Coherent, Stores, ModelData, ModelSemantics, AskModels, MappingRow, Found, Propose, SliceStored, Slice;
    ModelSaves(a, g);
    SliceRefsKept(c, g);
    var models, d := AskModels(a, g).value, ModelData(a, g);
    var q, t := DataModelRequest(g, models.1), SemanticRequest(g.cp, models.0, d.row.ToRef());
    RowRefs(g.view, g.minted, q, q.parents, d);
    RowRefs(d.view, d.minted, t, t.parents, ModelSemantics(a, g));
    SameFound(c, g.cp, ModelStep(a, g).cp);
  }

  lemma SliceRefsKept(c: Settings, g: State)
    requires Coherent(g) && Mapped(c, g) && g.next == Model
    ensures SliceRefs(g) == ObjectIds(Found(c, g.cp))
  {
    assert g.cp.mapping.Some? by {
      hide LogOk, Typed, Pointers, UnderReview, Mapped;
    }
    hide Coherent, MappingRow, Found, Propose, SliceStored, Slice, OfKind;
    MappingIsLatest(g);
    OfKindMembers(g.view.rows, DataModel);
    var own := OfKind(g.view.rows, DataModel);
    assert own[|own| - 1] in own;
  }

  lemma LeadInMapped(c: Settings, a: Agents, g: State)
    requires Mapped(c, g) && !Raises(a, g) && (g.next.ResetRetries? || g.next.DiscoverSources? || g.next.MapData?)
    ensures Mapped(c, Step(c, a, g))
  {
    hide DiscoverAccessibleObjects, Propose, SliceStored, Slice, Strip;
  }

  /** The other nodes lead neither into the mapping phase nor to its gate, set no hook and store no
      data model. */
  lemma OtherMapped(c: Settings, a: Agents, g: State)
    requires Mapped(c, g) && !Paused(g) && !Raises(a, g) && Coherent(g)
    requires g.next != Model && (!BeforeModelling(g.next) || g.next.EnsureBr? || g.next.GenerateTr?)
    ensures Mapped(c, Step(c, a, g))
  {
    hide Mapped, Step, Raises, Coherent, NoDataModel;
    StepKeepsUser(c, a, g);
    NoDataModelSaved(c, a, g);
    OutsidePhase(c, a, g);
    OutsideIsMapped(c, g, Step(c, a, g));
  }

  lemma OutsidePhase(c: Settings, a: Agents, g: State)
    requires !Paused(g) && !Raises(a, g)
    requires g.next != Model && (!BeforeModelling(g.next) || g.next.EnsureBr? || g.next.GenerateTr?)
    ensures var h := Step(c, a, g);
      && h.cp.forceOutcome == g.cp.forceOutcome && h.cp.forceEmptySources == g.cp.forceEmptySources
      && !InPhase(h.next)
  {
    hide Keep, Derive, AskMetrics, AskPipeline, AskRequirement, Propose, PackageRow, Requirement;
  }

  /** Where `Mapped` says something about the current phase. */
  predicate InPhase(n: Node) {
    n.MapData? || n.JudgeMapping? || n.PersistMapping? || n.AwaitMapping?
  }

  ghost predicate NoDataModel(rows: seq<Row>, rows': seq<Row>) {
    forall row :: row in rows' && row.kind == DataModel ==> row in rows
  }

  lemma OutsideIsMapped(c: Settings, g: State, h: State)
    requires Mapped(c, g) && SameUser(g.cp, h.cp) && NoDataModel(g.view.rows, h.view.rows) && !InPhase(h.next)
    requires h.cp.forceOutcome == g.cp.forceOutcome && h.cp.forceEmptySources == g.cp.forceEmptySources
    ensures Mapped(c, h)
  {
    hide Found, Propose, SliceStored, Slice;
    SameFound(c, g.cp, h.cp);
  }

  lemma SavedIsNoDataModel(v: RunView, minted: Uuid, q: Request, parents: seq<Ref>, s: SavedRow)
    requires Stores(v, minted, q, parents, s) && q.kind != DataModel
    ensures NoDataModel(v.rows, s.view.rows)
  {
    hide LogOk, Typed, Linked, OfKind;
  }

  lemma NoDataModelSaved(c: Settings, a: Agents, g: State)
    requires !Paused(g) && !Raises(a, g) && Coherent(g)
    requires g.next != Model && g.next != PersistMapping
    ensures NoDataModel(g.view.rows, Step(c, a, g).view.rows)
  {
    hide Coherent, Stores, Keep, Derive, AskMetrics, AskPipeline, AskRequirement, PackageRow, Requirement, NoDataModel;
    hide Propose, DiscoverAccessibleObjects, Judged, UserOf, Pins;
    match g.next {
      case EnsureBr =>
        BrStores(g);
        SavedIsNoDataModel(g.view, g.minted, BrRequest(g.cp), [], Keep(g.view, g.minted, BrRequest(g.cp)));
      case GenerateTr =>
        var q := TrRequest(g.cp, AskRequirement(a, g).value);
        TrStores(g, AskRequirement(a, g).value);
        SavedIsNoDataModel(g.view, g.minted, q, q.parents, Derive(g.view, g.minted, q));
      case BuildPipeline =>
        var q := PipelineRequest(g.cp, AskPipeline(a, g).value);
        PipelineStores(g, AskPipeline(a, g).value);
        SavedIsNoDataModel(g.view, g.minted, q, q.parents, Derive(g.view, g.minted, q));
      case DefineMetrics =>
        var q := MetricsRequest(g.cp, AskMetrics(a, g).value);
        MetricsStores(g, AskMetrics(a, g).value);
        SavedIsNoDataModel(g.view, g.minted, q, q.parents, Derive(g.view, g.minted, q));
      case AssemblePackage =>
        PackageStores(g);
        var q := PackageRequest(g.cp);
        SavedIsNoDataModel(g.view, g.minted, q, q.parents, Derive(g.view, g.minted, q));
      case MarkApproved =>
        ApprovalStores(g);
        var q := ApprovalRequest(PackageRow(g).value);
        SavedIsNoDataModel(g.view, g.minted, q, [], Keep(g.view, g.minted, q));
      case _ =>
        hide Step, Raises;
        QuietStep(c, a, g);
        NothingNew(g.view.rows);
    }
  }

  lemma NothingNew(rows: seq<Row>)
    ensures NoDataModel(rows, rows)
  {
  }

  lemma StepMapped(c: Settings, a: Agents, g: State)
    requires Coherent(g) && Mapped(c, g) && !Paused(g) && !Raises(a, g)
    ensures Mapped(c, Step(c, a, g))
  {
    hide Coherent, Mapped, JudgeStep, PersistStep, ModelStep;
    match g.next {
      case JudgeMapping => JudgeMapped(c, g);
      case PersistMapping => PersistMapped(c, g);
      case Model => ModelMapped(c, a, g);
      case _ =>
        hide Step, Raises;
        if g.next.ResetRetries? || g.next.DiscoverSources? || g.next.MapData? {
          LeadInMapped(c, a, g);
        } else {
          OtherMapped(c, a, g);
        }
    }
  }

  lemma ApiKeepsMapped(c: Settings, g: State, d: Decision, comments: string, minted: Uuid)
    requires Mapped(c, g)
    ensures Mapped(c, Later(g, minted)) && Mapped(c, Sync(g))
    ensures IsGate(g.next) ==> Mapped(c, Reviewed(g, d, comments))
  {
    hide Found, Propose, OfKind, Slice, SliceStored;
    SameFound(c, g.cp, Later(g, minted).cp);
    SameFound(c, g.cp, Sync(g).cp);
    if IsGate(g.next) {
      SameFound(c, g.cp, Reviewed(g, d, comments).cp);
    }
  }

  lemma AlwaysMapped(r: Run, m: Moment)
    ensures Good(At(r, m)) && Mapped(r.settings, At(r, m))
  {
    hide Good, Mapped, Step, Raises, Reviewed, Sync, Later, At;
    var c := r.settings;
    var who: Agents -> bool, inv: State -> bool := (a: Agents) => true, (g: State) => Mapped(c, g);
    assert inv(InitialState(r.request, r.minted)) by {
      InitialMapped(c, r.request, r.minted);
    }
    forall a, g | who(a) && Good(g) && inv(g) && !Paused(g) && !Raises(a, g)
      ensures inv(Step(c, a, g))
    {
      GoodIsCoherent(g);
      StepMapped(c, a, g);
    }
    forall g, d, comments | Good(g) && inv(g) && IsGate(g.next)
      ensures inv(Reviewed(g, d, comments))
    {
      ApiKeepsMapped(c, g, d, comments, 0);
    }
    forall g | Paused(g) && inv(g)
      ensures inv(Sync(g))
    {
      ApiKeepsMapped(c, g, Approve, "", 0);
    }
    forall g, minted | inv(g)
      ensures inv(Later(g, minted))
    {
      ApiKeepsMapped(c, g, Approve, "", minted);
    }
    Always(r, m, who, inv);
  }

  lemma InitialMapped(c: Settings, q: StartRequest, minted: Uuid)
    ensures Mapped(c, InitialState(q, minted))
  {
  }

  /** Whenever a run is at its mapping gate, the data model under review is made of exactly the
      objects its user sees: their entities, or the placeholder, the joins among them, their ids as
      sources, notes that carry this call's comments, and it is escalated if and only if the user
      sees nothing. */
  lemma SliceAtGate(r: Run, m: Moment)
    requires At(r, m).next == AwaitMapping
    ensures SliceOver(At(r, m).view.rows, Seen(r), NotesOf(At(r, m).cp.trPayload, At(r, m).cp.feedback))
  {
    hide At, Good, Found, Seen, SliceStored, SliceOver, Propose, Slice;
    AlwaysMapped(r, m);
    FoundIsSeen(r, m);
    SliceOfStored(r.settings, At(r, m));
  }

  ghost predicate SliceOver(rows: seq<Row>, seen: seq<CatalogueObject>, notes: seq<string>) {
    var own := OfKind(rows, DataModel);
    && own != [] && own[|own| - 1].payload.DataModelBody?
    && var dm := own[|own| - 1].payload.dm;
       && dm.entities == (if seen == [] then [PLACEHOLDER] else EntitiesOf(seen))
       && dm.relationships == JoinsOf(EntitiesOf(seen)) && dm.context.sourceIds == ObjectIds(seen)
       && notes <= dm.context.notes && (dm.context.escalated <==> seen == [])
  }

  lemma SliceOfStored(c: Settings, g: State)
    requires Mapped(c, g) && g.next == AwaitMapping
    ensures SliceOver(g.view.rows, Found(c, g.cp), NotesOf(g.cp.trPayload, g.cp.feedback))
  {
    hide Found, NotesOf, EntityOf, JoinsOf, OfKind, Referred;
    var p := ProposalFor(c, g.cp);
    SliceKeepsProposal(p, g.cp.judgeNotes, Found(c, g.cp) == []);
    assert p.entities == [] <==> Found(c, g.cp) == [];
  }

  /** Every data model row of a run, slice or enriched by whatever agent, names exactly the objects
      the user sees as its source references. */
  lemma DataModelsReferToSeen(r: Run, m: Moment, row: Row)
    requires row in At(r, m).view.rows && row.kind == DataModel
    ensures row.sourceRefs == ObjectIds(Seen(r))
  {
    hide At, Good, Found, Seen, SliceStored, Propose, Slice;
    AlwaysMapped(r, m);
    FoundIsSeen(r, m);
  }

  /** A call that enters the mapping phase, in any run whose user id is not blank: if the user sees
      anything, the phase takes five nodes and does not escalate; if not, it spends every schema
      retry and escalates. */
  lemma RealMappingPhase(r: Run, m: Moment, a: Agents)
    requires At(r, m).next == ResetRetries && !Blank(At(r, m).cp.userId)
    ensures var h := Invoke(r.settings, a, At(r, m));
      if Seen(r) != [] then
        NodesRun(r.settings, a, At(r, m)) == 5 && !h.cp.escalated
      else
        NodesRun(r.settings, a, At(r, m)) == 5 + 3 * r.settings.schemaCap && h.cp.escalated
  {
    hide At, Good, Found, Seen, SliceStored, Propose, Invoke, NodesRun, Blank, Slice, Referred;
    AlwaysMapped(r, m);
    FoundIsSeen(r, m);
    UnhookedMappingPhase(r.settings, a, At(r, m));
  }
}
