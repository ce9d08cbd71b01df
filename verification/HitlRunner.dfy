/** The application service: it keeps a checkpoint per run, carries out the graph's nodes on the
    shared store, and answers the API calls. Every method is proved to do to its run what the
    specifications in Workflow.dfy say, and nothing to any other run. */
module HitlRunner {
  import opened Domain
  import opened Discovery
  import opened Mapping
  import opened RunLog
  import opened Workflow
  import opened Coherence
  import opened Lineage
  import opened Runs
  import opened RunTheorems
  import opened ArtefactStore
  import opened DatabricksAdapter
  import opened Reviews
  import opened Conservation
  import Export
  import PipelineValidation

  datatype Thread = Thread(next: Node, cp: Checkpoint)

  datatype RunnerError = RunNotFound | InvalidRunState(status: RunStatus) | NodeRaised

  datatype ExportError = NoSuchRun | Refused(error: AdapterError)

  class HitlRunner {
    const store: PostgresArtefactStore
    const settings: Settings
    /** The checkpointer: one thread per started run. */
    var threads: map<Uuid, Thread>
    /** The decisions accepted so far, for the specification only. */
    ghost var history: map<Uuid, seq<Decision>>
    /** The whole run, from its start through every accepted call, for the specification only. */
    ghost var story: map<Uuid, Run>

    ghost function StateOf(run: Uuid): State
      requires run in threads && run in store.runs
      reads this`threads, store
    {
      State(threads[run].next, threads[run].cp, store.View(run), store.minted)
    }

    /** Holds between any two nodes of any run. */
    ghost predicate Consistent()
      reads this`threads, store
    {
      && store.Valid() && store.Confined()
      && forall run :: run in threads ==> run in store.runs && Good(StateOf(run))
    }

    /** What a node needs to know of the run it works for. */
    ghost predicate Ready(run: Uuid)
      reads this`threads, store
    {
      && store.Valid() && store.Confined()
      && run in threads && run in store.runs && Good(StateOf(run))
    }

    /** The run is stuck or where its accepted decisions say. */
    ghost predicate AsDecided(run: Uuid)
      reads this, store
    {
      && run in threads && run in store.runs && run in history
      && (Stuck(StateOf(run)) || Matches(StateOf(run), Walk(history[run])))
    }

    /** The run is where its start and its accepted calls, played one after the other, lead. */
    ghost predicate Follows(run: Uuid)
      reads this, store
    {
      && run in threads && run in store.runs && run in history && run in story
      && story[run].settings == settings
      && StateOf(run) == Later(Now(story[run]), store.minted)
      && AcceptedDecisions(story[run]) == DecisionsOf(story[run].calls) == history[run]
    }

    /** Holds between API calls: each run is where its start and its accepted decisions lead. */
    ghost predicate Valid()
      reads this, store
    {
      && Consistent() && history.Keys == story.Keys == threads.Keys == store.runs.Keys
      && forall run :: run in threads ==> Follows(run)
    }

    /** Whatever happened, it happened to this run alone. */
    twostate predicate OnlyTouches(run: Uuid)
      reads this`threads, store
    {
      && threads.Keys == old(threads.Keys) && store.runs.Keys == old(store.runs.Keys)
      && (forall r :: r in threads && r != run ==> threads[r] == old(threads[r]))
      && (forall r :: r in store.runs && r != run ==> store.View(r) == old(store.View(r)))
      && store.minted >= old(store.minted)
    }

    constructor (store: PostgresArtefactStore, settings: Settings)
      requires store.Valid() && store.Confined() && store.runs == map[]
      ensures Valid() && this.store == store && this.settings == settings && threads == map[]
    {
      this.store := store;
      this.settings := settings;
      this.threads := map[];
      this.history := map[];
      this.story := map[];
    }

    twostate lemma OthersStayGood(run: Uuid)
      requires old(Consistent()) && OnlyTouches(run) && store.Valid() && store.Confined()
      requires run in threads && run in store.runs && Good(StateOf(run))
      ensures Consistent()
    {
      hide Good;
      forall r | r in threads
        ensures r in store.runs && Good(StateOf(r))
      {
        if r != run {
          MintedMayGrowGood(old(StateOf(r)), store.minted);
        }
      }
    }

    /** The newest version of a kind belongs to this run's rows. */
    lemma OwnsLatest(run: Uuid, kind: Kind)
      requires run in store.runs && Latest(store.View(run).rows, kind).Some?
      ensures exists row :: (run, row) in store.artefacts && row.id == Latest(store.View(run).rows, kind).value.id
    {
      var own := OfKind(store.View(run).rows, kind);
      OfKindMembers(store.View(run).rows, kind);
      assert own[|own| - 1] in own;
      OwnMembers(store.artefacts, run, own[|own| - 1]);
    }

    /** save_artefact followed by one create_lineage_edge per parent. */
    method SaveLinked(run: Uuid, q: Request) returns (row: Row)
      requires store.Valid() && store.Confined() && run in store.runs
      requires KindOf(q.payload) == q.kind && q.version == None
      requires store.KnowsId(run, q)
      modifies store
      ensures store.Valid() && store.Confined() && store.runs == old(store.runs) && store.minted >= old(store.minted)
      ensures old(store.artefacts) <= store.artefacts
      ensures SavedRow(store.View(run), row, store.minted) == old(Derive(store.View(run), store.minted, q))
      ensures forall r :: r in store.runs && r != run ==> store.View(r) == old(store.View(r))
    {
      hide Link, OfKind, NextVersion, IdFor, Taken, KnownId, VersionFor, Faithful, Own;
      AutoVersionNeverConflicts(store.View(run), store.minted, q);
      var saved := store.SaveArtefact(run, q);
      row := saved.value;
      ghost var before := store.View(run);
      LinkNothing(before, row.ToPtr());
      for i := 0 to |q.parents|
        invariant store.Valid() && store.Confined() && store.runs == old(store.runs)
        invariant store.minted == old(Keep(store.View(run), store.minted, q).minted)
        invariant old(store.artefacts) <= store.artefacts
        invariant store.View(run) == Link(before, q.parents[..i], row.ToPtr())
        invariant forall r :: r in store.runs && r != run ==> store.View(r) == old(store.View(r))
      {
        LinkOneMore(before, q.parents[..i], q.parents[i], row.ToPtr());
        assert q.parents[..i + 1] == q.parents[..i] + [q.parents[i]];
        var _ := store.CreateLineageEdge(run, Edge(q.parents[i].ToPtr(), row.ToPtr()));
      }
      assert q.parents[..|q.parents|] == q.parents;
    }

    lemma LinkNothing(v: RunView, to: Ptr)
      ensures Link(v, [], to) == v
    {
    }

    lemma LinkOneMore(v: RunView, parents: seq<Ref>, parent: Ref, to: Ptr)
      ensures Link(v, parents + [parent], to) == AddEdge(Link(v, parents, to), Edge(parent.ToPtr(), to))
    {
      assert (parents + [parent])[..|parents|] == parents;
    }

    /** save_artefact alone. */
    method SaveOnly(run: Uuid, q: Request) returns (row: Row)
      requires store.Valid() && store.Confined() && run in store.runs
      requires KindOf(q.payload) == q.kind && q.version == None
      requires store.KnowsId(run, q)
      modifies store
      ensures store.Valid() && store.Confined() && store.runs == old(store.runs) && store.minted >= old(store.minted)
      ensures SavedRow(store.View(run), row, store.minted) == old(Keep(store.View(run), store.minted, q))
      ensures forall r :: r in store.runs && r != run ==> store.View(r) == old(store.View(r))
    {
      hide OfKind, NextVersion, IdFor, Taken, KnownId, VersionFor, Faithful, Own;
      AutoVersionNeverConflicts(store.View(run), store.minted, q);
      var saved := store.SaveArtefact(run, q);
      row := saved.value;
    }

    // ----- the nodes -----

    method EnsureBusinessRequirement(run: Uuid)
      requires Ready(run) && threads[run].next == EnsureBr
      modifies this`threads, store
      ensures OnlyTouches(run) && store.Valid() && store.Confined()
      ensures StateOf(run) == old(EnsureBrStep(StateOf(run)))
    {
      hide Good, Keep, PostgresArtefactStore.Valid, PostgresArtefactStore.Confined;
      var cp := threads[run].cp;
      var payload := if cp.seed.Some? then cp.seed.value else DefaultRequirement(cp.title);
      var row := SaveOnly(run, NodeSave(BusinessRequirementBody(payload), None, None, [], []));
      threads := threads[run := Thread(GenerateTr,
        cp.(br := Some(row.ToPtr()), brPayload := Some(payload), decision := None, feedback := None,
            schemaRetries := 0, logicRetries := 0, escalated := false))];
    }

    method GenerateTechnicalRequirement(run: Uuid, agents: Agents) returns (raised: bool)
      requires Ready(run) && threads[run].next == GenerateTr
      modifies this`threads, store
      ensures OnlyTouches(run) && store.Valid() && store.Confined()
      ensures raised == old(Raises(agents, StateOf(run)))
      ensures StateOf(run) == old(StepOrRaise(settings, agents, StateOf(run)))
    {
      hide Good, Derive, StepOrRaise, Raises, PostgresArtefactStore.Valid, PostgresArtefactStore.Confined;
      AgentNodes(settings, agents, StateOf(run));
      var cp := threads[run].cp;
      if cp.brPayload.None? {
        return true;
      }
      var tr := agents.technicalRequirement(cp.brPayload.value, cp.feedback);
      if tr.None? {
        return true;
      }
      var parents: seq<Ref> := [];
      if cp.br.Some? {
        parents := parents + [Ref(cp.br.value.id, BusinessRequirement, cp.br.value.version)];
      }
      assert parents == RefTo(cp.br, BusinessRequirement);
      OwnsPointer(run, TechnicalRequirement);
      var row := SaveLinked(run, NodeSave(TechnicalRequirementBody(tr.value), IdOf(cp.tr), None, [], parents));
      threads := threads[run := Thread(AwaitTr,
        cp.(tr := Some(row.ToPtr()), trPayload := Some(tr.value), current := Some(row.ToRef()), decision := None))];
      return false;
    }

    /** The checkpoint's pointer to the newest version of a type. */
    function PointerTo(cp: Checkpoint, kind: Kind): Option<Ptr> {
      match kind
      case BusinessRequirement => cp.br
      case TechnicalRequirement => cp.tr
      case SemanticModel => cp.sm
      case DataModel => cp.mapping
      case PipelineSpecification => cp.pipeline
      case MetricDefinitions => cp.metrics
      case ReviewPackage => cp.rp
    }

    /** Every id a node passes on is one of this run. */
    lemma OwnsPointer(run: Uuid, kind: Kind)
      requires Ready(run)
      ensures var p := PointerTo(threads[run].cp, kind);
        p.Some? ==> exists row :: (run, row) in store.artefacts && row.id == p.value.id
    {
      ReadyPointers(run);
      hide Ready, Latest;
      if PointerTo(threads[run].cp, kind).Some? {
        OwnsLatest(run, kind);
      }
    }

    lemma ReadyPointers(run: Uuid)
      requires Ready(run)
      ensures run in threads && run in store.runs && Pointers(StateOf(run))
    {
      hide LogOk, Typed, Stocked, UnderReview, Packaged, Rooted, Pointers, PostgresArtefactStore.Valid;
      hide PostgresArtefactStore.Confined;
    }

    /** `reset_mapping_retries`. */
    method ResetMappingRetries(run: Uuid)
      requires Ready(run) && threads[run].next == ResetRetries
      modifies this`threads
      ensures OnlyTouches(run) && StateOf(run) == old(ResetStep(StateOf(run)))
    {
      hide Good, PostgresArtefactStore.Valid, PostgresArtefactStore.Confined;
      var cp := threads[run].cp;
      threads := threads[run := Thread(DiscoverSources,
        cp.(schemaRetries := 0, logicRetries := 0, escalated := false, judgeNotes := None, decision := None))];
    }

    method Discover(run: Uuid) returns (raised: bool)
      requires Ready(run) && threads[run].next == DiscoverSources
      modifies this`threads
      ensures OnlyTouches(run) && raised == old(Blank(threads[run].cp.userId))
      ensures StateOf(run) ==
        old(if Blank(threads[run].cp.userId) then StateOf(run) else DiscoverStep(settings, StateOf(run)))
    {
      hide Good, PostgresArtefactStore.Valid, PostgresArtefactStore.Confined;
      var cp := threads[run].cp;
      if Blank(cp.userId) {
        return true;
      }
      StripTwice(cp.userId.value);
      var user := UserContext(Strip(cp.userId.value), cp.accessible);
      var found := DiscoverAccessibleObjects(Some(user), settings.catalogue);
      threads := threads[run := Thread(MapData, cp.(discovered := found.value, stage := ToDataMapping))];
      return false;
    }

    method MapSources(run: Uuid)
      requires Ready(run) && threads[run].next == MapData
      modifies this`threads
      ensures OnlyTouches(run) && StateOf(run) == old(MapDataStep(StateOf(run)))
    {
      hide Good, PostgresArtefactStore.Valid, PostgresArtefactStore.Confined;
      var cp := threads[run].cp;
      var proposal := BuildMappingProposal(cp.discovered, cp.trPayload, cp.feedback, cp.forceEmptySources);
      threads := threads[run := Thread(JudgeMapping, cp.(proposal := proposal))];
    }

    /** `mapping_judge_node` and the router behind it. */
    method JudgeProposal(run: Uuid)
      requires Ready(run) && threads[run].next == JudgeMapping
      modifies this`threads
      ensures OnlyTouches(run) && StateOf(run) == old(JudgeStep(settings, StateOf(run)))
    {
      hide Good, Evaluate, PostgresArtefactStore.Valid, PostgresArtefactStore.Confined;
      var cp := threads[run].cp;
      var r := Evaluate(ObjectIds(cp.discovered), cp.proposal, cp.schemaRetries, cp.logicRetries,
                        settings.schemaCap, settings.logicCap, cp.forceOutcome);
      var stage := ToPersist;
      if r.outcome == SchemaIssue {
        stage := ToDiscovery;
      } else if r.outcome == LogicIssue {
        stage := ToDataMapping;
      }
      threads := threads[run := Thread(AfterJudge(stage),
        cp.(schemaRetries := r.schemaRetries, logicRetries := r.logicRetries, judgeNotes := Some(r.notes),
            escalated := r.outcome == Escalate, stage := stage))];
    }

    method PersistSlice(run: Uuid)
      requires Ready(run) && threads[run].next == PersistMapping
      modifies this`threads, store
      ensures OnlyTouches(run) && store.Valid() && store.Confined()
      ensures StateOf(run) == old(PersistStep(StateOf(run)))
    {
      hide Good, Derive, Slice, PostgresArtefactStore.Valid, PostgresArtefactStore.Confined;
      var cp := threads[run].cp;
      var dm := ProposalToDataModel(cp.proposal, cp.judgeNotes, cp.escalated);
      var parents: seq<Ref> := [];
      if cp.tr.Some? {
        parents := parents + [Ref(cp.tr.value.id, TechnicalRequirement, cp.tr.value.version)];
      }
      assert parents == RefTo(cp.tr, TechnicalRequirement);
      OwnsPointer(run, DataModel);
      var q := NodeSave(DataModelBody(dm), IdOf(cp.mapping), dm.governance, cp.proposal.sourceIds, parents);
      var row := SaveLinked(run, q);
      threads := threads[run := Thread(AwaitMapping,
        cp.(mapping := Some(row.ToPtr()), current := Some(row.ToRef()), decision := None,
            forceOutcome := None, forceEmptySources := false))];
    }

    /** Reading one of its own rows, a run sees what a query restricted to it would return. */
    lemma ReadsOwn(run: Uuid, id: Uuid, version: Option<nat>)
      requires store.Confined() && run in store.runs
      requires exists row :: (run, row) in store.artefacts && row.id == id
      ensures Find(Items(store.artefacts), id, version) == Find(store.View(run).rows, id, version)
    {
      var row :| (run, row) in store.artefacts && row.id == id;
      forall e | e in store.artefacts && e.1.id == id
        ensures e.0 == run
      {
        assert (run, row).1.id == id;
      }
      MatchingOwn(store.artefacts, run, id, version);
    }

    /** The mapping slice to enrich, if there is one; not ok when it cannot be read. */
    method ReadMapping(run: Uuid) returns (ok: bool, mapping: Option<DataModelPayload>, sourceRefs: seq<string>)
      requires Ready(run) && threads[run].next == Model
      ensures ok <==> (threads[run].cp.mapping.Some? ==> MappingModel(StateOf(run)).Some?)
      ensures ok ==> mapping == MappingModel(StateOf(run))
      ensures ok ==> sourceRefs == SliceRefs(StateOf(run))
    {
      hide Good, Find, PostgresArtefactStore.Valid, PostgresArtefactStore.Confined;
      var p := threads[run].cp.mapping;
      if p.None? {
        return true, None, [];
      }
      OwnsPointer(run, DataModel);
      ReadsOwn(run, p.value.id, Some(p.value.version));
      var found := store.GetArtefact(p.value.id, Some(p.value.version));
      if found.Err? || !found.value.payload.DataModelBody? {
        return false, None, [];
      }
      return true, Some(found.value.payload.dm), found.value.sourceRefs;
    }

    method GenerateModels(run: Uuid, agents: Agents) returns (raised: bool)
      requires Ready(run) && threads[run].next == Model
      modifies this`threads, store
      ensures OnlyTouches(run) && store.Valid() && store.Confined()
      ensures raised == old(Raises(agents, StateOf(run)))
      ensures StateOf(run) == old(StepOrRaise(settings, agents, StateOf(run)))
    {
      hide Ready, ModelStep, AskModels, Raises, StepOrRaise, PostgresArtefactStore.Valid;
      hide PostgresArtefactStore.Confined;
      ReadyMeans(run);
      AgentNodes(settings, agents, StateOf(run));
      var ok, models, sourceRefs := AskForModels(run, agents);
      if !ok {
        return true;
      }
      SaveModels(run, agents, models, sourceRefs);
      raised := false;
    }

    lemma ReadyMeans(run: Uuid)
      requires Ready(run)
      ensures store.Valid() && store.Confined() && run in threads && run in store.runs
    {
      hide Good, PostgresArtefactStore.Valid, PostgresArtefactStore.Confined;
    }

    /** The modelling agent's answer, and the slice's source references to carry over. */
    method AskForModels(run: Uuid, agents: Agents)
      returns (ok: bool, models: (SemanticModelPayload, DataModelPayload), sourceRefs: seq<string>)
      requires Ready(run) && threads[run].next == Model
      ensures ok <==> AskModels(agents, StateOf(run)).Some?
      ensures ok ==> AskModels(agents, StateOf(run)) == Some(models)
      ensures ok ==> sourceRefs == SliceRefs(StateOf(run))
    {
      hide Good, MappingModel, MappingRow, PostgresArtefactStore.Valid, PostgresArtefactStore.Confined;
      var cp := threads[run].cp;
      var nothing := (SemanticModelPayload("", [], []), DataModelFields([SOME_ENTITY], [], EMPTY_CONTEXT, None));
      ok, models, sourceRefs := false, nothing, [];
      if cp.trPayload.Some? {
        var found, mapping, refs := ReadMapping(run);
        if found {
          var answer := agents.modelling(cp.trPayload.value, mapping, cp.feedback);
          if answer.Some? {
            ok, models, sourceRefs := true, answer.value, refs;
          }
        }
      }
    }

    lemma SliceExists(run: Uuid)
      requires Ready(run) && threads[run].next == Model
      ensures threads[run].cp.mapping.Some?
    {
      hide LogOk, Packaged, Rooted, Pointers, UnderReview, PostgresArtefactStore.Valid, PostgresArtefactStore.Confined;
    }

    /** The data model version first, then the semantic model version that also descends from it. */
    method SaveModels(
      run: Uuid,
      agents: Agents,
      models: (SemanticModelPayload, DataModelPayload),
      sourceRefs: seq<string>)
      requires Ready(run) && threads[run].next == Model
      requires AskModels(agents, StateOf(run)) == Some(models)
      requires sourceRefs == SliceRefs(StateOf(run))
      modifies this`threads, store
      ensures OnlyTouches(run) && store.Valid() && store.Confined()
      ensures StateOf(run) == old(ModelStep(agents, StateOf(run)))
    {
      hide Good, Derive, AskModels, MappingRow, References, PostgresArtefactStore.Valid, PostgresArtefactStore.Confined;
      var cp := threads[run].cp;
      var parents := ParentsIfSome([(cp.tr, TechnicalRequirement), (cp.mapping, DataModel)]);
      TwoParents(cp.tr, TechnicalRequirement, cp.mapping, DataModel);
      var id := if cp.mapping.Some? then IdOf(cp.mapping) else IdOf(cp.dm);
      OwnsPointer(run, DataModel);
      OwnsPointer(run, SemanticModel);
      assert cp.mapping.Some? by {
        SliceExists(run);
      }
      var dm := SaveLinked(run, NodeSave(DataModelBody(models.1), id, models.1.governance, sourceRefs, parents));
      assert SavedRow(store.View(run), dm, store.minted) == old(ModelData(agents, StateOf(run)));
      var sm := SaveLinked(run, NodeSave(SemanticModelBody(models.0), IdOf(cp.sm), None, [], parents + [dm.ToRef()]));
      threads := threads[run := Thread(AwaitModelling,
        cp.(sm := Some(sm.ToPtr()), smPayload := Some(models.0), dm := Some(dm.ToPtr()), dmPayload := Some(models.1),
            mapping := Some(dm.ToPtr()), current := Some(sm.ToRef()), decision := None))];
    }

    method GeneratePipeline(run: Uuid, agents: Agents) returns (raised: bool)
      requires Ready(run) && threads[run].next == BuildPipeline
      modifies this`threads, store
      ensures OnlyTouches(run) && store.Valid() && store.Confined()
      ensures raised == old(Raises(agents, StateOf(run)))
      ensures StateOf(run) == old(StepOrRaise(settings, agents, StateOf(run)))
    {
      hide Good, Derive, StepOrRaise, Raises, PostgresArtefactStore.Valid, PostgresArtefactStore.Confined;
      AgentNodes(settings, agents, StateOf(run));
      var cp := threads[run].cp;
      if cp.trPayload.None? || cp.smPayload.None? || cp.dmPayload.None? {
        return true;
      }
      var pipeline := agents.pipeline(cp.trPayload.value, cp.smPayload.value, cp.dmPayload.value);
      if pipeline.None? {
        return true;
      }
      var parents := ParentsIfSome([(cp.sm, SemanticModel), (cp.dm, DataModel)]);
      assert parents == RefTo(cp.sm, SemanticModel) + RefTo(cp.dm, DataModel) by {
        TwoParents(cp.sm, SemanticModel, cp.dm, DataModel);
      }
      OwnsPointer(run, PipelineSpecification);
      var row := SaveLinked(run, NodeSave(PipelineBody(pipeline.value), IdOf(cp.pipeline), None, [], parents));
      threads := threads[run := Thread(ValidatePipeline,
        cp.(pipeline := Some(row.ToPtr()), pipelinePayload := Some(pipeline.value), decision := None))];
      return false;
    }

    /** The references that exist, in the order in which a node lists them. */
    function References(pointers: seq<(Option<Ptr>, Kind)>): seq<Ref> {
      if pointers == [] then
        []
      else
        References(pointers[..|pointers| - 1]) + RefTo(pointers[|pointers| - 1].0, pointers[|pointers| - 1].1)
    }

    method ParentsIfSome(pointers: seq<(Option<Ptr>, Kind)>) returns (parents: seq<Ref>)
      ensures parents == References(pointers)
    {
      parents := [];
      for i := 0 to |pointers|
        invariant parents == References(pointers[..i])
      {
        assert pointers[..i + 1][..i] == pointers[..i];
        var (p, kind) := pointers[i];
        if p.Some? {
          parents := parents + [Ref(p.value.id, kind, p.value.version)];
        }
      }
      assert pointers[..|pointers|] == pointers;
    }

    lemma TwoParents(p: Option<Ptr>, j: Kind, q: Option<Ptr>, k: Kind)
      ensures References([(p, j), (q, k)]) == RefTo(p, j) + RefTo(q, k)
    {
      assert [(p, j), (q, k)][..1] == [(p, j)];
      assert [(p, j)][..0] == [];
      assert References([(p, j)]) == RefTo(p, j);
    }

    method ValidateStatically(run: Uuid) returns (raised: bool)
      requires Ready(run) && threads[run].next == ValidatePipeline
      modifies this`threads
      ensures OnlyTouches(run) && raised == old(threads[run].cp.pipelinePayload.None?)
      ensures StateOf(run) ==
        old(if threads[run].cp.pipelinePayload.None? then StateOf(run) else ValidateStep(StateOf(run)))
    {
      hide Good, PostgresArtefactStore.Valid, PostgresArtefactStore.Confined, PipelineValidation.Report;
      hide PipelineValidation.Runnable;
      var cp := threads[run].cp;
      if cp.pipelinePayload.None? {
        return true;
      }
      var results := PipelineValidation.ValidatePipelineSpecification(cp.pipelinePayload.value);
      threads := threads[run := Thread(DefineMetrics, cp.(validation := results))];
      return false;
    }

    method GenerateMetrics(run: Uuid, agents: Agents) returns (raised: bool)
      requires Ready(run) && threads[run].next == DefineMetrics
      modifies this`threads, store
      ensures OnlyTouches(run) && store.Valid() && store.Confined()
      ensures raised == old(Raises(agents, StateOf(run)))
      ensures StateOf(run) == old(StepOrRaise(settings, agents, StateOf(run)))
    {
      hide Good, Derive, StepOrRaise, Raises, PostgresArtefactStore.Valid, PostgresArtefactStore.Confined;
      AgentNodes(settings, agents, StateOf(run));
      var cp := threads[run].cp;
      if cp.smPayload.None? {
        return true;
      }
      var metrics := agents.metrics(cp.smPayload.value, cp.trPayload, cp.feedback);
      if metrics.None? {
        return true;
      }
      var parents := ParentsIfSome([(cp.sm, SemanticModel), (cp.pipeline, PipelineSpecification)]);
      assert parents == RefTo(cp.sm, SemanticModel) + RefTo(cp.pipeline, PipelineSpecification) by {
        TwoParents(cp.sm, SemanticModel, cp.pipeline, PipelineSpecification);
      }
      OwnsPointer(run, MetricDefinitions);
      var row := SaveLinked(run, NodeSave(MetricsBody(metrics.value), IdOf(cp.metrics), None, [], parents));
      threads := threads[run := Thread(AwaitImplementation,
        cp.(metrics := Some(row.ToPtr()), current := Some(row.ToRef()), decision := None))];
      return false;
    }

    /** What a review package pins, in its order. */
    function Pointers6(cp: Checkpoint): seq<(Option<Ptr>, Kind)> {
      [(cp.br, BusinessRequirement), (cp.tr, TechnicalRequirement), (cp.sm, SemanticModel),
       (cp.dm, DataModel), (cp.pipeline, PipelineSpecification), (cp.metrics, MetricDefinitions)]
    }

    lemma SixParents(cp: Checkpoint)
      ensures References(Pointers6(cp)) == Pins(cp)
    {
      hide RefTo;
      var s := Pointers6(cp);
      TwoParents(cp.br, BusinessRequirement, cp.tr, TechnicalRequirement);
      assert s[..2] == [s[0], s[1]] && s[..3][..2] == s[..2] && s[..4][..3] == s[..3];
      assert s[..5][..4] == s[..4] && s[..6] == s;
      assert References(s[..3]) == References(s[..2]) + RefTo(cp.sm, SemanticModel);
      assert References(s[..4]) == References(s[..3]) + RefTo(cp.dm, DataModel);
      assert References(s[..5]) == References(s[..4]) + RefTo(cp.pipeline, PipelineSpecification);
    }

    method AssembleReviewPackage(run: Uuid) returns (raised: bool)
      requires Ready(run) && threads[run].next == AssemblePackage
      modifies this`threads, store
      ensures OnlyTouches(run) && store.Valid() && store.Confined()
      ensures raised == old(Pins(threads[run].cp) == [])
      ensures StateOf(run) == old(if Pins(threads[run].cp) == [] then StateOf(run) else AssembleStep(StateOf(run)))
    {
      hide Good, Derive, Pins, References, PostgresArtefactStore.Valid, PostgresArtefactStore.Confined;
      var cp := threads[run].cp;
      var pinned := ParentsIfSome(Pointers6(cp));
      SixParents(cp);
      if pinned == [] {
        return true;
      }
      OwnsPointer(run, ReviewPackage);
      var package := ReviewPackageFields(pinned, cp.validation, PendingReview);
      var row := SaveLinked(run, NodeSave(ReviewPackageBody(package), IdOf(cp.rp), None, [], pinned));
      threads := threads[run := Thread(AwaitPackage,
        cp.(rp := Some(row.ToPtr()), current := Some(row.ToRef()), decision := None))];
      return false;
    }

    lemma OwnsPackage(run: Uuid)
      requires Ready(run) && threads[run].next == MarkApproved
      ensures threads[run].cp.rp.Some? && PackageId(threads[run].cp) == Some(threads[run].cp.rp.value.id)
      ensures PackageRow(StateOf(run)).Some? && PackageRow(StateOf(run)).value.payload.ReviewPackageBody?
      ensures PackageRow(StateOf(run)).value.id == threads[run].cp.rp.value.id
    {
      assert threads[run].cp.rp.Some? by {
        hide LogOk, Packaged, Rooted, Pointers, UnderReview, PostgresArtefactStore.Valid;
        hide PostgresArtefactStore.Confined;
      }
      hide Coherent, Packaged, Rooted, PackageRow, PostgresArtefactStore.Valid, PostgresArtefactStore.Confined;
      PackageIsLatest(StateOf(run));
    }

    /** The package that mark_approved reads and builds on. */
    method ReadPackage(run: Uuid) returns (former: Row)
      requires Ready(run) && threads[run].next == MarkApproved
      ensures PackageId(threads[run].cp).Some? && PackageRow(StateOf(run)) == Some(former)
      ensures former.payload.ReviewPackageBody?
      ensures exists row :: (run, row) in store.artefacts && row.id == former.id
    {
      hide Good, Find, PostgresArtefactStore.Valid, PostgresArtefactStore.Confined;
      var cp := threads[run].cp;
      OwnsPackage(run);
      OwnsPointer(run, ReviewPackage);
      ReadsOwn(run, cp.rp.value.id, None);
      var found := store.GetArtefact(cp.rp.value.id, None);
      former := found.value;
    }

    method ApprovePackage(run: Uuid)
      requires Ready(run) && threads[run].next == MarkApproved
      modifies this`threads, store
      ensures OnlyTouches(run) && store.Valid() && store.Confined()
      ensures old(PackageId(threads[run].cp).Some?) ==>
        old(PackageRow(StateOf(run)).Some? && PackageRow(StateOf(run)).value.payload.ReviewPackageBody?)
      ensures StateOf(run) == old(ApproveStep(StateOf(run)))
    {
      hide Good, Keep, PackageRow, PostgresArtefactStore.Valid, PostgresArtefactStore.Confined;
      var cp := threads[run].cp;
      var former := ReadPackage(run);
      var package := former.payload.rp.(decisionState := PackageApproved);
      var q := NodeSave(ReviewPackageBody(package), Some(former.id), None, [], former.payload.rp.pinned);
      var row := SaveOnly(run, q);
      threads := threads[run := Thread(End,
        cp.(decision := Some(Approve),
            rp := if cp.rp.Some? then Some(cp.rp.value.(version := row.version)) else None,
            current := if cp.current.Some? then Some(cp.current.value.(version := row.version)) else None))];
    }

    method MarkRunTerminated(run: Uuid)
      requires Ready(run) && threads[run].next == MarkTerminated
      modifies this`threads
      ensures OnlyTouches(run) && StateOf(run) == old(TerminateStep(StateOf(run)))
    {
      hide Good, PostgresArtefactStore.Valid, PostgresArtefactStore.Confined;
      threads := threads[run := Thread(End, threads[run].cp.(decision := Some(Reject)))];
    }

    // ----- running the graph -----

    method RunNode(run: Uuid, agents: Agents) returns (raised: bool)
      requires Consistent() && run in threads && !IsGate(threads[run].next) && threads[run].next != End
      modifies this`threads, store
      ensures Consistent() && OnlyTouches(run)
      ensures raised == old(Raises(agents, StateOf(run)))
      ensures StateOf(run) == old(StepOrRaise(settings, agents, StateOf(run)))
    {
      hide Good, PostgresArtefactStore.Valid, PostgresArtefactStore.Confined;
      hide EnsureBrStep, GenerateTrStep, PersistStep, ModelStep, PipelineStep, MetricsStep, AssembleStep, ApproveStep;
      hide JudgeStep, MapDataStep, DiscoverStep, ValidateStep;
      hide AskModels, AskRequirement, AskPipeline, AskMetrics, Pins;
      StepGood(settings, agents, StateOf(run));
      raised := false;
      match threads[run].next {
        case EnsureBr => EnsureBusinessRequirement(run);
        case GenerateTr => raised := GenerateTechnicalRequirement(run, agents);
        case ResetRetries => ResetMappingRetries(run);
        case DiscoverSources => raised := Discover(run);
        case MapData => MapSources(run);
        case JudgeMapping => JudgeProposal(run);
        case PersistMapping => PersistSlice(run);
        case Model => raised := GenerateModels(run, agents);
        case BuildPipeline => raised := GeneratePipeline(run, agents);
        case ValidatePipeline => raised := ValidateStatically(run);
        case DefineMetrics => raised := GenerateMetrics(run, agents);
        case AssemblePackage => raised := AssembleReviewPackage(run);
        case MarkApproved => ApprovePackage(run);
        case MarkTerminated => MarkRunTerminated(run);
      }
      OthersStayGood(run);
    }

    /** `ainvoke`: nodes run until the graph pauses, ends, or a node raises. */
    method RunGraph(run: Uuid, agents: Agents) returns (raised: bool)
      requires Consistent() && run in threads
      modifies this`threads, store
      ensures Consistent() && OnlyTouches(run)
      ensures StateOf(run) == old(Invoke(settings, agents, StateOf(run)))
      ensures raised == Raises(agents, StateOf(run))
    {
      hide Good, PostgresArtefactStore.Valid, PostgresArtefactStore.Confined, Step, Raises, Outer, Inner, RetryRoom;
      raised := false;
      PausedDoesNotRaise(agents, StateOf(run));
      while !IsGate(threads[run].next) && threads[run].next != End
        invariant Consistent() && run in threads && OnlyTouches(run)
        invariant Invoke(settings, agents, StateOf(run)) == old(Invoke(settings, agents, StateOf(run)))
        invariant Paused(StateOf(run)) ==> !Raises(agents, StateOf(run))
        decreases Outer(threads[run].next), RetryRoom(settings, threads[run].cp), Inner(threads[run].next)
      {
        ghost var before := StateOf(run);
        raised := RunNode(run, agents);
        if raised {
          return true;
        }
        StepMakesProgress(settings, agents, before);
        PausedDoesNotRaise(agents, StateOf(run));
      }
      return false;
    }

    lemma PausedDoesNotRaise(agents: Agents, g: State)
      ensures Paused(g) ==> !Raises(agents, g)
    {
    }

    // ----- the API -----

    /** The first half of `_sync_and_detail`: the status row follows the checkpoint. */
    method SyncStatus(run: Uuid)
      requires Consistent() && run in threads
      modifies store
      ensures Consistent() && OnlyTouches(run)
      ensures StateOf(run) == old(Sync(StateOf(run)))
    {
      hide Good, PostgresArtefactStore.Valid, PostgresArtefactStore.Confined;
      var thread := threads[run];
      var target := Running;
      if IsGate(thread.next) {
        target := WaitingForReview;
      } else if thread.next == End {
        if thread.cp.decision == Some(Reject) {
          target := Terminated;
        } else if thread.cp.decision == Some(Approve) {
          target := RunStatus.Approved;
        } else {
          target := Failed;
        }
      }
      SyncGood(StateOf(run));
      var status := store.GetRun(run);
      if status.value != target {
        var _ := store.UpdateRunStatus(run, target);
      }
      OthersStayGood(run);
    }

    lemma SyncGood(g: State)
      requires Good(g)
      ensures Good(Sync(g))
    {
      hide Coherent;
      SyncCoherent(g);
    }

    method BuildDetail(run: Uuid) returns (d: RunDetail)
      requires Consistent() && run in threads
      ensures d == DetailOf(StateOf(run))
    {
      hide Good, PostgresArtefactStore.Valid, PostgresArtefactStore.Confined, BestOfKind, BestOfAll;
      var status := store.GetRun(run);
      var listed := store.ListArtefactsForRun(run);
      var current := threads[run].cp.current;
      var latest: Option<Ref> := None;
      if current.Some? {
        latest := NewestOfKind(listed.value, current.value.kind);
      }
      if latest.None? {
        latest := NewestOfAll(listed.value);
      }
      var pending: Option<Ref> := None;
      if status.value == WaitingForReview {
        pending := if current.Some? then current else latest;
      }
      d := RunDetail(status.value, pending, latest);
    }

    method NewestOfKind(refs: seq<Ref>, kind: Kind) returns (best: Option<Ref>)
      ensures best == BestOfKind(refs, kind)
    {
      best := None;
      for i := 0 to |refs|
        invariant best == BestOfKind(refs[..i], kind)
      {
        assert refs[..i + 1][..i] == refs[..i];
        if refs[i].kind == kind && (best.None? || refs[i].version > best.value.version) {
          best := Some(refs[i]);
        }
      }
      assert refs[..|refs|] == refs;
    }

    method NewestOfAll(refs: seq<Ref>) returns (best: Option<Ref>)
      ensures best == BestOfAll(refs)
    {
      best := None;
      for i := 0 to |refs|
        invariant best == BestOfAll(refs[..i])
      {
        assert refs[..i + 1][..i] == refs[..i];
        if best.None? || RanksAbove(refs[i], best.value) {
          best := Some(refs[i]);
        }
      }
      assert refs[..|refs|] == refs;
    }

    /** Nothing about other runs changed; for a run just created, nothing about any old one. */
    twostate predicate OldRunsKept(run: Uuid)
      reads this`threads, store
    {
      forall r :: r in old(threads) && r in old(store.runs) && r != run ==>
        && r in threads && threads[r] == old(threads[r])
        && r in store.runs && store.View(r) == old(store.View(r))
    }

    /** ainvoke and, unless a node raised, _sync_and_detail. */
    method Drive(run: Uuid, agents: Agents, ghost v: Verdict) returns (r: Result<RunDetail, RunnerError>)
      requires Consistent() && run in threads && HeadsFor(StateOf(run), v)
      modifies this`threads, store
      ensures Consistent() && OnlyTouches(run)
      ensures StateOf(run) == old(Finish(agents, Invoke(settings, agents, StateOf(run))))
      ensures Stuck(StateOf(run)) || Matches(StateOf(run), v)
      ensures r == if Stuck(StateOf(run)) then Err(NodeRaised) else Ok(DetailOf(StateOf(run)))
    {
      hide Good, HeadsFor, Raises, DetailOf, Invoke, Sync, Stuck, Matches, PostgresArtefactStore.Valid;
      hide PostgresArtefactStore.Confined;
      DriveArrives(agents, StateOf(run), v);
      var raised := RunGraph(run, agents);
      if raised {
        return Err(NodeRaised);
      }
      SyncStatus(run);
      var detail := BuildDetail(run);
      return Ok(detail);
    }

    lemma DriveArrives(agents: Agents, g: State, v: Verdict)
      requires Good(g) && HeadsFor(g, v)
      ensures var h := Invoke(settings, agents, g);
        && (Stuck(Finish(agents, h)) <==> Raises(agents, h))
        && (Stuck(Finish(agents, h)) || Matches(Finish(agents, h), v))
    {
      hide Coherent, Packaged, Rooted, Conserved, HeadsFor, Raises, Invoke, Counted;
      InvokeConserves(settings, agents, g);
      HeadsForConserved(g, Invoke(settings, agents, g), v);
      Arrives(agents, Invoke(settings, agents, g), v);
    }

    /** So it is stuck or where its accepted decisions say. */
    lemma PlayedIsDecided(run: Uuid)
      requires Follows(run)
      ensures AsDecided(run)
    {
      hide Good, Stuck, Matches, Walk, Now, AcceptedDecisions, DecisionsOf, PostgresArtefactStore.Valid;
      hide PostgresArtefactStore.Confined;
      var g := Now(story[run]);
      AnyRun(story[run]);
      OlderState(g, Max(g.minted, store.minted), Walk(history[run]));
    }

    twostate lemma TouchesKeeps(run: Uuid)
      requires OnlyTouches(run)
      ensures OldRunsKept(run) && threads.Keys == old(threads.Keys) && store.runs.Keys == old(store.runs.Keys)
      ensures store.minted >= old(store.minted)
    {
      hide PostgresArtefactStore.View;
    }

    /** No other run's story was touched. */
    twostate predicate OnlyTells(run: Uuid)
      reads this`history, this`story
    {
      forall r :: r in old(story) && r in old(history) && r != run ==>
        && r in story && story[r] == old(story[r])
        && r in history && history[r] == old(history[r])
    }

    /** What a call did to one run leaves every other run where its own calls lead. */
    twostate lemma CloseCall(run: Uuid)
      requires OldRunsKept(run) && OnlyTells(run) && store.minted >= old(store.minted)
      requires threads.Keys == store.runs.Keys == history.Keys == story.Keys == old(threads.Keys) + {run}
      requires old(Valid()) && Consistent() && Follows(run)
      ensures Valid()
    {
      hide Good, Consistent, Now, AcceptedDecisions, DecisionsOf, PostgresArtefactStore.Valid;
      hide PostgresArtefactStore.Confined;
      forall other | other in threads
        ensures Follows(other)
      {
        if other != run {
          assert old(Follows(other));
        }
      }
    }

    /** Writes down the story that has led to the run's present state. */
    ghost method Tell(run: Uuid, told: Run, decisions: seq<Decision>)
      requires run in threads && run in store.runs
      requires told.settings == settings && StateOf(run) == Now(told)
      requires AcceptedDecisions(told) == DecisionsOf(told.calls) == decisions
      modifies this`history, this`story
      ensures history == old(history)[run := decisions] && story == old(story)[run := told]
      ensures Follows(run)
    {
      hide Now, AcceptedDecisions, DecisionsOf;
      history := history[run := decisions];
      story := story[run := told];
    }

    /** A run that waits stands at a gate, and its story goes on with the call. */
    lemma BeforeDecision(run: Uuid, call: Call)
      requires Follows(run) && store.runs[run] == WaitingForReview && call.minted == store.minted
      ensures run in threads && run in store.runs && run in history && run in story
      ensures Walk(history[run]).StillWaiting? && Matches(StateOf(run), Walk(history[run])) && IsGate(threads[run].next)
      ensures var told := story[run].(calls := story[run].calls + [call]);
        && told.settings == settings
        && AcceptedDecisions(told) == DecisionsOf(told.calls) == history[run] + [call.decision]
        && Some(Now(told)) ==
             Workflow.ApplyReview(settings, call.agents, StateOf(run), call.decision, call.comments)
    {
      hide Good, Stuck, Matches, Walk, Now, AcceptedDecisions, DecisionsOf, Workflow.ApplyReview;
      hide PostgresArtefactStore.Valid, PostgresArtefactStore.Confined;
      PlayedIsDecided(run);
      WaitingIsAtGate(StateOf(run), Walk(history[run]));
      StoryGoesOn(story[run], call);
    }

    /** POST /runs. */
    method StartRun(q: StartRequest, agents: Agents) returns (run: Uuid, r: Result<RunDetail, RunnerError>)
      requires Valid()
      modifies this, store
      ensures Valid() && OldRunsKept(run)
      ensures run == old(store.minted) && run !in old(threads) && threads.Keys == old(threads.Keys) + {run}
      ensures StateOf(run) == Workflow.StartRun(settings, agents, q, run + 1)
      ensures history == old(history)[run := []]
      ensures r == if Stuck(StateOf(run)) then Err(NodeRaised) else Ok(DetailOf(StateOf(run)))
    {
      hide Good, Consistent, Follows, Stuck, DetailOf, Now, StateOf, OldRunsKept, PostgresArtefactStore.View;
      hide Workflow.StartRun, AcceptedDecisions, DecisionsOf, PostgresArtefactStore.Valid;
      hide PostgresArtefactStore.Confined;
      ghost var told := Run(settings, agents, q, store.minted + 1, []);
      StoryStarts(told);
      run, r := OpenAndDrive(q, agents);
      Tell(run, told, []);
      CloseCall(run);
    }

    method OpenAndDrive(q: StartRequest, agents: Agents) returns (run: Uuid, r: Result<RunDetail, RunnerError>)
      requires Valid()
      modifies this, store
      ensures Consistent() && OldRunsKept(run) && store.minted >= old(store.minted)
      ensures run == old(store.minted) && run !in old(threads)
      ensures history.Keys == threads.Keys == store.runs.Keys == old(threads.Keys) + {run}
      ensures StateOf(run) == Workflow.StartRun(settings, agents, q, run + 1)
      ensures history == old(history)[run := []] && story == old(story)
      ensures r == if Stuck(StateOf(run)) then Err(NodeRaised) else Ok(DetailOf(StateOf(run)))
    {
      hide Good, Consistent, Follows, Stuck, Matches, HeadsFor, Finish, Invoke, DetailOf, InitialState, StateOf;
      hide PostgresArtefactStore.View, PostgresArtefactStore.Valid, PostgresArtefactStore.Confined;
      run := OpenRun(q);
      InitialHeads(q, run + 1);
      StartIsFinish(agents, q, run + 1);
      r := Drive(run, agents, Walk([]));
    }

    lemma StartIsFinish(agents: Agents, q: StartRequest, minted: Uuid)
      ensures Workflow.StartRun(settings, agents, q, minted)
        == Finish(agents, Invoke(settings, agents, InitialState(q, minted)))
    {
    }

    lemma InitialHeads(q: StartRequest, minted: Uuid)
      ensures HeadsFor(InitialState(q, minted), Walk([]))
    {
    }

    /** Creates the run's row and sets it RUNNING. */
    method CreateRunning() returns (run: Uuid)
      requires store.Valid() && store.Confined()
      modifies store
      ensures store.Valid() && store.Confined()
      ensures run == old(store.minted) && store.minted == run + 1 && run !in old(store.runs)
      ensures store.runs.Keys == old(store.runs.Keys) + {run} && store.View(run) == SetStatus(NEW_RUN, Running)
      ensures forall r :: r in old(store.runs) ==> r in store.runs && store.View(r) == old(store.View(r))
    {
      hide PostgresArtefactStore.Valid, PostgresArtefactStore.Confined;
      var created := store.CreateRun(None);
      run := created.value;
      var _ := store.UpdateRunStatus(run, Running);
    }

    /** Creates the run, sets it RUNNING and hands the initial state to the graph. */
    method OpenRun(q: StartRequest) returns (run: Uuid)
      requires Valid()
      modifies this, store
      ensures Consistent() && OldRunsKept(run) && store.minted >= old(store.minted)
      ensures run == old(store.minted) && run !in old(threads)
      ensures history.Keys == threads.Keys == store.runs.Keys == old(threads.Keys) + {run}
      ensures StateOf(run) == InitialState(q, run + 1)
      ensures history == old(history)[run := []] && story == old(story)
    {
      hide Good, Follows, PostgresArtefactStore.Valid, PostgresArtefactStore.Confined;
      run := CreateRunning();
      threads := threads[run := Thread(EnsureBr, InitialCheckpoint(q))];
      history := history[run := []];
      InitialGood(q, run + 1);
      OldRunsStayGood(run);
    }

    twostate lemma OldRunsStayGood(run: Uuid)
      requires old(Consistent()) && OldRunsKept(run) && store.Valid() && store.Confined()
      requires store.minted >= old(store.minted) && threads.Keys == old(threads.Keys) + {run}
      requires run in store.runs && Good(StateOf(run))
      ensures Consistent()
    {
      hide Good, PostgresArtefactStore.Valid, PostgresArtefactStore.Confined;
      forall r | r in threads
        ensures r in store.runs && Good(StateOf(r))
      {
        if r != run {
          MintedMayGrowGood(old(StateOf(r)), store.minted);
        }
      }
    }

    lemma InitialGood(q: StartRequest, minted: Uuid)
      ensures Good(InitialState(q, minted))
    {
      hide Coherent;
      InitialCoherent(q, minted);
    }

    /** Uuids taken by another run change nothing for this one. */
    lemma OlderState(g: State, minted: Uuid, v: Verdict)
      requires Good(g) && minted >= g.minted && (Stuck(g) || Matches(g, v))
      ensures var h := g.(minted := minted); Good(h) && (Stuck(h) || Matches(h, v))
    {
      hide Coherent, Packaged, Rooted, Counted;
      MintedMayGrowGood(g, minted);
      if Counted(g, v.p) {
        SameCounts(g, g.(minted := minted), v.p);
      }
    }

    /** POST /runs/{id}/reviews. */
    method ApplyReview(run: Uuid, decision: Decision, comments: string, agents: Agents)
      returns (r: Result<RunDetail, RunnerError>)
      requires Valid()
      modifies this, store
      ensures Valid() && OldRunsKept(run)
      ensures run !in old(threads) ==> r == Err(RunNotFound) && Unchanged()
      ensures run in old(threads) && old(store.runs[run]) != WaitingForReview ==>
        r == Err(InvalidRunState(old(store.runs[run]))) && Unchanged()
      ensures run in old(threads) && old(store.runs[run]) == WaitingForReview ==>
        && run in threads && run in store.runs
        && Some(StateOf(run)) == old(Workflow.ApplyReview(settings, agents, StateOf(run), decision, comments))
        && history == old(history[run := history[run] + [decision]])
        && DecisionsIn(ReviewsOf(store.View(run).audit)) == history[run]
        && r == if Stuck(StateOf(run)) then Err(NodeRaised) else Ok(DetailOf(StateOf(run)))
    {
      hide Good, Follows, Stuck, DetailOf, PostgresArtefactStore.Valid, PostgresArtefactStore.Confined;
      var status := store.GetRun(run);
      if status.Err? {
        return Err(RunNotFound);
      }
      if status.value != WaitingForReview {
        return Err(InvalidRunState(status.value));
      }
      r := Decide(run, decision, comments, agents);
      LogTellsDecisions(run);
    }

    /** Whatever is proved of all runs holds of every run in service. */
    lemma EveryRunIsPlayed(run: Uuid)
      requires Valid() && run in threads
      ensures exists r: Run ::
        && run in store.runs && run in history
        && r.settings == settings && StateOf(run) == Later(Now(r), store.minted)
        && AcceptedDecisions(r) == history[run]
    {
      hide Good, Now, AcceptedDecisions, PostgresArtefactStore.Valid, PostgresArtefactStore.Confined;
      assert Follows(run);
    }

    /** The audit log of every run records exactly its accepted decisions, in order. */
    lemma LogTellsDecisions(run: Uuid)
      requires Valid() && run in threads
      ensures run in store.runs && run in history
      ensures DecisionsIn(ReviewsOf(store.View(run).audit)) == history[run]
    {
      hide Good, Now, AcceptedDecisions, PostgresArtefactStore.Valid, PostgresArtefactStore.Confined;
      hide DecisionsIn, ReviewsOf;
      assert Follows(run);
      DecisionsAreRecorded(story[run], BetweenCalls);
    }

    twostate predicate Unchanged()
      reads this, store
    {
      && threads == old(threads) && history == old(history) && story == old(story)
      && store.runs == old(store.runs) && store.artefacts == old(store.artefacts)
      && store.edges == old(store.edges) && store.events == old(store.events)
    }

    /** The review of a run that waits. */
    method Decide(run: Uuid, decision: Decision, comments: string, agents: Agents)
      returns (r: Result<RunDetail, RunnerError>)
      requires Valid() && run in threads && store.runs[run] == WaitingForReview
      modifies this, store
      ensures Valid() && OldRunsKept(run) && run in threads && run in store.runs
      ensures Some(StateOf(run)) == old(Workflow.ApplyReview(settings, agents, StateOf(run), decision, comments))
      ensures history == old(history[run := history[run] + [decision]])
      ensures r == if Stuck(StateOf(run)) then Err(NodeRaised) else Ok(DetailOf(StateOf(run)))
    {
      hide Good, Consistent, Follows, Stuck, Matches, DetailOf, Walk, React, Workflow.ApplyReview, Now, StateOf;
      hide AcceptedDecisions, DecisionsOf, PostgresArtefactStore.Valid, PostgresArtefactStore.Confined;
      hide PostgresArtefactStore.View, OnlyTouches, OldRunsKept;
      ghost var call := Call(agents, decision, comments, store.minted);
      BeforeDecision(run, call);
      r := Proceed(run, decision, comments, agents, Walk(history[run]));
      TouchesKeeps(run);
      Tell(run, story[run].(calls := story[run].calls + [call]), history[run] + [decision]);
      CloseCall(run);
    }

    method Proceed(run: Uuid, decision: Decision, comments: string, agents: Agents, ghost v: Verdict)
      returns (r: Result<RunDetail, RunnerError>)
      requires Consistent() && run in threads && IsGate(threads[run].next) && store.runs[run] == WaitingForReview
      requires v.StillWaiting? && Matches(StateOf(run), v)
      modifies this`threads, store
      ensures Consistent() && OnlyTouches(run)
      ensures Some(StateOf(run)) == old(Workflow.ApplyReview(settings, agents, StateOf(run), decision, comments))
      ensures Stuck(StateOf(run)) || Matches(StateOf(run), React(v, decision))
      ensures r == if Stuck(StateOf(run)) then Err(NodeRaised) else Ok(DetailOf(StateOf(run)))
    {
      hide Good, Stuck, Matches, HeadsFor, Finish, Invoke, DetailOf, Resume, Recorded, React;
      hide PostgresArtefactStore.Valid, PostgresArtefactStore.Confined;
      DecisionHeads(StateOf(run), v, decision, comments);
      RecordDecision(run, decision, comments);
      r := Drive(run, agents, React(v, decision));
    }

    lemma WaitingIsAtGate(g: State, v: Verdict)
      requires (Stuck(g) || Matches(g, v)) && g.view.status == WaitingForReview
      ensures v.StillWaiting? && IsGate(g.next) && Matches(g, v)
    {
      hide Counted;
    }

    lemma DecisionHeads(g: State, v: Verdict, d: Decision, comments: string)
      requires Good(g) && v.StillWaiting? && Matches(g, v) && IsGate(g.next)
      ensures var h := Resume(Recorded(g, d), d, comments); Good(h) && HeadsFor(h, React(v, d))
    {
      hide Coherent, Packaged, Rooted, Counted;
      ResumeGood(g, d, comments);
      DecisionCounts(g, v.p, d, comments);
    }

    /** Records the review, sets the run RUNNING, and resumes the graph with the decision. */
    method RecordDecision(run: Uuid, decision: Decision, comments: string)
      requires Consistent() && run in threads && IsGate(threads[run].next)
      modifies this`threads, store
      ensures Consistent() && OnlyTouches(run)
      ensures StateOf(run) == old(Resume(Recorded(StateOf(run), decision), decision, comments))
    {
      hide Good, PostgresArtefactStore.Valid, PostgresArtefactStore.Confined;
      ResumeGood(StateOf(run), decision, comments);
      var Thread(gate, cp) := threads[run];
      var _ := store.RecordReview(run, decision, CurrentPtr(cp));
      var _ := store.UpdateRunStatus(run, Running);
      threads := threads[run := Thread(Route(gate, decision),
        cp.(decision := Some(decision), feedback := if decision == RequestRevisions then Some(comments) else None))];
      OthersStayGood(run);
    }

    /** GET /runs/{id}. */
    method GetRunDetail(run: Uuid) returns (r: Result<RunDetail, RunnerError>)
      requires Valid()
      ensures r == if run in threads then Ok(DetailOf(StateOf(run))) else Err(RunNotFound)
    {
      hide Good, DetailOf, PostgresArtefactStore.Valid, PostgresArtefactStore.Confined;
      if run !in threads {
        return Err(RunNotFound);
      }
      var detail := BuildDetail(run);
      r := Ok(detail);
    }

    // ----- export -----

    /** The `latest_by_id` dictionary. */
    static function LatestById(refs: seq<Ref>): map<Uuid, Ref> {
      if refs == [] then
        map[]
      else
        var n := |refs| - 1;
        var before := LatestById(refs[..n]);
        var ref := refs[n];
        if ref.id !in before || ref.version > before[ref.id].version then before[ref.id := ref] else before
    }

    method PickLatest(refs: seq<Ref>) returns (latest: map<Uuid, Ref>, order: seq<Uuid>)
      ensures latest == LatestById(refs) && forall id :: id in order <==> id in latest
    {
      latest, order := map[], [];
      for i := 0 to |refs|
        invariant latest == LatestById(refs[..i]) && forall id :: id in order <==> id in latest
      {
        assert refs[..i + 1][..i] == refs[..i];
        var ref := refs[i];
        if ref.id !in latest {
          latest, order := latest[ref.id := ref], order + [ref.id];
        } else if ref.version > latest[ref.id].version {
          latest := latest[ref.id := ref];
        }
      }
      assert refs[..|refs|] == refs;
    }

    static lemma {:induction false} LatestByIdIsHighest(refs: seq<Ref>, id: Uuid)
      ensures id in LatestById(refs) <==> exists r :: r in refs && r.id == id
      ensures id in LatestById(refs) ==>
        && LatestById(refs)[id] in refs && LatestById(refs)[id].id == id
        && forall r :: r in refs && r.id == id ==> r.version <= LatestById(refs)[id].version
    {
      if refs != [] {
        var n := |refs| - 1;
        LatestByIdIsHighest(refs[..n], id);
        assert forall r :: r in refs <==> r in refs[..n] || r == refs[n];
      }
    }

    /** Every reference listed is some row's, so the type it names has rows. */
    static lemma RefHasRow(v: RunView, ref: Ref)
      requires ref in Refs(v.rows)
      ensures exists row :: row in v.rows && row.ToRef() == ref && row in OfKind(v.rows, ref.kind)
    {
      OfKindMembers(v.rows, ref.kind);
      var i :| 0 <= i < |v.rows| && Refs(v.rows)[i] == ref;
      assert v.rows[i] in v.rows && v.rows[i].ToRef() == ref;
    }

    static lemma RowHasRef(v: RunView, k: Kind, row: Row)
      requires row in OfKind(v.rows, k)
      ensures row.ToRef() in Refs(v.rows) && row.kind == k
    {
      OfKindMembers(v.rows, k);
      var j :| 0 <= j < |v.rows| && v.rows[j] == row;
      assert Refs(v.rows)[j] in Refs(v.rows);
    }

    /** Per id the newest reference is the newest of its type, and its row is found. */
    static lemma LatestByIdIsNewest(v: RunView, minted: Uuid, id: Uuid)
      requires Dense(v.rows, minted) && id in LatestById(Refs(v.rows))
      ensures var ref := LatestById(Refs(v.rows))[id]; var own := OfKind(v.rows, ref.kind);
        own != [] && ref == own[|own| - 1].ToRef() && ReadRow(v, ref.id, Some(ref.version)) == Some(own[|own| - 1])
    {
      hide OfKind, LatestById, Refs, ReadRow;
      LatestByIdIsHighest(Refs(v.rows), id);
      var ref := LatestById(Refs(v.rows))[id];
      var own := OfKind(v.rows, ref.kind);
      RefHasRow(v, ref);
      RowHasRef(v, ref.kind, own[|own| - 1]);
      ReadVersion(v, minted, ref.kind, |own|);
    }

    /** Each type's newest row is the one its id is exported under. */
    static lemma NewestHasId(v: RunView, minted: Uuid, k: Kind)
      requires Dense(v.rows, minted) && OfKind(v.rows, k) != []
      ensures var row := OfKind(v.rows, k)[|OfKind(v.rows, k)| - 1];
        row.id in LatestById(Refs(v.rows)) && LatestById(Refs(v.rows))[row.id].kind == k
    {
      hide Dense, OfKind, LatestById, Refs;
      var own := OfKind(v.rows, k);
      var row := own[|own| - 1];
      RowHasRef(v, k, row);
      LatestByIdIsHighest(Refs(v.rows), row.id);
      RefHasRow(v, LatestById(Refs(v.rows))[row.id]);
      OneKindPerId(v.rows, minted);
      OfKindMembers(v.rows, k);
    }

    static lemma OneKindPerId(rows: seq<Row>, minted: Uuid)
      requires Dense(rows, minted)
      ensures forall r, q :: r in rows && q in rows && r.id == q.id ==> r.kind == q.kind
    {
      hide OfKind;
    }

    /** One newest row per id, as export_run reads them. */
    method FetchNewest(run: Uuid) returns (artefacts: seq<Row>)
      requires Ready(run)
      ensures Indexed(artefacts) == Export.NewestIndex(store.View(run).rows)
    {
      hide Good, OfKind, LatestById, Own, Items, Find, Indexed, Export.NewestIndex;
      hide PostgresArtefactStore.Valid, PostgresArtefactStore.Confined;
      var listed := store.ListArtefactsForRun(run);
      var latest, order := PickLatest(listed.value);
      ghost var v := store.View(run);
      ReadyDense(run);
      artefacts := [];
      for i := 0 to |order|
        invariant |artefacts| == i
        invariant forall j :: 0 <= j < i ==>
          var own := OfKind(v.rows, latest[order[j]].kind);
          && own != [] && artefacts[j] == own[|own| - 1]
          && artefacts[j].id == order[j] && artefacts[j].kind == latest[order[j]].kind
      {
        assert order[i] in order;
        var ref := latest[order[i]];
        LatestByIdIsNewest(v, store.minted, order[i]);
        LatestByIdIsHighest(Refs(v.rows), order[i]);
        OwnsNewest(run, ref.kind);
        ReadsOwn(run, ref.id, Some(ref.version));
        var found := store.GetArtefact(ref.id, Some(ref.version));
        artefacts := artefacts + [found.value];
      }
      FetchedIsIndex(v, store.minted, order, artefacts);
    }

    lemma ReadyDense(run: Uuid)
      requires Ready(run)
      ensures run in store.runs && Dense(store.View(run).rows, store.minted)
    {
      hide Faithful, EveryCommit, Dense, Typed, Pointers, Stocked, UnderReview, Packaged, Rooted;
      hide PostgresArtefactStore.Valid, PostgresArtefactStore.Confined;
    }

    lemma OwnsNewest(run: Uuid, kind: Kind)
      requires run in store.runs && OfKind(store.View(run).rows, kind) != []
      ensures var own := OfKind(store.View(run).rows, kind); (run, own[|own| - 1]) in store.artefacts
    {
      var own := OfKind(store.View(run).rows, kind);
      OfKindMembers(store.View(run).rows, kind);
      assert own[|own| - 1] in own;
      OwnMembers(store.artefacts, run, own[|own| - 1]);
    }

    ghost static predicate FetchedNewest(v: RunView, latest: map<Uuid, Ref>, order: seq<Uuid>, artefacts: seq<Row>) {
      && |artefacts| == |order| && (forall id :: id in order <==> id in latest)
      && forall j :: 0 <= j < |order| ==>
           var own := OfKind(v.rows, latest[order[j]].kind);
           && own != [] && artefacts[j] == own[|own| - 1]
           && artefacts[j].id == order[j] && artefacts[j].kind == latest[order[j]].kind
    }

    /** Every type that has rows is among the fetched ones. */
    static lemma FetchedCovers(v: RunView, minted: Uuid, order: seq<Uuid>, artefacts: seq<Row>, k: Kind)
      requires Dense(v.rows, minted) && OfKind(v.rows, k) != []
      requires FetchedNewest(v, LatestById(Refs(v.rows)), order, artefacts)
      ensures exists row :: row in artefacts && row.kind == k
    {
      hide Dense, OfKind, LatestById;
      NewestHasId(v, minted, k);
      var id := OfKind(v.rows, k)[|OfKind(v.rows, k)| - 1].id;
      var j :| 0 <= j < |order| && order[j] == id;
      assert artefacts[j] in artefacts;
    }

    static lemma FetchedKind(v: RunView, minted: Uuid, order: seq<Uuid>, artefacts: seq<Row>, k: Kind)
      requires Dense(v.rows, minted)
      requires FetchedNewest(v, LatestById(Refs(v.rows)), order, artefacts)
      ensures k in Indexed(artefacts) <==> OfKind(v.rows, k) != []
      ensures k in Indexed(artefacts) ==> Indexed(artefacts)[k] == OfKind(v.rows, k)[|OfKind(v.rows, k)| - 1]
    {
      hide Dense, OfKind, LatestById, Indexed;
      IndexedIsHighest(artefacts, k);
      if k in Indexed(artefacts) {
        var j :| 0 <= j < |artefacts| && artefacts[j] == Indexed(artefacts)[k];
        assert artefacts[j].kind == k;
      } else if OfKind(v.rows, k) != [] {
        FetchedCovers(v, minted, order, artefacts, k);
      }
    }

    static lemma FetchedIsIndex(v: RunView, minted: Uuid, order: seq<Uuid>, artefacts: seq<Row>)
      requires Dense(v.rows, minted)
      requires FetchedNewest(v, LatestById(Refs(v.rows)), order, artefacts)
      ensures Indexed(artefacts) == Export.NewestIndex(v.rows)
    {
      hide Dense, OfKind, LatestById, Indexed, FetchedNewest;
      forall k
        ensures k in Indexed(artefacts) <==> k in Export.NewestIndex(v.rows)
        ensures k in Indexed(artefacts) ==> Indexed(artefacts)[k] == Export.NewestIndex(v.rows)[k]
      {
        FetchedKind(v, minted, order, artefacts, k);
        AllKinds(k);
      }
    }

    static lemma AllKinds(k: Kind)
      ensures k in Export.KINDS
    {
    }

    lemma ExportableWhenApproved(run: Uuid)
      requires Valid() && run in threads
      ensures run in store.runs
      ensures Export.ExportOf(store.View(run), "databricks").Ok? <==> store.runs[run] == RunStatus.Approved
    {
      hide Good, Now, AcceptedDecisions, DecisionsOf, Stuck, Matches, Walk, Export.ExportOf;
      hide PostgresArtefactStore.Valid, PostgresArtefactStore.Confined;
      assert Follows(run);
      PlayedIsDecided(run);
      Export.ExportExactlyWhenApproved(StateOf(run), Walk(history[run]));
    }

    /** GET /runs/{id}/export. */
    method ExportRun(run: Uuid, platform: string) returns (r: Result<Manifest, ExportError>)
      requires Valid()
      ensures run !in threads ==> r == Err(NoSuchRun)
      ensures run in threads && run in store.runs ==>
        match Export.ExportOf(store.View(run), platform)
        case Ok(m) => r == Ok(m)
        case Err(e) => r == Err(Refused(e))
      ensures run in threads && platform == "databricks" ==>
        (r.Ok? <==> run in store.runs && store.runs[run] == RunStatus.Approved)
    {
      hide Good, Follows, Indexed, Platform, Export.NewestIndex, PostgresArtefactStore.Valid;
      hide PostgresArtefactStore.Confined;
      if run !in threads {
        return Err(NoSuchRun);
      }
      ExportableWhenApproved(run);
      var artefacts := FetchNewest(run);
      var result := ToPlatform(artefacts, platform);
      r := match result
        case Ok(m) => Ok(m)
        case Err(e) => Err(Refused(e));
    }
  }
}
