# Verification of the agentic data product workflow

A Dafny model of the durable workflow engine behind the data product builder, with proofs of what
it promises: the versioned, audited artefact store; the human-in-the-loop graph with its nineteen
nodes, five review gates and capped retry loop; the runner that drives it; the static pipeline
validator; the deterministic agents; and the export stub. Check it with `dafny verify dfyconfig.toml`.

## How it is built

| file | subject |
|---|---|
| `Domain.dfy` | artefact types, payloads, statuses, decisions, references |
| `SaveProtocol.dfy` | `save_artefact` as a protocol of any number of interleaved writers |
| `RunLog.dfy` | one run's rows, edges and audit events; each store transaction as a function; versions, lineage and log |
| `ArtefactStore.dfy` | the store as a class over tables shared by all runs |
| `PipelineValidation.dfy` | the validator, its depth-first search over mutable sets |
| `Discovery.dfy`, `Mapping.dfy`, `Modelling.dfy`, `Engineer.dfy`, `Governance.dfy` | discovery, proposal builder and judge, star schema, pipeline generator, governance merge |
| `Workflow.dfy` | every node, the routing, `ainvoke`, the status function and the two API calls, as specifications |
| `Coherence.dfy`, `Conservation.dfy`, `Lineage.dfy` | the invariants every node keeps |
| `Runs.dfy`, `RunTheorems.dfy`, `Sources.dfy`, `DeterministicRuns.dfy` | theorems about whole runs |
| `Contents.dfy` | what the stored rows of every run say: payloads, parents, edges, annotations, validation results |
| `Reviews.dfy` | the reviews in the audit log of every run |
| `DatabricksAdapter.dfy`, `Export.dfy` | selection, annotations and refusals of the export, and which runs can be exported |
| `HitlRunner.dfy` | the runner as a class: nodes, graph loop and API calls on the shared store, proved against `Workflow.dfy` |

A run is a start followed by any list of review calls, and its node boundaries are the moments between
calls and after any number of nodes of a call (`Run`, `Moment` and `At` in `Runs.dfy`). Each call brings
its own agents, which may answer anything the payload schemas admit or raise; other runs may take uuids
in between. Theorems quantify over all of that. The class `HitlRunner` keeps many runs on one store; its
invariant says between any two API calls that each run is what its start and its accepted calls lead to,
so every theorem about runs holds of every run it serves (`EveryRunIsPlayed`).

Three facts are worth knowing. A run started without a non-blank user id raises inside discovery as soon
as its technical requirement is approved and is left RUNNING for good; `StuckExactlyWithoutUser` shows
that nothing else leaves a run RUNNING when the agents answer. And each modelling revision appends
another copy of every star relationship: the set of relationships is stable, the list is not
(`RemodellingIsFixpoint`). And the builder joins orders to customers without looking for the join key and
checks a product join on the order side only. `JoinsCarryKeysExactly` says for which catalogues every
proposed join has its keys on both ends; the catalogue that ships is one (`ShippedJoinsCarryKeys`), a
hypothetical one is not (`CustomerJoinMayDangle`).

Assumptions: generated uuids are fresh (a counter); a query sees the rows committed when it starts; a
transaction writes all of its rows or none; the graph runs one node at a time, the keys a node returns
overwrite the checkpoint, an interrupt pauses it and resuming continues at that node; the checkpoint is
kept after each completed node. Catalogue and retry caps are parameters.

Many proofs `hide` the definitions they do not need, which keeps each of them small.

## Model

| member | source | states |
|---|---|---|
| `SaveProtocol.ConcurrentSavesAreDense` | src/agentic_data_product/persistence/store.py:282-324 | After any interleaving of any number of saves: each (run, type) holds versions exactly 1..n in commit order under one artefact id, no id serves two (run, type) pairs, and the audit events are the rows |
| `SaveProtocol.CommitIsAllOrNothing` | src/agentic_data_product/persistence/store.py:303-324 | A commit adds exactly its own row and its own event, or it conflicts and changes neither table; it conflicts exactly when another save took its version after it was read |
| `SaveProtocol.TakenExactlyWhenBehind` | src/agentic_data_product/persistence/store.py:421-433 | Over dense versions a version is taken if and only if it is at most the number of versions stored |
| `SaveProtocol.RowsAreTheSuccessfulSaves` | src/agentic_data_product/persistence/store.py:258-326 | In every reachable state rows and successful saves correspond one to one |
| `SaveProtocol.CommitKeepsInv` | src/agentic_data_product/persistence/store.py:282-324 | The heart of the safety proof: a commit keeps the invariant, because the version is read before the id |
| `SaveProtocol.ReaderOk` | src/agentic_data_product/persistence/store.py:421-447 | What a writer knows after its version read and after its id read; an id read once a version existed is the shared id |
| `SaveProtocol.RunsKeepInv` | src/agentic_data_product/persistence/store.py:258-326 | Both invariants hold in every state of every interleaving |
| `SaveProtocol.UninterruptedSaveIsOneTransaction` | src/agentic_data_product/persistence/store.py:258-326 | The four-step protocol, run without interference, is the single transaction RunLog.Save: same version, same id, one row, one event, no conflict |
| `RunLog.AutoVersionNeverConflicts` | src/agentic_data_product/persistence/store.py:282-297 | A save that lets the store pick the version succeeds whatever is stored, when nothing comes in between |
| `RunLog.SaveKeepsDense` | src/agentic_data_product/persistence/store.py:258-326 | A save as the graph makes it gets version n + 1 under the shared id, is the newest of its type, leaves the other types alone and keeps versions dense |
| `RunLog.LatestIsMaximal` | src/agentic_data_product/persistence/store.py:328-345 | The newest row of a type is the one and only row of maximal version |
| `RunLog.TransactionsFaithful` | src/agentic_data_product/persistence/store.py:162-171 | Each transaction keeps the audit log and the tables telling the same story |
| `RunLog.NoLineageCycle` | src/agentic_data_product/persistence/store.py:366-399 | An index whose edges all point from an earlier row to a later one has no lineage cycle |
| `RunLog.PathsMoveOn` | src/agentic_data_product/persistence/store.py:366-399 | A lineage path only moves towards later rows |
| `RunLog.SaveKeepsLogOk` | src/agentic_data_product/persistence/store.py:306-324 | A save keeps the log faithful, its every prefix well formed and versions dense |
| `RunLog.AddEdgeKeepsLogOk` | src/agentic_data_product/persistence/store.py:381-399 | So does an edge from an earlier to a later row |
| `RunLog.LinkKeepsLogOk` | src/agentic_data_product/orchestration/graph.py:374-414 | So does linking stored parents to the row just saved, at every commit on the way |
| `RunLog.LinkEffect` | src/agentic_data_product/orchestration/graph.py:588-598 | Linking adds exactly one edge per parent and touches nothing else |
| `ArtefactStore.PostgresArtefactStore.CreateRun` | src/agentic_data_product/persistence/store.py:147-176 | One new run with its status row and its RunCreated event, or a conflict; other runs untouched |
| `ArtefactStore.PostgresArtefactStore.UpdateRunStatus` | src/agentic_data_product/persistence/store.py:184-216 | Status and audit event change together, the event naming the former status; other runs untouched |
| `ArtefactStore.PostgresArtefactStore.RecordReview` | src/agentic_data_product/persistence/store.py:218-256 | One audit event and nothing else |
| `ArtefactStore.PostgresArtefactStore.SaveArtefact` | src/agentic_data_product/persistence/store.py:258-326 | Does to the view of its run exactly what RunLog.Save says, errors included (missing run, wrong payload, version below one, taken version), keeps the unique constraint and the faithful log, and leaves other runs alone |
| `ArtefactStore.PostgresArtefactStore.InsertIsSound` | src/agentic_data_product/persistence/store.py:303-320 | A row under a free version keeps the unique (run, type, version) constraint, the log, and the confinement of ids to one run |
| `ArtefactStore.PostgresArtefactStore.GetArtefact` | src/agentic_data_product/persistence/store.py:328-345 | Highest version of the id, the version asked for, or not found |
| `ArtefactStore.PostgresArtefactStore.CreateLineageEdge` | src/agentic_data_product/persistence/store.py:366-399 | One edge and its event, together |
| `ArtefactStore.MatchingOwn` | src/agentic_data_product/persistence/store.py:328-345 | A query by id over the shared table is a query over the one run that uses the id |
| `PipelineValidation.CycleSearch.Dfs` | src/agentic_data_product/agents/pipeline_validation.py:43-55 | The recursive search: reports a cycle only if there is one; otherwise `visiting` is back to the call path, `visited` has grown by the node, and finished nodes stand after their dependencies. Terminates because a node is entered at most once |
| `PipelineValidation.CycleSearch.Enter` | src/agentic_data_product/agents/pipeline_validation.py:48 | `visiting` stays exactly the current call path, which stays a walk |
| `PipelineValidation.CycleSearch.Leave` | src/agentic_data_product/agents/pipeline_validation.py:52-53 | The finishing order keeps dependencies first |
| `PipelineValidation.DetectCycle` | src/agentic_data_product/agents/pipeline_validation.py:56-60 | Reports a cycle if and only if some walk closes one, self-loops included; otherwise the finishing order is a topological order |
| `PipelineValidation.OrderedReachesNoCycle` | src/agentic_data_product/agents/pipeline_validation.py:38-55 | No node in an order with dependencies first, hence no visited node, reaches a cycle |
| `PipelineValidation.WalkMovesForward` | src/agentic_data_product/agents/pipeline_validation.py:38-55 | A walk from a node of such an order only moves to its front |
| `PipelineValidation.TopologicalMeansAcyclic` | src/agentic_data_product/agents/pipeline_validation.py:56-60 | A topological order rules every cycle out |
| `PipelineValidation.ClosesCycle` | src/agentic_data_product/agents/pipeline_validation.py:44-45 | Meeting a node of the call path closes a cycle |
| `PipelineValidation.GraphKeys` | src/agentic_data_product/agents/pipeline_validation.py:39 | The dependency dictionary has exactly the declared names; the last stage of a name wins |
| `PipelineValidation.GraphOfUnique` | src/agentic_data_product/agents/pipeline_validation.py:39 | With unique names it holds each stage's own dependencies |
| `PipelineValidation.StageFindingsClean` | src/agentic_data_product/agents/pipeline_validation.py:30-36 | A stage raises no finding if and only if each dependency names another declared stage |
| `PipelineValidation.DependencyFindingsClean` | src/agentic_data_product/agents/pipeline_validation.py:30-36 | The same for all stages |
| `PipelineValidation.FindingsFailCount` | src/agentic_data_product/agents/pipeline_validation.py:79-83 | The number of failures is the duplicate-name failure, the dependency findings and the cycle failure |
| `PipelineValidation.SchedulesAreTopological` | src/agentic_data_product/agents/pipeline_validation.py:38-60 | With unique names and known dependencies the schedules are exactly the topological orders of the dictionary |
| `PipelineValidation.AcyclicMeansTopological` | src/agentic_data_product/agents/pipeline_validation.py:38-60 | A dependency graph has no cycle if and only if it has a topological order; the order is built from nodes that become ready |
| `PipelineValidation.LastLinePassesExactlyWhenRunnable` | src/agentic_data_product/agents/pipeline_validation.py:79-83 | For every pipeline, without a witness: the last line passes if and only if there are stages and they can be scheduled |
| `PipelineValidation.ReportMeans` | src/agentic_data_product/agents/pipeline_validation.py:8-77 | A line stands in the report before the last one if and only if what it says is true: stage count, names, each unknown or self dependency, cycles, ingest and validate stages, rules, each advice under its own heading |
| `PipelineValidation.ClosingLineCounts` | src/agentic_data_product/agents/pipeline_validation.py:79-85 | The last line counts the failures before it and passes if and only if there is none |
| `PipelineValidation.PassesExactlyWhenRunnable` | src/agentic_data_product/agents/pipeline_validation.py:79-83 | The closing line passes if and only if names are unique, dependencies known and a schedule exists |
| `PipelineValidation.RunnablePasses` | src/agentic_data_product/agents/pipeline_validation.py:79-83 | Any pipeline with a schedule passes |
| `PipelineValidation.SelfDependencyIsCycle` | src/agentic_data_product/agents/pipeline_validation.py:43-55 | A stage depending on itself is a cycle |
| `PipelineValidation.AllDistinctMeansNoDuplicates` | src/agentic_data_product/agents/pipeline_validation.py:17-28 | Comparing the list length with the set size decides uniqueness |
| `PipelineValidation.ValidatePipelineSpecification` | src/agentic_data_product/agents/pipeline_validation.py:8-85 | Line by line the report, cycles judged by existence of a walk; for a non-empty pipeline the last line passes if and only if the stages can be scheduled |
| `GovernanceMerge.MergeGovernance` | src/agentic_data_product/adapters/databricks/adapter.py:42-71 | The merging loops compute Merge |
| `GovernanceMerge.MergeIsUnion` | src/agentic_data_product/adapters/databricks/adapter.py:42-71 | Each merged list is duplicate free and holds exactly what some item holds |
| `GovernanceMerge.DistinctKeepsFirstOrder` | src/agentic_data_product/adapters/databricks/adapter.py:53-66 | First-occurrence order: more input only extends the output at its end |
| `GovernanceMerge.DistinctElements` | src/agentic_data_product/adapters/databricks/adapter.py:53-66 | Deduplication keeps exactly the elements, each once |
| `GovernanceMerge.DistinctOfDistinct` | src/agentic_data_product/adapters/databricks/adapter.py:53-66 | Deduplicating a part first changes nothing |
| `GovernanceMerge.MergeGroups` | src/agentic_data_product/adapters/databricks/adapter.py:182-188 | Any group of items may be merged first |
| `GovernanceMerge.MergeAssociative` | src/agentic_data_product/adapters/databricks/adapter.py:42-71 | Merging is associative, `extra` and absent items included |
| `GovernanceMerge.LastExtraWins` | src/agentic_data_product/adapters/databricks/adapter.py:63 | Of several values for one `extra` key the one merged last stays |
| `GovernanceMerge.MembersAgain` | src/agentic_data_product/adapters/databricks/adapter.py:299-325 | Merging any members again with the bundle that holds them adds no entry and changes no `extra` value; nothing merged is nothing |
| `Discovery.DiscoveryIsExact` | src/agentic_data_product/integrations/discovery/service.py:19-47 | Discovery returns exactly the catalogue objects whose access list names the user and that the allow-list admits, in catalogue order |
| `Discovery.SelectTwice` | src/agentic_data_product/integrations/discovery/service.py:36-47 | Filtering by access list and then by allow-list is filtering by both |
| `Discovery.StripIsTrimming` | src/agentic_data_product/orchestration/mapping/subgraph.py:55-67 | Stripping cuts off exactly the white space at both ends |
| `Discovery.BlankMeansOnlySpace` | src/agentic_data_product/integrations/discovery/service.py:34-39 | Discovery refuses exactly the user ids made of white space |
| `Discovery.StripTwice` | src/agentic_data_product/orchestration/mapping/subgraph.py:55-67 | Stripping the user id in the node and again in the service is stripping it once |
| `Mapping.BuildMappingProposal` | src/agentic_data_product/orchestration/mapping/subgraph.py:97-165 | The proposal builder's loops compute Propose |
| `Mapping.ProposalIsClosed` | src/agentic_data_product/orchestration/mapping/subgraph.py:132-158 | Every relationship proposed relates two proposed entities |
| `Mapping.EntityMirrorsObject` | src/agentic_data_product/orchestration/mapping/subgraph.py:106-125 | A proposed entity carries exactly its object's columns; its key is the first of them |
| `Mapping.NotesTell` | src/agentic_data_product/orchestration/mapping/subgraph.py:153-158 | The notes carry the requirement's summary and the reviewer's comments, and nothing if there are neither |
| `Mapping.EntityIsObject` | src/agentic_data_product/orchestration/mapping/subgraph.py:106-125 | An entity bears its object's display name without spaces and its columns one by one: name, type, nullability |
| `Mapping.JoinsExactly` | src/agentic_data_product/orchestration/mapping/subgraph.py:127-151 | The joins proposed are the customer join if both entities are there, the product join if the orders carry its key and products are there, and no others |
| `Mapping.ProductJoinHasKey` | src/agentic_data_product/orchestration/mapping/subgraph.py:139-151 | A product join is proposed if and only if the order entity carries the key and products are there |
| `Mapping.CustomerJoinIsUnchecked` | src/agentic_data_product/orchestration/mapping/subgraph.py:129-138 | A customer join is proposed if and only if both entities are, whatever their columns |
| `Mapping.JoinsCarryKeysExactly` | src/agentic_data_product/orchestration/mapping/subgraph.py:127-151 | Every proposed join has its keys on both ends if and only if orders and customers, where both are there, both have the customer key, and products, where the orders have the product key, have it too |
| `Mapping.ShippedJoinsCarryKeys` | src/agentic_data_product/integrations/discovery/fixtures.py:38-106 | The catalogue that ships meets the condition whatever part of it a user sees, so every join proposed today has its keys on both ends |
| `Mapping.CustomerJoinMayDangle` | src/agentic_data_product/orchestration/mapping/subgraph.py:129-138 | A hypothetical catalogue, not the shipped one, for which the condition fails: two objects without columns are joined all the same |
| `Mapping.BlameAndCounters` | src/agentic_data_product/orchestration/mapping/judge.py:42-151 | Unsound sources blame the schema, missing entities the logic; the blamed counter grows within its cap or the judge escalates; the other never moves; forced issues follow the same rule |
| `Mapping.UnforcedPassIsSound` | src/agentic_data_product/orchestration/mapping/judge.py:94-151 | Without a hook the judge passes if and only if there is a source, every source was discovered, and there is an entity |
| `Mapping.JudgeLoopCounts` | src/agentic_data_product/orchestration/mapping/judge.py:42-151 | Counters stay within their caps and every judge run but the last spends exactly one retry |
| `Mapping.MappingLoopIsBounded` | src/agentic_data_product/orchestration/graph.py:752-764 | For any proposals and hooks the judge runs at most S + L + 1 times and 5 + 3 s + 2 l nodes run, s and l the retries used, at most 5 + 3 S + 2 L |
| `Mapping.MappingLoopBoundIsTight` | src/agentic_data_product/orchestration/mapping/judge.py:42-93 | The bound S + L + 1 is reached for every pair of caps |
| `Mapping.RealBuilderLoop` | src/agentic_data_product/orchestration/mapping/subgraph.py:187-234 | With the real builder a non-empty visible set passes at the first judgement, an empty one spends every schema retry and escalates |
| `Mapping.SliceKeepsProposal` | src/agentic_data_product/orchestration/mapping/subgraph.py:262-304 | A slice has all proposed entities or one placeholder, the relationships and sources as proposed, the notes extended by what the judge said, and the warning exactly when the judge gave up or that text was among the notes already |
| `Mapping.SliceIsClosed` | src/agentic_data_product/orchestration/mapping/subgraph.py:237-304 | A slice of the builder's proposal relates only entities it has, placeholder or not |
| `Mapping.ProposalToDataModel` | src/agentic_data_product/orchestration/mapping/subgraph.py:237-304 | The loop builds that slice: at least one entity, none dropped, relationships, sources and notes carried over, the escalation marked |
| `Sources.FromJudge` | src/agentic_data_product/orchestration/mapping/subgraph.py:187-234 | From the judge to the mapping gate the graph's routing does exactly what the judge loop computes |
| `Sources.MappingPhase` | src/agentic_data_product/orchestration/graph.py:752-764 | Any mapping phase with a user ends at the mapping gate within the caps after exactly 5 + 3 s + 2 l nodes |
| `Sources.RealMappingPhase` | src/agentic_data_product/orchestration/mapping/subgraph.py:187-234 | In any run, without assuming hooks off: a mapping phase takes five nodes and does not escalate if the user sees anything, otherwise 5 + 3 S nodes and escalation |
| `Sources.SliceAtGate` | src/agentic_data_product/orchestration/mapping/subgraph.py:237-385 | Whenever any run is at its mapping gate, the newest data model is made of exactly what its user sees: entities or the placeholder, the joins among them, their ids as sources, notes with the requirement and this call's comments; it is escalated if and only if the user sees nothing |
| `Sources.DataModelsReferToSeen` | src/agentic_data_product/orchestration/mapping/subgraph.py:322-355 | Every data model row of any run, slice or enriched by whatever agent, names exactly the visible objects as source references |
| `Sources.AlwaysMapped` | src/agentic_data_product/orchestration/mapping/subgraph.py:374-385 | No API call or node sets a test hook, and discovery and proposal are about the same visible objects throughout the phase |
| `Sources.MappingStartsOver` | src/agentic_data_product/orchestration/graph.py:286-296 | Approving the requirements and every mapping revision start such a phase with fresh counters |
| `Modelling.GenerateModellingDeterministic` | src/agentic_data_product/agents/modelling.py:38-156 | The loops compute Remodel; metrics and dimensions are those asked for or the defaults, each dimension has its entity and a relationship from the fact, nothing else is related but what the slice relates; context and annotations are the slice's, with the feedback noted |
| `Modelling.RemodelAgrees` | src/agentic_data_product/agents/modelling.py:38-156 | The same of Remodel, whatever the requirement, slice and feedback: semantic model, data model and requirement agree |
| `Modelling.PrimaryKeysAfterRound` | src/agentic_data_product/agents/modelling.py:105-139 | Every entity carries its primary key after a round if and only if it did before |
| `Modelling.StarAdds` | src/agentic_data_product/agents/modelling.py:105-139 | A round keeps every entity and adds only dimension entities and at most one fact entity, never under a taken name |
| `Modelling.StarKeysAfterRound` | src/agentic_data_product/agents/modelling.py:105-139 | After a round every star key is present if and only if no earlier entity bore a star name without its key |
| `Modelling.StarIsComplete` | src/agentic_data_product/agents/modelling.py:105-139 | Both ends of every star link exist after one round and a second round adds no entity |
| `Modelling.RemodellingIsFixpoint` | src/agentic_data_product/agents/modelling.py:87-155 | n rounds over any slice: entities fixed from round one, names distinct and keys present exactly if they were, nothing dangling that did not dangle, the relationship set stable and the list longer by one link per dimension and round |
| `Modelling.RemodelledIsFixpoint` | src/agentic_data_product/orchestration/graph.py:314-373 | The same for the agent run on its own output with any feedback, and exactly when it raises; source ids are kept |
| `Engineer.GeneratedPipelinePasses` | src/agentic_data_product/agents/engineer.py:24-99 | Whatever the data model, the generated pipeline has one schedule, its own order, and the validator passes it |
| `Engineer.ChainHasOneSchedule` | src/agentic_data_product/agents/engineer.py:36-71 | A chain of distinctly named stages has exactly one schedule |
| `Engineer.StagesChain` | src/agentic_data_product/agents/engineer.py:36-71 | However the generated pipeline is scheduled, each stage consumes exactly what the stage scheduled just before it produces |
| `Engineer.EveryLinePasses` | src/agentic_data_product/agents/engineer.py:24-99 | No line of the validator's report about it fails or warns |
| `Engineer.CuratesEntities` | src/agentic_data_product/agents/engineer.py:36-62 | It curates and then validates the first four entities, in their order |
| `Engineer.RulesCover` | src/agentic_data_product/agents/engineer.py:74-82 | Its rules name the first two required behaviours and the feedback |
| `Workflow.StepMakesProgress` | src/agentic_data_product/orchestration/graph.py:714-808 | Every node moves along the graph or spends a retry, so the graph always pauses |
| `Workflow.InvokeIsAfter` | src/agentic_data_product/orchestration/graph.py:811-815 | Running until the graph pauses is running that many nodes, so the node boundaries cover every call |
| `Coherence.StepCoherent` | src/agentic_data_product/orchestration/graph.py:95-711 | Each of the nineteen nodes keeps the invariant: every checkpoint pointer, and the review pointer, is the store's newest (id, version) of its type; payloads and artefacts a later node needs exist; the log is consistent |
| `Coherence.InvokeCoherent` | src/agentic_data_product/orchestration/graph.py:714-808 | So it holds wherever the graph pauses or raises |
| `Coherence.ModelCoherent` | src/agentic_data_product/orchestration/graph.py:353-438 | The modelling node with its two saves and five edges keeps it |
| `Coherence.ApproveCoherent` | src/agentic_data_product/orchestration/graph.py:654-706 | So does the approval, whose package version the pointers follow; it cannot raise |
| `Coherence.WhatCanRaise` | src/agentic_data_product/orchestration/graph.py:136-615 | A coherent run raises only in discovery without a user or because its agent raised; never for a missing row, payload or pin |
| `Coherence.MappingIsLatest` | src/agentic_data_product/orchestration/graph.py:314-321 | The slice that modelling reads is the newest data model |
| `Coherence.PackageIsLatest` | src/agentic_data_product/orchestration/graph.py:663-669 | The package that the approval reads is the newest one |
| `Coherence.ReadVersion` | src/agentic_data_product/persistence/store.py:328-345 | Reading by id and version finds exactly that version of the type |
| `Coherence.ReadLatest` | src/agentic_data_product/persistence/store.py:328-345 | Reading by id alone finds the newest version |
| `Conservation.StepConserves` | src/agentic_data_product/orchestration/graph.py:95-711 | Stored plus pending rows of each type, stored plus pending edges, the destination and the status are the same before and after every node |
| `Conservation.InvokeConserves` | src/agentic_data_product/orchestration/graph.py:714-808 | The same from resuming to pausing |
| `Conservation.DecisionCounts` | src/agentic_data_product/orchestration/graph.py:234-245 | A decision adds to the pending work exactly what it adds to the totals that the decisions account for |
| `Lineage.StepPackaged` | src/agentic_data_product/orchestration/graph.py:524-703 | Every node keeps: all package versions pin the six current references and only the last one of an approved run is marked approved |
| `Lineage.StepRooted` | src/agentic_data_product/orchestration/graph.py:588-598 | Every node keeps: every row but the business requirement and the approval descends from the business requirement |
| `Runs.RunsFollowDecisions` | src/agentic_data_product/orchestration/runner.py:136-201 | After any calls a run is at the place its decisions say with the rows and edges they imply, or stuck at a node that raised |
| `Runs.WaitingLanguage` | src/agentic_data_product/orchestration/graph.py:740-807 | A run waits at gate k + 1 exactly after (revise* approve)^k revise* |
| `Runs.ApprovedLanguage` | src/agentic_data_product/orchestration/graph.py:640-651 | The accepted decision sequences that end approved are exactly (revise* approve)^5 |
| `Runs.TerminatedLanguage` | src/agentic_data_product/orchestration/graph.py:709-711 | Those that end terminated are exactly (revise* approve)^k revise* reject with k < 5 |
| `Runs.OnlyDiscoveryRaises` | src/agentic_data_product/orchestration/mapping/subgraph.py:55-67 | With agents that answer, a node raises if and only if it is discovery and the user id is blank |
| `Runs.AlwaysGood` | src/agentic_data_product/orchestration/runner.py:87-174 | All invariants hold at every node boundary of every run: between calls and after any number of nodes of a call |
| `Runs.Always` | src/agentic_data_product/orchestration/runner.py:87-174 | Induction over runs: what every node, accepted decision, status update and the passing of time keep holds at every node boundary |
| `RunTheorems.AnyRun` | src/agentic_data_product/orchestration/runner.py:87-201 | Any start and any calls lead to a consistent run that is stuck or exactly where its decisions say |
| `RunTheorems.StatusFollowsCheckpoint` | src/agentic_data_product/orchestration/runner.py:176-201 | Unless stuck, the stored status is the function of the checkpoint and one of waiting, approved, terminated |
| `RunTheorems.FinalStaysFinal` | src/agentic_data_product/orchestration/runner.py:136-146 | A run that does not wait keeps checkpoint, rows, edges, log and status through any further calls |
| `RunTheorems.StuckExactlyWithoutUser` | src/agentic_data_product/orchestration/runner.py:105-128 | With agents that answer, a run is left RUNNING if and only if it was started with a blank or absent user id and its first gate was approved |
| `RunTheorems.ApprovedRunTotals` | src/agentic_data_product/orchestration/graph.py:361-691 | A run whose decisions are r1..r5 revisions and an approval at each gate, if no node raised, is approved with 1, 1 + r1, 2 + r2 + r3, 1 + r3, 1, 1 + r4, 2 + r5 versions of the seven types and 17 + r1 + r2 + 5 r3 + 2 r4 + 6 r5 edges |
| `RunTheorems.PointersAreAlwaysLatest` | src/agentic_data_product/orchestration/graph.py:200-209 | At every node boundary of every run each checkpoint pointer and the review pointer are the newest (id, version) of their type |
| `RunTheorems.PackagesPinNewest` | src/agentic_data_product/orchestration/graph.py:524-598 | At every node boundary of every run every version of the review package pins, as payload and as parents, exactly the six newest versions the store holds |
| `RunTheorems.LineageAcyclicAtEveryCommit` | src/agentic_data_product/orchestration/graph.py:374-414 | Wherever execution of any run stops between two transactions lineage has no cycle |
| `RunTheorems.EdgeEndsExistAtEveryCommit` | src/agentic_data_product/persistence/store.py:366-399 | And both ends of every edge are stored by then |
| `RunTheorems.LogRebuildsRun` | src/agentic_data_product/persistence/store.py:306-319 | At every node boundary of every run, folding the audit events rebuilds status, artefact index and edges, and each status event names the status left by the one before it |
| `RunTheorems.EverythingDescendsFromRequirement` | src/agentic_data_product/orchestration/graph.py:588-691 | At every node boundary of every run, stuck ones included, a row is reachable from business requirement version 1 if and only if it is not the approved package version |
| `RunTheorems.PendingIsLatest` | src/agentic_data_product/orchestration/runner.py:203-241 | Whenever any run waits it is at a gate, and the artefact under review equals the latest artefact and is the newest of the gate's type |
| `RunTheorems.BestOfKindIsHighest` | src/agentic_data_product/orchestration/runner.py:215-218 | The maximum over the listed references is the highest row of the type |
| `RunTheorems.FeedbackIsThisCalls` | src/agentic_data_product/orchestration/graph.py:222-231 | At every node of an accepted review call of any run the agents see this call's comments if it asks for revisions and no feedback otherwise |
| `RunTheorems.NoFeedbackAtStart` | src/agentic_data_product/orchestration/graph.py:125-133 | First drafts are generated without feedback |
| `RunTheorems.DetailTells` | src/agentic_data_product/orchestration/runner.py:176-241 | After any calls the detail tells the stored status, something pending if and only if the run waits, and as latest artefact the newest of the type last put under review, for an approved run its package; before any review the reference that ranks highest |
| `RunTheorems.BestOfAllIsTop` | src/agentic_data_product/orchestration/runner.py:219-220 | The fallback maximum is a listed reference that none outranks by type name and version |
| `Contents.PayloadsAreStored` | src/agentic_data_product/orchestration/graph.py:200-209 | At every node boundary of every run, with any agents: the business requirement, requirement, semantic model, data model and pipeline that the checkpoint hands on are the payloads of the newest stored rows of their types, present as soon as such a row is |
| `Contents.RequirementIsAskedFor` | src/agentic_data_product/orchestration/graph.py:95-133 | The stored business requirement is the seed if one was given, else it bears the title given or the default one |
| `Contents.RequirementIsAnswer` | src/agentic_data_product/orchestration/graph.py:136-209 | The requirements agent is asked about the newest stored business requirement with this call's feedback; its answer becomes the newest requirement, or the node raises |
| `Contents.ModelsAreAnswer` | src/agentic_data_product/orchestration/graph.py:299-438 | The modelling agent is asked about the newest stored requirement and data model; its answers become the newest data model and semantic model |
| `Contents.PipelineIsAnswer` | src/agentic_data_product/orchestration/implementation/subgraph.py:41-119 | The engineer is asked about the newest stored requirement and models; its answer becomes the newest pipeline |
| `Contents.MetricsAreAnswer` | src/agentic_data_product/orchestration/implementation/subgraph.py:142-224 | The metrics agent is asked about the newest stored semantic model and requirement; its answer becomes the newest metrics |
| `Contents.PackagesCarryReports` | src/agentic_data_product/orchestration/graph.py:524-583 | At every node boundary of every run every review package version, the approved one included, carries the validator's report about the stored pipeline row it pins; its last line passes if and only if that pipeline can be run |
| `Contents.ParentsWereNewest` | src/agentic_data_product/orchestration/graph.py:186-598 | Every row of every run names as parents the versions of the right types that were newest when it was saved |
| `Contents.EdgesAreParents` | src/agentic_data_product/orchestration/graph.py:374-414 | An edge is in the lineage of a run if and only if it leads from a parent of a row, the approval excepted, to that row |
| `Contents.AnnotationsAreKept` | src/agentic_data_product/orchestration/mapping/subgraph.py:339-356 | Every stored data model row carries the annotations of its payload and no other row has any |
| `Reviews.ReviewsAreRecorded` | src/agentic_data_product/orchestration/runner.py:136-163 | At every node boundary of every run the review events of the audit log are, in order, one per accepted call, each with the decision given and the newest version of the type its gate reviews |
| `Reviews.DecisionsAreRecorded` | src/agentic_data_product/persistence/store.py:218-256 | So the decisions in the log are exactly the accepted decisions |
| `Reviews.FinishAddsNoReview` | src/agentic_data_product/orchestration/runner.py:165-199 | Resuming the graph and syncing the status add no review event |
| `Reviews.DecisionAddsReview` | src/agentic_data_product/orchestration/runner.py:146-163 | An accepted decision adds exactly itself, about the artefact under review |
| `Reviews.StoryGoesOn` | src/agentic_data_product/orchestration/runner.py:136-174 | A run with one more accepted call is the run taken on by apply_review, its accepted decisions longer by this one |
| `DeterministicRuns.StepSourced` | src/agentic_data_product/orchestration/mapping/subgraph.py:97-165 | With the deterministic agents every node passes the visible source ids on unchanged and keeps the data model a slice, then a star schema, over the visible objects |
| `DeterministicRuns.PipelineIngestsVisible` | src/agentic_data_product/agents/engineer.py:32-43 | Through any revisions the stored pipeline ingests exactly the objects visible to the user, in catalogue order, or the placeholder |
| `DeterministicRuns.DataModelIsStar` | src/agentic_data_product/agents/modelling.py:87-155 | After modelling, the newest data model of any run is the star schema that the newest stored requirement asks for over the visible objects; nothing dangles, and names and keys are sound if and only if those objects' are |
| `DeterministicRuns.SemanticModelAgrees` | src/agentic_data_product/agents/modelling.py:45-141 | After modelling, the newest stored semantic model names the measures and dimensions of the newest stored requirement, and the newest data model realises exactly those on top of the joins among visible objects |
| `DeterministicRuns.DataModelKeepsAnnotations` | src/agentic_data_product/agents/modelling.py:90-97 | The newest data model of any run, slice or star, still says that it is derived from visible objects only |
| `DatabricksAdapter.IndexByType` | src/agentic_data_product/adapters/databricks/adapter.py:79-88 | The loop computes Indexed |
| `DatabricksAdapter.IndexedIsHighest` | src/agentic_data_product/adapters/databricks/adapter.py:79-88 | Each type present is indexed once, under an artefact of highest version |
| `DatabricksAdapter.NothingMissing` | src/agentic_data_product/adapters/databricks/adapter.py:166-180 | Nothing is missing if and only if every exportable type is indexed |
| `DatabricksAdapter.ToPlatform` | src/agentic_data_product/adapters/databricks/adapter.py:155-222 | Computes Platform; refused for the platform, then for want of approval, then for exactly the types that are missing; otherwise bundle, job, tables and metric view carry exactly what the five selected artefacts are annotated with |
| `DatabricksAdapter.PlatformRefuses` | src/agentic_data_product/adapters/databricks/adapter.py:160-180 | The same of Platform |
| `DatabricksAdapter.ManifestCarries` | src/agentic_data_product/adapters/databricks/adapter.py:182-188 | A label, classification, note or `extra` key is in the bundle, and on each asset, if and only if one of the five selected artefacts has it; nothing is attached if none is annotated |
| `DatabricksAdapter.DataModelAnnotates` | src/agentic_data_product/adapters/databricks/adapter.py:182-188 | Where only the data model is annotated, bundle and assets are annotated as it is, `extra` values included |
| `DatabricksAdapter.AssetsCarryTheBundle` | src/agentic_data_product/adapters/databricks/adapter.py:299-325 | Job, tables and metric view each carry exactly the bundle's annotations |
| `Export.ExportAfterAnyCalls` | src/agentic_data_product/orchestration/runner.py:273-304 | After any start and any calls export succeeds if and only if the run is approved |
| `Export.ExportExactlyWhenApproved` | src/agentic_data_product/adapters/databricks/adapter.py:91-108 | The same from the invariants alone |
| `Export.ExportListsPins` | src/agentic_data_product/adapters/databricks/adapter.py:189-222 | Whenever any run can be exported, the references listed for data model, semantic model, pipeline and metrics are exactly those the approved package pins |
| `Export.ExportCarriesAnnotations` | src/agentic_data_product/adapters/databricks/adapter.py:182-222 | Whenever any run can be exported, bundle and assets carry exactly the annotations of its newest rows, which are those of its newest data model |
| `Export.ExportKeepsAccessNote` | src/agentic_data_product/adapters/databricks/adapter.py:299-328 | With the deterministic agents everything exported carries the data model's access note |
| `Export.ExportRefusals` | src/agentic_data_product/adapters/databricks/adapter.py:160-180 | After any calls a refused export is refused for its platform or, on the right one, for want of approval; an approved run is never refused for a missing artefact |
| `HitlRunner.HitlRunner.SaveLinked` | src/agentic_data_product/orchestration/graph.py:374-414 | Saving and then linking each parent in a loop is Workflow.Derive on the run's view |
| `HitlRunner.HitlRunner.GenerateTechnicalRequirement` | src/agentic_data_product/orchestration/graph.py:136-209 | The node does to its run what GenerateTrStep says, or raises exactly when the agent does; `Contents.RequirementIsAnswer` says what that means |
| `HitlRunner.HitlRunner.EnsureBusinessRequirement` | src/agentic_data_product/orchestration/graph.py:95-133 | Intake requirement saved, counters reset, no edge |
| `HitlRunner.HitlRunner.ResetMappingRetries` | src/agentic_data_product/orchestration/graph.py:286-296 | Counters, notes and escalation cleared |
| `HitlRunner.HitlRunner.Discover` | src/agentic_data_product/orchestration/mapping/subgraph.py:74-94 | Raises exactly for a blank user, else stores what is visible |
| `HitlRunner.HitlRunner.MapSources` | src/agentic_data_product/orchestration/mapping/subgraph.py:168-184 | Stores the builder's proposal |
| `HitlRunner.HitlRunner.JudgeProposal` | src/agentic_data_product/orchestration/mapping/subgraph.py:187-234 | Stores verdict and counters and routes accordingly |
| `HitlRunner.HitlRunner.PersistSlice` | src/agentic_data_product/orchestration/mapping/subgraph.py:307-385 | Saves and links the slice, moves mapping and review pointers, clears the hooks |
| `HitlRunner.HitlRunner.GenerateModels` | src/agentic_data_product/orchestration/graph.py:299-438 | Both models saved under continued ids, the semantic one descending from the new data model version |
| `HitlRunner.HitlRunner.GeneratePipeline` | src/agentic_data_product/orchestration/implementation/subgraph.py:41-119 | Pipeline saved with its two parents |
| `HitlRunner.HitlRunner.ValidateStatically` | src/agentic_data_product/orchestration/implementation/subgraph.py:122-139 | The validator's report of the stored pipeline becomes the validation results |
| `HitlRunner.HitlRunner.GenerateMetrics` | src/agentic_data_product/orchestration/implementation/subgraph.py:142-224 | Metrics saved with their two parents and put under review |
| `HitlRunner.HitlRunner.AssembleReviewPackage` | src/agentic_data_product/orchestration/graph.py:515-615 | Package with every pointer that exists, in order, and the validation results; raises exactly when there is no pointer; `Contents.PackagesCarryReports` says what the results are |
| `HitlRunner.HitlRunner.ApprovePackage` | src/agentic_data_product/orchestration/graph.py:654-706 | One more package version, approved, with the former pins as parents and no edge; the pointers follow |
| `HitlRunner.HitlRunner.RunNode` | src/agentic_data_product/orchestration/graph.py:714-808 | Whichever node is next, it does its step to its own run and nothing to any other |
| `HitlRunner.HitlRunner.RunGraph` | src/agentic_data_product/orchestration/graph.py:811-815 | The loop over nodes computes Invoke and says whether a node raised |
| `HitlRunner.HitlRunner.SyncStatus` | src/agentic_data_product/orchestration/runner.py:176-199 | The status row follows the checkpoint and is written only when it differs |
| `HitlRunner.HitlRunner.BuildDetail` | src/agentic_data_product/orchestration/runner.py:203-241 | Status, artefact under review and latest artefact |
| `HitlRunner.HitlRunner.StartRun` | src/agentic_data_product/orchestration/runner.py:87-128 | A fresh run driven to its first pause; every other run keeps checkpoint and view; between calls each run is what its start and its accepted calls lead to |
| `HitlRunner.HitlRunner.ApplyReview` | src/agentic_data_product/orchestration/runner.py:136-174 | Refused without any change for an unknown run or one that does not wait; otherwise the decision is recorded, so that the decisions in the run's audit log are exactly those accepted, and the run does what the specification says, no other run changing |
| `HitlRunner.HitlRunner.LogTellsDecisions` | src/agentic_data_product/orchestration/runner.py:136-174 | Between any two API calls the audit log of every run records exactly its accepted decisions, in order |
| `HitlRunner.HitlRunner.EveryRunIsPlayed` | src/agentic_data_product/orchestration/runner.py:87-174 | Between any two API calls every run in service is some start and list of accepted calls played one after the other, so whatever is proved of all runs holds of it |
| `HitlRunner.HitlRunner.GetRunDetail` | src/agentic_data_product/orchestration/runner.py:130-134 | The detail of any known run, changing nothing |
| `HitlRunner.HitlRunner.PickLatest` | src/agentic_data_product/orchestration/runner.py:284-289 | The dictionary loop computes LatestById |
| `HitlRunner.HitlRunner.LatestByIdIsHighest` | src/agentic_data_product/orchestration/runner.py:284-289 | Each id listed is kept once, under a reference of highest version |
| `HitlRunner.HitlRunner.LatestByIdIsNewest` | src/agentic_data_product/orchestration/runner.py:284-291 | Per id that reference is the newest of its type, and its row is the one read |
| `HitlRunner.HitlRunner.FetchNewest` | src/agentic_data_product/orchestration/runner.py:282-291 | The rows read are, indexed by type, the newest of every type |
| `HitlRunner.HitlRunner.ExportRun` | src/agentic_data_product/orchestration/runner.py:273-304 | Unknown runs are refused; for the databricks platform the export succeeds if and only if the run is approved; the answer is the manifest or refusal computed from the newest rows |

## Left out

- Wording of validator lines, judge notes, review package titles, summaries, recommendations and metric or requirement texts; lines and notes are modelled by meaning, the recommendation list not at all.
- Timestamps and ordering by `created_at`: rows, edges and events are kept in insertion order, and listings are not sorted by type and version. The maxima taken over them do not depend on the order.
- LLM clients, prompts, completion parsing and fallback: agents are arbitrary functions into the payload types.
- HTTP routes, UI, settings, logging and connection pools.
- Concurrent reviews of one run: the status check and its update are not one atomic step, so reviews of one run are taken one at a time. Concurrency is modelled for `save_artefact` only.
- Runs created or changed through the `/dev` routes behind the runner's back; explicit versions and ids are covered by `SaveArtefact` and `Save` but no run theorem uses them.
- HitlRunner.HitlRunner.StartRun: assumes every run of the store was started by this runner (part of `Valid`).
- The framework's recursion limit, which a large retry cap could exceed before the mapping loop ends.
- The test hooks in the state are modelled in the judge and builder; the API cannot set them, so they matter only to the theorems about a single phase, and `Sources.AlwaysMapped` shows that they are off in every run.
- Actor, reviewer, comments and details inside audit events; the relationship label of edges; titles and metadata of runs; the feedback text repeated in the pending review.
- Length limits of strings and lists in the schemas, except that a data model has an entity, a review package a pin, and dimension and measure names are not empty.
- The first line of the discovery docstring says the allow-list is an alternative to the access list; the code and the rest of the docstring intersect the two, and so does the model.
- Lower-casing of dimension names covers ASCII letters only; no theorem depends on how names are lowered. Stripping removes the characters that Python's `str.strip` removes.
- RunLog.SaveKeepsDense: the id query without an order is modelled as the first row here; `SaveProtocol` lets any row answer and shows that all agree.
- Governance beyond the merge rule: nodes other than mapping and modelling store none.
- Descriptions of semantic relationships and business definitions; the semantic model keeps its measures and dimensions.
- Asset bodies, notebooks and the YAML writer of the adapter: string formatting that is not injective.
- SQL migrations.
