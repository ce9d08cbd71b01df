/** The deterministic engineer agent: a linear four-stage pipeline over the data model. */
module Engineer {
  import opened Domain
  import opened PipelineValidation

  const PLACEHOLDER_SOURCE := "approved_source_catalogue"

  function Curated(entities: seq<Entity>): seq<string> {
    var n := if |entities| < 4 then |entities| else 4;
    if n == 0 then ["curated.FactOrder"] else seq(n, i requires 0 <= i < n => "curated." + entities[i].name)
  }

  function IngestInputs(sourceIds: seq<string>): seq<string> {
    if sourceIds == [] then [PLACEHOLDER_SOURCE] else sourceIds
  }

  function Rules(tr: TechnicalRequirementPayload, feedback: Option<string>): seq<string> {
    var behaviours := if |tr.behaviours| < 2 then tr.behaviours else tr.behaviours[..2];
    ["primary keys non-null", "foreign keys resolve", "measures match metrics"]
    + seq(|behaviours|, i requires 0 <= i < |behaviours| => "Cover behaviour: " + behaviours[i])
    + if feedback.Some? && feedback.value != "" then ["Incorporate reviewer feedback: " + feedback.value] else []
  }

  function GeneratePipeline(tr: TechnicalRequirementPayload, dm: DataModelPayload, feedback: Option<string>)
    : PipelinePayload
  {
    PipelinePayload(
      [Stage("ingest_sources", Ingest, IngestInputs(dm.context.sourceIds), ["staging.raw_sales"], []),
       Stage("transform_star_schema", Transform, ["staging.raw_sales"], Curated(dm.entities), ["ingest_sources"]),
       Stage("validate_quality", StageKind.Validate, Curated(dm.entities), ["validated.star_schema"],
             ["transform_star_schema"]),
       Stage("publish_semantic", Publish, ["validated.star_schema"], ["publish.semantic_ready"], ["validate_quality"])],
      Rules(tr, feedback))
  }

  /** Each stage depends on the one before it, the first on none. */
  ghost predicate Chain(stages: seq<Stage>) {
    && (stages != [] ==> stages[0].dependencies == [])
    && forall i :: 0 < i < |stages| ==> stages[i].dependencies == [stages[i - 1].name]
  }

  lemma NamesDeclared(stages: seq<Stage>)
    ensures forall n :: n in NamesOf(stages) <==> Declared(stages, n)
  {
    forall n | n in NamesOf(stages)
      ensures Declared(stages, n)
    {
      var i :| 0 <= i < |stages| && NamesOf(stages)[i] == n;
      assert stages[i] in stages;
    }
    forall n | Declared(stages, n)
      ensures n in NamesOf(stages)
    {
      var s :| s in stages && s.name == n;
      var i :| 0 <= i < |stages| && stages[i] == s;
      assert NamesOf(stages)[i] == n;
    }
  }

  /** After a common prefix the next entry of one list cannot come from elsewhere in the other,
      if what precedes it there has already been listed. */
  lemma NextInChain(names: seq<string>, order: seq<string>, n: nat, j: nat)
    requires NoDuplicates(names) && NoDuplicates(order)
    requires n < |order| && n <= |names| && order[..n] == names[..n]
    requires j < |names| && names[j] == order[n] && (j > 0 ==> names[j - 1] in order[..n])
    ensures j == n
  {
    assert forall k :: 0 <= k < n ==> order[..n][k] == order[k] && names[..n][k] == names[k];
  }

  /** An entry of a schedule is some stage's name, and the chain's stage before it comes earlier. */
  lemma ScheduledAfter(stages: seq<Stage>, order: seq<string>, n: nat) returns (j: nat)
    requires Chain(stages) && Schedule(stages, order) && n < |order|
    ensures NoDuplicates(order) && j < |stages| && stages[j].name == order[n]
    ensures j > 0 ==> stages[j - 1].name in order[..n]
  {
    hide NoDuplicates;
    assert order[n] in order;
    var s :| s in stages && s.name == order[n];
    j :| 0 <= j < |stages| && stages[j] == s;
    assert j > 0 ==> stages[j - 1].name in s.dependencies;
  }

  /** In a schedule of a chain no stage can stand anywhere but at its place. */
  lemma {:induction false} ScheduleFollowsChain(stages: seq<Stage>, order: seq<string>, n: nat)
    requires NoDuplicates(NamesOf(stages)) && Chain(stages) && Schedule(stages, order)
    requires n <= |order|
    ensures n <= |stages| && order[..n] == NamesOf(stages)[..n]
  {
    hide NoDuplicates, Schedule, Chain, Declared;
    if n > 0 {
      var names := NamesOf(stages);
      ScheduleFollowsChain(stages, order, n - 1);
      var j := ScheduledAfter(stages, order, n - 1);
      NextInChain(names, order, n - 1, j);
      assert order[..n] == order[..n - 1] + [order[n - 1]];
      assert names[..n] == names[..n - 1] + [names[n - 1]];
    }
  }

  lemma SamePlace(names: seq<string>, i: nat, j: nat)
    requires NoDuplicates(names) && i < |names| && j < |names| && names[i] == names[j]
    ensures i == j
  {
  }

  lemma NotInPrefix(names: seq<string>, k: nat)
    requires NoDuplicates(names) && k < |names|
    ensures names[k] in names && names[k] !in names[..k]
  {
  }

  lemma ChainIsSchedule(stages: seq<Stage>)
    requires NoDuplicates(NamesOf(stages)) && Chain(stages)
    ensures Schedule(stages, NamesOf(stages))
  {
    var names := NamesOf(stages);
    NamesDeclared(stages);
    forall i, s, d | 0 <= i < |names| && s in stages && s.name == names[i] && d in s.dependencies
      ensures d in names[..i]
    {
      var k :| 0 <= k < |stages| && stages[k] == s;
      SamePlace(names, k, i);
      assert i > 0 && d == names[i - 1];
      assert names[..i][i - 1] == names[i - 1];
    }
  }

  /** A chain of distinct names has exactly one schedule: its own order. */
  lemma ChainHasOneSchedule(stages: seq<Stage>, order: seq<string>)
    requires NoDuplicates(NamesOf(stages)) && Chain(stages)
    ensures Schedule(stages, order) <==> order == NamesOf(stages)
  {
    hide Chain;
    var names := NamesOf(stages);
    NamesDeclared(stages);
    ChainIsSchedule(stages);
    if Schedule(stages, order) {
      ScheduleFollowsChain(stages, order, |order|);
      assert order == order[..|order|] == names[..|order|];
      if |order| < |names| {
        NotInPrefix(names, |order|);
        assert false;
      }
    }
  }

  lemma GeneratedIsChain(tr: TechnicalRequirementPayload, dm: DataModelPayload, feedback: Option<string>)
    ensures var stages := GeneratePipeline(tr, dm, feedback).stages; Chain(stages) && NoDuplicates(NamesOf(stages))
  {
    hide Curated, IngestInputs, Rules;
    var names := NamesOf(GeneratePipeline(tr, dm, feedback).stages);
    assert names == ["ingest_sources", "transform_star_schema", "validate_quality", "publish_semantic"];
    assert names[0][0] == 'i' && names[1][0] == 't' && names[2][0] == 'v' && names[3][0] == 'p';
  }

  /** Whatever the data model, the generated pipeline has one schedule, its own stage order, and
      the static validator's closing line passes. */
  lemma GeneratedPipelinePasses(tr: TechnicalRequirementPayload, dm: DataModelPayload, feedback: Option<string>)
    ensures var p := GeneratePipeline(tr, dm, feedback);
      && Runnable(p.stages) && Report(p)[|Report(p)| - 1].Pass?
      && forall order :: Schedule(p.stages, order) <==> order == NamesOf(p.stages)
  {
    hide GeneratePipeline, Report, Schedule;
    var p := GeneratePipeline(tr, dm, feedback);
    GeneratedIsChain(tr, dm, feedback);
    forall order
      ensures Schedule(p.stages, order) <==> order == NamesOf(p.stages)
    {
      ChainHasOneSchedule(p.stages, order);
    }
    assert Schedule(p.stages, NamesOf(p.stages));
    ChainKnown(p.stages);
    assert |p.stages| > 0 by {
      FourStages(tr, dm, feedback);
    }
    RunnablePasses(p);
  }

  lemma ChainKnown(stages: seq<Stage>)
    requires Chain(stages)
    ensures DependenciesKnown(stages)
  {
    forall s, d | s in stages && d in s.dependencies
      ensures Declared(stages, d)
    {
      var i :| 0 <= i < |stages| && stages[i] == s;
      assert stages[i - 1] in stages;
    }
  }

  lemma FourStages(tr: TechnicalRequirementPayload, dm: DataModelPayload, feedback: Option<string>)
    ensures |GeneratePipeline(tr, dm, feedback).stages| == 4
  {
  }

  /** However the generated pipeline is scheduled, each stage consumes exactly what the stage
      scheduled just before it produces. */
  lemma StagesChain(
    tr: TechnicalRequirementPayload,
    dm: DataModelPayload,
    feedback: Option<string>,
    order: seq<string>,
    i: nat)
    requires Schedule(GeneratePipeline(tr, dm, feedback).stages, order) && 0 < i < |order|
    ensures var stages := GeneratePipeline(tr, dm, feedback).stages;
      exists s, t :: s in stages && t in stages && s.name == order[i - 1] && t.name == order[i] && t.inputs == s.outputs
  {
    hide Curated, IngestInputs, Rules, Schedule, NoDuplicates;
    GeneratedIsChain(tr, dm, feedback);
    var stages := GeneratePipeline(tr, dm, feedback).stages;
    ChainHasOneSchedule(stages, order);
    assert stages[i - 1] in stages && stages[i] in stages && stages[i].inputs == stages[i - 1].outputs;
  }

  /** Nor does any other line of the report fail or warn. */
  lemma EveryLinePasses(tr: TechnicalRequirementPayload, dm: DataModelPayload, feedback: Option<string>, line: Line)
    requires line in Report(GeneratePipeline(tr, dm, feedback))
    ensures line.Pass?
  {
    hide Curated, IngestInputs, Report, NoDuplicates, Runnable, Cyclic, Schedule;
    var p := GeneratePipeline(tr, dm, feedback);
    var n := |Report(p)| - 1;
    GeneratedPipelinePasses(tr, dm, feedback);
    ReportMeans(p, line);
    ClosingLineCounts(p);
    assert line in Report(p)[..n] || line == Report(p)[n] by {
      assert Report(p) == Report(p)[..n] + [Report(p)[n]];
    }
    assert p.stages[0] in p.stages && p.stages[2] in p.stages;
  }

  /** The pipeline curates and then validates the first four entities, in their order. */
  lemma CuratesEntities(tr: TechnicalRequirementPayload, dm: DataModelPayload, feedback: Option<string>)
    ensures var stages := GeneratePipeline(tr, dm, feedback).stages;
      exists t, v ::
        && t in stages && t.kind.Transform? && v in stages && v.kind.Validate? && v.inputs == t.outputs
        && |t.outputs| <= 4 && (|t.outputs| < 4 ==> |t.outputs| == |dm.entities|)
        && forall i :: 0 <= i < |t.outputs| ==> i < |dm.entities| && t.outputs[i] == "curated." + dm.entities[i].name
  {
    hide IngestInputs, Rules;
    var stages := GeneratePipeline(tr, dm, feedback).stages;
    assert stages[1] in stages && stages[2] in stages;
  }

  /** Its rules name the first two required behaviours and the reviewer's feedback. */
  lemma RulesCover(tr: TechnicalRequirementPayload, dm: DataModelPayload, feedback: Option<string>)
    ensures var rules := GeneratePipeline(tr, dm, feedback).validationRules;
      && (forall i :: 0 <= i < |tr.behaviours| && i < 2 ==> "Cover behaviour: " + tr.behaviours[i] in rules)
      && (feedback.Some? && feedback.value != "" ==> "Incorporate reviewer feedback: " + feedback.value in rules)
  {
    hide Curated, IngestInputs;
    var rules := Rules(tr, feedback);
    forall i | 0 <= i < |tr.behaviours| && i < 2
      ensures "Cover behaviour: " + tr.behaviours[i] in rules
    {
      assert rules[3 + i] == "Cover behaviour: " + tr.behaviours[i];
    }
    if feedback.Some? && feedback.value != "" {
      assert rules[|rules| - 1] == "Incorporate reviewer feedback: " + feedback.value;
    }
  }
}
