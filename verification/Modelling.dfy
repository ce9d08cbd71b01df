/** The deterministic modelling agent: a star schema built on top of a mapping slice, and
    rebuilt on its own output at every revision. */
module Modelling {
  import opened Domain
  import opened Mapping

  datatype AgentError = ValidationError

  const FACT := "FactOrder"

  function LowerChar(c: char): char {
    if 'A' <= c <= 'Z' then c + 32 as char else c
  }

  function Lower(s: string): string {
    seq(|s|, i requires 0 <= i < |s| => LowerChar(s[i]))
  }

  function Dimensions(tr: TechnicalRequirementPayload): seq<string> {
    if tr.candidateDimensions == [] then ["Customer", "Product", "Date"] else tr.candidateDimensions
  }

  function Measures(tr: TechnicalRequirementPayload): seq<string> {
    if tr.candidateMeasures == [] then ["order_amount", "order_count"] else tr.candidateMeasures
  }

  function KeyOf(dim: string): string {
    Lower(dim) + "_sk"
  }

  function DimName(dim: string): string {
    "Dim" + dim
  }

  function DimEntity(dim: string): Entity {
    Entity(DimName(dim),
           [Attribute(KeyOf(dim), "string", false), Attribute(Lower(dim) + "_name", "string", true)],
           [KeyOf(dim)])
  }

  function StarLink(dim: string): Relationship {
    Relationship(FACT, DimName(dim), [KeyOf(dim)], [KeyOf(dim)], "many_to_one")
  }

  const BASE_ATTRIBUTES := [
    Attribute("order_sk", "string", false),
    Attribute("order_amount", "decimal", false),
    Attribute("order_count", "integer", false)]

  function FactAttributes(dims: seq<string>): seq<Attribute> {
    if dims == [] then
      BASE_ATTRIBUTES
    else
      var n := |dims| - 1;
      FactAttributes(dims[..n]) + [Attribute(KeyOf(dims[n]), "string", false)]
  }

  function FactEntity(dims: seq<string>): Entity {
    Entity(FACT, FactAttributes(dims), ["order_sk"])
  }

  /** The loop that appends each dimension's entity unless one of its name is there. */
  function WithDimensions(entities: seq<Entity>, dims: seq<string>): seq<Entity> {
    if dims == [] then
      entities
    else
      var n := |dims| - 1;
      var before := WithDimensions(entities, dims[..n]);
      if HasEntity(before, DimName(dims[n])) then before else before + [DimEntity(dims[n])]
  }

  function StarEntities(entities: seq<Entity>, dims: seq<string>): seq<Entity> {
    var all := WithDimensions(entities, dims);
    if HasEntity(all, FACT) then all else [FactEntity(dims)] + all
  }

  function StarLinks(dims: seq<string>): seq<Relationship> {
    if dims == [] then [] else StarLinks(dims[..|dims| - 1]) + [StarLink(dims[|dims| - 1])]
  }

  const DEFAULT_GOVERNANCE := Governance([], [], ["Propagated from mapping / source visibility where available"], map[])

  predicate Truthy(feedback: Option<string>) {
    feedback.Some? && feedback.value != ""
  }

  function Remodel(
    tr: TechnicalRequirementPayload,
    mapping: Option<DataModelPayload>,
    feedback: Option<string>): Result<(SemanticModelPayload, DataModelFields), AgentError>
  {
    var dims := Dimensions(tr);
    if "" in dims || "" in Measures(tr) then
      Err(ValidationError)
    else
      var entities, links, context, governance :=
        if mapping.Some? then mapping.value.entities else [],
        if mapping.Some? then mapping.value.relationships else [],
        if mapping.Some? then mapping.value.context else EMPTY_CONTEXT,
        if mapping.Some? && mapping.value.governance.Some? then mapping.value.governance else Some(DEFAULT_GOVERNANCE);
      Ok((SemanticModelPayload(tr.summary, Measures(tr), dims),
          DataModelFields(
            StarEntities(entities, dims),
            links + StarLinks(dims),
            if Truthy(feedback) then context.(modellingFeedback := feedback) else context,
            governance)))
  }

  /** The relationship from the fact to dimension `d`, on the dimension's key. */
  predicate JoinsDimension(l: Relationship, d: string) {
    && l.fromEntity == "FactOrder" && l.toEntity == "Dim" + d
    && l.fromKeys == [Lower(d) + "_sk"] && l.toKeys == [Lower(d) + "_sk"] && l.cardinality == "many_to_one"
  }

  /** The semantic model names what the requirement asks for, and the data model realises it: metrics
      are the candidate measures and dimensions the candidate dimensions, or the defaults; there is a
      fact, and each dimension has its entity and a relationship from the fact; and the data model
      relates nothing else but what `joins` did. */
  ghost predicate ModelsAgree(
    tr: TechnicalRequirementPayload,
    joins: seq<Relationship>,
    sm: SemanticModelPayload,
    dm: DataModelFields)
  {
    && sm.metrics == (if tr.candidateMeasures == [] then ["order_amount", "order_count"] else tr.candidateMeasures)
    && sm.dimensions ==
         (if tr.candidateDimensions == [] then ["Customer", "Product", "Date"] else tr.candidateDimensions)
    && HasEntity(dm.entities, "FactOrder")
    && (forall d :: d in sm.dimensions ==>
          HasEntity(dm.entities, "Dim" + d) && exists l :: l in dm.relationships && JoinsDimension(l, d))
    && (forall l :: l in dm.relationships ==> l in joins || exists d :: d in sm.dimensions && JoinsDimension(l, d))
  }

  /** What a data model takes over from the one it is made from: its context, with the feedback of
      this round if there is any, and its annotations. */
  ghost predicate ContextKept(before: Option<DataModelPayload>, feedback: Option<string>, dm: DataModelFields) {
    var context := if before.Some? then before.value.context else Context([], [], false, None);
    && dm.context.sourceIds == context.sourceIds && dm.context.notes == context.notes
    && dm.context.escalated == context.escalated
    && dm.context.modellingFeedback ==
       (if feedback.Some? && feedback.value != "" then feedback else context.modellingFeedback)
    && (before.Some? && before.value.governance.Some? ==> dm.governance == before.value.governance)
    && dm.governance.Some?
  }

  lemma RemodelAgrees(tr: TechnicalRequirementPayload, mapping: Option<DataModelPayload>, feedback: Option<string>)
    requires Remodel(tr, mapping, feedback).Ok?
    ensures var models := Remodel(tr, mapping, feedback).value;
      && ModelsAgree(tr, if mapping.Some? then mapping.value.relationships else [], models.0, models.1)
      && ContextKept(mapping, feedback, models.1)
  {
    hide StarEntities, StarLinks, HasEntity, JoinsDimension, StarLink, DimName;
    var dims := Dimensions(tr);
    var entities := if mapping.Some? then mapping.value.entities else [];
    StarIsComplete(entities, dims);
    StarIsNeverEmpty(entities, dims);
    StarLinksMembers(dims);
    forall d | d in dims
      ensures HasEntity(StarEntities(entities, dims), "Dim" + d) && JoinsDimension(StarLink(d), d)
      ensures StarLink(d) in StarLinks(dims)
    {
      StarLinkJoins(entities, dims, d);
    }
  }

  lemma StarLinkJoins(entities: seq<Entity>, dims: seq<string>, d: string)
    requires d in dims
    ensures JoinsDimension(StarLink(d), d) && StarLink(d) in StarLinks(dims)
    ensures HasEntity(StarEntities(entities, dims), "Dim" + d)
  {
    StarLinksMembers(dims);
    StarIsComplete(entities, dims);
    assert StarLink(d) in StarLinks(dims);
  }

  method GenerateModellingDeterministic(
    tr: TechnicalRequirementPayload,
    mapping: Option<DataModelPayload>,
    feedback: Option<string>) returns (r: Result<(SemanticModelPayload, DataModelFields), AgentError>)
    ensures r == Remodel(tr, mapping, feedback)
    ensures r.Ok? ==>
      && ModelsAgree(tr, if mapping.Some? then mapping.value.relationships else [], r.value.0, r.value.1)
      && ContextKept(mapping, feedback, r.value.1)
  {
    hide ModelsAgree, ContextKept, KeyOf, DimName, DimEntity, StarLink, HasEntity, Dimensions, Measures;
    var dims := Dimensions(tr);
    if "" in dims || "" in Measures(tr) {
      return Err(ValidationError);
    }
    var entities: seq<Entity> := [];
    var links: seq<Relationship> := [];
    var context := EMPTY_CONTEXT;
    var governance := Some(DEFAULT_GOVERNANCE);
    if mapping.Some? {
      context := mapping.value.context;
      if mapping.value.governance.Some? {
        governance := mapping.value.governance;
      }
      entities := entities + mapping.value.entities;
      links := links + mapping.value.relationships;
    }
    ghost var entities0, links0 := entities, links;
    assert mapping.Some? ==> entities0 == mapping.value.entities && links0 == mapping.value.relationships;
    var factAttributes := BASE_ATTRIBUTES;
    for i := 0 to |dims|
      invariant factAttributes == FactAttributes(dims[..i])
      invariant entities == WithDimensions(entities0, dims[..i])
      invariant links == links0 + StarLinks(dims[..i])
    {
      assert dims[..i + 1][..i] == dims[..i];
      var key := KeyOf(dims[i]);
      factAttributes := factAttributes + [Attribute(key, "string", false)];
      if !HasEntity(entities, DimName(dims[i])) {
        entities := entities + [DimEntity(dims[i])];
      }
      links := links + [StarLink(dims[i])];
    }
    assert dims[..|dims|] == dims;
    if !HasEntity(entities, FACT) {
      entities := [Entity(FACT, factAttributes, ["order_sk"])] + entities;
    }
    if Truthy(feedback) {
      context := context.(modellingFeedback := feedback);
    }
    var semantic := SemanticModelPayload(tr.summary, Measures(tr), dims);
    r := Ok((semantic, DataModelFields(entities, links, context, governance)));
    RemodelAgrees(tr, mapping, feedback);
  }

  lemma {:induction false} WithDimensionsGrows(entities: seq<Entity>, dims: seq<string>)
    ensures entities <= WithDimensions(entities, dims)
    ensures forall d :: d in dims ==> HasEntity(WithDimensions(entities, dims), DimName(d))
  {
    if dims != [] {
      var n := |dims| - 1;
      WithDimensionsGrows(entities, dims[..n]);
      var before, after := WithDimensions(entities, dims[..n]), WithDimensions(entities, dims);
      assert forall e :: e in before ==> e in after;
      assert after != before ==> after[|before|].name == DimName(dims[n]);
      assert forall d :: d in dims <==> d in dims[..n] || d == dims[n];
    }
  }

  /** The star schema is never empty, so it always meets the data model schema. */
  lemma StarIsNeverEmpty(entities: seq<Entity>, dims: seq<string>)
    ensures |StarEntities(entities, dims)| >= 1 && HasEntity(StarEntities(entities, dims), FACT)
  {
    var all := WithDimensions(entities, dims);
    if !HasEntity(all, FACT) {
      assert StarEntities(entities, dims)[0].name == FACT;
    }
  }

  predicate HasKeyAttribute(e: Entity, name: string) {
    exists a :: a in e.attributes && a.name == name && !a.nullable
  }

  /** Every entity carries its primary key, which is never null. */
  ghost predicate PrimaryKeysPresent(entities: seq<Entity>) {
    forall e, k :: e in entities && k in e.primaryKey ==> HasKeyAttribute(e, k)
  }

  lemma {:induction false} FactKeepsBase(dims: seq<string>)
    ensures BASE_ATTRIBUTES <= FactAttributes(dims)
  {
    if dims != [] {
      FactKeepsBase(dims[..|dims| - 1]);
    }
  }

  /** The entities a round adds carry their primary keys. */
  lemma PrimaryKeysAfterRound(entities: seq<Entity>, dims: seq<string>)
    ensures PrimaryKeysPresent(StarEntities(entities, dims)) <==> PrimaryKeysPresent(entities)
  {
    hide StarEntities;
    StarAdds(entities, dims);
    FactKeepsBase(dims);
    assert FactEntity(dims).attributes[0] == Attribute("order_sk", "string", false);
    assert HasKeyAttribute(FactEntity(dims), "order_sk");
    forall d
      ensures HasKeyAttribute(DimEntity(d), KeyOf(d))
    {
      assert DimEntity(d).attributes[0].name == KeyOf(d);
    }
  }

  // ----- rounds of remodelling -----

  /** What `n` rounds do to the entities and relationships of a slice. */
  function Rounds(slice: DataModelFields, dims: seq<string>, n: nat): (seq<Entity>, seq<Relationship>) {
    if n == 0 then
      (slice.entities, slice.relationships)
    else
      var before := Rounds(slice, dims, n - 1);
      (StarEntities(before.0, dims), before.1 + StarLinks(dims))
  }

  /** The agent run again and again on its own output, with any feedback each time. */
  function Remodelled(tr: TechnicalRequirementPayload, slice: DataModelPayload, feedbacks: seq<Option<string>>)
    : Result<DataModelPayload, AgentError>
  {
    if feedbacks == [] then
      Ok(slice)
    else
      match Remodelled(tr, slice, feedbacks[..|feedbacks| - 1])
      case Err(e) => Err(e)
      case Ok(before) =>
        match Remodel(tr, Some(before), feedbacks[|feedbacks| - 1])
        case Err(e) => Err(e)
        case Ok(models) =>
          StarIsNeverEmpty(before.entities, Dimensions(tr));
          Ok(models.1)
  }

  lemma {:induction false} RemodelledIsRounds(
    tr: TechnicalRequirementPayload,
    slice: DataModelPayload,
    feedbacks: seq<Option<string>>)
    ensures var r := Remodelled(tr, slice, feedbacks); r.Ok? ==>
      (r.value.entities, r.value.relationships) == Rounds(slice, Dimensions(tr), |feedbacks|)
  {
    if feedbacks != [] {
      RemodelledIsRounds(tr, slice, feedbacks[..|feedbacks| - 1]);
    }
  }

  ghost predicate DistinctNames(entities: seq<Entity>) {
    forall i, j :: 0 <= i < j < |entities| ==> entities[i].name != entities[j].name
  }

  ghost predicate Closed(entities: seq<Entity>, links: seq<Relationship>) {
    forall r :: r in links ==> HasEntity(entities, r.fromEntity) && HasEntity(entities, r.toEntity)
  }

  /** Every entity that bears a name of the star carries the keys that the star joins on: the
      fact entity all of them, a dimension entity its own. */
  ghost predicate StarKeysPresent(entities: seq<Entity>, dims: seq<string>) {
    forall d, e :: d in dims && e in entities && (e.name == FACT || e.name == DimName(d)) ==> HasAttribute(e, KeyOf(d))
  }

  lemma DimNamesDiffer(c: string, d: string)
    requires DimName(c) == DimName(d)
    ensures c == d
  {
    assert c == DimName(c)[3..] && d == DimName(d)[3..];
  }

  lemma AppendDistinct(entities: seq<Entity>, e: Entity)
    requires !HasEntity(entities, e.name)
    ensures DistinctNames(entities + [e]) <==> DistinctNames(entities)
    ensures DistinctNames([e] + entities) <==> DistinctNames(entities)
  {
    assert forall i :: 0 <= i < |entities| ==> entities[i] in entities;
    if DistinctNames([e] + entities) {
      forall i, j | 0 <= i < j < |entities|
        ensures entities[i].name != entities[j].name
      {
        assert ([e] + entities)[i + 1] == entities[i] && ([e] + entities)[j + 1] == entities[j];
      }
    }
    if DistinctNames(entities + [e]) {
      assert forall i :: 0 <= i < |entities| ==> (entities + [e])[i] == entities[i];
    }
  }

  /** The loop only adds new dimensions, and no name that is taken. */
  lemma {:induction false} WithDimensionsAdds(entities: seq<Entity>, dims: seq<string>)
    ensures forall e :: e in WithDimensions(entities, dims) ==>
      e in entities || exists d :: d in dims && e == DimEntity(d)
    ensures DistinctNames(WithDimensions(entities, dims)) <==> DistinctNames(entities)
  {
    hide DistinctNames;
    if dims != [] {
      var n := |dims| - 1;
      var before := WithDimensions(entities, dims[..n]);
      WithDimensionsAdds(entities, dims[..n]);
      if !HasEntity(before, DimName(dims[n])) {
        AppendDistinct(before, DimEntity(dims[n]));
      }
      assert forall d :: d in dims[..n] ==> d in dims;
    }
  }

  lemma {:induction false} WithDimensionsStable(entities: seq<Entity>, dims: seq<string>)
    requires forall d :: d in dims ==> HasEntity(entities, DimName(d))
    ensures WithDimensions(entities, dims) == entities
  {
    if dims != [] {
      WithDimensionsStable(entities, dims[..|dims| - 1]);
    }
  }

  lemma {:induction false} FactCarriesKeys(dims: seq<string>, d: string)
    requires d in dims
    ensures exists a :: a in FactAttributes(dims) && a.name == KeyOf(d)
  {
    var n := |dims| - 1;
    if dims[n] == d {
      assert FactAttributes(dims)[|FactAttributes(dims)| - 1].name == KeyOf(d);
    } else {
      FactCarriesKeys(dims[..n], d);
      var a :| a in FactAttributes(dims[..n]) && a.name == KeyOf(d);
      assert a in FactAttributes(dims);
    }
  }

  lemma {:induction false} StarLinksMembers(dims: seq<string>)
    ensures |StarLinks(dims)| == |dims|
    ensures forall r :: r in StarLinks(dims) <==> exists d :: d in dims && r == StarLink(d)
  {
    if dims != [] {
      var n := |dims| - 1;
      StarLinksMembers(dims[..n]);
      assert forall d :: d in dims <==> d in dims[..n] || d == dims[n];
      assert StarLink(dims[n]) in StarLinks(dims);
    }
  }

  /** What one round adds: dimension entities and at most one fact entity, no taken name. */
  lemma StarAdds(entities: seq<Entity>, dims: seq<string>)
    ensures var star := StarEntities(entities, dims);
      && (forall e :: e in entities ==> e in star)
      && (forall e :: e in star ==>
            e in entities || e == FactEntity(dims) || exists d :: d in dims && e == DimEntity(d))
      && (DistinctNames(star) <==> DistinctNames(entities))
  {
    hide DistinctNames;
    var all := WithDimensions(entities, dims);
    WithDimensionsGrows(entities, dims);
    WithDimensionsAdds(entities, dims);
    if !HasEntity(all, FACT) {
      AppendDistinct(all, FactEntity(dims));
    }
  }

  /** The entities that a round adds carry their keys, so a key is missing afterwards exactly
      when an entity that was there before bears a name of the star without the key. */
  lemma StarKeysAfterRound(entities: seq<Entity>, dims: seq<string>)
    ensures StarKeysPresent(StarEntities(entities, dims), dims) <==> StarKeysPresent(entities, dims)
  {
    hide StarEntities, DistinctNames;
    StarAdds(entities, dims);
    if StarKeysPresent(entities, dims) {
      forall d, e | d in dims && e in StarEntities(entities, dims) && (e.name == FACT || e.name == DimName(d))
        ensures HasAttribute(e, KeyOf(d))
      {
        if e !in entities {
          NewEntityHasKey(e, dims, d);
        }
      }
    }
  }

  lemma NewEntityHasKey(e: Entity, dims: seq<string>, d: string)
    requires d in dims && (e.name == FACT || e.name == DimName(d))
    requires e == FactEntity(dims) || exists c :: c in dims && e == DimEntity(c)
    ensures HasAttribute(e, KeyOf(d))
  {
    assert FACT[0] == 'F' && DimName(d)[0] == 'D';
    if e.name == FACT {
      FactCarriesKeys(dims, d);
    } else {
      var c :| c in dims && e == DimEntity(c);
      DimNamesDiffer(c, d);
      assert e.attributes[0].name == KeyOf(d);
    }
  }

  /** Both ends of every star link exist after a round, and a second round adds no entity. */
  lemma StarIsComplete(entities: seq<Entity>, dims: seq<string>)
    ensures Closed(StarEntities(entities, dims), StarLinks(dims))
    ensures StarEntities(StarEntities(entities, dims), dims) == StarEntities(entities, dims)
  {
    var star := StarEntities(entities, dims);
    WithDimensionsGrows(entities, dims);
    StarIsNeverEmpty(entities, dims);
    forall d | d in dims
      ensures HasEntity(star, DimName(d))
    {
      var x :| x in WithDimensions(entities, dims) && x.name == DimName(d);
      assert x in star;
    }
    StarLinksMembers(dims);
    WithDimensionsStable(star, dims);
  }

  /** Remodelling is a fixpoint, whatever the slice: from the first round on the entities stay as
      they are, names are distinct if they were, star keys are in place on both ends if no entity
      of the slice bears a star name without its key, and no relationship dangles if none did. The
      set of relationships is stable too, but each round appends one more copy of every star link. */
  lemma {:induction false} RemodellingIsFixpoint(slice: DataModelFields, dims: seq<string>, n: nat)
    requires n >= 1
    ensures var (entities, links) := Rounds(slice, dims, n);
      && entities == StarEntities(slice.entities, dims)
      && (DistinctNames(entities) <==> DistinctNames(slice.entities))
      && (StarKeysPresent(entities, dims) <==> StarKeysPresent(slice.entities, dims))
      && Closed(entities, StarLinks(dims)) && (Closed(slice.entities, slice.relationships) ==> Closed(entities, links))
      && |links| == |slice.relationships| + n * |dims|
      && (forall r :: r in links <==> r in slice.relationships || r in StarLinks(dims))
  {
    hide StarEntities, DistinctNames, StarKeysPresent, StarLinks;
    StarAdds(slice.entities, dims);
    StarKeysAfterRound(slice.entities, dims);
    StarIsComplete(slice.entities, dims);
    StarLinksMembers(dims);
    if n == 1 {
      assert Rounds(slice, dims, 0) == (slice.entities, slice.relationships);
    } else {
      RemodellingIsFixpoint(slice, dims, n - 1);
    }
  }

  /** The agent itself, for any slice, any technical requirement and any feedback in each round. */
  lemma RemodelledIsFixpoint(tr: TechnicalRequirementPayload, slice: DataModelPayload, feedbacks: seq<Option<string>>)
    requires |feedbacks| >= 1
    ensures var r := Remodelled(tr, slice, feedbacks); var dims := Dimensions(tr);
      if "" in dims || "" in Measures(tr) then
        r.Err?
      else
        && r.Ok?
        && r.value.entities == StarEntities(slice.entities, dims)
        && (DistinctNames(r.value.entities) <==> DistinctNames(slice.entities))
        && (StarKeysPresent(r.value.entities, dims) <==> StarKeysPresent(slice.entities, dims))
        && (Closed(slice.entities, slice.relationships) ==> Closed(r.value.entities, r.value.relationships))
        && |r.value.relationships| == |slice.relationships| + |feedbacks| * |dims|
        && (forall l :: l in r.value.relationships <==> l in slice.relationships || l in StarLinks(dims))
        && r.value.context.sourceIds == slice.context.sourceIds
  {
    hide StarEntities, DistinctNames, StarKeysPresent, Closed, StarLinks, Remodelled;
    RemodelledIsRounds(tr, slice, feedbacks);
    if "" in Dimensions(tr) || "" in Measures(tr) {
      RemodelledFails(tr, slice, feedbacks);
    } else {
      RemodelledSucceeds(tr, slice, feedbacks);
      RemodellingIsFixpoint(slice, Dimensions(tr), |feedbacks|);
    }
  }

  lemma RemodelledFails(tr: TechnicalRequirementPayload, slice: DataModelPayload, feedbacks: seq<Option<string>>)
    requires |feedbacks| > 0 && ("" in Dimensions(tr) || "" in Measures(tr))
    ensures Remodelled(tr, slice, feedbacks).Err?
  {
  }

  lemma {:induction false} RemodelledSucceeds(
    tr: TechnicalRequirementPayload,
    slice: DataModelPayload,
    feedbacks: seq<Option<string>>)
    requires !("" in Dimensions(tr) || "" in Measures(tr))
    ensures Remodelled(tr, slice, feedbacks).Ok?
    ensures Remodelled(tr, slice, feedbacks).value.context.sourceIds == slice.context.sourceIds
  {
    if feedbacks != [] {
      RemodelledSucceeds(tr, slice, feedbacks[..|feedbacks| - 1]);
    }
  }
}
