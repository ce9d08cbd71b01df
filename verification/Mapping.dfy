/** The mapping subgraph's pure parts: the proposal builder, the judge with its retry caps,
    and the conversion of a proposal into a data model slice. */
module Mapping {
  import opened Domain
  import opened Discovery

  datatype Proposal = Proposal(
    sourceIds: seq<string>,
    entities: seq<Entity>,
    relationships: seq<Relationship>,
    notes: seq<string>)

  datatype Outcome = Passed | SchemaIssue | LogicIssue | Escalate

  datatype JudgeResult = JudgeResult(outcome: Outcome, notes: string, schemaRetries: nat, logicRetries: nat)

  /** Where the judge sends the graph next. */
  datatype MappingStage = ToDiscovery | ToDataMapping | ToPersist

  // ----- the proposal builder -----

  function RemoveSpaces(s: string): string {
    Select(s, (c: char) => c != ' ')
  }

  function AttributesOf(columns: seq<Column>): (attrs: seq<Attribute>)
    ensures |attrs| == |columns|
  {
    seq(|columns|, i requires 0 <= i < |columns| =>
      Attribute(columns[i].name, columns[i].dataType, columns[i].nullable))
  }

  function EntityOf(o: CatalogueObject): Entity {
    var attrs := AttributesOf(o.columns);
    Entity(RemoveSpaces(o.displayName), attrs, if attrs == [] then [] else [attrs[0].name])
  }

  function EntitiesOf(objects: seq<CatalogueObject>): (entities: seq<Entity>)
    ensures |entities| == |objects|
    ensures forall i :: 0 <= i < |objects| ==> entities[i] == EntityOf(objects[i])
  {
    seq(|objects|, i requires 0 <= i < |objects| => EntityOf(objects[i]))
  }

  predicate HasEntity(entities: seq<Entity>, name: string) {
    exists e :: e in entities && e.name == name
  }

  predicate HasAttribute(e: Entity, name: string) {
    exists a :: a in e.attributes && a.name == name
  }

  /** The entity a name finds in the name dictionary: of two with one name, the later. */
  function Named(entities: seq<Entity>, name: string): Option<Entity> {
    if entities == [] then
      None
    else
      var last := entities[|entities| - 1];
      if last.name == name then Some(last) else Named(entities[..|entities| - 1], name)
  }

  function Join(from: string, to: string, key: string): Relationship {
    Relationship(from, to, [key], [key], "many_to_one")
  }

  function JoinsOf(entities: seq<Entity>): seq<Relationship> {
    var orders, customers, products :=
      Named(entities, "Orders"), Named(entities, "Customers"), Named(entities, "Products");
    (if orders.Some? && customers.Some? then [Join("Orders", "Customers", "customer_id")] else [])
    + (if orders.Some? && products.Some? && HasAttribute(orders.value, "product_id")
       then [Join("Orders", "Products", "product_id")] else [])
  }

  function CommaJoin(items: seq<string>): string {
    if items == [] then ""
    else if |items| == 1 then items[0]
    else CommaJoin(items[..|items| - 1]) + ", " + items[|items| - 1]
  }

  function NotesOf(tr: Option<TechnicalRequirementPayload>, feedback: Option<string>): seq<string> {
    (if tr.Some? then
       ["Aligned to TR summary: " + tr.value.summary, "Candidate facts: " + CommaJoin(tr.value.candidateFacts)]
     else [])
    + (if feedback.Some? && feedback.value != "" then ["Reviewer feedback: " + feedback.value] else [])
  }

  function Propose(
    discovered: seq<CatalogueObject>,
    tr: Option<TechnicalRequirementPayload>,
    feedback: Option<string>,
    forceEmptySources: bool): Proposal
  {
    Proposal(
      if forceEmptySources then [] else ObjectIds(discovered),
      EntitiesOf(discovered),
      JoinsOf(EntitiesOf(discovered)),
      NotesOf(tr, feedback))
  }

  method BuildMappingProposal(
    discovered: seq<CatalogueObject>,
    tr: Option<TechnicalRequirementPayload>,
    feedback: Option<string>,
    forceEmptySources: bool) returns (p: Proposal)
    ensures p == Propose(discovered, tr, feedback, forceEmptySources)
  {
    var sourceIds := if forceEmptySources then [] else ObjectIds(discovered);
    var entities: seq<Entity> := [];
    for i := 0 to |discovered|
      invariant entities == EntitiesOf(discovered[..i])
    {
      entities := entities + [EntityOf(discovered[i])];
    }
    assert discovered[..|discovered|] == discovered;
    var relationships: seq<Relationship> := [];
    var orders := Named(entities, "Orders");
    if orders.Some? && Named(entities, "Customers").Some? {
      relationships := relationships + [Join("Orders", "Customers", "customer_id")];
    }
    if orders.Some? && Named(entities, "Products").Some? {
      if HasAttribute(orders.value, "product_id") {
        relationships := relationships + [Join("Orders", "Products", "product_id")];
      }
    }
    p := Proposal(sourceIds, entities, relationships, NotesOf(tr, feedback));
  }

  lemma {:induction false} NamedFinds(entities: seq<Entity>, name: string)
    ensures Named(entities, name).Some? <==> HasEntity(entities, name)
    ensures Named(entities, name).Some? ==>
      Named(entities, name).value in entities && Named(entities, name).value.name == name
  {
    if entities != [] {
      var n := |entities| - 1;
      NamedFinds(entities[..n], name);
      assert forall e :: e in entities <==> e in entities[..n] || e == entities[n];
    }
  }

  /** Whatever the builder proposes relates entities it proposes. */
  lemma ProposalIsClosed(
    discovered: seq<CatalogueObject>,
    tr: Option<TechnicalRequirementPayload>,
    feedback: Option<string>,
    forceEmptySources: bool,
    r: Relationship)
    requires r in Propose(discovered, tr, feedback, forceEmptySources).relationships
    ensures var p := Propose(discovered, tr, feedback, forceEmptySources);
      HasEntity(p.entities, r.fromEntity) && HasEntity(p.entities, r.toEntity)
  {
    var entities := EntitiesOf(discovered);
    NamedFinds(entities, "Orders");
    NamedFinds(entities, "Customers");
    NamedFinds(entities, "Products");
  }

  predicate HasColumn(o: CatalogueObject, name: string) {
    exists c :: c in o.columns && c.name == name
  }

  /** Nothing but the spaces goes, and no other character is lost or repeated. */
  lemma {:induction false} SpacesRemoved(s: string, c: char)
    ensures ' ' !in RemoveSpaces(s)
    ensures c != ' ' ==> multiset(RemoveSpaces(s))[c] == multiset(s)[c]
  {
    if s != [] {
      var n := |s| - 1;
      SpacesRemoved(s[..n], c);
      assert s == s[..n] + [s[n]];
    }
  }

  /** An entity bears its object's display name without the spaces, and its attributes are the
      columns, one by one: name, type and nullability. */
  lemma EntityIsObject(o: CatalogueObject, c: char)
    ensures var e := EntityOf(o);
      && ' ' !in e.name && (c != ' ' ==> multiset(e.name)[c] == multiset(o.displayName)[c])
      && |e.attributes| == |o.columns|
      && forall i :: 0 <= i < |o.columns| ==>
           && e.attributes[i].name == o.columns[i].name && e.attributes[i].dataType == o.columns[i].dataType
           && e.attributes[i].nullable == o.columns[i].nullable
  {
    hide RemoveSpaces;
    SpacesRemoved(o.displayName, c);
  }

  /** An entity carries exactly its object's columns, and its primary key is the first of them. */
  lemma EntityMirrorsObject(o: CatalogueObject, name: string)
    ensures HasAttribute(EntityOf(o), name) <==> HasColumn(o, name)
    ensures forall k :: k in EntityOf(o).primaryKey ==>
      o.columns != [] && k == o.columns[0].name && HasAttribute(EntityOf(o), k)
  {
    var attrs := AttributesOf(o.columns);
    assert forall i :: 0 <= i < |o.columns| ==> attrs[i].name == o.columns[i].name;
    if c :| c in o.columns && c.name == name {
      var i :| 0 <= i < |o.columns| && o.columns[i] == c;
      assert attrs[i] in attrs;
    }
    if attrs != [] {
      assert attrs[0] in attrs;
    }
  }

  /** The name finds an entity that has the attribute. */
  predicate Offers(entities: seq<Entity>, name: string, attribute: string) {
    Named(entities, name).Some? && HasAttribute(Named(entities, name).value, attribute)
  }

  /** Both ends of the relationship are there and have the attributes it joins on. */
  ghost predicate CarriesKeys(entities: seq<Entity>, r: Relationship) {
    && HasEntity(entities, r.fromEntity) && HasEntity(entities, r.toEntity)
    && (forall k :: k in r.fromKeys ==> Offers(entities, r.fromEntity, k))
    && (forall k :: k in r.toKeys ==> Offers(entities, r.toEntity, k))
  }

  /** A product join is proposed exactly if the order entity has its key and products are there. */
  lemma ProductJoinHasKey(entities: seq<Entity>)
    ensures Join("Orders", "Products", "product_id") in JoinsOf(entities)
      <==> Offers(entities, "Orders", "product_id") && HasEntity(entities, "Products")
  {
    NamedFinds(entities, "Products");
    assert "Customers"[0] == 'C' && "Products"[0] == 'P';
  }

  /** The joins are these two and no others. */
  lemma JoinsExactly(entities: seq<Entity>, l: Relationship)
    ensures l in JoinsOf(entities)
      <==> || (l == Relationship("Orders", "Customers", ["customer_id"], ["customer_id"], "many_to_one")
               && HasEntity(entities, "Orders") && HasEntity(entities, "Customers"))
           || (l == Relationship("Orders", "Products", ["product_id"], ["product_id"], "many_to_one")
               && Offers(entities, "Orders", "product_id") && HasEntity(entities, "Products"))
  {
    NamedFinds(entities, "Orders");
    NamedFinds(entities, "Customers");
    NamedFinds(entities, "Products");
  }

  /** A customer join is proposed whether or not the orders carry its key. */
  lemma CustomerJoinIsUnchecked(entities: seq<Entity>)
    ensures Join("Orders", "Customers", "customer_id") in JoinsOf(entities)
      <==> HasEntity(entities, "Orders") && HasEntity(entities, "Customers")
  {
    NamedFinds(entities, "Orders");
    NamedFinds(entities, "Customers");
    assert "Customers"[0] == 'C' && "Products"[0] == 'P';
  }

  /** Every proposed join has its keys on both ends if and only if: orders and customers, where
      both are there, both have the customer key, and products, where the orders have the product
      key, have it as well. */
  lemma JoinsCarryKeysExactly(entities: seq<Entity>)
    ensures (forall r :: r in JoinsOf(entities) ==> CarriesKeys(entities, r))
      <==> && (HasEntity(entities, "Orders") && HasEntity(entities, "Customers") ==>
                 Offers(entities, "Orders", "customer_id") && Offers(entities, "Customers", "customer_id"))
           && (Offers(entities, "Orders", "product_id") && HasEntity(entities, "Products") ==>
                 Offers(entities, "Products", "product_id"))
  {
    hide Offers;
    var customers, products := Join("Orders", "Customers", "customer_id"), Join("Orders", "Products", "product_id");
    JoinIsOneOfTwo(entities);
    CustomerJoinIsUnchecked(entities);
    ProductJoinHasKey(entities);
    CarriesOneKey(entities, "Orders", "Customers", "customer_id");
    CarriesOneKey(entities, "Orders", "Products", "product_id");
    OfferedIsThere(entities, "Orders", "product_id");
    assert customers in JoinsOf(entities) || customers !in JoinsOf(entities);
    assert products in JoinsOf(entities) || products !in JoinsOf(entities);
  }

  lemma JoinIsOneOfTwo(entities: seq<Entity>)
    ensures forall r :: r in JoinsOf(entities) ==>
      r == Join("Orders", "Customers", "customer_id") || r == Join("Orders", "Products", "product_id")
  {
  }

  lemma CarriesOneKey(entities: seq<Entity>, from: string, to: string, key: string)
    ensures CarriesKeys(entities, Join(from, to, key))
      <==> && HasEntity(entities, from) && HasEntity(entities, to)
           && Offers(entities, from, key) && Offers(entities, to, key)
  {
    hide Offers, HasEntity;
    assert key in Join(from, to, key).fromKeys && key in Join(from, to, key).toKeys;
  }

  lemma OfferedIsThere(entities: seq<Entity>, name: string, key: string)
    ensures Offers(entities, name, key) ==> HasEntity(entities, name)
  {
    NamedFinds(entities, name);
  }

  /** The catalogue that ships today meets the condition: whatever part of it a user sees, every
      proposed join has its keys on both ends. */
  lemma ShippedJoinsCarryKeys(
    user: UserContext,
    tr: Option<TechnicalRequirementPayload>,
    feedback: Option<string>,
    forceEmptySources: bool)
    ensures var p := Propose(VisibleObjects(user, FIXTURE_CATALOGUE), tr, feedback, forceEmptySources);
      forall r :: r in p.relationships ==> CarriesKeys(p.entities, r)
  {
    hide Offers, JoinsOf, HasEntity, Visible, CarriesKeys, Named;
    var seen := VisibleObjects(user, FIXTURE_CATALOGUE);
    assert forall o :: o in seen ==> o in FIXTURE_CATALOGUE by {
      SelectMembers(FIXTURE_CATALOGUE, (o: CatalogueObject) => Visible(user, o));
    }
    JoinsCarryKeysExactly(EntitiesOf(seen));
    OfferedIsThere(EntitiesOf(seen), "Orders", "product_id");
    ShippedOffers(seen);
  }

  lemma ShippedOffers(seen: seq<CatalogueObject>)
    requires forall o :: o in seen ==> o in FIXTURE_CATALOGUE
    ensures HasEntity(EntitiesOf(seen), "Orders") ==>
      Offers(EntitiesOf(seen), "Orders", "customer_id") && !Offers(EntitiesOf(seen), "Orders", "product_id")
    ensures HasEntity(EntitiesOf(seen), "Customers") ==> Offers(EntitiesOf(seen), "Customers", "customer_id")
  {
    hide Offers, HasEntity, EntitiesOf, HasColumn;
    ShippedEntity(seen, ORDERS, "Orders", "customer_id");
    ShippedEntity(seen, ORDERS, "Orders", "product_id");
    ShippedEntity(seen, CUSTOMERS, "Customers", "customer_id");
    ShippedColumns();
  }

  lemma ShippedColumns()
    ensures HasColumn(ORDERS, "customer_id") && HasColumn(CUSTOMERS, "customer_id") && !HasColumn(ORDERS, "product_id")
  {
    assert ORDERS.columns[1].name == "customer_id" && CUSTOMERS.columns[0].name == "customer_id";
    assert forall c :: c in ORDERS.columns ==> c.name[0] != 'p';
    assert "product_id"[0] == 'p';
  }

  /** An entity under a shipped name is made of that object. */
  lemma ShippedEntity(seen: seq<CatalogueObject>, origin: CatalogueObject, name: string, key: string)
    requires (name == "Orders" && origin == ORDERS) || (name == "Customers" && origin == CUSTOMERS)
    requires forall o :: o in seen ==> o in FIXTURE_CATALOGUE
    ensures HasEntity(EntitiesOf(seen), name) ==>
      (Offers(EntitiesOf(seen), name, key) <==> HasColumn(origin, key))
  {
    hide RemoveSpaces;
    var entities := EntitiesOf(seen);
    NamedFinds(entities, name);
    if HasEntity(entities, name) {
      var e := Named(entities, name).value;
      var i :| 0 <= i < |entities| && entities[i] == e;
      assert seen[i] in FIXTURE_CATALOGUE;
      ShippedNames(seen[i]);
      EntityMirrorsObject(seen[i], key);
      assert seen[i] == origin;
    }
  }

  /** What the shipped display names look like without their spaces. */
  lemma ShippedNames(o: CatalogueObject)
    requires o in FIXTURE_CATALOGUE
    ensures RemoveSpaces(o.displayName) == "Orders" <==> o == ORDERS
    ensures RemoveSpaces(o.displayName) == "Customers" <==> o == CUSTOMERS
  {
    hide RemoveSpaces;
    NoSpaces("Orders");
    NoSpaces("Customers");
    NoSpaces("Products");
    NoSpaces("Salaries");
    FirstStays("Access logs");
    assert "Orders"[0] == 'O' && "Customers"[0] == 'C' && "Products"[0] == 'P' && "Salaries"[0] == 'S';
  }

  lemma {:induction false} FirstStays(s: string)
    requires s != "" && s[0] != ' '
    ensures var t := RemoveSpaces(s); t != "" && t[0] == s[0]
  {
    if |s| > 1 {
      FirstStays(s[..|s| - 1]);
    } else {
      assert s == s[..0] + [s[0]] && RemoveSpaces(s[..0]) == "";
    }
  }

  /** Not the shipped catalogue, but one that the types admit. */
  const HYPOTHETICAL_CATALOGUE := [CatalogueObject("1", "Orders", [], []), CatalogueObject("2", "Customers", [], [])]

  /** For another catalogue the condition can fail: two objects without columns are joined all
      the same. */
  lemma CustomerJoinMayDangle()
    ensures var p := Propose(HYPOTHETICAL_CATALOGUE, None, None, false);
      && Join("Orders", "Customers", "customer_id") in p.relationships
      && forall e :: e in p.entities ==> !HasAttribute(e, "customer_id")
  {
    hide RemoveSpaces, Named, JoinsOf;
    NoSpaces("Orders");
    NoSpaces("Customers");
    var entities := EntitiesOf(HYPOTHETICAL_CATALOGUE);
    assert entities[0] in entities && entities[1] in entities;
    CustomerJoinIsUnchecked(entities);
  }

  lemma {:induction false} NoSpaces(s: string)
    requires ' ' !in s
    ensures RemoveSpaces(s) == s
  {
    if s != [] {
      NoSpaces(s[..|s| - 1]);
    }
  }

  /** `text` ends in `end`. */
  predicate EndsIn(text: string, end: string) {
    |end| <= |text| && text[|text| - |end|..] == end
  }

  /** The requirement's summary and the reviewer's comments reach the notes, and without them there
      are no notes. */
  lemma NotesTell(tr: Option<TechnicalRequirementPayload>, feedback: Option<string>)
    ensures tr.Some? ==> exists n :: n in NotesOf(tr, feedback) && EndsIn(n, tr.value.summary)
    ensures feedback.Some? && feedback.value != "" ==>
      exists n :: n in NotesOf(tr, feedback) && EndsIn(n, feedback.value)
    ensures tr.None? && (feedback.None? || feedback.value == "") <==> NotesOf(tr, feedback) == []
  {
    hide CommaJoin;
    var notes := NotesOf(tr, feedback);
    if tr.Some? {
      assert notes[0] in notes && EndsIn(notes[0], tr.value.summary);
    }
    if feedback.Some? && feedback.value != "" {
      assert notes[|notes| - 1] in notes && EndsIn(notes[|notes| - 1], feedback.value);
    }
  }

  // ----- the judge -----

  function RetrySchema(s: nat, l: nat, cap: nat, note: string): JudgeResult {
    if s + 1 > cap then JudgeResult(Escalate, note + "; exhausted", s, l) else JudgeResult(SchemaIssue, note, s + 1, l)
  }

  function RetryLogic(s: nat, l: nat, cap: nat, note: string): JudgeResult {
    if l + 1 > cap then JudgeResult(Escalate, note + "; exhausted", s, l) else JudgeResult(LogicIssue, note, s, l + 1)
  }

  function Evaluate(
    discoveredIds: seq<string>,
    p: Proposal,
    s: nat,
    l: nat,
    schemaCap: nat,
    logicCap: nat,
    force: Option<Outcome>): JudgeResult
  {
    match force
    case Some(SchemaIssue) => RetrySchema(s, l, schemaCap, "forced schema issue")
    case Some(LogicIssue) => RetryLogic(s, l, logicCap, "forced logic issue")
    case Some(Escalate) => JudgeResult(Escalate, "forced escalation", s, l)
    case Some(Passed) => JudgeResult(Passed, "forced pass", s, l)
    case None =>
      if p.sourceIds == [] then
        RetrySchema(s, l, schemaCap, "no source objects")
      else if exists id :: id in p.sourceIds && id !in discoveredIds then
        RetrySchema(s, l, schemaCap, "unknown sources")
      else if |p.entities| < 1 then
        RetryLogic(s, l, logicCap, "no entities")
      else
        JudgeResult(Passed, "accepted", s, l)
  }

  function StageAfter(outcome: Outcome): MappingStage {
    match outcome
    case Passed => ToPersist
    case SchemaIssue => ToDiscovery
    case LogicIssue => ToDataMapping
    case Escalate => ToPersist
  }

  /** Without a test hook a pass means: some source, every source discovered, some entity. */
  lemma UnforcedPassIsSound(ids: seq<string>, p: Proposal, s: nat, l: nat, schemaCap: nat, logicCap: nat)
    ensures Evaluate(ids, p, s, l, schemaCap, logicCap, None).outcome == Passed
      <==> p.sourceIds != [] && (forall id :: id in p.sourceIds ==> id in ids) && p.entities != []
  {
  }

  /** Unsound sources are blamed on the schema whatever the entities, a lack of entities on the
      logic; the counter blamed grows by one while its cap allows and otherwise the judge gives
      up, the other counter never moves, and a forced issue follows the same rule. */
  lemma BlameAndCounters(
    ids: seq<string>,
    p: Proposal,
    s: nat,
    l: nat,
    schemaCap: nat,
    logicCap: nat,
    force: Option<Outcome>)
    ensures var r := Evaluate(ids, p, s, l, schemaCap, logicCap, force);
      var unsound := p.sourceIds == [] || exists id :: id in p.sourceIds && id !in ids;
      var schema := force == Some(SchemaIssue) || (force.None? && unsound);
      var logic := force == Some(LogicIssue) || (force.None? && !unsound && p.entities == []);
      && (r.outcome == SchemaIssue <==> schema && s < schemaCap)
      && (r.outcome == LogicIssue <==> logic && l < logicCap)
      && (r.outcome == Escalate <==> force == Some(Escalate) || (schema && s >= schemaCap) || (logic && l >= logicCap))
      && r.schemaRetries == s + (if r.outcome == SchemaIssue then 1 else 0)
      && r.logicRetries == l + (if r.outcome == LogicIssue then 1 else 0)
  {
  }

  function Room(cap: nat, used: nat): nat {
    if used < cap then cap - used else 0
  }

  /** One pass by the judge: what was discovered, what was proposed, which hook is set. */
  datatype Attempt = Attempt(discoveredIds: seq<string>, proposal: Proposal, force: Option<Outcome>)

  /** How the loop ends: the last verdict, the counters, how often the judge ran and how many
      graph nodes ran from the first judge pass to the last. */
  datatype LoopEnd = LoopEnd(last: JudgeResult, judged: nat, nodes: nat)

  /** The judge loop over any attempts: a schema issue repeats discovery, mapping and judge, a
      logic issue only mapping and judge. */
  ghost function JudgeLoop(attempts: nat -> Attempt, round: nat, s: nat, l: nat, schemaCap: nat, logicCap: nat): LoopEnd
    decreases Room(schemaCap, s) + Room(logicCap, l)
  {
    var a := attempts(round);
    var r := Evaluate(a.discoveredIds, a.proposal, s, l, schemaCap, logicCap, a.force);
    match StageAfter(r.outcome)
    case ToDiscovery =>
      var rest := JudgeLoop(attempts, round + 1, r.schemaRetries, r.logicRetries, schemaCap, logicCap);
      LoopEnd(rest.last, rest.judged + 1, rest.nodes + 3)
    case ToDataMapping =>
      var rest := JudgeLoop(attempts, round + 1, r.schemaRetries, r.logicRetries, schemaCap, logicCap);
      LoopEnd(rest.last, rest.judged + 1, rest.nodes + 2)
    case ToPersist => LoopEnd(r, 1, 1)
  }

  lemma {:induction false} JudgeLoopCounts(
    attempts: nat -> Attempt,
    round: nat,
    s: nat,
    l: nat,
    schemaCap: nat,
    logicCap: nat)
    requires s <= schemaCap && l <= logicCap
    ensures var end := JudgeLoop(attempts, round, s, l, schemaCap, logicCap);
      && s <= end.last.schemaRetries <= schemaCap && l <= end.last.logicRetries <= logicCap
      && end.judged == 1 + (end.last.schemaRetries - s) + (end.last.logicRetries - l)
      && end.nodes == 1 + 3 * (end.last.schemaRetries - s) + 2 * (end.last.logicRetries - l)
      && end.last.outcome in {Passed, Escalate}
    decreases Room(schemaCap, s) + Room(logicCap, l)
  {
    var a := attempts(round);
    var r := Evaluate(a.discoveredIds, a.proposal, s, l, schemaCap, logicCap, a.force);
    if StageAfter(r.outcome) != ToPersist {
      JudgeLoopCounts(attempts, round + 1, r.schemaRetries, r.logicRetries, schemaCap, logicCap);
    }
  }

  /** From the counter reset through persisting, whatever is proposed or forced: the judge runs
      at most S + L + 1 times and at most 5 + 3S + 2L nodes run. The four nodes outside the loop
      are the reset, the first discovery, the first mapping and the persist node. */
  lemma MappingLoopIsBounded(attempts: nat -> Attempt, schemaCap: nat, logicCap: nat)
    ensures var end := JudgeLoop(attempts, 0, 0, 0, schemaCap, logicCap);
      && end.last.schemaRetries <= schemaCap && end.last.logicRetries <= logicCap
      && 1 <= end.judged <= schemaCap + logicCap + 1
      && end.nodes + 4 == 5 + 3 * end.last.schemaRetries + 2 * end.last.logicRetries
      && end.nodes + 4 <= 5 + 3 * schemaCap + 2 * logicCap
  {
    JudgeLoopCounts(attempts, 0, 0, 0, schemaCap, logicCap);
  }

  /** The bound is reached: forcing first schema, then logic issues uses up both caps. */
  lemma MappingLoopBoundIsTight(schemaCap: nat, logicCap: nat)
    ensures exists attempts: nat -> Attempt ::
      JudgeLoop(attempts, 0, 0, 0, schemaCap, logicCap).judged == schemaCap + logicCap + 1
  {
    var p := Proposal([], [], [], []);
    var attempts: nat -> Attempt := i => Attempt([], p, Some(if i < schemaCap then SchemaIssue else LogicIssue));
    ForcedLoop(attempts, 0, 0, schemaCap, logicCap);
  }

  lemma {:induction false} ForcedLoop(attempts: nat -> Attempt, s: nat, l: nat, schemaCap: nat, logicCap: nat)
    requires s <= schemaCap && l <= logicCap && (l > 0 ==> s == schemaCap)
    requires forall i: nat :: attempts(i).force == Some(if i < schemaCap then SchemaIssue else LogicIssue)
    ensures JudgeLoop(attempts, s + l, s, l, schemaCap, logicCap).judged == schemaCap - s + logicCap - l + 1
    decreases schemaCap - s + logicCap - l
  {
    if s < schemaCap {
      ForcedLoop(attempts, s + 1, l, schemaCap, logicCap);
    } else if l < logicCap {
      ForcedLoop(attempts, s, l + 1, schemaCap, logicCap);
    }
  }

  /** The real builder without hooks: a non-empty visible set passes at the first judgement; an
      empty one uses every schema retry and escalates. */
  lemma RealBuilderLoop(
    discovered: seq<CatalogueObject>,
    tr: Option<TechnicalRequirementPayload>,
    feedback: Option<string>,
    attempts: nat -> Attempt,
    schemaCap: nat,
    logicCap: nat)
    requires forall i: nat ::
      attempts(i) == Attempt(ObjectIds(discovered), Propose(discovered, tr, feedback, false), None)
    ensures var end := JudgeLoop(attempts, 0, 0, 0, schemaCap, logicCap);
      if discovered != [] then
        end.judged == 1 && end.last.outcome == Passed
      else
        end.judged == schemaCap + 1 && end.last.outcome == Escalate && end.last.schemaRetries == schemaCap
  {
    if discovered != [] {
      assert ObjectIds(discovered)[0] in ObjectIds(discovered);
      UnforcedPassIsSound(ObjectIds(discovered), Propose(discovered, tr, feedback, false), 0, 0, schemaCap, logicCap);
    } else {
      EmptyLoop(attempts, 0, schemaCap, logicCap);
    }
  }

  lemma {:induction false} EmptyLoop(attempts: nat -> Attempt, s: nat, schemaCap: nat, logicCap: nat)
    requires s <= schemaCap
    requires forall i: nat :: attempts(i).proposal.sourceIds == [] && attempts(i).force == None
    ensures var end := JudgeLoop(attempts, s, s, 0, schemaCap, logicCap);
      end.judged == schemaCap - s + 1 && end.last.outcome == Escalate && end.last.schemaRetries == schemaCap
    decreases schemaCap - s
  {
    if s < schemaCap {
      EmptyLoop(attempts, s + 1, schemaCap, logicCap);
    }
  }

  // ----- the persisted slice -----

  const PLACEHOLDER := Entity("PlaceholderEntity", [Attribute("id", "string", false)], ["id"])
  const SLICE_GOVERNANCE := Governance([], [], ["Derived only from user-visible fixture objects"], map[])
  const ESCALATED_NOTE := "ESCALATED: judge retry caps exhausted; human review required."

  function Slice(p: Proposal, judgeNotes: Option<string>, escalated: bool): DataModelPayload {
    var notes := p.notes
      + (if judgeNotes.Some? && judgeNotes.value != "" then [judgeNotes.value] else [])
      + (if escalated then [ESCALATED_NOTE] else []);
    DataModelFields(
      if p.entities == [] then [PLACEHOLDER] else p.entities,
      p.relationships,
      Context(p.sourceIds, notes, escalated, None),
      Some(SLICE_GOVERNANCE))
  }

  /** What a slice keeps of its proposal: all entities, or one placeholder where there is none;
      relationships and sources as they are; the notes, followed by what the judge said and, only
      if it gave up, by the warning. */
  lemma SliceKeepsProposal(p: Proposal, judgeNotes: Option<string>, escalated: bool)
    ensures var dm := Slice(p, judgeNotes, escalated);
      && (p.entities != [] ==> dm.entities == p.entities)
      && (p.entities == [] ==> dm.entities == [PLACEHOLDER])
      && dm.relationships == p.relationships && dm.context.sourceIds == p.sourceIds
      && dm.context.escalated == escalated && p.notes <= dm.context.notes
      && (judgeNotes.Some? && judgeNotes.value != "" ==> judgeNotes.value in dm.context.notes)
      && (ESCALATED_NOTE in dm.context.notes
          <==> escalated || ESCALATED_NOTE in p.notes || judgeNotes == Some(ESCALATED_NOTE))
  {
    var notes := Slice(p, judgeNotes, escalated).context.notes;
    var said := if judgeNotes.Some? && judgeNotes.value != "" then [judgeNotes.value] else [];
    var warned := if escalated then [ESCALATED_NOTE] else [];
    assert notes == p.notes + said + warned;
    assert |ESCALATED_NOTE| > 0;
    assert judgeNotes.Some? && judgeNotes.value != "" ==> said[0] in said;
    assert escalated ==> warned[0] in warned;
  }

  /** A slice of the builder's proposal relates only entities it has. */
  lemma SliceIsClosed(
    discovered: seq<CatalogueObject>,
    tr: Option<TechnicalRequirementPayload>,
    feedback: Option<string>,
    forceEmptySources: bool,
    judgeNotes: Option<string>,
    escalated: bool,
    r: Relationship)
    requires r in Slice(Propose(discovered, tr, feedback, forceEmptySources), judgeNotes, escalated).relationships
    ensures var dm := Slice(Propose(discovered, tr, feedback, forceEmptySources), judgeNotes, escalated);
      HasEntity(dm.entities, r.fromEntity) && HasEntity(dm.entities, r.toEntity)
  {
    ProposalIsClosed(discovered, tr, feedback, forceEmptySources, r);
  }

  method ProposalToDataModel(p: Proposal, judgeNotes: Option<string>, escalated: bool) returns (dm: DataModelPayload)
    ensures dm == Slice(p, judgeNotes, escalated)
    ensures |dm.entities| >= 1 && dm.relationships == p.relationships && dm.context.sourceIds == p.sourceIds
    ensures forall e :: e in p.entities ==> e in dm.entities
    ensures p.notes <= dm.context.notes
    ensures dm.context.escalated == escalated && (escalated ==> ESCALATED_NOTE in dm.context.notes)
  {
    var entities: seq<Entity> := [];
    for i := 0 to |p.entities|
      invariant entities == p.entities[..i]
    {
      entities := entities + [p.entities[i]];
    }
    if entities == [] {
      entities := [PLACEHOLDER];
    }
    var notes := p.notes;
    if judgeNotes.Some? && judgeNotes.value != "" {
      notes := notes + [judgeNotes.value];
    }
    if escalated {
      notes := notes + [ESCALATED_NOTE];
    }
    var context := Context(p.sourceIds, notes, escalated, None);
    dm := DataModelFields(entities, p.relationships, context, Some(SLICE_GOVERNANCE));
  }
}
