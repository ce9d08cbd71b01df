/** The store: four tables shared by all runs. Each method is one transaction and writes its
    audit event together with its row. What it does is stated on the view of the run it
    belongs to; the views of all other runs stay as they are. */
module ArtefactStore {
  import opened Domain
  import opened RunLog

  /** The entries of one run, in insertion order. */
  function Own<T>(table: seq<(Uuid, T)>, run: Uuid): seq<T> {
    if table == [] then
      []
    else
      var n := |table| - 1;
      if table[n].0 == run then Own(table[..n], run) + [table[n].1] else Own(table[..n], run)
  }

  function Items<T>(table: seq<(Uuid, T)>): seq<T> {
    if table == [] then [] else Items(table[..|table| - 1]) + [table[|table| - 1].1]
  }

  lemma OwnAppend<T>(table: seq<(Uuid, T)>, run: Uuid, x: T)
    ensures forall r :: Own(table + [(run, x)], r) == if r == run then Own(table, r) + [x] else Own(table, r)
  {
    assert (table + [(run, x)])[..|table|] == table;
  }

  lemma {:induction false} OwnNothing<T>(table: seq<(Uuid, T)>, run: Uuid)
    requires forall e :: e in table ==> e.0 != run
    ensures Own(table, run) == []
  {
    if table != [] {
      OwnNothing(table[..|table| - 1], run);
    }
  }

  lemma {:induction false} OwnMembers<T>(table: seq<(Uuid, T)>, run: Uuid, x: T)
    ensures x in Own(table, run) <==> (run, x) in table
  {
    if table != [] {
      var n := |table| - 1;
      OwnMembers(table[..n], run, x);
      assert forall e :: e in table <==> e in table[..n] || e == table[n];
    }
  }

  /** A query by id over the whole table is a query over the run that uses the id. */
  lemma {:induction false} MatchingOwn(table: seq<(Uuid, Row)>, run: Uuid, id: Uuid, version: Option<nat>)
    requires forall e :: e in table && e.1.id == id ==> e.0 == run
    ensures Matching(Items(table), id, version) == Matching(Own(table, run), id, version)
  {
    if table != [] {
      var n := |table| - 1;
      assert forall e :: e in table[..n] ==> e in table;
      MatchingOwn(table[..n], run, id, version);
      assert table[n] in table;
    }
  }

  class PostgresArtefactStore {
    var runs: map<Uuid, RunStatus>
    var artefacts: seq<(Uuid, Row)>
    var edges: seq<(Uuid, Edge)>
    var events: seq<(Uuid, Event)>
    /** Every uuid in use is below this one; uuid4 returns it and moves on. */
    var minted: Uuid

    ghost function View(run: Uuid): RunView
      requires run in runs
      reads this
    {
      RunView(runs[run], Own(artefacts, run), Own(edges, run), Own(events, run))
    }

    /** Foreign keys, unused uuids, the unique constraint, and a log that tells every run's story. */
    ghost predicate Valid()
      reads this
    {
      && (forall run :: run in runs ==> run < minted)
      && (forall e :: e in artefacts ==> e.0 in runs && e.1.id < minted)
      && (forall e :: e in edges ==> e.0 in runs)
      && (forall e :: e in events ==> e.0 in runs)
      && (forall i, j :: 0 <= i < j < |artefacts| ==>
            artefacts[i].0 != artefacts[j].0 || artefacts[i].1.kind != artefacts[j].1.kind
            || artefacts[i].1.version != artefacts[j].1.version)
      && (forall run :: run in runs ==> Faithful(View(run)))
    }

    /** No artefact id is used by two runs. */
    ghost predicate Confined()
      reads this
    {
      forall e, f :: e in artefacts && f in artefacts && e.1.id == f.1.id ==> e.0 == f.0
    }

    /** An id that the caller passes on is one that this run uses. */
    ghost predicate KnowsId(run: Uuid, q: Request)
      reads this
    {
      q.artefactId.Some? ==> exists row :: (run, row) in artefacts && row.id == q.artefactId.value
    }

    constructor ()
      ensures Valid() && Confined() && runs == map[]
    {
      runs := map[];
      artefacts, edges, events := [], [], [];
      minted := 0;
    }

    method CreateRun(runId: Option<Uuid>) returns (r: Result<Uuid, StoreError>)
      requires Valid()
      modifies this
      ensures Valid() && (old(Confined()) ==> Confined())
      ensures r == (if runId.Some? && runId.value in old(runs) then Err(Conflict)
                    else Ok(if runId.Some? then runId.value else old(minted)))
      ensures r.Err? ==> runs == old(runs) && minted == old(minted)
      ensures r.Ok? ==> r.value !in old(runs) && runs.Keys == old(runs.Keys) + {r.value} && View(r.value) == NEW_RUN
      ensures r.Ok? ==> minted == Max(old(minted), r.value + 1)
      ensures forall run :: run in old(runs) ==> run in runs && View(run) == old(View(run))
    {
      hide Faithful, Own;
      var run := if runId.Some? then runId.value else minted;
      if run in runs {
        return Err(Conflict);
      }
      OwnNothing(artefacts, run);
      OwnNothing(edges, run);
      OwnNothing(events, run);
      OwnAppend(events, run, RunCreated);
      NewRunFaithful();
      runs := runs[run := Created];
      events := events + [(run, RunCreated)];
      minted := Max(minted, run + 1);
      assert View(run) == NEW_RUN;
      r := Ok(run);
    }

    method GetRun(run: Uuid) returns (r: Result<RunStatus, StoreError>)
      ensures r == if run in runs then Ok(runs[run]) else Err(NotFound)
    {
      r := if run in runs then Ok(runs[run]) else Err(NotFound);
    }

    method UpdateRunStatus(run: Uuid, status: RunStatus) returns (r: Result<RunStatus, StoreError>)
      requires Valid()
      modifies this
      ensures Valid() && (old(Confined()) ==> Confined()) && runs.Keys == old(runs.Keys) && minted == old(minted)
      ensures r == if run in old(runs) then Ok(status) else Err(NotFound)
      ensures run in old(runs) ==> View(run) == SetStatus(old(View(run)), status)
      ensures forall other :: other in old(runs) && other != run ==> View(other) == old(View(other))
    {
      hide Faithful, Own;
      if run !in runs {
        return Err(NotFound);
      }
      var previous := runs[run];
      OwnAppend(events, run, StatusUpdated(previous, status));
      TransactionsFaithful(View(run), status, Approve, None, ARow(), Edge(Ptr(0, 0), Ptr(0, 0)));
      runs := runs[run := status];
      events := events + [(run, StatusUpdated(previous, status))];
      r := Ok(status);
    }

    method RecordReview(run: Uuid, decision: Decision, artefact: Option<Ptr>) returns (r: Result<(), StoreError>)
      requires Valid()
      modifies this
      ensures Valid() && (old(Confined()) ==> Confined()) && runs == old(runs) && minted == old(minted)
      ensures r == if run in old(runs) then Ok(()) else Err(NotFound)
      ensures run in old(runs) ==> View(run) == AddReview(old(View(run)), decision, artefact)
      ensures forall other :: other in old(runs) && other != run ==> View(other) == old(View(other))
    {
      hide Faithful, Own;
      if run !in runs {
        return Err(NotFound);
      }
      OwnAppend(events, run, ReviewSubmitted(decision, artefact));
      TransactionsFaithful(View(run), Created, decision, artefact, ARow(), Edge(Ptr(0, 0), Ptr(0, 0)));
      events := events + [(run, ReviewSubmitted(decision, artefact))];
      r := Ok(());
    }

    method CreateLineageEdge(run: Uuid, edge: Edge) returns (r: Result<(), StoreError>)
      requires Valid()
      modifies this
      ensures Valid() && (old(Confined()) ==> Confined()) && runs == old(runs) && minted == old(minted)
      ensures artefacts == old(artefacts)
      ensures r == if run in old(runs) then Ok(()) else Err(NotFound)
      ensures run in old(runs) ==> View(run) == AddEdge(old(View(run)), edge)
      ensures forall other :: other in old(runs) && other != run ==> View(other) == old(View(other))
    {
      hide Faithful, Own;
      if run !in runs {
        return Err(NotFound);
      }
      OwnAppend(edges, run, edge);
      OwnAppend(events, run, LineageCreated(edge));
      TransactionsFaithful(View(run), Created, Approve, None, ARow(), edge);
      edges := edges + [(run, edge)];
      events := events + [(run, LineageCreated(edge))];
      r := Ok(());
    }

    /** Saves a version of the caller's or the store's choosing; a taken one is a conflict that
        leaves every table as it was. */
    method SaveArtefact(run: Uuid, q: Request) returns (r: Result<Row, StoreError>)
      requires Valid()
      modifies this
      ensures Valid() && runs == old(runs) && old(artefacts) <= artefacts
      ensures old(Confined() && KnowsId(run, q)) ==> Confined()
      ensures run !in old(runs) ==> r == Err(NotFound) && minted == old(minted)
      ensures run in old(runs) ==>
        match old(Save(View(run), minted, q))
        case Err(e) => r == Err(e) && View(run) == old(View(run)) && minted == old(minted)
        case Ok(s) => r == Ok(s.row) && View(run) == s.view && minted == s.minted
      ensures forall other :: other in old(runs) && other != run ==> View(other) == old(View(other))
    {
      hide Faithful, Own, VersionFor, KnownId, Taken;
      if run !in runs {
        return Err(NotFound);
      }
      if KindOf(q.payload) != q.kind {
        return Err(InvalidPayload);
      }
      var rows := Own(artefacts, run);
      var version := VersionFor(rows, q);
      var known := KnownId(rows, q);
      var id := if known.Some? then known.value else minted;
      if version < 1 || Taken(rows, q.kind, version) {
        return Err(Conflict);
      }
      var row := Row(id, q.kind, version, q.payload, q.governance, q.sourceRefs, q.parents);
      Insert(run, q, row);
      r := Ok(row);
    }

    /** The row and its audit event, under a version that no row of its type has. */
    method Insert(run: Uuid, q: Request, row: Row)
      requires Valid() && run in runs && !Taken(Own(artefacts, run), q.kind, row.version) && row.kind == q.kind
      requires KnownId(Own(artefacts, run), q) == Some(row.id) || row.id == minted
      modifies this
      ensures Valid() && runs == old(runs) && artefacts == old(artefacts) + [(run, row)]
      ensures old(Confined() && KnowsId(run, q)) ==> Confined()
      ensures View(run) == AddRow(old(View(run)), row) && minted == Max(old(minted), row.id + 1)
      ensures forall other :: other in runs && other != run ==> View(other) == old(View(other))
    {
      hide Faithful, Own, KnownId, Taken;
      InsertIsSound(run, q, row);
      artefacts := artefacts + [(run, row)];
      events := events + [(run, ArtefactCreated(row.ToRef()))];
      minted := Max(minted, row.id + 1);
      assert forall r :: r in runs ==> View(r) == if r == run then AddRow(old(View(r)), row) else old(View(r));
    }

    /** Inserting a row under a free version keeps what the tables guarantee. */
    lemma InsertIsSound(run: Uuid, q: Request, row: Row)
      requires Valid() && run in runs && !Taken(Own(artefacts, run), q.kind, row.version) && row.kind == q.kind
      requires KnownId(Own(artefacts, run), q) == Some(row.id) || row.id == minted
      ensures forall r ::
        Own(artefacts + [(run, row)], r) == (if r == run then Own(artefacts, r) + [row] else Own(artefacts, r))
      ensures forall r ::
        Own(events + [(run, ArtefactCreated(row.ToRef()))], r)
        == (if r == run then Own(events, r) + [ArtefactCreated(row.ToRef())] else Own(events, r))
      ensures Faithful(AddRow(View(run), row))
      ensures forall e :: e in artefacts ==> e.0 != run || e.1.kind != row.kind || e.1.version != row.version
      ensures Confined() && KnowsId(run, q) ==> forall e :: e in artefacts && e.1.id == row.id ==> e.0 == run
    {
      var rows := Own(artefacts, run);
      OwnAppend(artefacts, run, row);
      OwnAppend(events, run, ArtefactCreated(row.ToRef()));
      TransactionsFaithful(View(run), Created, Approve, None, row, Edge(Ptr(0, 0), Ptr(0, 0)));
      OfKindMembers(rows, q.kind);
      forall e | e in artefacts
        ensures e.0 != run || e.1.kind != row.kind || e.1.version != row.version
      {
        OwnMembers(artefacts, run, e.1);
        assert e == (e.0, e.1);
      }
      if IdFor(rows, q.kind).Some? {
        var own := OfKind(rows, q.kind);
        assert own[0] in own;
        OwnMembers(artefacts, run, own[0]);
      }
    }

    method GetArtefact(id: Uuid, version: Option<nat>) returns (r: Result<Row, StoreError>)
      ensures r == Find(Items(artefacts), id, version)
    {
      r := Find(Items(artefacts), id, version);
    }

    method ListArtefactsForRun(run: Uuid) returns (r: Result<seq<Ref>, StoreError>)
      ensures r == if run in runs then Ok(Refs(Own(artefacts, run))) else Err(NotFound)
    {
      r := if run in runs then Ok(Refs(Own(artefacts, run))) else Err(NotFound);
    }
  }
}
