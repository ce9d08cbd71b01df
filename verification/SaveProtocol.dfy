/** Many sessions saving auto-versioned artefacts at once. Each one reads the next version,
    then the artefact id, then inserts its row and its audit event in one transaction; the
    unique constraint on (run, type, version) turns a lost race into a conflict. Queries see
    the rows committed when they start. */
module SaveProtocol {
  import opened Domain
  import RunLog

  datatype Key = Key(run: Uuid, kind: Kind)

  datatype Stored = Stored(key: Key, id: Uuid, version: nat, writer: nat)

  datatype Phase =
    | Begun
    | HasVersion(version: nat)
    | HasId(version: nat, id: Uuid)
    | Saved(version: nat, id: Uuid)
    | Conflicted

  /** One save_artefact call. `given` is an artefact id the caller obtained from an earlier save. */
  datatype Writer = Writer(key: Key, given: Option<Uuid>, phase: Phase)

  /** `minted` remembers for which key each uuid was generated. */
  datatype System = System(
    rows: seq<Stored>,
    audit: seq<Stored>,
    writers: seq<Writer>,
    minted: map<Uuid, Key>)

  function RowsOf(rows: seq<Stored>, key: Key): seq<Stored> {
    if rows == [] then
      []
    else
      var n := |rows| - 1;
      RowsOf(rows[..n], key) + if rows[n].key == key then [rows[n]] else []
  }

  function VersionsOf(rows: seq<Stored>): (versions: seq<nat>)
    ensures |versions| == |rows| && forall i :: 0 <= i < |rows| ==> versions[i] == rows[i].version
  {
    seq(|rows|, i requires 0 <= i < |rows| => rows[i].version)
  }

  /** Highest stored version plus one, one if there is none. */
  function NextVersion(rows: seq<Stored>, key: Key): nat {
    MaxOf(VersionsOf(RowsOf(rows, key))) + 1
  }

  predicate Taken(rows: seq<Stored>, key: Key, version: nat) {
    exists r :: r in rows && r.key == key && r.version == version
  }

  datatype Action =
    | Arrive(key: Key, given: Option<Uuid>)
    | ReadVersion(w: nat)
    | ReadId(w: nat, id: Uuid)
    | Commit(w: nat)

  function WithPhase(s: System, w: nat, phase: Phase): System
    requires w < |s.writers|
  {
    s.(writers := s.writers[w := s.writers[w].(phase := phase)])
  }

  ghost predicate Enabled(s: System, a: Action) {
    match a
    case Arrive(key, given) =>
      given.Some? ==> exists r :: r in s.rows && r.key == key && r.id == given.value
    case ReadVersion(w) =>
      w < |s.writers| && s.writers[w].phase.Begun?
    case ReadId(w, id) =>
      && w < |s.writers| && s.writers[w].phase.HasVersion?
      && var writer := s.writers[w];
         if writer.given.Some? then
           id == writer.given.value
         else if RowsOf(s.rows, writer.key) != [] then
           // LIMIT 1 without an order: any row of the key may answer.
           exists r :: r in RowsOf(s.rows, writer.key) && r.id == id
         else
           id !in s.minted
    case Commit(w) =>
      w < |s.writers| && s.writers[w].phase.HasId?
  }

  ghost function Do(s: System, a: Action): System
    requires Enabled(s, a)
  {
    match a
    case Arrive(key, given) => s.(writers := s.writers + [Writer(key, given, Begun)])
    case ReadVersion(w) => WithPhase(s, w, HasVersion(NextVersion(s.rows, s.writers[w].key)))
    case ReadId(w, id) =>
      var key := s.writers[w].key;
      var s' := WithPhase(s, w, HasId(s.writers[w].phase.version, id));
      if id in s.minted then s' else s'.(minted := s.minted[id := key])
    case Commit(w) =>
      var Writer(key, _, HasId(version, id)) := s.writers[w];
      if Taken(s.rows, key, version) then
        WithPhase(s, w, Conflicted)
      else
        var row := Stored(key, id, version, w);
        WithPhase(s, w, Saved(version, id)).(rows := s.rows + [row], audit := s.audit + [row])
  }

  const INITIAL := System([], [], [], map[])

  /** `end` follows from `s` by some finite interleaving of steps of any number of saves. */
  ghost predicate Runs(s: System, steps: seq<Action>, end: System)
    decreases |steps|
  {
    if steps == [] then
      s == end
    else
      Enabled(s, steps[0]) && Runs(Do(s, steps[0]), steps[1..], end)
  }

  /** Versions of each (run, type) are 1..n in commit order, all under one artefact id. */
  ghost predicate Dense(rows: seq<Stored>) {
    forall key, i :: 0 <= i < |RowsOf(rows, key)| ==>
      && RowsOf(rows, key)[i].version == i + 1
      && RowsOf(rows, key)[i].id == RowsOf(rows, key)[0].id
  }

  /** A writer past its version read holds a version that was next at some moment; if an
      earlier version existed then, the id it read afterwards is the shared one. */
  ghost predicate WriterOk(s: System, w: Writer) {
    var own := RowsOf(s.rows, w.key);
    && (w.given.Some? ==> own != [] && own[0].id == w.given.value)
    && match w.phase
       case Begun => true
       case HasVersion(v) => 1 <= v <= |own| + 1
       case HasId(v, id) =>
         && 1 <= v <= |own| + 1
         && (v >= 2 ==> own[0].id == id)
         && id in s.minted && s.minted[id] == w.key
       case Saved(v, id) => 1 <= v <= |own| && own[v - 1].id == id
       case Conflicted => true
  }

  /** Rows and successful writers correspond one to one. */
  ghost predicate RowsHaveWriters(s: System) {
    && (forall i :: 0 <= i < |s.rows| ==>
          && s.rows[i].writer < |s.writers|
          && s.writers[s.rows[i].writer].key == s.rows[i].key
          && s.writers[s.rows[i].writer].phase == Saved(s.rows[i].version, s.rows[i].id))
    && (forall i, j :: 0 <= i < j < |s.rows| ==> s.rows[i].writer != s.rows[j].writer)
    && (forall w :: 0 <= w < |s.writers| && s.writers[w].phase.Saved? ==>
          exists r :: r in s.rows && r.writer == w)
  }

  ghost predicate Inv(s: System) {
    && Dense(s.rows)
    && s.audit == s.rows
    && (forall r :: r in s.rows ==> r.id in s.minted && s.minted[r.id] == r.key)
    && (forall w :: w in s.writers ==> WriterOk(s, w))
  }

  lemma {:induction false} RowsOfMembers(rows: seq<Stored>, key: Key)
    ensures forall r :: r in RowsOf(rows, key) <==> r in rows && r.key == key
  {
    if rows != [] {
      var n := |rows| - 1;
      RowsOfMembers(rows[..n], key);
      assert forall r :: r in rows <==> r in rows[..n] || r == rows[n];
    }
  }

  /** A commit loses exactly when some other save took its version first. */
  lemma TakenExactlyWhenBehind(s: System, key: Key, v: nat)
    requires Dense(s.rows) && v >= 1
    ensures Taken(s.rows, key, v) <==> v <= |RowsOf(s.rows, key)|
  {
    RowsOfMembers(s.rows, key);
    var own := RowsOf(s.rows, key);
    if v <= |own| {
      assert own[v - 1] in own && own[v - 1].version == v;
    }
    if r :| r in s.rows && r.key == key && r.version == v {
      var i :| 0 <= i < |own| && own[i] == r;
    }
  }

  lemma RowsOfAppend(rows: seq<Stored>, row: Stored, key: Key)
    ensures RowsOf(rows + [row], key) == RowsOf(rows, key) + if row.key == key then [row] else []
  {
    assert (rows + [row])[..|rows|] == rows;
  }

  /** What a writer knows stays true while rows and uuids are only added. */
  lemma WriterOkStays(s: System, s': System, w: Writer)
    requires WriterOk(s, w)
    requires RowsOf(s.rows, w.key) <= RowsOf(s'.rows, w.key)
    requires forall id :: id in s.minted ==> id in s'.minted && s'.minted[id] == s.minted[id]
    ensures WriterOk(s', w)
  {
  }

  /** The rows of each key after a commit: at most one more, of the writer's own key. */
  lemma RowsAfterCommit(s: System, w: nat, k: Key)
    requires Enabled(s, Commit(w))
    ensures var s' := Do(s, Commit(w)); var Writer(key, _, HasId(v, id)) := s.writers[w];
      RowsOf(s'.rows, k) ==
      if k == key && !Taken(s.rows, key, v) then RowsOf(s.rows, k) + [Stored(key, id, v, w)] else RowsOf(s.rows, k)
  {
    hide RowsOf, Taken;
    var Writer(key, given, HasId(v, id)) := s.writers[w];
    RowsOfAppend(s.rows, Stored(key, id, v, w), k);
  }

  lemma CommitKeepsDense(s: System, w: nat)
    requires Inv(s) && Enabled(s, Commit(w))
    ensures Dense(Do(s, Commit(w)).rows)
  {
    hide RowsOf, Taken;
    assert WriterOk(s, s.writers[w]);
    TakenExactlyWhenBehind(s, s.writers[w].key, s.writers[w].phase.version);
    forall k
      ensures var own := RowsOf(Do(s, Commit(w)).rows, k);
        forall i :: 0 <= i < |own| ==> own[i].version == i + 1 && own[i].id == own[0].id
    {
      RowsAfterCommit(s, w, k);
    }
  }

  /** The writer that commits ends with its row stored, or in conflict. */
  lemma CommitterOk(s: System, w: nat)
    requires Inv(s) && Enabled(s, Commit(w))
    ensures WriterOk(Do(s, Commit(w)), Do(s, Commit(w)).writers[w])
  {
    hide RowsOf, Taken;
    assert WriterOk(s, s.writers[w]);
    TakenExactlyWhenBehind(s, s.writers[w].key, s.writers[w].phase.version);
    RowsAfterCommit(s, w, s.writers[w].key);
  }

  lemma CommitKeepsInv(s: System, w: nat)
    requires Inv(s) && Enabled(s, Commit(w))
    ensures Inv(Do(s, Commit(w)))
  {
    hide RowsOf, Taken, Dense, WriterOk;
    var s' := Do(s, Commit(w));
    CommitKeepsDense(s, w);
    assert s.writers[w] in s.writers;
    CommitterIsOwner(s, w);
    forall i | 0 <= i < |s'.writers|
      ensures WriterOk(s', s'.writers[i])
    {
      if i == w {
        CommitterOk(s, w);
      } else {
        assert s'.writers[i] == s.writers[i] && s.writers[i] in s.writers;
        RowsAfterCommit(s, w, s.writers[i].key);
        WriterOkStays(s, s', s.writers[i]);
      }
    }
  }

  /** The id that a writer commits under was generated for its key. */
  lemma CommitterIsOwner(s: System, w: nat)
    requires Inv(s) && Enabled(s, Commit(w))
    ensures var Writer(key, _, HasId(_, id)) := s.writers[w]; id in s.minted && s.minted[id] == key
  {
    hide RowsOf, Dense;
    assert WriterOk(s, s.writers[w]);
  }

  /** The writer that reads knows more afterwards; every other writer, and a new one, is fine. */
  lemma ReaderOk(s: System, a: Action)
    requires Inv(s) && Enabled(s, a) && (a.ReadVersion? || a.ReadId?)
    ensures WriterOk(Do(s, a), Do(s, a).writers[a.w])
  {
    var w := s.writers[a.w];
    assert WriterOk(s, w);
    if a.ReadVersion? {
      MaxOfCounting(VersionsOf(RowsOf(s.rows, w.key)));
    } else {
      RowsOfMembers(s.rows, w.key);
    }
  }

  lemma NewcomerOk(s: System, key: Key, given: Option<Uuid>)
    requires Inv(s) && Enabled(s, Arrive(key, given))
    ensures WriterOk(Do(s, Arrive(key, given)), Writer(key, given, Begun))
  {
    RowsOfMembers(s.rows, key);
  }

  lemma ReadKeepsInv(s: System, a: Action)
    requires Inv(s) && Enabled(s, a) && !a.Commit?
    ensures Inv(Do(s, a))
  {
    hide RowsOf, NextVersion;
    var s' := Do(s, a);
    assert s'.rows == s.rows && s'.audit == s.audit;
    assert forall id :: id in s.minted ==> id in s'.minted && s'.minted[id] == s.minted[id];
    forall i | 0 <= i < |s'.writers|
      ensures WriterOk(s', s'.writers[i])
    {
      if i == |s.writers| {
        NewcomerOk(s, a.key, a.given);
      } else if !a.Arrive? && i == a.w {
        ReaderOk(s, a);
      } else {
        assert s'.writers[i] == s.writers[i] && WriterOk(s, s.writers[i]);
        WriterOkStays(s, s', s.writers[i]);
      }
    }
  }

  lemma ReadKeepsRowsHaveWriters(s: System, a: Action)
    requires RowsHaveWriters(s) && Enabled(s, a) && !a.Commit?
    ensures RowsHaveWriters(Do(s, a))
  {
    var s' := Do(s, a);
    assert s'.rows == s.rows;
    forall w | 0 <= w < |s'.writers| && s'.writers[w].phase.Saved?
      ensures exists r :: r in s'.rows && r.writer == w
    {
      assert w < |s.writers| && s.writers[w].phase.Saved?;
    }
  }

  lemma CommitKeepsRowsHaveWriters(s: System, w: nat)
    requires RowsHaveWriters(s) && Enabled(s, Commit(w))
    ensures RowsHaveWriters(Do(s, Commit(w)))
  {
    hide Taken;
    var s' := Do(s, Commit(w));
    assert forall i :: 0 <= i < |s.rows| ==> s.rows[i].writer != w;
    forall x | 0 <= x < |s'.writers| && s'.writers[x].phase.Saved?
      ensures exists r :: r in s'.rows && r.writer == x
    {
      if x == w {
        assert s'.rows[|s.rows|].writer == w;
      } else {
        var r :| r in s.rows && r.writer == x;
        assert r in s'.rows;
      }
    }
  }

  /** Every interleaving keeps both invariants. */
  lemma {:induction false} RunsKeepInv(s: System, steps: seq<Action>, end: System)
    requires Runs(s, steps, end) && Inv(s) && RowsHaveWriters(s)
    ensures Inv(end) && RowsHaveWriters(end)
    decreases |steps|
  {
    if steps != [] {
      if steps[0].Commit? {
        CommitKeepsInv(s, steps[0].w);
        CommitKeepsRowsHaveWriters(s, steps[0].w);
      } else {
        ReadKeepsInv(s, steps[0]);
        ReadKeepsRowsHaveWriters(s, steps[0]);
      }
      RunsKeepInv(Do(s, steps[0]), steps[1..], end);
    }
  }

  lemma ReachableInv(s: System, steps: seq<Action>)
    requires Runs(INITIAL, steps, s)
    ensures Inv(s) && RowsHaveWriters(s)
  {
    RunsKeepInv(INITIAL, steps, s);
  }

  /** Safety of concurrent saves: dense versions under one id per (run, type), ids never
      shared between two (run, type) pairs, and one audit event per row. */
  lemma ConcurrentSavesAreDense(s: System, steps: seq<Action>, key: Key)
    requires Runs(INITIAL, steps, s)
    ensures var own := RowsOf(s.rows, key);
      && (forall i :: 0 <= i < |own| ==> own[i].version == i + 1)
      && (forall i, j :: 0 <= i < |own| && 0 <= j < |own| ==> own[i].id == own[j].id)
    ensures forall r, q :: r in s.rows && q in s.rows && r.id == q.id ==> r.key == q.key
    ensures s.audit == s.rows
  {
    ReachableInv(s, steps);
  }

  /** A commit either adds exactly its own row and event under the next version, or, exactly
      when another save took that version after this one read it, changes nothing but the
      outcome of the call. */
  lemma CommitIsAllOrNothing(s: System, steps: seq<Action>, w: nat)
    requires Runs(INITIAL, steps, s) && Enabled(s, Commit(w))
    ensures var s' := Do(s, Commit(w)); var Writer(key, _, HasId(v, id)) := s.writers[w];
      if v == |RowsOf(s.rows, key)| + 1 then
        && s'.writers[w].phase == Saved(v, id)
        && s'.rows == s.rows + [Stored(key, id, v, w)] && s'.audit == s.audit + [Stored(key, id, v, w)]
      else
        && s'.writers[w].phase == Conflicted && v <= |RowsOf(s.rows, key)|
        && s'.rows == s.rows && s'.audit == s.audit && s'.minted == s.minted
  {
    ReachableInv(s, steps);
    assert s.writers[w] in s.writers;
    TakenExactlyWhenBehind(s, s.writers[w].key, s.writers[w].phase.version);
  }

  /** In every reachable state the rows are exactly the saves that succeeded, each once. */
  lemma RowsAreTheSuccessfulSaves(s: System, steps: seq<Action>)
    requires Runs(INITIAL, steps, s)
    ensures forall w :: 0 <= w < |s.writers| ==>
      (s.writers[w].phase.Saved? <==> exists i :: 0 <= i < |s.rows| && s.rows[i].writer == w)
    ensures forall i, j :: 0 <= i < j < |s.rows| ==> s.rows[i].writer != s.rows[j].writer
  {
    ReachableInv(s, steps);
    forall w | 0 <= w < |s.writers| && s.writers[w].phase.Saved?
      ensures exists i :: 0 <= i < |s.rows| && s.rows[i].writer == w
    {
      var r :| r in s.rows && r.writer == w;
    }
  }

  // ----- one save that nothing interrupts -----

  /** The system's rows of one run are the rows the run's view lists. */
  ghost predicate Mirrors(s: System, run: Uuid, rows: seq<Row>) {
    forall kind :: var own, listed := RowsOf(s.rows, Key(run, kind)), RunLog.OfKind(rows, kind);
      && |own| == |listed|
      && forall i :: 0 <= i < |own| ==> own[i].version == listed[i].version && own[i].id == listed[i].id
  }

  /** The four steps of a new save, one after the other. */
  function SaveAlone(s: System, run: Uuid, q: RunLog.Request, id: Uuid): seq<Action> {
    var w := |s.writers|;
    [Arrive(Key(run, q.kind), q.artefactId), ReadVersion(w), ReadId(w, id), Commit(w)]
  }

  ghost predicate NodeSave(rows: seq<Row>, q: RunLog.Request) {
    && KindOf(q.payload) == q.kind && q.version == None
    && (q.artefactId.Some? ==> exists r :: r in RunLog.OfKind(rows, q.kind) && r.id == q.artefactId.value)
  }

  /** What the writer of an uninterrupted save reads is what the transaction computes. */
  lemma AloneReads(s: System, run: Uuid, rows: seq<Row>, q: RunLog.Request)
    requires Inv(s) && Mirrors(s, run, rows) && NodeSave(rows, q)
    ensures NextVersion(s.rows, Key(run, q.kind)) == RunLog.VersionFor(rows, q)
    ensures NextVersion(s.rows, Key(run, q.kind)) == |RowsOf(s.rows, Key(run, q.kind))| + 1
    ensures Enabled(s, Arrive(Key(run, q.kind), q.artefactId))
  {
    var own, listed := RowsOf(s.rows, Key(run, q.kind)), RunLog.OfKind(rows, q.kind);
    assert |own| == |listed|;
    MaxOfCounting(VersionsOf(own));
    MaxOfCounting(RunLog.VersionsOf(listed));
    RowsOfMembers(s.rows, Key(run, q.kind));
    if q.artefactId.Some? {
      var i :| 0 <= i < |listed| && listed[i].id == q.artefactId.value;
      assert own[i] in own;
    }
  }

  /** Without interference the protocol is the one transaction that save_artefact is elsewhere in
      this model: same version, same artefact id, one more row, never a conflict. */
  lemma UninterruptedSaveIsOneTransaction(
    s: System,
    steps: seq<Action>,
    run: Uuid,
    v: RunLog.RunView,
    q: RunLog.Request,
    unused: Uuid)
    requires Runs(INITIAL, steps, s) && Mirrors(s, run, v.rows) && NodeSave(v.rows, q) && unused !in s.minted
    ensures RunLog.Save(v, unused, q).Ok?
    ensures var row := RunLog.Save(v, unused, q).value.row;
      var stored := Stored(Key(run, q.kind), row.id, row.version, |s.writers|);
      exists end ::
        && Runs(s, SaveAlone(s, run, q, row.id), end)
        && end.rows == s.rows + [stored] && end.audit == s.audit + [stored]
        && end.writers == s.writers + [Writer(Key(run, q.kind), q.artefactId, Saved(row.version, row.id))]
  {
    hide RowsOf, RunLog.OfKind, NextVersion, RunLog.VersionFor;
    ReachableInv(s, steps);
    RunLog.AutoVersionNeverConflicts(v, unused, q);
    AloneReads(s, run, v.rows, q);
    var row := RunLog.Save(v, unused, q).value.row;
    var key, w := Key(run, q.kind), |s.writers|;
    var s1 := Do(s, Arrive(key, q.artefactId));
    var s2 := Do(s1, ReadVersion(w));
    assert s2.writers == s.writers + [Writer(key, q.artefactId, HasVersion(row.version))];
    AloneFindsId(s, run, v.rows, q, unused);
    var s3 := Do(s2, ReadId(w, row.id));
    assert s3.writers == s.writers + [Writer(key, q.artefactId, HasId(row.version, row.id))];
    TakenExactlyWhenBehind(s, key, row.version);
    var end := Do(s3, Commit(w));
    assert end.writers == s.writers + [Writer(key, q.artefactId, Saved(row.version, row.id))];
    FourSteps(s, s1, s2, s3, end, SaveAlone(s, run, q, row.id));
  }

  /** The id that the transaction uses is one the id query may return. */
  lemma AloneFindsId(s: System, run: Uuid, rows: seq<Row>, q: RunLog.Request, unused: Uuid)
    requires Inv(s) && Mirrors(s, run, rows) && NodeSave(rows, q) && unused !in s.minted
    ensures var known := RunLog.KnownId(rows, q); var id := if known.Some? then known.value else unused;
      if q.artefactId.Some? then id == q.artefactId.value
      else if RowsOf(s.rows, Key(run, q.kind)) != [] then
        exists r :: r in RowsOf(s.rows, Key(run, q.kind)) && r.id == id
      else id !in s.minted
  {
    var own, listed := RowsOf(s.rows, Key(run, q.kind)), RunLog.OfKind(rows, q.kind);
    assert |own| == |listed|;
    if own != [] {
      assert own[0] in own && own[0].id == listed[0].id;
    }
  }

  lemma FourSteps(s: System, s1: System, s2: System, s3: System, end: System, steps: seq<Action>)
    requires |steps| == 4
    requires Enabled(s, steps[0]) && s1 == Do(s, steps[0]) && Enabled(s1, steps[1]) && s2 == Do(s1, steps[1])
    requires Enabled(s2, steps[2]) && s3 == Do(s2, steps[2]) && Enabled(s3, steps[3]) && end == Do(s3, steps[3])
    ensures Runs(s, steps, end)
  {
    hide Enabled, Do;
    assert Runs(end, steps[4..], end);
    assert steps[3..][0] == steps[3] && steps[3..][1..] == steps[4..];
    assert Runs(s3, steps[3..], end);
    assert steps[2..][0] == steps[2] && steps[2..][1..] == steps[3..];
    assert Runs(s2, steps[2..], end);
    assert steps[1..][0] == steps[1] && steps[1..][1..] == steps[2..];
    assert Runs(s1, steps[1..], end);
  }
}
