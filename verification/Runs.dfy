/** Whole runs: one start and any number of review calls, each with agents of its own and with
    other runs taking uuids in between. */
module Runs {
  import opened Domain
  import opened Discovery
  import opened RunLog
  import opened Workflow
  import opened Coherence
  import opened Conservation
  import opened Lineage

  datatype Call = Call(agents: Agents, decision: Decision, comments: string, minted: Uuid)

  /** Everything a run depends on: the settings, how it was started, and the review calls since. */
  datatype Run = Run(settings: Settings, agents: Agents, request: StartRequest, minted: Uuid, calls: seq<Call>)

  /** Other runs have taken uuids. */
  function Later(g: State, minted: Uuid): State {
    g.(minted := Max(g.minted, minted))
  }

  predicate Accepts(g: State) {
    g.view.status == WaitingForReview && IsGate(g.next)
  }

  /** What an accepted decision hands to the graph. */
  function Reviewed(g: State, d: Decision, comments: string): State
    requires IsGate(g.next)
  {
    Resume(Recorded(g, d), d, comments)
  }

  /** One apply_review call; a run that does not wait refuses it. */
  ghost function Deliver(c: Settings, g: State, call: Call): State {
    var m := Later(g, call.minted);
    match ApplyReview(c, call.agents, m, call.decision, call.comments)
    case None => m
    case Some(h) => h
  }

  ghost function Play(c: Settings, g: State, calls: seq<Call>): State {
    if calls == [] then g else Deliver(c, Play(c, g, calls[..|calls| - 1]), calls[|calls| - 1])
  }

  function DecisionsOf(calls: seq<Call>): seq<Decision> {
    if calls == [] then [] else DecisionsOf(calls[..|calls| - 1]) + [calls[|calls| - 1].decision]
  }

  /** The run after its last call. */
  ghost function Now(r: Run): State {
    Play(r.settings, StartRun(r.settings, r.agents, r.request, r.minted), r.calls)
  }

  /** What the last call met. */
  ghost function Met(r: Run): State
    requires r.calls != []
  {
    var n := |r.calls| - 1;
    Later(Now(r.(calls := r.calls[..n])), r.calls[n].minted)
  }

  /** The run `n` nodes into its last call, or into its start if there was no call. A call that is
      refused runs no node. */
  ghost function Inside(r: Run, n: nat): State {
    if r.calls == [] then
      After(r.settings, r.agents, InitialState(r.request, r.minted), n)
    else
      var call := r.calls[|r.calls| - 1];
      if Accepts(Met(r)) then
        After(r.settings, call.agents, Reviewed(Met(r), call.decision, call.comments), n)
      else
        Met(r)
  }

  /** A node boundary of the run: between two calls, or after some nodes of the last one. Cutting
      calls off the end of the run gives the earlier ones. */
  datatype Moment = BetweenCalls | AtNode(n: nat)

  ghost function At(r: Run, m: Moment): State {
    match m
    case BetweenCalls => Now(r)
    case AtNode(n) => Inside(r, n)
  }

  // ----- everything that holds between two calls -----

  ghost predicate Good(g: State) {
    Coherent(g) && Packaged(g) && Rooted(g)
  }

  lemma GoodIsCoherent(g: State)
    requires Good(g)
    ensures Coherent(g)
  {
    hide Coherent, Packaged, Rooted;
  }

  lemma StepGood(c: Settings, a: Agents, g: State)
    requires Good(g)
    ensures Good(StepOrRaise(c, a, g))
  {
    hide Coherent, Packaged, Rooted, Step, Raises;
    if !Paused(g) && !Raises(a, g) {
      StepCoherent(c, a, g);
      StepPackaged(c, a, g);
      StepRooted(c, a, g);
    }
  }

  lemma {:induction false} InvokeGood(c: Settings, a: Agents, g: State)
    requires Good(g)
    ensures Good(Invoke(c, a, g))
    decreases Outer(g.next), RetryRoom(c, g.cp), Inner(g.next)
  {
    hide Good, Step, Raises;
    if !Paused(g) && !Raises(a, g) {
      StepGood(c, a, g);
      StepMakesProgress(c, a, g);
      InvokeGood(c, a, Step(c, a, g));
    }
  }

  lemma FinishGood(a: Agents, g: State)
    requires Good(g)
    ensures Good(Finish(a, g))
  {
    hide Coherent, Raises;
    SyncCoherent(g);
  }

  lemma StartGood(c: Settings, a: Agents, q: StartRequest, minted: Uuid)
    ensures Good(StartRun(c, a, q, minted))
  {
    hide Coherent;
    InitialCoherent(q, minted);
    InvokeGood(c, a, InitialState(q, minted));
    FinishGood(a, Invoke(c, a, InitialState(q, minted)));
  }

  lemma ResumeGood(g: State, d: Decision, comments: string)
    requires Good(g) && IsGate(g.next)
    ensures Good(Resume(Recorded(g, d), d, comments))
  {
    hide Coherent;
    ResumeCoherent(g, d, comments);
  }

  lemma MintedMayGrowGood(g: State, minted: Uuid)
    requires Good(g) && minted >= g.minted
    ensures Good(g.(minted := minted))
  {
    hide Coherent;
    MintedMayGrow(g, minted);
  }

  lemma DeliverGood(c: Settings, g: State, call: Call)
    requires Good(g)
    ensures Good(Deliver(c, g, call))
  {
    var m := Later(g, call.minted);
    MintedMayGrowGood(g, m.minted);
    hide Good, Invoke, Resume, Recorded, Finish;
    if Accepts(m) {
      var r := Resume(Recorded(m, call.decision), call.decision, call.comments);
      ResumeGood(m, call.decision, call.comments);
      InvokeGood(c, call.agents, r);
      FinishGood(call.agents, Invoke(c, call.agents, r));
    }
  }

  // ----- invariants at every node boundary -----

  /** A property that every node run by agents of `who`, every accepted decision, every status
      update and the passing of time keep. */
  ghost predicate Inductive(c: Settings, who: Agents -> bool, inv: State -> bool) {
    && (forall a, g :: who(a) && Good(g) && inv(g) && !Paused(g) && !Raises(a, g) ==> inv(Step(c, a, g)))
    && (forall g, d, comments :: Good(g) && inv(g) && IsGate(g.next) ==> inv(Reviewed(g, d, comments)))
    && (forall g :: Paused(g) && inv(g) ==> inv(Sync(g)))
    && (forall g, minted :: inv(g) ==> inv(Later(g, minted)))
  }

  lemma {:induction false} AfterKeeps(c: Settings, who: Agents -> bool, inv: State -> bool, a: Agents, g: State, n: nat)
    requires Inductive(c, who, inv) && who(a) && Good(g) && inv(g)
    ensures Good(After(c, a, g, n)) && inv(After(c, a, g, n))
    decreases n
  {
    hide Good, Step, Raises, Reviewed, Sync, Later;
    if n > 0 {
      StepGood(c, a, g);
      AfterKeeps(c, who, inv, a, StepOrRaise(c, a, g), n - 1);
    }
  }

  lemma InvokeKeeps(c: Settings, who: Agents -> bool, inv: State -> bool, a: Agents, g: State)
    requires Inductive(c, who, inv) && who(a) && Good(g) && inv(g)
    ensures Good(Finish(a, Invoke(c, a, g))) && inv(Finish(a, Invoke(c, a, g)))
  {
    hide Good, Step, Raises, Reviewed, Sync, Later, Invoke, NodesRun, After;
    AfterKeeps(c, who, inv, a, g, NodesRun(c, a, g));
    InvokeIsAfter(c, a, g);
    FinishGood(a, Invoke(c, a, g));
  }

  /** What the last call did. */
  lemma NowIs(r: Run)
    requires r.calls != []
    ensures var call := r.calls[|r.calls| - 1];
      Now(r) ==
      if Accepts(Met(r)) then
        Finish(call.agents, Invoke(r.settings, call.agents, Reviewed(Met(r), call.decision, call.comments)))
      else
        Met(r)
  {
    hide Invoke, Finish, Resume, Recorded, StartRun;
  }

  lemma {:induction false} PlayKeeps(r: Run, who: Agents -> bool, inv: State -> bool)
    requires Inductive(r.settings, who, inv) && inv(InitialState(r.request, r.minted))
    requires who(r.agents) && forall call :: call in r.calls ==> who(call.agents)
    ensures Good(Now(r)) && inv(Now(r))
    decreases |r.calls|, 1
  {
    if r.calls == [] {
      hide Good, Invoke, Finish, InitialState, Inductive;
      InitialIsGood(r.request, r.minted);
      InvokeKeeps(r.settings, who, inv, r.agents, InitialState(r.request, r.minted));
    } else {
      hide Good, Invoke, Finish, InitialState, Inductive, Now, Met, Reviewed;
      var call := r.calls[|r.calls| - 1];
      NowIs(r);
      MetKeeps(r, who, inv);
      if Accepts(Met(r)) {
        InvokeKeeps(r.settings, who, inv, call.agents, Reviewed(Met(r), call.decision, call.comments));
      }
    }
  }

  /** What the last call met, and what it handed to the graph if it accepted. */
  lemma {:induction false} MetKeeps(r: Run, who: Agents -> bool, inv: State -> bool)
    requires Inductive(r.settings, who, inv) && inv(InitialState(r.request, r.minted)) && r.calls != []
    requires who(r.agents) && forall call :: call in r.calls ==> who(call.agents)
    ensures Good(Met(r)) && inv(Met(r)) && who(r.calls[|r.calls| - 1].agents)
    ensures var call := r.calls[|r.calls| - 1];
      Accepts(Met(r)) ==>
        var h := Reviewed(Met(r), call.decision, call.comments);
        Good(h) && inv(h)
    decreases |r.calls|, 0
  {
    hide Good, Reviewed, InitialState, Inductive, Now, Later;
    var n := |r.calls| - 1;
    var before := r.(calls := r.calls[..n]);
    assert forall call :: call in before.calls ==> call in r.calls;
    assert r.calls[n] in r.calls;
    PlayKeeps(before, who, inv);
    LaterKeeps(r.settings, who, inv, Now(before), r.calls[n].minted);
    if Accepts(Met(r)) {
      ReviewedKeeps(r.settings, who, inv, Met(r), r.calls[n].decision, r.calls[n].comments);
    }
  }

  lemma LaterKeeps(c: Settings, who: Agents -> bool, inv: State -> bool, g: State, minted: Uuid)
    requires Inductive(c, who, inv) && Good(g) && inv(g)
    ensures Good(Later(g, minted)) && inv(Later(g, minted))
  {
    hide Good;
    MintedMayGrowGood(g, Max(g.minted, minted));
  }

  lemma ReviewedKeeps(c: Settings, who: Agents -> bool, inv: State -> bool, g: State, d: Decision, comments: string)
    requires Inductive(c, who, inv) && Good(g) && inv(g) && IsGate(g.next)
    ensures Good(Reviewed(g, d, comments)) && inv(Reviewed(g, d, comments))
  {
    hide Good;
    ResumeGood(g, d, comments);
  }

  lemma InitialIsGood(q: StartRequest, minted: Uuid)
    ensures Good(InitialState(q, minted))
  {
    hide Coherent;
    InitialCoherent(q, minted);
  }

  /** Such a property holds at every node boundary of every run that starts with it. */
  lemma Always(r: Run, m: Moment, who: Agents -> bool, inv: State -> bool)
    requires Inductive(r.settings, who, inv) && inv(InitialState(r.request, r.minted))
    requires who(r.agents) && forall call :: call in r.calls ==> who(call.agents)
    ensures Good(At(r, m)) && inv(At(r, m))
  {
    hide Good, Reviewed, Sync, InitialState, Inductive, After, Met, Now;
    match m {
      case BetweenCalls => PlayKeeps(r, who, inv);
      case AtNode(n) =>
        if r.calls == [] {
          InitialIsGood(r.request, r.minted);
          AfterKeeps(r.settings, who, inv, r.agents, InitialState(r.request, r.minted), n);
        } else {
          var call := r.calls[|r.calls| - 1];
          MetKeeps(r, who, inv);
          if Accepts(Met(r)) {
            var h := Reviewed(Met(r), call.decision, call.comments);
            AfterKeeps(r.settings, who, inv, call.agents, h, n);
          }
        }
    }
  }

  /** Every node boundary of every run is good. */
  lemma AlwaysGood(r: Run, m: Moment)
    ensures Good(At(r, m))
  {
    hide Good, At, Step, Raises, Reviewed, Sync, Later, InitialState;
    Always(r, m, a => true, g => true);
  }

  // ----- what decisions lead to -----

  /** Where a list of decisions leads; decisions after the end are refused and change nothing. */
  datatype Verdict =
    | StillWaiting(p: Progress)
    | EndedApproved(p: Progress)
    | EndedTerminated(p: Progress)

  function React(v: Verdict, d: Decision): Verdict {
    match v
    case StillWaiting(p) =>
      var q := Advance(p, d);
      if d == Reject then EndedTerminated(p)
      else if |q.done| == 5 then EndedApproved(q)
      else StillWaiting(q)
    case _ => v
  }

  function Walk(ds: seq<Decision>): Verdict {
    if ds == [] then StillWaiting(Progress([], 0)) else React(Walk(ds[..|ds| - 1]), ds[|ds| - 1])
  }

  ghost predicate Matches(g: State, v: Verdict) {
    match v
    case StillWaiting(p) => WaitsAt(g, p) && g.view.status == WaitingForReview
    case EndedApproved(p) =>
      && g.next == End && g.cp.decision == Some(Approve) && g.view.status == Approved
      && |p.done| == 5 && p.here == 0 && Counted(g, p)
    case EndedTerminated(p) =>
      && g.next == End && g.cp.decision == Some(Reject) && g.view.status == Terminated
      && |p.done| <= 4 && Counted(g, p)
  }

  /** A call raised inside the graph: the run stays RUNNING at the node that raised. */
  ghost predicate Stuck(g: State) {
    !Paused(g) && g.view.status == Running
  }

  /** The conserved quantities of a state on its way, and where it must end up. */
  ghost predicate HeadsFor(g: State, v: Verdict) {
    && g.view.status == Running
    && match v
       case StillWaiting(p) => |p.done| <= 4 && GoingTo(g) == Gate(GateAt(|p.done|)) && Counted(g, p)
       case EndedApproved(p) => |p.done| == 5 && p.here == 0 && GoingTo(g) == Ended(Some(Approve)) && Counted(g, p)
       case EndedTerminated(p) => |p.done| <= 4 && GoingTo(g) == Ended(Some(Reject)) && Counted(g, p)
  }

  lemma HeadsForConserved(g: State, h: State, v: Verdict)
    requires HeadsFor(g, v) && Conserved(g, h)
    ensures HeadsFor(h, v)
  {
    hide RowTotal, EdgeTotal, GoingTo, ExpectedRows, ExpectedEdges;
  }

  /** A state heading somewhere that pauses has arrived. */
  lemma Arrives(a: Agents, g: State, v: Verdict)
    requires HeadsFor(g, v) && (Paused(g) || Raises(a, g))
    ensures var h := Finish(a, g);
      if Raises(a, g) then h == g && Stuck(h) else Matches(h, v)
  {
    hide OfKind, ExpectedRows, ExpectedEdges;
  }

  lemma InvokeArrives(c: Settings, a: Agents, g: State, v: Verdict)
    requires Coherent(g) && HeadsFor(g, v)
    ensures var h := Finish(a, Invoke(c, a, g)); Stuck(h) || Matches(h, v)
  {
    hide *;
    InvokeConserves(c, a, g);
    HeadsForConserved(g, Invoke(c, a, g), v);
    Arrives(a, Invoke(c, a, g), v);
  }

  lemma StartMatches(c: Settings, a: Agents, q: StartRequest, minted: Uuid)
    ensures var g := StartRun(c, a, q, minted); Stuck(g) || Matches(g, Walk([]))
  {
    var i := InitialState(q, minted);
    InitialCoherent(q, minted);
    assert HeadsFor(i, Walk([])) by {
      hide Coherent;
    }
    InvokeArrives(c, a, i, Walk([]));
  }

  lemma DeliverMatches(c: Settings, g: State, call: Call, v: Verdict)
    requires Good(g) && (Stuck(g) || Matches(g, v))
    ensures var h := Deliver(c, g, call); Stuck(h) || Matches(h, React(v, call.decision))
  {
    hide Coherent, Packaged, Rooted, Counted;
    var m := Later(g, call.minted);
    assert Coherent(m) by {
      MintedMayGrow(g, m.minted);
    }
    if Counted(g, v.p) {
      SameCounts(g, m, v.p);
    }
    if !Stuck(g) && v.StillWaiting? {
      var r := Resume(Recorded(m, call.decision), call.decision, call.comments);
      ResumeCoherent(m, call.decision, call.comments);
      DecisionCounts(m, v.p, call.decision, call.comments);
      InvokeArrives(c, call.agents, r, React(v, call.decision));
    }
  }

  lemma SameCounts(g: State, h: State, p: Progress)
    requires Counted(g, p) && h.view == g.view && h.next == g.next
    ensures Counted(h, p)
  {
    forall k
      ensures RowTotal(h, k) == ExpectedRows(p, k)
    {
      assert RowTotal(g, k) == ExpectedRows(p, k);
    }
  }

  /** After any calls a run is where its decisions say, with exactly the rows and edges they
      imply, unless some call raised and left it stuck. */
  lemma {:induction false} RunsFollowDecisions(c: Settings, g: State, calls: seq<Call>)
    requires Good(g) && (Stuck(g) || Matches(g, Walk([])))
    ensures var h := Play(c, g, calls);
      Good(h) && (Stuck(h) || Matches(h, Walk(DecisionsOf(calls))))
  {
    hide Good, Stuck, Matches, Deliver, React;
    if calls != [] {
      var n := |calls| - 1;
      RunsFollowDecisions(c, g, calls[..n]);
      var before := Play(c, g, calls[..n]);
      DeliverGood(c, before, calls[n]);
      DeliverMatches(c, before, calls[n], Walk(DecisionsOf(calls[..n])));
      WalkOneMore(DecisionsOf(calls[..n]), calls[n].decision);
    }
  }

  lemma WalkOneMore(ds: seq<Decision>, d: Decision)
    ensures Walk(ds + [d]) == React(Walk(ds), d)
  {
    assert (ds + [d])[..|ds|] == ds;
  }

  // ----- the language of decisions -----

  function Repeat(n: nat): seq<Decision> {
    if n == 0 then [] else Repeat(n - 1) + [RequestRevisions]
  }

  /** Some revisions and one approval for each entry. */
  function Script(rs: seq<nat>): seq<Decision> {
    if rs == [] then [] else Script(rs[..|rs| - 1]) + Repeat(rs[|rs| - 1]) + [Approve]
  }

  /** No decision is refused: before each of them the run still waits. */
  ghost predicate AllAccepted(ds: seq<Decision>) {
    forall k :: 0 <= k < |ds| ==> Walk(ds[..k]).StillWaiting?
  }

  lemma {:induction false} WalkWaiting(ds: seq<Decision>)
    ensures var v := Walk(ds); v.StillWaiting? ==> |v.p.done| <= 4 && ds == Script(v.p.done) + Repeat(v.p.here)
  {
    if ds != [] {
      var n := |ds| - 1;
      WalkWaiting(ds[..n]);
      var before, after := Walk(ds[..n]), Walk(ds);
      assert ds == ds[..n] + [ds[n]];
      if after.StillWaiting? && ds[n] == Approve {
        assert after.p.done[..|before.p.done|] == before.p.done;
        assert Script(after.p.done) == Script(before.p.done) + Repeat(before.p.here) + [Approve];
      }
    }
  }

  lemma {:induction false} RevisionsWait(ds: seq<Decision>, p: Progress, n: nat)
    requires Walk(ds) == StillWaiting(Progress(p.done, 0)) && |p.done| <= 4
    ensures Walk(ds + Repeat(n)) == StillWaiting(Progress(p.done, n))
  {
    hide Walk;
    if n == 0 {
      assert ds + [] == ds;
    } else {
      RevisionsWait(ds, p, n - 1);
      assert ds + Repeat(n) == ds + Repeat(n - 1) + [RequestRevisions];
      WalkOneMore(ds + Repeat(n - 1), RequestRevisions);
    }
  }

  lemma {:induction false} ScriptWaits(rs: seq<nat>)
    requires |rs| <= 4
    ensures Walk(Script(rs)) == StillWaiting(Progress(rs, 0))
  {
    if rs != [] {
      var n := |rs| - 1;
      ScriptWaits(rs[..n]);
      RevisionsWait(Script(rs[..n]), Progress(rs[..n], 0), rs[n]);
      WalkOneMore(Script(rs[..n]) + Repeat(rs[n]), Approve);
      assert rs == rs[..n] + [rs[n]];
    }
  }

  /** A run waits exactly after (revise* approve)^k revise*, at gate k + 1. */
  lemma WaitingLanguage(ds: seq<Decision>, p: Progress)
    ensures Walk(ds) == StillWaiting(p) <==> |p.done| <= 4 && ds == Script(p.done) + Repeat(p.here)
  {
    WalkWaiting(ds);
    if |p.done| <= 4 {
      ScriptWaits(p.done);
      RevisionsWait(Script(p.done), p, p.here);
    }
  }

  lemma AcceptedStep(ds: seq<Decision>)
    requires ds != []
    ensures AllAccepted(ds) <==> AllAccepted(ds[..|ds| - 1]) && Walk(ds[..|ds| - 1]).StillWaiting?
  {
    var front := ds[..|ds| - 1];
    assert forall k :: 0 <= k <= |front| ==> front[..k] == ds[..k];
    if AllAccepted(front) && Walk(front).StillWaiting? {
      forall k | 0 <= k < |ds|
        ensures Walk(ds[..k]).StillWaiting?
      {
        assert k < |front| ==> Walk(front[..k]).StillWaiting?;
      }
    }
    if AllAccepted(ds) {
      forall k | 0 <= k < |front|
        ensures Walk(front[..k]).StillWaiting?
      {
        assert Walk(ds[..k]).StillWaiting?;
      }
      assert Walk(ds[..|front|]).StillWaiting?;
    }
  }

  lemma {:induction false} WaitingAccepts(ds: seq<Decision>)
    requires Walk(ds).StillWaiting?
    ensures AllAccepted(ds)
  {
    if ds != [] {
      WaitingAccepts(ds[..|ds| - 1]);
      AcceptedStep(ds);
    }
  }

  lemma ApprovedIsScript(ds: seq<Decision>, p: Progress)
    requires AllAccepted(ds) && Walk(ds) == EndedApproved(p)
    ensures |p.done| == 5 && p.here == 0 && ds == Script(p.done)
  {
    assert ds != [];
    hide Walk, AllAccepted;
    var front, d := ds[..|ds| - 1], ds[|ds| - 1];
    assert ds == front + [d];
    AcceptedStep(ds);
    WalkWaiting(front);
    WalkOneMore(front, d);
    var before := Walk(front).p;
    assert p.done[..|before.done|] == before.done;
  }

  lemma ScriptIsApproved(rs: seq<nat>)
    requires |rs| == 5
    ensures AllAccepted(Script(rs)) && Walk(Script(rs)) == EndedApproved(Progress(rs, 0))
  {
    hide Walk, AllAccepted;
    var front := rs[..4];
    var ds := Script(front) + Repeat(rs[4]);
    WaitingLanguage(ds, Progress(front, rs[4]));
    WalkOneMore(ds, Approve);
    assert front + [rs[4]] == rs;
    assert Script(rs) == ds + [Approve];
    assert Script(rs)[..|Script(rs)| - 1] == ds;
    WaitingAccepts(ds);
    AcceptedStep(Script(rs));
  }

  /** The accepted decisions that end in approval are exactly (revise* approve)^5. */
  lemma ApprovedLanguage(ds: seq<Decision>, p: Progress)
    ensures AllAccepted(ds) && Walk(ds) == EndedApproved(p)
      <==> |p.done| == 5 && p.here == 0 && ds == Script(p.done)
  {
    if AllAccepted(ds) && Walk(ds) == EndedApproved(p) {
      ApprovedIsScript(ds, p);
    }
    if |p.done| == 5 && p.here == 0 && ds == Script(p.done) {
      ScriptIsApproved(p.done);
    }
  }

  /** Those that end in termination are exactly (revise* approve)^k revise* reject, k < 5. */
  lemma TerminatedLanguage(ds: seq<Decision>, p: Progress)
    ensures AllAccepted(ds) && Walk(ds) == EndedTerminated(p)
      <==> |p.done| <= 4 && ds == Script(p.done) + Repeat(p.here) + [Reject]
  {
    var front := Script(p.done) + Repeat(p.here);
    if AllAccepted(ds) && Walk(ds) == EndedTerminated(p) {
      AcceptedStep(ds);
      WalkWaiting(ds[..|ds| - 1]);
      assert ds == ds[..|ds| - 1] + [Reject];
    }
    if |p.done| <= 4 && ds == front + [Reject] {
      WaitingLanguage(front, p);
      WalkOneMore(front, Reject);
      assert ds[..|ds| - 1] == front;
      WaitingAccepts(front);
      AcceptedStep(ds);
    }
  }

  // ----- what can go wrong -----

  ghost predicate NeverRaises(a: Agents) {
    && (forall br, f :: a.technicalRequirement(br, f) != None)
    && (forall tr, dm, f :: a.modelling(tr, dm, f) != None)
    && (forall tr, sm, dm :: a.pipeline(tr, sm, dm) != None)
    && (forall sm, tr, f :: a.metrics(sm, tr, f) != None)
  }

  /** The requirements gate has been passed. */
  predicate PastFirstGate(ds: seq<Decision>) {
    |Walk(ds).p.done| >= 1
  }

  lemma OnlyDiscoveryRaises(a: Agents, g: State)
    requires Coherent(g) && NeverRaises(a)
    ensures Raises(a, g) <==> g.next == DiscoverSources && Blank(g.cp.userId)
  {
    hide Coherent, MappingModel;
    if Raises(a, g) {
      WhatCanRaise(a, g);
    }
  }

  /** A graph on its way that stops at discovery has not passed beyond it, and the other way
      round: without a user no state beyond discovery is reached. */
  lemma {:induction false} InvokeStops(c: Settings, a: Agents, g: State)
    requires Coherent(g) && NeverRaises(a)
    ensures var h := Invoke(c, a, g);
      && (!Blank(g.cp.userId) ==> Paused(h))
      && (Blank(g.cp.userId) && (g.next.ResetRetries? || g.next.DiscoverSources?) ==> h.next == DiscoverSources)
      && (GoingTo(g) == Gate(AwaitTr) || GoingTo(g).Ended? ==> Paused(h))
    decreases Outer(g.next), RetryRoom(c, g.cp), Inner(g.next)
  {
    hide Coherent, Conserved, RowTotal, EdgeTotal, NeverRaises;
    OnlyDiscoveryRaises(a, g);
    if !Paused(g) && !Raises(a, g) {
      StepConserves(c, a, g);
      StepCoherent(c, a, g);
      StepMakesProgress(c, a, g);
      ConservedUser(g, Step(c, a, g));
      assert g.next == ResetRetries ==> Step(c, a, g).next == DiscoverSources;
      InvokeStops(c, a, Step(c, a, g));
    }
  }

  lemma ConservedUser(g: State, h: State)
    requires Conserved(g, h)
    ensures h.cp.userId == g.cp.userId && GoingTo(h) == GoingTo(g)
  {
    hide RowTotal, EdgeTotal, GoingTo;
  }
}
