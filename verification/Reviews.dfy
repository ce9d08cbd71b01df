/** The reviews in the audit log: for every run they are exactly the accepted decisions, in order,
    each about the artefact that was under review when it was given. */
module Reviews {
  import opened Domain
  import opened Mapping
  import opened RunLog
  import opened Workflow
  import opened Coherence
  import opened Lineage
  import opened Runs
  import opened RunTheorems

  /** The review events of a log. */
  function ReviewsOf(audit: seq<Event>): seq<Event> {
    if audit == [] then
      []
    else
      var n := |audit| - 1;
      if audit[n].ReviewSubmitted? then ReviewsOf(audit[..n]) + [audit[n]] else ReviewsOf(audit[..n])
  }

  /** The decisions that some events record. */
  function DecisionsIn(events: seq<Event>): seq<Decision> {
    if events == [] then
      []
    else
      var n := |events| - 1;
      if events[n].ReviewSubmitted? then DecisionsIn(events[..n]) + [events[n].decision] else DecisionsIn(events[..n])
  }

  /** The review that the last call leaves behind if it is accepted: its decision, about the newest
      artefact of the type that the gate is for. */
  ghost function LastReview(r: Run): Event
    requires r.calls != [] && Accepts(Met(r))
  {
    ReviewSubmitted(r.calls[|r.calls| - 1].decision, Latest(Met(r).view.rows, KindAt(Met(r).next)))
  }

  /** One review for each accepted call. */
  ghost function Expected(r: Run): seq<Event>
    decreases |r.calls|
  {
    if r.calls == [] then
      []
    else
      Expected(r.(calls := r.calls[..|r.calls| - 1])) + if Accepts(Met(r)) then [LastReview(r)] else []
  }

  ghost function AcceptedDecisions(r: Run): seq<Decision>
    decreases |r.calls|
  {
    if r.calls == [] then
      []
    else
      var n := |r.calls| - 1;
      AcceptedDecisions(r.(calls := r.calls[..n])) + if Accepts(Met(r)) then [r.calls[n].decision] else []
  }

  lemma ReviewsAppend(audit: seq<Event>, e: Event)
    ensures ReviewsOf(audit + [e]) == ReviewsOf(audit) + if e.ReviewSubmitted? then [e] else []
  {
    assert (audit + [e])[..|audit|] == audit;
  }

  lemma DecisionsAppend(events: seq<Event>, e: Event)
    ensures DecisionsIn(events + [e]) == DecisionsIn(events) + if e.ReviewSubmitted? then [e.decision] else []
  {
    assert (events + [e])[..|events|] == events;
  }

  // ----- the graph adds no review -----

  lemma {:induction false} LinkAddsNoReview(v: RunView, parents: seq<Ref>, to: Ptr)
    ensures ReviewsOf(Link(v, parents, to).audit) == ReviewsOf(v.audit)
  {
    if parents != [] {
      var n := |parents| - 1;
      LinkAddsNoReview(v, parents[..n], to);
      ReviewsAppend(Link(v, parents[..n], to).audit, LineageCreated(Edge(parents[n].ToPtr(), to)));
    }
  }

  lemma KeepAddsNoReview(v: RunView, minted: Uuid, q: Request)
    requires KindOf(q.payload) == q.kind && q.version == None
    ensures ReviewsOf(Keep(v, minted, q).view.audit) == ReviewsOf(v.audit)
  {
    hide OfKind, NextVersion, KnownId, VersionFor, Taken;
    AutoVersionNeverConflicts(v, minted, q);
    ReviewsAppend(v.audit, ArtefactCreated(Keep(v, minted, q).row.ToRef()));
  }

  lemma DeriveAddsNoReview(v: RunView, minted: Uuid, q: Request)
    requires KindOf(q.payload) == q.kind && q.version == None
    ensures ReviewsOf(Derive(v, minted, q).view.audit) == ReviewsOf(v.audit)
  {
    hide Keep;
    KeepAddsNoReview(v, minted, q);
    var s := Keep(v, minted, q);
    LinkAddsNoReview(s.view, q.parents, s.row.ToPtr());
  }

  lemma StepAddsNoReview(c: Settings, a: Agents, g: State)
    requires !Paused(g) && !Raises(a, g)
    ensures ReviewsOf(Step(c, a, g).view.audit) == ReviewsOf(g.view.audit)
  {
    hide Keep, Derive, AskModels, AskMetrics, AskPipeline, AskRequirement, Judged, Propose, PackageRow, ReviewsOf;
    hide Slice;
    match g.next {
      case EnsureBr => KeepAddsNoReview(g.view, g.minted, BrRequest(g.cp));
      case GenerateTr => DeriveAddsNoReview(g.view, g.minted, TrRequest(g.cp, AskRequirement(a, g).value));
      case PersistMapping => DeriveAddsNoReview(g.view, g.minted, SliceRequest(g.cp));
      case Model =>
        var models, d := AskModels(a, g).value, ModelData(a, g);
        DeriveAddsNoReview(g.view, g.minted, DataModelRequest(g, models.1));
        DeriveAddsNoReview(d.view, d.minted, SemanticRequest(g.cp, models.0, d.row.ToRef()));
      case BuildPipeline => DeriveAddsNoReview(g.view, g.minted, PipelineRequest(g.cp, AskPipeline(a, g).value));
      case DefineMetrics => DeriveAddsNoReview(g.view, g.minted, MetricsRequest(g.cp, AskMetrics(a, g).value));
      case AssemblePackage => DeriveAddsNoReview(g.view, g.minted, PackageRequest(g.cp));
      case MarkApproved =>
        if PackageId(g.cp).Some? {
          KeepAddsNoReview(g.view, g.minted, ApprovalRequest(PackageRow(g).value));
        }
      case _ =>
    }
  }

  lemma {:induction false} AfterAddsNoReview(c: Settings, a: Agents, g: State, n: nat)
    ensures ReviewsOf(After(c, a, g, n).view.audit) == ReviewsOf(g.view.audit)
    decreases n
  {
    hide Step, Raises, ReviewsOf;
    if n > 0 {
      if !Paused(g) && !Raises(a, g) {
        StepAddsNoReview(c, a, g);
      }
      AfterAddsNoReview(c, a, StepOrRaise(c, a, g), n - 1);
    }
  }

  /** A whole call of the graph, with the status update behind it, adds none either. */
  lemma FinishAddsNoReview(c: Settings, a: Agents, g: State)
    ensures ReviewsOf(Finish(a, Invoke(c, a, g)).view.audit) == ReviewsOf(g.view.audit)
  {
    hide Invoke, After, NodesRun, Raises, ReviewsOf;
    InvokeIsAfter(c, a, g);
    AfterAddsNoReview(c, a, g, NodesRun(c, a, g));
    var h := Invoke(c, a, g);
    ReviewsAppend(h.view.audit, StatusUpdated(h.view.status, StatusFor(h)));
  }

  /** An accepted decision adds itself, about the artefact under review. */
  lemma DecisionAddsReview(g: State, d: Decision, comments: string)
    requires IsGate(g.next)
    ensures ReviewsOf(Reviewed(g, d, comments).view.audit)
      == ReviewsOf(g.view.audit) + [ReviewSubmitted(d, CurrentPtr(g.cp))]
  {
    hide ReviewsOf;
    var e := ReviewSubmitted(d, CurrentPtr(g.cp));
    ReviewsAppend(g.view.audit, e);
    ReviewsAppend(g.view.audit + [e], StatusUpdated(g.view.status, Running));
  }

  lemma NewRunHasNoReview(q: StartRequest, minted: Uuid)
    ensures ReviewsOf(InitialState(q, minted).view.audit) == []
  {
    ReviewsAppend([], RunCreated);
    ReviewsAppend([RunCreated], StatusUpdated(Created, Running));
    assert [] + [RunCreated] == [RunCreated];
  }

  // ----- whole runs -----

  lemma {:induction false} NowReviews(r: Run)
    ensures ReviewsOf(Now(r).view.audit) == Expected(r)
    decreases |r.calls|, 1
  {
    hide Invoke, Finish, ReviewsOf, InitialState;
    if r.calls == [] {
      NewRunHasNoReview(r.request, r.minted);
      FinishAddsNoReview(r.settings, r.agents, InitialState(r.request, r.minted));
    } else {
      hide Now, Met, Reviewed, LastReview;
      NowIs(r);
      MetReviews(r);
      if Accepts(Met(r)) {
        var call := r.calls[|r.calls| - 1];
        FinishAddsNoReview(r.settings, call.agents, Reviewed(Met(r), call.decision, call.comments));
      }
    }
  }

  /** The reviews that the last call meets, and those it passes on. */
  lemma {:induction false} MetReviews(r: Run)
    requires r.calls != []
    ensures var call := r.calls[|r.calls| - 1];
      if Accepts(Met(r)) then
        ReviewsOf(Reviewed(Met(r), call.decision, call.comments).view.audit) == Expected(r)
      else
        ReviewsOf(Met(r).view.audit) == Expected(r)
    decreases |r.calls|, 0
  {
    hide ReviewsOf, Now, Reviewed;
    var n := |r.calls| - 1;
    NowReviews(r.(calls := r.calls[..n]));
    if Accepts(Met(r)) {
      DecisionAddsReview(Met(r), r.calls[n].decision, r.calls[n].comments);
      UnderReviewIsNewest(r);
    }
  }

  lemma UnderReviewIsNewest(r: Run)
    requires r.calls != [] && Accepts(Met(r))
    ensures CurrentPtr(Met(r).cp) == Latest(Met(r).view.rows, KindAt(Met(r).next))
  {
    hide Good, Now, Latest;
    var n := |r.calls| - 1;
    var before := r.(calls := r.calls[..n]);
    AlwaysGood(before, BetweenCalls);
    MintedMayGrowGood(Now(before), Met(r).minted);
    GateReviews(Met(r));
  }

  /** At every node boundary of every run the reviews in the audit log are exactly those of the
      accepted calls, in order: each records the decision that was given and the artefact it was
      given on, the newest version of its gate's type. */
  lemma ReviewsAreRecorded(r: Run, m: Moment)
    ensures ReviewsOf(At(r, m).view.audit) == Expected(r)
  {
    hide ReviewsOf, Now, Met, After, InitialState, Reviewed, Expected;
    match m {
      case BetweenCalls => NowReviews(r);
      case AtNode(n) =>
        if r.calls == [] {
          NewRunHasNoReview(r.request, r.minted);
          AfterAddsNoReview(r.settings, r.agents, InitialState(r.request, r.minted), n);
          NothingExpected(r);
        } else {
          MetReviews(r);
          if Accepts(Met(r)) {
            var call := r.calls[|r.calls| - 1];
            AfterAddsNoReview(r.settings, call.agents, Reviewed(Met(r), call.decision, call.comments), n);
          }
        }
    }
  }

  lemma NothingExpected(r: Run)
    requires r.calls == []
    ensures Expected(r) == []
  {
  }

  /** So the decisions in the log are the accepted decisions. */
  lemma {:induction false} DecisionsAreRecorded(r: Run, m: Moment)
    ensures DecisionsIn(ReviewsOf(At(r, m).view.audit)) == AcceptedDecisions(r)
    decreases |r.calls|
  {
    hide ReviewsOf, At, Met;
    ReviewsAreRecorded(r, m);
    if r.calls != [] {
      var before := r.(calls := r.calls[..|r.calls| - 1]);
      DecisionsAreRecorded(before, m);
      ReviewsAreRecorded(before, m);
      if Accepts(Met(r)) {
        DecisionsAppend(Expected(before), LastReview(r));
      } else {
        assert Expected(before) + [] == Expected(before);
        assert AcceptedDecisions(before) + [] == AcceptedDecisions(before);
      }
    }
  }

  // ----- one more call -----

  lemma StoryStarts(r: Run)
    requires r.calls == []
    ensures Now(r) == StartRun(r.settings, r.agents, r.request, r.minted)
    ensures AcceptedDecisions(r) == DecisionsOf(r.calls) == []
  {
    hide StartRun;
  }

  /** The run with one more accepted call. */
  lemma StoryGoesOn(r: Run, call: Call)
    requires Accepts(Later(Now(r), call.minted))
    ensures var s := r.(calls := r.calls + [call]);
      && Some(Now(s)) ==
           ApplyReview(r.settings, call.agents, Later(Now(r), call.minted), call.decision, call.comments)
      && AcceptedDecisions(s) == AcceptedDecisions(r) + [call.decision]
      && DecisionsOf(s.calls) == DecisionsOf(r.calls) + [call.decision]
  {
    hide Now, Later, Invoke, Finish, Reviewed, ApplyReview;
    var s := r.(calls := r.calls + [call]);
    assert s.calls[..|s.calls| - 1] == r.calls && s.(calls := r.calls) == r;
    assert Met(s) == Later(Now(r), call.minted);
    OneMoreCall(r, call);
  }

  lemma OneMoreCall(r: Run, call: Call)
    ensures var s := r.(calls := r.calls + [call]);
      Now(s) == Deliver(r.settings, Now(r), call)
    ensures Accepts(Later(Now(r), call.minted)) ==>
      Some(Deliver(r.settings, Now(r), call)) ==
      ApplyReview(r.settings, call.agents, Later(Now(r), call.minted), call.decision, call.comments)
  {
    hide StartRun, Invoke, Finish, Resume, Recorded;
    assert (r.calls + [call])[..|r.calls|] == r.calls;
  }
}
