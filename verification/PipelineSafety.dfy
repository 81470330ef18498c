// Failing verdicts: on plans whose correction loops lead back to the stage that failed, a successful
// run leaves no enabled QC stage on a failing verdict, wherever crashes fell.

module PipelineSafety {
  import opened Common
  import opened PipelineModel
  import opened PipelineTermination
  import opened PipelineAttempts
  import opened PipelineMoves
  import opened PipelineProgress

  // --- Trails of failing QC stages --------------------------------------------

  predicate QcStage(p: Plan, id: string) {
    id in StageIds(p) && StageOf(p, id).kind == Qc
  }

  predicate EnabledQc(p: Plan, id: string) {
    QcStage(p, id) && StageOf(p, id).enabled
  }

  /** How many stages of the path use the loop's iteration count. */
  function Uses(p: Plan, path: seq<string>, loopId: string): nat {
    if path == [] then 0
    else
      var l := CorrectionLoop(p, LastOf(path));
      Uses(p, path[..|path| - 1], loopId) + if l.Some? && l.value.id == loopId then 1 else 0
  }

  /** QC stages that can fail one after the other, each queued by the loop of the one before it, within
      the iterations the loops allow. */
  predicate Trail(p: Plan, path: seq<string>) {
    && path != []
    && var n := |path| - 1;
       && QcStage(p, path[n]) && CorrectionLoop(p, path[n]).Some?
       && Uses(p, path[..n], CorrectionLoop(p, path[n]).value.id) < CorrectionLoop(p, path[n]).value.maxIterations
       && (if n == 0 then EnabledQc(p, path[0])
           else Trail(p, path[..n]) && path[n] in LoopStages(CorrectionLoop(p, path[n - 1]).value))
  }

  /** What is queued when the last stage of the trail fails. */
  function QueueOf(p: Plan, path: seq<string>): (ids: seq<string>)
    requires Trail(p, path)
    ensures ids != []
  {
    LoopStages(CorrectionLoop(p, LastOf(path)).value)
  }

  /** Along the trail an enabled QC stage can fail without being the last of the queue. */
  predicate Forgets(p: Plan, path: seq<string>, b: string) {
    && Trail(p, path) && EnabledQc(p, b)
    && (b == path[0] || b in QueueOf(p, path)) && b != LastOf(QueueOf(p, path))
  }

  ghost predicate Remembers(p: Plan) {
    forall path: seq<string>, b: string :: !Forgets(p, path, b)
  }

  lemma {:induction false} TrailHead(p: Plan, path: seq<string>)
    requires Trail(p, path)
    ensures path != [] && EnabledQc(p, path[0])
  {
    var n := |path| - 1;
    if n > 0 {
      TrailHead(p, path[..n]);
      assert path[..n][0] == path[0];
    }
  }

  /** On a plan that remembers, every queue of a trail ends in the stage whose failure began it. */
  lemma QueueEndsInHead(p: Plan, path: seq<string>)
    requires Remembers(p) && Trail(p, path)
    ensures path != [] && EnabledQc(p, path[0]) && LastOf(QueueOf(p, path)) == path[0]
  {
    TrailHead(p, path);
    assert !Forgets(p, path, path[0]);
  }

  lemma TrailGrows(p: Plan, path: seq<string>, t: string)
    requires Trail(p, path) && QcStage(p, t) && t in QueueOf(p, path)
    requires CorrectionLoop(p, t).Some?
    requires Uses(p, path, CorrectionLoop(p, t).value.id) < CorrectionLoop(p, t).value.maxIterations
    ensures Trail(p, path + [t]) && QueueOf(p, path + [t]) == LoopStages(CorrectionLoop(p, t).value)
  {
    assert (path + [t])[..|path|] == path;
  }

  lemma TrailStarts(p: Plan, t: string)
    requires EnabledQc(p, t) && CorrectionLoop(p, t).Some? && CorrectionLoop(p, t).value.maxIterations > 0
    ensures Trail(p, [t]) && QueueOf(p, [t]) == LoopStages(CorrectionLoop(p, t).value)
  {
    assert [t][..0] == [];
  }

  lemma UsesGrow(p: Plan, path: seq<string>, t: string, loopId: string)
    requires CorrectionLoop(p, t).Some?
    ensures Uses(p, path + [t], loopId) == Uses(p, path, loopId) + if CorrectionLoop(p, t).value.id == loopId then 1 else 0
  {
    assert (path + [t])[..|path|] == path;
  }

  // --- The invariant ----------------------------------------------------------

  /** An enabled QC stage whose latest attempt carries a failing verdict. */
  predicate FailedQc(s: RunState, id: string) {
    EnabledQc(s.plan, id) && IsBad(s, id)
  }

  /** The correction round goes along the trail, and only the end of the queue stands on a failing verdict. */
  ghost predicate Follows(s: RunState, path: seq<string>) {
    && Trail(s.plan, path)
    && (forall id: string :: Uses(s.plan, path, id) <= IterationsOf(s, id))
    && s.pending != [] && LastOf(s.pending) == LastOf(QueueOf(s.plan, path))
    && (forall id | id in s.pending :: id in QueueOf(s.plan, path))
    && (s.current.Some? ==> s.current.value in QueueOf(s.plan, path))
    && (forall id: string :: FailedQc(s, id) ==> id == LastOf(s.pending))
  }

  /** Outside a round only the current stage may stand on a failing verdict. */
  ghost predicate AtRest(s: RunState) {
    && s.pending == []
    && (s.current.Some? && QcStage(s.plan, s.current.value) ==> EnabledQc(s.plan, s.current.value))
    && (forall id: string :: FailedQc(s, id) ==> s.current == Some(id))
  }

  ghost predicate Watched(s: RunState) {
    s.code.None? && (AtRest(s) || exists path :: Follows(s, path))
  }

  ghost predicate NoneFailed(s: RunState) {
    forall id: string :: !FailedQc(s, id)
  }

  ghost predicate Inv(s: RunState) {
    && Sane(s) && Remembers(s.plan)
    && (if IsTerminal(s) then s.code == Some(Success) ==> NoneFailed(s) else Watched(s))
  }

  lemma SameFailed(s: RunState, u: RunState)
    requires u.plan == s.plan && u.attempts == s.attempts
    ensures forall id: string :: FailedQc(u, id) == FailedQc(s, id)
  {
  }

  // --- Moves keep the invariant -----------------------------------------------

  /** The moves of the running attempt: only the current stage can come to stand on a failing verdict. */
  lemma AttemptWatched(s: RunState, u: RunState)
    requires Remembers(s.plan) && Watched(s) && s.current.Some? && u == s.(attempts := u.attempts)
    requires forall j: string :: j != s.current.value ==> Tries(u, j) == Tries(s, j)
    ensures Watched(u)
  {
    hide Trail, Uses, StageIds, StageOf, Tries, LastOf, QueueOf;
    forall id: string | FailedQc(u, id) ensures FailedQc(s, id) || id == s.current.value {
      if id != s.current.value {
        FailedFrame(s, u, id);
      }
    }
    if !AtRest(s) {
      var path :| Follows(s, path);
      assert !Forgets(s.plan, path, s.current.value);
      assert Follows(u, path);
    }
  }

  lemma FailedFrame(s: RunState, u: RunState, id: string)
    requires u.plan == s.plan && Tries(u, id) == Tries(s, id)
    ensures FailedQc(u, id) == FailedQc(s, id)
  {
  }

  /** Taking the next stage of the round. */
  lemma TakePending(s: RunState, u: RunState)
    requires Remembers(s.plan) && Watched(s) && (Drops(s, u) || Takes(s, u))
    ensures Watched(u) && u.status == s.status
  {
    hide Trail, Uses, IsBad, CurrentRunning, Remembers, QueueOf, StageOf;
    var path :| Follows(s, path);
    assert Follows(s, path);
    QueueEndsInHead(s.plan, path);
    SameFailed(s, u);
    if |s.pending| == 1 {
      assert LastOf(s.pending) == s.pending[0] == path[0];
      assert AtRest(u);
    } else {
      assert LastOf(u.pending) == LastOf(s.pending);
      assert Follows(u, path);
    }
  }

  /** A new correction round: the failed stage is again the end of the queue. */
  lemma EnterRound(s: RunState, u: RunState)
    requires Remembers(s.plan) && Watched(s) && Rounds(s, u, true)
    ensures Watched(u) && u.status == s.status
  {
    hide IsBad, CurrentRunning, Remembers, CorrectionLoop, LoopStages, StageOf, StageIds, Uses, Trail;
    var t := s.current.value;
    assert EntersLoop(s, u, t) && QcStage(s.plan, t);
    SameFailed(s, u);
    var past := EnterTrail(s, t);
    var path := past + [t];
    QueueEndsInHead(s.plan, path);
    NewUses(s, u, t, past);
    assert LastOf(path) == t;
    assert Follows(u, path);
  }

  lemma RestTrail(s: RunState, t: string)
    requires AtRest(s) && s.current == Some(t) && QcStage(s.plan, t)
    requires CorrectionLoop(s.plan, t).Some? && IterationsOf(s, CorrectionLoop(s.plan, t).value.id) < CorrectionLoop(s.plan, t).value.maxIterations
    ensures Trail(s.plan, [t]) && (forall id: string :: Uses(s.plan, [], id) == 0) && forall id: string :: FailedQc(s, id) ==> id == t
  {
    hide IsBad, CorrectionLoop;
    TrailStarts(s.plan, t);
  }

  /** The trail of the new round ends in the stage that failed now. */
  lemma EnterTrail(s: RunState, t: string) returns (past: seq<string>)
    requires Remembers(s.plan) && Watched(s) && s.current == Some(t) && QcStage(s.plan, t)
    requires CorrectionLoop(s.plan, t).Some? && IterationsOf(s, CorrectionLoop(s.plan, t).value.id) < CorrectionLoop(s.plan, t).value.maxIterations
    ensures Trail(s.plan, past + [t])
    ensures forall id: string :: Uses(s.plan, past, id) <= IterationsOf(s, id)
    ensures forall id: string :: FailedQc(s, id) ==> id == (past + [t])[0]
  {
    hide IsBad, Remembers, CorrectionLoop, LoopStages, StageOf, StageIds, Uses, Trail, QueueOf, IterationsOf;
    if AtRest(s) {
      past := [];
      RestTrail(s, t);
      assert [] + [t] == [t];
    } else {
      past :| Follows(s, past);
      QueueEndsInHead(s.plan, past);
      TrailGrows(s.plan, past, t);
      assert (past + [t])[0] == past[0];
    }
  }

  lemma NewUses(s: RunState, u: RunState, t: string, past: seq<string>)
    requires EntersLoop(s, u, t)
    requires forall id: string :: Uses(s.plan, past, id) <= IterationsOf(s, id)
    ensures forall id: string :: Uses(s.plan, past + [t], id) <= IterationsOf(u, id)
  {
    hide Uses, CorrectionLoop;
    forall id: string ensures Uses(s.plan, past + [t], id) <= IterationsOf(u, id) {
      UsesGrow(s.plan, past, t, id);
    }
  }

  lemma LeftWatched(s: RunState, u: RunState)
    requires Watched(s) && !IsTerminal(s) && Leaves(s, u)
    ensures if IsTerminal(u) then u.code == Some(Success) ==> NoneFailed(u) else Watched(u)
  {
    hide IsBad, CurrentRunning, FirstReady, AllWorkDone, Trail, Uses, QueueOf, StageIds, StageOf;
    SameFailed(s, u);
    NextStageShape(s);
    if AtRest(s) {
      assert NoneFailed(s);
      if FirstReady(s).Some? {
        FirstReadyFacts(s);
        ReadyIsEnabled(s, StageOf(s.plan, FirstReady(s).value));
      }
    } else {
      var path :| Follows(s, path);
      assert Follows(u, path);
    }
  }

  lemma ReadyIsEnabled(s: RunState, st: Stage)
    requires Ready(s, st)
    ensures st.enabled
  {
  }

  lemma RestWatched(s: RunState, u: RunState)
    requires Watched(s) && !IsTerminal(s) && Still(s, u) && (u.code == s.code || IsTerminal(u)) && u.iterations == s.iterations
    requires u.code == Some(Success) ==> s.current.None? && s.pending == []
    ensures if IsTerminal(u) then u.code == Some(Success) ==> NoneFailed(u) else Watched(u)
  {
    hide IsBad, Trail, Uses, QueueOf, StageIds, StageOf;
    SameFailed(s, u);
    if !AtRest(s) {
      var path :| Follows(s, path);
      assert Follows(s, path);
      if u.code == s.code {
        assert Follows(u, path);
      }
    }
  }

  lemma RestShape(s: RunState, u: RunState)
    requires !IsTerminal(s) && s.code.None?
    requires Schedules(s, u) || Breaks(s, u) || Stops(s, u) || Cancels(s, u) || SameButChildren(u, s) || u == s.(cancelIntent := true)
    ensures (u.code == s.code || IsTerminal(u)) && u.iterations == s.iterations
    ensures u.code == Some(Success) ==> s.current.None? && s.pending == []
  {
    hide CurrentRunning;
  }

  lemma MoveInv(s: RunState, u: RunState)
    requires Inv(s) && Move(s, u, true)
    ensures Inv(u)
  {
    hide Sane, Remembers, AtRest, Follows, NoneFailed, Drops, Takes, Leaves, Rounds, Finishes, Handles, Begins, Schedules, Breaks, Stops,
      Cancels, SameButChildren;
    MoveSane(s, u, true);
    if Finishes(s, u, true) || Handles(s, u) || Begins(s, u) {
      AttemptMoves(s, u, true);
      AttemptWatched(s, u);
    } else if Drops(s, u) || Takes(s, u) {
      TakePending(s, u);
    } else if Leaves(s, u) {
      LeftWatched(s, u);
    } else if Rounds(s, u, true) {
      EnterRound(s, u);
    } else {
      RestStill(s, u);
      RestShape(s, u);
      RestWatched(s, u);
    }
  }

  // --- Whole runs -------------------------------------------------------------

  lemma {:induction false} StepwiseInv(s: RunState, t: seq<Effect>)
    requires Inv(s) && Stepwise(s, t, true)
    ensures Inv(Durable(s, t))
  {
    hide Inv, Move;
    if t != [] {
      StepwiseInv(s, t[..|t| - 1]);
      if t[|t| - 1].Save? {
        MoveInv(Durable(s, t[..|t| - 1]), t[|t| - 1].state);
      }
    }
  }

  lemma SubmitInv(p: Plan)
    requires Remembers(p)
    ensures Inv(Submit(p))
  {
    hide Remembers;
    var s := Submit(p);
    var s0 := s.(current := None);
    SubmitSane(p);
    if FirstReady(s0).Some? {
      FirstReadyFacts(s0);
    }
  }

  /** Whatever the answers and the crashes: no successful run leaves an enabled QC stage on a failing verdict. */
  lemma SuccessIsApproved(p: Plan, events: seq<Event>)
    requires Remembers(p) && NamedHistory(Submit(p), events)
    ensures var s := Now(Submit(p), events);
      s.code == Some(Success) ==> forall id: string :: !FailedQc(s, id)
  {
    hide Remembers, Stepwise, Sane, Trace, Durable, FailedQc, NamedHistory, Submit;
    SubmitInv(p);
    SubmitSane(p);
    HistoryMoves(Submit(p), events, true);
    StepwiseInv(Submit(p), Trace(Submit(p), events));
    ApprovedFacts(Now(Submit(p), events));
  }

  lemma ApprovedFacts(s: RunState)
    requires Inv(s)
    ensures s.code == Some(Success) ==> NoneFailed(s)
  {
  }

  // --- Plans that remember ----------------------------------------------------

  /** The loop of a QC stage leads back to it and passes through no other QC stage. */
  predicate ClosedLoop(p: Plan, q: string) {
    var l := CorrectionLoop(p, q);
    (l.Some? && l.value.maxIterations > 0) ==>
      LastOf(LoopStages(l.value)) == q && forall id | id in LoopStages(l.value) && QcStage(p, id) :: id == q
  }

  ghost predicate LoopsClosed(p: Plan) {
    forall q: string | EnabledQc(p, q) :: ClosedLoop(p, q)
  }

  lemma {:induction false} ClosedTrail(p: Plan, path: seq<string>)
    requires LoopsClosed(p) && Trail(p, path)
    ensures EnabledQc(p, path[0]) && LastOf(path) == path[0]
  {
    hide QcStage;
    var n := |path| - 1;
    if n > 0 {
      ClosedTrail(p, path[..n]);
      assert path[..n][0] == path[0] && LastOf(path[..n]) == path[n - 1];
      HeadLimit(p, path[..n]);
      QcInTrail(p, path);
      assert ClosedLoop(p, path[0]);
    }
  }

  lemma QcInTrail(p: Plan, path: seq<string>)
    requires Trail(p, path)
    ensures QcStage(p, LastOf(path))
  {
  }

  lemma HeadLimit(p: Plan, path: seq<string>)
    requires Trail(p, path)
    ensures CorrectionLoop(p, LastOf(path)).Some? && CorrectionLoop(p, LastOf(path)).value.maxIterations > 0
  {
  }

  /** Loops that lead back to their own QC stage, and through no other, are enough. */
  lemma ClosedLoopsRemember(p: Plan)
    requires LoopsClosed(p)
    ensures Remembers(p)
  {
    forall path: seq<string>, b: string ensures !Forgets(p, path, b) {
      if Trail(p, path) {
        ClosedTrail(p, path);
        HeadLimit(p, path);
        assert ClosedLoop(p, path[0]);
      }
    }
  }

  /** When no QC stage is disabled, closed loops are also needed. */
  lemma RemembersIffClosed(p: Plan)
    requires forall id: string | QcStage(p, id) :: EnabledQc(p, id)
    ensures Remembers(p) <==> LoopsClosed(p)
  {
    hide QcStage;
    if Remembers(p) {
      forall q: string | EnabledQc(p, q) ensures ClosedLoop(p, q) {
        if CorrectionLoop(p, q).Some? && CorrectionLoop(p, q).value.maxIterations > 0 {
          TrailStarts(p, q);
          assert !Forgets(p, [q], q);
          forall id | id in LoopStages(CorrectionLoop(p, q).value) && QcStage(p, id) ensures id == q {
            assert !Forgets(p, [q], id);
          }
        }
      }
    }
    if LoopsClosed(p) {
      ClosedLoopsRemember(p);
    }
  }

  /** The fallback loop never leads back. */
  lemma FallbackForgets(p: Plan, q: string)
    requires EnabledQc(p, q) && LoopFor(p.loops, q).None? && p.maxCorrections > 0
    requires FirstCorrect(p.stages).Some? && FirstCorrect(p.stages).value != q
    ensures Forgets(p, [q], q) && !Remembers(p)
  {
    TrailStarts(p, q);
    assert LoopStages(CorrectionLoop(p, q).value) == [FirstCorrect(p.stages).value];
    assert Forgets(p, [q], q);
  }
}
