// What a finished run has done: on plans whose dependencies are acyclic a run never dies for want of
// a ready stage, and a successful run has completed every stage it had to, wherever crashes fell.

module PipelineProgress {
  import opened Common
  import opened PipelineModel
  import opened PipelineTermination
  import opened PipelineAttempts
  import opened PipelineMoves

  // --- Plans ------------------------------------------------------------------

  predicate Required(st: Stage) {
    st.enabled && st.kind != Correct
  }

  /** Ids are distinct, dependencies exist, required stages need no correction stage, and ranks witness acyclicity. */
  ghost predicate Dag(p: Plan, rank: map<string, nat>) {
    && (forall i, j | 0 <= i < j < |p.stages| :: p.stages[i].id != p.stages[j].id)
    && rank.Keys == StageIds(p) && "" !in StageIds(p)
    && (forall id: string, i: nat | id in StageIds(p) && i < |StageOf(p, id).dependsOn| ::
          var d := StageOf(p, id).dependsOn[i];
          && d in StageIds(p) && rank[d] < rank[id]
          && (Required(StageOf(p, id)) ==> StageOf(p, d).kind != Correct))
  }

  function LastOf(ids: seq<string>): string
    requires ids != []
  {
    ids[|ids| - 1]
  }

  /** The last stage of every declared loop exists. */
  predicate Lands(p: Plan) {
    forall i | 0 <= i < |p.loops| :: LastOf(LoopStages(p.loops[i])) in StageIds(p)
  }

  // --- The invariant ----------------------------------------------------------

  ghost predicate RequiredDone(s: RunState) {
    forall id: string | id in StageIds(s.plan) && Required(StageOf(s.plan, id)) :: IsDone(s, id)
  }

  /** Before the first correction the cursor respects dependencies. */
  predicate InOrder(s: RunState) {
    s.corrections == 0 && s.current.Some? && s.current.value in StageIds(s.plan) ==> DepsDone(s, StageOf(s.plan, s.current.value))
  }

  ghost predicate Going(s: RunState) {
    && s.code.None? && InOrder(s)
    && (s.pending != [] ==> LastOf(s.pending) in StageIds(s.plan))
    && (s.pending == [] && s.current.None? ==> RequiredDone(s))
  }

  ghost predicate Ended(s: RunState) {
    && s.code.Some? && s.status == StatusOf(s.code.value)
    && s.code != Some(CoordinatorError)
    && (s.code == Some(Success) ==> RequiredDone(s))
  }

  ghost predicate Progress(s: RunState, rank: map<string, nat>) {
    && Sane(s) && Dag(s.plan, rank) && Lands(s.plan)
    && (if IsTerminal(s) then Ended(s) else Going(s))
  }

  // --- Something is always ready ----------------------------------------------

  lemma {:induction false} ReadyIsFound(s: RunState, stages: seq<Stage>, id: string)
    requires forall i | 0 <= i < |stages| :: stages[i].id in StageIds(s.plan)
    requires exists i | 0 <= i < |stages| :: stages[i].id == id
    requires id in StageIds(s.plan) && StageOf(s.plan, id).kind != Correct && Ready(s, StageOf(s.plan, id))
    ensures FirstReadyIn(s, stages).Some?
  {
    var i :| 0 <= i < |stages| && stages[i].id == id;
    if FirstReadyIn(s, stages).None? {
      assert false;
    }
  }

  /** Of the required stages that are not done, one of least rank is ready. */
  lemma {:induction false} LeastUndoneIsReady(s: RunState, rank: map<string, nat>, id: string) returns (r: string)
    requires Dag(s.plan, rank) && id in StageIds(s.plan) && Required(StageOf(s.plan, id)) && !IsDone(s, id)
    ensures r in StageIds(s.plan) && Required(StageOf(s.plan, r)) && Ready(s, StageOf(s.plan, r))
    decreases rank[id]
  {
    var st := StageOf(s.plan, id);
    if i: nat :| i < |st.dependsOn| && StageOf(s.plan, st.dependsOn[i]).enabled && !IsDone(s, st.dependsOn[i]) {
      r := LeastUndoneIsReady(s, rank, st.dependsOn[i]);
    } else {
      r := id;
    }
  }

  lemma UndoneMeansReady(s: RunState, rank: map<string, nat>, id: string)
    requires Dag(s.plan, rank) && id in StageIds(s.plan) && Required(StageOf(s.plan, id)) && !IsDone(s, id)
    ensures FirstReady(s).Some?
  {
    var r := LeastUndoneIsReady(s, rank, id);
    ReadyIsFound(s, s.plan.stages, r);
  }

  /** On an acyclic plan nothing is ready exactly when everything required is done. */
  lemma NothingReady(s: RunState, rank: map<string, nat>)
    requires Dag(s.plan, rank)
    ensures FirstReady(s).None? <==> RequiredDone(s)
    ensures RequiredDone(s) <==> AllWorkDone(s)
  {
    hide FirstReady, IsDone, AllWorkDone, Dag;
    forall id: string | FirstReady(s).None? && id in StageIds(s.plan) && Required(StageOf(s.plan, id)) ensures IsDone(s, id) {
      if !IsDone(s, id) {
        UndoneMeansReady(s, rank, id);
      }
    }
    RequiredIsWork(s, rank);
    if FirstReady(s).Some? {
      FirstReadyFacts(s);
      ReadyIsRequired(s, StageOf(s.plan, FirstReady(s).value));
    }
  }

  lemma ReadyIsRequired(s: RunState, st: Stage)
    requires Ready(s, st) && st.kind != Correct
    ensures Required(st) && DepsDone(s, st)
  {
  }

  lemma RequiredIsWork(s: RunState, rank: map<string, nat>)
    requires Dag(s.plan, rank)
    ensures RequiredDone(s) <==> AllWorkDone(s)
  {
    hide IsDone;
    forall i | 0 <= i < |s.plan.stages| ensures StageOf(s.plan, s.plan.stages[i].id) == s.plan.stages[i] {
      assert s.plan.stages[i].id in StageIds(s.plan);
    }
    if AllWorkDone(s) {
      forall id: string | id in StageIds(s.plan) && Required(StageOf(s.plan, id)) ensures IsDone(s, id) {
        var i := StageIndex(s.plan, id);
        assert IsDone(s, s.plan.stages[i].id);
      }
    }
  }

  // --- Moves keep progress ----------------------------------------------------

  lemma SameReading(s: RunState, u: RunState)
    requires u.plan == s.plan && u.attempts == s.attempts
    ensures RequiredDone(u) == RequiredDone(s)
    ensures forall st: Stage :: DepsDone(u, st) == DepsDone(s, st)
  {
    SameAttempts(s, u);
  }

  /** Changing the attempts of the current stage only. */
  lemma CurrentOrder(s: RunState, u: RunState, rank: map<string, nat>)
    requires Dag(s.plan, rank) && InOrder(s) && s.current.Some? && u == s.(attempts := u.attempts)
    requires forall j: string :: j != s.current.value ==> Tries(u, j) == Tries(s, j)
    ensures InOrder(u)
  {
    var id := s.current.value;
    if u.corrections == 0 && id in StageIds(s.plan) {
      var st := StageOf(s.plan, id);
      forall i | 0 <= i < |st.dependsOn|
        ensures st.dependsOn[i] in StageIds(u.plan) && (StageOf(u.plan, st.dependsOn[i]).enabled ==> IsDone(u, st.dependsOn[i]))
      {
        assert rank[st.dependsOn[i]] < rank[id];
        assert Tries(u, st.dependsOn[i]) == Tries(s, st.dependsOn[i]);
      }
    }
  }

  lemma AttemptGoing(s: RunState, u: RunState, rank: map<string, nat>)
    requires Dag(s.plan, rank) && Going(s) && s.current.Some? && u == s.(attempts := u.attempts)
    requires forall j: string :: j != s.current.value ==> Tries(u, j) == Tries(s, j)
    ensures Going(u)
  {
    hide DepsDone, Dag, StageIds;
    CurrentOrder(s, u, rank);
  }

  lemma QueueGoing(s: RunState, u: RunState)
    requires Going(s) && Sane(s) && (Drops(s, u) || Takes(s, u))
    ensures Going(u) && u.status == s.status
  {
    hide DepsDone, IsDone, Numbered, CurrentRunning;
    if u.pending != [] {
      assert LastOf(u.pending) == LastOf(s.pending);
    }
  }

  lemma LeftOk(s: RunState, u: RunState, rank: map<string, nat>)
    requires Sane(s) && Dag(s.plan, rank) && Going(s) && !IsTerminal(s) && Leaves(s, u)
    ensures if IsTerminal(u) then Ended(u) else Going(u)
  {
    hide DepsDone, IsDone, Numbered, CurrentRunning, Approved, Dag, FirstReady, AllWorkDone, RequiredDone;
    NothingReady(s, rank);
    SameReading(s, u);
    if FirstReady(s).Some? {
      FirstReadyFacts(s);
      ReadyIsRequired(s, StageOf(s.plan, FirstReady(s).value));
    }
  }

  lemma FirstCorrectExists(stages: seq<Stage>)
    requires FirstCorrect(stages).Some?
    ensures exists i | 0 <= i < |stages| :: stages[i].id == FirstCorrect(stages).value
  {
    if stages[0].kind != Correct {
      FirstCorrectExists(stages[1..]);
      var i :| 0 <= i < |stages[1..]| && stages[1..][i].id == FirstCorrect(stages).value;
      assert stages[i + 1].id == FirstCorrect(stages).value;
    }
  }

  /** A loop that is entered ends in a known stage. */
  lemma LoopLands(p: Plan, qc: string)
    requires Lands(p) && CorrectionLoop(p, qc).Some?
    ensures LastOf(LoopStages(CorrectionLoop(p, qc).value)) in StageIds(p)
  {
    if LoopFor(p.loops, qc).None? {
      FirstCorrectExists(p.stages);
    }
  }

  lemma RoundGoing(s: RunState, u: RunState, named: bool)
    requires Lands(s.plan) && Going(s) && Rounds(s, u, named)
    ensures Going(u) && u.status == s.status
  {
    var qc: string :| EntersLoop(s, u, qc);
    assert EntersLoop(s, u, qc);
    LoopLands(s.plan, qc);
  }

  lemma StillGoing(s: RunState, u: RunState)
    requires Going(s) && Still(s, u) && u.code == s.code
    ensures Going(u)
  {
    hide DepsDone, RequiredDone, StageIds;
    SameReading(s, u);
  }

  /** The moves of the running attempt touch no other stage. */
  lemma AttemptMoves(s: RunState, u: RunState, named: bool)
    requires Finishes(s, u, named) || Handles(s, u) || Begins(s, u)
    ensures s.current.Some? && u == s.(attempts := u.attempts)
    ensures forall j: string :: j != s.current.value ==> Tries(u, j) == Tries(s, j)
  {
    var id := s.current.value;
    if Begins(s, u) {
      StartedGrows(s, id);
    } else {
      RunningHasTries(s, id);
      OthersKeep(s, id, if Finishes(s, u, named) then LastTry(u, id) else LastTry(s, id).(handle := LastTry(u, id).handle));
    }
  }

  /** The other moves end the run or leave what progress depends on alone. */
  lemma RestProgress(s: RunState, u: RunState)
    requires Going(s) && (Schedules(s, u) || Breaks(s, u) || Stops(s, u) || Cancels(s, u) || SameButChildren(u, s) || u == s.(cancelIntent := true))
    requires !IsTerminal(s)
    ensures if IsTerminal(u) then Ended(u) else Going(u)
  {
    hide RequiredDone, InOrder, StageIds, CurrentRunning;
    RestStill(s, u);
    SameReading(s, u);
    if Stops(s, u) {
      StoppedDone(s, u);
    } else if Breaks(s, u) || Cancels(s, u) {
    } else {
      SameCode(s, u);
      StillGoing(s, u);
    }
  }

  lemma SameCode(s: RunState, u: RunState)
    requires Schedules(s, u) || SameButChildren(u, s) || u == s.(cancelIntent := true)
    ensures u.code == s.code && u.status == s.status
  {
  }

  lemma MoveProgress(s: RunState, u: RunState, rank: map<string, nat>)
    requires Progress(s, rank) && Move(s, u, false)
    ensures Progress(u, rank)
  {
    hide Sane, Dag, Lands, Going, Ended, Drops, Takes, Leaves, Rounds, Finishes, Handles, Begins, Schedules, Breaks, Stops, Cancels,
      SameButChildren;
    MoveSane(s, u, false);
    if Finishes(s, u, false) || Handles(s, u) || Begins(s, u) {
      AttemptMoves(s, u, false);
      AttemptGoing(s, u, rank);
    } else if Drops(s, u) || Takes(s, u) {
      QueueGoing(s, u);
    } else if Leaves(s, u) {
      LeftOk(s, u, rank);
    } else if Rounds(s, u, false) {
      RoundGoing(s, u, false);
    } else {
      RestProgress(s, u);
    }
  }

  lemma StoppedDone(s: RunState, u: RunState)
    requires Going(s) && Stops(s, u)
    ensures Ended(u)
  {
    hide RequiredDone;
    SameReading(s, u);
  }

  lemma OthersKeep(s: RunState, id: string, a: Attempt)
    requires Tries(s, id) != []
    ensures SetLast(s, id, a) == s.(attempts := SetLast(s, id, a).attempts)
    ensures forall j: string :: j != id ==> Tries(SetLast(s, id, a), j) == Tries(s, j)
  {
  }

  // --- Whole runs -------------------------------------------------------------

  lemma {:induction false} StepwiseProgress(s: RunState, t: seq<Effect>, rank: map<string, nat>)
    requires Progress(s, rank) && Stepwise(s, t, false)
    ensures Progress(Durable(s, t), rank)
  {
    hide Progress, Move;
    if t != [] {
      StepwiseProgress(s, t[..|t| - 1], rank);
      if t[|t| - 1].Save? {
        MoveProgress(Durable(s, t[..|t| - 1]), t[|t| - 1].state, rank);
      }
    }
  }

  /** The first stage of a run is ready, and there is one exactly when the plan requires a stage. */
  lemma SubmitFinds(p: Plan, rank: map<string, nat>)
    requires Dag(p, rank)
    ensures var s := Submit(p);
      && (s.current.Some? <==> exists id: string :: id in StageIds(p) && Required(StageOf(p, id)))
      && (s.current.Some? ==> s.current.value in StageIds(p) && Required(StageOf(p, s.current.value)) && InOrder(s))
      && (s.current.None? ==> RequiredDone(s))
  {
    hide Dag, FirstReady;
    var s := Submit(p);
    var s0 := s.(current := None);
    assert s.current == FirstReady(s0);
    NothingReady(s0, rank);
    SameReading(s0, s);
    NothingDone(s0);
    if s.current.Some? {
      FirstReadyFacts(s0);
      ReadyIsRequired(s0, StageOf(p, s.current.value));
    }
  }

  lemma NothingDone(s: RunState)
    requires s.attempts == map[]
    ensures forall id: string :: !IsDone(s, id)
  {
  }

  lemma HistoryProgress(p: Plan, rank: map<string, nat>, events: seq<Event>)
    requires Dag(p, rank) && Lands(p)
    ensures Progress(Now(Submit(p), events), rank) && Now(Submit(p), events).plan == p
  {
    hide Dag, Lands, Stepwise, Sane, Durable, Trace;
    SubmitSane(p);
    SubmitFinds(p, rank);
    assert Progress(Submit(p), rank);
    HistoryMoves(Submit(p), events, false);
    StepwiseProgress(Submit(p), Trace(Submit(p), events), rank);
  }

  /** Whatever the answers and the crashes: SUCCESS means every enabled non-correction stage ends on a
      completed attempt, and the run never dies for want of a ready stage. */
  lemma SuccessIsComplete(p: Plan, rank: map<string, nat>, events: seq<Event>)
    requires Dag(p, rank) && Lands(p)
    ensures var s := Now(Submit(p), events);
      && s.plan == p
      && (s.code == Some(Success) ==> forall id: string | id in StageIds(p) && Required(StageOf(p, id)) :: IsDone(s, id))
      && s.code != Some(CoordinatorError)
      && (IsTerminal(s) <==> s.code.Some?)
      && (IsTerminal(s) ==> s.status == StatusOf(s.code.value))
  {
    hide Sane, Dag, Lands;
    HistoryProgress(p, rank, events);
  }
}
