// The saves of an advance as a chain of small moves, each starting from what was durable before it.
// What holds of every run with crashes is proved move by move.

module PipelineMoves {
  import opened Common
  import opened PipelineModel
  import opened PipelineTermination
  import opened PipelineAttempts

  // --- Verdicts ---------------------------------------------------------------

  /** The stage an advance will run. */
  function Target(s: RunState): Option<string> {
    if s.pending != [] && !CurrentRunning(s) then Some(s.pending[0]) else s.current
  }

  predicate NamesTarget(s: RunState, r: Reply) {
    r.verdict.Some? ==> Target(s) == Some(r.verdict.value.stage)
  }

  /** Verdicts name the stage that ran. */
  predicate Named(s: RunState, a: Answers) {
    NamesTarget(s, a.external) && NamesTarget(s, a.poll)
  }

  /** In every step of the history the verdicts name the stage that ran. */
  ghost predicate NamedHistory(s: RunState, events: seq<Event>) {
    forall i | 0 <= i < |events| && events[i].Step? :: Named(Now(s, events[..i]), events[i].answers)
  }

  // --- What every durable state keeps -----------------------------------------

  predicate CursorKnown(s: RunState) {
    s.current.Some? ==> s.current.value in StageIds(s.plan)
  }

  /** A running attempt has no verdict yet. */
  predicate Unjudged(s: RunState) {
    CurrentRunning(s) ==> LastTry(s, s.current.value).verdict.None?
  }

  ghost predicate Sane(s: RunState) {
    Numbered(s) && CursorKnown(s) && Unjudged(s) && (s.pending != [] ==> s.corrections > 0)
  }

  // --- Moves ------------------------------------------------------------------

  function LoopStages(l: Loop): (ids: seq<string>) {
    [l.correction] + l.onCorrection
  }

  /** The current stage is no QC stage whose latest attempt carries a failing verdict. */
  predicate Approved(s: RunState) {
    (s.current.Some? && s.current.value in StageIds(s.plan) && StageOf(s.plan, s.current.value).kind == Qc) ==>
      !IsBad(s, s.current.value)
  }

  /** An unknown stage is dropped from the queue. */
  predicate Drops(s: RunState, u: RunState) {
    s.pending != [] && !CurrentRunning(s) && s.pending[0] !in StageIds(s.plan) && u == s.(pending := s.pending[1..])
  }

  /** The cursor moves to the head of the queue. */
  predicate Takes(s: RunState, u: RunState) {
    && s.pending != [] && !CurrentRunning(s) && s.pending[0] in StageIds(s.plan)
    && u == s.(current := Some(s.pending[0]), pending := s.pending[1..], note := s.corrections > 0)
  }

  predicate Begins(s: RunState, u: RunState) {
    s.current.Some? && s.current.value in StageIds(s.plan) && !CurrentRunning(s) && u == Started(s, s.current.value)
  }

  /** The running attempt ends. */
  predicate Finishes(s: RunState, u: RunState, named: bool) {
    && CurrentRunning(s) && s.current.value in StageIds(s.plan) && Tries(u, s.current.value) != []
    && var id, a := s.current.value, LastTry(u, s.current.value);
       && u == SetLast(s, id, a) && a.num == LastTry(s, id).num && !a.status.Running?
       && (named && a.verdict.Some? ==> a.verdict.value.stage == id)
  }

  /** The running attempt is given a handle. */
  predicate Handles(s: RunState, u: RunState) {
    && CurrentRunning(s) && Tries(u, s.current.value) != []
    && u == SetLast(s, s.current.value, LastTry(s, s.current.value).(handle := LastTry(u, s.current.value).handle))
  }

  /** The next stage is chosen, or the run ends for want of one. */
  predicate Leaves(s: RunState, u: RunState) {
    !CurrentRunning(s) && Approved(s) && u == NextStage(s).final
  }

  /** A failing verdict starts a correction round. */
  ghost predicate Rounds(s: RunState, u: RunState, named: bool) {
    && !CurrentRunning(s) && s.current.Some? && s.current.value in StageIds(s.plan)
    && StageOf(s.plan, s.current.value).kind == Qc
    && exists qc: string :: (named ==> qc == s.current.value) && EntersLoop(s, u, qc)
  }

  predicate EntersLoop(s: RunState, u: RunState, qc: string) {
    && CorrectionLoop(s.plan, qc).Some?
    && var l := CorrectionLoop(s.plan, qc).value;
       && IterationsOf(s, l.id) < l.maxIterations
       && u == s.(iterations := s.iterations[l.id := IterationsOf(s, l.id) + 1], corrections := s.corrections + 1,
                  pending := LoopStages(l), current := None, note := true)
  }

  /** A failed attempt is to be tried again. */
  predicate Schedules(s: RunState, u: RunState) {
    !CurrentRunning(s) && u == s.(note := true)
  }

  /** The run breaks: neither a success nor for want of a ready stage. */
  predicate Breaks(s: RunState, u: RunState) {
    && u.code.Some? && u.code.value != Success && u.code.value != CoordinatorError
    && u == s.(status := StatusOf(u.code.value), code := u.code)
  }

  /** Without a cursor and a queue the run succeeds. */
  predicate Stops(s: RunState, u: RunState) {
    s.current.None? && s.pending == [] && u == s.(status := Succeeded, code := Some(Success))
  }

  predicate Cancels(s: RunState, u: RunState) {
    && u.code.Some? && u.code.value in {CoordinatorCancelled, UnsafeResume}
    && u == s.(status := StatusOf(u.code.value), code := u.code, children := u.children, cancelled := true, cancelIntent := false)
  }

  ghost predicate Move(s: RunState, u: RunState, named: bool) {
    && !IsTerminal(s)
    && (|| Drops(s, u) || Takes(s, u) || Begins(s, u) || Finishes(s, u, named) || Handles(s, u) || Leaves(s, u)
        || Rounds(s, u, named) || Schedules(s, u) || Breaks(s, u) || Stops(s, u) || Cancels(s, u)
        || SameButChildren(u, s) || u == s.(cancelIntent := true))
  }

  // --- Moves keep every state sane --------------------------------------------

  /** Attempts and plan stay, and a running stage stays current. */
  lemma FrameSane(s: RunState, u: RunState)
    requires Sane(s) && u.attempts == s.attempts && u.plan == s.plan && CursorKnown(u)
    requires CurrentRunning(s) ==> u.current == s.current
    requires u.pending != [] ==> u.corrections > 0
    ensures Sane(u)
  {
    RunningIsCurrent(s);
    NumberedFrame(s, u);
    SameAttempts(s, u);
  }

  lemma AttemptSane(s: RunState, u: RunState)
    requires Sane(s) && u == s.(attempts := u.attempts) && Numbered(u)
    requires CurrentRunning(u) ==> LastTry(u, u.current.value).verdict.None?
    ensures Sane(u)
  {
    hide Numbered;
  }

  lemma FreshTry(s: RunState, id: string)
    ensures Tries(Started(s, id), id) != [] && LastTry(Started(s, id), id).verdict.None?
  {
  }

  lemma NextKnown(s: RunState)
    requires CursorKnown(s) && !IsTerminal(s)
    ensures var u := NextStage(s).final;
      CursorKnown(u) && u == s.(current := u.current, note := u.note, status := u.status, code := u.code)
  {
    NextStageShape(s);
    if s.pending == [] && FirstReady(s).Some? {
      FirstReadyFacts(s);
    }
  }

  lemma FinishedSane(s: RunState, u: RunState, named: bool)
    requires Sane(s) && Finishes(s, u, named)
    ensures Sane(u) && u.plan == s.plan
  {
    hide Numbered;
    RecordedKeeps(s, s.current.value, LastTry(u, s.current.value));
    AttemptSane(s, u);
  }

  lemma HandledSane(s: RunState, u: RunState)
    requires Sane(s) && Handles(s, u)
    ensures Sane(u) && u.plan == s.plan
  {
    hide Numbered;
    var id := s.current.value;
    RunningHasTries(s, id);
    var a := LastTry(s, id).(handle := LastTry(u, id).handle);
    HandleKept(s, id, a.handle);
    assert LastTry(u, id) == a;
    AttemptSane(s, u);
  }

  lemma HandleKept(s: RunState, id: string, h: Option<string>)
    requires Numbered(s) && s.current == Some(id) && IsRunning(s, id)
    ensures Tries(s, id) != [] && Numbered(SetLast(s, id, LastTry(s, id).(handle := h)))
  {
    var a := LastTry(s, id).(handle := h);
    var t, u := Tries(s, id), SetLast(s, id, LastTry(s, id).(handle := h));
    assert Tries(u, id) == t[..|t| - 1] + [a];
    forall j: string, i | 0 <= i < |Tries(u, j)|
      ensures Tries(u, j)[i].num == i + 1
      ensures Tries(u, j)[i].status.Running? ==> i == |Tries(u, j)| - 1 && u.current == Some(j)
    {
      if j != id {
        assert Tries(u, j) == Tries(s, j);
      } else if i < |t| - 1 {
        assert Tries(u, j)[i] == t[i];
      } else {
        assert t[|t| - 1].num == |t|;
      }
    }
  }

  lemma BegunSane(s: RunState, u: RunState)
    requires Sane(s) && Begins(s, u)
    ensures Sane(u) && u.plan == s.plan
  {
    hide Numbered, Started;
    var id := s.current.value;
    StartedKeeps(s, id);
    FreshTry(s, id);
    StartedOnlyTries(s, id);
    AttemptSane(s, u);
  }

  lemma StartedOnlyTries(s: RunState, id: string)
    ensures Started(s, id) == s.(attempts := Started(s, id).attempts)
  {
  }

  lemma QueueSane(s: RunState, u: RunState)
    requires Sane(s) && (Drops(s, u) || Takes(s, u))
    ensures Sane(u) && u.plan == s.plan
  {
    hide Sane, CurrentRunning, StageIds;
    SaneParts(s);
    FrameSane(s, u);
  }

  lemma LeftSane(s: RunState, u: RunState)
    requires Sane(s) && !IsTerminal(s) && Leaves(s, u)
    ensures Sane(u) && u.plan == s.plan
  {
    hide Sane, CurrentRunning, NextStage, Approved;
    SaneParts(s);
    NextKnown(s);
    FrameSane(s, u);
  }

  lemma RoundSane(s: RunState, u: RunState, named: bool)
    requires Sane(s) && Rounds(s, u, named)
    ensures Sane(u) && u.plan == s.plan
  {
    hide Sane, CurrentRunning, CorrectionLoop;
    SaneParts(s);
    FrameSane(s, u);
  }

  /** Moves that leave cursor, queue and attempts alone. */
  predicate Still(s: RunState, u: RunState) {
    u.plan == s.plan && u.attempts == s.attempts && u.current == s.current && u.pending == s.pending && u.corrections == s.corrections
  }

  lemma RestStill(s: RunState, u: RunState)
    requires Schedules(s, u) || Breaks(s, u) || Stops(s, u) || Cancels(s, u) || SameButChildren(u, s) || u == s.(cancelIntent := true)
    ensures Still(s, u)
  {
    hide CurrentRunning;
  }

  lemma StillSane(s: RunState, u: RunState)
    requires Sane(s) && Still(s, u)
    ensures Sane(u)
  {
    hide Sane, CurrentRunning;
    SaneParts(s);
    FrameSane(s, u);
  }

  lemma MoveSane(s: RunState, u: RunState, named: bool)
    requires Sane(s) && Move(s, u, named)
    ensures Sane(u) && u.plan == s.plan
  {
    hide Sane, Finishes, Handles, Begins, Drops, Takes, Leaves, Rounds, Schedules, Breaks, Stops, Cancels, SameButChildren;
    if Finishes(s, u, named) {
      FinishedSane(s, u, named);
    } else if Handles(s, u) {
      HandledSane(s, u);
    } else if Begins(s, u) {
      BegunSane(s, u);
    } else if Drops(s, u) || Takes(s, u) {
      QueueSane(s, u);
    } else if Leaves(s, u) {
      LeftSane(s, u);
    } else if Rounds(s, u, named) {
      RoundSane(s, u, named);
    } else {
      RestStill(s, u);
      StillSane(s, u);
    }
  }

  lemma SaneParts(s: RunState)
    requires Sane(s)
    ensures Numbered(s) && CursorKnown(s) && (s.pending != [] ==> s.corrections > 0)
    ensures CurrentRunning(s) ==> Tries(s, s.current.value) != [] && LastTry(s, s.current.value).verdict.None?
  {
  }

  lemma SetLastOnlyTries(s: RunState, id: string, a: Attempt)
    requires Tries(s, id) != []
    ensures SetLast(s, id, a) == s.(attempts := SetLast(s, id, a).attempts)
  {
  }

  // --- Chains of moves --------------------------------------------------------

  ghost predicate MovesLast(s: RunState, t: seq<Effect>, named: bool)
    requires t != []
  {
    t[|t| - 1].Save? ==> Move(Durable(s, t[..|t| - 1]), t[|t| - 1].state, named)
  }

  /** Every save of the trace is a move from what was durable before it. */
  ghost predicate Stepwise(s: RunState, t: seq<Effect>, named: bool) {
    t == [] || (MovesLast(s, t, named) && Stepwise(s, t[..|t| - 1], named))
  }

  lemma {:induction false} StepwisePrefix(s: RunState, t: seq<Effect>, named: bool, n: nat)
    requires Stepwise(s, t, named) && n <= |t|
    ensures Stepwise(s, t[..n], named)
  {
    if n == |t| {
      assert t[..n] == t;
    } else {
      StepwisePrefix(s, t[..|t| - 1], named, n);
      assert t[..|t| - 1][..n] == t[..n];
    }
  }

  lemma {:induction false} StepwiseAppend(s: RunState, t: seq<Effect>, es: seq<Effect>, named: bool)
    requires Stepwise(s, t, named) && Stepwise(Durable(s, t), es, named)
    ensures Stepwise(s, t + es, named)
  {
    hide Move, Durable;
    if es == [] {
      assert t + es == t;
    } else {
      var n := |es| - 1;
      StepwiseAppend(s, t, es[..n], named);
      assert (t + es)[..|t + es| - 1] == t + es[..n];
      DurableAppend(s, t, es[..n]);
    }
  }

  lemma {:induction false} StepwiseSane(s: RunState, t: seq<Effect>, named: bool)
    requires Sane(s) && Stepwise(s, t, named)
    ensures Sane(Durable(s, t)) && Durable(s, t).plan == s.plan
  {
    hide Sane, Move;
    if t != [] {
      StepwiseSane(s, t[..|t| - 1], named);
      if t[|t| - 1].Save? {
        MoveSane(Durable(s, t[..|t| - 1]), t[|t| - 1].state, named);
      }
    }
  }

  lemma OneMove(s: RunState, u: RunState, named: bool)
    requires Move(s, u, named)
    ensures Stepwise(s, [Save(u)], named) && Durable(s, [Save(u)]) == u
  {
    hide Move;
    var t := [Save(u)];
    assert t[..0] == [];
    assert Stepwise(s, t[..0], named);
  }

  lemma MoveThen(s: RunState, u: RunState, es: seq<Effect>, named: bool)
    requires Move(s, u, named) && Stepwise(u, es, named)
    ensures Stepwise(s, [Save(u)] + es, named)
  {
    hide Move, Stepwise;
    OneMove(s, u, named);
    StepwiseAppend(s, [Save(u)], es, named);
  }

  lemma CallThen(s: RunState, e: Effect, es: seq<Effect>, named: bool)
    requires !e.Save? && Stepwise(s, es, named)
    ensures Stepwise(s, [e] + es, named)
  {
    hide Move;
    assert [e][..0] == [];
    assert Stepwise(s, [e][..0], named);
    assert Durable(s, [e]) == s;
    StepwiseAppend(s, [e], es, named);
  }

  // --- Every advance is a chain of moves --------------------------------------

  lemma BreakMoves(s: RunState, code: TerminalCode, named: bool)
    requires !IsTerminal(s) && code != Success && code != CoordinatorError
    ensures Stepwise(s, Terminalize(s, code).effects, named)
  {
    hide Stepwise;
    OneMove(s, Terminalize(s, code).final, named);
  }

  lemma NextMoves(s: RunState, named: bool)
    requires Sane(s) && !IsTerminal(s) && !CurrentRunning(s) && Approved(s)
    ensures Stepwise(s, NextStage(s).effects, named)
  {
    hide Stepwise, FirstReady, AllWorkDone, Sane, Approved;
    assert NextStage(s).effects == [Save(NextStage(s).final)];
    assert Leaves(s, NextStage(s).final);
    OneMove(s, NextStage(s).final, named);
  }

  lemma HandleQcMoves(s: RunState, v: Verdict, named: bool)
    requires Sane(s) && !IsTerminal(s) && !CurrentRunning(s) && s.current.Some? && s.current.value in StageIds(s.plan)
    requires StageOf(s.plan, s.current.value).kind == Qc
    requires v.passed ==> Approved(s)
    requires named ==> s.current == Some(v.stage)
    ensures Stepwise(s, HandleQc(s, v).effects, named)
  {
    hide Stepwise, NextStage, Sane, Approved, CurrentRunning, StageOf;
    if v.passed {
      NextMoves(s, named);
    } else {
      BreakMoves(s, QcExhausted, named);
      var u := HandleQc(s, v).final;
      if CorrectionLoop(s.plan, v.stage).Some? && IterationsOf(s, CorrectionLoop(s.plan, v.stage).value.id) < CorrectionLoop(s.plan, v.stage).value.maxIterations {
        assert EntersLoop(s, u, v.stage);
        assert Rounds(s, u, named);
        OneMove(s, u, named);
      }
    }
  }

  lemma HandleFailureMoves(s: RunState, st: Stage, failure: Failure, named: bool)
    requires !IsTerminal(s) && !CurrentRunning(s) && s.current == Some(st.id)
    ensures Stepwise(s, HandleFailure(s, st, failure).effects, named)
  {
    hide Stepwise, Terminalize, CurrentRunning, Tries;
    BreakMoves(s, UnsafeResume, named);
    BreakMoves(s, LeafError, named);
    BreakMoves(s, ProviderError, named);
    BreakMoves(s, ProviderTimeout, named);
    assert Schedules(s, s.(note := true));
    OneMove(s, s.(note := true), named);
    assert s.(note := true) == s.(current := Some(st.id), note := true);
  }

  /** The reply's verdict, if any, is about the stage. */
  predicate About(r: Reply, id: string) {
    r.verdict.Some? ==> r.verdict.value.stage == id
  }

  lemma FinishMove(s: RunState, st: Stage, r: Reply, named: bool)
    requires Sane(s) && s.current == Some(st.id) && IsRunning(s, st.id)
    requires st.id in StageIds(s.plan) && (named ==> About(r, st.id))
    ensures Tries(s, st.id) != []
    ensures Finishes(s, SetLast(s, st.id, Finished(LastTry(s, st.id), r)), named)
  {
    hide Numbered;
    RunningHasTries(s, st.id);
    var a := Finished(LastTry(s, st.id), r);
    assert LastTry(SetLast(s, st.id, a), st.id) == a;
  }

  /** Without a failing verdict of its own, a QC stage is approved. */
  lemma Judged(s: RunState, st: Stage, r: Reply)
    requires Tries(s, st.id) != [] && LastTry(s, st.id).verdict.None? && s.current == Some(st.id)
    requires st.id in StageIds(s.plan) && st == StageOf(s.plan, st.id)
    ensures var u := SetLast(s, st.id, Finished(LastTry(s, st.id), r));
      && !CurrentRunning(u)
      && (r.verdict.Some? && r.verdict.value.passed ==> Approved(u))
      && (!(r.verdict.Some? && st.kind == Qc) ==> Approved(u))
  {
    assert LastTry(SetLast(s, st.id, Finished(LastTry(s, st.id), r)), st.id) == Finished(LastTry(s, st.id), r);
  }

  lemma RecordMoves(s: RunState, st: Stage, r: Reply, named: bool)
    requires Sane(s) && !IsTerminal(s) && s.current == Some(st.id) && IsRunning(s, st.id)
    requires st.id in StageIds(s.plan) && st == StageOf(s.plan, st.id) && (named ==> About(r, st.id))
    ensures Tries(s, st.id) != [] && Stepwise(s, Record(s, st, r).effects, named)
  {
    hide Stepwise, Sane, NextStage, HandleQc, HandleFailure, IsRunning, Approved, Tries, SetLast, Finishes, Finished;
    RunningHasTries(s, st.id);
    SaneParts(s);
    var a := Finished(LastTry(s, st.id), r);
    var s1 := SetLast(s, st.id, a);
    FinishMove(s, st, r, named);
    MoveSane(s, s1, named);
    Judged(s, st, r);
    SetLastOnlyTries(s, st.id, a);
    var rest := if r.handle.BadHandle? then HandleFailure(s1, st, OtherFailure)
      else if r.status.ReplyFailed? then HandleFailure(s1, st, r.failure)
      else if r.verdict.Some? && st.kind == Qc then HandleQc(s1, r.verdict.value)
      else NextStage(s1);
    HandleFailureMoves(s1, st, OtherFailure, named);
    HandleFailureMoves(s1, st, r.failure, named);
    if r.verdict.Some? && st.kind == Qc {
      HandleQcMoves(s1, r.verdict.value, named);
    } else {
      NextMoves(s1, named);
    }
    MoveThen(s, s1, rest.effects, named);
  }

  lemma SettleMoves(s: RunState, st: Stage, r: Reply, named: bool)
    requires Sane(s) && !IsTerminal(s) && s.current == Some(st.id) && IsRunning(s, st.id)
    requires st.id in StageIds(s.plan) && st == StageOf(s.plan, st.id) && (named ==> About(r, st.id))
    ensures Tries(s, st.id) != [] && Stepwise(s, Settle(s, st, r).effects, named)
  {
    hide Stepwise, Sane, Record, Numbered;
    RunningHasTries(s, st.id);
    if !r.status.ReplyWaiting? {
      RecordMoves(s, st, r, named);
    } else if st.authority.External? {
      match r.handle
      case GoodHandle(h) =>
        var u := SetLast(s, st.id, LastTry(s, st.id).(handle := Some(h)));
        assert LastTry(u, st.id) == LastTry(s, st.id).(handle := Some(h));
        assert Handles(s, u);
        OneMove(s, u, named);
      case _ => RecordMoves(s, st, FailedReply(UnsafeOutcome), named);
    } else {
      OneMove(s, s, named);
    }
  }

  lemma LeafAbout(r: Reply, id: string)
    requires About(r, id)
    ensures About(LeafReply(r), id)
  {
  }

  lemma PolledOnlyChildren(s: RunState, k: nat, key: Key, job: string, r: Reply)
    ensures k < |s.children| ==> SameButChildren(Polled(s, k, r), s)
    ensures SameButChildren(WithChild(s, key, job), s)
    ensures SameButChildren(Polled(WithChild(s, key, job), |s.children|, r), WithChild(s, key, job))
  {
  }

  lemma LeafMoves(s: RunState, st: Stage, a: Answers, named: bool)
    requires Sane(s) && !IsTerminal(s) && s.current == Some(st.id) && IsRunning(s, st.id)
    requires st.id in StageIds(s.plan) && st == StageOf(s.plan, st.id) && (named ==> About(a.poll, st.id))
    ensures Tries(s, st.id) != [] && Stepwise(s, RunLeaf(s, st, a).effects, named)
  {
    hide Stepwise, Sane, Settle, Numbered, FindChild, Tries, StageIds, Polled, LeafReply;
    if named {
      LeafAbout(a.poll, st.id);
    }
    RunningHasTries(s, st.id);
    var key := Key(st.id, LastTry(s, st.id).num);
    var k := FindChild(s, key, a.polls);
    var r := LeafReply(a.poll);
    PolledOnlyChildren(s, k, key, a.job, a.poll);
    if k < |s.children| {
      var s1 := Polled(s, k, a.poll);
      MoveSane(s, s1, named);
      SameTries(s, s1);
      SettleMoves(s1, st, r, named);
      MoveThen(s, s1, Settle(s1, st, r).effects, named);
    } else {
      var s1 := WithChild(s, key, a.job);
      var s2 := Polled(s1, |s.children|, a.poll);
      MoveSane(s, s1, named);
      MoveSane(s1, s2, named);
      SameTries(s, s1);
      SameTries(s1, s2);
      SettleMoves(s2, st, r, named);
      var es := Settle(s2, st, r).effects;
      MoveThen(s1, s2, es, named);
      MoveThen(s, s1, [Save(s2)] + es, named);
      CallThen(s, SubmitCall(key), [Save(s1)] + ([Save(s2)] + es), named);
      assert RunLeaf(s, st, a).effects == [SubmitCall(key)] + ([Save(s1)] + ([Save(s2)] + es));
    }
  }

  lemma SameTries(s: RunState, u: RunState)
    requires u.attempts == s.attempts
    ensures forall id: string :: Tries(u, id) == Tries(s, id)
  {
  }

  lemma PerformMoves(s: RunState, st: Stage, resumed: bool, a: Answers, named: bool)
    requires Sane(s) && !IsTerminal(s) && s.current == Some(st.id) && IsRunning(s, st.id)
    requires st.id in StageIds(s.plan) && st == StageOf(s.plan, st.id)
    requires named ==> About(a.poll, st.id) && About(a.external, st.id)
    ensures Tries(s, st.id) != [] && Stepwise(s, Perform(s, st, resumed, a).effects, named)
  {
    hide Stepwise, Sane, Settle, RunLeaf, Tries;
    RunningHasTries(s, st.id);
    SettleMoves(s, st, FailedReply(OtherFailure), named);
    SettleMoves(s, st, FailedReply(UnsafeOutcome), named);
    SettleMoves(s, st, a.external, named);
    LeafMoves(s, st, a, named);
    CallThen(s, ExecuteCall(st.id, LastTry(s, st.id).num), Settle(s, st, a.external).effects, named);
    CallThen(s, PollCall(st.id, LastTry(s, st.id).num), Settle(s, st, a.external).effects, named);
  }

  lemma RunCurrentMoves(s: RunState, a: Answers, named: bool)
    requires Sane(s) && !IsTerminal(s) && (s.current.None? ==> s.pending == [])
    requires named && s.current.Some? ==> About(a.poll, s.current.value) && About(a.external, s.current.value)
    ensures Stepwise(s, RunCurrent(s, a).effects, named)
  {
    hide Stepwise, Sane, Perform, NextStage, IsBad, IsDone, IsRunning, Started;
    SaneParts(s);
    if s.current.None? {
      assert Stops(s, Terminalize(s, Success).final);
      OneMove(s, Terminalize(s, Success).final, named);
    } else {
      var id := s.current.value;
      var st := StageOf(s.plan, id);
      RunningNotDone(s, id);
      if IsDone(s, id) && !IsBad(s, id) && !(s.corrections > 0 && s.note) {
        NextMoves(s, named);
      } else if IsRunning(s, id) {
        PerformMoves(s, st, true, a, named);
      } else {
        var s1 := Started(s, id);
        assert Begins(s, s1);
        MoveSane(s, s1, named);
        StartedKeeps(s, id);
        StartedOnlyTries(s, id);
        PerformMoves(s1, st, false, a, named);
        MoveThen(s, s1, Perform(s1, st, false, a).effects, named);
      }
    }
  }

  lemma CascadeMoves(s: RunState, a: Answers, named: bool)
    ensures Stepwise(s, Cascade(s, a).effects, named)
  {
    if !IsTerminal(s) {
      assert Cascade(s, a).effects == [Save(Cascade(s, a).final)];
      assert Cancels(s, Cascade(s, a).final);
      OneMove(s, Cascade(s, a).final, named);
    }
  }

  /** Each save of an advance is a move from what was durable before it. */
  lemma AdvanceMoves(s: RunState, a: Answers, named: bool)
    requires Sane(s) && (named ==> Named(s, a))
    ensures Stepwise(s, Advance(s, a).effects, named)
  {
    hide Sane, RunCurrent, MovesLast, CurrentRunning, Cascade;
    if s.cancelIntent && !s.cancelled {
      CascadeMoves(s, a, named);
    } else if !IsTerminal(s) {
      if s.pending != [] && !CurrentRunning(s) {
        if s.pending[0] !in StageIds(s.plan) {
          assert Drops(s, s.(pending := s.pending[1..]));
          OneMove(s, s.(pending := s.pending[1..]), named);
        } else {
          var s1 := s.(current := Some(s.pending[0]), pending := s.pending[1..], note := s.corrections > 0);
          assert Takes(s, s1);
          MoveSane(s, s1, named);
          RunCurrentMoves(s1, a, named);
          MoveThen(s, s1, RunCurrent(s1, a).effects, named);
        }
      } else {
        RunningHasCursor(s);
        RunCurrentMoves(s, a, named);
      }
    }
  }

  lemma RunningHasCursor(s: RunState)
    ensures CurrentRunning(s) ==> s.current.Some?
  {
  }

  // --- Whole histories --------------------------------------------------------

  lemma EventMoves(s: RunState, e: Event, named: bool)
    requires Sane(s) && (named && e.Step? ==> Named(s, e.answers))
    ensures Stepwise(s, EventEffects(s, e), named)
  {
    hide Sane, Stepwise, Advance;
    match e
    case Step(a, n) =>
      AdvanceMoves(s, a, named);
      if n < |Advance(s, a).effects| {
        StepwisePrefix(s, Advance(s, a).effects, named, n);
      }
    case CancelRequest =>
      if IsTerminal(s) {
        NothingMoves(s, named);
      } else {
        OneMove(s, RequestCancel(s), named);
      }
  }

  lemma NothingMoves(s: RunState, named: bool)
    ensures Stepwise(s, [], named)
  {
  }

  lemma NamedBefore(s: RunState, events: seq<Event>, n: nat)
    requires NamedHistory(s, events) && n <= |events|
    ensures NamedHistory(s, events[..n])
  {
    hide Named;
    forall i | 0 <= i < n && events[..n][i].Step? ensures Named(Now(s, events[..n][..i]), events[..n][i].answers) {
      assert events[..n][..i] == events[..i] && events[..n][i] == events[i];
    }
  }

  lemma {:induction false} HistoryMoves(s: RunState, events: seq<Event>, named: bool)
    requires Sane(s) && (named ==> NamedHistory(s, events))
    ensures Stepwise(s, Trace(s, events), named) && Sane(Now(s, events)) && Now(s, events).plan == s.plan
  {
    hide Sane, MovesLast, EventEffects, Durable, Named;
    if events == [] {
      NothingMoves(s, named);
    } else {
      var n := |events| - 1;
      var before := events[..n];
      if named {
        NamedBefore(s, events, n);
      }
      HistoryMoves(s, before, named);
      EventMoves(Now(s, before), events[n], named);
      StepwiseAppend(s, Trace(s, before), EventEffects(Now(s, before), events[n]), named);
    }
    StepwiseSane(s, Trace(s, events), named);
  }

  lemma SubmitSane(p: Plan)
    ensures Sane(Submit(p))
  {
    SubmitSteady(p);
    var s0 := Submit(p).(current := None);
    if FirstReady(s0).Some? {
      FirstReadyFacts(s0);
    }
  }
}
