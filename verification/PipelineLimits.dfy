// How many attempts a run with crashes can make: what the plan allows, and one more for each step cut
// right behind the result of an attempt past its limit.

module PipelineLimits {
  import opened Common
  import opened PipelineModel
  import opened PipelineTermination
  import opened PipelineAttempts
  import opened PipelineMoves
  import opened PipelineProgress
  import opened PipelineForgets

  // --- What is left to spend --------------------------------------------------

  /** Stages that are not done; the cursor's counts until the cursor leaves it. */
  function Open(stages: seq<Stage>, attempts: map<string, seq<Attempt>>, current: Option<string>): (n: nat)
    ensures n <= |stages|
  {
    if stages == [] then 0
    else (if current == Some(stages[0].id) || !DoneIn(attempts, stages[0].id) then 1 else 0) + Open(stages[1..], attempts, current)
  }

  function CursorMeasure(s: RunState): Measure {
    Measure(Budget(Slots(s.plan), s.iterations), |s.pending|, Open(s.plan.stages, s.attempts, s.current),
            Allowance(s.plan.stages, s.attempts))
  }

  /** An upper bound on the attempts still to come, unless a crash adds some. */
  function Credit(s: RunState): nat {
    if IsTerminal(s) then 0
    else Rank(s.plan, MaxPending(s.plan), CursorMeasure(s)) + if CurrentRunning(s) then 0 else 1
  }

  predicate Fits(s: RunState) {
    |s.pending| <= MaxPending(s.plan)
  }

  /** An attempt that no retry limit allowed has ended. */
  predicate PastLimit(s: RunState, u: RunState) {
    && CurrentRunning(s) && !CurrentRunning(u) && Tries(s, s.current.value) != []
    && !Allowed(s.plan, s.current.value, LastTry(s, s.current.value).num)
  }

  ghost function Begun1(s: RunState, u: RunState): nat {
    if SameLengths(u, s) then 0 else 1
  }

  lemma RankKept(s: RunState, u: RunState)
    requires u.plan == s.plan && Fits(s) && Fits(u)
    requires CursorMeasure(u) == CursorMeasure(s) || Less(CursorMeasure(u), CursorMeasure(s))
    ensures var r, q := Rank(s.plan, MaxPending(s.plan), CursorMeasure(s)), Rank(s.plan, MaxPending(s.plan), CursorMeasure(u));
      q <= r && (Less(CursorMeasure(u), CursorMeasure(s)) ==> q < r)
  {
    hide Rank, Less, Open, Budget, Allowance, MaxPending;
    SumsAreBounded(s.plan.stages, s.attempts);
    SumsAreBounded(u.plan.stages, u.attempts);
    if Less(CursorMeasure(u), CursorMeasure(s)) {
      LessRanksLower(s.plan, MaxPending(s.plan), CursorMeasure(u), CursorMeasure(s));
    }
  }

  // --- The price of a move ----------------------------------------------------

  /** Attempts of the cursor's stage play no part. */
  lemma {:induction false} OpenSkipsCursor(stages: seq<Stage>, attempts: map<string, seq<Attempt>>, id: string, t: seq<Attempt>)
    ensures Open(stages, attempts[id := t], Some(id)) == Open(stages, attempts, Some(id))
  {
    if stages != [] {
      OpenSkipsCursor(stages[1..], attempts, id, t);
    }
  }

  /** Leaving a stage that is done for none, or for one that is not done. */
  lemma {:induction false} OpenLeaves(stages: seq<Stage>, attempts: map<string, seq<Attempt>>, from: Option<string>, to: Option<string>)
    requires to.Some? ==> !DoneIn(attempts, to.value)
    ensures Open(stages, attempts, to) <= Open(stages, attempts, from)
    ensures from.Some? && DoneIn(attempts, from.value) && (exists i | 0 <= i < |stages| :: stages[i].id == from.value)
      ==> Open(stages, attempts, to) < Open(stages, attempts, from)
  {
    if stages != [] {
      OpenLeaves(stages[1..], attempts, from, to);
      if i :| 0 <= i < |stages| && from == Some(stages[i].id) {
        if i > 0 {
          assert stages[1..][i - 1] == stages[i];
        }
      }
    }
  }

  lemma DoneInIsDone(s: RunState, id: string)
    ensures DoneIn(s.attempts, id) == IsDone(s, id)
  {
  }

  lemma BeginPrice(s: RunState, u: RunState)
    requires Sane(s) && Fits(s) && !IsTerminal(s) && Begins(s, u)
    ensures Fits(u) && Credit(u) + 1 <= Credit(s)
  {
    hide Rank, Open, Budget, Allowance, Undone, Numbered, MaxPending, Started;
    var id := s.current.value;
    StartedKeeps(s, id);
    StartedAttempts(s, id);
    OpenSkipsCursor(s.plan.stages, s.attempts, id, u.attempts[id]);
    assert CursorMeasure(u) == CursorMeasure(s);
    assert CurrentRunning(u);
  }

  lemma StartedAttempts(s: RunState, id: string)
    ensures var u := Started(s, id);
      id in u.attempts && u == s.(attempts := s.attempts[id := u.attempts[id]])
  {
  }

  lemma FinishPrice(s: RunState, u: RunState, named: bool)
    requires Sane(s) && Fits(s) && !IsTerminal(s) && Finishes(s, u, named)
    ensures Fits(u) && SameLengths(u, s) && !CurrentRunning(u)
    ensures Credit(u) <= Credit(s) + if PastLimit(s, u) then 1 else 0
  {
    hide Rank, Open, Budget, Allowance, Undone, Numbered, MaxPending, Allowed;
    var id, a := s.current.value, LastTry(u, s.current.value);
    RunningHasTries(s, id);
    RecordedKeeps(s, id, a);
    RecordGrows(s, id, a);
    OpenSkipsCursor(s.plan.stages, s.attempts, id, u.attempts[id]);
    assert u.attempts == s.attempts[id := u.attempts[id]];
    RankKept(s, u);
  }

  lemma HandlePrice(s: RunState, u: RunState)
    requires Sane(s) && Fits(s) && !IsTerminal(s) && Handles(s, u)
    ensures Fits(u) && SameLengths(u, s) && CurrentRunning(u) && Credit(u) <= Credit(s)
  {
    hide Rank, Open, Budget, Allowance, Undone, Numbered, MaxPending;
    var id := s.current.value;
    RunningHasTries(s, id);
    var a := LastTry(s, id).(handle := LastTry(u, id).handle);
    RecordGrows(s, id, a);
    HandleRuns(s, id, a.handle);
    var t := u.attempts[id];
    AllowanceChanges(s.plan.stages, s.attempts, id, t);
    OpenSkipsCursor(s.plan.stages, s.attempts, id, t);
    assert u.attempts == s.attempts[id := t];
    assert CursorMeasure(u) == CursorMeasure(s);
  }

  lemma HandleRuns(s: RunState, id: string, h: Option<string>)
    requires IsRunning(s, id)
    ensures Tries(s, id) != []
    ensures var u := SetLast(s, id, LastTry(s, id).(handle := h));
      && IsRunning(u, id) && id in u.attempts && u == s.(attempts := s.attempts[id := u.attempts[id]])
      && FinishedTries(u.attempts[id]) == FinishedTries(TriesIn(s.attempts, id))
  {
  }

  lemma QueuePrice(s: RunState, u: RunState)
    requires Sane(s) && Fits(s) && !IsTerminal(s) && (Drops(s, u) || Takes(s, u))
    ensures Fits(u) && SameLengths(u, s) && Credit(u) < Credit(s)
  {
    hide Rank, Open, Budget, Allowance, Numbered, MaxPending, StageIds;
    NoneRunning(s);
    SameAttempts(s, u);
    Same(s, u);
    RankKept(s, u);
  }

  lemma LeavePrice(s: RunState, u: RunState)
    requires Sane(s) && Fits(s) && !IsTerminal(s) && !CurrentRunning(s) && u == NextStage(s).final
    ensures Fits(u) && SameLengths(u, s) && Credit(u) <= Credit(s)
    ensures !IsTerminal(u) && s.current.Some? && IsDone(s, s.current.value) ==> Credit(u) < Credit(s)
  {
    hide Rank, Open, Budget, Allowance, Numbered, MaxPending, NextStage, FirstReady;
    NextStageShape(s);
    Same(s, u);
    if !IsTerminal(u) {
      NoneRunning(s);
      SameAttempts(s, u);
      if u.current.Some? {
        DoneInIsDone(s, u.current.value);
      }
      if s.current.Some? {
        DoneInIsDone(s, s.current.value);
        var i := StageIndex(s.plan, s.current.value);
      }
      OpenLeaves(s.plan.stages, s.attempts, s.current, u.current);
      RankKept(s, u);
    }
  }

  lemma LeavesNext(s: RunState, u: RunState)
    requires Leaves(s, u)
    ensures !CurrentRunning(s) && u == NextStage(s).final
  {
  }

  lemma RoundPrice(s: RunState, u: RunState, named: bool)
    requires Sane(s) && Fits(s) && !IsTerminal(s) && Rounds(s, u, named)
    ensures Fits(u) && SameLengths(u, s) && Credit(u) < Credit(s)
  {
    hide Rank, Open, Budget, Allowance, Numbered, CorrectionLoop;
    var qc: string :| (named ==> qc == s.current.value) && EntersLoop(s, u, qc);
    assert EntersLoop(s, u, qc);
    var l := CorrectionLoop(s.plan, qc).value;
    LoopIsSlot(s.plan, qc);
    BudgetFalls(Slots(s.plan), s.iterations, l.id);
    LoopFitsPlan(s.plan, qc);
    Same(s, u);
    RankKept(s, u);
  }

  lemma LoopFitsPlan(p: Plan, qc: string)
    requires CorrectionLoop(p, qc).Some?
    ensures |LoopStages(CorrectionLoop(p, qc).value)| <= MaxPending(p)
  {
    LongestAtLeastOne(p.loops);
    if LoopFor(p.loops, qc).Some? {
      LoopFits(p.loops, qc);
    }
  }

  lemma RestPrice(s: RunState, u: RunState)
    requires Fits(s) && !IsTerminal(s) && Still(s, u) && u.iterations == s.iterations && (IsTerminal(u) || u.status == s.status)
    ensures Fits(u) && SameLengths(u, s) && Credit(u) <= Credit(s)
  {
    hide Rank, Open, Budget, Allowance, MaxPending;
    Same(s, u);
    SameAttempts(s, u);
  }

  lemma RestEnds(s: RunState, u: RunState)
    requires !IsTerminal(s)
    requires Schedules(s, u) || Breaks(s, u) || Stops(s, u) || Cancels(s, u) || SameButChildren(u, s) || u == s.(cancelIntent := true)
    ensures u.iterations == s.iterations && (IsTerminal(u) || u.status == s.status)
    ensures CurrentRunning(u) == CurrentRunning(s)
  {
    hide CurrentRunning;
    RestStill(s, u);
    StillRuns(s, u);
  }

  lemma StillRuns(s: RunState, u: RunState)
    requires Still(s, u)
    ensures CurrentRunning(u) == CurrentRunning(s)
  {
  }

  /** A move costs nothing beyond the attempt it starts, but for the end of an attempt past its limit. */
  lemma MovePrice(s: RunState, u: RunState, named: bool)
    requires Sane(s) && Fits(s) && Move(s, u, named)
    ensures Fits(u) && Credit(u) + Begun1(s, u) <= Credit(s) + if PastLimit(s, u) then 1 else 0
  {
    hide Sane, Fits, Credit, SameLengths, PastLimit, Drops, Takes, Leaves, Rounds, Finishes, Handles, Begins, Schedules, Breaks, Stops,
      Cancels, SameButChildren;
    if Finishes(s, u, named) {
      FinishPrice(s, u, named);
    } else if Handles(s, u) {
      HandlePrice(s, u);
    } else if Begins(s, u) {
      BeginPrice(s, u);
    } else if Drops(s, u) || Takes(s, u) {
      QueuePrice(s, u);
    } else if Leaves(s, u) {
      LeavesNext(s, u);
      LeavePrice(s, u);
    } else if Rounds(s, u, named) {
      RoundPrice(s, u, named);
    } else {
      RestStill(s, u);
      RestEnds(s, u);
      RestPrice(s, u);
    }
  }

  // --- The price of a step ----------------------------------------------------

  /** The saves of the trace that start an attempt. */
  ghost function Begun(s: RunState, t: seq<Effect>): nat {
    if t == [] then 0
    else
      var before := t[..|t| - 1];
      Begun(s, before) + match t[|t| - 1] { case Save(u) => Begun1(Durable(s, before), u) case _ => 0 }
  }

  /** The last save of the trace ends an attempt past its limit. */
  ghost predicate Slips(s: RunState, t: seq<Effect>) {
    t != [] && t[|t| - 1].Save? && PastLimit(Durable(s, t[..|t| - 1]), t[|t| - 1].state)
  }

  lemma {:induction false} BegunAppend(s: RunState, t: seq<Effect>, es: seq<Effect>)
    ensures Begun(s, t + es) == Begun(s, t) + Begun(Durable(s, t), es)
  {
    hide Begun1, Durable;
    if es == [] {
      assert t + es == t;
    } else {
      var n := |es| - 1;
      BegunAppend(s, t, es[..n]);
      assert (t + es)[..|t + es| - 1] == t + es[..n];
      DurableAppend(s, t, es[..n]);
    }
  }

  lemma SlipsAppend(s: RunState, t: seq<Effect>, es: seq<Effect>)
    requires es != []
    ensures Slips(s, t + es) == Slips(Durable(s, t), es)
  {
    hide PastLimit, Durable;
    var n := |es| - 1;
    assert (t + es)[..|t + es| - 1] == t + es[..n] && (t + es)[|t + es| - 1] == es[n];
    DurableAppend(s, t, es[..n]);
  }

  ghost predicate Paid(s: RunState, t: seq<Effect>, more: nat) {
    Credit(Durable(s, t)) + Begun(s, t) <= Credit(s) + more
  }

  /** Wherever the effects are cut, they cost nothing. */
  ghost predicate Free(s: RunState, es: seq<Effect>) {
    forall n | 0 <= n <= |es| :: Paid(s, es[..n], 0)
  }

  /** Wherever the effects are cut they cost one at most, and only behind an attempt past its limit; uncut
      they cost nothing, if so promised. */
  ghost predicate Priced(s: RunState, es: seq<Effect>, promised: bool) {
    && !Slips(s, es)
    && forall n | 0 <= n <= |es| :: Paid(s, es[..n], if Slips(s, es[..n]) || (n == |es| && !promised) then 1 else 0)
  }

  lemma NothingPaid(s: RunState)
    ensures Paid(s, [], 0) && Durable(s, []) == s && Begun(s, []) == 0 && !Slips(s, [])
  {
  }

  lemma PaidAppend(s: RunState, t: seq<Effect>, es: seq<Effect>, more: nat)
    requires Paid(s, t, 0) && Paid(Durable(s, t), es, more)
    ensures Paid(s, t + es, more)
  {
    hide Durable, Begun, Credit;
    BegunAppend(s, t, es);
    DurableAppend(s, t, es);
  }

  lemma FreeThen(s: RunState, t: seq<Effect>, es: seq<Effect>, promised: bool)
    requires Free(s, t) && Priced(Durable(s, t), es, promised) && es != []
    ensures Priced(s, t + es, promised)
  {
    hide Paid, Slips, Durable;
    var all := t + es;
    assert t[..|t|] == t;
    SlipsAppend(s, t, es);
    forall n | 0 <= n <= |all|
      ensures Paid(s, all[..n], if Slips(s, all[..n]) || (n == |all| && !promised) then 1 else 0)
    {
      if n <= |t| {
        assert all[..n] == t[..n];
        PaidMore(s, t[..n], if Slips(s, all[..n]) || (n == |all| && !promised) then 1 else 0);
      } else {
        var m := n - |t|;
        assert all[..n] == t + es[..m];
        SlipsAppend(s, t, es[..m]);
        PaidAppend(s, t, es[..m], if Slips(Durable(s, t), es[..m]) || (m == |es| && !promised) then 1 else 0);
      }
    }
  }

  lemma PaidMore(s: RunState, t: seq<Effect>, more: nat)
    requires Paid(s, t, 0)
    ensures Paid(s, t, more)
  {
  }

  /** A move that does not end an attempt past its limit is free. */
  lemma MoveFree(s: RunState, u: RunState, named: bool)
    requires Sane(s) && Fits(s) && Move(s, u, named) && !PastLimit(s, u)
    ensures Fits(u) && Free(s, [Save(u)]) && Priced(s, [Save(u)], true) && Durable(s, [Save(u)]) == u
  {
    hide Credit, PastLimit, Move, Sane, Fits, Begun1;
    MovePrice(s, u, named);
    OneSave(s, u);
    NothingPaid(s);
    var t := [Save(u)];
    assert t[..0] == [] && t[..1] == t;
    assert Paid(s, t, 0);
  }

  lemma OneSave(s: RunState, u: RunState)
    ensures var t := [Save(u)];
      Durable(s, t) == u && Begun(s, t) == Begun1(s, u) && Slips(s, t) == PastLimit(s, u)
  {
    hide PastLimit, Begun1;
    assert [Save(u)][..0] == [];
  }

  lemma CallFree(s: RunState, e: Effect)
    requires !e.Save?
    ensures Free(s, [e]) && Durable(s, [e]) == s
  {
    hide Credit;
    var t := [e];
    assert t[..0] == [] && t[..1] == t;
    assert Begun(s, t) == 0 && Durable(s, t) == s;
  }

  lemma QuietPriced(s: RunState)
    ensures Priced(s, [], true)
  {
    hide Paid, Slips;
    NothingPaid(s);
    var none: seq<Effect> := [];
    assert none[..0] == none;
  }

  lemma Unpromised(s: RunState, es: seq<Effect>, promised: bool)
    requires Priced(s, es, true)
    ensures Priced(s, es, promised)
  {
    hide Paid, Slips;
    forall n | 0 <= n <= |es|
      ensures Paid(s, es[..n], if Slips(s, es[..n]) || (n == |es| && !promised) then 1 else 0)
    {
      if n == |es| && !promised {
        assert es[..n] == es;
        PaidMore(s, es, 1);
      }
    }
  }

  // --- Every step is priced ---------------------------------------------------

  /** The reply uses a status of the executor protocol. */
  predicate Proper(r: Reply) {
    !r.status.ReplyOther? && !r.status.ReplyCancelled?
  }

  /** What follows a recorded result is one move, and pays for the end of the attempt. */
  lemma FollowPrice(s: RunState, s1: RunState, st: Stage, r: Reply, f: RunState)
    requires Sane(s1) && Fits(s1) && !IsTerminal(s1) && s1.current == Some(st.id) && st.id in StageIds(s1.plan)
    requires st == StageOf(s1.plan, st.id) && !CurrentRunning(s1) && Tries(s1, st.id) != []
    requires f == (if r.handle.BadHandle? then HandleFailure(s1, st, OtherFailure)
                   else if r.status.ReplyFailed? then HandleFailure(s1, st, r.failure)
                   else if r.verdict.Some? && st.kind == Qc then HandleQc(s1, r.verdict.value)
                   else NextStage(s1)).final
    requires Move(s1, f, false)
    requires Proper(r) && !r.status.ReplyWaiting?
    requires r.status.ReplyCompleted? && !r.handle.BadHandle? ==> IsDone(s1, st.id)
    requires LastTry(s1, st.id).num <= MaxAttemptsOf(st) ==> Credit(s1) <= Credit(s)
    requires Credit(s1) <= Credit(s) + 1
    ensures Credit(f) <= Credit(s)
  {
    hide Credit, Sane, Fits, Move, NextStage, HandleQc, IsDone, StageOf, StageIds, MaxAttemptsOf, Tries, CurrentRunning;
    MovePrice(s1, f, false);
    if r.handle.BadHandle? {
      RetryPrice(s1, st, OtherFailure);
    } else if r.status.ReplyFailed? {
      RetryPrice(s1, st, r.failure);
    } else if r.verdict.Some? && st.kind == Qc {
      QcPrice(s1, r.verdict.value);
    } else {
      NextPrice(s1);
    }
  }

  lemma TerminalFree(u: RunState)
    requires IsTerminal(u)
    ensures Credit(u) == 0
  {
  }

  lemma RetryPrice(s: RunState, st: Stage, failure: Failure)
    requires !IsTerminal(s) && s.current == Some(st.id) && Tries(s, st.id) != []
    ensures var f := HandleFailure(s, st, failure).final;
      IsTerminal(f) || (LastTry(s, st.id).num < MaxAttemptsOf(st) && f == s.(note := true))
    ensures var f := HandleFailure(s, st, failure).final;
      Credit(f) == 0 || (LastTry(s, st.id).num < MaxAttemptsOf(st) && Credit(f) == Credit(s))
  {
    hide MaxAttemptsOf, Rank, MaxPending, Open, Budget, Allowance, Tries;
    var f := HandleFailure(s, st, failure).final;
    if !IsTerminal(f) {
      SameAttempts(s, f);
      assert f == s.(note := true);
      assert CursorMeasure(f) == CursorMeasure(s);
    }
  }

  lemma NextPrice(s: RunState)
    requires Sane(s) && Fits(s) && !IsTerminal(s) && !CurrentRunning(s) && s.current.Some? && IsDone(s, s.current.value)
    ensures var f := NextStage(s).final; Credit(f) == 0 || Credit(f) < Credit(s)
  {
    hide Credit, Sane, Fits, CurrentRunning, IsDone;
    var f := NextStage(s).final;
    if IsTerminal(f) {
      TerminalFree(f);
    } else {
      LeavePrice(s, f);
    }
  }

  lemma QcPrice(s: RunState, v: Verdict)
    requires Sane(s) && Fits(s) && !IsTerminal(s) && !CurrentRunning(s) && s.current.Some? && IsDone(s, s.current.value)
    requires s.current.value in StageIds(s.plan) && StageOf(s.plan, s.current.value).kind == Qc
    ensures var f := HandleQc(s, v).final; Credit(f) == 0 || Credit(f) < Credit(s)
  {
    hide Credit, Sane, Fits, CurrentRunning, IsDone, NextStage, CorrectionLoop, StageOf, StageIds;
    var f := HandleQc(s, v).final;
    if v.passed {
      NextPrice(s);
    } else if IsTerminal(f) {
      TerminalFree(f);
    } else {
      assert EntersLoop(s, f, v.stage);
      assert Rounds(s, f, false);
      RoundPrice(s, f, false);
    }
  }

  /** The result and what follows it, as two moves. */
  lemma RecordMovesOn(s: RunState, st: Stage, r: Reply) returns (s1: RunState, f: RunState)
    requires Sane(s) && !IsTerminal(s) && s.current == Some(st.id) && IsRunning(s, st.id)
    requires st.id in StageIds(s.plan) && st == StageOf(s.plan, st.id)
    ensures Tries(s, st.id) != [] && s1 == SetLast(s, st.id, Finished(LastTry(s, st.id), r))
    ensures Record(s, st, r).effects == [Save(s1), Save(f)] && Record(s, st, r).final == f
    ensures f == (if r.handle.BadHandle? then HandleFailure(s1, st, OtherFailure)
                  else if r.status.ReplyFailed? then HandleFailure(s1, st, r.failure)
                  else if r.verdict.Some? && st.kind == Qc then HandleQc(s1, r.verdict.value)
                  else NextStage(s1)).final
    ensures Finishes(s, s1, false) && Move(s1, f, false)
  {
    hide Sane, NextStage, HandleQc, StageIds, StageOf, Finishes, IsRunning, Tries, Finished, Stepwise, Move, Terminalize;
    RunningHasTries(s, st.id);
    s1 := SetLast(s, st.id, Finished(LastTry(s, st.id), r));
    f := Record(s, st, r).final;
    FinishMove(s, st, r, false);
    SetLastOnlyTries(s, st.id, Finished(LastTry(s, st.id), r));
    NextSaves(s1);
    FailureSaves(s1, st, OtherFailure);
    FailureSaves(s1, st, r.failure);
    if r.verdict.Some? {
      QcSaves(s1, r.verdict.value);
    }
    RecordMoves(s, st, r, false);
    assert Record(s, st, r).effects == [Save(s1), Save(f)];
    SecondMove(s, s1, f);
  }

  lemma FailureSaves(s: RunState, st: Stage, failure: Failure)
    requires s.status.Active?
    ensures HandleFailure(s, st, failure).effects == [Save(HandleFailure(s, st, failure).final)]
  {
    hide MaxAttemptsOf, Tries;
  }

  lemma SecondMove(s: RunState, s1: RunState, f: RunState)
    requires Stepwise(s, [Save(s1), Save(f)], false)
    ensures Move(s1, f, false)
  {
    hide Move;
    var t := [Save(s1), Save(f)];
    assert t[..1] == [Save(s1)];
    assert Durable(s, [Save(s1)]) == s1;
  }

  lemma RecordPriced(s: RunState, st: Stage, r: Reply)
    requires Sane(s) && Fits(s) && !IsTerminal(s) && s.current == Some(st.id) && IsRunning(s, st.id)
    requires st.id in StageIds(s.plan) && st == StageOf(s.plan, st.id) && !r.status.ReplyWaiting?
    ensures Tries(s, st.id) != [] && Record(s, st, r).effects != [] && Priced(s, Record(s, st, r).effects, Proper(r))
  {
    hide Sane, Fits, Credit, StageIds, StageOf, IsRunning, Tries, Finishes, Move, PastLimit, SameLengths, Record, NextStage, HandleQc,
      HandleFailure, MaxAttemptsOf, IsDone, Finished, CurrentRunning;
    var s1, f := RecordMovesOn(s, st, r);
    FinishPrice(s, s1, false);
    FinishedSane(s, s1, false);
    RecordedFacts(s, st, r);
    MovePrice(s1, f, false);
    NotPast(s1, f);
    FollowsSame(s1, st, r);
    if Proper(r) {
      FollowPrice(s, s1, st, r, f);
    }
    TwoSaves(s, s1, f);
    TwoPriced(s, s1, f, Proper(r));
  }

  lemma RecordedFacts(s: RunState, st: Stage, r: Reply)
    requires Sane(s) && IsRunning(s, st.id) && s.current == Some(st.id)
    requires st.id in StageIds(s.plan) && st == StageOf(s.plan, st.id)
    ensures Tries(s, st.id) != []
    ensures var s1 := SetLast(s, st.id, Finished(LastTry(s, st.id), r));
      && s1.status == s.status && s1.current == s.current && s1.plan == s.plan
      && Tries(s1, st.id) != [] && LastTry(s1, st.id).num == LastTry(s, st.id).num
      && (r.status.ReplyCompleted? && !r.handle.BadHandle? ==> IsDone(s1, st.id))
      && (LastTry(s, st.id).num <= MaxAttemptsOf(st) ==> !PastLimit(s, s1))
  {
    hide Numbered, StageOf, MaxAttemptsOf;
    RunningHasTries(s, st.id);
    var a := Finished(LastTry(s, st.id), r);
    SetLastOnlyTries(s, st.id, a);
    assert LastTry(SetLast(s, st.id, a), st.id) == a;
    var k := StageIndex(s.plan, st.id);
  }

  lemma FollowsSame(s: RunState, st: Stage, r: Reply)
    ensures Begun1(s, HandleFailure(s, st, OtherFailure).final) == 0 && Begun1(s, HandleFailure(s, st, r.failure).final) == 0
    ensures Begun1(s, NextStage(s).final) == 0 && (r.verdict.Some? ==> Begun1(s, HandleQc(s, r.verdict.value).final) == 0)
  {
    hide HandleFailure, NextStage, HandleQc, SameLengths;
    FailureSame(s, st, OtherFailure);
    FailureSame(s, st, r.failure);
    NextSame(s);
    Same(s, HandleFailure(s, st, OtherFailure).final);
    Same(s, HandleFailure(s, st, r.failure).final);
    Same(s, NextStage(s).final);
    if r.verdict.Some? {
      QcSame(s, r.verdict.value);
      Same(s, HandleQc(s, r.verdict.value).final);
    }
  }

  lemma NotPast(s: RunState, u: RunState)
    requires !CurrentRunning(s)
    ensures !PastLimit(s, u)
  {
  }

  lemma TwoSaves(s: RunState, s1: RunState, f: RunState)
    ensures var t := [Save(s1), Save(f)];
      && t[..0] == [] && t[..1] == [Save(s1)] && t[..2] == t
      && Durable(s, t) == f && Begun(s, t) == Begun1(s, s1) + Begun1(s1, f) && Slips(s, t) == PastLimit(s1, f)
  {
    hide PastLimit, Begun1;
    var t := [Save(s1), Save(f)];
    OneSave(s, s1);
    assert t[..1] == [Save(s1)];
  }

  lemma TwoPriced(s: RunState, s1: RunState, f: RunState, promised: bool)
    requires Begun1(s, s1) == 0 && Credit(s1) <= Credit(s) + (if PastLimit(s, s1) then 1 else 0)
    requires Credit(f) + Begun1(s1, f) <= Credit(s1) && !PastLimit(s1, f)
    requires promised ==> Credit(f) + Begun1(s1, f) <= Credit(s)
    ensures Priced(s, [Save(s1), Save(f)], promised)
  {
    hide Credit, PastLimit, Begun1, Durable, Begun, Slips;
    var t := [Save(s1), Save(f)];
    NothingPaid(s);
    OneSave(s, s1);
    TwoSaves(s, s1, f);
    forall n | 0 <= n <= |t| ensures Paid(s, t[..n], if Slips(s, t[..n]) || (n == |t| && !promised) then 1 else 0) {
      if n == 0 {
        assert t[..n] == [];
      } else if n == 1 {
        assert t[..n] == [Save(s1)];
      } else {
        assert t[..n] == t;
      }
    }
  }

  lemma SettlePriced(s: RunState, st: Stage, r: Reply)
    requires Sane(s) && Fits(s) && !IsTerminal(s) && s.current == Some(st.id) && IsRunning(s, st.id)
    requires st.id in StageIds(s.plan) && st == StageOf(s.plan, st.id)
    ensures Tries(s, st.id) != [] && Settle(s, st, r).effects != [] && Priced(s, Settle(s, st, r).effects, Proper(r))
  {
    hide Sane, Fits, Priced, Record, StageOf, StageIds, Tries, IsRunning, PastLimit, CurrentRunning;
    RunningHasTries(s, st.id);
    if !r.status.ReplyWaiting? {
      RecordPriced(s, st, r);
    } else if st.authority.External? && !r.handle.GoodHandle? {
      RecordPriced(s, st, FailedReply(UnsafeOutcome));
    } else {
      WaitingMove(s, st, r);
      MoveFree(s, Settle(s, st, r).final, false);
    }
  }

  lemma WaitingMove(s: RunState, st: Stage, r: Reply)
    requires Sane(s) && !IsTerminal(s) && s.current == Some(st.id) && IsRunning(s, st.id)
    requires r.status.ReplyWaiting? && (st.authority.External? ==> r.handle.GoodHandle?)
    ensures Tries(s, st.id) != []
    ensures var o := Settle(s, st, r); o.effects == [Save(o.final)] && Move(s, o.final, false) && !PastLimit(s, o.final)
  {
    hide Numbered;
    RunningHasTries(s, st.id);
    if st.authority.External? {
      var a := LastTry(s, st.id).(handle := Some(r.handle.text));
      assert LastTry(SetLast(s, st.id, a), st.id) == a;
      assert Handles(s, SetLast(s, st.id, a));
    }
  }

  lemma ChildMove(s: RunState, u: RunState)
    requires Sane(s) && Fits(s) && !IsTerminal(s) && SameButChildren(u, s)
    ensures Sane(u) && Fits(u) && Free(s, [Save(u)]) && Durable(s, [Save(u)]) == u
    ensures forall id: string :: Tries(u, id) == Tries(s, id) && IsRunning(u, id) == IsRunning(s, id)
  {
    hide Sane, Fits, Free, PastLimit;
    MoveSane(s, u, false);
    StillNotPast(s, u);
    MoveFree(s, u, false);
    SameAttempts(s, u);
  }

  lemma StillNotPast(s: RunState, u: RunState)
    requires Still(s, u)
    ensures !PastLimit(s, u)
  {
    StillRuns(s, u);
  }

  lemma LeafPriced(s: RunState, st: Stage, a: Answers)
    requires Sane(s) && Fits(s) && !IsTerminal(s) && s.current == Some(st.id) && IsRunning(s, st.id)
    requires st.id in StageIds(s.plan) && st == StageOf(s.plan, st.id)
    ensures Tries(s, st.id) != [] && RunLeaf(s, st, a).effects != [] && Priced(s, RunLeaf(s, st, a).effects, true)
  {
    hide Sane, Fits, Priced, Free, Settle, FindChild, Tries, IsRunning, StageIds, StageOf, Polled;
    RunningHasTries(s, st.id);
    var key := Key(st.id, LastTry(s, st.id).num);
    var k := FindChild(s, key, a.polls);
    var r := LeafReply(a.poll);
    PolledOnlyChildren(s, k, key, a.job, a.poll);
    if k < |s.children| {
      var s1 := Polled(s, k, a.poll);
      ChildMove(s, s1);
      SettlePriced(s1, st, r);
      FreeThen(s, [Save(s1)], Settle(s1, st, r).effects, true);
    } else {
      var s1 := WithChild(s, key, a.job);
      var s2 := Polled(s1, |s.children|, a.poll);
      ChildMove(s, s1);
      ChildMove(s1, s2);
      SettlePriced(s2, st, r);
      var es := Settle(s2, st, r).effects;
      FreeThen(s1, [Save(s2)], es, true);
      FreeThen(s, [Save(s1)], [Save(s2)] + es, true);
      CallFree(s, SubmitCall(key));
      FreeThen(s, [SubmitCall(key)], [Save(s1)] + ([Save(s2)] + es), true);
      assert RunLeaf(s, st, a).effects == [SubmitCall(key)] + ([Save(s1)] + ([Save(s2)] + es));
    }
  }

  lemma PerformPriced(s: RunState, st: Stage, resumed: bool, a: Answers)
    requires Sane(s) && Fits(s) && !IsTerminal(s) && s.current == Some(st.id) && IsRunning(s, st.id)
    requires st.id in StageIds(s.plan) && st == StageOf(s.plan, st.id)
    ensures Tries(s, st.id) != []
    ensures Perform(s, st, resumed, a).effects != [] && Priced(s, Perform(s, st, resumed, a).effects, Contract(a))
  {
    hide Sane, Fits, Priced, Free, Settle, RunLeaf, Tries, IsRunning, StageIds, StageOf;
    RunningHasTries(s, st.id);
    var n := LastTry(s, st.id).num;
    if !a.bindings || st.authority.UnknownAuthority? {
      SettlePriced(s, st, FailedReply(OtherFailure));
      Unpromised(s, Settle(s, st, FailedReply(OtherFailure)).effects, Contract(a));
    } else if st.authority.Leaf? {
      LeafPriced(s, st, a);
      Unpromised(s, RunLeaf(s, st, a).effects, Contract(a));
    } else {
      SettlePriced(s, st, FailedReply(UnsafeOutcome));
      Unpromised(s, Settle(s, st, FailedReply(UnsafeOutcome)).effects, Contract(a));
      SettlePriced(s, st, a.external);
      CallFree(s, ExecuteCall(st.id, n));
      CallFree(s, PollCall(st.id, n));
      FreeThen(s, [ExecuteCall(st.id, n)], Settle(s, st, a.external).effects, Contract(a));
      FreeThen(s, [PollCall(st.id, n)], Settle(s, st, a.external).effects, Contract(a));
    }
  }

  lemma RunCurrentPriced(s: RunState, a: Answers)
    requires Sane(s) && Fits(s) && !IsTerminal(s) && (s.current.None? ==> s.pending == [])
    ensures RunCurrent(s, a).effects != [] && Priced(s, RunCurrent(s, a).effects, Contract(a))
  {
    hide Sane, Fits, Priced, Free, Perform, NextStage, IsBad, IsDone, IsRunning, Started, StageIds, StageOf, PastLimit, Approved;
    SaneParts(s);
    if s.current.None? {
      var u := Terminalize(s, Success).final;
      assert Stops(s, u);
      StillNotPast(s, u);
      MoveFree(s, u, false);
      Unpromised(s, [Save(u)], Contract(a));
    } else {
      var id := s.current.value;
      var st := StageOf(s.plan, id);
      RunningNotDone(s, id);
      if IsDone(s, id) && !IsBad(s, id) && !(s.corrections > 0 && s.note) {
        var u := NextStage(s).final;
        NextSaves(s);
        assert Approved(s) by {
          GoodIsApproved(s);
        }
        assert Leaves(s, u);
        NotPast(s, u);
        MoveFree(s, u, false);
        Unpromised(s, [Save(u)], Contract(a));
      } else if IsRunning(s, id) {
        PerformPriced(s, st, true, a);
      } else {
        var s1 := Started(s, id);
        assert Begins(s, s1);
        NotPast(s, s1);
        MoveFree(s, s1, false);
        MoveSane(s, s1, false);
        StartedKeeps(s, id);
        StartedOnlyTries(s, id);
        PerformPriced(s1, st, false, a);
        FreeThen(s, [Save(s1)], Perform(s1, st, false, a).effects, Contract(a));
      }
    }
  }

  lemma GoodIsApproved(s: RunState)
    requires s.current.Some? && !IsBad(s, s.current.value)
    ensures Approved(s)
  {
  }

  /** A step costs nothing when it is not cut and the replies keep to the protocol; cut anywhere it costs one at
      most, and only right behind the result of an attempt past its limit. */
  lemma AdvancePriced(s: RunState, a: Answers)
    requires Sane(s) && Fits(s)
    ensures Priced(s, Advance(s, a).effects, Contract(a))
  {
    hide Sane, Fits, Priced, Free, RunCurrent, CurrentRunning, PastLimit, StageIds;
    QuietPriced(s);
    Unpromised(s, [], Contract(a));
    if s.cancelIntent && !s.cancelled {
      if !IsTerminal(s) {
        var u := Cascade(s, a).final;
        assert Cascade(s, a).effects == [Save(u)];
        assert Cancels(s, u);
        StillNotPast(s, u);
        MoveFree(s, u, false);
        Unpromised(s, [Save(u)], Contract(a));
      }
    } else if !IsTerminal(s) {
      if s.pending != [] && !CurrentRunning(s) {
        if s.pending[0] !in StageIds(s.plan) {
          var u := s.(pending := s.pending[1..]);
          assert Drops(s, u);
          NotPast(s, u);
          MoveFree(s, u, false);
          Unpromised(s, [Save(u)], Contract(a));
        } else {
          var u := Taken(s);
          assert Takes(s, u);
          NotPast(s, u);
          MoveSane(s, u, false);
          MoveFree(s, u, false);
          RunCurrentPriced(u, a);
          FreeThen(s, [Save(u)], RunCurrent(u, a).effects, Contract(a));
        }
      } else {
        RunningHasCursor(s);
        RunCurrentPriced(s, a);
      }
    }
  }

  // --- Whole histories --------------------------------------------------------

  lemma {:induction false} StepwiseFits(s: RunState, t: seq<Effect>)
    requires Sane(s) && Fits(s) && Stepwise(s, t, false)
    ensures Fits(Durable(s, t))
  {
    hide Sane, Fits, Move, Credit, PastLimit;
    if t != [] {
      var before := t[..|t| - 1];
      StepwiseFits(s, before);
      if t[|t| - 1].Save? {
        StepwiseSane(s, before, false);
        MovePrice(Durable(s, before), t[|t| - 1].state, false);
      }
    }
  }

  /** The event is a step cut right behind the result of an attempt past its limit, or has a reply outside
      the executor protocol. */
  ghost predicate Slipped(s: RunState, e: Event) {
    e.Step? && (Slips(s, EventEffects(s, e)) || !Contract(e.answers))
  }

  lemma EventPaid(s: RunState, e: Event)
    requires Sane(s) && Fits(s)
    ensures Paid(s, EventEffects(s, e), if Slipped(s, e) then 1 else 0)
  {
    hide Sane, Fits, Paid, Advance, Slips, PastLimit;
    match e
    case CancelRequest =>
      NothingPaid(s);
      if !IsTerminal(s) {
        var u := RequestCancel(s);
        StillNotPast(s, u);
        MoveFree(s, u, false);
        assert [Save(u)][..1] == [Save(u)];
      }
    case Step(a, n) =>
      AdvancePriced(s, a);
      var es := Advance(s, a).effects;
      var m := if n < |es| then n else |es|;
      assert es[..m] == EventEffects(s, e);
      if !Slips(s, es[..m]) && !(m == |es| && !Contract(a)) {
        if Slipped(s, e) {
          PaidMore(s, es[..m], 1);
        }
      }
  }

  ghost function Slippage(s: RunState, events: seq<Event>): nat {
    if events == [] then 0
    else
      var before := events[..|events| - 1];
      Slippage(s, before) + if Slipped(Now(s, before), events[|events| - 1]) then 1 else 0
  }

  lemma {:induction false} HistoryPaid(s: RunState, events: seq<Event>)
    requires Sane(s) && Fits(s)
    ensures Credit(Now(s, events)) + Begun(s, Trace(s, events)) <= Credit(s) + Slippage(s, events)
  {
    hide Sane, Fits, Credit, EventEffects, Slipped, Durable, Stepwise;
    if events == [] {
      NothingPaid(s);
    } else {
      var n := |events| - 1;
      var before := events[..n];
      HistoryPaid(s, before);
      HistoryMoves(s, before, false);
      StepwiseFits(s, Trace(s, before));
      var u := Now(s, before);
      EventPaid(u, events[n]);
      BegunAppend(s, Trace(s, before), EventEffects(u, events[n]));
      DurableAppend(s, Trace(s, before), EventEffects(u, events[n]));
    }
  }

  /** Every attempt of a stage is one of those the trace starts. */
  lemma {:induction false} TriesBegun(s: RunState, t: seq<Effect>, id: string)
    requires Sane(s) && Fits(s) && Stepwise(s, t, false)
    ensures |Tries(Durable(s, t), id)| <= |Tries(s, id)| + Begun(s, t)
  {
    hide Sane, Fits, Move, Tries;
    if t != [] {
      var before := t[..|t| - 1];
      TriesBegun(s, before, id);
      if t[|t| - 1].Save? {
        StepwiseSane(s, before, false);
        StepwiseFits(s, before);
        MoveStarts(Durable(s, before), t[|t| - 1].state, id);
      }
    }
  }

  lemma MoveStarts(s: RunState, u: RunState, id: string)
    requires Sane(s) && Fits(s) && Move(s, u, false)
    ensures |Tries(u, id)| <= |Tries(s, id)| + Begun1(s, u)
  {
    hide Sane, Fits, Drops, Takes, Leaves, Rounds, Finishes, Handles, Schedules, Breaks, Stops, Cancels, SameButChildren, Tries, Started,
      Credit, CurrentRunning, StageIds;
    if Begins(s, u) {
      StartedGrows(s, s.current.value);
    } else {
      OthersSameLengths(s, u);
    }
  }

  /** Only a begin changes the number of attempts. */
  lemma OthersSameLengths(s: RunState, u: RunState)
    requires Sane(s) && Fits(s) && Move(s, u, false) && !Begins(s, u)
    ensures SameLengths(u, s)
  {
    hide Sane, Fits, SameLengths, Drops, Takes, Leaves, Rounds, Finishes, Handles, Schedules, Breaks, Stops, Cancels, SameButChildren,
      Begins, Credit;
    if Finishes(s, u, false) {
      FinishPrice(s, u, false);
    } else if Handles(s, u) {
      HandlePrice(s, u);
    } else if Drops(s, u) || Takes(s, u) {
      QueuePrice(s, u);
    } else if Leaves(s, u) {
      LeavesNext(s, u);
      LeavePrice(s, u);
    } else if Rounds(s, u, false) {
      RoundPrice(s, u, false);
    } else {
      RestStill(s, u);
      RestEnds(s, u);
      RestPrice(s, u);
    }
  }

  /** What the plan alone allows. */
  function AttemptBound(p: Plan): nat {
    Credit(Submit(p))
  }

  /** Over any history with crashes, the attempts of all stages together are bounded by the plan, but for one
      more for each step that slipped. */
  lemma AttemptsWithCrashes(p: Plan, events: seq<Event>, id: string)
    ensures Begun(Submit(p), Trace(Submit(p), events)) <= AttemptBound(p) + Slippage(Submit(p), events)
    ensures |Tries(Now(Submit(p), events), id)| <= Begun(Submit(p), Trace(Submit(p), events))
  {
    hide Sane, Credit, Slippage, Begun, Trace, Durable, Stepwise, Tries, MaxPending;
    var s := Submit(p);
    SubmitSane(p);
    SubmitSteady(p);
    HistoryPaid(s, events);
    HistoryMoves(s, events, false);
    TriesBegun(s, Trace(s, events), id);
    NoTriesYet(p, id);
  }

  lemma NoTriesYet(p: Plan, id: string)
    ensures Tries(Submit(p), id) == [] && Submit(p).plan == p
  {
  }

  /** A step slips by being cut: the whole step never ends behind a result. */
  lemma SlipIsCut(s: RunState, a: Answers, n: nat)
    requires Sane(s) && Fits(s) && Slips(s, EventEffects(s, Step(a, n)))
    ensures n < |Advance(s, a).effects|
  {
    hide Sane, Fits, Advance, Slips;
    AdvancePriced(s, a);
  }

  // --- The cut that adds an attempt -------------------------------------------

  /** An external stage is current, nothing is queued, and the next advance runs it. */
  predicate AboutToRun(s: RunState) {
    && s.status.Active? && !s.cancelIntent && s.pending == []
    && s.current.Some? && s.current.value in StageIds(s.plan)
    && StageOf(s.plan, s.current.value).authority.External?
    && !IsRunning(s, s.current.value) && !IsDone(s, s.current.value)
  }

  predicate FailsNow(a: Answers) {
    a.bindings && a.external.status.ReplyFailed?
  }

  /** The state once the failed attempt is recorded. */
  function FailedState(s: RunState, a: Answers): RunState
    requires AboutToRun(s)
  {
    var s1 := Started(s, s.current.value);
    SetLast(s1, s.current.value, Finished(LastTry(s1, s.current.value), a.external))
  }

  /** The four effects of a step whose attempt fails, and what holds between them. */
  lemma FailingStep(s: RunState, a: Answers)
    requires AboutToRun(s) && FailsNow(a)
    ensures var c, s1, s2, es := s.current.value, Started(s, s.current.value), FailedState(s, a), Advance(s, a).effects;
      && |es| == 4 && es[0] == Save(s1) && es[1].ExecuteCall? && es[2] == Save(s2) && es[3] == Save(Advance(s, a).final)
      && CurrentRunning(s1) && |Tries(s1, c)| == |Tries(s, c)| + 1
      && AboutToRun(s2) && Latest(s2, c) == Some(Failed) && |Tries(s2, c)| == |Tries(s, c)| + 1
      && s2 == s.(attempts := s2.attempts)
      && (|Tries(s, c)| + 1 >= MaxAttemptsOf(StageOf(s.plan, c)) ==>
            IsTerminal(Advance(s, a).final) && Tries(Advance(s, a).final, c) == Tries(s2, c))
  {
    hide StageOf, StageIds, MaxAttemptsOf;
    var c := s.current.value;
    var st, s1, s2 := StageOf(s.plan, c), Started(s, c), FailedState(s, a);
    assert Advance(s, a) == RunCurrent(s, a) == After([Save(s1)], Perform(s1, st, false, a));
    assert LastTry(s1, c).num == |Tries(s, c)| + 1;
    assert LastTry(s2, c) == Finished(LastTry(s1, c), a.external);
    FailureSaves(s2, st, OtherFailure);
    FailureSaves(s2, st, a.external.failure);
  }

  lemma NextRunStarts(s: RunState, b: Answers)
    requires AboutToRun(s)
    ensures |Tries(Advance(s, b).final, s.current.value)| == |Tries(s, s.current.value)| + 1
  {
    hide Perform, NextStage, SameLengths;
    var id := s.current.value;
    StartedGrows(s, id);
    PerformSame(Started(s, id), StageOf(s.plan, id), false, b);
    LengthAt(Started(s, id), Perform(Started(s, id), StageOf(s.plan, id), false, b).final, id);
  }

  lemma LengthAt(s: RunState, f: RunState, id: string)
    requires SameLengths(f, s)
    ensures |Tries(f, id)| == |Tries(s, id)|
  {
  }

  /** With no retry left, a step whose attempt fails and the advance after it start two attempts exactly when the
      step is cut right behind the save of the failed result, before the failure is handled. */
  lemma LimitPassedIff(s: RunState, a: Answers, k: nat, b: Answers)
    requires AboutToRun(s) && FailsNow(a)
    requires |Tries(s, s.current.value)| + 1 >= MaxAttemptsOf(StageOf(s.plan, s.current.value))
    ensures var c, d := s.current.value, Durable(s, EventEffects(s, Step(a, k)));
      |Tries(Advance(d, b).final, c)| == |Tries(s, c)| + 2 <==> k == 3
  {
    hide Advance, FailedState, StageOf, StageIds, MaxAttemptsOf, Tries, CurrentRunning, IsTerminal, Latest, Started, OneMore, SameLengths;
    var c, es := s.current.value, Advance(s, a).effects;
    FailingStep(s, a);
    var s1, s2, f := Started(s, c), FailedState(s, a), Advance(s, a).final;
    var d := Durable(s, EventEffects(s, Step(a, k)));
    if k == 0 {
      assert EventEffects(s, Step(a, k)) == [];
      NextRunStarts(s, b);
    } else if k <= 2 {
      PrefixOfFour(s, es, k, s1, s2, f);
      assert d == s1;
      StepStarts(s1, b);
      LengthAt(s1, Advance(s1, b).final, c);
    } else if k == 3 {
      PrefixOfFour(s, es, k, s1, s2, f);
      assert d == s2;
      NextRunStarts(s2, b);
    } else {
      PrefixOfFour(s, es, k, s1, s2, f);
      assert d == f;
      TerminalStays(f, b, c);
    }
  }

  lemma TerminalStays(f: RunState, b: Answers, c: string)
    requires IsTerminal(f)
    ensures Tries(Advance(f, b).final, c) == Tries(f, c)
  {
  }

  lemma PrefixOfFour(s: RunState, es: seq<Effect>, k: nat, s1: RunState, s2: RunState, f: RunState)
    requires |es| == 4 && es[0] == Save(s1) && es[1].ExecuteCall? && es[2] == Save(s2) && es[3] == Save(f) && k > 0
    ensures Durable(s, Cut(es, k)) == if k <= 2 then s1 else if k == 3 then s2 else f
  {
    if k == 2 {
      assert es[..2][..1] == [Save(s1)];
    }
  }

  /** The stage fails. */
  const FAILING := Completing(None).(external := FailedReply(OtherFailure))

  /** From `submit`, every step cut there: the only stage of a plan makes any number of attempts, whatever its
      retry limit is. */
  lemma {:induction false} CrashesAddAttempts(p: Plan, n: nat)
    requires Lone(p)
    ensures var s := Now(Submit(p), seq(n, i => Step(FAILING, 3)));
      AboutToRun(s) && s.plan == p && s.current == Some(p.stages[0].id) && |Tries(s, p.stages[0].id)| == n
  {
    hide AboutToRun, Advance, Submit, Durable, Tries, Latest, CurrentRunning, Started, FailedState, MaxAttemptsOf;
    var events := seq(n, i => Step(FAILING, 3));
    if n == 0 {
      LoneBegins(p);
      assert Trace(Submit(p), events) == [];
      EmptyDurable(Submit(p));
    } else {
      var before := seq(n - 1, i => Step(FAILING, 3));
      assert events == before + [Step(FAILING, 3)];
      CrashesAddAttempts(p, n - 1);
      var s := Now(Submit(p), before);
      NowNext(Submit(p), before, Step(FAILING, 3));
      FailingStep(s, FAILING);
      PrefixOfFour(s, Advance(s, FAILING).effects, 3, Started(s, s.current.value), FailedState(s, FAILING), Advance(s, FAILING).final);
    }
  }

  lemma LoneBegins(p: Plan)
    requires Lone(p)
    ensures var s := Submit(p);
      AboutToRun(s) && s.plan == p && s.current == Some(p.stages[0].id) && Tries(s, p.stages[0].id) == []
  {
    LoneStage(p);
    LoneSubmit(p);
  }
}
