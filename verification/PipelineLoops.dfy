// What retries and crashes do to the stages of a correction round: exactly when a scheduled retry is
// what starts next, and exactly when a queued stage still gets its attempt.

module PipelineLoops {
  import opened Common
  import opened PipelineModel
  import opened PipelineTermination
  import opened PipelineAttempts
  import opened PipelineMoves
  import opened PipelineProgress
  import opened PipelineSafety
  import opened PipelineOrder
  import opened PipelineForgets

  /** Some effect starts an attempt of the stage. */
  ghost predicate StartsIn(s: RunState, es: seq<Effect>, id: string) {
    exists i: nat :: i < |es| && Starts(s, es[i], id)
  }

  lemma StartsAt(s: RunState, es: seq<Effect>, i: nat, id: string)
    requires i < |es| && Starts(s, es[i], id)
    ensures StartsIn(s, es, id)
  {
  }

  /** The cursor's stage is run: it is not running yet, and not completed work to be left. */
  predicate RunsAgain(s: RunState) {
    && s.current.Some? && s.current.value in StageIds(s.plan) && !CurrentRunning(s)
    && (!IsDone(s, s.current.value) || (s.corrections > 0 && s.note))
  }

  lemma RunCurrentStartsIt(s: RunState, a: Answers)
    requires RunsAgain(s)
    ensures var es := RunCurrent(s, a).effects;
      es != [] && es[0] == Save(Started(s, s.current.value)) && Starts(s, es[0], s.current.value)
  {
    hide Perform, IsDone, StageIds, NextStage;
    StartedGrows(s, s.current.value);
  }

  lemma FailedRunsAgain(s: RunState, id: string)
    requires Latest(s, id) == Some(Failed)
    ensures !IsDone(s, id) && !IsRunning(s, id)
  {
  }

  // --- Advances over a queue --------------------------------------------------

  /** An advance over a known queue starts its head and nothing else. */
  lemma HeadStarts(s: RunState, a: Answers, id: string)
    requires Sane(s) && !IsTerminal(s) && !(s.cancelIntent && !s.cancelled) && !CurrentRunning(s)
    requires s.pending != [] && s.pending[0] in StageIds(s.plan)
    ensures StartsIn(s, Advance(s, a).effects, id) <==> id == s.pending[0]
    ensures |Advance(s, a).effects| >= 2 && Starts(s, Advance(s, a).effects[1], s.pending[0])
    ensures Advance(s, a).effects[0] == Save(Taken(s)) && !Starts(s, Save(Taken(s)), id)
  {
    hide Sane, Numbered, RunCurrent, Starts, StageIds, Confined, IsDone, CurrentRunning;
    SaneParts(s);
    TakenIdle(s);
    var u := Taken(s);
    RunCurrentStartsIt(u, a);
    RunCurrentConfined(u, a);
    var es := RunCurrent(u, a).effects;
    assert Advance(s, a).effects == [Save(u)] + es;
    TakenStarts(s, id);
    TakenStarts(s, s.pending[0]);
    SameStarts(s, u, es[0], s.pending[0]);
    StartsAt(s, [Save(u)] + es, 1, s.pending[0]);
    if StartsIn(s, [Save(u)] + es, id) {
      var i: nat :| i < |[Save(u)] + es| && Starts(s, ([Save(u)] + es)[i], id);
      assert i > 0 && ([Save(u)] + es)[i] == es[i - 1];
      SameStarts(s, u, es[i - 1], id);
      ConfinedAt(u, es, s.pending[0], i - 1, id);
    }
  }

  lemma ConfinedAt(s: RunState, es: seq<Effect>, id: string, i: nat, other: string)
    requires Confined(s, es, id) && i < |es| && Starts(s, es[i], other)
    ensures other == id
  {
  }

  lemma TakenStarts(s: RunState, id: string)
    requires s.pending != []
    ensures !Starts(s, Save(Taken(s)), id)
  {
    SameTries(s, Taken(s));
  }

  lemma SameStarts(s: RunState, u: RunState, e: Effect, id: string)
    requires u.attempts == s.attempts
    ensures Starts(s, e, id) == Starts(u, e, id)
  {
    SameTries(s, u);
  }

  lemma DroppedStarts(s: RunState, a: Answers, id: string)
    requires !IsTerminal(s) && !(s.cancelIntent && !s.cancelled) && !CurrentRunning(s)
    requires s.pending != [] && s.pending[0] !in StageIds(s.plan)
    ensures !StartsIn(s, Advance(s, a).effects, id)
  {
    var u := s.(pending := s.pending[1..]);
    assert Advance(s, a).effects == [Save(u)];
    SameTries(s, u);
  }

  // --- Retries ----------------------------------------------------------------

  /** After a retry of the stage was scheduled, the next advance starts that stage exactly when no
      queued stage stands in its way. */
  lemma RetryStartsIff(s: RunState, st: Stage, failure: Failure, a: Answers)
    requires Sane(s) && !IsTerminal(s) && !(s.cancelIntent && !s.cancelled)
    requires s.current == Some(st.id) && Latest(s, st.id) == Some(Failed)
    ensures var f := HandleFailure(s, st, failure).final;
      !IsTerminal(f) ==> (StartsIn(f, Advance(f, a).effects, st.id) <==> f.pending == [] || f.pending[0] == st.id)
  {
    hide Sane, Numbered, Starts, RunCurrent, StartsIn, Latest, IsDone, Tries, StageIds;
    var f := HandleFailure(s, st, failure).final;
    if !IsTerminal(f) {
      SaneParts(s);
      FailedRunsAgain(s, st.id);
      SameAttempts(s, f);
      RestStill(s, f);
      StillSane(s, f);
      if f.pending == [] {
        RunCurrentStartsIt(f, a);
        assert Advance(f, a) == RunCurrent(f, a);
        StartsAt(f, Advance(f, a).effects, 0, st.id);
      } else if f.pending[0] in StageIds(f.plan) {
        HeadStarts(f, a, st.id);
      } else {
        DroppedStarts(f, a, st.id);
      }
    }
  }

  // --- Crashes ----------------------------------------------------------------

  /** The head of a queue of known stages gets its attempt in a step cut after n effects or in the
      advance after it, unless the cut falls right behind the move of the cursor and another stage
      waits: then the crash drops it. */
  lemma HeadSurvivesIff(s: RunState, a: Answers, n: nat, b: Answers)
    requires Sane(s) && !IsTerminal(s) && !(s.cancelIntent && !s.cancelled) && !CurrentRunning(s)
    requires s.pending != [] && forall id | id in s.pending :: id in StageIds(s.plan)
    ensures var x, es := s.pending[0], EventEffects(s, Step(a, n));
      (StartsIn(s, es, x) || StartsIn(s, Advance(Durable(s, es), b).effects, x))
        <==> n != 1 || |s.pending| == 1 || s.pending[1] == x
  {
    hide Sane, Numbered, Starts, StageIds, Advance, IsRunning;
    var x, es := s.pending[0], EventEffects(s, Step(a, n));
    HeadStarts(s, a, x);
    var all := Advance(s, a).effects;
    if n >= 2 {
      assert es[1] == all[1];
      StartsAt(s, es, 1, x);
    } else if n == 0 {
      assert es == [] && Durable(s, es) == s;
      HeadStarts(s, b, x);
    } else {
      assert es == [Save(Taken(s))];
      OnlyTaken(s, es, x);
      TakenThenNext(s, b);
    }
  }

  lemma OnlyTaken(s: RunState, es: seq<Effect>, id: string)
    requires s.pending != [] && es == [Save(Taken(s))]
    ensures !StartsIn(s, es, id) && Durable(s, es) == Taken(s)
  {
    TakenStarts(s, id);
  }

  /** After the cut the next advance starts the next queued stage, if there is one, and else the cursor's. */
  lemma TakenThenNext(s: RunState, b: Answers)
    requires Sane(s) && !IsTerminal(s) && !(s.cancelIntent && !s.cancelled) && !CurrentRunning(s)
    requires s.pending != [] && forall id | id in s.pending :: id in StageIds(s.plan)
    ensures var x := s.pending[0];
      StartsIn(s, Advance(Taken(s), b).effects, x) <==> |s.pending| == 1 || s.pending[1] == x
  {
    hide Sane, Numbered, Starts, StageIds, RunCurrent, IsDone, StartsIn, Takes;
    var x, u := s.pending[0], Taken(s);
    SaneParts(s);
    TakenIdle(s);
    TakesTaken(s);
    MoveSane(s, u, false);
    SameStartsIn(s, u, Advance(u, b).effects, x);
    if |s.pending| == 1 {
      RunCurrentStartsIt(u, b);
      assert Advance(u, b) == RunCurrent(u, b);
      StartsAt(u, Advance(u, b).effects, 0, x);
    } else {
      assert u.pending[0] == s.pending[1];
      HeadStarts(u, b, x);
    }
  }

  lemma TakesTaken(s: RunState)
    requires !IsTerminal(s) && s.pending != [] && !CurrentRunning(s) && s.pending[0] in StageIds(s.plan)
    ensures Move(s, Taken(s), false)
  {
    assert Takes(s, Taken(s));
  }

  lemma SameStartsIn(s: RunState, u: RunState, es: seq<Effect>, id: string)
    requires u.attempts == s.attempts
    ensures StartsIn(s, es, id) == StartsIn(u, es, id)
  {
    hide Starts;
    forall e: Effect ensures Starts(s, e, id) == Starts(u, e, id) {
      SameStarts(s, u, e, id);
    }
  }

  // --- Histories --------------------------------------------------------------

  /** A correction round of two stages or more, on a plan that gets there. */
  ghost predicate LongRound(p: Plan, rank: map<string, nat>, q: string) {
    && Dag(p, rank) && TargetsKnown(p) && Serviceable(p) && Trail(p, [q])
    && |QueueOf(p, [q])| >= 2 && QueueOf(p, [q])[1] != QueueOf(p, [q])[0]
  }

  /** A history whose next step, cut right behind the move of the cursor, drops the round's first stage. */
  lemma StageIsDropped(p: Plan, rank: map<string, nat>, q: string, b: Answers) returns (s: RunState)
    requires LongRound(p, rank, q)
    ensures Reached(p, s) && s.pending == QueueOf(p, [q])
    ensures Reached(p, Taken(s)) && Taken(s).current == Some(QueueOf(p, [q])[0])
    ensures !StartsIn(s, Advance(Taken(s), b).effects, QueueOf(p, [q])[0])
  {
    hide Dag, TargetsKnown, Serviceable, Trail, QueueOf, Reached, StageIds, StartsIn, CurrentRunning, Sane;
    s := FollowTrail(p, rank, [q]);
    QueueKnown(p, [q]);
    CalmPlan(p, s);
    Drop(p, s);
    TakenThenNext(s, b);
  }

  /** The round's correction stage fails, a retry is scheduled, and the next advance starts another stage. */
  lemma RetryIsOvertaken(p: Plan, rank: map<string, nat>, q: string, b: Answers) returns (f: RunState)
    requires LongRound(p, rank, q)
    requires var c := QueueOf(p, [q])[0]; c in StageIds(p) && StageOf(p, c).kind == Correct && MaxAttemptsOf(StageOf(p, c)) >= 2
    ensures var c := QueueOf(p, [q])[0];
      && Reached(p, f) && f.current == Some(c) && Latest(f, c) == Some(Failed) && !IsTerminal(f)
      && StartsIn(f, Advance(f, b).effects, QueueOf(p, [q])[1])
      && !StartsIn(f, Advance(f, b).effects, c)
  {
    hide Dag, TargetsKnown, Serviceable, Trail, QueueOf, Reached, StageIds, StartsIn, CurrentRunning, Sane, StageOf, Latest, MaxAttemptsOf;
    var c := QueueOf(p, [q])[0];
    var s := FollowTrail(p, rank, [q]);
    QueueKnown(p, [q]);
    CalmPlan(p, s);
    CorrectIsNew(p, q, c);
    f := FailHead(p, s);
    CalmPlan(p, f);
    HeadStarts(f, b, c);
    HeadStarts(f, b, QueueOf(p, [q])[1]);
  }

  lemma CorrectIsNew(p: Plan, q: string, c: string)
    requires Trail(p, [q]) && c in StageIds(p) && StageOf(p, c).kind == Correct
    ensures c !in [q] && !Required(StageOf(p, c))
  {
    TrailHead(p, [q]);
  }

  /** The stage's inputs do not resolve. */
  function Unbound(): Answers {
    Completing(None).(bindings := false)
  }

  /** The head of the queue fails its first attempt and is to be retried. */
  lemma FailHead(p: Plan, s: RunState) returns (f: RunState)
    requires Calm(p, s) && s.pending != [] && s.pending[0] in StageIds(p) && Tries(s, s.pending[0]) == []
    requires MaxAttemptsOf(StageOf(p, s.pending[0])) >= 2
    ensures Calm(p, f) && f.current == Some(s.pending[0]) && f.pending == s.pending[1..]
    ensures Latest(f, s.pending[0]) == Some(Failed)
  {
    hide Reached, CurrentRunning, Sane, Numbered, StageIds, StageOf, MaxAttemptsOf, NextStage, HandleQc, IsDone, RunCurrent;
    CalmPlan(p, s);
    SaneParts(s);
    TakenIdle(s);
    var x, u, a := s.pending[0], Taken(s), Unbound();
    f := FailFirst(u, StageOf(p, x));
    FailedRunsAgain(f, x);
    assert Advance(s, a) == After([Save(u)], RunCurrent(u, a));
    LastSaved(s, Advance(s, a).effects);
    ReachedNext(p, s, Step(a, |Advance(s, a).effects|));
    IdleAt(f, x);
  }

  lemma IdleAt(f: RunState, x: string)
    requires f.current == Some(x) && !IsRunning(f, x)
    ensures !CurrentRunning(f)
  {
  }

  lemma LastSaved(s: RunState, es: seq<Effect>)
    requires es != [] && es[|es| - 1].Save?
    ensures Durable(s, es) == es[|es| - 1].state
  {
  }

  lemma FailFirst(u: RunState, st: Stage) returns (f: RunState)
    requires u.status.Active? && u.current == Some(st.id) && st.id in StageIds(u.plan) && st == StageOf(u.plan, st.id)
    requires Tries(u, st.id) == [] && MaxAttemptsOf(st) >= 2
    ensures var o := RunCurrent(u, Unbound());
      o.effects != [] && o.effects[|o.effects| - 1] == Save(f)
    ensures f == u.(note := true, attempts := f.attempts) && Latest(f, st.id) == Some(Failed)
  {
    hide MaxAttemptsOf, StageOf, StageIds, NextStage, HandleQc;
    var s1 := Started(u, st.id);
    var r := FailedReply(OtherFailure);
    var s2 := SetLast(s1, st.id, Finished(LastTry(s1, st.id), r));
    assert RunCurrent(u, Unbound()) == After([Save(s1)], Record(s1, st, r));
    assert LastTry(s2, st.id) == Attempt(1, Failed, None, None);
    f := HandleFailure(s2, st, OtherFailure).final;
    assert Record(s1, st, r).effects == [Save(s2), Save(f)];
    SameTries(s2, f);
  }
}
