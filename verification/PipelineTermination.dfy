// Every run ends: with each `advance` atomic, a step either finishes the run, lowers a
// lexicographic measure, or leaves an attempt in flight.

module PipelineTermination {
  import opened Common
  import opened PipelineModel

  // --- The measure ------------------------------------------------------------

  function Excess(a: int, b: int): nat {
    if a > b then a - b else 0
  }

  function Count(iterations: map<string, nat>, id: string): nat {
    if id in iterations then iterations[id] else 0
  }

  /** Correction iterations still allowed. */
  function Budget(loops: seq<Loop>, iterations: map<string, nat>): nat {
    if loops == [] then 0
    else Excess(loops[0].maxIterations, Count(iterations, loops[0].id)) + Budget(loops[1..], iterations)
  }

  function TriesIn(attempts: map<string, seq<Attempt>>, id: string): seq<Attempt> {
    if id in attempts then attempts[id] else []
  }

  predicate DoneIn(attempts: map<string, seq<Attempt>>, id: string) {
    var t := TriesIn(attempts, id);
    t != [] && t[|t| - 1].status.Completed?
  }

  /** Stages whose latest attempt is not completed. */
  function Undone(stages: seq<Stage>, attempts: map<string, seq<Attempt>>): nat {
    if stages == [] then 0
    else (if DoneIn(attempts, stages[0].id) then 0 else 1) + Undone(stages[1..], attempts)
  }

  /** Attempts that are no longer running. */
  function FinishedTries(t: seq<Attempt>): nat {
    if t != [] && t[|t| - 1].status.Running? then |t| - 1 else |t|
  }

  /** Failures that may still be retried. */
  function Allowance(stages: seq<Stage>, attempts: map<string, seq<Attempt>>): nat {
    if stages == [] then 0
    else Excess(MaxAttemptsOf(stages[0]), FinishedTries(TriesIn(attempts, stages[0].id))) + Allowance(stages[1..], attempts)
  }

  /** The declared loops, and the fallback over the first correction stage. */
  function Slots(p: Plan): seq<Loop> {
    match FirstCorrect(p.stages)
    case None => p.loops
    case Some(c) => p.loops + [Loop(c, "", c, [], p.maxCorrections)]
  }

  datatype Measure = Measure(budget: nat, pending: nat, undone: nat, allowance: nat)

  function MeasureOf(s: RunState): Measure {
    Measure(Budget(Slots(s.plan), s.iterations), |s.pending|, Undone(s.plan.stages, s.attempts),
            Allowance(s.plan.stages, s.attempts))
  }

  predicate Less(m: Measure, n: Measure) {
    || m.budget < n.budget
    || (m.budget == n.budget && (
       || m.pending < n.pending
       || (m.pending == n.pending && (m.undone < n.undone || (m.undone == n.undone && m.allowance < n.allowance)))))
  }

  // --- What atomic steps keep -------------------------------------------------

  /** Attempts are numbered 1..n, and only the last attempt of the current stage may be running. */
  ghost predicate Numbered(s: RunState) {
    forall id: string, i: int {:trigger Tries(s, id)[i]} | 0 <= i < |Tries(s, id)| ::
      && Tries(s, id)[i].num == i + 1
      && (Tries(s, id)[i].status.Running? ==> i == |Tries(s, id)| - 1 && s.current == Some(id))
  }

  /** Between atomic steps the cursor never stands on completed work. */
  ghost predicate Steady(s: RunState) {
    && Numbered(s)
    && (s.current.Some? ==> !IsDone(s, s.current.value))
  }

  /** External replies use the five statuses of the executor protocol. */
  predicate Contract(a: Answers) {
    !a.external.status.ReplyOther? && !a.external.status.ReplyCancelled?
  }

  // --- Sums -------------------------------------------------------------------

  lemma {:induction false} BudgetFalls(loops: seq<Loop>, iterations: map<string, nat>, id: string)
    ensures var after := iterations[id := Count(iterations, id) + 1];
      && Budget(loops, after) <= Budget(loops, iterations)
      && ((exists i | 0 <= i < |loops| :: loops[i].id == id && Count(iterations, id) < loops[i].maxIterations)
          ==> Budget(loops, after) < Budget(loops, iterations))
  {
    if loops != [] {
      BudgetFalls(loops[1..], iterations, id);
      if i :| 0 <= i < |loops| && loops[i].id == id && Count(iterations, id) < loops[i].maxIterations {
        if i > 0 {
          assert loops[1..][i - 1] == loops[i];
        }
      }
    }
  }

  lemma {:induction false} UndoneChanges(stages: seq<Stage>, attempts: map<string, seq<Attempt>>, id: string, t: seq<Attempt>)
    ensures var after := attempts[id := t];
      && ((DoneIn(after, id) || !DoneIn(attempts, id)) ==> Undone(stages, after) <= Undone(stages, attempts))
      && (DoneIn(after, id) && !DoneIn(attempts, id) && (exists i | 0 <= i < |stages| :: stages[i].id == id)
          ==> Undone(stages, after) < Undone(stages, attempts))
      && ((DoneIn(after, id) <==> DoneIn(attempts, id)) ==> Undone(stages, after) == Undone(stages, attempts))
  {
    if stages != [] {
      UndoneChanges(stages[1..], attempts, id, t);
      if i :| 0 <= i < |stages| && stages[i].id == id {
        if i > 0 {
          assert stages[1..][i - 1] == stages[i];
        }
      }
    }
  }

  lemma {:induction false} AllowanceChanges(stages: seq<Stage>, attempts: map<string, seq<Attempt>>, id: string, t: seq<Attempt>)
    requires FinishedTries(t) >= FinishedTries(TriesIn(attempts, id))
    ensures var after := attempts[id := t];
      && Allowance(stages, after) <= Allowance(stages, attempts)
      && ((FinishedTries(t) == FinishedTries(TriesIn(attempts, id))
           || forall i | 0 <= i < |stages| && stages[i].id == id :: MaxAttemptsOf(stages[i]) <= FinishedTries(TriesIn(attempts, id)))
          ==> Allowance(stages, after) == Allowance(stages, attempts))
      && ((exists i | 0 <= i < |stages| :: stages[i].id == id && FinishedTries(TriesIn(attempts, id)) < MaxAttemptsOf(stages[i])
             && FinishedTries(t) > FinishedTries(TriesIn(attempts, id)))
          ==> Allowance(stages, after) < Allowance(stages, attempts))
  {
    if stages != [] {
      AllowanceChanges(stages[1..], attempts, id, t);
      if i :| 0 <= i < |stages| && stages[i].id == id && FinishedTries(TriesIn(attempts, id)) < MaxAttemptsOf(stages[i]) {
        if i > 0 {
          assert stages[1..][i - 1] == stages[i];
        }
      }
    }
  }

  // --- Small steps ------------------------------------------------------------

  lemma StageIndex(p: Plan, id: string) returns (i: nat)
    requires id in StageIds(p)
    ensures i < |p.stages| && p.stages[i] == StageOf(p, id)
  {
    i :| 0 <= i < |p.stages| && p.stages[i] == StageOf(p, id);
  }

  lemma StartedKeeps(s: RunState, id: string)
    requires Numbered(s) && s.current == Some(id) && !IsRunning(s, id)
    ensures var s1 := Started(s, id);
      && Numbered(s1) && IsRunning(s1, id) && !IsDone(s1, id)
      && MeasureOf(s1).budget == MeasureOf(s).budget && MeasureOf(s1).pending == MeasureOf(s).pending
      && MeasureOf(s1).allowance == MeasureOf(s).allowance
      && (!IsDone(s, id) ==> MeasureOf(s1).undone == MeasureOf(s).undone)
  {
    var s1, t := Started(s, id), Tries(s, id);
    var t1 := Tries(s1, id);
    assert forall i | 0 <= i < |t| :: t1[i] == t[i];
    forall j: string, i | 0 <= i < |Tries(s1, j)|
      ensures Tries(s1, j)[i].num == i + 1
      ensures Tries(s1, j)[i].status.Running? ==> i == |Tries(s1, j)| - 1 && s1.current == Some(j)
    {
      if j != id {
        assert Tries(s1, j) == Tries(s, j);
      } else if i < |t| {
        assert t[i].num == i + 1;
      }
    }
    UndoneChanges(s.plan.stages, s.attempts, id, t1);
    AllowanceChanges(s.plan.stages, s.attempts, id, t1);
  }

  /** Some declaration of the stage allows the attempt. */
  predicate Allowed(p: Plan, id: string, num: nat) {
    exists i | 0 <= i < |p.stages| :: p.stages[i].id == id && num <= MaxAttemptsOf(p.stages[i])
  }

  /** Recording a result turns the one running attempt into a finished one. */
  lemma RecordedKeeps(s: RunState, id: string, a: Attempt)
    requires Numbered(s) && IsRunning(s, id) && id in StageIds(s.plan)
    requires a.num == LastTry(s, id).num && !a.status.Running?
    ensures var s1 := SetLast(s, id, a);
      && Numbered(s1) && (IsDone(s1, id) <==> a.status.Completed?) && !IsRunning(s1, id)
      && Tries(s1, id) != [] && LastTry(s1, id) == a && |Tries(s1, id)| == |Tries(s, id)| == a.num
      && MeasureOf(s1).budget == MeasureOf(s).budget && MeasureOf(s1).pending == MeasureOf(s).pending
      && MeasureOf(s1).undone <= MeasureOf(s).undone && MeasureOf(s1).allowance <= MeasureOf(s).allowance
      && (a.status.Completed? ==> MeasureOf(s1).undone < MeasureOf(s).undone)
      && (Allowed(s.plan, id, a.num) ==> MeasureOf(s1).allowance < MeasureOf(s).allowance)
      && (!a.status.Completed? && !Allowed(s.plan, id, a.num) ==> MeasureOf(s1) == MeasureOf(s))
      && (a.num <= MaxAttemptsOf(StageOf(s.plan, id)) ==> Allowed(s.plan, id, a.num))
  {
    var s1, t := SetLast(s, id, a), Tries(s, id);
    var t1 := Tries(s1, id);
    assert t1 == t[..|t| - 1] + [a];
    assert t[|t| - 1].num == |t|;
    forall j: string, i | 0 <= i < |Tries(s1, j)|
      ensures Tries(s1, j)[i].num == i + 1
      ensures Tries(s1, j)[i].status.Running? ==> i == |Tries(s1, j)| - 1 && s1.current == Some(j)
    {
      if j != id {
        assert Tries(s1, j) == Tries(s, j);
      } else if i < |t| - 1 {
        assert t1[i] == t[i];
      }
    }
    var k := StageIndex(s.plan, id);
    UndoneChanges(s.plan.stages, s.attempts, id, t1);
    AllowanceChanges(s.plan.stages, s.attempts, id, t1);
  }

  /** Cursor, note, pending and children do not enter the attempt bookkeeping. */
  lemma NumberedFrame(s: RunState, u: RunState)
    requires Numbered(s) && u.attempts == s.attempts
    requires forall id: string :: IsRunning(s, id) ==> u.current == Some(id)
    ensures Numbered(u)
  {
    forall id: string, i | 0 <= i < |Tries(u, id)|
      ensures Tries(u, id)[i].num == i + 1
      ensures Tries(u, id)[i].status.Running? ==> i == |Tries(u, id)| - 1 && u.current == Some(id)
    {
      assert Tries(u, id) == Tries(s, id);
      if Tries(s, id)[i].status.Running? {
        assert IsRunning(s, id);
      }
    }
  }

  lemma NoneRunning(s: RunState)
    requires Numbered(s) && !CurrentRunning(s)
    ensures forall id: string :: !IsRunning(s, id)
  {
    forall id: string ensures !IsRunning(s, id) {
      var t := Tries(s, id);
      assert t != [] ==> t[|t| - 1].status.Running? ==> s.current == Some(id);
    }
  }

  // --- Ends of a step ---------------------------------------------------------

  /** A continuing step keeps the run steady and the coarse part of the measure. */
  ghost predicate Coarse(f: RunState, s: RunState) {
    && f.plan == s.plan
    && (!IsTerminal(f) ==>
         && Steady(f)
         && (|| MeasureOf(f).budget < MeasureOf(s).budget
             || (MeasureOf(f).budget == MeasureOf(s).budget && MeasureOf(f).pending <= MeasureOf(s).pending)))
  }

  /** Choosing the next stage touches the cursor and the ending only. */
  lemma NextStageShape(s: RunState)
    requires !IsTerminal(s)
    ensures var f := NextStage(s).final;
      && f == s.(current := f.current, note := f.note, status := f.status, code := f.code)
      && (!IsTerminal(f) ==> if s.pending != [] then f.current == None
                             else f.current == FirstReady(s) && f.current.Some? && !IsDone(s, f.current.value))
  {
    hide FirstReady, AllWorkDone;
    if s.pending == [] && FirstReady(s).Some? {
      FirstReadyFacts(s);
    }
  }

  lemma FirstReadyFacts(s: RunState)
    requires FirstReady(s).Some?
    ensures var id := FirstReady(s).value;
      && id in StageIds(s.plan) && StageOf(s.plan, id).kind != Correct && Ready(s, StageOf(s.plan, id))
      && !IsDone(s, id)
  {
  }

  lemma SameAttempts(s: RunState, f: RunState)
    requires f.attempts == s.attempts
    ensures forall id: string :: IsDone(f, id) == IsDone(s, id) && IsRunning(f, id) == IsRunning(s, id) && Tries(f, id) == Tries(s, id)
  {
  }

  lemma NextStageKeeps(s: RunState)
    requires Numbered(s) && !CurrentRunning(s) && !IsTerminal(s)
    ensures var f := NextStage(s).final;
      && Coarse(f, s) && (!IsTerminal(f) ==> !CurrentRunning(f) && MeasureOf(f) == MeasureOf(s))
  {
    hide NextStage, FirstReady, Numbered, Budget, Undone, Allowance, IsDone, IsRunning;
    var f := NextStage(s).final;
    NoneRunning(s);
    NextStageShape(s);
    SameAttempts(s, f);
    if !IsTerminal(f) {
      NumberedFrame(s, f);
    }
  }

  lemma LoopIsSlot(p: Plan, qc: string)
    requires CorrectionLoop(p, qc).Some?
    ensures var l := CorrectionLoop(p, qc).value;
      exists i | 0 <= i < |Slots(p)| :: Slots(p)[i].id == l.id && Slots(p)[i].maxIterations == l.maxIterations
  {
    var l := CorrectionLoop(p, qc).value;
    if LoopFor(p.loops, qc).Some? {
      var i :| 0 <= i < |p.loops| && p.loops[i] == l;
      assert Slots(p)[i] == l;
    } else {
      assert Slots(p)[|p.loops|].id == l.id;
    }
  }

  lemma HandleQcKeeps(s: RunState, v: Verdict)
    requires Numbered(s) && !CurrentRunning(s) && !IsTerminal(s)
    ensures var f := HandleQc(s, v).final;
      && Coarse(f, s)
      && (!IsTerminal(f) ==>
           !CurrentRunning(f) && if v.passed then MeasureOf(f) == MeasureOf(s) else MeasureOf(f).budget < MeasureOf(s).budget)
  {
    var f := HandleQc(s, v).final;
    NoneRunning(s);
    if v.passed {
      NextStageKeeps(s);
    } else if !IsTerminal(f) {
      var l := CorrectionLoop(s.plan, v.stage).value;
      LoopIsSlot(s.plan, v.stage);
      BudgetFalls(Slots(s.plan), s.iterations, l.id);
      NumberedFrame(s, f);
    }
  }

  lemma HandleFailureKeeps(s: RunState, st: Stage, failure: Failure)
    requires Numbered(s) && !IsTerminal(s) && s.current == Some(st.id)
    requires !IsRunning(s, st.id) && !IsDone(s, st.id) && Tries(s, st.id) != []
    ensures var f := HandleFailure(s, st, failure).final;
      && Coarse(f, s)
      && (!IsTerminal(f) ==> !CurrentRunning(f) && MeasureOf(f) == MeasureOf(s) && LastTry(s, st.id).num < MaxAttemptsOf(st))
  {
    var f := HandleFailure(s, st, failure).final;
    if !IsTerminal(f) {
      NoneRunning(s);
      NumberedFrame(s, f);
    }
  }

  // --- Recording --------------------------------------------------------------

  /** How the measure moves when a step that had the stage running continues. */
  ghost predicate Fine(f: RunState, s: RunState) {
    !IsTerminal(f) ==> Less(MeasureOf(f), MeasureOf(s)) || (CurrentRunning(f) && MeasureOf(f) == MeasureOf(s))
  }

  lemma RecordKeeps(s: RunState, st: Stage, r: Reply)
    requires Numbered(s) && !IsTerminal(s) && s.current == Some(st.id) && IsRunning(s, st.id)
    requires st.id in StageIds(s.plan) && st == StageOf(s.plan, st.id)
    ensures var f := Record(s, st, r).final;
      && Coarse(f, s) && (!IsTerminal(f) ==> !CurrentRunning(f))
      && (r.status.ReplyCompleted? || r.status.ReplyFailed? ==> Fine(f, s))
  {
    var s1 := SetLast(s, st.id, Finished(LastTry(s, st.id), r));
    RecordedKeeps(s, st.id, Finished(LastTry(s, st.id), r));
    if r.handle.BadHandle? {
      HandleFailureKeeps(s1, st, OtherFailure);
    } else if r.status.ReplyFailed? {
      HandleFailureKeeps(s1, st, r.failure);
    } else if r.verdict.Some? && st.kind == Qc {
      HandleQcKeeps(s1, r.verdict.value);
    } else {
      NextStageKeeps(s1);
    }
  }

  lemma SettleKeeps(s: RunState, st: Stage, r: Reply)
    requires Numbered(s) && !IsTerminal(s) && s.current == Some(st.id) && IsRunning(s, st.id)
    requires st.id in StageIds(s.plan) && st == StageOf(s.plan, st.id)
    ensures var f := Settle(s, st, r).final;
      && Coarse(f, s) && (!r.status.ReplyOther? && !r.status.ReplyCancelled? ==> Fine(f, s))
  {
    if !r.status.ReplyWaiting? {
      RecordKeeps(s, st, r);
    } else if st.authority.External? {
      if r.handle.GoodHandle? {
        HandleSaved(s, st.id, r.handle.text);
      } else {
        RecordKeeps(s, st, FailedReply(UnsafeOutcome));
      }
    }
  }

  lemma HandleNumbered(s: RunState, id: string, h: string)
    requires Numbered(s) && s.current == Some(id) && IsRunning(s, id)
    ensures Numbered(SetLast(s, id, LastTry(s, id).(handle := Some(h))))
  {
    var t := Tries(s, id);
    var f := SetLast(s, id, LastTry(s, id).(handle := Some(h)));
    assert Tries(f, id) == t[..|t| - 1] + [LastTry(s, id).(handle := Some(h))];
    forall j: string, i | 0 <= i < |Tries(f, j)|
      ensures Tries(f, j)[i].num == i + 1
      ensures Tries(f, j)[i].status.Running? ==> i == |Tries(f, j)| - 1 && f.current == Some(j)
    {
      if j != id {
        assert Tries(f, j) == Tries(s, j);
      } else if i < |t| - 1 {
        assert Tries(f, j)[i] == t[i];
      } else {
        assert t[|t| - 1].num == |t|;
      }
    }
  }

  lemma HandleSaved(s: RunState, id: string, h: string)
    requires Numbered(s) && !IsTerminal(s) && s.current == Some(id) && IsRunning(s, id)
    ensures var f := SetLast(s, id, LastTry(s, id).(handle := Some(h)));
      Steady(f) && f.plan == s.plan && MeasureOf(f) == MeasureOf(s) && CurrentRunning(f)
  {
    hide Numbered, Budget, Undone, Allowance;
    HandleNumbered(s, id, h);
    var t := Tries(SetLast(s, id, LastTry(s, id).(handle := Some(h))), id);
    UndoneChanges(s.plan.stages, s.attempts, id, t);
    AllowanceChanges(s.plan.stages, s.attempts, id, t);
  }

  /** Children do not matter to the bookkeeping of attempts. */
  ghost predicate SameButChildren(u: RunState, s: RunState) {
    u == s.(children := u.children)
  }

  lemma LeafKeeps(s: RunState, u: RunState, st: Stage, r: Reply)
    requires Numbered(s) && !IsTerminal(s) && s.current == Some(st.id) && IsRunning(s, st.id)
    requires st.id in StageIds(s.plan) && st == StageOf(s.plan, st.id) && SameButChildren(u, s)
    ensures var f := Settle(u, st, LeafReply(r)).final;
      Coarse(f, s) && Fine(f, s)
  {
    NumberedFrame(s, u);
    SettleKeeps(u, st, LeafReply(r));
  }

  lemma PerformKeeps(s: RunState, st: Stage, resumed: bool, a: Answers)
    requires Numbered(s) && !IsTerminal(s) && s.current == Some(st.id) && IsRunning(s, st.id)
    requires st.id in StageIds(s.plan) && st == StageOf(s.plan, st.id)
    ensures var f := Perform(s, st, resumed, a).final;
      Coarse(f, s) && (Contract(a) ==> Fine(f, s))
  {
    hide Settle, Coarse, Fine, Numbered;
    SettleKeeps(s, st, FailedReply(OtherFailure));
    SettleKeeps(s, st, FailedReply(UnsafeOutcome));
    SettleKeeps(s, st, a.external);
    if a.bindings && st.authority.Leaf? {
      var key := Key(st.id, LastTry(s, st.id).num);
      var k := FindChild(s, key, a.polls);
      if k < |s.children| {
        LeafKeeps(s, Polled(s, k, a.poll), st, a.poll);
      } else {
        LeafKeeps(s, Polled(WithChild(s, key, a.job), k, a.poll), st, a.poll);
      }
    }
  }

  // --- The whole step ---------------------------------------------------------

  lemma RunCurrentKeeps(s: RunState, a: Answers)
    requires Numbered(s) && !IsTerminal(s)
    ensures var f := RunCurrent(s, a).final;
      Coarse(f, s) && (Contract(a) && Steady(s) ==> Fine(f, s))
  {
    if s.current.Some? && s.current.value in StageIds(s.plan) {
      var id := s.current.value;
      var st := StageOf(s.plan, id);
      if IsDone(s, id) && !IsBad(s, id) && !(s.corrections > 0 && s.note) {
        NextStageKeeps(s);
      } else if IsRunning(s, id) {
        PerformKeeps(s, st, true, a);
      } else {
        StartedKeeps(s, id);
        PerformKeeps(Started(s, id), st, false, a);
      }
    }
  }

  /** One atomic step: the run ends, the measure falls, or an attempt is in flight. */
  lemma StepDecreases(s: RunState, a: Answers)
    requires Steady(s) && !IsTerminal(s) && Contract(a)
    ensures var f := Advance(s, a).final;
      && f.plan == s.plan
      && (!IsTerminal(f) ==>
           && Steady(f)
           && (Less(MeasureOf(f), MeasureOf(s)) || (CurrentRunning(f) && MeasureOf(f) == MeasureOf(s))))
  {
    if !(s.cancelIntent && !s.cancelled) {
      if s.pending != [] && !CurrentRunning(s) {
        NoneRunning(s);
        if s.pending[0] !in StageIds(s.plan) {
          NumberedFrame(s, s.(pending := s.pending[1..]));
        } else {
          var s1 := s.(current := Some(s.pending[0]), pending := s.pending[1..], note := s.corrections > 0);
          NumberedFrame(s, s1);
          RunCurrentKeeps(s1, a);
        }
      } else {
        RunCurrentKeeps(s, a);
      }
    }
  }

  // --- Whole runs -------------------------------------------------------------

  function TotalAttempts(stages: seq<Stage>): nat {
    if stages == [] then 0 else MaxAttemptsOf(stages[0]) + TotalAttempts(stages[1..])
  }

  function LongestLoop(loops: seq<Loop>): nat {
    if loops == [] then 1
    else
      var rest, n := LongestLoop(loops[1..]), 1 + |loops[0].onCorrection|;
      if n > rest then n else rest
  }

  lemma {:induction false} SumsAreBounded(stages: seq<Stage>, attempts: map<string, seq<Attempt>>)
    ensures Undone(stages, attempts) <= |stages| && Allowance(stages, attempts) <= TotalAttempts(stages)
  {
    if stages != [] {
      SumsAreBounded(stages[1..], attempts);
    }
  }

  function Digits(high: nat, low: nat, base: nat): nat {
    high * base + low
  }

  /** The measure as one number, given a bound on the pending queue. */
  function Rank(p: Plan, bound: nat, m: Measure): nat {
    Digits(Digits(Digits(m.budget, m.pending, bound + 1), m.undone, |p.stages| + 1),
           m.allowance, TotalAttempts(p.stages) + 1)
  }

  lemma DigitsOrder(a: nat, b: nat, c: nat, d: nat, base: nat)
    requires b < base && d < base && (a < c || (a == c && b < d))
    ensures Digits(a, b, base) < Digits(c, d, base)
  {
    if a < c {
      assert (a + 1) * base <= c * base by {
        assert c * base - (a + 1) * base == (c - a - 1) * base;
      }
    }
  }

  lemma LessRanksLower(p: Plan, bound: nat, m: Measure, n: Measure)
    requires Less(m, n) && m.pending <= bound && n.pending <= bound
    requires m.undone <= |p.stages| && n.undone <= |p.stages|
    requires m.allowance <= TotalAttempts(p.stages) && n.allowance <= TotalAttempts(p.stages)
    ensures Rank(p, bound, m) < Rank(p, bound, n)
  {
    hide Digits, TotalAttempts;
    var x, y := Digits(m.budget, m.pending, bound + 1), Digits(n.budget, n.pending, bound + 1);
    var u, v := Digits(x, m.undone, |p.stages| + 1), Digits(y, n.undone, |p.stages| + 1);
    if m.budget < n.budget || (m.budget == n.budget && m.pending < n.pending) {
      DigitsOrder(m.budget, m.pending, n.budget, n.pending, bound + 1);
    }
    if x < y || (x == y && m.undone < n.undone) {
      DigitsOrder(x, m.undone, y, n.undone, |p.stages| + 1);
    }
    DigitsOrder(u, m.allowance, v, n.allowance, TotalAttempts(p.stages) + 1);
  }

  lemma {:induction false} LoopFits(loops: seq<Loop>, trigger: string)
    requires LoopFor(loops, trigger).Some?
    ensures 1 + |LoopFor(loops, trigger).value.onCorrection| <= LongestLoop(loops)
  {
    if loops[0].trigger != trigger {
      LoopFits(loops[1..], trigger);
    }
  }

  function MaxPending(p: Plan): nat {
    LongestLoop(p.loops)
  }

  lemma {:induction false} LongestAtLeastOne(loops: seq<Loop>)
    ensures LongestLoop(loops) >= 1
  {
    if loops != [] {
      LongestAtLeastOne(loops[1..]);
    }
  }

  lemma HandleQcFits(s: RunState, v: Verdict)
    requires |s.pending| <= MaxPending(s.plan)
    ensures |HandleQc(s, v).final.pending| <= MaxPending(s.plan)
  {
    LongestAtLeastOne(s.plan.loops);
    if LoopFor(s.plan.loops, v.stage).Some? {
      LoopFits(s.plan.loops, v.stage);
    }
  }

  lemma RecordFits(s: RunState, st: Stage, r: Reply)
    requires Tries(s, st.id) != [] && |s.pending| <= MaxPending(s.plan)
    ensures |Record(s, st, r).final.pending| <= MaxPending(s.plan)
  {
    hide HandleQc, NextStage;
    var s1 := SetLast(s, st.id, Finished(LastTry(s, st.id), r));
    if r.verdict.Some? {
      HandleQcFits(s1, r.verdict.value);
    }
    NextStageFits(s1);
  }

  lemma NextStageFits(s: RunState)
    ensures |NextStage(s).final.pending| == |s.pending|
  {
  }

  lemma SettleFits(s: RunState, st: Stage, r: Reply)
    requires Tries(s, st.id) != [] && |s.pending| <= MaxPending(s.plan)
    ensures |Settle(s, st, r).final.pending| <= MaxPending(s.plan)
  {
    hide Record;
    RecordFits(s, st, r);
    RecordFits(s, st, FailedReply(UnsafeOutcome));
  }

  lemma PerformFits(s: RunState, st: Stage, resumed: bool, a: Answers)
    requires Tries(s, st.id) != [] && |s.pending| <= MaxPending(s.plan)
    ensures |Perform(s, st, resumed, a).final.pending| <= MaxPending(s.plan)
  {
    hide Settle, MaxPending;
    SettleFits(s, st, FailedReply(OtherFailure));
    SettleFits(s, st, FailedReply(UnsafeOutcome));
    SettleFits(s, st, a.external);
    if a.bindings && st.authority.Leaf? {
      var key := Key(st.id, LastTry(s, st.id).num);
      var k := FindChild(s, key, a.polls);
      if k < |s.children| {
        SettleFits(Polled(s, k, a.poll), st, LeafReply(a.poll));
      } else {
        SettleFits(Polled(WithChild(s, key, a.job), k, a.poll), st, LeafReply(a.poll));
      }
    }
  }

  lemma StepFits(s: RunState, a: Answers)
    requires |s.pending| <= MaxPending(s.plan)
    ensures |Advance(s, a).final.pending| <= MaxPending(s.plan)
  {
    hide Perform, NextStage, MaxPending, FirstReady;
    var s1 := if s.pending != [] then s.(current := Some(s.pending[0]), pending := s.pending[1..], note := s.corrections > 0) else s;
    RunCurrentFits(s, a);
    RunCurrentFits(s1, a);
  }

  lemma RunningHasTries(s: RunState, id: string)
    requires IsRunning(s, id)
    ensures Tries(s, id) != []
  {
  }

  lemma RunCurrentFits(s: RunState, a: Answers)
    requires |s.pending| <= MaxPending(s.plan)
    ensures |RunCurrent(s, a).final.pending| <= MaxPending(s.plan)
  {
    hide Perform, NextStage, MaxPending, IsDone, IsBad, IsRunning, StageOf;
    NextStageFits(s);
    if s.current.Some? && s.current.value in StageIds(s.plan) {
      var id := s.current.value;
      if IsRunning(s, id) {
        RunningHasTries(s, id);
        PerformFits(s, StageOf(s.plan, id), true, a);
      } else {
        PerformFits(Started(s, id), StageOf(s.plan, id), false, a);
      }
    }
  }

  /** A run of atomic steps; only its last state may be terminal. */
  ghost predicate IsRun(states: seq<RunState>, answers: seq<Answers>) {
    && |states| == |answers| + 1
    && forall i | 0 <= i < |answers| ::
         !IsTerminal(states[i]) && Contract(answers[i]) && states[i + 1] == Advance(states[i], answers[i]).final
  }

  /** Steps after which nothing is in flight; every step that finishes an attempt is one. */
  function BusySteps(states: seq<RunState>): nat
    requires states != []
  {
    if |states| == 1 then 0 else (if CurrentRunning(states[1]) then 0 else 1) + BusySteps(states[1..])
  }

  function RankOf(s: RunState): nat {
    Rank(s.plan, MaxPending(s.plan), MeasureOf(s))
  }

  lemma StepRank(s: RunState, a: Answers)
    requires Steady(s) && !IsTerminal(s) && Contract(a) && |s.pending| <= MaxPending(s.plan)
    ensures var f := Advance(s, a).final;
      !IsTerminal(f) ==> RankOf(f) < RankOf(s) || (CurrentRunning(f) && RankOf(f) == RankOf(s))
  {
    hide Advance, Rank, Less, MeasureOf, CurrentRunning;
    var f := Advance(s, a).final;
    StepDecreases(s, a);
    StepFits(s, a);
    if !IsTerminal(f) && Less(MeasureOf(f), MeasureOf(s)) {
      MeasureBounds(s);
      MeasureBounds(f);
      LessRanksLower(s.plan, MaxPending(s.plan), MeasureOf(f), MeasureOf(s));
    }
  }

  lemma MeasureBounds(s: RunState)
    ensures MeasureOf(s).pending == |s.pending|
    ensures MeasureOf(s).undone <= |s.plan.stages| && MeasureOf(s).allowance <= TotalAttempts(s.plan.stages)
  {
    SumsAreBounded(s.plan.stages, s.attempts);
  }

  /** In any run the steps that leave nothing in flight are bounded by the plan; only polling an
      in-flight attempt can go on. */
  lemma {:induction false} RunsEnd(states: seq<RunState>, answers: seq<Answers>)
    requires IsRun(states, answers) && Steady(states[0]) && |states[0].pending| <= MaxPending(states[0].plan)
    ensures BusySteps(states) <= RankOf(states[0]) + 1
    decreases |answers|
  {
    hide Advance, RankOf, Steady, CurrentRunning, MaxPending;
    if |answers| > 0 {
      StepRank(states[0], answers[0]);
      StepDecreases(states[0], answers[0]);
      StepFits(states[0], answers[0]);
      assert |answers| > 1 ==> answers[1] in answers && !IsTerminal(states[1]);
      if !IsTerminal(states[1]) {
        var t, b := states[1..], answers[1..];
        assert IsRun(t, b);
        RunsEnd(t, b);
      }
    }
  }

  /** A submitted run starts steady. */
  lemma SubmitSteady(p: Plan)
    ensures Steady(Submit(p)) && |Submit(p).pending| <= MaxPending(p)
  {
  }

  /** A finished attempt leaves nothing in flight, so finishing steps are among the busy ones. */
  lemma FinishingIsBusy(s: RunState, st: Stage, r: Reply)
    requires Numbered(s) && !IsTerminal(s) && s.current == Some(st.id) && IsRunning(s, st.id)
    requires st.id in StageIds(s.plan) && st == StageOf(s.plan, st.id)
    ensures var f := Record(s, st, r).final;
            !IsTerminal(f) ==> !CurrentRunning(f)
  {
    RecordKeeps(s, st, r);
  }

  // --- Replies outside the executor protocol ----------------------------------

  /** The reply ends the attempt and makes progress: the stage completes, a retry is used up, or a
      correction round begins. */
  predicate Lowers(s: RunState, st: Stage, r: Reply)
    requires Tries(s, st.id) != []
  {
    && !r.status.ReplyWaiting?
    && (|| (r.status.ReplyCompleted? && !r.handle.BadHandle?)
        || Allowed(s.plan, st.id, LastTry(s, st.id).num)
        || (st.kind == Qc && !r.handle.BadHandle? && r.verdict.Some? && !r.verdict.value.passed))
  }

  lemma RecordLowersIff(s: RunState, st: Stage, r: Reply)
    requires Numbered(s) && !IsTerminal(s) && s.current == Some(st.id) && IsRunning(s, st.id) && !r.status.ReplyWaiting?
    requires st.id in StageIds(s.plan) && st == StageOf(s.plan, st.id)
    ensures Tries(s, st.id) != []
    ensures var f := Record(s, st, r).final;
      !IsTerminal(f) ==> if Lowers(s, st, r) then Less(MeasureOf(f), MeasureOf(s)) else MeasureOf(f) == MeasureOf(s)
  {
    hide Numbered, IsRunning, Steady, Budget, Undone, Allowance, NextStage, HandleQc;
    RunningHasTries(s, st.id);
    var s1 := SetLast(s, st.id, Finished(LastTry(s, st.id), r));
    RecordedKeeps(s, st.id, Finished(LastTry(s, st.id), r));
    if r.handle.BadHandle? {
      HandleFailureKeeps(s1, st, OtherFailure);
    } else if r.status.ReplyFailed? {
      HandleFailureKeeps(s1, st, r.failure);
    } else if r.verdict.Some? && st.kind == Qc {
      HandleQcKeeps(s1, r.verdict.value);
    } else {
      NextStageKeeps(s1);
    }
  }

  /** Exactly which replies lower the measure of a run that goes on; the others leave it as it is. */
  lemma MeasureFallsIff(s: RunState, st: Stage, r: Reply)
    requires Numbered(s) && !IsTerminal(s) && s.current == Some(st.id) && IsRunning(s, st.id)
    requires st.id in StageIds(s.plan) && st == StageOf(s.plan, st.id)
    ensures Tries(s, st.id) != []
    ensures var f := Settle(s, st, r).final;
      !IsTerminal(f) ==> if Lowers(s, st, r) then Less(MeasureOf(f), MeasureOf(s)) else MeasureOf(f) == MeasureOf(s)
  {
    hide Record, Numbered, IsRunning, Lowers;
    RunningHasTries(s, st.id);
    if !r.status.ReplyWaiting? {
      RecordLowersIff(s, st, r);
    } else {
      WaitingKeeps(s, st, r);
    }
  }

  lemma WaitingKeeps(s: RunState, st: Stage, r: Reply)
    requires Numbered(s) && !IsTerminal(s) && s.current == Some(st.id) && IsRunning(s, st.id) && r.status.ReplyWaiting?
    requires st.id in StageIds(s.plan) && st == StageOf(s.plan, st.id)
    ensures Tries(s, st.id) != [] && !Lowers(s, st, r)
    ensures var f := Settle(s, st, r).final; !IsTerminal(f) ==> MeasureOf(f) == MeasureOf(s)
  {
    RunningHasTries(s, st.id);
    if st.authority.External? {
      match r.handle
      case GoodHandle(h) => HandleSaved(s, st.id, h);
      case _ =>
    }
  }

  /** A plan of one external stage. */
  predicate Lone(p: Plan) {
    && |p.stages| == 1 && p.stages[0].id != "" && p.stages[0].enabled && p.stages[0].kind != Correct
    && p.stages[0].dependsOn == [] && p.stages[0].authority.External?
  }

  /** The stage answers with a status outside the executor protocol. */
  predicate Unknown(a: Answers) {
    a.bindings && !Contract(a) && !a.external.handle.BadHandle? && a.external.verdict.None?
  }

  ghost predicate Spinning(p: Plan, s: RunState) {
    && Lone(p) && s.plan == p && Steady(s) && !IsTerminal(s) && !s.cancelIntent && s.pending == []
    && s.current == Some(p.stages[0].id) && !IsRunning(s, p.stages[0].id)
  }

  lemma LoneStage(p: Plan)
    requires Lone(p)
    ensures p.stages[0].id in StageIds(p) && StageOf(p, p.stages[0].id) == p.stages[0]
    ensures forall num: nat :: Allowed(p, p.stages[0].id, num) <==> num <= MaxAttemptsOf(p.stages[0])
  {
    assert p.stages[0].id in StageIds(p);
  }

  /** One more attempt: the stage fails, is chosen again, and the measure only falls while retries are left. */
  lemma SpinsOn(p: Plan, s: RunState, a: Answers)
    requires Spinning(p, s) && Unknown(a)
    ensures var f, st := Advance(s, a).final, p.stages[0];
      && Spinning(p, f) && Latest(f, st.id) == Some(Failed) && |Tries(f, st.id)| == |Tries(s, st.id)| + 1
      && (if |Tries(f, st.id)| <= MaxAttemptsOf(st) then Less(MeasureOf(f), MeasureOf(s)) else MeasureOf(f) == MeasureOf(s))
  {
    hide NextStage, Tries, IsDone, IsRunning, IsBad, Numbered, StageIds, Less, Latest, Allowed, MaxAttemptsOf;
    var st := p.stages[0];
    var id := st.id;
    LoneStage(p);
    NotDone(s, id);
    var s1 := Started(s, id);
    StartedKeeps(s, id);
    RunningHasTries(s1, id);
    assert Advance(s, a).final == Perform(s1, st, false, a).final == Record(s1, st, a.external).final;
    var s2 := SetLast(s1, id, Finished(LastTry(s1, id), a.external));
    assert Record(s1, st, a.external).final == NextStage(s2).final;
    FailedAgain(s, id, a.external);
    StaysOn(p, s2);
    RecordKeeps(s1, st, a.external);
    RecordLowersIff(s1, st, a.external);
    StartedMeasure(s, s1);
  }

  lemma StartedMeasure(s: RunState, s1: RunState)
    requires MeasureOf(s1).budget == MeasureOf(s).budget && MeasureOf(s1).pending == MeasureOf(s).pending
    requires MeasureOf(s1).allowance == MeasureOf(s).allowance && MeasureOf(s1).undone == MeasureOf(s).undone
    ensures MeasureOf(s1) == MeasureOf(s)
  {
    hide Budget, Undone, Allowance;
  }

  lemma NotDone(s: RunState, id: string)
    requires Steady(s) && s.current == Some(id)
    ensures !IsDone(s, id)
  {
  }

  lemma FailedAgain(s: RunState, id: string, r: Reply)
    requires !r.status.ReplyCompleted?
    ensures var s1 := Started(s, id);
      && Tries(s1, id) != [] && LastTry(s1, id).num == |Tries(s, id)| + 1
      && var s2 := SetLast(s1, id, Finished(LastTry(s1, id), r));
      Latest(s2, id) == Some(Failed) && !IsDone(s2, id) && !IsRunning(s2, id) && |Tries(s2, id)| == |Tries(s, id)| + 1
  {
  }

  /** The only stage of a plan, not done, is chosen again. */
  lemma StaysOn(p: Plan, s: RunState)
    requires Lone(p) && s.plan == p && !IsTerminal(s) && s.pending == [] && s.current == Some(p.stages[0].id)
    requires !IsDone(s, p.stages[0].id)
    ensures NextStage(s).final == s
  {
    hide IsDone;
    LoneStage(p);
    assert Ready(s, p.stages[0]);
    assert FirstReady(s) == Some(p.stages[0].id);
  }

  /** The run after one whole step for each of the answers. */
  function Steps(s: RunState, answers: seq<Answers>): RunState {
    if answers == [] then s else Advance(Steps(s, answers[..|answers| - 1]), answers[|answers| - 1]).final
  }

  /** Outside the executor protocol a run need not end: however often the only stage of a plan answers
      with an unknown status it is attempted once more, and past its last retry the measure stands still. */
  lemma {:induction false} UnknownStatusLoops(p: Plan, answers: seq<Answers>)
    requires Lone(p) && forall a | a in answers :: Unknown(a)
    ensures var s, st := Steps(Submit(p), answers), p.stages[0];
      && Spinning(p, s) && |Tries(s, st.id)| == |answers|
      && (answers != [] ==>
           var before := Steps(Submit(p), answers[..|answers| - 1]);
           if |answers| <= MaxAttemptsOf(st) then Less(MeasureOf(s), MeasureOf(before)) else MeasureOf(s) == MeasureOf(before))
  {
    hide Spinning, Unknown, Advance, MaxAttemptsOf, Less, Submit;
    if answers == [] {
      LoneSubmit(p);
    } else {
      var n := |answers| - 1;
      UnknownStatusLoops(p, answers[..n]);
      assert answers[n] in answers;
      SpinsOn(p, Steps(Submit(p), answers[..n]), answers[n]);
    }
  }

  lemma LoneSubmit(p: Plan)
    requires Lone(p)
    ensures Spinning(p, Submit(p)) && Tries(Submit(p), p.stages[0].id) == []
  {
    LoneStage(p);
    SubmitSteady(p);
    assert Ready(Submit(p).(current := None), p.stages[0]);
  }
}
