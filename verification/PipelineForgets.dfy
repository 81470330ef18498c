// Plans whose correction loops forget: histories, with crashes, that end in success while an enabled
// QC stage stands on a failing verdict. Together with PipelineSafety this is an exact condition on plans.

module PipelineForgets {
  import opened Common
  import opened PipelineModel
  import opened PipelineTermination
  import opened PipelineAttempts
  import opened PipelineMoves
  import opened PipelineProgress
  import opened PipelineSafety

  // --- Reached states ---------------------------------------------------------

  ghost predicate Leads(p: Plan, events: seq<Event>, s: RunState) {
    NamedHistory(Submit(p), events) && Now(Submit(p), events) == s
  }

  /** Some history whose verdicts name the stages that ran ends in the state. */
  ghost predicate Reached(p: Plan, s: RunState) {
    exists events :: Leads(p, events, s)
  }

  lemma ReachedStart(p: Plan)
    ensures Reached(p, Submit(p))
  {
    assert Leads(p, [], Submit(p));
  }

  lemma ReachedNext(p: Plan, s: RunState, e: Event)
    requires Reached(p, s) && (e.Step? ==> Named(s, e.answers))
    ensures Reached(p, Durable(s, EventEffects(s, e)))
  {
    hide EventEffects, Named, Submit, Durable, Trace;
    var events :| Leads(p, events, s);
    var all := events + [e];
    assert all[..|events|] == events;
    forall i | 0 <= i < |all| && all[i].Step? ensures Named(Now(Submit(p), all[..i]), all[i].answers) {
      if i < |events| {
        assert all[..i] == events[..i] && all[i] == events[i];
      }
    }
    NowNext(Submit(p), events, e);
    assert Leads(p, all, Durable(s, EventEffects(s, e)));
  }

  lemma ReachedSane(p: Plan, s: RunState)
    requires Reached(p, s)
    ensures Sane(s) && s.plan == p
  {
    hide Sane, Submit, Now, NamedHistory, Stepwise;
    var events :| Leads(p, events, s);
    SubmitSane(p);
    HistoryMoves(Submit(p), events, true);
    SubmitPlan(p);
  }

  lemma SubmitPlan(p: Plan)
    ensures Submit(p).plan == p
  {
  }

  // --- Stages that complete ---------------------------------------------------

  /** Every stage can be served: its authority resolves. */
  predicate Serviceable(p: Plan) {
    forall i | 0 <= i < |p.stages| :: !p.stages[i].authority.UnknownAuthority?
  }

  /** Every stage a declared loop queues exists. */
  predicate TargetsKnown(p: Plan) {
    forall i, id | 0 <= i < |p.loops| && id in LoopStages(p.loops[i]) :: id in StageIds(p)
  }

  function Done(v: Option<Verdict>): Reply {
    Reply(ReplyCompleted, NoHandle, v, OtherFailure)
  }

  /** The stage completes with the verdict. */
  function Completing(v: Option<Verdict>): Answers {
    Answers(true, Done(v), "job", map[], Done(v), true, map[])
  }

  /** One more attempt of the stage, completed with the verdict. */
  function DoneWith(s: RunState, id: string, v: Option<Verdict>): RunState {
    var t := Tries(s, id);
    s.(attempts := s.attempts[id := t + [Attempt(|t| + 1, Completed, None, v)]])
  }

  /** What follows the completion. */
  function Then(f: RunState, v: Option<Verdict>): RunState {
    if v.Some? && f.current.Some? && QcStage(f.plan, f.current.value) then HandleQc(f, v.value).final else NextStage(f).final
  }

  /** A run between two steps, with nothing in flight. */
  ghost predicate Calm(p: Plan, s: RunState) {
    Reached(p, s) && s.status.Active? && !s.cancelIntent && !CurrentRunning(s)
  }

  /** The attempt and then what follows from it are saved. */
  ghost predicate Completes(o: Outcome, s: RunState, v: Option<Verdict>, f: RunState)
    requires s.current.Some?
  {
    && f == DoneWith(s, s.current.value, v).(children := f.children)
    && |o.effects| >= 2 && o.effects[|o.effects| - 2] == Save(f)
    && o.effects[|o.effects| - 1] == Save(Then(f, v)) && o.final == Then(f, v)
  }

  lemma NextSaves(f: RunState)
    requires f.status.Active?
    ensures NextStage(f).effects == [Save(NextStage(f).final)]
  {
    hide FirstReady, AllWorkDone;
  }

  lemma QcSaves(f: RunState, v: Verdict)
    requires f.status.Active?
    ensures HandleQc(f, v).effects == [Save(HandleQc(f, v).final)]
  {
    hide NextStage, CorrectionLoop;
    NextSaves(f);
  }

  /** The attempt just started completes. */
  lemma StartedDone(s: RunState, id: string, v: Option<Verdict>)
    ensures var s1 := Started(s, id);
      && Tries(s1, id) != [] && SetLast(s1, id, Finished(LastTry(s1, id), Done(v))) == DoneWith(s, id, v)
      && LastTry(s1, id).num == |Tries(s, id)| + 1
  {
    var s1, t := Started(s, id), Tries(s, id);
    assert Tries(s1, id)[..|t|] == t;
    assert s1.attempts[id := DoneWith(s, id, v).attempts[id]] == DoneWith(s, id, v).attempts;
  }

  lemma RecordCompletes(s: RunState, s1: RunState, st: Stage, v: Option<Verdict>)
    requires s.status.Active? && s.current == Some(st.id) && st.id in StageIds(s.plan) && st == StageOf(s.plan, st.id)
    requires s1 == Started(s, st.id).(children := s1.children)
    ensures Tries(s1, st.id) != [] && Completes(Record(s1, st, Done(v)), s, v, DoneWith(s, st.id, v).(children := s1.children))
  {
    hide NextStage, HandleQc, Tries, Started, DoneWith, StageOf;
    var f := DoneWith(s, st.id, v).(children := s1.children);
    StartedDone(s, st.id, v);
    ChildrenApart(Started(s, st.id), s1, st.id, Finished(LastTry(Started(s, st.id), st.id), Done(v)));
    DoneWithFrame(s, st.id, v);
    NextSaves(f);
    if v.Some? {
      QcSaves(f, v.value);
    }
  }

  lemma DoneWithFrame(s: RunState, id: string, v: Option<Verdict>)
    ensures DoneWith(s, id, v) == s.(attempts := DoneWith(s, id, v).attempts)
  {
  }

  lemma ChildrenApart(s: RunState, u: RunState, id: string, a: Attempt)
    requires SameButChildren(u, s) && Tries(s, id) != []
    ensures Tries(u, id) == Tries(s, id) && SetLast(u, id, a) == SetLast(s, id, a).(children := u.children)
  {
  }

  /** A stage that is run now completes, whoever serves it. */
  lemma CurrentCompletes(s: RunState, v: Option<Verdict>) returns (f: RunState)
    requires s.status.Active? && s.current.Some? && s.current.value in StageIds(s.plan) && !CurrentRunning(s)
    requires !IsDone(s, s.current.value) || (s.corrections > 0 && s.note)
    requires !StageOf(s.plan, s.current.value).authority.UnknownAuthority?
    ensures Completes(RunCurrent(s, Completing(v)), s, v, f)
  {
    hide Completes, Record, StageOf, StageIds, IsDone, Tries, Started, FindChild, Numbered;
    var id, a := s.current.value, Completing(v);
    var st := StageOf(s.plan, id);
    var s1 := Started(s, id);
    StartedDone(s, id, v);
    assert RunCurrent(s, a) == After([Save(s1)], Perform(s1, st, false, a));
    if st.authority.External? {
      RecordCompletes(s, s1, st, v);
      f := DoneWith(s, id, v).(children := s1.children);
      CompletesLater([Save(s1), ExecuteCall(id, LastTry(s1, id).num)], Record(s1, st, Done(v)), s, v, f);
      assert [Save(s1)] + ([ExecuteCall(id, LastTry(s1, id).num)] + Record(s1, st, Done(v)).effects)
        == [Save(s1), ExecuteCall(id, LastTry(s1, id).num)] + Record(s1, st, Done(v)).effects;
    } else {
      f := LeafCompletes(s, s1, st, v);
      CompletesLater([Save(s1)], RunLeaf(s1, st, a), s, v, f);
    }
  }

  lemma CompletesLater(before: seq<Effect>, o: Outcome, s: RunState, v: Option<Verdict>, f: RunState)
    requires s.current.Some? && Completes(o, s, v, f)
    ensures Completes(After(before, o), s, v, f)
  {
    hide DoneWith, Then;
  }

  lemma LeafCompletes(s: RunState, s1: RunState, st: Stage, v: Option<Verdict>) returns (f: RunState)
    requires s.status.Active? && s.current == Some(st.id) && st.id in StageIds(s.plan) && st == StageOf(s.plan, st.id)
    requires s1 == Started(s, st.id)
    ensures Tries(s1, st.id) != [] && Completes(RunLeaf(s1, st, Completing(v)), s, v, f)
  {
    hide Completes, Record, StageOf, StageIds, Tries, Started, FindChild;
    var id, a := st.id, Completing(v);
    StartedDone(s, id, v);
    StartedOnlyTries(s, id);
    var key := Key(id, LastTry(s1, id).num);
    var k := FindChild(s1, key, a.polls);
    assert LeafReply(a.poll) == Done(v);
    if k < |s1.children| {
      var s2 := Polled(s1, k, a.poll);
      RecordCompletes(s, s2, st, v);
      f := DoneWith(s, id, v).(children := s2.children);
      CompletesLater([Save(s2)], Record(s2, st, Done(v)), s, v, f);
    } else {
      var s2 := WithChild(s1, key, a.job);
      var s3 := Polled(s2, k, a.poll);
      RecordCompletes(s, s3, st, v);
      f := DoneWith(s, id, v).(children := s3.children);
      CompletesLater([SubmitCall(key), Save(s2), Save(s3)], Record(s3, st, Done(v)), s, v, f);
    }
  }

  // --- Steps of the construction ----------------------------------------------

  /** A whole step, and a step cut before its last save. */
  lemma StepReaches(p: Plan, s: RunState, v: Option<Verdict>, f: RunState, g: RunState)
    requires Reached(p, s) && Named(s, Completing(v))
    requires var es := Advance(s, Completing(v)).effects; |es| >= 2 && es[|es| - 2] == Save(f) && es[|es| - 1] == Save(g)
    ensures Reached(p, f) && Reached(p, g)
  {
    hide Advance, Reached, Named;
    var a := Completing(v);
    var es := Advance(s, a).effects;
    ReachedNext(p, s, Step(a, |es|));
    ReachedNext(p, s, Step(a, |es| - 1));
    assert es[..|es| - 1][|es| - 2] == es[|es| - 2];
  }

  lemma DoneFacts(s: RunState, f: RunState, v: Option<Verdict>)
    requires s.current.Some? && f == DoneWith(s, s.current.value, v).(children := f.children)
    ensures f == s.(attempts := f.attempts, children := f.children)
    ensures IsDone(f, s.current.value) && !CurrentRunning(f)
    ensures IsBad(f, s.current.value) <==> v.Some? && !v.value.passed
    ensures forall j: string :: j != s.current.value ==> Tries(f, j) == Tries(s, j)
  {
  }

  /** The current stage completes: the step can be cut before or after what follows. */
  lemma Complete(p: Plan, s: RunState, v: Option<Verdict>) returns (f: RunState)
    requires Serviceable(p) && Calm(p, s) && s.pending == [] && s.current.Some? && !IsDone(s, s.current.value)
    requires v.Some? ==> v.value.stage == s.current.value
    ensures f == DoneWith(s, s.current.value, v).(children := f.children)
    ensures Calm(p, f) && Reached(p, Then(f, v))
  {
    hide Reached, DoneWith, Then, IsDone, RunCurrent, CurrentRunning, Sane, Numbered, Serviceable;
    ReachedSane(p, s);
    SaneParts(s);
    Served(p, s.current.value);
    f := CurrentCompletes(s, v);
    assert Advance(s, Completing(v)) == RunCurrent(s, Completing(v));
    StepReaches(p, s, v, f, Then(f, v));
    DoneFacts(s, f, v);
  }

  lemma Served(p: Plan, id: string)
    requires Serviceable(p) && id in StageIds(p)
    ensures !StageOf(p, id).authority.UnknownAuthority?
  {
  }

  function Taken(s: RunState): RunState
    requires s.pending != []
  {
    s.(current := Some(s.pending[0]), pending := s.pending[1..], note := s.corrections > 0)
  }

  /** The head of the queue is taken and completes. */
  lemma CompleteHead(p: Plan, s: RunState, v: Option<Verdict>) returns (f: RunState)
    requires Serviceable(p) && Calm(p, s) && s.pending != [] && s.pending[0] in StageIds(p)
    requires v.Some? ==> v.value.stage == s.pending[0]
    ensures f == DoneWith(Taken(s), s.pending[0], v).(children := f.children)
    ensures Calm(p, f) && Reached(p, Then(f, v))
  {
    hide Reached, DoneWith, Then, IsDone, RunCurrent, CurrentRunning, Sane, Numbered, Serviceable, StageIds, StageOf, IsRunning;
    ReachedSane(p, s);
    SaneParts(s);
    var x, u := s.pending[0], Taken(s);
    Served(p, x);
    TakenIdle(s);
    f := CurrentCompletes(u, v);
    assert Advance(s, Completing(v)) == After([Save(u)], RunCurrent(u, Completing(v)));
    StepReaches(p, s, v, f, Then(f, v));
    DoneFacts(u, f, v);
  }

  lemma TakenIdle(s: RunState)
    requires Numbered(s) && s.pending != [] && !CurrentRunning(s)
    ensures !CurrentRunning(Taken(s))
  {
    NoneRunning(s);
    SameAttempts(s, Taken(s));
  }

  /** A crash right after the cursor moved drops the head of the queue. */
  lemma Drop(p: Plan, s: RunState)
    requires Calm(p, s) && s.pending != [] && s.pending[0] in StageIds(p)
    ensures Calm(p, Taken(s))
  {
    hide Reached, RunCurrent, CurrentRunning, Sane, Numbered, StageIds, Durable, IsRunning;
    ReachedSane(p, s);
    SaneParts(s);
    TakenIdle(s);
    var a, u := Completing(None), Taken(s);
    assert Advance(s, a).effects == [Save(u)] + RunCurrent(u, a).effects;
    FirstSave(u, RunCurrent(u, a).effects, s);
    ReachedNext(p, s, Step(a, 1));
  }

  lemma FirstSave(u: RunState, es: seq<Effect>, s: RunState)
    ensures Durable(s, Cut([Save(u)] + es, 1)) == u
  {
    assert Cut([Save(u)] + es, 1) == [Save(u)];
  }

  /** All but the last k stages of the queue can be dropped. */
  lemma {:induction false} DropTo(p: Plan, s: RunState, k: nat) returns (u: RunState)
    requires Calm(p, s) && k < |s.pending| && forall id | id in s.pending :: id in StageIds(p)
    ensures Calm(p, u) && u == s.(current := u.current, note := u.note, pending := s.pending[k..])
    decreases k
  {
    hide Calm, StageIds;
    if k == 0 {
      u := s;
      assert s.pending[0..] == s.pending;
    } else {
      Drop(p, s);
      u := DropTo(p, Taken(s), k - 1);
      assert s.pending[1..][k - 1..] == s.pending[k..];
    }
  }

  // --- Walking through the plan -----------------------------------------------

  /** A required stage is current and about to run. */
  ghost predicate Walking(p: Plan, s: RunState) {
    && Calm(p, s) && s.pending == [] && s.current.Some? && s.current.value in StageIds(p)
    && Required(StageOf(p, s.current.value)) && !IsDone(s, s.current.value)
  }

  /** After a completion the next ready stage is current, if there is one. */
  lemma WalksOn(p: Plan, f: RunState)
    requires Calm(p, f) && f.pending == [] && FirstReady(f).Some? && Reached(p, NextStage(f).final)
    ensures var t := NextStage(f).final;
      Walking(p, t) && t.current == FirstReady(f) && t == f.(current := t.current, note := t.note)
  {
    hide Reached, FirstReady, StageOf, IsDone, CurrentRunning, Numbered, IsRunning;
    ReachedSane(p, f);
    FirstReadyFacts(f);
    ReadyIsRequired(f, StageOf(f.plan, FirstReady(f).value));
    var t := NextStage(f).final;
    SaneNotRunning(f);
    SameAttempts(f, t);
    IdleCursor(t);
  }

  lemma SaneNotRunning(f: RunState)
    requires Sane(f) && !CurrentRunning(f)
    ensures forall id: string :: !IsRunning(f, id)
  {
    NoneRunning(f);
  }

  lemma IdleCursor(t: RunState)
    requires forall id: string :: !IsRunning(t, id)
    ensures !CurrentRunning(t)
  {
  }

  /** Completing a stage leaves fewer stages undone. */
  lemma FewerUndone(s: RunState, f: RunState, v: Option<Verdict>)
    requires s.current.Some? && s.current.value in StageIds(s.plan) && !IsDone(s, s.current.value)
    requires f == DoneWith(s, s.current.value, v).(children := f.children)
    ensures Undone(f.plan.stages, f.attempts) < Undone(s.plan.stages, s.attempts)
  {
    var id := s.current.value;
    var t := f.attempts[id];
    var i := StageIndex(s.plan, id);
    UndoneChanges(s.plan.stages, s.attempts, id, t);
    assert f.attempts == s.attempts[id := t];
  }

  /** A required stage that is not done is reached by completing what comes before it. */
  lemma {:induction false} WalkTo(p: Plan, rank: map<string, nat>, s: RunState, q: string) returns (u: RunState)
    requires Dag(p, rank) && Serviceable(p) && Walking(p, s)
    requires q in StageIds(p) && Required(StageOf(p, q)) && !IsDone(s, q)
    ensures Walking(p, u) && u.current == Some(q) && u.iterations == s.iterations
    ensures forall id: string | id in StageIds(p) && !Required(StageOf(p, id)) :: Tries(u, id) == Tries(s, id)
    decreases Undone(p.stages, s.attempts)
  {
    hide Dag, Serviceable, Calm, FirstReady, Tries, IsDone, StageOf, DoneWith, NextStage, Undone;
    CalmPlan(p, s);
    if s.current == Some(q) {
      u := s;
    } else {
      var f := Complete(p, s, None);
      DoneFacts(s, f, None);
      FewerUndone(s, f, None);
      NothingReady(f, rank);
      SameDone(s, f, q);
      assert FirstReady(f).Some?;
      WalksOn(p, f);
      SameAttempts(f, NextStage(f).final);
      u := WalkTo(p, rank, NextStage(f).final, q);
    }
  }

  lemma CalmPlan(p: Plan, s: RunState)
    requires Calm(p, s)
    ensures Sane(s) && s.plan == p && s.status.Active? && !s.cancelIntent && !CurrentRunning(s)
  {
    ReachedSane(p, s);
  }

  lemma SameDone(s: RunState, f: RunState, id: string)
    requires Tries(f, id) == Tries(s, id)
    ensures IsDone(f, id) == IsDone(s, id) && IsBad(f, id) == IsBad(s, id)
  {
  }

  /** From a state at rest the run goes on to success, whatever stage stands on a failing verdict. */
  lemma {:induction false} WalkOut(p: Plan, rank: map<string, nat>, f: RunState, b: string) returns (u: RunState)
    requires Dag(p, rank) && Serviceable(p) && Calm(p, f) && f.pending == [] && Reached(p, NextStage(f).final)
    requires FailedQc(f, b)
    ensures Reached(p, u) && u.code == Some(Success) && FailedQc(u, b)
    decreases Undone(p.stages, f.attempts)
  {
    hide Dag, Serviceable, Calm, Reached, FirstReady, Tries, IsDone, StageOf, DoneWith, Undone, AllWorkDone, IsBad, EnabledQc, QcStage;
    CalmPlan(p, f);
    NothingReady(f, rank);
    if FirstReady(f).None? {
      u := NextStage(f).final;
      SameFailed(f, u);
    } else {
      WalksOn(p, f);
      var t := NextStage(f).final;
      CalmPlan(p, t);
      SameAttempts(f, t);
      SameFailed(f, t);
      FailedDone(f, b);
      var g := Complete(p, t, None);
      DoneFacts(t, g, None);
      FewerUndone(t, g, None);
      FailedFrame(t, g, b);
      u := WalkOut(p, rank, g, b);
    }
  }

  lemma FailedDone(s: RunState, b: string)
    requires FailedQc(s, b)
    ensures IsDone(s, b)
  {
  }

  // --- Along a trail ----------------------------------------------------------

  /** A failing verdict within the iterations enters the loop. */
  lemma VerdictEnters(f: RunState, t: string)
    requires f.current == Some(t) && QcStage(f.plan, t) && CorrectionLoop(f.plan, t).Some?
    requires IterationsOf(f, CorrectionLoop(f.plan, t).value.id) < CorrectionLoop(f.plan, t).value.maxIterations
    ensures EntersLoop(f, Then(f, Some(Verdict(t, false))), t)
  {
    hide CorrectionLoop;
  }

  /** The queue of the trail's last loop waits, and the trail's first stage stands on its failing verdict. */
  ghost predicate AtQueue(p: Plan, path: seq<string>, s: RunState) {
    && Trail(p, path) && Calm(p, s) && s.current.None? && s.pending == QueueOf(p, path) && s.corrections > 0
    && (forall id: string :: IterationsOf(s, id) == Uses(p, path, id))
    && FailedQc(s, path[0])
    && (forall id: string | id in StageIds(p) && !Required(StageOf(p, id)) && id !in path :: Tries(s, id) == [])
  }

  lemma QueueKnown(p: Plan, path: seq<string>)
    requires TargetsKnown(p) && Trail(p, path)
    ensures forall id | id in QueueOf(p, path) :: id in StageIds(p)
  {
    var q := LastOf(path);
    if LoopFor(p.loops, q).Some? {
      var i :| 0 <= i < |p.loops| && p.loops[i] == LoopFor(p.loops, q).value;
    } else {
      FirstCorrectExists(p.stages);
    }
  }

  lemma EnteredAt(p: Plan, past: seq<string>, t: string, f: RunState, g: RunState)
    requires Trail(p, past + [t]) && Reached(p, g) && f.plan == p && EntersLoop(f, g, t) && f.status.Active? && !f.cancelIntent
    requires forall id: string :: IterationsOf(f, id) == Uses(p, past, id)
    requires FailedQc(f, (past + [t])[0])
    requires forall id: string | id in StageIds(p) && !Required(StageOf(p, id)) && id !in past + [t] :: Tries(f, id) == []
    ensures AtQueue(p, past + [t], g)
  {
    hide Reached, Trail, CorrectionLoop, Uses, FailedQc;
    assert LastOf(past + [t]) == t;
    forall id: string ensures IterationsOf(g, id) == Uses(p, past + [t], id) {
      UsesGrow(p, past, t, id);
    }
    SameFailed(f, g);
    SameTries(f, g);
  }

  lemma StartWalk(p: Plan, rank: map<string, nat>, q: string)
    requires Dag(p, rank) && q in StageIds(p) && Required(StageOf(p, q))
    ensures Walking(p, Submit(p)) && !IsDone(Submit(p), q) && Submit(p).iterations == map[]
    ensures forall id: string :: Tries(Submit(p), id) == []
  {
    hide Dag, Reached, FirstReady, InOrder;
    SubmitFinds(p, rank);
    ReachedStart(p);
    NothingDone(Submit(p));
  }

  /** The first stage of a trail fails. */
  lemma TrailBegins(p: Plan, rank: map<string, nat>, t: string) returns (s: RunState)
    requires Dag(p, rank) && Serviceable(p) && Trail(p, [t])
    ensures AtQueue(p, [t], s)
  {
    hide Dag, Serviceable, Calm, Reached, CorrectionLoop, Tries, StageOf, DoneWith, Submit, StageIds, IsDone, Then, IsBad, AtQueue, Trail;
    TrailHead(p, [t]);
    assert [] + [t] == [t];
    LoopAllows(p, [], t);
    StartWalk(p, rank, t);
    var u := WalkTo(p, rank, Submit(p), t);
    CalmPlan(p, u);
    var v := Some(Verdict(t, false));
    var f := Complete(p, u, v);
    DoneFacts(u, f, v);
    FirstFails(p, u, f, t);
    VerdictEnters(f, t);
    EnteredAt(p, [], t, f, Then(f, v));
    s := Then(f, v);
  }

  lemma LoopAllows(p: Plan, past: seq<string>, t: string)
    requires Trail(p, past + [t])
    ensures QcStage(p, t) && CorrectionLoop(p, t).Some?
    ensures Uses(p, past, CorrectionLoop(p, t).value.id) < CorrectionLoop(p, t).value.maxIterations
    ensures past != [] ==> Trail(p, past) && t in QueueOf(p, past)
  {
    assert (past + [t])[..|past|] == past;
  }

  /** The next stage of the trail is taken from the queue and fails. */
  lemma TrailContinues(p: Plan, past: seq<string>, t: string, s0: RunState) returns (s: RunState)
    requires TargetsKnown(p) && Serviceable(p) && past != [] && Trail(p, past + [t]) && Trail(p, past) && AtQueue(p, past, s0)
    ensures AtQueue(p, past + [t], s)
  {
    hide TargetsKnown, Serviceable, Calm, Reached, CorrectionLoop, Tries, StageOf, DoneWith, StageIds, IsDone, Then, IsBad, Trail, Uses,
      QueueOf;
    LoopAllows(p, past, t);
    CalmPlan(p, s0);
    QueueKnown(p, past);
    var v := Some(Verdict(t, false));
    var j :| 0 <= j < |s0.pending| && s0.pending[j] == t;
    var u := DropTo(p, s0, j);
    var f := CompleteHead(p, u, v);
    DoneFacts(Taken(u), f, v);
    NextFails(p, past, s0, u, f, t);
    VerdictEnters(f, t);
    EnteredAt(p, past, t, f, Then(f, v));
    s := Then(f, v);
  }

  lemma {:induction false} FollowTrail(p: Plan, rank: map<string, nat>, path: seq<string>) returns (s: RunState)
    requires Dag(p, rank) && TargetsKnown(p) && Serviceable(p) && Trail(p, path)
    ensures AtQueue(p, path, s)
    decreases |path|
  {
    hide Dag, TargetsKnown, Serviceable, AtQueue;
    var n := |path| - 1;
    assert path == path[..n] + [path[n]];
    if n == 0 {
      assert path == [path[0]];
      s := TrailBegins(p, rank, path[0]);
    } else {
      s := FollowTrail(p, rank, path[..n]);
      s := TrailContinues(p, path[..n], path[n], s);
    }
  }

  lemma FirstFails(p: Plan, u: RunState, f: RunState, t: string)
    requires u.plan == p && EnabledQc(p, t) && u.current == Some(t) && u.iterations == map[]
    requires f == u.(attempts := f.attempts, children := f.children) && IsBad(f, t)
    requires forall j: string :: j != t ==> Tries(f, j) == Tries(u, j)
    requires forall id: string | id in StageIds(p) && !Required(StageOf(p, id)) :: Tries(u, id) == []
    ensures FailedQc(f, ([] + [t])[0])
    ensures forall id: string :: IterationsOf(f, id) == Uses(p, [], id)
    ensures forall id: string | id in StageIds(p) && !Required(StageOf(p, id)) && id !in [] + [t] :: Tries(f, id) == []
  {
    hide IsBad, Tries, StageOf;
  }

  lemma NextFails(p: Plan, past: seq<string>, s: RunState, u: RunState, f: RunState, t: string)
    requires AtQueue(p, past, s) && s.plan == p && u.pending != [] && u.pending[0] == t && QcStage(p, t)
    requires u == s.(current := u.current, note := u.note, pending := u.pending)
    requires f == Taken(u).(attempts := f.attempts, children := f.children) && IsBad(f, t)
    requires forall j: string :: j != t ==> Tries(f, j) == Tries(Taken(u), j)
    ensures FailedQc(f, (past + [t])[0])
    ensures forall id: string :: IterationsOf(f, id) == Uses(p, past, id)
    ensures forall id: string | id in StageIds(p) && !Required(StageOf(p, id)) && id !in past + [t] :: Tries(f, id) == []
  {
    hide IsBad, Tries, StageOf, Uses, Calm, Trail, QueueOf, StageIds;
    TrailHead(p, past);
    SameTries(s, Taken(u));
    assert (past + [t])[0] == past[0];
    if t != past[0] {
      FailedFrame(s, f, past[0]);
    }
    forall id: string | id in StageIds(p) && !Required(StageOf(p, id)) && id !in past + [t] ensures Tries(f, id) == [] {
      assert id != t && id !in past;
    }
  }

  // --- Plans that forget ------------------------------------------------------

  /** From a queue whose last stage is another one, the run goes on to success over the failing verdict. */
  lemma LastForgets(p: Plan, rank: map<string, nat>, s: RunState, b: string) returns (u: RunState)
    requires Dag(p, rank) && Serviceable(p) && Calm(p, s) && FailedQc(s, b)
    requires s.pending != [] && LastOf(s.pending) != b && forall id | id in s.pending :: id in StageIds(p)
    ensures Reached(p, u) && u.code == Some(Success) && FailedQc(u, b)
  {
    hide Dag, Serviceable, Calm, Reached, StageIds, DoneWith, FailedQc, NextStage;
    var z := LastOf(s.pending);
    var t := DropTo(p, s, |s.pending| - 1);
    assert t.pending == [z];
    SameFailed(s, t);
    var f := CompleteHead(p, t, None);
    DoneFacts(Taken(t), f, None);
    SameTries(t, Taken(t));
    FailedFrame(t, f, b);
    u := WalkOut(p, rank, f, b);
  }

  /** A plan that forgets has a history that ends in success over a failing verdict. */
  lemma ForgottenVerdict(p: Plan, rank: map<string, nat>, path: seq<string>, b: string) returns (u: RunState)
    requires Dag(p, rank) && TargetsKnown(p) && Serviceable(p) && Forgets(p, path, b)
    ensures Reached(p, u) && u.code == Some(Success) && FailedQc(u, b)
  {
    hide Dag, TargetsKnown, Serviceable, Calm, Reached, StageIds, DoneWith, IsBad, Trail, QueueOf, Uses, Tries, StageOf, Then;
    var s := FollowTrail(p, rank, path);
    QueueKnown(p, path);
    TrailHead(p, path);
    if b == path[0] {
      u := LastForgets(p, rank, s, b);
    } else {
      var j :| 0 <= j < |s.pending| && s.pending[j] == b;
      var t := DropTo(p, s, j);
      var v := Some(Verdict(b, false));
      CalmPlan(p, s);
      var f := CompleteHead(p, t, v);
      DoneFacts(Taken(t), f, v);
      assert f.pending == s.pending[j..][1..];
      assert LastOf(s.pending) == LastOf(f.pending);
      u := LastForgets(p, rank, f, b);
    }
  }

  /** No history ends in success while an enabled QC stage stands on a failing verdict. */
  ghost predicate Approves(p: Plan) {
    forall events: seq<Event>, b: string ::
      NamedHistory(Submit(p), events) && Now(Submit(p), events).code == Some(Success) ==> !FailedQc(Now(Submit(p), events), b)
  }

  /** On acyclic plans with known loop targets and authorities, success always means approval exactly
      when no trail of failing QC stages leads to a queue that ends in another stage. */
  lemma ApprovesIff(p: Plan, rank: map<string, nat>)
    requires Dag(p, rank) && TargetsKnown(p) && Serviceable(p)
    ensures Approves(p) <==> Remembers(p)
  {
    hide Dag, TargetsKnown, Serviceable, Forgets, FailedQc, NamedHistory, Submit, Now;
    if Remembers(p) {
      forall events: seq<Event>, b: string | NamedHistory(Submit(p), events) && Now(Submit(p), events).code == Some(Success)
        ensures !FailedQc(Now(Submit(p), events), b)
      {
        SuccessIsApproved(p, events);
      }
    }
    if path: seq<string>, b: string :| Forgets(p, path, b) {
      var u := ForgottenVerdict(p, rank, path, b);
      var events :| Leads(p, events, u);
    }
  }
}
