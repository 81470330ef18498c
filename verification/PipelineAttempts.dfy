// Runs with crashes between any two durable effects: attempts are numbered, only one is ever
// running, and no attempt is handed to an external executor twice.

module PipelineAttempts {
  import opened Common
  import opened PipelineModel
  import opened PipelineTermination

  // --- Histories --------------------------------------------------------------

  /** An advance of which only the first effects happen, or a cancellation request. */
  datatype Event = Step(answers: Answers, survived: nat) | CancelRequest

  function Cut(es: seq<Effect>, n: nat): seq<Effect> {
    if n < |es| then es[..n] else es
  }

  function EventEffects(s: RunState, e: Event): seq<Effect> {
    match e
    case Step(a, n) => Cut(Advance(s, a).effects, n)
    case CancelRequest => if IsTerminal(s) then [] else [Save(RequestCancel(s))]
  }

  /** Everything that happened, each step starting again from the durable state. */
  function Trace(s: RunState, events: seq<Event>): seq<Effect> {
    if events == [] then []
    else
      var before := Trace(s, events[..|events| - 1]);
      before + EventEffects(Durable(s, before), events[|events| - 1])
  }

  function Now(s: RunState, events: seq<Event>): RunState {
    Durable(s, Trace(s, events))
  }

  lemma {:induction false} DurableAppend(s: RunState, t: seq<Effect>, es: seq<Effect>)
    ensures Durable(s, t + es) == Durable(Durable(s, t), es)
  {
    if es == [] {
      assert t + es == t;
    } else {
      DurableAppend(s, t, es[..|es| - 1]);
      assert (t + es)[..|t + es| - 1] == t + es[..|es| - 1];
    }
  }

  lemma EmptyDurable(s: RunState)
    ensures Durable(s, []) == s
  {
  }

  lemma NowNext(s: RunState, events: seq<Event>, e: Event)
    ensures Now(s, events + [e]) == Durable(Now(s, events), EventEffects(Now(s, events), e))
  {
    hide EventEffects, Durable;
    var all := events + [e];
    assert all[..|all| - 1] == events;
    DurableAppend(s, Trace(s, events), EventEffects(Now(s, events), e));
  }

  // --- Lawful traces ----------------------------------------------------------

  /** The plan stays and no attempt is ever forgotten. */
  ghost predicate Grows(s: RunState, u: RunState) {
    u.plan == s.plan && forall id: string :: |Tries(u, id)| >= |Tries(s, id)|
  }

  /** The last effect of the trace: a save keeps the numbering and forgets nothing; an external call
      directly follows the save that created its attempt. */
  ghost predicate LawfulLast(s: RunState, t: seq<Effect>)
    requires t != []
  {
    var n := |t| - 1;
    match t[n]
    case Save(u) => Numbered(u) && Grows(Durable(s, t[..n]), u)
    case ExecuteCall(id, k) =>
      && n > 0 && t[n - 1].Save?
      && |Tries(Durable(s, t[..n - 1]), id)| + 1 == k == |Tries(t[n - 1].state, id)|
    case _ => true
  }

  ghost predicate Lawful(s: RunState, t: seq<Effect>) {
    t == [] || (LawfulLast(s, t) && Lawful(s, t[..|t| - 1]))
  }

  lemma {:induction false} LawfulPrefix(s: RunState, t: seq<Effect>, n: nat)
    requires Lawful(s, t) && n <= |t|
    ensures Lawful(s, t[..n])
  {
    if n == |t| {
      assert t[..n] == t;
    } else {
      LawfulPrefix(s, t[..|t| - 1], n);
      assert t[..|t| - 1][..n] == t[..n];
    }
  }

  lemma LastAppend(s: RunState, t: seq<Effect>, es: seq<Effect>)
    requires es != [] && LawfulLast(Durable(s, t), es)
    ensures LawfulLast(s, t + es)
  {
    hide Numbered, Grows, Tries;
    var u, n := t + es, |es| - 1;
    assert u[..|u| - 1] == t + es[..n] && u[|u| - 1] == es[n];
    DurableAppend(s, t, es[..n]);
    if es[n].ExecuteCall? {
      assert u[..|u| - 2] == t + es[..n - 1] && u[|u| - 2] == es[n - 1];
      DurableAppend(s, t, es[..n - 1]);
    }
  }

  lemma {:induction false} LawfulAppend(s: RunState, t: seq<Effect>, es: seq<Effect>)
    requires Lawful(s, t) && Lawful(Durable(s, t), es)
    ensures Lawful(s, t + es)
  {
    hide LawfulLast, Durable;
    if es == [] {
      assert t + es == t;
    } else {
      LawfulAppend(s, t, es[..|es| - 1]);
      LastAppend(s, t, es);
      assert (t + es)[..|t + es| - 1] == t + es[..|es| - 1];
    }
  }

  lemma {:induction false} DurableGrows(s: RunState, t: seq<Effect>, n: nat)
    requires Lawful(s, t) && n <= |t|
    ensures Grows(Durable(s, t[..n]), Durable(s, t))
  {
    if n == |t| {
      assert t[..n] == t;
    } else {
      var m := |t| - 1;
      DurableGrows(s, t[..m], n);
      assert t[..m][..n] == t[..n];
    }
  }

  /** Where an external call stands in a lawful trace. */
  lemma CallAt(s: RunState, t: seq<Effect>, i: nat)
    requires Lawful(s, t) && i < |t| && t[i].ExecuteCall?
    ensures i > 0 && t[i - 1].Save? && Durable(s, t[..i]) == t[i - 1].state
    ensures |Tries(Durable(s, t[..i - 1]), t[i].stage)| + 1 == t[i].attempt == |Tries(t[i - 1].state, t[i].stage)|
  {
    var u := t[..i + 1];
    LawfulPrefix(s, t, i + 1);
    assert u[..i] == t[..i] && LawfulLast(s, u);
    assert u[..i - 1] == t[..i - 1];
    assert t[..i][|t[..i]| - 1] == t[i - 1];
  }

  /** In a lawful trace no external call is repeated. */
  lemma {:induction false} LawfulCallsOnce(s: RunState, t: seq<Effect>, i: nat, j: nat)
    requires Lawful(s, t) && i < j < |t| && t[i].ExecuteCall? && t[j].ExecuteCall?
    ensures t[i] != t[j]
  {
    hide Lawful, Durable, Tries;
    CallAt(s, t, i);
    CallAt(s, t, j);
    assert i < j - 1;
    LawfulPrefix(s, t, j - 1);
    DurableGrows(s, t[..j - 1], i);
    assert t[..j - 1][..i] == t[..i];
  }

  lemma {:induction false} LawfulNumbered(s: RunState, t: seq<Effect>)
    requires Lawful(s, t) && Numbered(s)
    ensures Numbered(Durable(s, t))
  {
    if t != [] {
      LawfulNumbered(s, t[..|t| - 1]);
    }
  }

  // --- Every advance is lawful ------------------------------------------------

  /** At most one save, which leaves plan, attempts and children alone and cancels nothing. */
  ghost predicate Ends(s: RunState, es: seq<Effect>) {
    es == [] || (|es| == 1 && es[0].Save? && SameRecords(s, es[0].state))
  }

  predicate SameRecords(s: RunState, u: RunState) {
    && u.attempts == s.attempts && u.plan == s.plan && u.children == s.children
    && (u.status.Cancelled? ==> s.status.Cancelled?)
  }

  lemma SaveLawful(s: RunState, u: RunState)
    requires Numbered(u) && Grows(s, u)
    ensures Lawful(s, [Save(u)])
  {
    var t := [Save(u)];
    assert t[..0] == [];
    assert Lawful(s, t[..0]);
  }

  lemma AfterSave(s: RunState, u: RunState, es: seq<Effect>)
    requires Numbered(u) && Grows(s, u) && Lawful(u, es)
    ensures Lawful(s, [Save(u)] + es)
  {
    SaveLawful(s, u);
    assert Durable(s, [Save(u)]) == u;
    LawfulAppend(s, [Save(u)], es);
  }

  lemma QuietLawful(s: RunState, e: Effect)
    requires e.PollCall? || e.SubmitCall?
    ensures Lawful(s, [e]) && Durable(s, [e]) == s
  {
    assert [e][..0] == [];
    assert Lawful(s, [e][..0]);
  }

  lemma EndsLawful(s: RunState, es: seq<Effect>)
    requires Numbered(s) && !CurrentRunning(s) && Ends(s, es)
    ensures Lawful(s, es)
  {
    if es != [] {
      NoneRunning(s);
      SameAttempts(s, es[0].state);
      NumberedFrame(s, es[0].state);
      SaveLawful(s, es[0].state);
      assert es == [Save(es[0].state)];
    }
  }

  lemma NextStageEnds(s: RunState)
    ensures Ends(s, NextStage(s).effects)
  {
    hide FirstReady, AllWorkDone;
  }

  lemma HandleQcEnds(s: RunState, v: Verdict)
    ensures Ends(s, HandleQc(s, v).effects)
  {
    hide NextStage;
    NextStageEnds(s);
  }

  lemma RecordGrows(s: RunState, id: string, a: Attempt)
    requires Tries(s, id) != []
    ensures Grows(s, SetLast(s, id, a)) && Grows(SetLast(s, id, a), s)
  {
    var u := SetLast(s, id, a);
    forall j: string ensures |Tries(u, j)| == |Tries(s, j)| {
      if j != id {
        assert Tries(u, j) == Tries(s, j);
      }
    }
  }

  lemma RecordLawful(s: RunState, st: Stage, r: Reply)
    requires Numbered(s) && s.current == Some(st.id) && IsRunning(s, st.id) && st.id in StageIds(s.plan)
    ensures Lawful(s, Record(s, st, r).effects)
  {
    hide Numbered, Lawful, HandleQc, NextStage, Grows, IsRunning, IsDone;
    RunningHasTries(s, st.id);
    var a := Finished(LastTry(s, st.id), r);
    var s1 := SetLast(s, st.id, a);
    RecordedKeeps(s, st.id, a);
    RecordGrows(s, st.id, a);
    var rest := if r.handle.BadHandle? then HandleFailure(s1, st, OtherFailure)
      else if r.status.ReplyFailed? then HandleFailure(s1, st, r.failure)
      else if r.verdict.Some? && st.kind == Qc then HandleQc(s1, r.verdict.value)
      else NextStage(s1);
    NextStageEnds(s1);
    if r.verdict.Some? {
      HandleQcEnds(s1, r.verdict.value);
    }
    EndsLawful(s1, rest.effects);
    AfterSave(s, s1, rest.effects);
  }

  lemma SettleLawful(s: RunState, st: Stage, r: Reply)
    requires Numbered(s) && s.current == Some(st.id) && IsRunning(s, st.id) && st.id in StageIds(s.plan)
    ensures Tries(s, st.id) != [] && Lawful(s, Settle(s, st, r).effects)
  {
    hide Numbered, Lawful, Record, Grows, IsRunning;
    RunningHasTries(s, st.id);
    if !r.status.ReplyWaiting? {
      RecordLawful(s, st, r);
    } else if st.authority.External? {
      match r.handle
      case GoodHandle(h) =>
        HandleNumbered(s, st.id, h);
        RecordGrows(s, st.id, LastTry(s, st.id).(handle := Some(h)));
        SaveLawful(s, SetLast(s, st.id, LastTry(s, st.id).(handle := Some(h))));
      case _ => RecordLawful(s, st, FailedReply(UnsafeOutcome));
    } else {
      GrowsSelf(s, s);
      SaveLawful(s, s);
    }
  }

  lemma GrowsSelf(s: RunState, u: RunState)
    requires s.attempts == u.attempts && s.plan == u.plan
    ensures Grows(s, u)
  {
  }

  lemma ChildrenLawful(s: RunState, u: RunState)
    requires Numbered(s) && SameButChildren(u, s) && s.current.Some? && IsRunning(s, s.current.value)
    ensures Numbered(u) && Grows(s, u) && IsRunning(u, u.current.value) && Tries(u, u.current.value) == Tries(s, u.current.value)
  {
    forall id: string | IsRunning(s, id) ensures u.current == Some(id) {
      assert Tries(s, id)[|Tries(s, id)| - 1].status.Running?;
    }
    NumberedFrame(s, u);
  }

  lemma LeafLawful(s: RunState, st: Stage, a: Answers)
    requires Numbered(s) && s.current == Some(st.id) && IsRunning(s, st.id) && st.id in StageIds(s.plan)
    ensures Tries(s, st.id) != [] && Lawful(s, RunLeaf(s, st, a).effects)
  {
    hide Numbered, Lawful, Settle, Grows, IsRunning, FindChild;
    RunningHasTries(s, st.id);
    var key := Key(st.id, LastTry(s, st.id).num);
    var k := FindChild(s, key, a.polls);
    if k < |s.children| {
      var s1 := Polled(s, k, a.poll);
      ChildrenLawful(s, s1);
      SettleLawful(s1, st, LeafReply(a.poll));
      AfterSave(s, s1, Settle(s1, st, LeafReply(a.poll)).effects);
    } else {
      var s1 := WithChild(s, key, a.job);
      var s2 := Polled(s1, k, a.poll);
      ChildrenLawful(s, s1);
      ChildrenLawful(s1, s2);
      var es := Settle(s2, st, LeafReply(a.poll)).effects;
      SettleLawful(s2, st, LeafReply(a.poll));
      AfterSave(s1, s2, es);
      AfterSave(s, s1, [Save(s2)] + es);
      QuietLawful(s, SubmitCall(key));
      LawfulAppend(s, [SubmitCall(key)], [Save(s1)] + ([Save(s2)] + es));
      assert RunLeaf(s, st, a).effects == [SubmitCall(key)] + ([Save(s1)] + ([Save(s2)] + es));
    }
  }

  /** A resumed attempt makes no execute call; a fresh one makes it right after its own save. */
  lemma PerformLawful(d: RunState, s: RunState, st: Stage, resumed: bool, a: Answers)
    requires Numbered(s) && s.current == Some(st.id) && IsRunning(s, st.id) && st.id in StageIds(s.plan)
    requires !resumed ==> Grows(d, s) && |Tries(d, st.id)| + 1 == |Tries(s, st.id)|
    ensures Tries(s, st.id) != []
    ensures resumed ==> Lawful(s, Perform(s, st, true, a).effects)
    ensures !resumed ==> Lawful(d, [Save(s)] + Perform(s, st, false, a).effects)
  {
    hide Lawful, Settle, Grows, IsRunning, RunLeaf;
    RunningHasTries(s, st.id);
    SettleLawful(s, st, FailedReply(OtherFailure));
    SettleLawful(s, st, FailedReply(UnsafeOutcome));
    SettleLawful(s, st, a.external);
    LeafLawful(s, st, a);
    var n := LastTry(s, st.id).num;
    var es := Settle(s, st, a.external).effects;
    QuietLawful(s, PollCall(st.id, n));
    LawfulAppend(s, [PollCall(st.id, n)], es);
    if !resumed {
      if a.bindings && st.authority.External? {
        CallLawful(d, s, st.id);
        LawfulAppend(d, [Save(s), ExecuteCall(st.id, n)], es);
        assert [Save(s)] + ([ExecuteCall(st.id, n)] + es) == [Save(s), ExecuteCall(st.id, n)] + es;
      } else {
        AfterSave(d, s, Perform(s, st, false, a).effects);
      }
    }
  }

  lemma CallLawful(d: RunState, s: RunState, id: string)
    requires Numbered(s) && Tries(s, id) != [] && Grows(d, s) && |Tries(d, id)| + 1 == |Tries(s, id)|
    ensures var t := [Save(s), ExecuteCall(id, LastTry(s, id).num)];
      Lawful(d, t) && Durable(d, t) == s
  {
    var t := [Save(s), ExecuteCall(id, LastTry(s, id).num)];
    SaveLawful(d, s);
    assert t[..1] == [Save(s)] && t[..0] == [];
    assert Durable(d, t[..1]) == s;
    assert Tries(s, id)[|Tries(s, id)| - 1].num == |Tries(s, id)|;
    assert LawfulLast(d, t);
  }

  lemma StartedGrows(s: RunState, id: string)
    ensures var u := Started(s, id);
      && Grows(s, u) && |Tries(u, id)| == |Tries(s, id)| + 1
      && forall j: string :: j != id ==> Tries(u, j) == Tries(s, j)
  {
  }

  lemma RunCurrentLawful(s: RunState, a: Answers)
    requires Numbered(s)
    ensures Lawful(s, RunCurrent(s, a).effects)
  {
    hide Lawful, NextStage, Perform, Grows, IsBad, Numbered, Ends;
    if s.current.None? || s.current.value !in StageIds(s.plan) {
      TerminalizeLawful(s, Success);
    } else {
      var id := s.current.value;
      var st := StageOf(s.plan, id);
      if IsDone(s, id) && !IsBad(s, id) && !(s.corrections > 0 && s.note) {
        NextStageEnds(s);
        EndsLawful(s, NextStage(s).effects);
      } else if IsRunning(s, id) {
        PerformLawful(s, s, st, true, a);
      } else {
        StartedKeeps(s, id);
        StartedGrows(s, id);
        PerformLawful(s, Started(s, id), st, false, a);
      }
    }
  }

  lemma TerminalizeLawful(s: RunState, code: TerminalCode)
    requires Numbered(s)
    ensures Lawful(s, Terminalize(s, code).effects)
  {
    if !IsTerminal(s) {
      RunningIsCurrent(s);
      NumberedFrame(s, Terminalize(s, code).final);
      SaveLawful(s, Terminalize(s, code).final);
    }
  }

  lemma RunningIsCurrent(s: RunState)
    requires Numbered(s)
    ensures forall id: string :: IsRunning(s, id) ==> s.current == Some(id)
  {
    forall id: string | IsRunning(s, id) ensures s.current == Some(id) {
      assert Tries(s, id)[|Tries(s, id)| - 1].status.Running?;
    }
  }

  lemma AdvanceLawful(s: RunState, a: Answers)
    requires Numbered(s)
    ensures Lawful(s, Advance(s, a).effects)
  {
    hide Lawful, Numbered, Grows, RunCurrent, Ends;
    RunningIsCurrent(s);
    if s.cancelIntent && !s.cancelled {
      var u := Cascade(s, a).final;
      NumberedFrame(s, u);
      GrowsSelf(s, u);
      SaveLawful(s, u);
      NothingLawful(s);
    } else if IsTerminal(s) {
      NothingLawful(s);
    } else if s.pending != [] && !CurrentRunning(s) {
      NoneRunning(s);
      if s.pending[0] !in StageIds(s.plan) {
        CursorLawful(s, s.(pending := s.pending[1..]));
      } else {
        var s1 := s.(current := Some(s.pending[0]), pending := s.pending[1..], note := s.corrections > 0);
        CursorLawful(s, s1);
        RunCurrentLawful(s1, a);
        AfterSave(s, s1, RunCurrent(s1, a).effects);
      }
    } else {
      RunCurrentLawful(s, a);
    }
  }

  lemma NothingLawful(s: RunState)
    ensures Lawful(s, [])
  {
  }

  lemma CursorLawful(s: RunState, u: RunState)
    requires Numbered(s) && u.attempts == s.attempts && u.plan == s.plan
    requires forall id: string :: IsRunning(s, id) ==> u.current == Some(id)
    ensures Numbered(u) && Grows(s, u) && Lawful(s, [Save(u)])
  {
    NumberedFrame(s, u);
    SaveLawful(s, u);
  }

  // --- Whole histories --------------------------------------------------------

  lemma EventLawful(s: RunState, e: Event)
    requires Numbered(s)
    ensures Lawful(s, EventEffects(s, e))
  {
    match e
    case Step(a, n) =>
      AdvanceLawful(s, a);
      if n < |Advance(s, a).effects| {
        LawfulPrefix(s, Advance(s, a).effects, n);
      }
    case CancelRequest =>
      RunningIsCurrent(s);
      CursorLawful(s, RequestCancel(s));
  }

  lemma {:induction false} TraceLawful(s: RunState, events: seq<Event>)
    requires Numbered(s)
    ensures Lawful(s, Trace(s, events)) && Numbered(Now(s, events))
  {
    hide Lawful, Numbered, EventEffects;
    if events == [] {
      NothingLawful(s);
    } else {
      var before := events[..|events| - 1];
      TraceLawful(s, before);
      EventLawful(Now(s, before), events[|events| - 1]);
      LawfulAppend(s, Trace(s, before), EventEffects(Now(s, before), events[|events| - 1]));
    }
    LawfulNumbered(s, Trace(s, events));
  }

  /** Whatever the plan, the answers and the crashes: no attempt reaches an external executor twice. */
  lemma ExternalAtMostOnce(p: Plan, events: seq<Event>, i: nat, j: nat)
    requires var t := Trace(Submit(p), events); i < j < |t| && t[i].ExecuteCall? && t[j].ExecuteCall?
    ensures var t := Trace(Submit(p), events); t[i] != t[j]
  {
    SubmitSteady(p);
    TraceLawful(Submit(p), events);
    LawfulCallsOnce(Submit(p), Trace(Submit(p), events), i, j);
  }

  /** Attempts are numbered 1..n, and at most one attempt of the run is running: the last one of the
      current stage. */
  lemma OneRunningAttempt(p: Plan, events: seq<Event>)
    ensures var s := Now(Submit(p), events);
      forall id: string, i: int {:trigger Tries(s, id)[i]} | 0 <= i < |Tries(s, id)| ::
        && Tries(s, id)[i].num == i + 1
        && (Tries(s, id)[i].status.Running? ==> i == |Tries(s, id)| - 1 && s.current == Some(id))
  {
    SubmitSteady(p);
    TraceLawful(Submit(p), events);
  }

  lemma PlanKept(p: Plan, events: seq<Event>)
    ensures Now(Submit(p), events).plan == p
  {
    SubmitSteady(p);
    TraceLawful(Submit(p), events);
    DurableGrows(Submit(p), Trace(Submit(p), events), 0);
  }

  // --- Resuming without a handle ----------------------------------------------

  /** A running external attempt without a saved handle: resuming it never calls the provider again,
      and ends the run as unsafe exactly when its bindings still resolve. */
  lemma UnsafeResumeIff(s: RunState, a: Answers)
    requires Numbered(s) && !IsTerminal(s) && !(s.cancelIntent && !s.cancelled)
    requires CurrentRunning(s) && s.current.value in StageIds(s.plan)
    requires StageOf(s.plan, s.current.value).authority.External? && LastTry(s, s.current.value).handle.None?
    ensures var o := Advance(s, a);
      && (IsTerminal(o.final) && o.final.code == Some(UnsafeResume) <==> a.bindings)
      && forall i | 0 <= i < |o.effects| :: o.effects[i].Save?
  {
    hide Numbered, HandleFailure;
    var id := s.current.value;
    var st := StageOf(s.plan, id);
    var r := FailedReply(if a.bindings then UnsafeOutcome else OtherFailure);
    assert Advance(s, a) == Perform(s, st, true, a) == Record(s, st, r);
    var s1 := SetLast(s, id, Finished(LastTry(s, id), r));
    FailureCode(s1, st, r.failure);
  }

  lemma FailureCode(s: RunState, st: Stage, failure: Failure)
    requires !IsTerminal(s)
    ensures var o := HandleFailure(s, st, failure);
      && (IsTerminal(o.final) && o.final.code == Some(UnsafeResume) <==> failure.UnsafeOutcome?)
      && |o.effects| == 1 && o.effects[0].Save?
  {
  }

  // --- How many attempts a run can have ---------------------------------------

  ghost predicate SameLengths(f: RunState, s: RunState) {
    forall id: string :: |Tries(f, id)| == |Tries(s, id)|
  }

  /** Exactly one stage has exactly one attempt more. */
  ghost predicate OneMore(f: RunState, s: RunState) {
    exists id: string ::
      && |Tries(f, id)| == |Tries(s, id)| + 1
      && forall other: string :: other != id ==> |Tries(f, other)| == |Tries(s, other)|
  }

  lemma NextSame(s: RunState)
    ensures NextStage(s).final.attempts == s.attempts
  {
    hide FirstReady, AllWorkDone;
  }

  lemma FailureSame(s: RunState, st: Stage, failure: Failure)
    ensures HandleFailure(s, st, failure).final.attempts == s.attempts
  {
    hide Tries, MaxAttemptsOf;
  }

  lemma QcSame(s: RunState, v: Verdict)
    ensures HandleQc(s, v).final.attempts == s.attempts
  {
    hide NextStage, CorrectionLoop;
    NextSame(s);
  }

  lemma RecordSame(s: RunState, st: Stage, r: Reply)
    requires Tries(s, st.id) != []
    ensures SameLengths(Record(s, st, r).final, s)
  {
    hide HandleFailure, HandleQc, NextStage;
    var a := Finished(LastTry(s, st.id), r);
    var s1 := SetLast(s, st.id, a);
    RecordGrows(s, st.id, a);
    FailureSame(s1, st, OtherFailure);
    FailureSame(s1, st, r.failure);
    NextSame(s1);
    if r.verdict.Some? {
      QcSame(s1, r.verdict.value);
    }
  }

  lemma SettleSame(s: RunState, st: Stage, r: Reply)
    requires Tries(s, st.id) != []
    ensures SameLengths(Settle(s, st, r).final, s)
  {
    hide Record;
    RecordSame(s, st, r);
    RecordSame(s, st, FailedReply(UnsafeOutcome));
    if r.handle.GoodHandle? {
      RecordGrows(s, st.id, LastTry(s, st.id).(handle := Some(r.handle.text)));
    }
  }

  lemma PerformSame(s: RunState, st: Stage, resumed: bool, a: Answers)
    requires Tries(s, st.id) != []
    ensures SameLengths(Perform(s, st, resumed, a).final, s)
  {
    hide Settle;
    SettleSame(s, st, FailedReply(OtherFailure));
    SettleSame(s, st, FailedReply(UnsafeOutcome));
    SettleSame(s, st, a.external);
    if a.bindings && st.authority.Leaf? {
      var key := Key(st.id, LastTry(s, st.id).num);
      var k := FindChild(s, key, a.polls);
      var s2 := if k < |s.children| then Polled(s, k, a.poll) else Polled(WithChild(s, key, a.job), k, a.poll);
      assert s2.attempts == s.attempts;
      SettleSame(s2, st, LeafReply(a.poll));
    }
  }

  /** A step starts at most one attempt, and none while one is in flight. */
  lemma StepStarts(s: RunState, a: Answers)
    ensures var f := Advance(s, a).final;
      SameLengths(f, s) || (!CurrentRunning(s) && OneMore(f, s))
  {
    hide Perform, NextStage, IsBad, SameLengths, OneMore;
    Same(s, s);
    Same(s, Cascade(s, a).final);
    if !(s.cancelIntent && !s.cancelled) && !IsTerminal(s) {
      if s.pending != [] && !CurrentRunning(s) {
        if s.pending[0] in StageIds(s.plan) {
          var s1 := s.(current := Some(s.pending[0]), pending := s.pending[1..], note := s.corrections > 0);
          RunCurrentStarts(s1, a);
          SameThen(s, s1, RunCurrent(s1, a).final);
        } else {
          Same(s, Advance(s, a).final);
        }
      } else {
        RunCurrentStarts(s, a);
      }
    }
  }

  lemma Same(s: RunState, u: RunState)
    requires u.attempts == s.attempts
    ensures SameLengths(u, s)
  {
  }

  lemma SameThen(s: RunState, u: RunState, f: RunState)
    requires u.attempts == s.attempts
    ensures (SameLengths(f, u) ==> SameLengths(f, s)) && (OneMore(f, u) ==> OneMore(f, s))
  {
  }

  lemma RunCurrentStarts(s: RunState, a: Answers)
    ensures var f := RunCurrent(s, a).final;
      SameLengths(f, s) || (!CurrentRunning(s) && OneMore(f, s))
  {
    hide Perform, NextStage, IsBad, IsDone, SameLengths, OneMore, IsRunning;
    Same(s, Terminalize(s, Success).final);
    if s.current.Some? && s.current.value in StageIds(s.plan) {
      var id := s.current.value;
      var st := StageOf(s.plan, id);
      NextSame(s);
      Same(s, NextStage(s).final);
      if IsRunning(s, id) {
        RunningHasTries(s, id);
        PerformSame(s, st, true, a);
        if IsDone(s, id) {
          RunningNotDone(s, id);
        }
      } else {
        StartedGrows(s, id);
        PerformSame(Started(s, id), st, false, a);
        StartedThen(s, id, Perform(Started(s, id), st, false, a).final);
      }
    }
  }

  lemma RunningNotDone(s: RunState, id: string)
    ensures !(IsRunning(s, id) && IsDone(s, id))
  {
  }

  lemma StartedThen(s: RunState, id: string, f: RunState)
    requires SameLengths(f, Started(s, id))
    ensures OneMore(f, s)
  {
    StartedGrows(s, id);
  }

  /** Steps of a run that start an attempt. */
  ghost function StartingSteps(states: seq<RunState>): nat
    requires states != []
  {
    if |states| == 1 then 0
    else (if SameLengths(states[1], states[0]) then 0 else 1) + StartingSteps(states[1..])
  }

  /** Each start but the first needs a step that left nothing in flight. */
  lemma {:induction false} StartsNeedBusySteps(states: seq<RunState>, answers: seq<Answers>)
    requires IsRun(states, answers)
    ensures StartingSteps(states) <= BusySteps(states) + (if CurrentRunning(states[0]) then 0 else 1)
    decreases |answers|
  {
    hide Advance, SameLengths, OneMore, CurrentRunning;
    if |answers| > 0 {
      StepStarts(states[0], answers[0]);
      var t, b := states[1..], answers[1..];
      assert IsRun(t, b);
      StartsNeedBusySteps(t, b);
    }
  }

  /** The number of attempts in a run is bounded by the plan. */
  lemma AttemptsBounded(p: Plan, states: seq<RunState>, answers: seq<Answers>)
    requires IsRun(states, answers) && states[0] == Submit(p)
    ensures StartingSteps(states) <= RankOf(Submit(p)) + 2
  {
    SubmitSteady(p);
    RunsEnd(states, answers);
    StartsNeedBusySteps(states, answers);
  }
}
