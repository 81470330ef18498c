// The coordinator in its own form: run fields updated in place, a durable store that `Save` overwrites,
// and loops over stages, loops and children. Every method is proved against PipelineModel.

module PipelineCoordinator {
  import opened Common
  import opened PipelineModel
  import PipelineTermination
  import PipelineAttempts

  class Coordinator {
    const plan: Plan
    var status: RunStatus
    var code: Option<TerminalCode>
    var current: Option<string>
    var note: bool
    var attempts: map<string, seq<Attempt>>
    var corrections: nat
    var iterations: map<string, nat>
    var pending: seq<string>
    var children: seq<Child>
    var cancelled: bool
    var cancelIntent: bool

    /** The durable store, the run as first saved, and everything that happened since. */
    var saved: RunState
    ghost const first: RunState
    ghost var log: seq<Effect>

    /** The run held in memory. */
    function State(): RunState
      reads this
    {
      RunState(plan, status, code, current, note, attempts, corrections, iterations, pending, children,
               cancelled, cancelIntent)
    }

    /** The store is what the log leaves behind. */
    ghost predicate Valid()
      reads this`saved, this`log
    {
      saved == Durable(first, log) && saved.plan == plan
    }

    /** From the log as it was, exactly the effects of the outcome happened. */
    ghost predicate Did(before: seq<Effect>, o: Outcome)
      reads this
    {
      State() == o.final && log == before + o.effects
    }

    lemma DidAfter(before: seq<Effect>, more: seq<Effect>, o: Outcome)
      requires Did(before + more, o)
      ensures Did(before, After(more, o))
    {
      assert before + more + o.effects == before + (more + o.effects);
    }

    lemma DidNothing()
      ensures Did(log, Outcome([], State()))
    {
    }

    lemma DidSave(before: seq<Effect>)
      requires log == before + [Effect.Save(State())]
      ensures Did(before, Saved(State()))
    {
    }

    lemma DidLog(before: seq<Effect>, o: Outcome)
      requires Did(before, o)
      ensures log == before + o.effects
    {
    }

    /** `submit` */
    constructor (p: Plan)
      ensures Valid() && first == Submit(p) && log == [] && saved == State() == Submit(p)
    {
      plan := p;
      status, code, current, note := Active, None, None, false;
      attempts, corrections, iterations, pending, children := map[], 0, map[], [], [];
      cancelled, cancelIntent := false, false;
      saved := RunState(p, Active, None, None, false, map[], 0, map[], [], [], false, false);
      first := Submit(p);
      log := [];
      new;
      var id := FirstReadyStage();
      current := id;
      saved := State();
    }

    method Save()
      requires Valid()
      modifies this`saved, this`log
      ensures Valid() && saved == State() && log == old(log) + [Effect.Save(State())]
    {
      saved := State();
      log := log + [Effect.Save(saved)];
    }

    /** Reread the run at the start of a step. */
    method Load()
      requires Valid()
      modifies this
      ensures Valid() && State() == saved == old(saved) && log == old(log)
    {
      hide Durable;
      status, code, current, note, attempts, corrections, iterations, pending, children, cancelled, cancelIntent :=
        saved.status, saved.code, saved.current, saved.note, saved.attempts, saved.corrections, saved.iterations,
        saved.pending, saved.children, saved.cancelled, saved.cancelIntent;
    }

    ghost method Note(e: Effect)
      requires Valid() && !e.Save?
      modifies this`log
      ensures Valid() && log == old(log) + [e]
    {
      log := log + [e];
    }

    // --- Searches -------------------------------------------------------------

    /** `_first_ready_stage_id` */
    method FirstReadyStage() returns (r: Option<string>)
      ensures r == FirstReady(State())
    {
      var i := 0;
      while i < |plan.stages|
        invariant 0 <= i <= |plan.stages|
        invariant FirstReady(State()) == FirstReadyIn(State(), plan.stages[i..])
      {
        var st := StageOf(plan, plan.stages[i].id);
        if st.kind != Correct && Ready(State(), st) {
          return Some(st.id);
        }
        assert plan.stages[i..][1..] == plan.stages[i + 1..];
        i := i + 1;
      }
      return None;
    }

    method AllDone() returns (r: bool)
      ensures r == AllWorkDone(State())
    {
      var i := 0;
      while i < |plan.stages|
        invariant 0 <= i <= |plan.stages|
        invariant forall k | 0 <= k < i ::
          plan.stages[k].enabled && plan.stages[k].kind != Correct ==> IsDone(State(), plan.stages[k].id)
      {
        if plan.stages[i].enabled && plan.stages[i].kind != Correct && !IsDone(State(), plan.stages[i].id) {
          return false;
        }
        i := i + 1;
      }
      return true;
    }

    method FindLoop(trigger: string) returns (r: Option<Loop>)
      ensures r == LoopFor(plan.loops, trigger)
    {
      var i := 0;
      while i < |plan.loops|
        invariant 0 <= i <= |plan.loops|
        invariant LoopFor(plan.loops, trigger) == LoopFor(plan.loops[i..], trigger)
      {
        if plan.loops[i].trigger == trigger {
          return Some(plan.loops[i]);
        }
        assert plan.loops[i..][1..] == plan.loops[i + 1..];
        i := i + 1;
      }
      return None;
    }

    method FindCorrect() returns (r: Option<string>)
      ensures r == FirstCorrect(plan.stages)
    {
      var i := 0;
      while i < |plan.stages|
        invariant 0 <= i <= |plan.stages|
        invariant FirstCorrect(plan.stages) == FirstCorrect(plan.stages[i..])
      {
        if plan.stages[i].kind == Correct {
          return Some(plan.stages[i].id);
        }
        assert plan.stages[i..][1..] == plan.stages[i + 1..];
        i := i + 1;
      }
      return None;
    }

    method SearchKey(key: Key) returns (k: nat)
      ensures k == FindKey(children, key)
    {
      k := |children|;
      assert children[..k] == children;
      while k > 0
        invariant k <= |children|
        invariant FindKey(children, key) == var r := FindKey(children[..k], key); if r == k then |children| else r
      {
        var c := children[k - 1];
        assert children[..k][..k - 1] == children[..k - 1];
        if c.stage == key.stage && c.key == key && !c.cancelled {
          return k - 1;
        }
        k := k - 1;
      }
      k := |children|;
    }

    method SearchReusable(stage: string, polls: map<string, JobStatus>) returns (k: nat)
      ensures k == FindReusable(children, stage, polls)
    {
      hide Reusable;
      k := |children|;
      assert children[..k] == children;
      while k > 0
        invariant k <= |children|
        invariant FindReusable(children, stage, polls)
          == var r := FindReusable(children[..k], stage, polls); if r == k then |children| else r
      {
        assert children[..k][..k - 1] == children[..k - 1];
        if Reusable(children[k - 1], stage, polls) {
          return k - 1;
        }
        k := k - 1;
      }
      k := |children|;
    }

    /** The newest child with the key, or else the newest one of the stage that answers alive. */
    method SearchChild(key: Key, polls: map<string, JobStatus>) returns (k: nat)
      ensures k == FindChild(State(), key, polls)
    {
      k := SearchKey(key);
      if k == |children| {
        k := SearchReusable(key.stage, polls);
      }
    }

    // --- Ends of a step -------------------------------------------------------

    method Terminalize(c: TerminalCode)
      requires Valid()
      modifies this
      ensures Valid()
      ensures Did(old(log), PipelineModel.Terminalize(old(State()), c))
    {
      hide Durable;
      if status != Active {
        assert log + [] == log;
        return;
      }
      status := StatusOf(c);
      code := Some(c);
      Save();
    }

    /** `_advance_to_next_stage` */
    method AdvanceToNextStage()
      requires Valid()
      modifies this
      ensures Valid()
      ensures Did(old(log), NextStage(old(State())))
    {
      hide Durable;
      if pending != [] {
        current := None;
        Save();
        return;
      }
      var next := FirstReadyStage();
      if next.None? {
        var done := AllDone();
        Terminalize(if done then Success else CoordinatorError);
        return;
      }
      if next != current {
        current := next;
        note := false;
      }
      Save();
    }

    /** The loop a failed QC stage enters. */
    method FindCorrection(qc: string) returns (r: Option<Loop>)
      ensures r == CorrectionLoop(plan, qc)
    {
      hide LoopFor, FirstCorrect;
      r := FindLoop(qc);
      if r.None? {
        var correct := FindCorrect();
        if correct.Some? {
          r := Some(Loop(correct.value, qc, correct.value, [], plan.maxCorrections));
        }
      }
    }

    /** `_handle_qc_result` */
    method HandleQcResult(v: Verdict)
      requires Valid()
      modifies this
      ensures Valid()
      ensures Did(old(log), HandleQc(old(State()), v))
    {
      hide NextStage, CorrectionLoop, Durable;
      if v.passed {
        AdvanceToNextStage();
        return;
      }
      var entry := FindCorrection(v.stage);
      if entry.None? {
        Terminalize(QcExhausted);
        return;
      }
      var l := entry.value;
      var n := IterationsOf(State(), l.id);
      if n >= l.maxIterations {
        Terminalize(QcExhausted);
        return;
      }
      iterations := iterations[l.id := n + 1];
      ScheduleLoop(l);
    }

    /** Count the correction and queue the stages of the loop. */
    method ScheduleLoop(l: Loop)
      requires Valid()
      modifies this
      ensures Valid()
      ensures Did(old(log), Saved(old(State()).(corrections := old(corrections) + 1,
                                   pending := [l.correction] + l.onCorrection, current := None, note := true)))
    {
      hide Durable;
      corrections := corrections + 1;
      pending := [l.correction] + l.onCorrection;
      current := None;
      note := true;
      Save();
    }

    /** `_handle_stage_failure` */
    method HandleStageFailure(st: Stage, failure: Failure)
      requires Valid()
      modifies this
      ensures Valid()
      ensures Did(old(log), HandleFailure(old(State()), st, failure))
    {
      hide Durable;
      if failure.UnsafeOutcome? {
        Terminalize(UnsafeResume);
        return;
      }
      var t := Tries(State(), st.id);
      var attempt := if t == [] then 1 else t[|t| - 1].num;
      if attempt < MaxAttemptsOf(st) {
        current := Some(st.id);
        note := true;
        Save();
        return;
      }
      Terminalize(if st.kind == Generate then LeafError else if failure.TimedOut? then ProviderTimeout else ProviderError);
    }

    // --- Running a stage ------------------------------------------------------

    method SetLastAttempt(id: string, a: Attempt)
      requires Valid() && Tries(State(), id) != []
      modifies this`attempts
      ensures Valid() && State() == SetLast(old(State()), id, a)
    {
      hide Durable;
      var t := Tries(State(), id);
      attempts := attempts[id := t[..|t| - 1] + [a]];
    }

    /** The part of `advance` that records a finished attempt. */
    method RecordResult(st: Stage, r: Reply)
      requires Valid() && Tries(State(), st.id) != []
      modifies this
      ensures Valid()
      ensures Did(old(log), Record(old(State()), st, r))
    {
      hide Durable;
      SetLastAttempt(st.id, Finished(LastTry(State(), st.id), r));
      Save();
      if r.handle.BadHandle? {
        HandleStageFailure(st, OtherFailure);
      } else if r.status.ReplyFailed? {
        HandleStageFailure(st, r.failure);
      } else if r.verdict.Some? && st.kind == Qc {
        HandleQcResult(r.verdict.value);
      } else {
        AdvanceToNextStage();
      }
    }

    method SettleResult(st: Stage, r: Reply)
      requires Valid() && Tries(State(), st.id) != []
      modifies this
      ensures Valid()
      ensures Did(old(log), Settle(old(State()), st, r))
    {
      hide Durable;
      if !r.status.ReplyWaiting? {
        RecordResult(st, r);
      } else if st.authority.External? {
        if r.handle.GoodHandle? {
          SetLastAttempt(st.id, LastTry(State(), st.id).(handle := Some(r.handle.text)));
          Save();
        } else {
          RecordResult(st, FailedReply(UnsafeOutcome));
        }
      } else {
        Save();
      }
    }

    /** `_execute_leaf` */
    method ExecuteLeaf(st: Stage, a: Answers)
      requires Valid() && Tries(State(), st.id) != []
      modifies this
      ensures Valid()
      ensures Did(old(log), RunLeaf(old(State()), st, a))
    {
      hide Settle, FindChild, Did, Durable;
      ghost var l0, s0 := log, State();
      var key := Key(st.id, LastTry(State(), st.id).num);
      var k := SearchChild(key, a.polls);
      if k == |children| {
        Note(SubmitCall(key));
        children := children + [Child(a.job, st.id, key, JobWaiting, false)];
        assert State() == WithChild(s0, key, a.job);
        Save();
      }
      children := children[k := children[k].(status := JobOf(a.poll.status))];
      Save();
      ghost var more := if k < |s0.children| then [Effect.Save(State())]
                        else [SubmitCall(key), Effect.Save(WithChild(s0, key, a.job)), Effect.Save(State())];
      assert log == l0 + more;
      ghost var o := Settle(State(), st, LeafReply(a.poll));
      SettleResult(st, LeafReply(a.poll));
      DidAfter(l0, more, o);
    }

    method PerformStage(st: Stage, resumed: bool, a: Answers)
      requires Valid() && Tries(State(), st.id) != []
      modifies this
      ensures Valid()
      ensures Did(old(log), Perform(old(State()), st, resumed, a))
    {
      hide Settle, RunLeaf, Did, Durable;
      ghost var l0, s0 := log, State();
      if !a.bindings {
        SettleResult(st, FailedReply(OtherFailure));
      } else if st.authority.External? {
        var last := LastTry(State(), st.id);
        if !resumed {
          Note(ExecuteCall(st.id, last.num));
          SettleResult(st, a.external);
          DidAfter(l0, [ExecuteCall(st.id, last.num)], Settle(s0, st, a.external));
        } else if last.handle.Some? {
          Note(PollCall(st.id, last.num));
          SettleResult(st, a.external);
          DidAfter(l0, [PollCall(st.id, last.num)], Settle(s0, st, a.external));
        } else {
          SettleResult(st, FailedReply(UnsafeOutcome));
        }
      } else if st.authority.Leaf? {
        ExecuteLeaf(st, a);
      } else {
        SettleResult(st, FailedReply(OtherFailure));
      }
    }

    /** The step from the resolved cursor on. */
    method RunStage(a: Answers)
      requires Valid()
      modifies this
      ensures Valid()
      ensures Did(old(log), RunCurrent(old(State()), a))
    {
      hide Perform, NextStage, Did, IsDone, IsBad, IsRunning, StageOf, Durable;
      ghost var l0, s0 := log, State();
      if current.None? || current.value !in StageIds(plan) {
        Terminalize(Success);
        return;
      }
      var id := current.value;
      var st := StageOf(plan, id);
      if IsDone(State(), id) && !IsBad(State(), id) && !(corrections > 0 && note) {
        AdvanceToNextStage();
      } else if IsRunning(State(), id) {
        PipelineTermination.RunningHasTries(State(), id);
        PerformStage(st, true, a);
      } else {
        var t := Tries(State(), id);
        attempts := attempts[id := t + [Attempt(|t| + 1, Running, None, None)]];
        ghost var s1 := Started(s0, id);
        assert State() == s1;
        Save();
        PerformStage(st, false, a);
        DidAfter(l0, [Effect.Save(s1)], Perform(s1, st, false, a));
      }
    }

    /** Ask every unsettled child to stop; tell whether some did not. */
    method StopChildren(stops: map<string, bool>) returns (unresolved: bool)
      modifies this`children
      ensures children == StopAll(old(children), stops)
      ensures unresolved == exists i | 0 <= i < |old(children)| :: Unstopped(old(children)[i], stops)
    {
      ghost var cs := children;
      var i := 0;
      unresolved := false;
      while i < |children|
        invariant 0 <= i <= |children| == |cs|
        invariant forall k | 0 <= k < i :: children[k] == StopChild(cs[k], stops)
        invariant forall k | i <= k < |cs| :: children[k] == cs[k]
        invariant unresolved == exists k | 0 <= k < i :: Unstopped(cs[k], stops)
      {
        unresolved := unresolved || Unstopped(children[i], stops);
        children := children[i := StopChild(children[i], stops)];
        i := i + 1;
      }
    }

    /** `_cascade_cancellation` */
    method CascadeCancellation(a: Answers)
      requires Valid()
      modifies this
      ensures Valid()
      ensures Did(old(log), Cascade(old(State()), a))
    {
      hide ExternalActive, Unstopped, Durable;
      var external := ExternalActive(State()) && !a.externalStops;
      var leaf := StopChildren(a.leafStops);
      cancelled := true;
      cancelIntent := false;
      Terminalize(if external || leaf then UnsafeResume else CoordinatorCancelled);
    }

    /** `advance`: one step from the durable state. */
    method Step(a: Answers)
      requires Valid()
      modifies this
      ensures Valid()
      ensures Did(old(log), Advance(old(saved), a)) && saved == Durable(old(saved), Advance(old(saved), a).effects)
    {
      hide RunCurrent, Cascade, Did, CurrentRunning, Durable, StageIds;
      ghost var s0, l0 := saved, log;
      Load();
      if cancelIntent && !cancelled {
        CascadeCancellation(a);
      } else if status != Active {
        DidNothing();
      } else if pending != [] && !CurrentRunning(State()) {
        if pending[0] !in StageIds(plan) {
          pending := pending[1..];
          Save();
          DidSave(l0);
        } else {
          current := Some(pending[0]);
          pending := pending[1..];
          note := corrections > 0;
          ghost var s1 := State();
          Save();
          RunStage(a);
          DidAfter(l0, [Effect.Save(s1)], RunCurrent(s1, a));
        }
      } else {
        RunStage(a);
      }
      DidLog(l0, Advance(s0, a));
      PipelineAttempts.DurableAppend(first, l0, Advance(s0, a).effects);
    }

    /** `request_cancellation` on the durable state. */
    method RequestCancellation() returns (ok: bool)
      requires Valid()
      modifies this
      ensures Valid() && saved == RequestCancel(old(saved)) && ok == !IsTerminal(old(saved))
    {
      hide Durable;
      Load();
      if status != Active {
        return false;
      }
      cancelIntent := true;
      Save();
      return true;
    }
  }
}
