// An advance persists its result before it returns, and a terminal run never changes again.

module PipelinePersistence {
  import opened Common
  import opened PipelineModel
  import opened PipelineTermination
  import opened PipelineAttempts

  /** What the outcome returns is what it left in the store. */
  ghost predicate Persisted(s: RunState, o: Outcome) {
    Durable(s, o.effects) == o.final
  }

  lemma AfterPersisted(s: RunState, before: seq<Effect>, u: RunState, o: Outcome)
    requires Durable(s, before) == u && Persisted(u, o)
    ensures Persisted(s, After(before, o))
  {
    DurableAppend(s, before, o.effects);
  }

  lemma EndsPersisted(s: RunState, st: Stage, failure: Failure, v: Verdict)
    ensures Persisted(s, NextStage(s)) && Persisted(s, HandleFailure(s, st, failure)) && Persisted(s, HandleQc(s, v))
  {
    hide FirstReady, AllWorkDone, CorrectionLoop, Tries, MaxAttemptsOf;
    NextPersisted(s);
    FailurePersisted(s, st, failure);
    QcPersisted(s, v);
  }

  lemma NextPersisted(s: RunState)
    ensures Persisted(s, NextStage(s))
  {
    hide FirstReady, AllWorkDone;
  }

  lemma FailurePersisted(s: RunState, st: Stage, failure: Failure)
    ensures Persisted(s, HandleFailure(s, st, failure))
  {
    hide Tries, MaxAttemptsOf;
  }

  lemma QcPersisted(s: RunState, v: Verdict)
    ensures Persisted(s, HandleQc(s, v))
  {
    hide NextStage, CorrectionLoop;
    NextPersisted(s);
  }

  lemma RecordPersisted(s: RunState, st: Stage, r: Reply)
    requires Tries(s, st.id) != []
    ensures Persisted(s, Record(s, st, r))
  {
    hide NextStage, HandleQc, HandleFailure, Persisted;
    var s1 := SetLast(s, st.id, Finished(LastTry(s, st.id), r));
    var v := if r.verdict.Some? then r.verdict.value else Verdict("", true);
    EndsPersisted(s1, st, OtherFailure, v);
    EndsPersisted(s1, st, r.failure, v);
    var rest := if r.handle.BadHandle? then HandleFailure(s1, st, OtherFailure)
      else if r.status.ReplyFailed? then HandleFailure(s1, st, r.failure)
      else if r.verdict.Some? && st.kind == Qc then HandleQc(s1, r.verdict.value)
      else NextStage(s1);
    AfterPersisted(s, [Save(s1)], s1, rest);
  }

  lemma SettlePersisted(s: RunState, st: Stage, r: Reply)
    requires Tries(s, st.id) != []
    ensures Persisted(s, Settle(s, st, r))
  {
    hide Record, Tries;
    RecordPersisted(s, st, r);
    RecordPersisted(s, st, FailedReply(UnsafeOutcome));
  }

  lemma PerformPersisted(s: RunState, st: Stage, resumed: bool, a: Answers)
    requires Tries(s, st.id) != []
    ensures Persisted(s, Perform(s, st, resumed, a))
  {
    hide Settle, Persisted, FindChild;
    var n := LastTry(s, st.id).num;
    SettlePersisted(s, st, FailedReply(OtherFailure));
    SettlePersisted(s, st, FailedReply(UnsafeOutcome));
    SettlePersisted(s, st, a.external);
    QuietDurable(s, ExecuteCall(st.id, n));
    QuietDurable(s, PollCall(st.id, n));
    AfterPersisted(s, [ExecuteCall(st.id, n)], s, Settle(s, st, a.external));
    AfterPersisted(s, [PollCall(st.id, n)], s, Settle(s, st, a.external));
    var key := Key(st.id, n);
    var k := FindChild(s, key, a.polls);
    if k < |s.children| {
      var s1 := Polled(s, k, a.poll);
      SettlePersisted(s1, st, LeafReply(a.poll));
      AfterPersisted(s, [Save(s1)], s1, Settle(s1, st, LeafReply(a.poll)));
    } else {
      var s1 := WithChild(s, key, a.job);
      var s2 := Polled(s1, k, a.poll);
      SettlePersisted(s2, st, LeafReply(a.poll));
      AfterPersisted(s, [SubmitCall(key), Save(s1), Save(s2)], s2, Settle(s2, st, LeafReply(a.poll)));
    }
  }

  lemma QuietDurable(s: RunState, e: Effect)
    requires !e.Save?
    ensures Durable(s, [e]) == s
  {
    assert [e][..0] == [];
  }

  lemma RunCurrentPersisted(s: RunState, a: Answers)
    ensures Persisted(s, RunCurrent(s, a))
  {
    hide Perform, NextStage, Persisted, IsDone, IsBad, IsRunning;
    TerminalizePersisted(s);
    if s.current.Some? && s.current.value in StageIds(s.plan) {
      var id := s.current.value;
      var st := StageOf(s.plan, id);
      NextPersisted(s);
      if IsRunning(s, id) {
        RunningHasTries(s, id);
        PerformPersisted(s, st, true, a);
      } else {
        var s1 := Started(s, id);
        StartedGrows(s, id);
        PerformPersisted(s1, st, false, a);
        AfterPersisted(s, [Save(s1)], s1, Perform(s1, st, false, a));
      }
    }
  }

  lemma TerminalizePersisted(s: RunState)
    ensures Persisted(s, Terminalize(s, Success))
  {
  }

  /** Whoever reads the store after an advance of a run in progress finds what the advance returned. */
  lemma AdvancePersists(s: RunState, a: Answers)
    requires !IsTerminal(s)
    ensures Durable(s, Advance(s, a).effects) == Advance(s, a).final
  {
    hide RunCurrent, CurrentRunning;
    if !(s.cancelIntent && !s.cancelled) {
      RunCurrentPersisted(s, a);
      if s.pending != [] {
        var s1 := s.(current := Some(s.pending[0]), pending := s.pending[1..], note := s.corrections > 0);
        RunCurrentPersisted(s1, a);
        AfterPersisted(s, [Save(s1)], s1, RunCurrent(s1, a));
      }
    }
  }

  /** A terminal run never changes again, whatever is asked of it. */
  lemma {:induction false} TerminalForever(s: RunState, events: seq<Event>)
    requires IsTerminal(s)
    ensures Now(s, events) == s
  {
    if events != [] {
      var n := |events| - 1;
      TerminalForever(s, events[..n]);
      TerminalEvent(s, events[n]);
      DurableAppend(s, Trace(s, events[..n]), EventEffects(s, events[n]));
    }
  }

  lemma TerminalEvent(s: RunState, e: Event)
    requires IsTerminal(s)
    ensures EventEffects(s, e) == []
  {
  }
}
