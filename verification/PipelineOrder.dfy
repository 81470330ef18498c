// The order in which stages start: dependencies first until a correction begins.

module PipelineOrder {
  import opened Common
  import opened PipelineModel
  import opened PipelineTermination
  import opened PipelineAttempts
  import opened PipelineMoves
  import opened PipelineProgress

  /** The effect starts an attempt of the stage, or hands it to a provider. */
  predicate Starts(s: RunState, e: Effect, id: string) {
    match e
    case Save(u) => |Tries(u, id)| > |Tries(s, id)|
    case ExecuteCall(stage, _) => stage == id
    case SubmitCall(key) => key.stage == id
    case PollCall(_, _) => false
  }

  /** No effect starts any other stage. */
  ghost predicate Confined(s: RunState, es: seq<Effect>, id: string) {
    forall i: nat, other: string {:trigger Starts(s, es[i], other)} ::
      i < |es| && Starts(s, es[i], other) ==> other == id
  }

  lemma ConfinedAfter(s: RunState, before: seq<Effect>, es: seq<Effect>, id: string)
    requires Confined(s, before, id) && Confined(s, es, id)
    ensures Confined(s, before + es, id)
  {
    hide Starts;
    var all := before + es;
    forall i: nat, other: string | i < |all| && Starts(s, all[i], other) ensures other == id {
      if i < |before| {
        assert all[i] == before[i];
      } else {
        assert all[i] == es[i - |before|];
      }
    }
  }

  /** Other stages have no more attempts in u than in s. */
  ghost predicate OthersSame(s: RunState, u: RunState, id: string) {
    forall other: string :: other != id ==> |Tries(u, other)| == |Tries(s, other)|
  }

  lemma ConfinedFrom(s: RunState, u: RunState, es: seq<Effect>, id: string)
    requires Confined(u, es, id) && OthersSame(s, u, id)
    ensures Confined(s, es, id)
  {
    forall i: nat, other: string | i < |es| && Starts(s, es[i], other) ensures other == id {
      if other != id {
        assert Starts(u, es[i], other);
      }
    }
  }

  lemma SaveConfined(s: RunState, u: RunState, id: string)
    requires OthersSame(s, u, id)
    ensures Confined(s, [Save(u)], id)
  {
  }

  lemma EndsConfined(s: RunState, es: seq<Effect>, id: string)
    requires Ends(s, es)
    ensures Confined(s, es, id)
  {
    if es != [] {
      SameAttempts(s, es[0].state);
    }
  }

  lemma RecordConfined(s: RunState, st: Stage, r: Reply)
    requires Tries(s, st.id) != []
    ensures Confined(s, Record(s, st, r).effects, st.id)
  {
    hide HandleQc, NextStage, Confined;
    var a := Finished(LastTry(s, st.id), r);
    var s1 := SetLast(s, st.id, a);
    OthersKeep(s, st.id, a);
    SaveConfined(s, s1, st.id);
    var rest := if r.handle.BadHandle? then HandleFailure(s1, st, OtherFailure)
      else if r.status.ReplyFailed? then HandleFailure(s1, st, r.failure)
      else if r.verdict.Some? && st.kind == Qc then HandleQc(s1, r.verdict.value)
      else NextStage(s1);
    NextStageEnds(s1);
    if r.verdict.Some? {
      HandleQcEnds(s1, r.verdict.value);
    }
    EndsConfined(s1, rest.effects, st.id);
    ConfinedFrom(s, s1, rest.effects, st.id);
    ConfinedAfter(s, [Save(s1)], rest.effects, st.id);
  }

  lemma SettleConfined(s: RunState, st: Stage, r: Reply)
    requires Tries(s, st.id) != []
    ensures Confined(s, Settle(s, st, r).effects, st.id)
  {
    hide Record, Confined;
    RecordConfined(s, st, r);
    RecordConfined(s, st, FailedReply(UnsafeOutcome));
    SaveConfined(s, s, st.id);
    if r.handle.GoodHandle? {
      var a := LastTry(s, st.id).(handle := Some(r.handle.text));
      OthersKeep(s, st.id, a);
      SaveConfined(s, SetLast(s, st.id, a), st.id);
    }
  }

  lemma CallConfined(s: RunState, e: Effect, id: string)
    requires match e { case Save(_) => false case ExecuteCall(stage, _) => stage == id case SubmitCall(key) => key.stage == id case PollCall(_, _) => true }
    ensures Confined(s, [e], id)
  {
  }

  lemma PerformConfined(s: RunState, st: Stage, resumed: bool, a: Answers)
    requires Tries(s, st.id) != []
    ensures Confined(s, Perform(s, st, resumed, a).effects, st.id)
  {
    hide Settle, Confined, RunLeaf;
    var n := LastTry(s, st.id).num;
    SettleConfined(s, st, FailedReply(OtherFailure));
    SettleConfined(s, st, FailedReply(UnsafeOutcome));
    SettleConfined(s, st, a.external);
    CallConfined(s, ExecuteCall(st.id, n), st.id);
    CallConfined(s, PollCall(st.id, n), st.id);
    ConfinedAfter(s, [ExecuteCall(st.id, n)], Settle(s, st, a.external).effects, st.id);
    ConfinedAfter(s, [PollCall(st.id, n)], Settle(s, st, a.external).effects, st.id);
    LeafConfined(s, st, a);
  }

  lemma LeafConfined(s: RunState, st: Stage, a: Answers)
    requires Tries(s, st.id) != []
    ensures Confined(s, RunLeaf(s, st, a).effects, st.id)
  {
    hide Settle, Confined, FindChild;
    var key := Key(st.id, LastTry(s, st.id).num);
    var k := FindChild(s, key, a.polls);
    var s1 := if k < |s.children| then Polled(s, k, a.poll) else WithChild(s, key, a.job);
    var s2 := if k < |s.children| then s1 else Polled(s1, k, a.poll);
    SaveConfined(s, s1, st.id);
    SaveConfined(s, s2, st.id);
    SettleConfined(s2, st, LeafReply(a.poll));
    var es := Settle(s2, st, LeafReply(a.poll)).effects;
    ConfinedFrom(s, s2, es, st.id);
    CallConfined(s, SubmitCall(key), st.id);
    ConfinedAfter(s, [Save(s2)], es, st.id);
    ConfinedAfter(s, [Save(s1)], [Save(s2)] + es, st.id);
    ConfinedAfter(s, [SubmitCall(key)], [Save(s1)] + ([Save(s2)] + es), st.id);
    assert [SubmitCall(key), Save(s1), Save(s2)] + es == [SubmitCall(key)] + ([Save(s1)] + ([Save(s2)] + es));
  }

  lemma RunCurrentConfined(s: RunState, a: Answers)
    requires s.current.Some? && s.current.value in StageIds(s.plan)
    ensures Confined(s, RunCurrent(s, a).effects, s.current.value)
  {
    hide Perform, NextStage, Confined, IsDone, IsBad, IsRunning;
    var id := s.current.value;
    NextStageEnds(s);
    EndsConfined(s, NextStage(s).effects, id);
    if IsRunning(s, id) {
      RunningHasTries(s, id);
      PerformConfined(s, StageOf(s.plan, id), true, a);
    } else {
      var s1 := Started(s, id);
      StartedGrows(s, id);
      PerformConfined(s1, StageOf(s.plan, id), false, a);
      SaveConfined(s, s1, id);
      ConfinedFrom(s, s1, Perform(s1, StageOf(s.plan, id), false, a).effects, id);
      ConfinedAfter(s, [Save(s1)], Perform(s1, StageOf(s.plan, id), false, a).effects, id);
    }
  }

  lemma NoCursorStarts(s: RunState, a: Answers, i: nat, id: string)
    requires s.current.None? && i < |RunCurrent(s, a).effects|
    ensures !Starts(s, RunCurrent(s, a).effects[i], id)
  {
    SameAttempts(s, Terminalize(s, Success).final);
  }

  /** Before the first correction, whatever an advance starts has all its dependencies done. */
  lemma StartsInOrder(s: RunState, rank: map<string, nat>, a: Answers, i: nat, id: string)
    requires Progress(s, rank) && s.corrections == 0 && i < |Advance(s, a).effects| && Starts(s, Advance(s, a).effects[i], id)
    ensures id in StageIds(s.plan) && DepsDone(s, StageOf(s.plan, id))
  {
    hide RunCurrent, Numbered, Dag, Lands, DepsDone, RequiredDone, Unjudged, CurrentRunning;
    if s.cancelIntent && !s.cancelled {
      SameAttempts(s, Cascade(s, a).final);
      assert false;
    } else if !IsTerminal(s) {
      if s.current.None? {
        NoCursorStarts(s, a, i, id);
      } else {
        RunCurrentConfined(s, a);
      }
    }
  }

  lemma SurvivingEffect(s: RunState, e: Event, i: nat)
    requires e.Step? && i < |EventEffects(s, e)|
    ensures i < |Advance(s, e.answers).effects| && EventEffects(s, e)[i] == Advance(s, e.answers).effects[i]
  {
    hide Advance;
  }

  /** Until a run enters a correction, its history starts stages in topological order. */
  lemma TopologicalOrder(p: Plan, rank: map<string, nat>, events: seq<Event>, n: nat, i: nat, id: string)
    requires Dag(p, rank) && Lands(p) && n < |events| && events[n].Step?
    requires var s := Now(Submit(p), events[..n]);
      s.corrections == 0 && i < |EventEffects(s, events[n])| && Starts(s, EventEffects(s, events[n])[i], id)
    ensures var s := Now(Submit(p), events[..n]);
      && s.plan == p && id in StageIds(p)
      && forall k | 0 <= k < |StageOf(p, id).dependsOn| ::
           var d := StageOf(p, id).dependsOn[k];
           d in StageIds(p) && (StageOf(p, d).enabled ==> IsDone(s, d))
  {
    hide Progress, Dag, Lands, Starts, Advance, EventEffects, Trace, Durable, IsDone, Submit;
    HistoryProgress(p, rank, events[..n]);
    var s := Now(Submit(p), events[..n]);
    SurvivingEffect(s, events[n], i);
    StartsInOrder(s, rank, events[n].answers, i, id);
  }
}
