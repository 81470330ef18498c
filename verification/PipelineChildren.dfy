// Child jobs: one live child a stage, one child a key, and what `cancelled` means for them.

module PipelineChildren {
  import opened Common
  import opened PipelineModel
  import opened PipelineTermination
  import opened PipelineAttempts

  // --- What a step does to the children ---------------------------------------

  /** All saves leave the children alone and cancel nothing. */
  ghost predicate Keeps(s: RunState, es: seq<Effect>) {
    forall i | 0 <= i < |es| && es[i].Save? ::
      es[i].state.children == s.children && (es[i].state.status.Cancelled? ==> s.status.Cancelled?)
  }

  lemma RecordKeepsChildren(s: RunState, st: Stage, r: Reply)
    requires Tries(s, st.id) != []
    ensures Keeps(s, Record(s, st, r).effects)
  {
    hide HandleQc, NextStage, Tries;
    var s1 := SetLast(s, st.id, Finished(LastTry(s, st.id), r));
    NextStageEnds(s1);
    if r.verdict.Some? {
      HandleQcEnds(s1, r.verdict.value);
    }
    assert s1.children == s.children && s1.status == s.status;
  }

  lemma SettleKeepsChildren(s: RunState, st: Stage, r: Reply)
    requires Tries(s, st.id) != []
    ensures Keeps(s, Settle(s, st, r).effects)
  {
    hide Record, Tries;
    RecordKeepsChildren(s, st, r);
    RecordKeepsChildren(s, st, FailedReply(UnsafeOutcome));
  }

  /** The same jobs under the same keys; statuses may differ. */
  predicate SameJobs(cs: seq<Child>, ds: seq<Child>) {
    && |cs| == |ds|
    && forall i | 0 <= i < |cs| :: cs[i].job == ds[i].job && cs[i].stage == ds[i].stage && cs[i].key == ds[i].key
         && cs[i].cancelled == ds[i].cancelled
  }

  /** A child was added because no child had its key and none of its stage answered alive. */
  predicate Added(cs: seq<Child>, ds: seq<Child>, a: Answers) {
    && |ds| == |cs| + 1 && SameJobs(ds[..|cs|], cs)
    && var c := ds[|cs|];
      && c.job == a.job && c.key.stage == c.stage && !c.cancelled
      && (forall i | 0 <= i < |cs| :: !(cs[i].stage == c.stage && cs[i].key == c.key && !cs[i].cancelled))
      && (forall i | 0 <= i < |cs| :: !Reusable(cs[i], c.stage, a.polls))
  }

  /** Every save keeps the jobs, or adds one for want of a usable child. */
  ghost predicate Adopts(s: RunState, es: seq<Effect>, a: Answers) {
    forall i | 0 <= i < |es| && es[i].Save? ::
      && (SameJobs(es[i].state.children, s.children) || Added(s.children, es[i].state.children, a))
      && (es[i].state.status.Cancelled? ==> s.status.Cancelled?)
  }

  lemma KeepsAdopts(s: RunState, es: seq<Effect>, a: Answers)
    requires Keeps(s, es)
    ensures Adopts(s, es, a)
  {
  }

  lemma AdoptsAfter(s: RunState, before: seq<Effect>, es: seq<Effect>, a: Answers)
    requires Adopts(s, before, a) && Adopts(s, es, a)
    ensures Adopts(s, before + es, a)
  {
    hide SameJobs, Added;
    var all := before + es;
    forall i | 0 <= i < |all| && all[i].Save?
      ensures SameJobs(all[i].state.children, s.children) || Added(s.children, all[i].state.children, a)
      ensures all[i].state.status.Cancelled? ==> s.status.Cancelled?
    {
      if i >= |before| {
        assert all[i] == es[i - |before|];
      }
    }
  }

  lemma LeafAdopts(s: RunState, st: Stage, a: Answers)
    requires Tries(s, st.id) != []
    ensures Adopts(s, RunLeaf(s, st, a).effects, a)
  {
    hide Settle, Added, SameJobs;
    var key := Key(st.id, LastTry(s, st.id).num);
    var k := FindChild(s, key, a.polls);
    if k < |s.children| {
      var s1 := Polled(s, k, a.poll);
      PolledSame(s, k, a.poll);
      SettleKeepsChildren(s1, st, LeafReply(a.poll));
      assert Adopts(s, [Save(s1)], a);
      AdoptsAfter(s, [Save(s1)], Settle(s1, st, LeafReply(a.poll)).effects, a);
    } else {
      var s1 := WithChild(s, key, a.job);
      var s2 := Polled(s1, k, a.poll);
      ChildAdded(s, key, a);
      SettleKeepsChildren(s2, st, LeafReply(a.poll));
      assert Adopts(s, [SubmitCall(key), Save(s1), Save(s2)], a);
      AdoptsAfter(s, [SubmitCall(key), Save(s1), Save(s2)], Settle(s2, st, LeafReply(a.poll)).effects, a);
    }
  }

  lemma PolledSame(s: RunState, k: nat, r: Reply)
    requires k < |s.children|
    ensures SameJobs(Polled(s, k, r).children, s.children)
  {
  }

  lemma ChildAdded(s: RunState, key: Key, a: Answers)
    requires FindChild(s, key, a.polls) == |s.children|
    ensures var s1 := WithChild(s, key, a.job);
      Added(s.children, s1.children, a) && Added(s.children, Polled(s1, |s.children|, a.poll).children, a)
  {
    var s1 := WithChild(s, key, a.job);
    var s2 := Polled(s1, |s.children|, a.poll);
    assert s1.children[..|s.children|] == s.children;
    assert s2.children[..|s.children|] == s.children;
  }

  lemma RunCurrentAdopts(s: RunState, a: Answers)
    ensures Adopts(s, RunCurrent(s, a).effects, a)
  {
    hide Perform, NextStage, IsDone, IsBad, IsRunning, Adopts;
    KeepsAdopts(s, Terminalize(s, Success).effects, a);
    if s.current.Some? && s.current.value in StageIds(s.plan) {
      var id := s.current.value;
      var st := StageOf(s.plan, id);
      NextStageEnds(s);
      KeepsAdopts(s, NextStage(s).effects, a);
      if IsRunning(s, id) {
        RunningHasTries(s, id);
        PerformAdopts(s, st, true, a);
      } else {
        var s1 := Started(s, id);
        PerformAdopts(s1, st, false, a);
        AdoptsFrame(s, s1, Perform(s1, st, false, a).effects, a);
        KeepsAdopts(s, [Save(s1)], a);
        AdoptsAfter(s, [Save(s1)], Perform(s1, st, false, a).effects, a);
      }
    }
  }

  lemma AdoptsFrame(s: RunState, u: RunState, es: seq<Effect>, a: Answers)
    requires Adopts(u, es, a) && u.children == s.children && u.status == s.status
    ensures Adopts(s, es, a)
  {
  }

  lemma PerformAdopts(s: RunState, st: Stage, resumed: bool, a: Answers)
    requires Tries(s, st.id) != []
    ensures Adopts(s, Perform(s, st, resumed, a).effects, a)
  {
    hide Settle, RunLeaf, Tries;
    SettleKeepsChildren(s, st, FailedReply(OtherFailure));
    SettleKeepsChildren(s, st, FailedReply(UnsafeOutcome));
    SettleKeepsChildren(s, st, a.external);
    LeafAdopts(s, st, a);
  }

  lemma AdvanceAdopts(s: RunState, a: Answers)
    requires !(s.cancelIntent && !s.cancelled)
    ensures Adopts(s, Advance(s, a).effects, a)
  {
    hide RunCurrent, Adopts, CurrentRunning;
    KeepsAdopts(s, [], a);
    if !IsTerminal(s) {
      RunCurrentAdopts(s, a);
      if s.pending != [] {
        var s0 := s.(pending := s.pending[1..]);
        KeepsAdopts(s, [Save(s0)], a);
        var s1 := s.(current := Some(s.pending[0]), pending := s.pending[1..], note := s.corrections > 0);
        RunCurrentAdopts(s1, a);
        AdoptsFrame(s, s1, RunCurrent(s1, a).effects, a);
        KeepsAdopts(s, [Save(s1)], a);
        AdoptsAfter(s, [Save(s1)], RunCurrent(s1, a).effects, a);
      }
    }
  }

  // --- Truthful providers -----------------------------------------------------

  /** The job answers queued, in flight or completed. */
  predicate Alive(a: Answers, job: string) {
    job in a.polls && (a.polls[job].JobWaiting? || a.polls[job].JobCompleted?)
  }

  /** Jobs that have answered anything else. */
  function DeadIn(a: Answers): set<string> {
    set job | job in a.polls && !Alive(a, job)
  }

  function Dead(events: seq<Event>): set<string> {
    if events == [] then {}
    else Dead(events[..|events| - 1])
         + match events[|events| - 1] { case Step(a, _) => DeadIn(a) case CancelRequest => {} }
  }

  /** Every child answers, failures are final, and a new job has a new name. */
  ghost predicate Truthful(s: RunState, a: Answers, dead: set<string>) {
    && (forall i | 0 <= i < |s.children| :: s.children[i].job in a.polls && s.children[i].job != a.job)
    && (forall job | job in dead :: !Alive(a, job))
  }

  ghost predicate TruthfulHistory(s: RunState, events: seq<Event>) {
    forall i | 0 <= i < |events| && events[i].Step? :: Truthful(Now(s, events[..i]), events[i].answers, Dead(events[..i]))
  }

  // --- The invariant ----------------------------------------------------------

  /** Two children of one stage are never both possibly alive. */
  predicate OneAlive(cs: seq<Child>, dead: set<string>) {
    forall i, j | 0 <= i < j < |cs| && cs[i].stage == cs[j].stage :: cs[i].job in dead || cs[j].job in dead
  }

  predicate KeysDistinct(cs: seq<Child>) {
    && (forall i | 0 <= i < |cs| :: cs[i].key.stage == cs[i].stage)
    && forall i, j | 0 <= i < j < |cs| :: cs[i].key != cs[j].key
  }

  /** A cancelled run has settled every recorded child. */
  predicate Owned(s: RunState, dead: set<string>) {
    && KeysDistinct(s.children) && OneAlive(s.children, dead)
    && (!IsTerminal(s) ==> forall i | 0 <= i < |s.children| :: !s.children[i].cancelled)
    && (s.status.Cancelled? ==> forall i | 0 <= i < |s.children| :: Settled(s.children[i]))
  }

  lemma OwnedMore(s: RunState, dead: set<string>, more: set<string>)
    requires Owned(s, dead) && dead <= more
    ensures Owned(s, more)
  {
  }

  lemma SameOwned(s: RunState, u: RunState, dead: set<string>)
    requires Owned(s, dead) && SameJobs(u.children, s.children) && !IsTerminal(s) && !u.status.Cancelled?
    ensures Owned(u, dead)
  {
    forall i, j | 0 <= i < j < |u.children| ensures u.children[i].key != u.children[j].key {
      assert s.children[i].key != s.children[j].key;
    }
  }

  lemma AddedOwned(s: RunState, u: RunState, a: Answers, dead: set<string>)
    requires Owned(s, dead) && Added(s.children, u.children, a) && !IsTerminal(s) && !u.status.Cancelled?
    requires forall i | 0 <= i < |s.children| :: s.children[i].job in a.polls
    ensures Owned(u, dead + DeadIn(a))
  {
    var n, cs, ds := |s.children|, s.children, u.children;
    assert forall i | 0 <= i < n :: ds[..n][i] == ds[i];
    forall i, j | 0 <= i < j < |ds|
      ensures ds[i].key != ds[j].key
      ensures ds[i].stage == ds[j].stage ==> ds[i].job in dead + DeadIn(a) || ds[j].job in dead + DeadIn(a)
    {
      assert ds[i].key == cs[i].key && ds[i].stage == cs[i].stage && ds[i].job == cs[i].job;
      if j < n {
        assert cs[i].key != cs[j].key;
      } else {
        assert !Reusable(cs[i], ds[n].stage, a.polls);
      }
    }
  }

  lemma {:induction false} OwnedDurable(s: RunState, es: seq<Effect>, a: Answers, dead: set<string>)
    requires Owned(s, dead) && Adopts(s, es, a) && !IsTerminal(s)
    requires forall i | 0 <= i < |s.children| :: s.children[i].job in a.polls
    ensures Owned(Durable(s, es), dead + DeadIn(a))
  {
    hide Owned, SameJobs, Added;
    OwnedMore(s, dead, dead + DeadIn(a));
    if es != [] {
      var e := es[|es| - 1];
      if e.Save? {
        if SameJobs(e.state.children, s.children) {
          SameOwned(s, e.state, dead + DeadIn(a));
        } else {
          AddedOwned(s, e.state, a, dead);
        }
      } else {
        OwnedDurable(s, es[..|es| - 1], a, dead);
      }
    }
  }

  /** A cancellation ends as cancelled exactly when everything in flight stopped; then every recorded
      child is settled. */
  lemma CancelledIff(s: RunState, a: Answers)
    requires !IsTerminal(s) && s.cancelIntent && !s.cancelled
    ensures var f := Advance(s, a).final;
      && f.status.Cancelled? == ((ExternalActive(s) ==> a.externalStops)
                                 && forall i | 0 <= i < |s.children| && !Settled(s.children[i]) ::
                                      s.children[i].job in a.leafStops && a.leafStops[s.children[i].job])
      && (!f.status.Cancelled? ==> f.code == Some(UnsafeResume))
      && |f.children| == |s.children|
      && (f.status.Cancelled? ==> forall i | 0 <= i < |f.children| :: Settled(f.children[i]))
      && (forall i | 0 <= i < |f.children| :: Settled(s.children[i]) ==> f.children[i] == s.children[i])
  {
    var f := Advance(s, a).final;
    forall i | 0 <= i < |f.children| && f.status.Cancelled? ensures Settled(f.children[i]) {
      assert !Unstopped(s.children[i], a.leafStops);
    }
  }

  lemma CascadeOwned(s: RunState, a: Answers, dead: set<string>)
    requires Owned(s, dead) && !IsTerminal(s) && s.cancelIntent && !s.cancelled
    ensures Owned(Advance(s, a).final, dead)
  {
    CancelledIff(s, a);
    var cs, ds := s.children, Advance(s, a).final.children;
    assert forall i | 0 <= i < |cs| :: ds[i] == StopChild(cs[i], a.leafStops);
    forall i, j | 0 <= i < j < |ds| ensures ds[i].key != ds[j].key {
      assert cs[i].key != cs[j].key;
    }
  }

  lemma EventOwned(s: RunState, e: Event, dead: set<string>)
    requires Owned(s, dead) && (e.Step? ==> Truthful(s, e.answers, dead))
    ensures Owned(Durable(s, EventEffects(s, e)), dead + match e { case Step(a, _) => DeadIn(a) case CancelRequest => {} })
  {
    hide Owned, Cascade, RunCurrent;
    match e
    case CancelRequest =>
      assert dead + {} == dead;
      if !IsTerminal(s) {
        assert EventEffects(s, e) == [Save(RequestCancel(s))];
        RequestOwned(s, dead);
      }
    case Step(a, n) =>
      OwnedMore(s, dead, dead + DeadIn(a));
      var es := Advance(s, a).effects;
      if IsTerminal(s) {
        TerminalQuiet(s, a);
      } else if s.cancelIntent && !s.cancelled {
        CascadeEffects(s, a);
        CascadeOwned(s, a, dead + DeadIn(a));
      } else {
        AdvanceAdopts(s, a);
        CutAdopts(s, es, n, a);
        OwnedDurable(s, Cut(es, n), a, dead);
      }
  }

  lemma RequestOwned(s: RunState, dead: set<string>)
    requires Owned(s, dead)
    ensures Owned(RequestCancel(s), dead)
  {
  }

  lemma CutAdopts(s: RunState, es: seq<Effect>, n: nat, a: Answers)
    requires Adopts(s, es, a)
    ensures Adopts(s, Cut(es, n), a)
  {
    hide SameJobs, Added;
  }

  lemma TerminalQuiet(s: RunState, a: Answers)
    requires IsTerminal(s)
    ensures Advance(s, a).effects == []
  {
  }

  lemma CascadeEffects(s: RunState, a: Answers)
    requires !IsTerminal(s) && s.cancelIntent && !s.cancelled
    ensures Advance(s, a).effects == [Save(Advance(s, a).final)]
  {
  }

  lemma {:induction false} HistoryOwned(p: Plan, events: seq<Event>)
    requires TruthfulHistory(Submit(p), events)
    ensures Owned(Now(Submit(p), events), Dead(events))
  {
    hide Owned, EventEffects, Truthful, Submit, Durable, DeadIn;
    var s := Submit(p);
    if events == [] {
      SubmitHasNoChildren(p);
    } else {
      var n := |events| - 1;
      var before := events[..n];
      forall i | 0 <= i < |before| && before[i].Step?
        ensures Truthful(Now(s, before[..i]), before[i].answers, Dead(before[..i]))
      {
        assert before[..i] == events[..i] && before[i] == events[i];
      }
      HistoryOwned(p, before);
      EventOwned(Now(s, before), events[n], Dead(before));
      DurableAppend(s, Trace(s, before), EventEffects(Now(s, before), events[n]));
    }
  }

  lemma SubmitHasNoChildren(p: Plan)
    ensures Owned(Now(Submit(p), []), {})
  {
  }

  /** Over any history with crashes: keys are distinct, no two children of a stage are alive together,
      and a cancelled run has settled every child it recorded. */
  lemma ChildOwnership(p: Plan, events: seq<Event>, a: Answers)
    requires TruthfulHistory(Submit(p), events) && Truthful(Now(Submit(p), events), a, Dead(events))
    ensures var s := Now(Submit(p), events);
      && (forall i, j | 0 <= i < j < |s.children| :: s.children[i].key != s.children[j].key)
      && (forall i, j | 0 <= i < j < |s.children| && s.children[i].stage == s.children[j].stage ::
            !(Alive(a, s.children[i].job) && Alive(a, s.children[j].job)))
      && (s.status.Cancelled? ==> forall i | 0 <= i < |s.children| :: Settled(s.children[i]))
  {
    HistoryOwned(p, events);
  }

  // --- Reuse and loss ---------------------------------------------------------

  /** On re-entry of a leaf stage a child that still answers alive is used again: nothing is submitted. */
  lemma LiveChildIsReused(s: RunState, st: Stage, a: Answers, i: nat)
    requires Tries(s, st.id) != [] && i < |s.children| && Reusable(s.children[i], st.id, a.polls)
    ensures var es := RunLeaf(s, st, a).effects;
      && (forall k | 0 <= k < |es| :: !es[k].SubmitCall?)
      && SameJobs(RunLeaf(s, st, a).final.children, s.children)
  {
    hide Settle, SameJobs;
    var key := Key(st.id, LastTry(s, st.id).num);
    var k := FindChild(s, key, a.polls);
    assert k < |s.children|;
    var s1 := Polled(s, k, a.poll);
    PolledSame(s, k, a.poll);
    SettleNoSubmit(s1, st, LeafReply(a.poll));
  }

  lemma SettleNoSubmit(s: RunState, st: Stage, r: Reply)
    requires Tries(s, st.id) != []
    ensures Settle(s, st, r).final.children == s.children
    ensures forall k | 0 <= k < |Settle(s, st, r).effects| :: !Settle(s, st, r).effects[k].SubmitCall?
  {
    hide Record, Tries;
    RecordNoSubmit(s, st, r);
    RecordNoSubmit(s, st, FailedReply(UnsafeOutcome));
  }

  lemma RecordNoSubmit(s: RunState, st: Stage, r: Reply)
    requires Tries(s, st.id) != []
    ensures Record(s, st, r).final.children == s.children
    ensures forall k | 0 <= k < |Record(s, st, r).effects| :: !Record(s, st, r).effects[k].SubmitCall?
  {
    hide HandleQc, NextStage, Tries;
    var s1 := SetLast(s, st.id, Finished(LastTry(s, st.id), r));
    NextStageEnds(s1);
    FinalChildren(s1);
    if r.verdict.Some? {
      HandleQcEnds(s1, r.verdict.value);
      QcFinalChildren(s1, r.verdict.value);
    }
  }

  lemma FinalChildren(s: RunState)
    ensures NextStage(s).final.children == s.children
  {
    hide FirstReady, AllWorkDone;
  }

  lemma QcFinalChildren(s: RunState, v: Verdict)
    ensures HandleQc(s, v).final.children == s.children
  {
    hide NextStage, CorrectionLoop;
    FinalChildren(s);
  }
}
