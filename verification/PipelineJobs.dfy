// Which submitted jobs a run remembers: exactly those whose submission some step went on from.

module PipelineJobs {
  import opened Common
  import opened PipelineModel
  import opened PipelineTermination
  import opened PipelineAttempts
  import opened PipelineMoves
  import opened PipelineChildren

  // --- The keys of children ----------------------------------------------------

  function KeysOf(cs: seq<Child>): set<Key> {
    set i | 0 <= i < |cs| :: cs[i].key
  }

  /** What a save does to the recorded keys: it adds the key of the call right before it, if there is one. */
  function AddedBy(t: seq<Effect>): set<Key> {
    if t != [] && t[|t| - 1].SubmitCall? then {t[|t| - 1].key} else {}
  }

  ghost predicate LedgerLast(s: RunState, t: seq<Effect>)
    requires t != []
  {
    var before := t[..|t| - 1];
    match t[|t| - 1]
    case Save(u) => KeysOf(u.children) == KeysOf(Durable(s, before).children) + AddedBy(before)
    case _ => AddedBy(before) == {}
  }

  /** Every submission is saved next or cut off, and nothing else adds or loses a key. */
  ghost predicate Ledger(s: RunState, t: seq<Effect>) {
    t == [] || (LedgerLast(s, t) && Ledger(s, t[..|t| - 1]))
  }

  /** The submission of the key has an effect after it. */
  ghost predicate Followed(t: seq<Effect>, key: Key) {
    exists i: int :: 0 <= i < |t| - 1 && t[i] == SubmitCall(key)
  }

  lemma {:induction false} LedgerKeys(s: RunState, t: seq<Effect>, key: Key)
    requires Ledger(s, t)
    ensures key in KeysOf(Durable(s, t).children) <==> key in KeysOf(s.children) || Followed(t, key)
  {
    hide KeysOf, Durable;
    if t == [] {
      assert Durable(s, t) == s by {
        EmptyDurable(s);
      }
    } else {
      var n := |t| - 1;
      LedgerKeys(s, t[..n], key);
      LastDurable(s, t);
      FollowedMore(t, key);
    }
  }

  lemma LastDurable(s: RunState, t: seq<Effect>)
    requires t != []
    ensures Durable(s, t) == match t[|t| - 1] { case Save(u) => u case _ => Durable(s, t[..|t| - 1]) }
  {
  }

  lemma FollowedMore(t: seq<Effect>, key: Key)
    requires t != []
    ensures Followed(t, key) <==> Followed(t[..|t| - 1], key) || key in AddedBy(t[..|t| - 1])
  {
    var before := t[..|t| - 1];
    if key in AddedBy(before) {
      assert t[|t| - 2] == SubmitCall(key);
    }
    if i: int :| 0 <= i < |before| - 1 && before[i] == SubmitCall(key) {
      assert t[i] == SubmitCall(key);
    }
    if i: int :| 0 <= i < |t| - 1 && t[i] == SubmitCall(key) {
      assert before[i] == SubmitCall(key);
    }
  }

  lemma {:induction false} LedgerPrefix(s: RunState, t: seq<Effect>, n: nat)
    requires Ledger(s, t) && n <= |t|
    ensures Ledger(s, t[..n])
  {
    hide LedgerLast;
    if n == |t| {
      assert t[..n] == t;
    } else {
      LedgerPrefix(s, t[..|t| - 1], n);
      assert t[..|t| - 1][..n] == t[..n];
    }
  }

  lemma AddedByAppend(t: seq<Effect>, es: seq<Effect>)
    requires AddedBy(t) == {}
    ensures AddedBy(t + es) == AddedBy(es)
  {
    if es == [] {
      assert t + es == t;
    } else {
      assert (t + es)[|t + es| - 1] == es[|es| - 1];
    }
  }

  lemma LedgerLastAppend(s: RunState, t: seq<Effect>, es: seq<Effect>)
    requires es != [] && LedgerLast(Durable(s, t), es) && AddedBy(t) == {}
    ensures LedgerLast(s, t + es)
  {
    hide KeysOf, Durable, AddedBy;
    var u, n := t + es, |es| - 1;
    assert u[..|u| - 1] == t + es[..n] && u[|u| - 1] == es[n];
    DurableAppend(s, t, es[..n]);
    AddedByAppend(t, es[..n]);
  }

  lemma {:induction false} LedgerAppend(s: RunState, t: seq<Effect>, es: seq<Effect>)
    requires Ledger(s, t) && Ledger(Durable(s, t), es) && AddedBy(t) == {}
    ensures Ledger(s, t + es)
  {
    hide LedgerLast, Durable, AddedBy;
    if es == [] {
      assert t + es == t;
    } else {
      LedgerAppend(s, t, es[..|es| - 1]);
      LedgerLastAppend(s, t, es);
      assert (t + es)[..|t + es| - 1] == t + es[..|es| - 1];
    }
  }

  /** No submission, and every save has the same keys. */
  ghost predicate Quiet(s: RunState, es: seq<Effect>) {
    forall i | 0 <= i < |es| :: !es[i].SubmitCall? && (es[i].Save? ==> KeysOf(es[i].state.children) == KeysOf(s.children))
  }

  lemma {:induction false} QuietLedger(s: RunState, es: seq<Effect>)
    requires Quiet(s, es)
    ensures Ledger(s, es) && KeysOf(Durable(s, es).children) == KeysOf(s.children) && AddedBy(es) == {}
  {
    hide KeysOf;
    if es != [] {
      QuietLedger(s, es[..|es| - 1]);
    }
  }

  lemma QuietAfter(s: RunState, u: RunState, es: seq<Effect>)
    requires Quiet(u, es) && KeysOf(u.children) == KeysOf(s.children)
    ensures Quiet(s, [Save(u)] + es)
  {
    hide KeysOf;
    var all := [Save(u)] + es;
    forall i | 0 <= i < |all|
      ensures !all[i].SubmitCall? && (all[i].Save? ==> KeysOf(all[i].state.children) == KeysOf(s.children))
    {
      if i > 0 {
        assert all[i] == es[i - 1];
      }
    }
  }

  lemma SettleQuiet(s: RunState, st: Stage, r: Reply)
    requires Tries(s, st.id) != []
    ensures Quiet(s, Settle(s, st, r).effects)
  {
    hide Settle, Tries, KeysOf;
    SettleKeepsChildren(s, st, r);
    SettleNoSubmit(s, st, r);
  }

  lemma EndsQuiet(s: RunState, es: seq<Effect>)
    requires Ends(s, es)
    ensures Quiet(s, es)
  {
    hide KeysOf;
  }

  lemma PolledKeys(s: RunState, k: nat, r: Reply)
    requires k < |s.children|
    ensures KeysOf(Polled(s, k, r).children) == KeysOf(s.children)
  {
    SameKeys(Polled(s, k, r).children, s.children);
  }

  lemma SameKeys(cs: seq<Child>, ds: seq<Child>)
    requires |cs| == |ds| && forall i | 0 <= i < |cs| :: cs[i].key == ds[i].key
    ensures KeysOf(cs) == KeysOf(ds)
  {
    forall key: Key ensures key in KeysOf(cs) <==> key in KeysOf(ds) {
      if key in KeysOf(cs) {
        var i :| 0 <= i < |cs| && cs[i].key == key;
        assert ds[i].key == key;
      }
      if key in KeysOf(ds) {
        var i :| 0 <= i < |ds| && ds[i].key == key;
        assert cs[i].key == key;
      }
    }
  }

  lemma ChildKey(s: RunState, key: Key, job: string)
    ensures KeysOf(WithChild(s, key, job).children) == KeysOf(s.children) + {key}
  {
    var cs, ds := s.children, WithChild(s, key, job).children;
    forall k: Key ensures k in KeysOf(ds) <==> k in KeysOf(cs) + {key} {
      if k in KeysOf(cs) {
        var i :| 0 <= i < |cs| && cs[i].key == k;
        assert ds[i].key == k;
      }
      assert ds[|cs|].key == key;
    }
  }

  lemma LeafLedger(s: RunState, st: Stage, a: Answers)
    requires Tries(s, st.id) != []
    ensures Ledger(s, RunLeaf(s, st, a).effects)
  {
    hide Settle, Tries, KeysOf, Quiet, Ledger, FindChild, Durable;
    var key := Key(st.id, LastTry(s, st.id).num);
    var k := FindChild(s, key, a.polls);
    var r := LeafReply(a.poll);
    if k < |s.children| {
      var s1 := Polled(s, k, a.poll);
      PolledKeys(s, k, a.poll);
      SameTries(s, s1);
      SettleQuiet(s1, st, r);
      QuietAfter(s, s1, Settle(s1, st, r).effects);
      QuietLedger(s, [Save(s1)] + Settle(s1, st, r).effects);
    } else {
      var s1 := WithChild(s, key, a.job);
      var s2 := Polled(s1, k, a.poll);
      SameTries(s, s1);
      SameTries(s1, s2);
      PolledKeys(s1, k, a.poll);
      SettleQuiet(s2, st, r);
      var es := Settle(s2, st, r).effects;
      QuietAfter(s1, s2, es);
      QuietLedger(s1, [Save(s2)] + es);
      SubmitLedger(s, key, a.job);
      LedgerAppend(s, [SubmitCall(key), Save(s1)], [Save(s2)] + es);
      assert RunLeaf(s, st, a).effects == [SubmitCall(key), Save(s1)] + ([Save(s2)] + es);
    }
  }

  lemma SubmitLedger(s: RunState, key: Key, job: string)
    ensures var t := [SubmitCall(key), Save(WithChild(s, key, job))];
      Ledger(s, t) && Durable(s, t) == WithChild(s, key, job) && AddedBy(t) == {}
  {
    hide KeysOf;
    var t := [SubmitCall(key), Save(WithChild(s, key, job))];
    ChildKey(s, key, job);
    assert t[..1] == [SubmitCall(key)] && t[..1][..0] == [];
    assert Durable(s, t[..1]) == s;
    assert Ledger(s, t[..1][..0]);
    assert LedgerLast(s, t[..1]);
  }

  lemma PerformLedger(s: RunState, st: Stage, resumed: bool, a: Answers)
    requires Tries(s, st.id) != []
    ensures Ledger(s, Perform(s, st, resumed, a).effects)
  {
    hide Settle, Tries, KeysOf, Ledger, RunLeaf, Quiet;
    SettleQuiet(s, st, FailedReply(OtherFailure));
    SettleQuiet(s, st, FailedReply(UnsafeOutcome));
    SettleQuiet(s, st, a.external);
    QuietLedger(s, Settle(s, st, FailedReply(OtherFailure)).effects);
    QuietLedger(s, Settle(s, st, FailedReply(UnsafeOutcome)).effects);
    LeafLedger(s, st, a);
    var n := LastTry(s, st.id).num;
    CallQuiet(s, ExecuteCall(st.id, n), Settle(s, st, a.external).effects);
    CallQuiet(s, PollCall(st.id, n), Settle(s, st, a.external).effects);
    QuietLedger(s, [ExecuteCall(st.id, n)] + Settle(s, st, a.external).effects);
    QuietLedger(s, [PollCall(st.id, n)] + Settle(s, st, a.external).effects);
  }

  lemma CallQuiet(s: RunState, e: Effect, es: seq<Effect>)
    requires Quiet(s, es) && (e.ExecuteCall? || e.PollCall?)
    ensures Quiet(s, [e] + es)
  {
    hide KeysOf;
    var all := [e] + es;
    forall i | 0 <= i < |all|
      ensures !all[i].SubmitCall? && (all[i].Save? ==> KeysOf(all[i].state.children) == KeysOf(s.children))
    {
      if i > 0 {
        assert all[i] == es[i - 1];
      }
    }
  }

  /** A save without the keys changed, then a ledger from there. */
  lemma LedgerAfter(s: RunState, u: RunState, es: seq<Effect>)
    requires Ledger(u, es) && u.children == s.children
    ensures Ledger(s, [Save(u)] + es)
  {
    hide KeysOf, Ledger;
    assert Quiet(s, [Save(u)]);
    QuietLedger(s, [Save(u)]);
    LedgerAppend(s, [Save(u)], es);
  }

  lemma RunCurrentLedger(s: RunState, a: Answers)
    ensures Ledger(s, RunCurrent(s, a).effects)
  {
    hide Perform, NextStage, Ledger, Quiet, KeysOf, IsDone, IsBad, IsRunning;
    EndsQuiet(s, Terminalize(s, Success).effects);
    QuietLedger(s, Terminalize(s, Success).effects);
    NextStageEnds(s);
    EndsQuiet(s, NextStage(s).effects);
    QuietLedger(s, NextStage(s).effects);
    if s.current.Some? && s.current.value in StageIds(s.plan) {
      var id := s.current.value;
      var st := StageOf(s.plan, id);
      if IsRunning(s, id) {
        RunningHasTries(s, id);
        PerformLedger(s, st, true, a);
      } else {
        var s1 := Started(s, id);
        PerformLedger(s1, st, false, a);
        LedgerAfter(s, s1, Perform(s1, st, false, a).effects);
      }
    }
  }

  lemma AdvanceLedger(s: RunState, a: Answers)
    ensures Ledger(s, Advance(s, a).effects)
  {
    hide RunCurrent, Ledger, Quiet, KeysOf, CurrentRunning;
    CascadeQuiet(s, a);
    QuietLedger(s, Cascade(s, a).effects);
    NoEffectsLedger(s);
    RunCurrentLedger(s, a);
    if s.pending != [] {
      var u := s.(pending := s.pending[1..]);
      assert u.children == s.children;
      NoEffectsLedger(u);
      LedgerAfter(s, u, []);
      assert [Save(u)] + [] == [Save(u)];
      var s1 := s.(current := Some(s.pending[0]), pending := s.pending[1..], note := s.corrections > 0);
      RunCurrentLedger(s1, a);
      LedgerAfter(s, s1, RunCurrent(s1, a).effects);
    }
  }

  lemma NoEffectsLedger(s: RunState)
    ensures Ledger(s, [])
  {
  }

  lemma CascadeQuiet(s: RunState, a: Answers)
    ensures Quiet(s, Cascade(s, a).effects)
  {
    SameKeys(StopAll(s.children, a.leafStops), s.children);
  }

  lemma EventLedger(s: RunState, e: Event)
    ensures Ledger(s, EventEffects(s, e))
  {
    hide Advance, Ledger, KeysOf;
    match e
    case Step(a, n) =>
      AdvanceLedger(s, a);
      if n < |Advance(s, a).effects| {
        LedgerPrefix(s, Advance(s, a).effects, n);
      }
    case CancelRequest =>
      assert Quiet(s, EventEffects(s, e));
      QuietLedger(s, EventEffects(s, e));
  }

  /** The effects of the n-th event of the history. */
  function EffectsAt(s: RunState, events: seq<Event>, n: nat): seq<Effect>
    requires n < |events|
  {
    EventEffects(Now(s, events[..n]), events[n])
  }

  /** A key is recorded exactly when it was recorded before or some event of the history submits it
      and goes on past the call. */
  lemma {:induction false} RecordedIff(s: RunState, events: seq<Event>, key: Key)
    ensures key in KeysOf(Now(s, events).children) <==>
      key in KeysOf(s.children) || exists n: nat :: n < |events| && Followed(EffectsAt(s, events, n), key)
  {
    hide EventEffects, KeysOf, Followed, Durable, Ledger;
    if events == [] {
      EmptyDurable(s);
    } else {
      var m := |events| - 1;
      var before := events[..m];
      RecordedIff(s, before, key);
      EventLedger(Now(s, before), events[m]);
      LedgerKeys(Now(s, before), EffectsAt(s, events, m), key);
      DurableAppend(s, Trace(s, before), EffectsAt(s, events, m));
      forall n: nat | n < m ensures EffectsAt(s, events, n) == EffectsAt(s, before, n) {
        assert before[..n] == events[..n];
      }
    }
  }

  /** The history submits the key. */
  ghost predicate Submits(s: RunState, events: seq<Event>, key: Key) {
    exists n: nat :: n < |events| && SubmitCall(key) in EffectsAt(s, events, n)
  }

  /** Some event of the history is cut right behind the submission of the key. */
  ghost predicate CutOff(s: RunState, events: seq<Event>, key: Key) {
    exists n: nat :: n < |events| && key in AddedBy(EffectsAt(s, events, n))
  }

  /** Every job a run submitted has a child with its key, exactly when each key whose submission was cut
      off is submitted in another event that is not cut there. */
  lemma AllRecordedIff(p: Plan, events: seq<Event>)
    ensures var s := Submit(p);
      (forall key: Key :: Submits(s, events, key) ==> key in KeysOf(Now(s, events).children)) <==>
        (forall key: Key :: CutOff(s, events, key) ==> exists n: nat :: n < |events| && Followed(EffectsAt(s, events, n), key))
  {
    hide KeysOf, Followed, EffectsAt, AddedBy, Submit, Now;
    var s := Submit(p);
    NoChildrenYet(p);
    forall key: Key
      ensures key in KeysOf(Now(s, events).children) <==> exists n: nat :: n < |events| && Followed(EffectsAt(s, events, n), key)
      ensures Submits(s, events, key) <==>
        CutOff(s, events, key) || exists n: nat :: n < |events| && Followed(EffectsAt(s, events, n), key)
    {
      RecordedIff(s, events, key);
      forall n: nat | n < |events|
        ensures SubmitCall(key) in EffectsAt(s, events, n) <==>
          key in AddedBy(EffectsAt(s, events, n)) || Followed(EffectsAt(s, events, n), key)
      {
        SubmittedSplits(EffectsAt(s, events, n), key);
      }
    }
  }

  lemma SubmittedSplits(t: seq<Effect>, key: Key)
    ensures SubmitCall(key) in t <==> key in AddedBy(t) || Followed(t, key)
  {
    if SubmitCall(key) in t {
      var i :| 0 <= i < |t| && t[i] == SubmitCall(key);
      if i < |t| - 1 {
        assert Followed(t, key);
      }
    }
  }

  lemma NoChildrenYet(p: Plan)
    ensures forall key: Key :: key !in KeysOf(Submit(p).children)
  {
  }

  /** A run that begins with a leaf stage: cut right behind the submission of its job and then cancelled,
      it ends as cancelled with no child recorded, although the submitted job runs on. */
  lemma ForgottenJob(p: Plan, a: Answers, b: Answers)
    requires Submit(p).current.Some? && StageOf(p, Submit(p).current.value).authority.Leaf? && a.bindings
    ensures var s, events, key := Submit(p), [Step(a, 2), CancelRequest, Step(b, 1)], Key(Submit(p).current.value, 1);
      && Submits(s, events, key) && Now(s, events).status.Cancelled? && Now(s, events).children == []
  {
    hide RunCurrent, Cascade, StageOf, StageIds, FirstReady;
    var s, id := Submit(p), Submit(p).current.value;
    SubmitSane(p);
    SubmitFirst(p);
    var e0, e1, e2 := Step(a, 2), CancelRequest, Step(b, 1);
    var events := [e0, e1, e2];
    var s1 := Started(s, id);
    StartedOnlyTries(s, id);
    LeafBegins(s, a);
    assert EventEffects(s, e0) == [Save(s1), SubmitCall(Key(id, 1))];
    TwoEffects(s, s1, SubmitCall(Key(id, 1)));
    var s2 := RequestCancel(s1);
    assert EventEffects(s1, e1) == [Save(s2)];
    LastIs(s1, s2);
    var s3 := Cascade(s2, b).final;
    CancelsLeaf(s2, b);
    assert EventEffects(s2, e2) == [Save(s3)];
    LastIs(s2, s3);
    ThreeEvents(s, e0, e1, e2, s1, s2, s3);
    assert events[..0] == [];
    EmptyDurable(s);
    assert SubmitCall(Key(id, 1)) in EffectsAt(s, events, 0);
  }

  lemma SubmitFirst(p: Plan)
    requires Submit(p).current.Some?
    ensures var s := Submit(p);
      && s.current.value in StageIds(p) && s.plan == p && s.status.Active? && s.children == [] && s.pending == []
      && !s.cancelIntent && !s.cancelled && Tries(s, s.current.value) == []
  {
    FirstReadyFacts(Submit(p).(current := None));
  }

  lemma LeafBegins(s: RunState, a: Answers)
    requires s.status.Active? && s.pending == [] && !s.cancelIntent && a.bindings && s.children == []
    requires s.current.Some? && s.current.value in StageIds(s.plan) && Tries(s, s.current.value) == []
    requires StageOf(s.plan, s.current.value).authority.Leaf?
    ensures var id, es := s.current.value, Advance(s, a).effects;
      |es| > 2 && es[..2] == [Save(Started(s, id)), SubmitCall(Key(id, 1))]
  {
    hide Settle, StageIds, StageOf;
    var id := s.current.value;
    var st, s1 := StageOf(s.plan, id), Started(s, id);
    assert Advance(s, a) == After([Save(s1)], RunLeaf(s1, st, a));
    var es := RunLeaf(s1, st, a).effects;
    assert |es| >= 3 && es[0] == SubmitCall(Key(id, 1));
  }

  lemma TwoEffects(s: RunState, u: RunState, e: Effect)
    requires !e.Save?
    ensures Durable(s, [Save(u), e]) == u
  {
    assert [Save(u), e][..1] == [Save(u)];
  }

  lemma LastIs(s: RunState, u: RunState)
    ensures Durable(s, [Save(u)]) == u
  {
  }

  lemma CancelsLeaf(s: RunState, b: Answers)
    requires s.status.Active? && s.children == [] && s.current.Some? && s.current.value in StageIds(s.plan)
    requires StageOf(s.plan, s.current.value).authority.Leaf?
    ensures var o := Cascade(s, b);
      o.final.status.Cancelled? && o.final.children == [] && o.effects == [Save(o.final)]
  {
  }

  lemma ThreeEvents(s: RunState, e0: Event, e1: Event, e2: Event, s1: RunState, s2: RunState, s3: RunState)
    requires Durable(s, EventEffects(s, e0)) == s1 && Durable(s1, EventEffects(s1, e1)) == s2
    requires Durable(s2, EventEffects(s2, e2)) == s3
    ensures Now(s, [e0, e1, e2]) == s3
  {
    hide EventEffects, Durable;
    EmptyDurable(s);
    NowNext(s, [], e0);
    NowNext(s, [e0], e1);
    NowNext(s, [e0, e1], e2);
    assert [] + [e0] == [e0] && [e0] + [e1] == [e0, e1] && [e0, e1] + [e2] == [e0, e1, e2];
  }
}
