// Whole runs from `submit`, told by what the providers answer: how often a failing stage is attempted and how its
// run then ends, how stages that complete go by, how a job is waited for, and how many rounds a loop makes.

module PipelineRuns {
  import opened Common
  import opened PipelineModel
  import opened PipelineTermination

  /** The provider calls of one whole step after another. */
  function Calls(s: RunState, answers: seq<Answers>): seq<Effect> {
    if answers == [] then []
    else
      var n := |answers| - 1;
      Calls(s, answers[..n]) + Unsaved(Advance(Steps(s, answers[..n]), answers[n]).effects)
  }

  function Unsaved(es: seq<Effect>): seq<Effect> {
    if es == [] then [] else (if es[0].Save? then [] else [es[0]]) + Unsaved(es[1..])
  }

  lemma CallsNext(s: RunState, answers: seq<Answers>, a: Answers)
    ensures Steps(s, answers + [a]) == Advance(Steps(s, answers), a).final
    ensures Calls(s, answers + [a]) == Calls(s, answers) + Unsaved(Advance(Steps(s, answers), a).effects)
  {
    hide Advance, Unsaved;
    assert (answers + [a])[..|answers|] == answers;
  }

  // --- A stage that fails -----------------------------------------------------

  /** A failure that may be retried. */
  predicate Fails(r: Reply) {
    !r.status.ReplyWaiting? && (r.handle.BadHandle? || (r.status.ReplyFailed? && !r.failure.UnsafeOutcome?))
  }

  predicate TimesOut(r: Reply) {
    !r.handle.BadHandle? && r.failure.TimedOut?
  }

  /** So many attempts are all the plan allows: at least one, and never more than eleven. */
  predicate UsedUp(retry: Retry, n: nat) {
    n >= 1 && (n >= 11 || match retry { case MaxAttempts(most) => n >= most case Retries(more) => n > more })
  }

  /** How a run is said to end when a stage has failed for good. */
  function CauseCode(kind: Kind, r: Reply): TerminalCode {
    if kind == Generate then LeafError else if TimesOut(r) then ProviderTimeout else ProviderError
  }

  /** Whatever stage failed and however it was run: it is retried while the plan allows, and otherwise the run
      ends with the code of its cause. */
  lemma FailureEnds(s: RunState, st: Stage, r: Reply)
    requires !IsTerminal(s) && Tries(s, st.id) != [] && LastTry(s, st.id).num == |Tries(s, st.id)| && Fails(r)
    ensures var f, t := Record(s, st, r).final, Tries(s, st.id);
      && f.plan == s.plan && f.pending == s.pending && f.cancelIntent == s.cancelIntent && f.corrections == s.corrections
      && Tries(f, st.id) == t[..|t| - 1] + [LastTry(f, st.id)] && LastTry(f, st.id).status == Failed
      && LastTry(f, st.id).num == |t| && (forall id | id != st.id :: Tries(f, id) == Tries(s, id))
      && (if UsedUp(st.retry, |t|) then f.status == Broken && f.code == Some(CauseCode(st.kind, r))
          else f.status == Active && f.current == Some(st.id) && f.note)
  {
    var s1 := SetLast(s, st.id, Finished(LastTry(s, st.id), r));
    FailedTries(s, st.id, r);
    var failure := if r.handle.BadHandle? then OtherFailure else r.failure;
    assert Record(s, st, r).final == HandleFailure(s1, st, failure).final;
    FailureDecided(s1, st, r, failure);
  }

  lemma FailedTries(s: RunState, id: string, r: Reply)
    requires Tries(s, id) != [] && Fails(r)
    ensures var u, t := SetLast(s, id, Finished(LastTry(s, id), r)), Tries(s, id);
      && Tries(u, id) == t[..|t| - 1] + [LastTry(u, id)] && LastTry(u, id).status == Failed && LastTry(u, id).num == LastTry(s, id).num
      && (forall other | other != id :: Tries(u, other) == Tries(s, other))
      && u == s.(attempts := u.attempts)
  {
  }

  lemma FailureDecided(s: RunState, st: Stage, r: Reply, failure: Failure)
    requires !IsTerminal(s) && Tries(s, st.id) != [] && LastTry(s, st.id).num == |Tries(s, st.id)| && Fails(r)
    requires failure == if r.handle.BadHandle? then OtherFailure else r.failure
    ensures var f := HandleFailure(s, st, failure).final;
      if UsedUp(st.retry, |Tries(s, st.id)|) then f == s.(status := Broken, code := Some(CauseCode(st.kind, r)))
      else f == s.(current := Some(st.id), note := true)
  {
  }

  /** The run goes on after so many attempts, all failed. */
  ghost predicate FailedSoFar(p: Plan, s: RunState, m: nat)
    requires p.stages != []
  {
    && s.plan == p && s.status == Active && !s.cancelIntent && s.pending == [] && s.current == Some(p.stages[0].id)
    && |Tries(s, p.stages[0].id)| == m
    && forall i | 0 <= i < m :: Tries(s, p.stages[0].id)[i].status == Failed
  }

  /** The run has ended on the attempt with this number, for its cause. */
  ghost predicate GivenUp(p: Plan, s: RunState, m: nat, r: Reply)
    requires p.stages != []
  {
    s.status == Broken && !s.cancelIntent && s.code == Some(CauseCode(p.stages[0].kind, r)) && |Tries(s, p.stages[0].id)| == m
  }

  lemma FailsAgain(p: Plan, s: RunState, m: nat, a: Answers)
    requires Lone(p) && FailedSoFar(p, s, m) && a.bindings && Fails(a.external)
    ensures var f := Advance(s, a).final;
      if UsedUp(p.stages[0].retry, m + 1) then GivenUp(p, f, m + 1, a.external) else FailedSoFar(p, f, m + 1)
  {
    hide UsedUp, Fails, CauseCode, StageOf, StageIds, HandleFailure, Record;
    var st := p.stages[0];
    LoneStage(p);
    var s1 := Started(s, st.id);
    assert Tries(s1, st.id) == Tries(s, st.id) + [Attempt(m + 1, Running, None, None)];
    assert !IsDone(s, st.id) && !IsRunning(s, st.id);
    FailsNotWaiting(a.external);
    assert Advance(s, a).final == Perform(s1, st, false, a).final == Record(s1, st, a.external).final;
    FailureEnds(s1, st, a.external);
    var f := Advance(s, a).final;
    forall i | 0 <= i < m ensures Tries(f, st.id)[i].status == Failed {
      assert Tries(f, st.id)[i] == Tries(s1, st.id)[i] == Tries(s, st.id)[i];
    }
  }

  lemma FailsNotWaiting(r: Reply)
    requires Fails(r)
    ensures !r.status.ReplyWaiting?
  {
  }

  /** A stage that keeps failing is attempted as often as its retry policy says, once a step, and the run then ends
      with the code of the last cause: no earlier and no later. */
  lemma {:induction false} RetriesRunOut(p: Plan, answers: seq<Answers>)
    requires Lone(p) && forall a | a in answers :: a.bindings && Fails(a.external)
    ensures var s, retry, m := Steps(Submit(p), answers), p.stages[0].retry, |answers|;
      && (if UsedUp(retry, m) then s.status == Broken else FailedSoFar(p, s, m))
      && forall k: nat | k < m && !UsedUp(retry, k) && UsedUp(retry, k + 1) :: GivenUp(p, s, k + 1, answers[k].external)
  {
    hide Advance, Submit, FailedSoFar, Fails, GivenUp;
    LoneHasStage(p);
    var s, retry, m := Steps(Submit(p), answers), p.stages[0].retry, |answers|;
    if m == 0 {
      LoneFails(p);
    } else {
      hide Lone;
      var before, a := answers[..m - 1], answers[m - 1];
      RetriesRunOut(p, before);
      var u := Steps(Submit(p), before);
      assert a in answers && s == Advance(u, a).final;
      if UsedUp(retry, m - 1) {
        var k := FirstUsedUp(retry, m - 1);
        EndedStays(p, u, k, answers[k - 1].external, a);
      } else {
        FailsAgain(p, u, m - 1, a);
        GivenUpIsBroken(p, s, m, a.external);
      }
      forall k: nat | k < m && !UsedUp(retry, k) && UsedUp(retry, k + 1) ensures GivenUp(p, s, k + 1, answers[k].external) {
      }
    }
  }

  lemma {:induction false} FirstUsedUp(retry: Retry, m: nat) returns (k: nat)
    requires UsedUp(retry, m)
    ensures 0 < k <= m && UsedUp(retry, k) && !UsedUp(retry, k - 1)
  {
    if UsedUp(retry, m - 1) {
      k := FirstUsedUp(retry, m - 1);
    } else {
      k := m;
    }
  }

  lemma LoneHasStage(p: Plan)
    requires Lone(p)
    ensures p.stages != []
  {
  }

  lemma GivenUpIsBroken(p: Plan, s: RunState, m: nat, r: Reply)
    requires p.stages != []
    ensures GivenUp(p, s, m, r) ==> s.status == Broken
  {
  }

  lemma LoneFails(p: Plan)
    requires Lone(p)
    ensures FailedSoFar(p, Submit(p), 0)
  {
    LoneSubmit(p);
  }

  lemma EndedStays(p: Plan, s: RunState, m: nat, r: Reply, a: Answers)
    requires p.stages != [] && GivenUp(p, s, m, r)
    ensures Advance(s, a).final == s && s.status == Broken
  {
  }

  // --- Stages that complete, one after another --------------------------------

  /** What is ready first is what the plan declares first among the ready, correction stages apart. */
  lemma {:induction false} FirstReadyIsFirst(s: RunState, stages: seq<Stage>, i: nat)
    requires forall k | 0 <= k < |stages| :: stages[k].id in StageIds(s.plan)
    requires i < |stages| && StageOf(s.plan, stages[i].id).kind != Correct && Ready(s, StageOf(s.plan, stages[i].id))
    requires forall k | 0 <= k < i :: var st := StageOf(s.plan, stages[k].id); st.kind == Correct || !Ready(s, st)
    ensures FirstReadyIn(s, stages) == Some(stages[i].id)
  {
    hide Ready, StageOf, StageIds;
    if i > 0 {
      var rest := stages[1..];
      forall k | 0 <= k < |rest| ensures rest[k] == stages[k + 1] {
      }
      assert StageOf(s.plan, stages[0].id).kind == Correct || !Ready(s, StageOf(s.plan, stages[0].id));
      FirstReadyIsFirst(s, rest, i - 1);
    }
  }

  /** The stage chosen can run: it has a name, is enabled and not done, and what it waits for is known, and done unless
      disabled. */
  lemma ChosenCanRun(s: RunState)
    requires FirstReady(s).Some?
    ensures var id := FirstReady(s).value;
      && id != "" && id in StageIds(s.plan) && Latest(s, id) != Some(Completed)
      && var st := StageOf(s.plan, id);
      && st.enabled && st.kind != Correct
      && forall i | 0 <= i < |st.dependsOn| :: st.dependsOn[i] in StageIds(s.plan)
           && (!StageOf(s.plan, st.dependsOn[i]).enabled || Latest(s, st.dependsOn[i]) == Some(Completed))
  {
    hide StageOf, StageIds, Latest;
  }

  /** External stages that wait only for stages declared before them. */
  ghost predicate Straight(p: Plan) {
    && p.stages != []
    && (forall i | 0 <= i < |p.stages| :: InLine(p.stages, i))
    && forall i, j | 0 <= i < j < |p.stages| :: p.stages[i].id != p.stages[j].id
  }

  ghost predicate InLine(stages: seq<Stage>, i: nat)
    requires i < |stages|
  {
    && stages[i].id != "" && stages[i].enabled && stages[i].kind != Correct && stages[i].authority.External?
    && forall d | 0 <= d < |stages[i].dependsOn| :: Before(stages, i, stages[i].dependsOn[d])
  }

  ghost predicate Before(stages: seq<Stage>, i: nat, id: string)
    requires i < |stages|
  {
    exists j :: 0 <= j < i && stages[j].id == id
  }

  predicate Passes(r: Reply) {
    r.status.ReplyCompleted? && !r.handle.BadHandle? && (r.verdict.Some? ==> r.verdict.value.passed)
  }

  predicate DoneOnce(s: RunState, id: string) {
    |Tries(s, id)| == 1 && Tries(s, id)[0].status == Completed && Tries(s, id)[0].num == 1
  }

  /** The first stages of the plan are done, at one attempt each, and the next one is current. */
  ghost predicate Through(p: Plan, s: RunState, m: nat)
    requires m <= |p.stages|
  {
    && s.plan == p && !s.cancelIntent && s.pending == [] && s.corrections == 0
    && (forall i | 0 <= i < m :: DoneOnce(s, p.stages[i].id))
    && (forall i | m <= i < |p.stages| :: Tries(s, p.stages[i].id) == [])
    && if m < |p.stages| then s.status == Active && s.current == Some(p.stages[m].id) else s.status == Succeeded && s.code == Some(Success)
  }

  lemma {:induction false} LastOfDistinct(stages: seq<Stage>, i: nat)
    requires i < |stages| && forall j, k | 0 <= j < k < |stages| :: stages[j].id != stages[k].id
    ensures (exists k | 0 <= k < |stages| :: stages[k].id == stages[i].id) && StageIn(stages, stages[i].id) == stages[i]
  {
    var n := |stages| - 1;
    assert stages[i].id == stages[i].id;
    if i < n {
      LastOfDistinct(stages[..n], i);
    }
  }

  lemma StraightStage(p: Plan, i: nat)
    requires Straight(p) && i < |p.stages|
    ensures p.stages[i].id in StageIds(p) && StageOf(p, p.stages[i].id) == p.stages[i]
  {
    assert p.stages[i].id in StageIds(p);
    LastOfDistinct(p.stages, i);
  }

  /** Of a straight plan the first stage that is not done is the ready one. */
  lemma StraightReady(p: Plan, s: RunState, m: nat)
    requires Straight(p) && s.plan == p && m <= |p.stages|
    requires forall i | 0 <= i < |p.stages| :: IsDone(s, p.stages[i].id) <==> i < m
    ensures FirstReady(s) == if m < |p.stages| then Some(p.stages[m].id) else None
    ensures m == |p.stages| ==> AllWorkDone(s)
  {
    hide IsDone, StageOf, StageIds, FirstReadyIn;
    forall i | 0 <= i < |p.stages|
      ensures p.stages[i].id in StageIds(p) && StageOf(p, p.stages[i].id) == p.stages[i]
      ensures i < m ==> !Ready(s, p.stages[i])
    {
      StraightStage(p, i);
    }
    if m < |p.stages| {
      LineReady(p, s, m);
      FirstReadyIsFirst(s, p.stages, m);
    }
  }

  lemma LineDepends(stages: seq<Stage>, i: nat, d: nat) returns (j: nat)
    requires i < |stages| && InLine(stages, i) && d < |stages[i].dependsOn|
    ensures j < i && stages[j].id == stages[i].dependsOn[d]
  {
    var id := stages[i].dependsOn[d];
    assert Before(stages, i, id);
    j :| 0 <= j < i && stages[j].id == id;
  }

  lemma LineReady(p: Plan, s: RunState, m: nat)
    requires Straight(p) && s.plan == p && m < |p.stages|
    requires forall i | 0 <= i < |p.stages| :: IsDone(s, p.stages[i].id) <==> i < m
    ensures Ready(s, p.stages[m]) && p.stages[m].kind != Correct
  {
    hide IsDone, StageOf, StageIds;
    var st := p.stages[m];
    assert InLine(p.stages, m);
    forall d | 0 <= d < |st.dependsOn| ensures st.dependsOn[d] in StageIds(p) && IsDone(s, st.dependsOn[d]) {
      var j := LineDepends(p.stages, m, d);
      StraightStage(p, j);
    }
  }

  lemma StraightBegins(p: Plan)
    requires Straight(p)
    ensures Through(p, Submit(p), 0)
  {
    hide FirstReady, Straight;
    var s := Submit(p);
    assert s == s.(current := FirstReady(s.(current := None)));
    StraightReady(p, s.(current := None), 0);
    StraightNotEmpty(p);
  }

  lemma StraightNotEmpty(p: Plan)
    requires Straight(p)
    ensures p.stages != [] && forall i | 0 <= i < |p.stages| :: p.stages[i].authority.External?
  {
    forall i | 0 <= i < |p.stages| ensures p.stages[i].authority.External? {
      assert InLine(p.stages, i);
    }
  }

  /** What a completing step leaves: the attempt of the current stage, and then the next stage. */
  lemma CompletingStep(s: RunState, a: Answers) returns (u: RunState)
    requires s.status == Active && !s.cancelIntent && s.pending == [] && s.current.Some? && s.current.value in StageIds(s.plan)
    requires Tries(s, s.current.value) == [] && a.bindings && Passes(a.external)
    requires StageOf(s.plan, s.current.value).authority.External?
    ensures var id, o := s.current.value, Advance(s, a);
      && u == s.(attempts := u.attempts) && DoneOnce(u, id) && (forall other | other != id :: Tries(u, other) == Tries(s, other))
      && o.final == NextStage(u).final && Unsaved(o.effects) == [ExecuteCall(id, 1)]
  {
    hide StageOf, StageIds, NextStage, Unsaved;
    var id := s.current.value;
    var st, s1 := StageOf(s.plan, id), Started(s, id);
    assert Tries(s1, id) == [Attempt(1, Running, None, None)];
    u := SetLast(s1, id, Finished(LastTry(s1, id), a.external));
    var o := Advance(s, a);
    assert o == After([Save(s1)], Perform(s1, st, false, a));
    assert Perform(s1, st, false, a) == After([ExecuteCall(id, 1)], Record(s1, st, a.external));
    assert Record(s1, st, a.external) == After([Save(u)], NextStage(u));
    NextStageSaves(u);
    var es := NextStage(u).effects;
    assert o.effects == [Save(s1), ExecuteCall(id, 1), Save(u)] + es;
    UnsavedJoin([Save(s1), ExecuteCall(id, 1), Save(u)], es);
    CallBetweenSaves(s1, ExecuteCall(id, 1), u);
  }

  lemma NextStageSaves(s: RunState)
    ensures forall i | 0 <= i < |NextStage(s).effects| :: NextStage(s).effects[i].Save?
  {
    hide FirstReady, AllWorkDone;
  }

  lemma CallBetweenSaves(s: RunState, e: Effect, u: RunState)
    requires !e.Save?
    ensures Unsaved([Save(s), e, Save(u)]) == [e]
  {
    var a, b, c := [Save(s), e, Save(u)], [e, Save(u)], [Save(u)];
    assert a[1..] == b && b[1..] == c && c[1..] == [];
    assert Unsaved(c) == [] && Unsaved(b) == [e] + Unsaved(c) && Unsaved(a) == [] + Unsaved(b);
  }

  lemma {:induction false} UnsavedJoin(es: seq<Effect>, saves: seq<Effect>)
    requires forall i | 0 <= i < |saves| :: saves[i].Save?
    ensures Unsaved(es + saves) == Unsaved(es)
    decreases |es| + |saves|
  {
    if es != [] {
      assert (es + saves)[1..] == es[1..] + saves;
      UnsavedJoin(es[1..], saves);
    } else if saves != [] {
      assert es + saves == saves && ([] + saves[1..]) == saves[1..];
      UnsavedJoin([], saves[1..]);
    }
  }

  lemma GoesThrough(p: Plan, s: RunState, m: nat, a: Answers)
    requires Straight(p) && m < |p.stages| && Through(p, s, m) && a.bindings && Passes(a.external)
    ensures Through(p, Advance(s, a).final, m + 1) && Unsaved(Advance(s, a).effects) == [ExecuteCall(p.stages[m].id, 1)]
  {
    hide Straight, StageOf, StageIds, Passes, Advance, FirstReady, AllWorkDone, Tries, DoneOnce;
    StraightStage(p, m);
    StraightNotEmpty(p);
    var u := CompletingStep(s, a);
    forall i | 0 <= i < |p.stages|
      ensures IsDone(u, p.stages[i].id) <==> i <= m
      ensures i <= m ==> DoneOnce(u, p.stages[i].id)
      ensures i > m ==> Tries(u, p.stages[i].id) == []
    {
      if i != m {
        StraightDistinct(p, i, m);
      }
      DoneOrNot(s, u, p.stages[i].id);
    }
    StraightReady(p, u, m + 1);
    AttemptsOnly(u, Advance(s, a).final);
  }

  lemma AttemptsOnly(s: RunState, u: RunState)
    requires u.attempts == s.attempts
    ensures forall id :: Tries(u, id) == Tries(s, id) && (DoneOnce(u, id) <==> DoneOnce(s, id))
  {
  }

  lemma DoneOrNot(t: RunState, s: RunState, id: string)
    ensures Tries(s, id) == Tries(t, id) ==> (DoneOnce(s, id) <==> DoneOnce(t, id))
    ensures DoneOnce(s, id) ==> IsDone(s, id)
    ensures Tries(s, id) == [] ==> !IsDone(s, id)
  {
  }

  lemma StraightDistinct(p: Plan, i: nat, m: nat)
    requires Straight(p) && i < |p.stages| && m < |p.stages| && i != m
    ensures p.stages[i].id != p.stages[m].id
  {
  }

  /** Stages that complete go by in the order declared, one step and one call each; with the last of them the run
      has succeeded. */
  lemma {:induction false} StraightRun(p: Plan, answers: seq<Answers>)
    requires Straight(p) && |answers| <= |p.stages| && forall a | a in answers :: a.bindings && Passes(a.external)
    ensures Through(p, Steps(Submit(p), answers), |answers|)
    ensures Calls(Submit(p), answers) == seq(|answers|, i requires 0 <= i < |answers| => ExecuteCall(p.stages[i].id, 1))
  {
    hide Straight, Through, Submit, Advance, Passes;
    var m := |answers|;
    if m == 0 {
      StraightBegins(p);
    } else {
      var before := answers[..m - 1];
      assert answers[m - 1] in answers;
      StraightRun(p, before);
      GoesThrough(p, Steps(Submit(p), before), m - 1, answers[m - 1]);
    }
  }

  // --- Work that is waited for ------------------------------------------------

  predicate Sole(p: Plan, authority: Authority) {
    && |p.stages| == 1 && p.stages[0].id != "" && p.stages[0].enabled && p.stages[0].kind != Correct
    && p.stages[0].dependsOn == [] && p.stages[0].authority == authority
  }

  /** The only attempt of the only stage runs, with this handle and these children. */
  ghost predicate InFlight(p: Plan, s: RunState, handle: Option<string>, children: seq<Child>)
    requires p.stages != []
  {
    && s.plan == p && s.status == Active && !s.cancelIntent && s.pending == [] && s.corrections == 0
    && s.current == Some(p.stages[0].id) && s.children == children
    && Tries(s, p.stages[0].id) == [Attempt(1, Running, handle, None)]
  }

  ghost predicate Finished1(p: Plan, s: RunState, children: seq<Child>)
    requires p.stages != []
  {
    s.status == Succeeded && s.code == Some(Success) && DoneOnce(s, p.stages[0].id) && s.children == children
  }

  lemma SoleStage(p: Plan, authority: Authority)
    requires Sole(p, authority)
    ensures p.stages[0].id in StageIds(p) && StageOf(p, p.stages[0].id) == p.stages[0]
  {
    assert p.stages[0].id in StageIds(p);
  }

  lemma SoleHasStage(p: Plan, authority: Authority)
    requires Sole(p, authority)
    ensures p.stages != []
  {
  }

  lemma SoleSubmit(p: Plan, authority: Authority)
    requires Sole(p, authority)
    ensures var s, id := Submit(p), p.stages[0].id;
      s == RunState(p, Active, None, Some(id), false, map[], 0, map[], [], [], false, false)
  {
    SoleStage(p, authority);
    assert Ready(Submit(p).(current := None), p.stages[0]);
  }

  /** The only stage of a plan is done: the run has succeeded. */
  lemma SoleDone(p: Plan, authority: Authority, s: RunState)
    requires Sole(p, authority) && s.plan == p && s.status == Active && s.pending == [] && IsDone(s, p.stages[0].id)
    ensures NextStage(s).final == s.(status := Succeeded, code := Some(Success))
  {
    hide IsDone;
    SoleStage(p, authority);
    assert !Ready(s, p.stages[0]);
    assert FirstReady(s) == None && AllWorkDone(s);
  }

  /** The handle on record: the last one that was given. */
  function LaterHandle(handle: Option<string>, r: Reply): Option<string> {
    if r.handle.GoodHandle? then Some(r.handle.text) else handle
  }

  lemma Passed(p: Plan, authority: Authority, s: RunState, handle: Option<string>, children: seq<Child>, r: Reply)
    requires Sole(p, authority) && InFlight(p, s, handle, children) && Passes(r)
    ensures Finished1(p, Record(s, p.stages[0], r).final, children)
    ensures LastTry(Record(s, p.stages[0], r).final, p.stages[0].id).handle == LaterHandle(handle, r)
    ensures Unsaved(Record(s, p.stages[0], r).effects) == []
  {
    hide NextStage;
    var st := p.stages[0];
    var u := SetLast(s, st.id, Finished(LastTry(s, st.id), r));
    assert Record(s, st, r) == After([Save(u)], NextStage(u));
    DoneOrNot(u, u, st.id);
    SoleDone(p, authority, u);
    AttemptsOnly(u, NextStage(u).final);
    NextStageSaves(u);
    UnsavedJoin([Save(u)], NextStage(u).effects);
  }

  predicate DoneWith(s: RunState, id: string, handle: Option<string>) {
    Tries(s, id) != [] && LastTry(s, id).handle == handle
  }

  /** The provider has accepted the work, and says so with a handle. */
  predicate Accepts(a: Answers) {
    a.bindings && a.external.status.ReplyWaiting? && a.external.handle.GoodHandle?
  }

  function HandleOf(a: Answers): Option<string> {
    match a.external.handle case GoodHandle(h) => Some(h) case _ => None
  }

  lemma FirstAccepted(p: Plan, a: Answers)
    requires Sole(p, External) && Accepts(a)
    ensures var o := Advance(Submit(p), a);
      InFlight(p, o.final, HandleOf(a), []) && Unsaved(o.effects) == [ExecuteCall(p.stages[0].id, 1)]
  {
    hide StageOf, StageIds, Submit, Unsaved;
    SoleSubmit(p, External);
    SoleStage(p, External);
    var s, st := Submit(p), p.stages[0];
    var s1 := Started(s, st.id);
    var o := Advance(s, a);
    assert o == After([Save(s1)], Perform(s1, st, false, a));
    assert o.effects == [Save(s1), ExecuteCall(st.id, 1), Save(o.final)];
    CallBetweenSaves(s1, ExecuteCall(st.id, 1), o.final);
  }

  lemma StillAccepted(p: Plan, s: RunState, handle: Option<string>, a: Answers)
    requires Sole(p, External) && handle.Some? && InFlight(p, s, handle, []) && Accepts(a)
    ensures var o := Advance(s, a);
      InFlight(p, o.final, HandleOf(a), []) && Unsaved(o.effects) == [PollCall(p.stages[0].id, 1)]
  {
    hide StageOf, StageIds, Unsaved;
    SoleStage(p, External);
    var st, o := p.stages[0], Advance(s, a);
    assert o == Perform(s, st, true, a);
    assert o.effects == [PollCall(st.id, 1), Save(o.final)];
    CallThenSave(PollCall(st.id, 1), o.final);
  }

  lemma CallThenSave(e: Effect, u: RunState)
    requires !e.Save?
    ensures Unsaved([e, Save(u)]) == [e]
  {
    assert [e, Save(u)][1..] == [Save(u)] && [Save(u)][1..] == [];
    assert Unsaved([Save(u)]) == [];
  }

  lemma PollPasses(p: Plan, s: RunState, handle: Option<string>, a: Answers)
    requires Sole(p, External) && handle.Some? && InFlight(p, s, handle, []) && a.bindings && Passes(a.external)
    ensures Finished1(p, Advance(s, a).final, []) && Unsaved(Advance(s, a).effects) == [PollCall(p.stages[0].id, 1)]
    ensures DoneWith(Advance(s, a).final, p.stages[0].id, LaterHandle(handle, a.external))
  {
    hide StageOf, StageIds, Record, LaterHandle;
    SoleStage(p, External);
    var st := p.stages[0];
    Passed(p, External, s, handle, [], a.external);
    assert Advance(s, a) == Perform(s, st, true, a) == After([PollCall(st.id, 1)], Record(s, st, a.external));
    assert ([PollCall(st.id, 1)] + Record(s, st, a.external).effects)[1..] == Record(s, st, a.external).effects;
  }

  /** An external stage that is accepted and waited for: it is executed once, its last handle is on record, and each
      later step polls it. */
  lemma {:induction false} AcceptedRun(p: Plan, answers: seq<Answers>)
    requires Sole(p, External) && answers != [] && forall a | a in answers :: Accepts(a)
    ensures var s, id, m := Steps(Submit(p), answers), p.stages[0].id, |answers|;
      && InFlight(p, s, HandleOf(answers[m - 1]), [])
      && Calls(Submit(p), answers) == [ExecuteCall(id, 1)] + seq(m - 1, _ => PollCall(id, 1))
  {
    hide InFlight, Submit, Advance, Accepts;
    var m := |answers|;
    var before, a := answers[..m - 1], answers[m - 1];
    assert a in answers;
    if m == 1 {
      FirstAccepted(p, a);
    } else {
      AcceptedRun(p, before);
      assert before[m - 2] in answers;
      AcceptsHandle(before[m - 2]);
      StillAccepted(p, Steps(Submit(p), before), HandleOf(before[m - 2]), a);
    }
  }

  /** And when it completes, on whichever poll, the run has succeeded with that one attempt. */
  lemma AcceptedThenDone(p: Plan, answers: seq<Answers>, a: Answers)
    requires Sole(p, External) && answers != [] && (forall b | b in answers :: Accepts(b)) && a.bindings && Passes(a.external)
    ensures var id := p.stages[0].id;
      && Finished1(p, Steps(Submit(p), answers + [a]), [])
      && DoneWith(Steps(Submit(p), answers + [a]), id, LaterHandle(HandleOf(answers[|answers| - 1]), a.external))
      && Calls(Submit(p), answers + [a]) == [ExecuteCall(id, 1)] + seq(|answers|, _ => PollCall(id, 1))
  {
    hide InFlight, Finished1, DoneWith, LaterHandle, Submit, Advance, Accepts, Passes, HandleOf, Steps, Calls, Sole, Unsaved;
    AcceptedRun(p, answers);
    var s, m := Steps(Submit(p), answers), |answers|;
    assert answers[m - 1] in answers;
    SoleHasStage(p, External);
    AcceptsHandle(answers[m - 1]);
    PollPasses(p, s, HandleOf(answers[m - 1]), a);
    CallsNext(Submit(p), answers, a);
  }

  lemma AcceptsHandle(a: Answers)
    requires Accepts(a)
    ensures HandleOf(a).Some?
  {
  }

  /** Work that was accepted without a handle to ask for it again cannot be resumed: the run ends there. */
  lemma AcceptedWithoutHandle(p: Plan, a: Answers)
    requires Sole(p, External) && a.bindings && a.external.status.ReplyWaiting? && !a.external.handle.GoodHandle?
    ensures var o, id := Advance(Submit(p), a), p.stages[0].id;
      && o.final.status == Broken && o.final.code == Some(UnsafeResume)
      && |Tries(o.final, id)| == 1 && Tries(o.final, id)[0].status == Failed && Unsaved(o.effects) == [ExecuteCall(id, 1)]
  {
    hide StageOf, StageIds, Submit, Unsaved;
    SoleSubmit(p, External);
    SoleStage(p, External);
    var s, st, r := Submit(p), p.stages[0], FailedReply(UnsafeOutcome);
    var s1 := Started(s, st.id);
    assert Tries(s1, st.id) == [Attempt(1, Running, None, None)];
    var o := Advance(s, a);
    assert o == After([Save(s1)], After([ExecuteCall(st.id, 1)], Record(s1, st, r)));
    FailedTries1(s1, st.id, r);
    var u := SetLast(s1, st.id, Finished(LastTry(s1, st.id), r));
    assert o.effects == [Save(s1), ExecuteCall(st.id, 1), Save(u)] + [Save(o.final)];
    UnsavedJoin([Save(s1), ExecuteCall(st.id, 1), Save(u)], [Save(o.final)]);
    CallBetweenSaves(s1, ExecuteCall(st.id, 1), u);
    AttemptsOnly(u, o.final);
  }

  predicate Keyed(c: Child, key: Key) {
    c.stage == key.stage && c.key == key && !c.cancelled
  }

  /** A child whose job says that it is queued, running or completed. */
  predicate Alive(c: Child, stage: string, polls: map<string, JobStatus>) {
    c.stage == stage && !c.cancelled && c.job in polls && (polls[c.job] == JobWaiting || polls[c.job] == JobCompleted)
  }

  lemma {:induction false} NewestKeyed(cs: seq<Child>, key: Key)
    ensures forall i | FindKey(cs, key) < i < |cs| :: !Keyed(cs[i], key)
  {
    if cs != [] {
      var n := |cs| - 1;
      NewestKeyed(cs[..n], key);
      forall i | FindKey(cs, key) < i < |cs| ensures !Keyed(cs[i], key) {
        if i < n {
          assert cs[..n][i] == cs[i];
        }
      }
    }
  }

  lemma {:induction false} NewestAlive(cs: seq<Child>, stage: string, polls: map<string, JobStatus>)
    ensures forall i | FindReusable(cs, stage, polls) < i < |cs| :: !Alive(cs[i], stage, polls)
  {
    if cs != [] {
      var n := |cs| - 1;
      NewestAlive(cs[..n], stage, polls);
      forall i | FindReusable(cs, stage, polls) < i < |cs| ensures !Alive(cs[i], stage, polls) {
        if i < n {
          assert cs[..n][i] == cs[i];
        }
      }
    }
  }

  /** Which child serves an attempt: the newest with its key; when none has it, the newest whose job is alive; and when
      there is none either, a new one. */
  lemma ChildChosen(s: RunState, key: Key, polls: map<string, JobStatus>)
    ensures var k, cs := FindChild(s, key, polls), s.children;
      if k < |cs| && Keyed(cs[k], key) then forall i | k < i < |cs| :: !Keyed(cs[i], key)
      else
        && (forall i | 0 <= i < |cs| :: !Keyed(cs[i], key))
        && (if k < |cs| then Alive(cs[k], key.stage, polls) && forall i | k < i < |cs| :: !Alive(cs[i], key.stage, polls)
            else forall i | 0 <= i < |cs| :: !Alive(cs[i], key.stage, polls))
  {
    NewestKeyed(s.children, key);
    NewestAlive(s.children, key.stage, polls);
  }

  /** The job of the stage is still queued or in flight. */
  predicate Queued(a: Answers) {
    a.bindings && a.poll.status.ReplyWaiting?
  }

  /** The one child of the run. */
  function Only(p: Plan, job: string, status: JobStatus): seq<Child>
    requires p.stages != []
  {
    [Child(job, p.stages[0].id, Key(p.stages[0].id, 1), status, false)]
  }

  lemma FirstQueued(p: Plan, a: Answers)
    requires Sole(p, Leaf) && Queued(a)
    ensures var o := Advance(Submit(p), a);
      && InFlight(p, o.final, None, Only(p, a.job, JobWaiting))
      && Unsaved(o.effects) == [SubmitCall(Key(p.stages[0].id, 1))]
  {
    hide StageOf, StageIds, Submit, Unsaved, FindChild, Polled;
    SoleSubmit(p, Leaf);
    SoleStage(p, Leaf);
    var s, st := Submit(p), p.stages[0];
    var s1, key := Started(s, st.id), Key(st.id, 1);
    var o := Advance(s, a);
    assert o == After([Save(s1)], RunLeaf(s1, st, a));
    NoChildYet(s1, key, a.polls);
    var s2 := WithChild(s1, key, a.job);
    PolledOnly(s2, a.poll);
    var s3 := Polled(s2, 0, a.poll);
    assert Settle(s3, st, LeafReply(a.poll)) == Saved(s3);
    assert o.effects == [Save(s1), SubmitCall(key), Save(s2)] + [Save(s3), Save(s3)];
    UnsavedJoin([Save(s1), SubmitCall(key), Save(s2)], [Save(s3), Save(s3)]);
    CallBetweenSaves(s1, SubmitCall(key), s2);
  }

  lemma NoChildYet(s: RunState, key: Key, polls: map<string, JobStatus>)
    requires s.children == []
    ensures FindChild(s, key, polls) == 0
  {
  }

  lemma PolledOnly(s: RunState, r: Reply)
    requires |s.children| == 1
    ensures Polled(s, 0, r) == s.(children := [s.children[0].(status := JobOf(r.status))])
  {
  }

  lemma OnlyFound(p: Plan, s: RunState, job: string, polls: map<string, JobStatus>)
    requires p.stages != [] && s.children == Only(p, job, JobWaiting)
    ensures FindChild(s, Key(p.stages[0].id, 1), polls) == 0
  {
  }

  lemma StillQueued(p: Plan, s: RunState, job: string, a: Answers)
    requires Sole(p, Leaf) && InFlight(p, s, None, Only(p, job, JobWaiting)) && Queued(a)
    ensures InFlight(p, Advance(s, a).final, None, Only(p, job, JobWaiting)) && Unsaved(Advance(s, a).effects) == []
  {
    hide StageOf, StageIds, Unsaved, FindChild, Polled;
    SoleStage(p, Leaf);
    OnlyFound(p, s, job, a.polls);
    PolledOnly(s, a.poll);
    var st, o, s1 := p.stages[0], Advance(s, a), Polled(s, 0, a.poll);
    assert o == Perform(s, st, true, a) == RunLeaf(s, st, a) == After([Save(s1)], Saved(s1));
    UnsavedJoin([], o.effects);
    assert [] + o.effects == o.effects;
    NothingUnsaved();
  }

  lemma NothingUnsaved()
    ensures Unsaved([]) == []
  {
  }

  lemma JobPasses(p: Plan, s: RunState, job: string, a: Answers)
    requires Sole(p, Leaf) && InFlight(p, s, None, Only(p, job, JobWaiting)) && a.bindings && Passes(a.poll)
    ensures Finished1(p, Advance(s, a).final, Only(p, job, JobCompleted)) && Unsaved(Advance(s, a).effects) == []
  {
    hide StageOf, StageIds, Unsaved, FindChild, Polled, Record, Finished1;
    SoleStage(p, Leaf);
    OnlyFound(p, s, job, a.polls);
    PolledOnly(s, a.poll);
    var st, s1, r := p.stages[0], Polled(s, 0, a.poll), LeafReply(a.poll);
    Passed(p, Leaf, s1, None, Only(p, job, JobCompleted), r);
    assert Advance(s, a) == Perform(s, st, true, a) == RunLeaf(s, st, a) == After([Save(s1)], Record(s1, st, r));
    SavedFirst(s1, Record(s1, st, r).effects);
  }

  lemma SavedFirst(s: RunState, es: seq<Effect>)
    ensures Unsaved([Save(s)] + es) == Unsaved(es)
  {
    assert ([Save(s)] + es)[1..] == es;
  }

  /** A leaf stage that is waited for: its job is submitted once, whatever the later steps are told about other jobs. */
  lemma {:induction false} QueuedRun(p: Plan, answers: seq<Answers>)
    requires Sole(p, Leaf) && answers != [] && forall a | a in answers :: Queued(a)
    ensures InFlight(p, Steps(Submit(p), answers), None, Only(p, answers[0].job, JobWaiting))
    ensures Calls(Submit(p), answers) == [SubmitCall(Key(p.stages[0].id, 1))]
  {
    hide InFlight, Submit, Advance, Queued, Only;
    var m := |answers|;
    var before, a := answers[..m - 1], answers[m - 1];
    assert a in answers;
    if m == 1 {
      FirstQueued(p, a);
    } else {
      QueuedRun(p, before);
      StillQueued(p, Steps(Submit(p), before), answers[0].job, a);
    }
  }

  /** And when the job completes the run has succeeded, with that one job completed. */
  lemma QueuedThenDone(p: Plan, answers: seq<Answers>, a: Answers)
    requires Sole(p, Leaf) && answers != [] && (forall b | b in answers :: Queued(b)) && a.bindings && Passes(a.poll)
    ensures Finished1(p, Steps(Submit(p), answers + [a]), Only(p, answers[0].job, JobCompleted))
    ensures Calls(Submit(p), answers + [a]) == [SubmitCall(Key(p.stages[0].id, 1))]
  {
    hide InFlight, Finished1, Submit, Advance, Queued, Passes, Steps, Calls, Unsaved, Only;
    QueuedRun(p, answers);
    JobPasses(p, Steps(Submit(p), answers), answers[0].job, a);
    CallsNext(Submit(p), answers, a);
  }

  /** A poll that says the job has ended badly is on record for the child, and the attempt has failed. */
  lemma JobEnds(p: Plan, s: RunState, job: string, a: Answers)
    requires Sole(p, Leaf) && InFlight(p, s, None, Only(p, job, JobWaiting)) && a.bindings
    requires a.poll.status == ReplyFailed || a.poll.status == ReplyCancelled || a.poll.status == ReplyOther
    ensures var f, st := Advance(s, a).final, p.stages[0];
      && f.children == Only(p, job, if a.poll.status == ReplyFailed then JobFailed else if a.poll.status == ReplyCancelled then JobCancelled else JobOther)
      && |Tries(f, st.id)| == 1 && Tries(f, st.id)[0].status == Failed
      && (if a.poll.failure == UnsafeOutcome then f.status == Broken && f.code == Some(UnsafeResume)
          else if UsedUp(st.retry, 1) then f.status == Broken && f.code == Some(
            if st.kind == Generate then LeafError else if a.poll.failure == TimedOut then ProviderTimeout else ProviderError)
          else f.status == Active && f.current == Some(st.id))
  {
    hide StageOf, StageIds, FindChild, Polled, UsedUp;
    SoleStage(p, Leaf);
    OnlyFound(p, s, job, a.polls);
    PolledOnly(s, a.poll);
    var st, s1, r := p.stages[0], Polled(s, 0, a.poll), FailedReply(a.poll.failure);
    assert Advance(s, a).final == RunLeaf(s, st, a).final == Record(s1, st, r).final;
    FailedTries1(s1, st.id, r);
    if a.poll.failure != UnsafeOutcome {
      FailureEnds(s1, st, r);
    }
  }

  lemma FailedTries1(s: RunState, id: string, r: Reply)
    requires |Tries(s, id)| == 1 && !r.status.ReplyCompleted?
    ensures var u := SetLast(s, id, Finished(LastTry(s, id), r)); |Tries(u, id)| == 1 && Tries(u, id)[0].status == Failed && u.children == s.children
  {
  }

  /** Without its inputs, or without an authority that is known, a stage fails as any other does, and nobody is called. */
  lemma NobodyCalled(p: Plan, authority: Authority, a: Answers)
    requires Sole(p, authority) && (!a.bindings || authority == UnknownAuthority)
    ensures var o, st := Advance(Submit(p), a), p.stages[0];
      && Unsaved(o.effects) == [] && |Tries(o.final, st.id)| == 1 && Tries(o.final, st.id)[0].status == Failed
      && (if UsedUp(st.retry, 1) then o.final.status == Broken && o.final.code == Some(if st.kind == Generate then LeafError else ProviderError)
          else o.final.status == Active && o.final.current == Some(st.id))
  {
    hide StageOf, StageIds, Submit, Unsaved, UsedUp, HandleFailure;
    SoleSubmit(p, authority);
    SoleStage(p, authority);
    var s, st, r := Submit(p), p.stages[0], FailedReply(OtherFailure);
    var s1 := Started(s, st.id);
    assert Tries(s1, st.id) == [Attempt(1, Running, None, None)];
    assert Advance(s, a) == After([Save(s1)], Record(s1, st, r));
    FailureEnds(s1, st, r);
    FailureOnlySaves(s1, st, r);
    SavedFirst(s1, Record(s1, st, r).effects);
  }

  lemma FailureOnlySaves(s: RunState, st: Stage, r: Reply)
    requires Tries(s, st.id) != [] && r.status.ReplyFailed?
    ensures Unsaved(Record(s, st, r).effects) == []
  {
    var es := Record(s, st, r).effects;
    UnsavedJoin([], es);
    assert [] + es == es;
    NothingUnsaved();
  }

  // --- What comes next, and what a cancellation stops -------------------------

  /** After a stage that is done with: what is queued comes first; then the first stage that is ready, under a fresh
      note unless it is current already; and then the end, in success if nothing is left undone. */
  lemma NextChosen(s: RunState, i: nat)
    requires s.status == Active
    requires forall k | 0 <= k < i && k < |s.plan.stages| :: var st := StageOf(s.plan, s.plan.stages[k].id); st.kind == Correct || !Ready(s, st)
    requires i < |s.plan.stages| ==>
      var st := StageOf(s.plan, s.plan.stages[i].id); st.kind != Correct && Ready(s, st)
    ensures var f := NextStage(s).final;
      if s.pending != [] then f == s.(current := None)
      else if i < |s.plan.stages| then f == (if s.current == Some(s.plan.stages[i].id) then s else s.(current := Some(s.plan.stages[i].id), note := false))
      else if forall k | 0 <= k < |s.plan.stages| :: s.plan.stages[k].enabled && s.plan.stages[k].kind != Correct ==> IsDone(s, s.plan.stages[k].id)
      then f == s.(status := Succeeded, code := Some(Success))
      else f == s.(status := Broken, code := Some(CoordinatorError))
  {
    hide Ready, StageOf, IsDone;
    if i < |s.plan.stages| {
      FirstReadyIsFirst(s, s.plan.stages, i);
    }
  }

  /** A child that has come to its end. */
  predicate Over(c: Child) {
    c.cancelled || c.status == JobCompleted || c.status == JobFailed || c.status == JobCancelled
  }

  predicate StopsIt(c: Child, a: Answers) {
    c.job in a.leafStops && a.leafStops[c.job]
  }

  /** A cancellation stops each child that is not over and answers, and leaves the others as they were; it succeeds when
      none that is not over fails to answer, and neither does an external stage that runs. */
  lemma CancelEffects(s: RunState, a: Answers)
    requires s.status == Active && s.cancelIntent && !s.cancelled
    ensures var f := Advance(s, a).final;
      var external := s.current.Some? && Latest(s, s.current.value) == Some(Running) && s.current.value in StageIds(s.plan)
                      && StageOf(s.plan, s.current.value).authority == External;
      var stopped := (external ==> a.externalStops) && forall i | 0 <= i < |s.children| :: Over(s.children[i]) || StopsIt(s.children[i], a);
      && f.cancelled && !f.cancelIntent && f.attempts == s.attempts && |f.children| == |s.children|
      && (forall i | 0 <= i < |s.children| ::
            f.children[i] == if !Over(s.children[i]) && StopsIt(s.children[i], a)
                             then s.children[i].(cancelled := true, status := JobCancelled) else s.children[i])
      && f.status == (if stopped then Cancelled else Broken)
      && f.code == Some(if stopped then CoordinatorCancelled else UnsafeResume)
  {
    hide Latest, StageOf, StageIds;
    forall i | 0 <= i < |s.children| ensures Unstopped(s.children[i], a.leafStops) <==> !(Over(s.children[i]) || StopsIt(s.children[i], a)) {
    }
  }

  // --- Rounds of correction ---------------------------------------------------

  lemma {:induction false} LoopIsFirst(loops: seq<Loop>, trigger: string)
    ensures LoopFor(loops, trigger).None? <==> forall i | 0 <= i < |loops| :: loops[i].trigger != trigger
    ensures forall i | 0 <= i < |loops| && loops[i].trigger == trigger && (forall k | 0 <= k < i :: loops[k].trigger != trigger) ::
      LoopFor(loops, trigger) == Some(loops[i])
  {
    if loops != [] {
      var rest := loops[1..];
      LoopIsFirst(rest, trigger);
      forall i | 0 <= i < |rest| ensures rest[i] == loops[i + 1] {
      }
      forall i | 0 <= i < |loops| && loops[i].trigger == trigger && (forall k | 0 <= k < i :: loops[k].trigger != trigger)
        ensures LoopFor(loops, trigger) == Some(loops[i])
      {
        if i > 0 {
          assert rest[i - 1] == loops[i] && loops[0].trigger != trigger;
        }
      }
    }
  }

  lemma {:induction false} CorrectIsFirst(stages: seq<Stage>)
    ensures FirstCorrect(stages).None? <==> forall i | 0 <= i < |stages| :: stages[i].kind != Correct
    ensures forall i | 0 <= i < |stages| && stages[i].kind == Correct && (forall k | 0 <= k < i :: stages[k].kind != Correct) ::
      FirstCorrect(stages) == Some(stages[i].id)
  {
    if stages != [] {
      var rest := stages[1..];
      CorrectIsFirst(rest);
      forall i | 0 <= i < |rest| ensures rest[i] == stages[i + 1] {
      }
      forall i | 0 <= i < |stages| && stages[i].kind == Correct && (forall k | 0 <= k < i :: stages[k].kind != Correct)
        ensures FirstCorrect(stages) == Some(stages[i].id)
      {
        if i > 0 {
          assert rest[i - 1] == stages[i] && stages[0].kind != Correct;
        }
      }
    }
  }

  /** Which loop a failing stage opens: the first that names it; for want of one, the first correction stage, as often
      as the plan allows; and none when there is neither. */
  lemma LoopChosen(p: Plan, qc: string, i: nat)
    requires i < |p.loops| ==> p.loops[i].trigger == qc
    requires forall k | 0 <= k < i && k < |p.loops| :: p.loops[k].trigger != qc
    ensures i < |p.loops| ==> CorrectionLoop(p, qc) == Some(p.loops[i])
    ensures i >= |p.loops| ==> forall j | 0 <= j < |p.stages| && p.stages[j].kind == Correct && (forall k | 0 <= k < j :: p.stages[k].kind != Correct) ::
      CorrectionLoop(p, qc) == Some(Loop(p.stages[j].id, qc, p.stages[j].id, [], p.maxCorrections))
    ensures i >= |p.loops| && (forall j | 0 <= j < |p.stages| :: p.stages[j].kind != Correct) ==> CorrectionLoop(p, qc) == None
  {
    hide LoopFor, FirstCorrect;
    LoopIsFirst(p.loops, qc);
    CorrectIsFirst(p.stages);
  }

  /** A stage that is judged, a stage that corrects, and the loop between them. */
  predicate Repairs(p: Plan) {
    && |p.stages| == 2 && p.stages[0].id != "" && p.stages[0].id != p.stages[1].id
    && p.stages[0].kind == Qc && p.stages[0].enabled && p.stages[0].dependsOn == [] && p.stages[0].authority == External
    && p.stages[1].kind == Correct && p.stages[1].authority == External
    && |p.loops| == 1 && p.loops[0].trigger == p.stages[0].id
    && p.loops[0].correction == p.stages[1].id && p.loops[0].onCorrection == [p.stages[0].id]
  }

  /** The work is done and judged wanting. */
  predicate Rejects(p: Plan, a: Answers)
    requires p.stages != []
  {
    && a.bindings && a.external.status.ReplyCompleted? && !a.external.handle.BadHandle?
    && a.external.verdict == Some(Verdict(p.stages[0].id, false))
  }

  lemma RepairStages(p: Plan)
    requires Repairs(p)
    ensures var q, c := p.stages[0], p.stages[1];
      q.id in StageIds(p) && c.id in StageIds(p) && StageOf(p, q.id) == q && StageOf(p, c.id) == c
  {
    assert p.stages[0].id in StageIds(p) && p.stages[1].id in StageIds(p);
    assert p.stages[..1] == [p.stages[0]];
  }

  /** So many steps into the loop: the judged stage and the correction take turns, and the queue holds the rest of the round. */
  ghost predicate Turn(p: Plan, s: RunState, m: nat)
    requires Repairs(p)
  {
    var q, c, l := p.stages[0].id, p.stages[1].id, p.loops[0];
    && s.plan == p && s.status == Active && !s.cancelIntent && s.corrections == (m + 1) / 2 && IterationsOf(s, l.id) == (m + 1) / 2
    && |Tries(s, q)| == (m + 1) / 2 && |Tries(s, c)| == m / 2
    && !IsRunning(s, q) && !IsRunning(s, c)
    && if m == 0 then s.current == Some(q) && s.pending == []
       else s.current == None && IsBad(s, q) && s.pending == if m % 2 == 1 then [c, q] else [q]
  }

  ghost predicate Exhausted(p: Plan, s: RunState, rounds: nat)
    requires Repairs(p)
  {
    && s.status == Broken && !s.cancelIntent && s.code == Some(QcExhausted)
    && |Tries(s, p.stages[0].id)| == rounds + 1 && |Tries(s, p.stages[1].id)| == rounds
  }

  lemma FirstTurn(p: Plan)
    requires Repairs(p)
    ensures Turn(p, Submit(p), 0)
  {
    RepairStages(p);
    assert Ready(Submit(p).(current := None), p.stages[0]);
  }

  /** One more attempt of the stage under the cursor, completed with this reply. */
  lemma Attempted(s: RunState, id: string, r: Reply)
    requires r.status.ReplyCompleted? && !r.handle.BadHandle?
    ensures var s1 := Started(s, id);
      && Tries(s1, id) != [] && LastTry(s1, id).num == |Tries(s, id)| + 1
      && var u := SetLast(s1, id, Finished(LastTry(s1, id), r));
      && u == s.(attempts := u.attempts) && |Tries(u, id)| == |Tries(s, id)| + 1 && IsDone(u, id)
      && (r.verdict.Some? ==> LastTry(u, id).verdict == r.verdict)
      && (forall other | other != id :: Tries(u, other) == Tries(s, other))
  {
  }

  /** A stage is run, whichever way the cursor came to it. */
  lemma RunsOnce(s: RunState, id: string, a: Answers)
    requires s.current == Some(id) && id in StageIds(s.plan) && StageOf(s.plan, id).authority == External
    requires !IsRunning(s, id) && (IsDone(s, id) ==> IsBad(s, id) || (s.corrections > 0 && s.note))
    requires a.bindings && a.external.status.ReplyCompleted?
    ensures var s1 := Started(s, id);
      Tries(s1, id) != [] && RunCurrent(s, a).final == Record(s1, StageOf(s.plan, id), a.external).final
  {
    hide StageOf, StageIds, Record, IsDone, IsBad, IsRunning;
    var s1 := Started(s, id);
    assert RunCurrent(s, a).final == Perform(s1, StageOf(s.plan, id), false, a).final;
  }

  /** The judged stage is rejected: a round more, or the end. */
  lemma Rejected(p: Plan, s: RunState, rounds: nat, a: Answers)
    requires Repairs(p) && Rejects(p, a)
    requires var q, c, l := p.stages[0].id, p.stages[1].id, p.loops[0];
      && s.plan == p && s.status == Active && !s.cancelIntent && s.corrections == rounds && IterationsOf(s, l.id) == rounds
      && |Tries(s, q)| == rounds && |Tries(s, c)| == rounds && !IsRunning(s, c)
    ensures var q, s1 := p.stages[0], Started(s, p.stages[0].id);
      && Tries(s1, q.id) != []
      && var f := Record(s1, q, a.external).final;
      if rounds < p.loops[0].maxIterations then Turn(p, f, 2 * rounds + 1) else Exhausted(p, f, rounds)
  {
    var q, l := p.stages[0], p.loops[0];
    var s1 := Started(s, q.id);
    Attempted(s, q.id, a.external);
    var u := SetLast(s1, q.id, Finished(LastTry(s1, q.id), a.external));
    assert CorrectionLoop(p, q.id) == Some(l) && [l.correction] + l.onCorrection == [p.stages[1].id, q.id];
    var f := Record(s1, q, a.external).final;
    assert f == HandleQc(u, Verdict(q.id, false)).final;
    AttemptsOnly(u, f);
  }

  /** The stage at the head of the queue becomes current. */
  lemma TakesHead(s: RunState, a: Answers) returns (u: RunState)
    requires s.status == Active && !s.cancelIntent && s.current == None && s.pending != [] && s.pending[0] in StageIds(s.plan)
    ensures u == s.(current := Some(s.pending[0]), pending := s.pending[1..], note := s.corrections > 0)
    ensures Advance(s, a).final == RunCurrent(u, a).final
    ensures forall id :: Tries(u, id) == Tries(s, id)
  {
    hide StageIds, RunCurrent;
    u := s.(current := Some(s.pending[0]), pending := s.pending[1..], note := s.corrections > 0);
  }

  lemma JudgedTurn(p: Plan, s: RunState, m: nat, a: Answers)
    requires Repairs(p) && Turn(p, s, m) && m % 2 == 0 && Rejects(p, a)
    ensures var f := Advance(s, a).final;
      if m / 2 < p.loops[0].maxIterations then Turn(p, f, m + 1) else Exhausted(p, f, m / 2)
  {
    hide StageOf, StageIds, Record, RunCurrent, Exhausted;
    RepairStages(p);
    var q := p.stages[0].id;
    var u := s;
    if m > 0 {
      u := TakesHead(s, a);
    } else {
      assert Advance(s, a) == RunCurrent(s, a);
    }
    RunsOnce(u, q, a);
    Rejected(p, u, m / 2, a);
  }

  lemma CorrectionTurn(p: Plan, s: RunState, m: nat, a: Answers)
    requires Repairs(p) && Turn(p, s, m) && m % 2 == 1 && Rejects(p, a)
    ensures Turn(p, Advance(s, a).final, m + 1)
  {
    hide StageOf, StageIds, RunCurrent;
    RepairStages(p);
    var c := p.stages[1].id;
    var u := TakesHead(s, a);
    RunsOnce(u, c, a);
    Attempted(u, c, a.external);
    var s1 := Started(u, c);
    var w := SetLast(s1, c, Finished(LastTry(s1, c), a.external));
    var f := Record(s1, p.stages[1], a.external).final;
    assert f == w.(current := None);
    AttemptsOnly(w, f);
  }

  /** How many rounds a loop makes when every result is rejected: as many as the plan says, and then the run ends;
      each round is one attempt of the correction and one of the judged stage. */
  lemma {:induction false} RoundsRunOut(p: Plan, answers: seq<Answers>)
    requires Repairs(p) && forall a | a in answers :: Rejects(p, a)
    ensures var s, m, most := Steps(Submit(p), answers), |answers|, if p.loops[0].maxIterations < 0 then 0 else p.loops[0].maxIterations;
      if m <= 2 * most then Turn(p, s, m) else Exhausted(p, s, most)
  {
    hide Repairs, Rejects, Turn, Exhausted, Submit, Advance;
    RepairsLoop(p);
    var m, most := |answers|, if p.loops[0].maxIterations < 0 then 0 else p.loops[0].maxIterations;
    if m == 0 {
      FirstTurn(p);
    } else {
      var before, a := answers[..m - 1], answers[m - 1];
      assert a in answers;
      RoundsRunOut(p, before);
      var u := Steps(Submit(p), before);
      if m - 1 > 2 * most {
        ExhaustedStays(p, u, most, a);
      } else if m % 2 == 1 {
        JudgedTurn(p, u, m - 1, a);
      } else {
        CorrectionTurn(p, u, m - 1, a);
      }
    }
  }

  lemma RepairsLoop(p: Plan)
    requires Repairs(p)
    ensures |p.stages| == 2 && |p.loops| == 1
  {
  }

  lemma ExhaustedStays(p: Plan, s: RunState, rounds: nat, a: Answers)
    requires Repairs(p) && Exhausted(p, s, rounds)
    ensures Advance(s, a).final == s
  {
  }

  /** And when the result is accepted, in any round the plan allows, the run has succeeded. */
  lemma AcceptedInTime(p: Plan, answers: seq<Answers>, a: Answers)
    requires Repairs(p) && (forall b | b in answers :: Rejects(p, b)) && a.bindings && Passes(a.external)
    requires |answers| % 2 == 0 && (answers != [] ==> |answers| <= 2 * p.loops[0].maxIterations)
    ensures var s := Steps(Submit(p), answers + [a]);
      s.status == Succeeded && s.code == Some(Success) && s.corrections == |answers| / 2
  {
    hide Turn, Exhausted, Submit, Advance, Steps, Calls, Unsaved, StageOf, StageIds, Record, RunCurrent, Passes, Rejects;
    RoundsRunOut(p, answers);
    CallsNext(Submit(p), answers, a);
    JudgedPasses(p, Steps(Submit(p), answers), |answers|, a);
  }

  lemma JudgedPasses(p: Plan, s: RunState, m: nat, a: Answers)
    requires Repairs(p) && Turn(p, s, m) && m % 2 == 0 && a.bindings && Passes(a.external)
    ensures var f := Advance(s, a).final;
      f.status == Succeeded && f.code == Some(Success) && f.corrections == m / 2
  {
    hide StageOf, StageIds, RunCurrent, FirstReady, AllWorkDone;
    RepairStages(p);
    var q := p.stages[0];
    var u := s;
    if m > 0 {
      u := TakesHead(s, a);
    } else {
      assert Advance(s, a) == RunCurrent(s, a);
    }
    hide Record;
    RunsOnce(u, q.id, a);
    Approved(p, u, a.external);
  }

  lemma Approved(p: Plan, s: RunState, r: Reply)
    requires Repairs(p) && s.plan == p && s.status == Active && s.pending == [] && Passes(r)
    ensures Tries(Started(s, p.stages[0].id), p.stages[0].id) != []
    ensures var f := Record(Started(s, p.stages[0].id), p.stages[0], r).final;
      f.status == Succeeded && f.code == Some(Success) && f.corrections == s.corrections
  {
    hide FirstReady, AllWorkDone;
    var q := p.stages[0];
    Attempted(s, q.id, r);
    var s1 := Started(s, q.id);
    var w := SetLast(s1, q.id, Finished(LastTry(s1, q.id), r));
    assert Record(s1, q, r).final == NextStage(w).final;
    RepairDone(p, w);
  }

  lemma RepairDone(p: Plan, s: RunState)
    requires Repairs(p) && s.plan == p && IsDone(s, p.stages[0].id)
    ensures FirstReady(s) == None && AllWorkDone(s)
  {
    hide IsDone;
    RepairStages(p);
    assert p.stages[1..] == [p.stages[1]];
  }
}
