// One `advance` of the pipeline coordinator, scripts/pipeline_coordinator.py:1358-2242, as the
// sequence of effects it has: durable saves and calls to providers. A crash keeps a prefix.

module PipelineModel {
  import opened Common

  // --- Plans ------------------------------------------------------------------

  datatype Authority = External | Leaf | UnknownAuthority

  datatype Kind = Correct | Qc | Generate | OtherKind

  /** `retry.max_attempts`, or the older `retries` count. */
  datatype Retry = MaxAttempts(n: int) | Retries(n: int)

  datatype Stage = Stage(id: string, kind: Kind, enabled: bool, dependsOn: seq<string>, authority: Authority, retry: Retry)

  datatype Loop = Loop(id: string, trigger: string, correction: string, onCorrection: seq<string>, maxIterations: int)

  datatype Plan = Plan(stages: seq<Stage>, loops: seq<Loop>, maxCorrections: int)

  // --- Run state --------------------------------------------------------------

  /** Stage statuses that attempts ever carry. */
  datatype StageStatus = Running | Completed | Failed

  datatype Verdict = Verdict(stage: string, passed: bool)

  /** What the idempotency key hashes, within one run: stage and attempt number. */
  datatype Key = Key(stage: string, attempt: nat)

  datatype Attempt = Attempt(num: nat, status: StageStatus, handle: Option<string>, verdict: Option<Verdict>)

  /** Queued and in-flight jobs wait; "other" is any status the coordinator does not know. */
  datatype JobStatus = JobWaiting | JobCompleted | JobFailed | JobCancelled | JobOther

  datatype Child = Child(job: string, stage: string, key: Key, status: JobStatus, cancelled: bool)

  datatype RunStatus = Active | Succeeded | Broken | Cancelled

  datatype TerminalCode =
    | Success | QcExhausted | ProviderTimeout | ProviderError | LeafError | CoordinatorError
    | CoordinatorCancelled | UnsafeResume

  datatype RunState = RunState(
    plan: Plan, status: RunStatus, code: Option<TerminalCode>,
    current: Option<string>, note: bool,
    attempts: map<string, seq<Attempt>>,
    corrections: nat, iterations: map<string, nat>, pending: seq<string>,
    children: seq<Child>, cancelled: bool, cancelIntent: bool)

  // --- Providers --------------------------------------------------------------

  datatype ReplyStatus = ReplyCompleted | ReplyFailed | ReplyWaiting | ReplyCancelled | ReplyOther

  datatype Handle = NoHandle | GoodHandle(text: string) | BadHandle

  datatype Failure = UnsafeOutcome | TimedOut | OtherFailure

  /** A normalized stage result. */
  datatype Reply = Reply(status: ReplyStatus, handle: Handle, verdict: Option<Verdict>, failure: Failure)

  /** What the environment answers during one advance. A job missing from `polls` raises. */
  datatype Answers = Answers(
    bindings: bool, external: Reply, job: string, polls: map<string, JobStatus>, poll: Reply,
    externalStops: bool, leafStops: map<string, bool>)

  datatype Effect =
    | Save(state: RunState)
    | ExecuteCall(stage: string, attempt: nat)
    | PollCall(stage: string, attempt: nat)
    | SubmitCall(key: Key)

  datatype Outcome = Outcome(effects: seq<Effect>, final: RunState)

  function After(before: seq<Effect>, o: Outcome): Outcome {
    Outcome(before + o.effects, o.final)
  }

  /** Save and return. */
  function Saved(s: RunState): Outcome {
    Outcome([Save(s)], s)
  }

  // --- Reading a state --------------------------------------------------------

  function StageIds(p: Plan): set<string> {
    set i | 0 <= i < |p.stages| :: p.stages[i].id
  }

  /** `stage_map[id]`: the last stage declared with that id. */
  function StageIn(stages: seq<Stage>, id: string): (st: Stage)
    requires exists i | 0 <= i < |stages| :: stages[i].id == id
    ensures st.id == id && st in stages
  {
    var n := |stages| - 1;
    if stages[n].id == id then stages[n]
    else
      assert exists i | 0 <= i < n :: stages[..n][i].id == id by {
        var i :| 0 <= i < |stages| && stages[i].id == id;
        assert stages[..n][i].id == id;
      }
      StageIn(stages[..n], id)
  }

  function StageOf(p: Plan, id: string): (st: Stage)
    requires id in StageIds(p)
    ensures st.id == id && st in p.stages
  {
    StageIn(p.stages, id)
  }

  function Tries(s: RunState, id: string): seq<Attempt> {
    if id in s.attempts then s.attempts[id] else []
  }

  function Latest(s: RunState, id: string): Option<StageStatus> {
    var t := Tries(s, id);
    if t == [] then None else Some(t[|t| - 1].status)
  }

  predicate IsRunning(s: RunState, id: string) {
    Latest(s, id) == Some(Running)
  }

  predicate IsDone(s: RunState, id: string) {
    Latest(s, id) == Some(Completed)
  }

  predicate CurrentRunning(s: RunState) {
    s.current.Some? && IsRunning(s, s.current.value)
  }

  /** The latest attempt completed, but with a failing verdict. */
  predicate IsBad(s: RunState, id: string) {
    var t := Tries(s, id);
    IsDone(s, id) && t[|t| - 1].verdict.Some? && !t[|t| - 1].verdict.value.passed
  }

  predicate IsTerminal(s: RunState) {
    !s.status.Active?
  }

  /** Disabled dependencies count as done; unknown ones never are. */
  predicate DepsDone(s: RunState, st: Stage) {
    forall i | 0 <= i < |st.dependsOn| ::
      && st.dependsOn[i] in StageIds(s.plan)
      && (StageOf(s.plan, st.dependsOn[i]).enabled ==> IsDone(s, st.dependsOn[i]))
  }

  /** `_stage_ready` */
  predicate Ready(s: RunState, st: Stage) {
    st.enabled && st.id != "" && !IsDone(s, st.id) && DepsDone(s, st)
  }

  function FirstReadyIn(s: RunState, stages: seq<Stage>): (r: Option<string>)
    requires forall i | 0 <= i < |stages| :: stages[i].id in StageIds(s.plan)
    ensures r.Some? ==>
      && r.value in StageIds(s.plan)
      && StageOf(s.plan, r.value).kind != Correct
      && Ready(s, StageOf(s.plan, r.value))
    ensures r.None? ==> forall i | 0 <= i < |stages| ::
      var st := StageOf(s.plan, stages[i].id); st.kind == Correct || !Ready(s, st)
  {
    if stages == [] then None
    else
      var st := StageOf(s.plan, stages[0].id);
      if st.kind != Correct && Ready(s, st) then Some(st.id)
      else
        assert forall i | 0 <= i < |stages[1..]| :: stages[1..][i] == stages[i + 1];
        var r := FirstReadyIn(s, stages[1..]);
        assert r.None? ==> forall i | 1 <= i < |stages| :: stages[i] == stages[1..][i - 1];
        r
  }

  /** `_first_ready_stage_id` */
  function FirstReady(s: RunState): Option<string> {
    FirstReadyIn(s, s.plan.stages)
  }

  predicate AllWorkDone(s: RunState) {
    forall i | 0 <= i < |s.plan.stages| ::
      s.plan.stages[i].enabled && s.plan.stages[i].kind != Correct ==> IsDone(s, s.plan.stages[i].id)
  }

  function MaxAttemptsOf(st: Stage): nat {
    var n := match st.retry case MaxAttempts(n) => n case Retries(n) => n + 1;
    if n < 1 then 1 else if n > 11 then 11 else n
  }

  // --- Ends of a step ---------------------------------------------------------

  function StatusOf(code: TerminalCode): RunStatus {
    match code
    case Success => Succeeded
    case CoordinatorCancelled => Cancelled
    case _ => Broken
  }

  /** `_terminalize` */
  function Terminalize(s: RunState, code: TerminalCode): Outcome {
    if IsTerminal(s) then Outcome([], s) else Saved(s.(status := StatusOf(code), code := Some(code)))
  }

  /** `_advance_to_next_stage` */
  function NextStage(s: RunState): Outcome {
    if s.pending != [] then Saved(s.(current := None))
    else
      match FirstReady(s)
      case None => Terminalize(s, if AllWorkDone(s) then Success else CoordinatorError)
      case Some(id) =>
        if s.current == Some(id) then Saved(s) else Saved(s.(current := Some(id), note := false))
  }

  function LoopFor(loops: seq<Loop>, trigger: string): (r: Option<Loop>)
    ensures r.Some? ==> r.value in loops && r.value.trigger == trigger
  {
    if loops == [] then None else if loops[0].trigger == trigger then Some(loops[0]) else LoopFor(loops[1..], trigger)
  }

  function FirstCorrect(stages: seq<Stage>): (r: Option<string>) {
    if stages == [] then None else if stages[0].kind == Correct then Some(stages[0].id) else FirstCorrect(stages[1..])
  }

  /** The declared loop of a QC stage, or the fallback over the first correction stage. */
  function CorrectionLoop(p: Plan, qc: string): Option<Loop> {
    match LoopFor(p.loops, qc)
    case Some(l) => Some(l)
    case None =>
      match FirstCorrect(p.stages)
      case None => None
      case Some(c) => Some(Loop(c, qc, c, [], p.maxCorrections))
  }

  function IterationsOf(s: RunState, loopId: string): nat {
    if loopId in s.iterations then s.iterations[loopId] else 0
  }

  /** `_handle_qc_result` */
  function HandleQc(s: RunState, v: Verdict): Outcome {
    if v.passed then NextStage(s)
    else
      match CorrectionLoop(s.plan, v.stage)
      case None => Terminalize(s, QcExhausted)
      case Some(l) =>
        var n := IterationsOf(s, l.id);
        if n >= l.maxIterations then Terminalize(s, QcExhausted)
        else Saved(s.(iterations := s.iterations[l.id := n + 1], corrections := s.corrections + 1,
                      pending := [l.correction] + l.onCorrection, current := None, note := true))
  }

  /** `_handle_stage_failure` */
  function HandleFailure(s: RunState, st: Stage, failure: Failure): Outcome {
    var t := Tries(s, st.id);
    if failure.UnsafeOutcome? then Terminalize(s, UnsafeResume)
    else if (if t == [] then 1 else t[|t| - 1].num) < MaxAttemptsOf(st) then Saved(s.(current := Some(st.id), note := true))
    else Terminalize(s, if st.kind == Generate then LeafError else if failure.TimedOut? then ProviderTimeout else ProviderError)
  }

  // --- Recording a result -----------------------------------------------------

  function SetLast(s: RunState, id: string, a: Attempt): RunState
    requires Tries(s, id) != []
  {
    var t := Tries(s, id);
    s.(attempts := s.attempts[id := t[..|t| - 1] + [a]])
  }

  function LastTry(s: RunState, id: string): Attempt
    requires Tries(s, id) != []
  {
    Tries(s, id)[|Tries(s, id)| - 1]
  }

  /** The finished attempt: a completed reply with an invalid handle counts as failed. */
  function Finished(a: Attempt, r: Reply): Attempt {
    a.(status := if r.status.ReplyCompleted? && !r.handle.BadHandle? then Completed else Failed,
       handle := match r.handle { case GoodHandle(h) => Some(h) case _ => a.handle },
       verdict := if r.verdict.Some? then r.verdict else a.verdict)
  }

  function Record(s: RunState, st: Stage, r: Reply): Outcome
    requires Tries(s, st.id) != []
  {
    var s1 := SetLast(s, st.id, Finished(LastTry(s, st.id), r));
    After([Save(s1)],
      if r.handle.BadHandle? then HandleFailure(s1, st, OtherFailure)
      else if r.status.ReplyFailed? then HandleFailure(s1, st, r.failure)
      else if r.verdict.Some? && st.kind == Qc then HandleQc(s1, r.verdict.value)
      else NextStage(s1))
  }

  function FailedReply(failure: Failure): Reply {
    Reply(ReplyFailed, NoHandle, None, failure)
  }

  /** A waiting reply is saved and left in flight, or refused when it cannot be resumed. */
  function Settle(s: RunState, st: Stage, r: Reply): Outcome
    requires Tries(s, st.id) != []
  {
    if !r.status.ReplyWaiting? then Record(s, st, r)
    else if st.authority.External? then
      match r.handle
      case GoodHandle(h) => Saved(SetLast(s, st.id, LastTry(s, st.id).(handle := Some(h))))
      case _ => Record(s, st, FailedReply(UnsafeOutcome))
    else Saved(s)
  }

  // --- Leaf stages ------------------------------------------------------------

  /** Index of the newest child with the key, the length when there is none. */
  function FindKey(cs: seq<Child>, key: Key): (k: nat)
    ensures k <= |cs|
    ensures k < |cs| ==> cs[k].stage == key.stage && cs[k].key == key && !cs[k].cancelled
    ensures k == |cs| ==> forall i | 0 <= i < |cs| :: !(cs[i].stage == key.stage && cs[i].key == key && !cs[i].cancelled)
  {
    if cs == [] then 0
    else
      var n := |cs| - 1;
      if cs[n].stage == key.stage && cs[n].key == key && !cs[n].cancelled then n
      else
        var k := FindKey(cs[..n], key);
        assert k == n ==> forall i | 0 <= i < n :: cs[i] == cs[..n][i];
        if k == n then |cs| else k
  }

  predicate Reusable(c: Child, stage: string, polls: map<string, JobStatus>) {
    c.stage == stage && !c.cancelled && c.job in polls && (polls[c.job].JobWaiting? || polls[c.job].JobCompleted?)
  }

  /** Index of the newest child of the stage that answers queued, in flight or completed. */
  function FindReusable(cs: seq<Child>, stage: string, polls: map<string, JobStatus>): (k: nat)
    ensures k <= |cs|
    ensures k < |cs| ==> Reusable(cs[k], stage, polls)
    ensures k == |cs| ==> forall i | 0 <= i < |cs| :: !Reusable(cs[i], stage, polls)
  {
    if cs == [] then 0
    else
      var n := |cs| - 1;
      if Reusable(cs[n], stage, polls) then n
      else
        var k := FindReusable(cs[..n], stage, polls);
        assert k == n ==> forall i | 0 <= i < n :: cs[i] == cs[..n][i];
        if k == n then |cs| else k
  }

  /** The child that serves the attempt: by key, by reuse, or none yet. */
  function FindChild(s: RunState, key: Key, polls: map<string, JobStatus>): (k: nat)
    ensures k <= |s.children|
  {
    var k := FindKey(s.children, key);
    if k < |s.children| then k else FindReusable(s.children, key.stage, polls)
  }

  function JobOf(r: ReplyStatus): JobStatus {
    match r
    case ReplyWaiting => JobWaiting
    case ReplyCompleted => JobCompleted
    case ReplyFailed => JobFailed
    case ReplyCancelled => JobCancelled
    case ReplyOther => JobOther
  }

  /** A leaf poll: an unknown status is a failure, and leaf replies carry no handle. */
  function LeafReply(r: Reply): Reply {
    match r.status
    case ReplyCompleted => Reply(ReplyCompleted, NoHandle, r.verdict, r.failure)
    case ReplyWaiting => Reply(ReplyWaiting, NoHandle, None, r.failure)
    case _ => FailedReply(r.failure)
  }

  function Polled(s: RunState, k: nat, r: Reply): RunState
    requires k < |s.children|
  {
    s.(children := s.children[k := s.children[k].(status := JobOf(r.status))])
  }

  function WithChild(s: RunState, key: Key, job: string): RunState {
    s.(children := s.children + [Child(job, key.stage, key, JobWaiting, false)])
  }

  /** `_execute_leaf`, then the rest of the step. */
  function RunLeaf(s: RunState, st: Stage, a: Answers): Outcome
    requires Tries(s, st.id) != []
  {
    var key := Key(st.id, LastTry(s, st.id).num);
    var k := FindChild(s, key, a.polls);
    if k < |s.children| then
      var s1 := Polled(s, k, a.poll);
      After([Save(s1)], Settle(s1, st, LeafReply(a.poll)))
    else
      var s1 := WithChild(s, key, a.job);
      var s2 := Polled(s1, k, a.poll);
      After([SubmitCall(key), Save(s1), Save(s2)], Settle(s2, st, LeafReply(a.poll)))
  }

  // --- The step ---------------------------------------------------------------

  /** Run or resume the last attempt of the stage. */
  function Perform(s: RunState, st: Stage, resumed: bool, a: Answers): Outcome
    requires Tries(s, st.id) != []
  {
    var last := LastTry(s, st.id);
    if !a.bindings then Settle(s, st, FailedReply(OtherFailure))
    else
      match st.authority
      case External =>
        if !resumed then After([ExecuteCall(st.id, last.num)], Settle(s, st, a.external))
        else if last.handle.Some? then After([PollCall(st.id, last.num)], Settle(s, st, a.external))
        else Settle(s, st, FailedReply(UnsafeOutcome))
      case Leaf => RunLeaf(s, st, a)
      case UnknownAuthority => Settle(s, st, FailedReply(OtherFailure))
  }

  function Started(s: RunState, id: string): RunState {
    var t := Tries(s, id);
    s.(attempts := s.attempts[id := t + [Attempt(|t| + 1, Running, None, None)]])
  }

  /** The step from the resolved cursor on. */
  function RunCurrent(s: RunState, a: Answers): Outcome {
    if s.current.None? || s.current.value !in StageIds(s.plan) then Terminalize(s, Success)
    else
      var id := s.current.value;
      var st := StageOf(s.plan, id);
      if IsDone(s, id) && !IsBad(s, id) && !(s.corrections > 0 && s.note) then NextStage(s)
      else if IsRunning(s, id) then Perform(s, st, true, a)
      else
        var s1 := Started(s, id);
        After([Save(s1)], Perform(s1, st, false, a))
  }

  /** Children whose receipts a cancellation leaves alone. */
  predicate Settled(c: Child) {
    c.cancelled || c.status.JobCompleted? || c.status.JobFailed? || c.status.JobCancelled?
  }

  function StopChild(c: Child, stops: map<string, bool>): Child {
    if !Settled(c) && c.job in stops && stops[c.job] then c.(cancelled := true, status := JobCancelled) else c
  }

  function StopAll(cs: seq<Child>, stops: map<string, bool>): (r: seq<Child>)
    ensures |r| == |cs| && forall i | 0 <= i < |cs| :: r[i] == StopChild(cs[i], stops)
  {
    seq(|cs|, i requires 0 <= i < |cs| => StopChild(cs[i], stops))
  }

  /** A child that was asked to stop and did not. */
  predicate Unstopped(c: Child, stops: map<string, bool>) {
    !Settled(c) && !(c.job in stops && stops[c.job])
  }

  predicate ExternalActive(s: RunState) {
    CurrentRunning(s) && s.current.value in StageIds(s.plan) && StageOf(s.plan, s.current.value).authority.External?
  }

  /** `_cascade_cancellation` */
  function Cascade(s: RunState, a: Answers): Outcome {
    var unresolved := (ExternalActive(s) && !a.externalStops)
      || exists i | 0 <= i < |s.children| :: Unstopped(s.children[i], a.leafStops);
    var s1 := s.(cancelled := true, cancelIntent := false, children := StopAll(s.children, a.leafStops));
    Terminalize(s1, if unresolved then UnsafeResume else CoordinatorCancelled)
  }

  /** `advance` */
  function Advance(s: RunState, a: Answers): Outcome {
    if s.cancelIntent && !s.cancelled then Cascade(s, a)
    else if IsTerminal(s) then Outcome([], s)
    else if s.pending != [] && !CurrentRunning(s) then
      if s.pending[0] !in StageIds(s.plan) then Saved(s.(pending := s.pending[1..]))
      else
        var s1 := s.(current := Some(s.pending[0]), pending := s.pending[1..], note := s.corrections > 0);
        After([Save(s1)], RunCurrent(s1, a))
    else RunCurrent(s, a)
  }

  /** `submit`: the first durable state of a run. */
  function Submit(p: Plan): RunState {
    var s := RunState(p, Active, None, None, false, map[], 0, map[], [], [], false, false);
    s.(current := FirstReady(s))
  }

  /** `request_cancellation` on a run that is not terminal. */
  function RequestCancel(s: RunState): RunState {
    if IsTerminal(s) then s else s.(cancelIntent := true)
  }

  // --- Crashes ----------------------------------------------------------------

  /** The durable state once a prefix of the effects has happened. */
  function Durable(s: RunState, es: seq<Effect>): RunState
  {
    if es == [] then s
    else if es[|es| - 1].Save? then es[|es| - 1].state
    else Durable(s, es[..|es| - 1])
  }
}
