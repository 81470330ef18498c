// The parent stream: submit, deliver, advance, acknowledge, requeue, reclaim, cancel and crash, in any
// interleaving of any number of consumers. No run in progress is ever left without a stream entry.

module ParentQueue {
  import opened Common
  import opened PipelineModel
  import opened PipelineAttempts
  import opened PipelinePersistence

  // --- The stream and its consumer group --------------------------------------

  /** Entry e carries the run `stream[e]`; entries below `delivered` have been delivered once, and those
      not acknowledged since are in the pending list under their consumer. */
  datatype Server = Server(stream: seq<string>, delivered: nat, pel: map<nat, string>)

  predicate Unacked(v: Server, e: nat) {
    e < |v.stream| && (e >= v.delivered || e in v.pel)
  }

  function Enqueued(v: Server, run: string): Server {
    v.(stream := v.stream + [run])
  }

  function Delivered(v: Server, consumer: string): Server {
    v.(delivered := v.delivered + 1, pel := v.pel[v.delivered := consumer])
  }

  function Acked(v: Server, e: nat): Server {
    v.(pel := v.pel - {e})
  }

  /** XADD of the new entry and XACK of the old one, as one transaction. */
  function Replaced(v: Server, run: string, e: nat): Server {
    Acked(Enqueued(v, run), e)
  }

  /** Another taken entry of the same run is newer. */
  predicate Superseded(v: Server, taken: set<nat>, e: nat) {
    e < |v.stream| && exists n | n in taken :: n > e && n < |v.stream| && v.stream[n] == v.stream[e]
  }

  /** Taken entries move to the consumer; of each run only the newest stays pending. */
  function Reclaimed(v: Server, consumer: string, taken: set<nat>): Server {
    v.(pel := map e | e in v.pel && !(e in taken && Superseded(v, taken, e)) :: if e in taken then consumer else v.pel[e])
  }

  /** A reclaim that raised on the way: it claimed some entries and acknowledged some that a newer one
      supersedes. */
  function PartlyReclaimed(v: Server, consumer: string, taken: set<nat>, dropped: set<nat>): Server {
    v.(pel := map e | e in v.pel && e !in dropped :: if e in taken then consumer else v.pel[e])
  }

  // --- Consumers --------------------------------------------------------------

  /** Where `process_one` stands: before a claim, with a claimed run, or after its advance. */
  datatype Phase = Idle | Claimed(run: string) | Advanced(run: string, terminal: bool)

  /** A consumer process; `entryIds` lives in its memory. */
  datatype Consumer = Consumer(phase: Phase, entryIds: map<string, nat>)

  datatype System = System(server: Server, runs: map<string, RunState>, consumers: map<string, Consumer>)

  const FRESH := Consumer(Idle, map[])

  function ConsumerOf(y: System, c: string): Consumer {
    if c in y.consumers then y.consumers[c] else FRESH
  }

  function With(y: System, c: string, k: Consumer): System {
    y.(consumers := y.consumers[c := k])
  }

  // --- Steps ------------------------------------------------------------------

  datatype Move =
    | Submitted(run: string, plan: Plan)
    | Deliver(consumer: string)
    | Reclaim(consumer: string, taken: set<nat>, chosen: string)
    /** The reclaim raises after some of its commands. */
    | ReclaimRaises(consumer: string, taken: set<nat>, dropped: set<nat>, remembered: set<string>)
    /** The first effects of the advance happen; `returned` tells whether the call came back. */
    | Tick(consumer: string, answers: Answers, survived: nat, returned: bool)
    /** The closing store call; `applied` on the server, `confirmed` to the client. */
    | Finish(consumer: string, applied: bool, confirmed: bool)
    | Cancel(consumer: string, run: string, applied: bool, confirmed: bool)
    | Crash(consumer: string)

  function Chosen(v: Server, taken: set<nat>): set<string> {
    set e | e in taken && e < |v.stream| :: v.stream[e]
  }

  /** The newest taken entry of the run. */
  ghost predicate IsNewest(v: Server, taken: set<nat>, run: string, e: nat) {
    e in taken && e < |v.stream| && v.stream[e] == run && !Superseded(v, taken, e)
  }

  ghost function Newest(v: Server, taken: set<nat>): map<string, nat> {
    map run | run in Chosen(v, taken) && (exists e: nat :: IsNewest(v, taken, run, e)) ::
      var e: nat :| IsNewest(v, taken, run, e); e
  }

  /** The remembered entries of the given runs. */
  ghost function NewestOf(v: Server, taken: set<nat>, done: set<string>): map<string, nat> {
    map run | run in Newest(v, taken) && run in done :: Newest(v, taken)[run]
  }

  /** `requeue_parent` with the given memory. */
  function Requeue(y: System, c: string, run: string, applied: bool, confirmed: bool, phase: Phase): System {
    var ids := ConsumerOf(y, c).entryIds;
    var v := if !applied then y.server
             else if run in ids then Replaced(y.server, run, ids[run])
             else Enqueued(y.server, run);
    var kept := if applied && confirmed then ids - {run} else ids;
    With(y.(server := v), c, Consumer(phase, kept))
  }

  predicate Enabled(y: System, m: Move) {
    match m
    case Submitted(_, _) => true
    case Deliver(c) => ConsumerOf(y, c).phase.Idle? && y.server.delivered < |y.server.stream|
    case Reclaim(c, taken, chosen) =>
      ConsumerOf(y, c).phase.Idle? && taken <= y.server.pel.Keys && chosen in Chosen(y.server, taken)
    case ReclaimRaises(c, taken, dropped, _) =>
      && ConsumerOf(y, c).phase.Idle? && taken <= y.server.pel.Keys
      && forall e | e in dropped :: e in taken && Superseded(y.server, taken, e)
    case Tick(c, _, _, _) => ConsumerOf(y, c).phase.Claimed? && ConsumerOf(y, c).phase.run in y.runs
    case Finish(c, _, _) => ConsumerOf(y, c).phase.Advanced?
    case Cancel(_, run, _, _) => run in y.runs
    case Crash(_) => true
  }

  ghost function Next(y: System, m: Move): System
    requires Enabled(y, m)
  {
    match m
    case Submitted(run, plan) =>
      if run in y.runs then y
      else y.(server := Enqueued(y.server, run), runs := y.runs[run := Submit(plan)])
    case Deliver(c) =>
      var e := y.server.delivered;
      var run := y.server.stream[e];
      With(y.(server := Delivered(y.server, c)), c, Consumer(Claimed(run), ConsumerOf(y, c).entryIds[run := e]))
    case Reclaim(c, taken, chosen) =>
      With(y.(server := Reclaimed(y.server, c, taken)), c,
           Consumer(Claimed(chosen), ConsumerOf(y, c).entryIds + Newest(y.server, taken)))
    case ReclaimRaises(c, taken, dropped, remembered) =>
      With(y.(server := PartlyReclaimed(y.server, c, taken, dropped)), c,
           Consumer(Idle, ConsumerOf(y, c).entryIds + NewestOf(y.server, taken, remembered)))
    case Tick(c, a, n, returned) =>
      var k := ConsumerOf(y, c);
      var s := y.runs[k.phase.run];
      if returned then
        With(y.(runs := y.runs[k.phase.run := Durable(s, Advance(s, a).effects)]), c,
             k.(phase := Advanced(k.phase.run, IsTerminal(Advance(s, a).final))))
      else
        With(y.(runs := y.runs[k.phase.run := Durable(s, Cut(Advance(s, a).effects, n))]), c, k.(phase := Idle))
    case Finish(c, applied, confirmed) =>
      var k := ConsumerOf(y, c);
      var run := k.phase.run;
      if !k.phase.terminal then Requeue(y, c, run, applied, confirmed, Idle)
      else
        With(y.(server := if applied && run in k.entryIds then Acked(y.server, k.entryIds[run]) else y.server), c,
             Consumer(Idle, k.entryIds - {run}))
    case Cancel(c, run, applied, confirmed) =>
      if IsTerminal(y.runs[run]) then y
      else Requeue(y.(runs := y.runs[run := RequestCancel(y.runs[run])]), c, run, applied, confirmed, ConsumerOf(y, c).phase)
    case Crash(c) => With(y, c, FRESH)
  }

  const START := System(Server([], 0, map[]), map[], map[])

  ghost predicate Allowed(y: System, moves: seq<Move>)
    decreases |moves|
  {
    moves == [] || (Enabled(y, moves[0]) && Allowed(Next(y, moves[0]), moves[1..]))
  }

  ghost function ReachedBy(y: System, moves: seq<Move>): System
    requires Allowed(y, moves)
    decreases |moves|
  {
    if moves == [] then y else ReachedBy(Next(y, moves[0]), moves[1..])
  }

  // --- The invariant ----------------------------------------------------------

  /** Every run in progress has an unacknowledged entry. */
  ghost predicate NoneLost(y: System) {
    forall run | run in y.runs && !IsTerminal(y.runs[run]) ::
      exists e: nat :: Unacked(y.server, e) && y.server.stream[e] == run
  }

  /** Every entry has its durable run. */
  predicate EntriesKnown(y: System) {
    && y.server.delivered <= |y.server.stream|
    && (forall e | e in y.server.pel :: e < y.server.delivered)
    && forall e | 0 <= e < |y.server.stream| :: y.server.stream[e] in y.runs
  }

  /** Remembered entries belong to their runs, and a run seen terminal is terminal. */
  predicate ConsumerOk(v: Server, runs: map<string, RunState>, k: Consumer) {
    && (forall run | run in k.entryIds :: k.entryIds[run] < |v.stream| && v.stream[k.entryIds[run]] == run)
    && (k.phase.Claimed? ==> k.phase.run in runs)
    && (k.phase.Advanced? ==> k.phase.run in runs && (k.phase.terminal ==> IsTerminal(runs[k.phase.run])))
  }

  ghost predicate Inv(y: System) {
    && NoneLost(y) && EntriesKnown(y)
    && forall c | c in y.consumers :: ConsumerOk(y.server, y.runs, y.consumers[c])
  }

  // --- Every step keeps it ----------------------------------------------------

  /** The stream only grows at its end. */
  predicate Extends(v: Server, w: Server) {
    v.stream <= w.stream
  }

  /** Runs stay, and terminal ones do not change. */
  predicate RunsKept(runs: map<string, RunState>, later: map<string, RunState>) {
    && runs.Keys <= later.Keys
    && forall run | run in runs && IsTerminal(runs[run]) :: later[run] == runs[run]
  }

  lemma ConsumersKept(y: System, z: System, c: string, k: Consumer)
    requires forall d | d in y.consumers :: ConsumerOk(y.server, y.runs, y.consumers[d])
    requires Extends(y.server, z.server) && RunsKept(y.runs, z.runs)
    requires z.consumers == y.consumers[c := k] && ConsumerOk(z.server, z.runs, k)
    ensures forall d | d in z.consumers :: ConsumerOk(z.server, z.runs, z.consumers[d])
  {
    hide IsTerminal;
    forall d | d in z.consumers ensures ConsumerOk(z.server, z.runs, z.consumers[d]) {
      if d != c {
        StillOk(y, z, y.consumers[d]);
      }
    }
  }

  lemma StillOk(y: System, z: System, k: Consumer)
    requires ConsumerOk(y.server, y.runs, k) && Extends(y.server, z.server) && RunsKept(y.runs, z.runs)
    ensures ConsumerOk(z.server, z.runs, k)
  {
    forall run | run in k.entryIds ensures k.entryIds[run] < |z.server.stream| && z.server.stream[k.entryIds[run]] == run {
      assert z.server.stream[k.entryIds[run]] == y.server.stream[k.entryIds[run]];
    }
  }

  lemma OwnOk(y: System, c: string)
    requires Inv(y)
    ensures ConsumerOk(y.server, y.runs, ConsumerOf(y, c))
  {
  }

  /** An advance, whole or cut, leaves a terminal run alone. */
  lemma TickKept(runs: map<string, RunState>, run: string, a: Answers, n: nat)
    requires run in runs
    ensures RunsKept(runs, runs[run := Durable(runs[run], Advance(runs[run], a).effects)])
    ensures RunsKept(runs, runs[run := Durable(runs[run], Cut(Advance(runs[run], a).effects, n))])
  {
    if IsTerminal(runs[run]) {
      TerminalEvent(runs[run], Step(a, n));
      TerminalEvent(runs[run], Step(a, |Advance(runs[run], a).effects|));
    }
  }

  /** With the stream as it was, only runs in progress that stay in progress need their entry. */
  lemma SameServerLosesNone(y: System, z: System)
    requires NoneLost(y) && z.server == y.server && z.runs.Keys == y.runs.Keys && RunsKept(y.runs, z.runs)
    ensures NoneLost(z)
  {
    forall run | run in z.runs && !IsTerminal(z.runs[run])
      ensures exists e: nat :: Unacked(z.server, e) && z.server.stream[e] == run
    {
      assert !IsTerminal(y.runs[run]);
    }
  }

  lemma EnqueueKeeps(v: Server, run: string, e: nat)
    requires Unacked(v, e)
    ensures Unacked(Enqueued(v, run), e) && Enqueued(v, run).stream[e] == v.stream[e]
  {
  }

  lemma EnqueueAdds(v: Server, run: string)
    requires v.delivered <= |v.stream|
    ensures Unacked(Enqueued(v, run), |v.stream|) && Enqueued(v, run).stream[|v.stream|] == run
  {
  }

  /** Requeueing acknowledges only the replaced entry of the run, which gets a new one. */
  lemma RequeueLosesNone(y: System, z: System, run: string, ids: map<string, nat>, applied: bool)
    requires NoneLost(y) && EntriesKnown(y) && run in y.runs
    requires run in ids ==> ids[run] < |y.server.stream| && y.server.stream[ids[run]] == run
    requires z.runs.Keys == y.runs.Keys && RunsKept(y.runs, z.runs)
    requires z.server == if !applied then y.server
                         else if run in ids then Replaced(y.server, run, ids[run]) else Enqueued(y.server, run)
    ensures NoneLost(z) && EntriesKnown(z) && Extends(y.server, z.server)
  {
    forall r | r in z.runs && !IsTerminal(z.runs[r])
      ensures exists e: nat :: Unacked(z.server, e) && z.server.stream[e] == r
    {
      if applied && r == run {
        EnqueueAdds(y.server, run);
        assert Unacked(z.server, |y.server.stream|);
      } else {
        assert !IsTerminal(y.runs[r]);
        var e: nat :| Unacked(y.server, e) && y.server.stream[e] == r;
        EnqueueKeeps(y.server, run, e);
        assert Unacked(z.server, e);
      }
    }
  }

  /** Acknowledging an entry of a terminal run loses nothing. */
  lemma AckLosesNone(y: System, z: System, run: string, e: nat)
    requires NoneLost(y) && run in y.runs && IsTerminal(y.runs[run]) && e < |y.server.stream| && y.server.stream[e] == run
    requires z.runs == y.runs && z.server == Acked(y.server, e)
    ensures NoneLost(z)
  {
    forall r | r in z.runs && !IsTerminal(z.runs[r])
      ensures exists n: nat :: Unacked(z.server, n) && z.server.stream[n] == r
    {
      var n: nat :| Unacked(y.server, n) && y.server.stream[n] == r;
      assert n != e;
      assert Unacked(z.server, n);
    }
  }

  /** Of the taken entries of a run, one is newest. */
  lemma {:induction false} NewestExists(v: Server, taken: set<nat>, e: nat) returns (n: nat)
    requires e in taken && e < |v.stream|
    ensures n >= e && IsNewest(v, taken, v.stream[e], n)
    decreases |v.stream| - e
  {
    if Superseded(v, taken, e) {
      var m :| m in taken && m > e && m < |v.stream| && v.stream[m] == v.stream[e];
      n := NewestExists(v, taken, m);
    } else {
      n := e;
    }
  }

  lemma ReclaimLosesNone(y: System, z: System, c: string, taken: set<nat>)
    requires NoneLost(y) && EntriesKnown(y) && taken <= y.server.pel.Keys
    requires z.runs == y.runs && z.server == Reclaimed(y.server, c, taken)
    ensures NoneLost(z) && EntriesKnown(z)
  {
    forall r | r in z.runs && !IsTerminal(z.runs[r])
      ensures exists n: nat :: Unacked(z.server, n) && z.server.stream[n] == r
    {
      var e: nat :| Unacked(y.server, e) && y.server.stream[e] == r;
      if e in taken {
        var n := NewestExists(y.server, taken, e);
        assert n in y.server.pel;
        assert Unacked(z.server, n);
      } else {
        assert Unacked(z.server, e);
      }
    }
  }

  /** Nor does one that raises on the way: what it acknowledged is superseded. */
  lemma RaiseLosesNone(y: System, z: System, c: string, taken: set<nat>, dropped: set<nat>)
    requires NoneLost(y) && EntriesKnown(y) && taken <= y.server.pel.Keys
    requires forall e | e in dropped :: e in taken && Superseded(y.server, taken, e)
    requires z.runs == y.runs && z.server == PartlyReclaimed(y.server, c, taken, dropped)
    ensures NoneLost(z) && EntriesKnown(z) && z.server.stream == y.server.stream
  {
    forall r | r in z.runs && !IsTerminal(z.runs[r])
      ensures exists n: nat :: Unacked(z.server, n) && z.server.stream[n] == r
    {
      var e: nat :| Unacked(y.server, e) && y.server.stream[e] == r;
      if e in dropped {
        var n := NewestExists(y.server, taken, e);
        assert n in y.server.pel && n !in dropped;
        assert Unacked(z.server, n);
      } else {
        assert Unacked(z.server, e);
      }
    }
  }

  lemma NewestOk(v: Server, taken: set<nat>, run: string)
    requires run in Newest(v, taken)
    ensures IsNewest(v, taken, run, Newest(v, taken)[run])
  {
  }

  lemma StepKeeps(y: System, m: Move)
    requires Inv(y) && Enabled(y, m)
    ensures Inv(Next(y, m))
  {
    match m
    case Submitted(run, plan) => SubmitKeeps(y, run, plan);
    case Deliver(c) => DeliverKeeps(y, c);
    case Reclaim(c, taken, chosen) => ReclaimKeeps(y, c, taken, chosen);
    case ReclaimRaises(c, taken, dropped, remembered) => RaiseKeeps(y, c, taken, dropped, remembered);
    case Tick(c, a, n, returned) => TickKeeps(y, c, a, n, returned);
    case Finish(c, applied, confirmed) => FinishKeeps(y, c, applied, confirmed);
    case Cancel(c, run, applied, confirmed) => CancelKeeps(y, c, run, applied, confirmed);
    case Crash(c) =>
      SameServerLosesNone(y, Next(y, m));
      ConsumersKept(y, Next(y, m), c, FRESH);
  }

  lemma SubmitKeeps(y: System, run: string, plan: Plan)
    requires Inv(y)
    ensures Inv(Next(y, Submitted(run, plan)))
  {
    hide Submit;
    var z := Next(y, Submitted(run, plan));
    if run !in y.runs {
      forall r | r in z.runs && !IsTerminal(z.runs[r])
        ensures exists e: nat :: Unacked(z.server, e) && z.server.stream[e] == r
      {
        if r == run {
          EnqueueAdds(y.server, run);
        } else {
          var e: nat :| Unacked(y.server, e) && y.server.stream[e] == r;
          EnqueueKeeps(y.server, run, e);
        }
      }
      forall d | d in z.consumers ensures ConsumerOk(z.server, z.runs, z.consumers[d]) {
        StillOk(y, z, y.consumers[d]);
      }
    }
  }

  lemma DeliverKeeps(y: System, c: string)
    requires Inv(y) && Enabled(y, Deliver(c))
    ensures Inv(Next(y, Deliver(c)))
  {
    var z := Next(y, Deliver(c));
    forall r | r in z.runs && !IsTerminal(z.runs[r])
      ensures exists e: nat :: Unacked(z.server, e) && z.server.stream[e] == r
    {
      var e: nat :| Unacked(y.server, e) && y.server.stream[e] == r;
      assert Unacked(z.server, e);
    }
    OwnOk(y, c);
    ConsumersKept(y, z, c, z.consumers[c]);
  }

  lemma ReclaimKeeps(y: System, c: string, taken: set<nat>, chosen: string)
    requires Inv(y) && Enabled(y, Reclaim(c, taken, chosen))
    ensures Inv(Next(y, Reclaim(c, taken, chosen)))
  {
    hide Newest, Reclaimed, IsTerminal;
    var z := Next(y, Reclaim(c, taken, chosen));
    ReclaimLosesNone(y, z, c, taken);
    ReclaimedStream(y.server, c, taken);
    OwnOk(y, c);
    var k := z.consumers[c];
    forall run | run in k.entryIds ensures k.entryIds[run] < |z.server.stream| && z.server.stream[k.entryIds[run]] == run {
      if run in Newest(y.server, taken) {
        NewestOk(y.server, taken, run);
      }
    }
    ConsumersKept(y, z, c, k);
  }

  lemma RaiseKeeps(y: System, c: string, taken: set<nat>, dropped: set<nat>, remembered: set<string>)
    requires Inv(y) && Enabled(y, ReclaimRaises(c, taken, dropped, remembered))
    ensures Inv(Next(y, ReclaimRaises(c, taken, dropped, remembered)))
  {
    hide Newest, PartlyReclaimed, IsTerminal, NoneLost, EntriesKnown;
    var z := Next(y, ReclaimRaises(c, taken, dropped, remembered));
    RaiseLosesNone(y, z, c, taken, dropped);
    OwnOk(y, c);
    var k := z.consumers[c];
    forall run | run in k.entryIds ensures k.entryIds[run] < |z.server.stream| && z.server.stream[k.entryIds[run]] == run {
      if run in NewestOf(y.server, taken, remembered) {
        NewestOk(y.server, taken, run);
      }
    }
    ConsumersKept(y, z, c, k);
  }

  lemma ReclaimedStream(v: Server, c: string, taken: set<nat>)
    ensures Reclaimed(v, c, taken).stream == v.stream
  {
  }

  lemma TickKeeps(y: System, c: string, a: Answers, n: nat, returned: bool)
    requires Inv(y) && Enabled(y, Tick(c, a, n, returned))
    ensures Inv(Next(y, Tick(c, a, n, returned)))
  {
    hide Advance;
    var z := Next(y, Tick(c, a, n, returned));
    var run := ConsumerOf(y, c).phase.run;
    TickKept(y.runs, run, a, n);
    if !IsTerminal(y.runs[run]) {
      AdvancePersists(y.runs[run], a);
    }
    SameServerLosesNone(y, z);
    OwnOk(y, c);
    ConsumersKept(y, z, c, z.consumers[c]);
  }

  lemma FinishKeeps(y: System, c: string, applied: bool, confirmed: bool)
    requires Inv(y) && Enabled(y, Finish(c, applied, confirmed))
    ensures Inv(Next(y, Finish(c, applied, confirmed)))
  {
    hide IsTerminal;
    var z := Next(y, Finish(c, applied, confirmed));
    var k := ConsumerOf(y, c);
    OwnOk(y, c);
    if !k.phase.terminal {
      RequeueLosesNone(y, z, k.phase.run, k.entryIds, applied);
    } else if applied && k.phase.run in k.entryIds {
      AckLosesNone(y, z, k.phase.run, k.entryIds[k.phase.run]);
    } else {
      SameServerLosesNone(y, z);
    }
    ConsumersKept(y, z, c, z.consumers[c]);
  }

  lemma CancelKeeps(y: System, c: string, run: string, applied: bool, confirmed: bool)
    requires Inv(y) && Enabled(y, Cancel(c, run, applied, confirmed))
    ensures Inv(Next(y, Cancel(c, run, applied, confirmed)))
  {
    var z := Next(y, Cancel(c, run, applied, confirmed));
    OwnOk(y, c);
    if !IsTerminal(y.runs[run]) {
      assert RunsKept(y.runs, z.runs);
      RequeueLosesNone(y, z, run, ConsumerOf(y, c).entryIds, applied);
      StillOk(y, z, ConsumerOf(y, c));
      ConsumersKept(y, z, c, z.consumers[c]);
    }
  }

  // --- Whole runs -------------------------------------------------------------

  lemma {:induction false} AlwaysKept(y: System, moves: seq<Move>)
    requires Inv(y) && Allowed(y, moves)
    ensures Inv(ReachedBy(y, moves))
    decreases |moves|
  {
    hide Inv, Next;
    if moves != [] {
      StepKeeps(y, moves[0]);
      AlwaysKept(Next(y, moves[0]), moves[1..]);
    }
  }

  /** No lost parent: in every interleaving, a run whose durable status is not terminal has an entry that
      is undelivered or pending; and every entry ever delivered finds its durable run. */
  lemma NoParentIsLost(moves: seq<Move>)
    requires Allowed(START, moves)
    ensures var y := ReachedBy(START, moves);
      && (forall run | run in y.runs && !IsTerminal(y.runs[run]) ::
            exists e: nat :: Unacked(y.server, e) && y.server.stream[e] == run)
      && (forall e | 0 <= e < |y.server.stream| :: y.server.stream[e] in y.runs)
      && (forall c | c in y.consumers && !y.consumers[c].phase.Idle? :: y.consumers[c].phase.run in y.runs)
  {
    AlwaysKept(START, moves);
  }

  // --- A consumer alone -------------------------------------------------------

  /** The consumer's own calls, none of which fails, and submissions. */
  predicate Alone(m: Move, c: string) {
    match m
    case Submitted(_, _) => true
    case Deliver(d) => d == c
    case Tick(d, _, _, returned) => d == c && returned
    case Finish(d, applied, confirmed) => d == c && applied && confirmed
    case _ => false
  }

  predicate Waits(v: Server, e: nat) {
    v.delivered <= e < |v.stream|
  }

  /** The run in hand. */
  function Hand(k: Consumer): Option<string> {
    match k.phase
    case Idle => None
    case Claimed(run) => Some(run)
    case Advanced(run, _) => Some(run)
  }

  /** What waits waits once, for a run in progress that is not in hand; and every such run waits. */
  ghost predicate WaitsOnce(v: Server, runs: map<string, RunState>, hand: Option<string>) {
    && (forall e: nat | Waits(v, e) :: v.stream[e] in runs && !IsTerminal(runs[v.stream[e]]) && hand != Some(v.stream[e]))
    && (forall d: nat, e: nat | Waits(v, d) && Waits(v, e) && v.stream[d] == v.stream[e] :: d == e)
    && (forall run | run in runs && !IsTerminal(runs[run]) && hand != Some(run) :: exists e: nat :: Waits(v, e) && v.stream[e] == run)
  }

  /** What is pending is the one entry of the run in hand. */
  predicate HoldsHand(v: Server, k: Consumer, c: string) {
    match Hand(k)
    case None => v.pel == map[] && k.entryIds == map[]
    case Some(run) => run in k.entryIds && k.entryIds == map[run := k.entryIds[run]] && v.pel == map[k.entryIds[run] := c]
  }

  ghost predicate Tidy(y: System, c: string) {
    var k := ConsumerOf(y, c);
    && y.server.delivered <= |y.server.stream|
    && (Hand(k).Some? ==> Hand(k).value in y.runs)
    && (k.phase.Claimed? ==> !IsTerminal(y.runs[k.phase.run]))
    && (k.phase.Advanced? ==> k.phase.terminal == IsTerminal(y.runs[k.phase.run]))
    && HoldsHand(y.server, k, c) && WaitsOnce(y.server, y.runs, Hand(k))
  }

  /** A new entry for a run that does not wait. */
  lemma WaitsMore(v: Server, runs: map<string, RunState>, hand: Option<string>, later: map<string, RunState>, run: string)
    requires WaitsOnce(v, runs, hand) && v.delivered <= |v.stream|
    requires run in later && !IsTerminal(later[run]) && (forall e: nat | Waits(v, e) :: v.stream[e] != run)
    requires later.Keys == runs.Keys + {run} && forall r | r in runs && r != run :: later[r] == runs[r]
    requires hand == Some(run) || run !in runs
    ensures WaitsOnce(Enqueued(v, run), later, if hand == Some(run) then None else hand)
  {
    hide IsTerminal;
    var w := Enqueued(v, run);
    forall r | r in later && !IsTerminal(later[r]) && (hand == Some(run) || hand != Some(r))
      ensures exists e: nat :: Waits(w, e) && w.stream[e] == r
    {
      if r == run {
        assert Waits(w, |v.stream|) && w.stream[|v.stream|] == r;
      } else {
        var e: nat :| Waits(v, e) && v.stream[e] == r;
        assert Waits(w, e) && w.stream[e] == r;
      }
    }
    forall e: nat | Waits(w, e) && e < |v.stream| ensures Waits(v, e) && w.stream[e] == v.stream[e] {
    }
  }

  lemma SubmitTidy(y: System, c: string, run: string, plan: Plan)
    requires Tidy(y, c)
    ensures Tidy(Next(y, Submitted(run, plan)), c)
  {
    hide Submit;
    var k := ConsumerOf(y, c);
    if run !in y.runs {
      SubmitActive(plan);
      WaitsMore(y.server, y.runs, Hand(k), y.runs[run := Submit(plan)], run);
    }
  }

  lemma SubmitActive(plan: Plan)
    ensures !IsTerminal(Submit(plan))
  {
  }

  lemma DeliverTidy(y: System, c: string)
    requires Tidy(y, c) && Enabled(y, Deliver(c))
    ensures Tidy(Next(y, Deliver(c)), c)
  {
    hide IsTerminal;
    var v, z := y.server, Next(y, Deliver(c));
    var e := v.delivered;
    assert Waits(v, e);
    forall n: nat | Waits(z.server, n) ensures Waits(v, n) && v.stream[n] != v.stream[e] {
    }
    forall r | r in z.runs && !IsTerminal(z.runs[r]) && r != v.stream[e] ensures exists n: nat :: Waits(z.server, n) && z.server.stream[n] == r {
      var n: nat :| Waits(v, n) && v.stream[n] == r;
      assert Waits(z.server, n);
    }
    assert ConsumerOf(z, c) == Consumer(Claimed(v.stream[e]), map[v.stream[e] := e]);
  }

  lemma TickTidy(y: System, c: string, a: Answers, n: nat)
    requires Tidy(y, c) && Enabled(y, Tick(c, a, n, true))
    ensures Tidy(Next(y, Tick(c, a, n, true)), c)
  {
    hide Advance, IsTerminal, Durable;
    var run := ConsumerOf(y, c).phase.run;
    AdvancePersists(y.runs[run], a);
    var z := Next(y, Tick(c, a, n, true));
    forall r | r in z.runs && !IsTerminal(z.runs[r]) && r != run ensures exists e: nat :: Waits(z.server, e) && z.server.stream[e] == r {
      var e: nat :| Waits(y.server, e) && y.server.stream[e] == r;
    }
  }

  lemma FinishTidy(y: System, c: string)
    requires Tidy(y, c) && Enabled(y, Finish(c, true, true))
    ensures Tidy(Next(y, Finish(c, true, true)), c)
  {
    hide IsTerminal;
    var k, v, z := ConsumerOf(y, c), y.server, Next(y, Finish(c, true, true));
    var run := k.phase.run;
    var e := k.entryIds[run];
    assert map[e := c] - {e} == map[] && map[run := e] - {run} == map[];
    if !k.phase.terminal {
      WaitsMore(v, y.runs, Some(run), y.runs, run);
      SamePlaces(Enqueued(v, run), z.server, z.runs);
    } else {
      forall r | r in z.runs && !IsTerminal(z.runs[r]) ensures exists n: nat :: Waits(z.server, n) && z.server.stream[n] == r {
        var n: nat :| Waits(v, n) && v.stream[n] == r;
        assert Waits(z.server, n);
      }
    }
  }

  lemma SamePlaces(v: Server, w: Server, runs: map<string, RunState>)
    requires w.stream == v.stream && w.delivered == v.delivered && WaitsOnce(v, runs, None)
    ensures WaitsOnce(w, runs, None)
  {
    forall r | r in runs && !IsTerminal(runs[r]) ensures exists n: nat :: Waits(w, n) && w.stream[n] == r {
      var n: nat :| Waits(v, n) && v.stream[n] == r;
      assert Waits(w, n);
    }
  }

  lemma {:induction false} StaysTidy(y: System, moves: seq<Move>, c: string)
    requires Tidy(y, c) && Allowed(y, moves) && forall m | m in moves :: Alone(m, c)
    ensures Tidy(ReachedBy(y, moves), c)
    decreases |moves|
  {
    hide Tidy, Next, Enabled, Alone;
    if moves != [] {
      assert Alone(moves[0], c);
      StepTidy(y, moves[0], c);
      StaysTidy(Next(y, moves[0]), moves[1..], c);
    }
  }

  lemma StepTidy(y: System, m: Move, c: string)
    requires Tidy(y, c) && Enabled(y, m) && Alone(m, c)
    ensures Tidy(Next(y, m), c)
  {
    hide Tidy, Next, Enabled;
    match m
    case Submitted(run, plan) => SubmitTidy(y, c, run, plan);
    case Deliver(_) => DeliverTidy(y, c);
    case Tick(_, a, n, _) => TickTidy(y, c, a, n);
    case Finish(_, _, _) => FinishTidy(y, c);
    case _ =>
  }

  /** A consumer alone leaves nothing behind: between its calls nothing is pending, a run in progress has exactly one
      unacknowledged entry, and a finished run has none. */
  lemma AloneIsTidy(moves: seq<Move>, c: string)
    requires Allowed(START, moves) && (forall m | m in moves :: Alone(m, c))
    requires ConsumerOf(ReachedBy(START, moves), c).phase.Idle?
    ensures var y := ReachedBy(START, moves);
      && y.server.pel == map[]
      && (forall run | run in y.runs && !IsTerminal(y.runs[run]) :: exists e: nat :: Unacked(y.server, e) && y.server.stream[e] == run)
      && (forall d: nat, e: nat | Unacked(y.server, d) && Unacked(y.server, e) && y.server.stream[d] == y.server.stream[e] :: d == e)
      && (forall e: nat | Unacked(y.server, e) :: y.server.stream[e] in y.runs && !IsTerminal(y.runs[y.server.stream[e]]))
  {
    hide IsTerminal, Allowed, ReachedBy;
    StaysTidy(START, moves, c);
    var y := ReachedBy(START, moves);
    forall e: nat ensures Unacked(y.server, e) <==> Waits(y.server, e) {
    }
    forall run | run in y.runs && !IsTerminal(y.runs[run]) ensures exists e: nat :: Unacked(y.server, e) && y.server.stream[e] == run {
      var e: nat :| Waits(y.server, e) && y.server.stream[e] == run;
      assert Unacked(y.server, e);
    }
  }
}
