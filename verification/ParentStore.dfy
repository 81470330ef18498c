// One consumer process in its own form: the store client that remembers claimed entry ids, and the
// `process_one` loop body over it. Each call is a run of the protocol of ParentQueue.

module ParentStore {
  import opened Common
  import opened PipelineModel
  import opened PipelineAttempts
  import opened PipelinePersistence
  import opened ParentQueue
  import opened Canonical

  // --- What reclaiming takes --------------------------------------------------

  /** Entries of the page that are the consumer's own or idle for long enough, in page order. */
  function TakenFrom(v: Server, consumer: string, page: seq<nat>, idle: set<nat>): (r: seq<nat>)
    ensures forall e | e in r :: e in page && e in v.pel
  {
    if page == [] then []
    else
      var e := page[|page| - 1];
      TakenFrom(v, consumer, page[..|page| - 1], idle)
      + (if e in v.pel && (v.pel[e] == consumer || e in idle) then [e] else [])
  }

  /** The entries of one run. */
  function Group(v: Server, es: seq<nat>, run: string): seq<nat> {
    if es == [] then []
    else
      var e := es[|es| - 1];
      Group(v, es[..|es| - 1], run) + (if e < |v.stream| && v.stream[e] == run then [e] else [])
  }

  function SetOf(es: seq<nat>): set<nat> {
    set e | e in es
  }

  function Runs(order: seq<string>): set<string> {
    set run | run in order
  }

  /** The pending list once the entries are claimed. */
  function Owned(v: Server, consumer: string, es: seq<nat>): map<nat, string> {
    map e | e in v.pel :: if e in es then consumer else v.pel[e]
  }

  /** The pending list once duplicates of the given runs are acknowledged too. */
  function Consolidated(v: Server, consumer: string, taken: set<nat>, done: set<string>): map<nat, string> {
    map e | e in v.pel && !(e in taken && Superseded(v, taken, e) && v.stream[e] in done) ::
      if e in taken then consumer else v.pel[e]
  }

  predicate Ascending(es: seq<nat>) {
    forall i, j | 0 <= i < j < |es| :: es[i] < es[j]
  }

  lemma AscendingSnoc(es: seq<nat>, e: nat)
    requires Ascending(es) && forall b | b in es :: b < e
    ensures Ascending(es + [e])
  {
    var all := es + [e];
    forall i, j | 0 <= i < j < |all| ensures all[i] < all[j] {
      assert all[i] == es[i] && es[i] in es;
    }
  }

  lemma AscendingInit(es: seq<nat>)
    requires Ascending(es) && es != []
    ensures var before := es[..|es| - 1]; Ascending(before) && forall b | b in before :: b < es[|es| - 1]
  {
  }

  lemma {:induction false} TakenAscends(v: Server, c: string, page: seq<nat>, idle: set<nat>)
    requires Ascending(page)
    ensures Ascending(TakenFrom(v, c, page, idle))
  {
    hide Ascending;
    if page == [] {
      AscendingEmpty();
    } else {
      var n := |page| - 1;
      AscendingInit(page);
      TakenAscends(v, c, page[..n], idle);
      var before := TakenFrom(v, c, page[..n], idle);
      AscendingSnoc(before, page[n]);
      assert before + [] == before;
    }
  }

  lemma AscendingEmpty()
    ensures Ascending([])
  {
  }

  /** The entries of one run among the taken ones, in stream order. */
  ghost predicate Lists(v: Server, taken: set<nat>, run: string, es: seq<nat>) {
    && (forall e :: e in es <==> e in taken && e < |v.stream| && v.stream[e] == run)
    && Ascending(es)
  }

  lemma {:induction false} GroupLists(v: Server, es: seq<nat>, run: string)
    requires Ascending(es)
    ensures Lists(v, SetOf(es), run, Group(v, es, run))
  {
    hide Ascending;
    if es == [] {
      AscendingEmpty();
    } else {
      var n := |es| - 1;
      AscendingInit(es);
      GroupLists(v, es[..n], run);
      var g := Group(v, es[..n], run);
      AscendingSnoc(g, es[n]);
      assert g + [] == g;
      assert SetOf(es) == SetOf(es[..n]) + {es[n]};
    }
  }

  lemma LastIsNewest(v: Server, taken: set<nat>, run: string, es: seq<nat>)
    requires Lists(v, taken, run, es) && es != []
    ensures IsNewest(v, taken, run, es[|es| - 1])
    ensures forall e | e in taken && e < |v.stream| && v.stream[e] == run ::
              Superseded(v, taken, e) <==> e in es[..|es| - 1]
    ensures run in Newest(v, taken) && Newest(v, taken)[run] == es[|es| - 1]
  {
    hide Ascending, Newest;
    var n := es[|es| - 1];
    AscendingInit(es);
    assert es == es[..|es| - 1] + [n];
    assert n in es;
    OnlyNewest(v, taken, run, n);
  }

  lemma OnlyNewest(v: Server, taken: set<nat>, run: string, n: nat)
    requires IsNewest(v, taken, run, n)
    ensures run in Newest(v, taken) && Newest(v, taken)[run] == n
  {
    assert run in Chosen(v, taken);
    var m := Newest(v, taken)[run];
    assert IsNewest(v, taken, run, m);
  }

  /** An entry that a reclaim takes: on its page, and the consumer's own or idle for long enough. */
  predicate Takes(v: Server, c: string, page: seq<nat>, idle: set<nat>, e: nat) {
    e in page && e in v.pel && (v.pel[e] == c || e in idle)
  }

  /** It also takes a newer entry of the same run. */
  predicate Duplicate(v: Server, c: string, page: seq<nat>, idle: set<nat>, e: nat) {
    Takes(v, c, page, idle, e) && e < |v.stream| && exists n | n in page ::
      n > e && n < |v.stream| && v.stream[n] == v.stream[e] && Takes(v, c, page, idle, n)
  }

  lemma {:induction false} TakenAre(v: Server, c: string, page: seq<nat>, idle: set<nat>)
    ensures forall e: nat :: e in SetOf(TakenFrom(v, c, page, idle)) <==> Takes(v, c, page, idle, e)
  {
    if page != [] {
      var n := |page| - 1;
      TakenAre(v, c, page[..n], idle);
      forall e: nat ensures e in SetOf(TakenFrom(v, c, page, idle)) <==> Takes(v, c, page, idle, e) {
        assert e in SetOf(TakenFrom(v, c, page[..n], idle)) <==> Takes(v, c, page[..n], idle, e);
        assert e in page <==> e in page[..n] || e == page[n];
      }
    }
  }

  /** The pending list once the duplicates are acknowledged and the rest is claimed. */
  function Sifted(v: Server, c: string, page: seq<nat>, idle: set<nat>): map<nat, string> {
    map e | e in v.pel && !Duplicate(v, c, page, idle, e) :: if Takes(v, c, page, idle, e) then c else v.pel[e]
  }

  /** One entry is claimed for its run: the next undelivered one, or else the newest of its run among the taken. */
  predicate ClaimsOne(v: Server, w: Server, c: string, page: seq<nat>, idle: set<nat>, run: string, e: nat) {
    && e < |v.stream| && v.stream[e] == run && w.stream == v.stream
    && if v.delivered < |v.stream| then e == v.delivered && w.delivered == e + 1 && w.pel == v.pel[e := c]
       else w.delivered == v.delivered && w.pel == Sifted(v, c, page, idle)
            && Takes(v, c, page, idle, e) && !Duplicate(v, c, page, idle, e)
  }

  lemma Reclaims(v: Server, w: Server, c: string, page: seq<nat>, idle: set<nat>, ids: map<string, nat>, run: string)
    requires v.delivered >= |v.stream| && w == Reclaimed(v, c, SetOf(TakenFrom(v, c, page, idle)))
    requires run in Chosen(v, SetOf(TakenFrom(v, c, page, idle)))
    ensures var later := ids + Newest(v, SetOf(TakenFrom(v, c, page, idle)));
      run in later && ClaimsOne(v, w, c, page, idle, run, later[run])
  {
    hide TakenFrom, SetOf, Reclaimed, Newest, Takes, Duplicate;
    var taken := SetOf(TakenFrom(v, c, page, idle));
    ReclaimedPlainly(v, c, page, idle);
    var e :| e in taken && e < |v.stream| && v.stream[e] == run;
    var n := NewestExists(v, taken, e);
    OnlyNewest(v, taken, run, n);
    NewestPlainly(v, c, page, idle, run);
  }

  /** A reclaim in plain terms: of the entries taken, all but the duplicates are pending for the consumer; the others stay. */
  lemma ReclaimedPlainly(v: Server, c: string, page: seq<nat>, idle: set<nat>)
    ensures Reclaimed(v, c, SetOf(TakenFrom(v, c, page, idle))) ==
      v.(pel := Sifted(v, c, page, idle))
  {
    hide TakenFrom, SetOf;
    var taken := SetOf(TakenFrom(v, c, page, idle));
    TakenAre(v, c, page, idle);
    forall e: nat ensures (e in taken && Superseded(v, taken, e)) <==> Duplicate(v, c, page, idle, e) {
      SupersededPlainly(v, c, page, idle, taken, e);
    }
  }

  lemma SupersededPlainly(v: Server, c: string, page: seq<nat>, idle: set<nat>, taken: set<nat>, e: nat)
    requires forall n: nat :: n in taken <==> Takes(v, c, page, idle, n)
    ensures (e in taken && Superseded(v, taken, e)) <==> Duplicate(v, c, page, idle, e)
  {
  }

  lemma NewestPlainly(v: Server, c: string, page: seq<nat>, idle: set<nat>, run: string)
    requires run in Newest(v, SetOf(TakenFrom(v, c, page, idle)))
    ensures var e := Newest(v, SetOf(TakenFrom(v, c, page, idle)))[run];
      e < |v.stream| && v.stream[e] == run && Takes(v, c, page, idle, e) && !Duplicate(v, c, page, idle, e)
  {
    hide TakenFrom, SetOf, Newest;
    var taken := SetOf(TakenFrom(v, c, page, idle));
    TakenAre(v, c, page, idle);
    NewestOk(v, taken, run);
    SupersededPlainly(v, c, page, idle, taken, Newest(v, taken)[run]);
  }

  lemma AdvanceEnds(s: RunState, a: Answers)
    ensures IsTerminal(Durable(s, Advance(s, a).effects)) == IsTerminal(Advance(s, a).final)
  {
    hide RunCurrent, Durable;
    if !IsTerminal(s) {
      AdvancePersists(s, a);
    } else {
      TerminalEnds(s, a);
    }
  }

  lemma TerminalEnds(s: RunState, a: Answers)
    requires IsTerminal(s)
    ensures IsTerminal(Durable(s, Advance(s, a).effects)) && IsTerminal(Advance(s, a).final)
  {
  }

  /** Where a reclaim raises: on claiming an entry of the page, or on closing a run, after some of its
      duplicates were acknowledged. */
  datatype Fault = Never | Claiming(at: nat) | Closing(at: nat, acked: set<nat>)

  class Store {
    var server: Server
    var runs: map<string, RunState>
    var entryIds: map<string, nat>

    /** The system as far as this consumer sees it. */
    ghost function View(c: string, phase: Phase): System
      reads this
    {
      System(server, runs, map[c := Consumer(phase, entryIds)])
    }

    constructor ()
      ensures server == START.server && runs == START.runs && entryIds == map[]
    {
      server, runs, entryIds := Server([], 0, map[]), map[], map[];
    }

    /** `submit_parent`: state and entry together, or nothing for a known run. */
    method SubmitParent(run: string, plan: Plan) returns (ok: bool)
      modifies this
      ensures ok == (run !in old(runs))
      ensures ok ==> runs == old(runs)[run := Submit(plan)] && server.stream == old(server.stream) + [run]
      ensures !ok ==> runs == old(runs) && server.stream == old(server.stream)
      ensures server.pel == old(server.pel) && server.delivered == old(server.delivered) && entryIds == old(entryIds)
      ensures forall c: string, p: Phase :: View(c, p) == Next(old(View(c, p)), Submitted(run, plan))
    {
      ok := run !in runs;
      if ok {
        runs := runs[run := Submit(plan)];
        server := server.(stream := server.stream + [run]);
      }
    }

    /** `dequeue_parent` */
    method DequeueParent(c: string) returns (r: Option<string>)
      modifies this
      ensures r.None? <==> old(server.delivered) >= |old(server.stream)|
      ensures r.None? ==> server == old(server) && runs == old(runs) && entryIds == old(entryIds)
      ensures r.Some? ==>
        && r.value == old(server.stream)[old(server.delivered)] && entryIds == old(entryIds)[r.value := old(server.delivered)]
        && server.pel == old(server.pel)[old(server.delivered) := c] && server.delivered == old(server.delivered) + 1
        && server.stream == old(server.stream) && runs == old(runs)
      ensures r.Some? ==> Enabled(old(View(c, Idle)), Deliver(c))
                          && View(c, Claimed(r.value)) == Next(old(View(c, Idle)), Deliver(c))
    {
      if server.delivered >= |server.stream| {
        return None;
      }
      var e := server.delivered;
      var run := server.stream[e];
      server := server.(delivered := e + 1, pel := server.pel[e := c]);
      entryIds := entryIds[run := e];
      r := Some(run);
    }

    /** `ack_parent` */
    method AckParent(run: string)
      modifies this`server, this`entryIds
      ensures server == if run in old(entryIds) then Acked(old(server), old(entryIds)[run]) else old(server)
      ensures server.pel == old(server.pel) - (if run in old(entryIds) then {old(entryIds)[run]} else {})
      ensures server.stream == old(server.stream) && server.delivered == old(server.delivered)
      ensures entryIds == old(entryIds) - {run}
    {
      if run in entryIds {
        var e := entryIds[run];
        entryIds := entryIds - {run};
        server := server.(pel := server.pel - {e});
      }
    }

    /** `requeue_parent` */
    method RequeueParent(run: string)
      modifies this`server, this`entryIds
      ensures server == if run in old(entryIds) then Replaced(old(server), run, old(entryIds)[run]) else Enqueued(old(server), run)
      ensures server.pel == old(server.pel) - (if run in old(entryIds) then {old(entryIds)[run]} else {})
      ensures server.stream == old(server.stream) + [run] && server.delivered == old(server.delivered)
      ensures entryIds == old(entryIds) - {run}
    {
      if run in entryIds {
        var e := entryIds[run];
        server := server.(stream := server.stream + [run], pel := server.pel - {e});
        entryIds := entryIds - {run};
      } else {
        server := server.(stream := server.stream + [run]);
      }
    }

    /** The first pass of `reclaim_orphaned_parents`: claim, and group entries by run. */
    method ClaimPage(c: string, page: seq<nat>, idle: set<nat>, fault: Fault)
      returns (ok: bool, byRun: map<string, seq<nat>>, order: seq<string>)
      requires Ascending(page)
      requires forall e | e in page :: e in server.pel && e < |server.stream|
      modifies this`server
      ensures ok == !(fault.Claiming? && fault.at < |page|)
      ensures var v := old(server); var taken := TakenFrom(v, c, if ok then page else page[..fault.at], idle);
        && server == v.(pel := Owned(v, c, taken))
        && (ok ==> Grouped(v, taken, byRun, order))
    {
      hide TakenFrom, Grouped, Owned;
      ghost var v := server;
      ok, byRun, order := true, map[], [];
      var i := 0;
      NothingTaken(v, c, idle);
      assert page[..0] == [];
      while i < |page|
        invariant 0 <= i <= |page| && (fault.Claiming? ==> i <= fault.at)
        invariant server == v.(pel := Owned(v, c, TakenFrom(v, c, page[..i], idle)))
        invariant Grouped(v, TakenFrom(v, c, page[..i], idle), byRun, order)
      {
        if fault == Claiming(i) {
          ok := false;
          return;
        }
        var e := page[i];
        TakeNext(v, c, page, i, idle);
        if server.pel[e] == c || e in idle {
          var run := server.stream[e];
          GroupNext(v, TakenFrom(v, c, page[..i], idle), e, byRun, order);
          server := server.(pel := server.pel[e := c]);
          if run !in byRun {
            order := Insert(run, order);
          }
          byRun := byRun[run := (if run in byRun then byRun[run] else []) + [e]];
        }
        i := i + 1;
      }
      assert page[..|page|] == page;
    }

    /** `reclaim_orphaned_parents`: of each run one entry stays claimed, the newest; the runs come back sorted.
        When a command raises on the way, what was done until then stays done. */
    method ReclaimOrphanedParents(c: string, page: seq<nat>, idle: set<nat>, fault: Fault)
      returns (results: Option<seq<string>>, ghost raised: Move)
      requires Ascending(page)
      requires forall e | e in page :: e in server.pel && e < |server.stream|
      modifies this`server, this`entryIds
      ensures fault.Never? ==> results.Some?
      ensures fault.Claiming? ==> (results.None? <==> fault.at < |page|)
      ensures var v := old(server); var taken := SetOf(TakenFrom(v, c, page, idle));
        results.Some? ==>
          && server == Reclaimed(v, c, taken) == v.(pel := Sifted(v, c, page, idle))
          && entryIds == old(entryIds) + Newest(v, taken)
          && Sorted(results.value) && (forall run :: run in results.value <==> run in Chosen(v, taken))
      ensures results.None? ==>
        raised.ReclaimRaises? && Enabled(old(View(c, Idle)), raised) && View(c, Idle) == Next(old(View(c, Idle)), raised)
    {
      hide TakenFrom, Owned, Consolidated, Newest, NewestOf, Chosen, Superseded, Runs, SetOf, Sorted, PartlyReclaimed, SupersededOf, Next,
        Enabled, Lists, Grouped;
      ghost var v, ids, y0 := server, entryIds, View(c, Idle);
      ghost var es := TakenFrom(v, c, page, idle);
      ghost var taken := SetOf(es);
      raised := Crash(c);
      var ok, byRun, order := ClaimPage(c, page, idle, fault);
      if !ok {
        ghost var some := TakenFrom(v, c, page[..fault.at], idle);
        raised := ReclaimRaises(c, SetOf(some), {}, {});
        ClaimRaised(y0, c, page[..fault.at], idle, ids);
        return None, raised;
      }
      TakenAscends(v, c, page, idle);
      var found := [];
      var i := 0;
      NoneDone(v, c, es);
      while i < |order|
        invariant 0 <= i <= |order|
        invariant found == order[..i]
        invariant server == v.(pel := Consolidated(v, c, taken, Runs(order[..i])))
        invariant entryIds == ids + NewestOf(v, taken, Runs(order[..i]))
      {
        var run := order[i];
        GroupedGroup(v, es, byRun, order, run);
        var group := byRun[run];
        GroupLists(v, es, run);
        LastIsNewest(v, taken, run, group);
        var duplicates := group[..|group| - 1];
        if fault.Closing? && fault.at == i {
          server := server.(pel := server.pel - (SetOf(duplicates) * fault.acked));
          raised := CloseRaised(y0, c, ids, page, idle, Runs(order[..i]), run, group, fault.acked);
          return None, raised;
        }
        server := server.(pel := server.pel - SetOf(duplicates));
        entryIds := entryIds[run := group[|group| - 1]];
        found := found + [run];
        OneMoreRun(order, i);
        DropDuplicates(v, c, taken, Runs(order[..i]), run, group);
        RememberOne(v, taken, Runs(order[..i]), run, ids);
        i := i + 1;
      }
      assert order[..|order|] == order;
      AllDone(v, c, es, byRun, order);
      ReclaimedPlainly(v, c, page, idle);
      results := Some(found);
    }

    /** Claim one parent: the next undelivered entry, or else a reclaimed one. The move tells what happened, even
        when nothing could be claimed because the reclaim raised. */
    method Claim(c: string, page: seq<nat>, idle: set<nat>, fault: Fault) returns (r: Option<string>, ghost move: Option<Move>)
      requires EntriesKnown(View(c, Idle))
      requires Ascending(page)
      requires forall e | e in page :: e in server.pel
      modifies this
      ensures move.None? ==> r.None? && View(c, Idle) == old(View(c, Idle))
                             && server.delivered == |server.stream| && TakenFrom(server, c, page, idle) == []
      ensures move.Some? ==> Enabled(old(View(c, Idle)), move.value)
      ensures move.Some? && r.None? ==>
        !fault.Never? && move.value.ReclaimRaises? && View(c, Idle) == Next(old(View(c, Idle)), move.value)
      ensures r.Some? ==> r.value in entryIds && ClaimsOne(old(server), server, c, page, idle, r.value, entryIds[r.value])
      ensures r.Some? ==> move.Some? && (move.value.Deliver? || move.value.Reclaim?)
                          && View(c, Claimed(r.value)) == Next(old(View(c, Idle)), move.value)
      ensures r.Some? && move.value.Reclaim? ==>
        forall run | run in Chosen(old(server), move.value.taken) :: run == r.value || Before(r.value, run)
    {
      hide TakenFrom, Reclaimed, Newest, NewestOf, PartlyReclaimed;
      r := DequeueParent(c);
      move := Some(Deliver(c));
      if r.None? {
        ghost var v := server;
        ghost var es := TakenFrom(v, c, page, idle);
        var orphaned;
        ghost var raised;
        orphaned, raised := ReclaimOrphanedParents(c, page, idle, fault);
        if orphaned.None? {
          move := Some(raised);
        } else if orphaned.value != [] {
          r := Some(orphaned.value[0]);
          move := Some(Reclaim(c, SetOf(es), orphaned.value[0]));
          TakenPending(v, c, page, idle);
          assert orphaned.value[0] in orphaned.value;
          Reclaims(v, server, c, page, idle, old(entryIds), r.value);
          FirstIsLeast(orphaned.value);
        } else {
          move := None;
          NothingReclaimed(v, c, page, idle, orphaned.value);
          assert entryIds == old(entryIds);
        }
      }
    }

    /** Advance the claimed run once. */
    method AdvanceOnce(c: string, run: string, a: Answers) returns (terminal: bool)
      requires run in runs
      modifies this`runs
      ensures run in runs && terminal == IsTerminal(runs[run])
      ensures runs == old(runs)[run := Durable(old(runs)[run], Advance(old(runs)[run], a).effects)]
      ensures View(c, Advanced(run, terminal)) == Next(old(View(c, Claimed(run))), Tick(c, a, 0, true))
    {
      hide Advance, Durable;
      var o := Advance(runs[run], a);
      AdvanceEnds(runs[run], a);
      runs := runs[run := Durable(runs[run], o.effects)];
      terminal := IsTerminal(o.final);
    }

    /** Acknowledge a terminal run, requeue any other. */
    method Close(c: string, run: string, terminal: bool)
      modifies this`server, this`entryIds
      ensures server.pel == old(server.pel) - (if run in old(entryIds) then {old(entryIds)[run]} else {})
      ensures server.stream == old(server.stream) + (if terminal then [] else [run]) && server.delivered == old(server.delivered)
      ensures entryIds == old(entryIds) - {run}
      ensures View(c, Idle) == Next(old(View(c, Advanced(run, terminal))), Finish(c, true, true))
    {
      if terminal {
        AckParent(run);
      } else {
        RequeueParent(run);
      }
    }

    /** `process_one`: claim, advance once, then acknowledge or requeue. Every call is a stretch of the
        protocol, so it keeps the invariant that no run in progress lacks an entry. */
    method ProcessOne(c: string, page: seq<nat>, idle: set<nat>, fault: Fault, a: Answers)
      returns (r: Option<string>, ghost moves: seq<Move>, ghost claimed: nat)
      requires ParentQueue.Inv(View(c, Idle))
      requires Ascending(page)
      requires forall e | e in page :: e in server.pel
      modifies this
      ensures Allowed(old(View(c, Idle)), moves) && View(c, Idle) == ReachedBy(old(View(c, Idle)), moves)
      ensures ParentQueue.Inv(View(c, Idle))
      ensures r.Some? ==> r.value in old(runs)
                          && runs == old(runs)[r.value := Durable(old(runs)[r.value], Advance(old(runs)[r.value], a).effects)]
      ensures r.Some? ==>
        && claimed < |old(server.stream)| && old(server.stream)[claimed] == r.value
        && claimed !in server.pel && r.value !in entryIds && r.value in runs
        && server.stream == old(server.stream) + (if IsTerminal(runs[r.value]) then [] else [r.value])
      ensures r.Some? && old(server.delivered) < |old(server.stream)| ==>
        claimed == old(server.delivered) && server.delivered == claimed + 1 && server.pel == old(server.pel)
      ensures r.Some? && old(server.delivered) >= |old(server.stream)| ==>
        server.delivered == old(server.delivered) && server.pel == Sifted(old(server), c, page, idle) - {claimed}
      ensures old(server.pel) == map[] ==> server.pel == map[]
      ensures r.None? && fault.Never? ==>
        moves == [] && server.delivered == |server.stream| && TakenFrom(server, c, page, idle) == []
    {
      hide Advance, ParentQueue.Inv, TakenFrom, Durable, Next, IsTerminal, Duplicate;
      ghost var y0 := View(c, Idle);
      InvKnown(y0);
      ghost var claim;
      claimed := 0;
      r, claim := Claim(c, page, idle, fault);
      moves := [];
      if r.None? {
        if claim.Some? {
          StepKeeps(y0, claim.value);
          if y0.server.pel == map[] {
            RaisedKeepsNone(y0, claim.value);
          }
          moves := [claim.value];
          OnlyMove(y0, claim.value);
        }
      } else {
        claimed := entryIds[r.value];
        ghost var y1 := View(c, Claimed(r.value));
        StepKeeps(y0, claim.value);
        ClaimedKnown(y1, c, r.value);
        SameRuns(y0, claim.value);
        var terminal := AdvanceOnce(c, r.value, a);
        ghost var y2 := View(c, Advanced(r.value, terminal));
        StepKeeps(y1, Tick(c, a, 0, true));
        Close(c, r.value, terminal);
        StepKeeps(y2, Finish(c, true, true));
        moves := [claim.value, Tick(c, a, 0, true), Finish(c, true, true)];
        ThreeMoves(y0, claim.value, y1, Tick(c, a, 0, true), y2, Finish(c, true, true));
      }
    }
  }

  lemma RaisedKeepsNone(y: System, m: Move)
    requires m.ReclaimRaises? && Enabled(y, m) && y.server.pel == map[]
    ensures Next(y, m).server.pel == map[]
  {
  }

  lemma OnlyMove(y: System, m: Move)
    requires Enabled(y, m)
    ensures Allowed(y, [m]) && ReachedBy(y, [m]) == Next(y, m)
  {
    hide Next, Enabled;
    assert [m][1..] == [];
  }

  /** The taken entries of the given runs that a newer one supersedes. */
  function SupersededOf(v: Server, taken: set<nat>, done: set<string>): set<nat> {
    set e | e in taken && Superseded(v, taken, e) && v.stream[e] in done
  }

  lemma ClaimRaised(y: System, c: string, page: seq<nat>, idle: set<nat>, ids: map<string, nat>)
    requires y.consumers == map[c := Consumer(Idle, ids)]
    ensures var v := y.server; var es := TakenFrom(v, c, page, idle); var m := ReclaimRaises(c, SetOf(es), {}, {});
      Enabled(y, m) && Next(y, m) == System(v.(pel := Owned(v, c, es)), y.runs, map[c := Consumer(Idle, ids)])
  {
    hide TakenFrom;
    var v, es := y.server, TakenFrom(y.server, c, page, idle);
    TakenPending(v, c, page, idle);
    assert PartlyReclaimed(v, c, SetOf(es), {}) == v.(pel := Owned(v, c, es));
    assert NewestOf(v, SetOf(es), {}) == map[] && ids + map[] == ids;
    OneConsumer(y, c, ids, ids);
  }

  lemma OneConsumer(y: System, c: string, ids: map<string, nat>, later: map<string, nat>)
    requires y.consumers == map[c := Consumer(Idle, ids)]
    ensures y.consumers[c := Consumer(Idle, later)] == map[c := Consumer(Idle, later)] && ConsumerOf(y, c) == Consumer(Idle, ids)
  {
  }

  lemma CloseRaised(y: System, c: string, ids: map<string, nat>, page: seq<nat>, idle: set<nat>, done: set<string>, run: string,
                    group: seq<nat>, acked: set<nat>) returns (m: Move)
    requires y.consumers == map[c := Consumer(Idle, ids)]
    requires var taken := SetOf(TakenFrom(y.server, c, page, idle));
      && Lists(y.server, taken, run, group) && group != []
      && forall e | e in taken && e < |y.server.stream| && y.server.stream[e] == run ::
           Superseded(y.server, taken, e) <==> e in group[..|group| - 1]
    ensures var v := y.server; var taken := SetOf(TakenFrom(v, c, page, idle));
      && m.ReclaimRaises? && Enabled(y, m)
      && Next(y, m) == System(v.(pel := Consolidated(v, c, taken, done) - (SetOf(group[..|group| - 1]) * acked)), y.runs,
                              map[c := Consumer(Idle, ids + NewestOf(v, taken, done))])
  {
    hide Lists, TakenFrom, NewestOf;
    var v, taken := y.server, SetOf(TakenFrom(y.server, c, page, idle));
    var dropped := SupersededOf(v, taken, done) + SetOf(group[..|group| - 1]) * acked;
    m := ReclaimRaises(c, taken, dropped, done);
    TakenPending(v, c, page, idle);
    DuplicatesTaken(v, taken, run, group);
    OneConsumer(y, c, ids, ids + NewestOf(v, taken, done));
    assert PartlyReclaimed(v, c, taken, dropped)
        == v.(pel := Consolidated(v, c, taken, done) - (SetOf(group[..|group| - 1]) * acked));
  }

  lemma TakenPending(v: Server, c: string, page: seq<nat>, idle: set<nat>)
    ensures SetOf(TakenFrom(v, c, page, idle)) <= v.pel.Keys
  {
  }

  lemma TakenHasRun(v: Server, es: seq<nat>)
    requires forall e | e in es :: e < |v.stream|
    ensures es == [] || exists run :: run in Chosen(v, SetOf(es))
  {
    if es != [] {
      assert es[0] in es;
      assert v.stream[es[0]] in Chosen(v, SetOf(es));
    }
  }

  lemma NothingReclaimed(v: Server, c: string, page: seq<nat>, idle: set<nat>, orphaned: seq<string>)
    requires orphaned == [] && forall run :: run in orphaned <==> run in Chosen(v, SetOf(TakenFrom(v, c, page, idle)))
    requires forall e | e in v.pel :: e < |v.stream|
    ensures TakenFrom(v, c, page, idle) == []
    ensures Reclaimed(v, c, SetOf(TakenFrom(v, c, page, idle))) == v && Newest(v, SetOf(TakenFrom(v, c, page, idle))) == map[]
  {
    TakenHasRun(v, TakenFrom(v, c, page, idle));
  }

  lemma InvKnown(y: System)
    requires ParentQueue.Inv(y)
    ensures EntriesKnown(y)
  {
  }

  lemma ClaimedKnown(y: System, c: string, run: string)
    requires ParentQueue.Inv(y) && c in y.consumers && y.consumers[c].phase == Claimed(run)
    ensures run in y.runs
  {
  }

  lemma SameRuns(y: System, m: Move)
    requires (m.Deliver? || m.Reclaim?) && Enabled(y, m)
    ensures Next(y, m).runs == y.runs
  {
  }

  lemma FirstIsLeast(xs: seq<string>)
    requires Sorted(xs) && xs != []
    ensures forall x | x in xs :: x == xs[0] || Before(xs[0], x)
  {
  }

  lemma ThreeMoves(y0: System, a: Move, y1: System, b: Move, y2: System, d: Move)
    requires Enabled(y0, a) && y1 == Next(y0, a) && Enabled(y1, b) && y2 == Next(y1, b) && Enabled(y2, d)
    ensures Allowed(y0, [a, b, d]) && ReachedBy(y0, [a, b, d]) == Next(y2, d)
  {
    hide Next, Enabled;
    assert [a, b, d][1..] == [b, d] && [b, d][1..] == [d] && [d][1..] == [];
    assert Allowed(y2, [d]) && ReachedBy(y2, [d]) == ReachedBy(Next(y2, d), []);
    assert Allowed(y1, [b, d]) && ReachedBy(y1, [b, d]) == ReachedBy(y2, [d]);
  }

  /** The groups of the first pass, and their runs in sorted order. */
  predicate Grouped(v: Server, es: seq<nat>, byRun: map<string, seq<nat>>, order: seq<string>) {
    && byRun.Keys == Runs(order) == Chosen(v, SetOf(es))
    && (forall run | run in byRun :: byRun[run] == Group(v, es, run) && byRun[run] != [])
    && Sorted(order)
  }

  lemma NothingTaken(v: Server, c: string, idle: set<nat>)
    ensures TakenFrom(v, c, [], idle) == [] && Owned(v, c, []) == v.pel && Grouped(v, [], map[], [])
  {
  }

  lemma TakeNext(v: Server, c: string, page: seq<nat>, i: nat, idle: set<nat>)
    requires i < |page| && page[i] in v.pel && Ascending(page)
    ensures var before := TakenFrom(v, c, page[..i], idle);
      && page[i] in Owned(v, c, before) && Owned(v, c, before)[page[i]] == v.pel[page[i]]
      && TakenFrom(v, c, page[..i + 1], idle)
         == (if v.pel[page[i]] == c || page[i] in idle then before + [page[i]] else before)
      && Owned(v, c, before + [page[i]]) == Owned(v, c, before)[page[i] := c]
  {
    assert page[..i + 1][..i] == page[..i];
  }

  lemma GroupSnoc(v: Server, es: seq<nat>, e: nat, run: string)
    requires e < |v.stream|
    ensures Group(v, es + [e], run) == if v.stream[e] == run then Group(v, es, run) + [e] else Group(v, es, run)
  {
    assert (es + [e])[..|es + [e]| - 1] == es;
    assert Group(v, es, run) + [] == Group(v, es, run);
  }

  lemma KeysNext(v: Server, es: seq<nat>, e: nat, order: seq<string>)
    requires e < |v.stream|
    ensures Chosen(v, SetOf(es + [e])) == Chosen(v, SetOf(es)) + {v.stream[e]}
    ensures Runs(Insert(v.stream[e], order)) == Runs(order) + {v.stream[e]}
    ensures forall run :: run in order <==> run in Runs(order)
  {
    InsertElements(v.stream[e], order);
    assert SetOf(es + [e]) == SetOf(es) + {e};
    assert Chosen(v, SetOf(es) + {e}) == Chosen(v, SetOf(es)) + {v.stream[e]};
  }

  lemma GroupNext(v: Server, es: seq<nat>, e: nat, byRun: map<string, seq<nat>>, order: seq<string>)
    requires Grouped(v, es, byRun, order) && e < |v.stream|
    ensures var run := v.stream[e];
      Grouped(v, es + [e], byRun[run := (if run in byRun then byRun[run] else []) + [e]],
              if run in byRun then order else Insert(run, order))
  {
    hide Group, Chosen, SetOf, Runs, Sorted;
    var here := v.stream[e];
    KeysNext(v, es, e, order);
    if here !in byRun {
      NoGroup(v, es, here);
      InsertSorted(here, order);
    }
    forall run | run in byRun || run == here
      ensures Group(v, es + [e], run) == if run == here then Group(v, es, run) + [e] else Group(v, es, run)
    {
      GroupSnoc(v, es, e, run);
    }
  }

  lemma {:induction false} NoGroup(v: Server, es: seq<nat>, run: string)
    requires run !in Chosen(v, SetOf(es))
    ensures Group(v, es, run) == []
  {
    if es != [] {
      var n := |es| - 1;
      assert SetOf(es) == SetOf(es[..n]) + {es[n]};
      assert es[n] in SetOf(es);
      NoGroup(v, es[..n], run);
    }
  }

  lemma GroupedGroup(v: Server, es: seq<nat>, byRun: map<string, seq<nat>>, order: seq<string>, run: string)
    requires Grouped(v, es, byRun, order) && run in order
    ensures run in byRun && byRun[run] == Group(v, es, run) != []
  {
  }

  lemma NoneDone(v: Server, c: string, es: seq<nat>)
    ensures Owned(v, c, es) == Consolidated(v, c, SetOf(es), Runs([]))
    ensures NewestOf(v, SetOf(es), Runs([])) == map[]
  {
  }

  lemma OneMoreRun(order: seq<string>, i: nat)
    requires i < |order|
    ensures Runs(order[..i + 1]) == Runs(order[..i]) + {order[i]}
  {
    assert order[..i + 1] == order[..i] + [order[i]];
  }

  lemma RememberOne(v: Server, taken: set<nat>, done: set<string>, run: string, ids: map<string, nat>)
    requires run in Newest(v, taken)
    ensures ids + NewestOf(v, taken, done + {run}) == (ids + NewestOf(v, taken, done))[run := Newest(v, taken)[run]]
  {
    hide Newest;
  }

  lemma DropDuplicates(v: Server, c: string, taken: set<nat>, done: set<string>, run: string, group: seq<nat>)
    requires Lists(v, taken, run, group) && group != []
    requires forall e | e in taken && e < |v.stream| && v.stream[e] == run ::
               Superseded(v, taken, e) <==> e in group[..|group| - 1]
    ensures Consolidated(v, c, taken, done + {run})
            == Consolidated(v, c, taken, done) - SetOf(group[..|group| - 1])
  {
    hide Lists;
    DuplicatesTaken(v, taken, run, group);
  }

  lemma DuplicatesTaken(v: Server, taken: set<nat>, run: string, group: seq<nat>)
    requires Lists(v, taken, run, group) && group != []
    ensures forall e | e in group[..|group| - 1] :: e in taken && e < |v.stream| && v.stream[e] == run
  {
    assert forall e | e in group[..|group| - 1] :: e in group;
  }

  lemma AllDone(v: Server, c: string, es: seq<nat>, byRun: map<string, seq<nat>>, order: seq<string>)
    requires Grouped(v, es, byRun, order)
    ensures var taken := SetOf(es);
      && v.(pel := Consolidated(v, c, taken, Runs(order))) == Reclaimed(v, c, taken)
      && NewestOf(v, taken, Runs(order)) == Newest(v, taken)
      && Sorted(order) && forall run :: run in order <==> run in Chosen(v, taken)
  {
    var taken := SetOf(es);
    assert forall e | e in taken && Superseded(v, taken, e) :: v.stream[e] in Chosen(v, taken);
    assert forall run :: run in order <==> run in Runs(order);
    NewestChosen(v, taken);
  }

  lemma NewestChosen(v: Server, taken: set<nat>)
    ensures Newest(v, taken).Keys <= Chosen(v, taken)
  {
  }
}
