// Fenced bundle transitions, single and grouped (scripts/bundle_lifecycle.py:540-759).

module TransitionLeases {
  import opened Common
  import opened LeanText
  import opened Canonical
  import Recovery
  import ResourceLeases

  datatype Desired = Stopped | Running | Idle | Pinned

  /** A bundle's durable record. `owner` is free when absent or empty. */
  datatype Record = Record(
    desired: Desired, recovery: Recovery.RecoveryState, fence: nat, owner: Option<string>, expires: real,
    reason: string, error: Option<string>, updated: real)

  datatype Lease = Lease(bundle: string, owner: string, fence: nat, transitionId: int, expires: real)

  type Records = map<string, Record>

  const NEW_RECOVERY := Recovery.RecoveryState(Recovery.IntentionallyOff, 0, 0, None, None, None)

  function RecordOf(rs: Records, bundle: string, now: real): Record {
    if bundle in rs then rs[bundle] else Record(Idle, NEW_RECOVERY, 0, None, 0.0, "", None, now)
  }

  function FenceOf(rs: Records, bundle: string): nat {
    if bundle in rs then rs[bundle].fence else 0
  }

  /** A live transition of a named owner. */
  predicate InProgress(r: Record, now: real) {
    r.owner.Some? && r.owner.value != "" && r.expires > now
  }

  predicate Owns(rs: Records, l: Lease, now: real) {
    && l.bundle in rs
    && rs[l.bundle].owner == Some(l.owner) && rs[l.bundle].fence == l.fence
    && rs[l.bundle].recovery.transitionId == l.transitionId && rs[l.bundle].expires > now
  }

  // --- Operations on values ---------------------------------------------------

  datatype Begun = Begun(record: Record, lease: Lease)

  function BeginRecord(r: Record, bundle: string, desired: Desired, owner: string, now: real, ttl: real, reason: string): Begun {
    var recovery := r.recovery.(phase := Recovery.Recovering, transitionId := r.recovery.transitionId + 1, lastRestart := Some(now));
    Begun(Record(desired, recovery, r.fence + 1, Some(owner), now + ttl, reason, None, now),
          Lease(bundle, owner, r.fence + 1, r.recovery.transitionId + 1, now + ttl))
  }

  function FinishRecord(r: Record, success: bool, now: real, reason: string, error: Option<string>, default: string): Record {
    var recovery := r.recovery.(phase := if success then Recovery.Ready else Recovery.Crashed,
                                lastHealthy := if success then Some(now) else r.recovery.lastHealthy);
    r.(recovery := recovery, owner := None, expires := 0.0,
       reason := if reason != "" then reason else r.reason,
       error := if success then None else if error.Some? && error.value != "" then error else Some(default),
       updated := now)
  }

  function Begin(rs: Records, bundle: string, desired: Desired, owner: string, now: real, ttl: real, reason: string)
    : (Records, Option<Lease>)
  {
    var r := RecordOf(rs, bundle, now);
    if InProgress(r, now) then (rs, None)
    else
      var b := BeginRecord(r, bundle, desired, owner, now, ttl, reason);
      (rs[bundle := b.record], Some(b.lease))
  }

  /** The named bundles that are begun so far, from the records as they were. */
  function BegunSome(rs: Records, m: map<string, Desired>, done: set<string>, owner: string, now: real, ttl: real, reason: string): Records {
    rs + map b | b in m && b in done :: BeginRecord(RecordOf(rs, b, now), b, m[b], owner, now, ttl, reason).record
  }

  function BegunAll(rs: Records, m: map<string, Desired>, owner: string, now: real, ttl: real, reason: string): Records {
    BegunSome(rs, m, m.Keys, owner, now, ttl, reason)
  }

  function Members(ts: seq<(string, Desired)>): set<string> {
    set k | 0 <= k < |ts| :: ts[k].0
  }

  function LeasesOf(rs: Records, ts: seq<(string, Desired)>, owner: string, now: real, ttl: real, reason: string): (r: seq<Lease>)
    ensures |r| == |ts|
  {
    if ts == [] then []
    else
      var n := |ts| - 1;
      LeasesOf(rs, ts[..n], owner, now, ttl, reason)
      + [BeginRecord(RecordOf(rs, ts[n].0, now), ts[n].0, ts[n].1, owner, now, ttl, reason).lease]
  }

  predicate AnyInProgress(rs: Records, ts: seq<(string, Desired)>, now: real) {
    exists k | 0 <= k < |ts| :: InProgress(RecordOf(rs, ts[k].0, now), now)
  }

  function BeginGroup(rs: Records, ts: seq<(string, Desired)>, owner: string, now: real, ttl: real, reason: string)
    : (Records, Option<seq<Lease>>)
  {
    var normalized := Transitions(ts);
    if normalized == [] || AnyInProgress(rs, normalized, now) then (rs, None)
    else (BegunAll(rs, Named(ts).1, owner, now, ttl, reason), Some(LeasesOf(rs, normalized, owner, now, ttl, reason)))
  }

  function Bundles(ls: seq<Lease>): set<string> {
    set i | 0 <= i < |ls| :: ls[i].bundle
  }

  predicate OwnsAll(rs: Records, ls: seq<Lease>, now: real) {
    forall i | 0 <= i < |ls| :: Owns(rs, ls[i], now)
  }

  function RenewRecord(r: Record, now: real, ttl: real): Record {
    r.(expires := ResourceLeases.Until(now, ttl), updated := now)
  }

  function RenewedAll(rs: Records, bundles: set<string>, now: real, ttl: real): Records {
    map b | b in rs :: if b in bundles then RenewRecord(rs[b], now, ttl) else rs[b]
  }

  function FinishedAll(rs: Records, bundles: set<string>, success: bool, now: real, reason: string, error: Option<string>, default: string): Records {
    map b | b in rs :: if b in bundles then FinishRecord(rs[b], success, now, reason, error, default) else rs[b]
  }

  const SINGLE_ERROR := "bundle transition failed"
  const GROUP_ERROR := "bundle transition group failed"

  datatype Op =
    | OpBegin(bundle: string, desired: Desired, owner: string, now: real, ttl: real, reason: string)
    | OpBeginGroup(ts: seq<(string, Desired)>, owner: string, now: real, ttl: real, reason: string)
    | OpRenew(lease: Lease, now: real, ttl: real)
    | OpRenewGroup(leases: seq<Lease>, now: real, ttl: real)
    | OpRecord(bundle: string, desired: Desired, recovery: Recovery.RecoveryState, now: real, reason: string)
    | OpFinish(lease: Lease, success: bool, now: real, reason: string, error: Option<string>)
    | OpFinishGroup(leases: seq<Lease>, success: bool, now: real, reason: string, error: Option<string>)

  /** The records after the operation, and whether it was accepted. */
  function Apply(rs: Records, op: Op): (Records, bool) {
    match op
    case OpBegin(bundle, desired, owner, now, ttl, reason) =>
      var (r, l) := Begin(rs, bundle, desired, owner, now, ttl, reason); (r, l.Some?)
    case OpBeginGroup(ts, owner, now, ttl, reason) =>
      var (r, l) := BeginGroup(rs, ts, owner, now, ttl, reason); (r, l.Some?)
    case OpRenew(l, now, ttl) =>
      if Owns(rs, l, now) then (rs[l.bundle := RenewRecord(rs[l.bundle], now, ttl)], true) else (rs, false)
    case OpRenewGroup(ls, now, ttl) =>
      if ls != [] && OwnsAll(rs, ls, now) then (RenewedAll(rs, Bundles(ls), now, ttl), true) else (rs, false)
    case OpRecord(bundle, desired, recovery, now, reason) =>
      var r := RecordOf(rs, bundle, now);
      if InProgress(r, now) then (rs, false)
      else (rs[bundle := r.(desired := desired, recovery := recovery, reason := reason, updated := now)], true)
    case OpFinish(l, success, now, reason, error) =>
      if Owns(rs, l, now) then (rs[l.bundle := FinishRecord(rs[l.bundle], success, now, reason, error, SINGLE_ERROR)], true)
      else (rs, false)
    case OpFinishGroup(ls, success, now, reason, error) =>
      if OwnsAll(rs, ls, now) then (FinishedAll(rs, Bundles(ls), success, now, reason, error, GROUP_ERROR), true)
      else (rs, false)
  }

  // --- The store in its own form ----------------------------------------------

  class Store {
    var records: Records

    constructor ()
      ensures records == map[]
    {
      records := map[];
    }

    /** `begin` */
    method BeginTransition(bundle: string, desired: Desired, owner: string, now: real, ttl: real, reason: string)
      returns (r: Option<Lease>)
      modifies this
      ensures (records, r) == Begin(old(records), bundle, desired, owner, now, ttl, reason)
    {
      var current := RecordOf(records, bundle, now);
      if InProgress(current, now) {
        return None;
      }
      var begun := BeginRecord(current, bundle, desired, owner, now, ttl, reason);
      records := records[bundle := begun.record];
      r := Some(begun.lease);
    }

    method NoneInProgress(ts: seq<(string, Desired)>, now: real) returns (ok: bool)
      ensures ok == !AnyInProgress(records, ts, now)
    {
      var i := 0;
      while i < |ts|
        invariant 0 <= i <= |ts|
        invariant forall k | 0 <= k < i :: !InProgress(RecordOf(records, ts[k].0, now), now)
      {
        if InProgress(RecordOf(records, ts[i].0, now), now) {
          return false;
        }
        i := i + 1;
      }
      ok := true;
    }

    /** `begin_group` */
    method BeginTransitionGroup(ts: seq<(string, Desired)>, owner: string, now: real, ttl: real, reason: string)
      returns (r: Option<seq<Lease>>)
      modifies this
      ensures (records, r) == BeginGroup(old(records), ts, owner, now, ttl, reason)
    {
      hide BeginRecord, Transitions, BegunSome, Members, AnyInProgress;
      var normalized := NormalizeGroupTransitions(ts);
      var none := NoneInProgress(normalized, now);
      if normalized == [] || !none {
        return None;
      }
      ghost var m := Named(ts).1;
      MembersNamed(ts);
      var current := records;
      var leases := [];
      var i := 0;
      NoneBegun(current, m, normalized, owner, now, ttl, reason);
      while i < |normalized|
        invariant 0 <= i <= |normalized|
        invariant records == BegunSome(current, m, Members(normalized[..i]), owner, now, ttl, reason)
        invariant leases == LeasesOf(current, normalized[..i], owner, now, ttl, reason)
      {
        var (bundle, desired) := normalized[i];
        var begun := BeginRecord(RecordOf(current, bundle, now), bundle, desired, owner, now, ttl, reason);
        assert normalized[..i + 1][..i] == normalized[..i];
        OneMoreBegun(current, m, normalized, i, owner, now, ttl, reason);
        records := records[bundle := begun.record];
        leases := leases + [begun.lease];
        i := i + 1;
      }
      assert normalized[..i] == normalized;
      MembersAreKeys(ts);
      r := Some(leases);
    }

    /** `renew` */
    method Renew(l: Lease, now: real, ttl: real) returns (ok: bool)
      modifies this
      ensures (records, ok) == Apply(old(records), OpRenew(l, now, ttl))
    {
      ok := Owns(records, l, now);
      if ok {
        records := records[l.bundle := RenewRecord(records[l.bundle], now, ttl)];
      }
    }

    method OwnsEvery(ls: seq<Lease>, now: real) returns (ok: bool)
      ensures ok == OwnsAll(records, ls, now)
    {
      var i := 0;
      while i < |ls|
        invariant 0 <= i <= |ls|
        invariant forall k | 0 <= k < i :: Owns(records, ls[k], now)
      {
        if !Owns(records, ls[i], now) {
          return false;
        }
        i := i + 1;
      }
      ok := true;
    }

    /** `renew_group` */
    method RenewGroup(ls: seq<Lease>, now: real, ttl: real) returns (ok: bool)
      modifies this
      ensures (records, ok) == Apply(old(records), OpRenewGroup(ls, now, ttl))
    {
      hide RenewRecord;
      ok := OwnsEvery(ls, now);
      if ls == [] || !ok {
        return false;
      }
      var current := records;
      var i := 0;
      while i < |ls|
        invariant 0 <= i <= |ls|
        invariant records == RenewedAll(current, Bundles(ls[..i]), now, ttl)
      {
        var b := ls[i].bundle;
        BundlesNext(ls, i);
        assert Owns(current, ls[i], now);
        records := records[b := RenewRecord(current[b], now, ttl)];
        i := i + 1;
      }
      assert ls[..i] == ls;
    }

    /** `record_recovery` */
    method RecordRecovery(bundle: string, desired: Desired, recovery: Recovery.RecoveryState, now: real, reason: string)
      returns (ok: bool)
      modifies this
      ensures (records, ok) == Apply(old(records), OpRecord(bundle, desired, recovery, now, reason))
    {
      var current := RecordOf(records, bundle, now);
      ok := !InProgress(current, now);
      if ok {
        records := records[bundle := current.(desired := desired, recovery := recovery, reason := reason, updated := now)];
      }
    }

    /** `finish` */
    method Finish(l: Lease, success: bool, now: real, reason: string, error: Option<string>) returns (ok: bool)
      modifies this
      ensures (records, ok) == Apply(old(records), OpFinish(l, success, now, reason, error))
    {
      ok := Owns(records, l, now);
      if ok {
        records := records[l.bundle := FinishRecord(records[l.bundle], success, now, reason, error, SINGLE_ERROR)];
      }
    }

    /** `finish_group` */
    method FinishGroup(ls: seq<Lease>, success: bool, now: real, reason: string, error: Option<string>) returns (ok: bool)
      modifies this
      ensures (records, ok) == Apply(old(records), OpFinishGroup(ls, success, now, reason, error))
    {
      hide FinishRecord;
      ok := OwnsEvery(ls, now);
      if !ok {
        return false;
      }
      var current := records;
      var i := 0;
      assert ls[..0] == [];
      while i < |ls|
        invariant 0 <= i <= |ls|
        invariant records == FinishedAll(current, Bundles(ls[..i]), success, now, reason, error, GROUP_ERROR)
      {
        var b := ls[i].bundle;
        BundlesNext(ls, i);
        assert Owns(current, ls[i], now);
        records := records[b := FinishRecord(current[b], success, now, reason, error, GROUP_ERROR)];
        i := i + 1;
      }
      assert ls[..i] == ls;
    }
  }

  lemma BundlesNext(ls: seq<Lease>, i: nat)
    requires i < |ls|
    ensures Bundles(ls[..i + 1]) == Bundles(ls[..i]) + {ls[i].bundle} && Bundles(ls[..0]) == {}
  {
    var a, b := ls[..i], ls[..i + 1];
    assert forall k | 0 <= k < i :: a[k] == b[k];
    assert b[i] == ls[i];
  }

  lemma NoneBegun(rs: Records, m: map<string, Desired>, ts: seq<(string, Desired)>, owner: string, now: real, ttl: real, reason: string)
    ensures ts[..0] == [] && BegunSome(rs, m, Members(ts[..0]), owner, now, ttl, reason) == rs
  {
  }

  lemma OneMoreBegun(rs: Records, m: map<string, Desired>, ts: seq<(string, Desired)>, i: nat, owner: string, now: real, ttl: real, reason: string)
    requires i < |ts| && ts[i].0 in m && m[ts[i].0] == ts[i].1
    ensures BegunSome(rs, m, Members(ts[..i + 1]), owner, now, ttl, reason)
            == BegunSome(rs, m, Members(ts[..i]), owner, now, ttl, reason)
                 [ts[i].0 := BeginRecord(RecordOf(rs, ts[i].0, now), ts[i].0, ts[i].1, owner, now, ttl, reason).record]
  {
    hide BeginRecord, RecordOf, Members;
    MembersNext(ts, i);
  }

  lemma MembersNext(ts: seq<(string, Desired)>, i: nat)
    requires i < |ts|
    ensures Members(ts[..i + 1]) == Members(ts[..i]) + {ts[i].0}
  {
    var a, b := ts[..i], ts[..i + 1];
    assert forall k | 0 <= k < i :: a[k] == b[k];
    assert b[i] == ts[i];
  }

  lemma MembersAreKeys(ts: seq<(string, Desired)>)
    ensures Members(Transitions(ts)) == Named(ts).1.Keys
  {
    MembersNamed(ts);
  }

  /** The normalized members are the dictionary's items, each once. */
  lemma MembersNamed(ts: seq<(string, Desired)>)
    ensures var r, m := Transitions(ts), Named(ts).1;
      && (forall k | 0 <= k < |r| :: r[k].0 in m && r[k].1 == m[r[k].0])
      && (forall b | b in m :: exists k :: 0 <= k < |r| && r[k].0 == b)
  {
    var names, m := Named(ts).0, Named(ts).1;
    var r := Transitions(ts);
    forall k | 0 <= k < |r| ensures r[k].0 in m {
      assert names[k] in names;
    }
    forall b | b in m ensures exists k :: 0 <= k < |r| && r[k].0 == b {
      assert b in names;
      var k :| 0 <= k < |names| && names[k] == b;
      assert r[k].0 == b;
    }
  }

  // --- Fences -----------------------------------------------------------------

  /** The bundles an operation would begin. */
  function Begins(op: Op): set<string> {
    match op
    case OpBegin(b, _, _, _, _, _) => {b}
    case OpBeginGroup(ts, _, _, _, _) => Named(ts).1.Keys
    case _ => {}
  }

  /** The fence of a bundle rises by one with each accepted begin of it, and changes in no other way. */
  lemma FenceRisesWithBegins(rs: Records, op: Op, b: string)
    ensures var (after, ok) := Apply(rs, op);
      FenceOf(after, b) == FenceOf(rs, b) + (if ok && b in Begins(op) then 1 else 0)
  {
  }

  function RecordsAfter(rs: Records, ops: seq<Op>): Records {
    if ops == [] then rs else Apply(RecordsAfter(rs, ops[..|ops| - 1]), ops[|ops| - 1]).0
  }

  lemma {:induction false} FenceNeverFalls(rs: Records, ops: seq<Op>, b: string)
    ensures FenceOf(RecordsAfter(rs, ops), b) >= FenceOf(rs, b)
  {
    hide Apply;
    if ops != [] {
      FenceNeverFalls(rs, ops[..|ops| - 1], b);
      FenceRisesWithBegins(RecordsAfter(rs, ops[..|ops| - 1]), ops[|ops| - 1], b);
    }
  }

  /** The operation acts through the lease, alone or in a group. */
  predicate Uses(op: Op, l: Lease) {
    match op
    case OpRenew(k, _, _) => k == l
    case OpRenewGroup(ks, _, _) => l in ks
    case OpFinish(k, _, _, _, _) => k == l
    case OpFinishGroup(ks, _, _, _, _) => l in ks
    case _ => false
  }

  /** A begin has been accepted since the lease was granted. */
  predicate Superseded(rs: Records, l: Lease) {
    FenceOf(rs, l.bundle) > l.fence
  }

  lemma SupersededIsPowerless(rs: Records, l: Lease, op: Op)
    requires Superseded(rs, l) && Uses(op, l)
    ensures Apply(rs, op) == (rs, false)
  {
  }

  /** Whatever happens after, at whatever times: a superseded lease never renews or finishes anything, not
      even as one member of a group. */
  lemma SupersededForever(rs: Records, l: Lease, ops: seq<Op>, op: Op)
    requires Superseded(rs, l) && Uses(op, l)
    ensures Apply(RecordsAfter(rs, ops), op) == (RecordsAfter(rs, ops), false)
  {
    FenceNeverFalls(rs, ops, l.bundle);
    SupersededIsPowerless(RecordsAfter(rs, ops), l, op);
  }

  // --- Expiry -----------------------------------------------------------------

  /** The lease had run out at the given time, or is superseded. */
  predicate RunOut(rs: Records, l: Lease, at: real) {
    l.bundle in rs && (rs[l.bundle].fence > l.fence || (rs[l.bundle].fence == l.fence && rs[l.bundle].expires <= at))
  }

  function TimeOf(op: Op): real {
    match op
    case OpBegin(_, _, _, now, _, _) => now
    case OpBeginGroup(_, _, now, _, _) => now
    case OpRenew(_, now, _) => now
    case OpRenewGroup(_, now, _) => now
    case OpRecord(_, _, _, now, _) => now
    case OpFinish(_, _, now, _, _) => now
    case OpFinishGroup(_, _, now, _, _) => now
  }

  lemma RunOutIsPowerless(rs: Records, l: Lease, at: real, op: Op)
    requires RunOut(rs, l, at) && TimeOf(op) >= at && Uses(op, l)
    ensures Apply(rs, op) == (rs, false)
  {
  }

  /** The owner check of another holder of the same fence fails as well once it has run out. */
  lemma OwnersAreLive(rs: Records, ls: seq<Lease>, now: real, b: string)
    requires OwnsAll(rs, ls, now) && b in Bundles(ls)
    ensures b in rs && rs[b].expires > now
  {
  }

  lemma RunOutStays(rs: Records, l: Lease, at: real, op: Op)
    requires RunOut(rs, l, at) && TimeOf(op) >= at
    ensures RunOut(Apply(rs, op).0, l, at)
  {
    hide OwnsAll, Bundles, BeginRecord, FinishRecord, Named, Transitions, AnyInProgress, LeasesOf;
    var b := l.bundle;
    FenceRisesWithBegins(rs, op, b);
    match op
    case OpRenewGroup(ls, now, _) =>
      if OwnsAll(rs, ls, now) && b in Bundles(ls) {
        OwnersAreLive(rs, ls, now, b);
      }
    case OpFinishGroup(ls, _, now, _, _) =>
      if OwnsAll(rs, ls, now) && b in Bundles(ls) {
        OwnersAreLive(rs, ls, now, b);
      }
    case _ =>
  }

  /** With a clock that does not run backwards, an expired lease is never revived. */
  lemma {:induction false} ExpiredForever(rs: Records, l: Lease, at: real, ops: seq<Op>, op: Op)
    requires RunOut(rs, l, at) && (forall i | 0 <= i < |ops| :: TimeOf(ops[i]) >= at) && TimeOf(op) >= at && Uses(op, l)
    ensures RunOut(RecordsAfter(rs, ops), l, at) && Apply(RecordsAfter(rs, ops), op) == (RecordsAfter(rs, ops), false)
  {
    hide Apply, RunOut;
    if ops != [] {
      ExpiredForever(rs, l, at, ops[..|ops| - 1], op);
      RunOutStays(RecordsAfter(rs, ops[..|ops| - 1]), l, at, ops[|ops| - 1]);
    }
    RunOutIsPowerless(RecordsAfter(rs, ops), l, at, op);
  }

  // --- Single bundles ---------------------------------------------------------

  /** The record is what the lease says, and still lasts. */
  predicate Current(rs: Records, l: Lease, now: real) {
    && l.bundle in rs && rs[l.bundle].owner == Some(l.owner) && rs[l.bundle].fence == l.fence
    && rs[l.bundle].recovery.transitionId == l.transitionId && rs[l.bundle].expires > now
  }

  /** Somebody with a name is at it. */
  predicate Taken(rs: Records, bundle: string, now: real) {
    bundle in rs && rs[bundle].owner.Some? && rs[bundle].owner.value != "" && rs[bundle].expires > now
  }

  function ErrorAfter(success: bool, error: Option<string>, default: string): Option<string> {
    if success then None else if error == None || error == Some("") then Some(default) else error
  }

  /** A begin is refused exactly while somebody is at it; otherwise the bundle recovers under the next fence and
      transition, for the new owner and until its time is up, and the lease says the same. */
  lemma BeginIff(rs: Records, bundle: string, desired: Desired, owner: string, now: real, ttl: real, reason: string)
    ensures var (after, l) := Begin(rs, bundle, desired, owner, now, ttl, reason);
      && (l.None? <==> Taken(rs, bundle, now)) && (l.None? ==> after == rs)
      && (l.Some? ==>
            var was := if bundle in rs then rs[bundle].recovery else Recovery.RecoveryState(Recovery.IntentionallyOff, 0, 0, None, None, None);
            var fence := if bundle in rs then rs[bundle].fence else 0;
            && after == rs[bundle := Record(
                 desired, Recovery.RecoveryState(Recovery.Recovering, was.transitionId + 1, was.attempts, was.windowStart, Some(now), was.lastHealthy),
                 fence + 1, Some(owner), now + ttl, reason, None, now)]
            && l.value == Lease(bundle, owner, fence + 1, was.transitionId + 1, now + ttl))
  {
  }

  /** A renewal succeeds exactly through the current lease, and only moves the end of it. */
  lemma RenewIff(rs: Records, l: Lease, now: real, ttl: real)
    ensures var (after, ok) := Apply(rs, OpRenew(l, now, ttl));
      && (ok <==> Current(rs, l, now))
      && after == if ok then rs[l.bundle := rs[l.bundle].(expires := now + (if ttl < 0.1 then 0.1 else ttl), updated := now)] else rs
  {
  }

  /** A recovery is recorded exactly while nobody is at it, and leaves fence, owner and error alone. */
  lemma RecordIff(rs: Records, bundle: string, desired: Desired, recovery: Recovery.RecoveryState, now: real, reason: string)
    ensures var (after, ok) := Apply(rs, OpRecord(bundle, desired, recovery, now, reason));
      && (ok <==> !Taken(rs, bundle, now)) && (!ok ==> after == rs)
      && (ok ==> after == rs[bundle :=
            if bundle in rs then Record(desired, recovery, rs[bundle].fence, rs[bundle].owner, rs[bundle].expires, reason, rs[bundle].error, now)
            else Record(desired, recovery, 0, None, 0.0, reason, None, now)])
  {
  }

  /** A finish succeeds exactly through the current lease: the bundle is free, ready or crashed, healthy from now on if
      it is ready, and keeps its fence and transition. */
  lemma FinishIff(rs: Records, l: Lease, success: bool, now: real, reason: string, error: Option<string>)
    ensures var (after, ok) := Apply(rs, OpFinish(l, success, now, reason, error));
      && (ok <==> Current(rs, l, now)) && (!ok ==> after == rs)
      && (ok ==>
            var r := rs[l.bundle];
            after == rs[l.bundle := Record(
              r.desired,
              Recovery.RecoveryState(if success then Recovery.Ready else Recovery.Crashed, r.recovery.transitionId, r.recovery.attempts,
                                     r.recovery.windowStart, r.recovery.lastRestart, if success then Some(now) else r.recovery.lastHealthy),
              r.fence, None, 0.0, if reason == "" then r.reason else reason,
              ErrorAfter(success, error, "bundle transition failed"), now)])
  {
  }

  // --- Groups -----------------------------------------------------------------

  /** A group is refused exactly when it names nothing or some member is in progress; then nothing changes. */
  lemma GroupRefusedIff(rs: Records, ts: seq<(string, Desired)>, owner: string, now: real, ttl: real, reason: string)
    ensures var (after, r) := BeginGroup(rs, ts, owner, now, ttl, reason); var m := Named(ts).1;
      && (r.None? ==> after == rs)
      && (r.None? <==> m == map[] || exists b :: b in m && InProgress(RecordOf(rs, b, now), now))
  {
    hide BegunSome, LeasesOf, Transitions, InProgress, RecordOf;
    var normalized, m := Transitions(ts), Named(ts).1;
    MembersNamed(ts);
    MembersAreKeys(ts);
    if normalized == [] {
      assert Members(normalized) == {};
    } else {
      assert normalized[0].0 in m;
    }
    if AnyInProgress(rs, normalized, now) {
      var k :| 0 <= k < |normalized| && InProgress(RecordOf(rs, normalized[k].0, now), now);
      assert normalized[k].0 in m;
    }
  }

  /** An accepted group begins every member under its next fence, and changes nothing else. */
  lemma GroupBeginIsAtomic(rs: Records, ts: seq<(string, Desired)>, owner: string, now: real, ttl: real, reason: string)
    requires BeginGroup(rs, ts, owner, now, ttl, reason).1.Some?
    ensures var after, m := BeginGroup(rs, ts, owner, now, ttl, reason).0, Named(ts).1;
      && after.Keys == rs.Keys + m.Keys
      && (forall b | b in rs && b !in m :: after[b] == rs[b])
      && (forall b | b in m :: after[b].owner == Some(owner) && after[b].desired == m[b]
                               && after[b].fence == FenceOf(rs, b) + 1 && after[b].expires == now + ttl)
  {
    hide Transitions, LeasesOf;
  }

  /** Its leases are the members' own: each is owned as soon as granted. */
  lemma GroupLeasesOwn(rs: Records, ts: seq<(string, Desired)>, owner: string, now: real, ttl: real, reason: string, later: real)
    requires BeginGroup(rs, ts, owner, now, ttl, reason).1.Some? && later < now + ttl
    ensures var (after, r) := BeginGroup(rs, ts, owner, now, ttl, reason);
      && Bundles(r.value) == Named(ts).1.Keys
      && OwnsAll(after, r.value, later)
  {
    hide Transitions, BeginRecord, Owns, Named, AnyInProgress, LeasesOf, RecordOf, BegunAll, Bundles;
    var normalized, m := Transitions(ts), Named(ts).1;
    var r := LeasesOf(rs, normalized, owner, now, ttl, reason);
    var after := BegunAll(rs, m, owner, now, ttl, reason);
    MembersNamed(ts);
    LeasesAt(rs, normalized, owner, now, ttl, reason);
    forall k | 0 <= k < |r| ensures r[k].bundle == normalized[k].0 && Owns(after, r[k], later) {
      BegunMember(rs, m, normalized[k].0, owner, now, ttl, reason);
      BegunOwns(RecordOf(rs, normalized[k].0, now), after, normalized[k].0, normalized[k].1, owner, now, ttl, reason, later);
    }
    forall b | b in m ensures exists k :: 0 <= k < |normalized| && normalized[k].0 == b {
      var k :| 0 <= k < |normalized| && normalized[k].0 == b;
    }
    MemberBundles(r, normalized, m);
  }

  lemma BegunMember(rs: Records, m: map<string, Desired>, b: string, owner: string, now: real, ttl: real, reason: string)
    requires b in m
    ensures b in BegunAll(rs, m, owner, now, ttl, reason)
    ensures BegunAll(rs, m, owner, now, ttl, reason)[b] == BeginRecord(RecordOf(rs, b, now), b, m[b], owner, now, ttl, reason).record
  {
    hide BeginRecord, RecordOf;
  }

  lemma MemberBundles(ls: seq<Lease>, ts: seq<(string, Desired)>, m: map<string, Desired>)
    requires |ls| == |ts| && forall k | 0 <= k < |ls| :: ls[k].bundle == ts[k].0
    requires (forall k | 0 <= k < |ts| :: ts[k].0 in m) && forall b | b in m :: exists k :: 0 <= k < |ts| && ts[k].0 == b
    ensures Bundles(ls) == m.Keys
  {
    forall b | b in m ensures b in Bundles(ls) {
      var k :| 0 <= k < |ts| && ts[k].0 == b;
      assert ls[k].bundle == b;
    }
  }

  lemma BegunOwns(r: Record, after: Records, bundle: string, desired: Desired, owner: string, now: real, ttl: real, reason: string, later: real)
    requires var b := BeginRecord(r, bundle, desired, owner, now, ttl, reason);
      bundle in after && after[bundle] == b.record && later < now + ttl
    ensures var b := BeginRecord(r, bundle, desired, owner, now, ttl, reason);
      b.lease.bundle == bundle && Owns(after, b.lease, later)
  {
  }

  lemma {:induction false} LeasesAt(rs: Records, ts: seq<(string, Desired)>, owner: string, now: real, ttl: real, reason: string)
    ensures var r := LeasesOf(rs, ts, owner, now, ttl, reason);
      forall k | 0 <= k < |ts| :: r[k] == BeginRecord(RecordOf(rs, ts[k].0, now), ts[k].0, ts[k].1, owner, now, ttl, reason).lease
  {
    hide BeginRecord;
    if ts != [] {
      LeasesAt(rs, ts[..|ts| - 1], owner, now, ttl, reason);
    }
  }

  /** Renewing a group needs every member, then extends every member, and only members. */
  lemma GroupRenewIsAtomic(rs: Records, ls: seq<Lease>, now: real, ttl: real)
    ensures var (after, ok) := Apply(rs, OpRenewGroup(ls, now, ttl));
      && (ok <==> ls != [] && forall i | 0 <= i < |ls| :: Owns(rs, ls[i], now))
      && (!ok ==> after == rs)
      && (ok ==> after.Keys == rs.Keys
                 && (forall i | 0 <= i < |ls| :: Owns(after, ls[i], now) && after[ls[i].bundle].expires == ResourceLeases.Until(now, ttl))
                 && (forall b | b in rs && b !in Bundles(ls) :: after[b] == rs[b]))
  {
    forall i | 0 <= i < |ls| ensures ls[i].bundle in Bundles(ls) {
    }
  }

  /** Finishing a group needs every member, then frees every member, and only members. */
  lemma GroupFinishIsAtomic(rs: Records, ls: seq<Lease>, now: real, success: bool, reason: string, error: Option<string>)
    ensures var (after, ok) := Apply(rs, OpFinishGroup(ls, success, now, reason, error));
      && (ok <==> forall i | 0 <= i < |ls| :: Owns(rs, ls[i], now))
      && (!ok ==> after == rs)
      && (ok ==> after.Keys == rs.Keys
                 && (forall i | 0 <= i < |ls| :: ls[i].bundle in after && after[ls[i].bundle].owner == None
                       && after[ls[i].bundle].recovery.phase == (if success then Recovery.Ready else Recovery.Crashed)
                       && after[ls[i].bundle].expires == 0.0 && after[ls[i].bundle].updated == now
                       && after[ls[i].bundle].error == ErrorAfter(success, error, "bundle transition group failed"))
                 && (forall b | b in rs && b !in Bundles(ls) :: after[b] == rs[b]))
  {
    forall i | 0 <= i < |ls| ensures ls[i].bundle in Bundles(ls) {
    }
  }

  // --- Exclusion --------------------------------------------------------------

  /** While a lease is owned and unexpired, another begin or recovery record of the bundle is refused exactly
      when the owner's name is not empty: a transition owned by the empty name protects nothing. */
  lemma OwnerExcludesIff(rs: Records, l: Lease, now: real, desired: Desired, other: string, ttl: real, reason: string,
                         recovery: Recovery.RecoveryState)
    requires Owns(rs, l, now)
    ensures !Apply(rs, OpBegin(l.bundle, desired, other, now, ttl, reason)).1 <==> l.owner != ""
    ensures !Apply(rs, OpRecord(l.bundle, desired, recovery, now, reason)).1 <==> l.owner != ""
  {
  }

  /** No group that names the bundle begins either. */
  lemma OwnerExcludesGroups(rs: Records, l: Lease, now: real, ts: seq<(string, Desired)>, other: string, ttl: real, reason: string)
    requires Owns(rs, l, now) && l.owner != "" && l.bundle in Named(ts).1
    ensures Apply(rs, OpBeginGroup(ts, other, now, ttl, reason)) == (rs, false)
  {
    GroupRefusedIff(rs, ts, other, now, ttl, reason);
  }

  /** What a begin grants can be finished by its holder while it lasts. */
  lemma BeginThenFinish(rs: Records, bundle: string, desired: Desired, owner: string, now: real, ttl: real, reason: string,
                        later: real, success: bool, end: string, error: Option<string>)
    requires Begin(rs, bundle, desired, owner, now, ttl, reason).1.Some? && later < now + ttl
    ensures var (during, l) := Begin(rs, bundle, desired, owner, now, ttl, reason);
      var (after, ok) := Apply(during, OpFinish(l.value, success, later, end, error));
      && ok && bundle in after && after[bundle].owner == None && after[bundle].fence == FenceOf(rs, bundle) + 1
      && (forall b | b in rs && b != bundle :: b in after && after[b] == rs[b])
  {
  }
}
