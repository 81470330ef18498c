// Fenced leases over sets of resources (scripts/bundle_lifecycle.py:466-538): all or nothing, exclusive
// while unexpired, and never usable again once any resource was granted anew.

module ResourceLeases {
  import opened Common
  import opened Canonical
  import opened LeanText

  datatype Hold = Hold(owner: string, fence: nat, expires: real)

  datatype Lease = Lease(ids: seq<string>, owner: string, fence: nat, expires: real)

  datatype Table = Table(holds: map<string, Hold>, fence: nat)

  /** A malformed identity raises; busy resources, or none at all, give no lease. */
  datatype Answer = Granted(lease: Lease) | Refused | Malformed

  /** What a renewal or a release answers; a malformed identity raises. */
  datatype Outcome = Done | NotHeld | Raised

  /** A lease granted or renewed now lasts its time to live, and a tenth of a second at least. */
  function Until(now: real, ttl: real): real {
    now + (if ttl > 0.1 then ttl else 0.1)
  }

  // --- Operations on values ---------------------------------------------------

  function HoldAll(holds: map<string, Hold>, ids: seq<string>, h: Hold): map<string, Hold> {
    holds + (map id | id in ids :: h)
  }

  predicate Busy(t: Table, ids: seq<string>, now: real) {
    exists i | 0 <= i < |ids| :: ids[i] in t.holds && t.holds[ids[i]].expires > now
  }

  /** Every named resource is held under this owner and fence. */
  predicate Matches(t: Table, ids: seq<string>, owner: string, fence: nat) {
    forall i | 0 <= i < |ids| :: ids[i] in t.holds && t.holds[ids[i]].owner == owner && t.holds[ids[i]].fence == fence
  }

  predicate Live(t: Table, ids: seq<string>, now: real) {
    forall i | 0 <= i < |ids| :: ids[i] in t.holds && t.holds[ids[i]].expires > now
  }

  function Acquire(t: Table, resources: seq<string>, owner: string, now: real, ttl: real): (Table, Answer) {
    match Ids(resources)
    case None => (t, Malformed)
    case Some(ids) =>
      if ids == [] || Busy(t, ids, now) then (t, Refused)
      else
        var h := Hold(owner, t.fence + 1, Until(now, ttl));
        (Table(HoldAll(t.holds, ids, h), t.fence + 1), Granted(Lease(ids, owner, h.fence, h.expires)))
  }

  function Renew(t: Table, l: Lease, now: real, ttl: real): (Table, Outcome) {
    match Ids(l.ids)
    case None => (t, Raised)
    case Some(ids) =>
      if Matches(t, ids, l.owner, l.fence) && Live(t, ids, now)
      then (t.(holds := HoldAll(t.holds, ids, Hold(l.owner, l.fence, Until(now, ttl)))), Done)
      else (t, NotHeld)
  }

  function Release(t: Table, l: Lease): (Table, Outcome) {
    match Ids(l.ids)
    case None => (t, Raised)
    case Some(ids) =>
      if Matches(t, ids, l.owner, l.fence) then (t.(holds := t.holds - (set id | id in ids)), Done) else (t, NotHeld)
  }

  // --- The store in its own form ----------------------------------------------

  class Store {
    var leases: map<string, Hold>
    var fence: nat

    function Value(): Table
      reads this
    {
      Table(leases, fence)
    }

    constructor ()
      ensures Value() == Table(map[], 0)
    {
      leases, fence := map[], 0;
    }

    method HoldEach(ids: seq<string>, h: Hold)
      modifies this`leases
      ensures leases == HoldAll(old(leases), ids, h)
    {
      var i := 0;
      while i < |ids|
        invariant 0 <= i <= |ids|
        invariant leases == HoldAll(old(leases), ids[..i], h)
      {
        assert ids[..i + 1] == ids[..i] + [ids[i]];
        leases := leases[ids[i] := h];
        i := i + 1;
      }
      assert ids[..i] == ids;
    }

    /** `acquire_resources` */
    method AcquireResources(resources: seq<string>, owner: string, now: real, ttl: real) returns (r: Answer)
      modifies this
      ensures (Value(), r) == Acquire(old(Value()), resources, owner, now, ttl)
    {
      hide HoldAll, Ids;
      var normalized := CanonicalResourceIds(resources);
      if normalized.None? {
        return Malformed;
      }
      var ids := normalized.value;
      if ids == [] {
        return Refused;
      }
      var i := 0;
      while i < |ids|
        invariant 0 <= i <= |ids|
        invariant forall k | 0 <= k < i :: !(ids[k] in leases && leases[ids[k]].expires > now)
      {
        if ids[i] in leases && leases[ids[i]].expires > now {
          return Refused;
        }
        i := i + 1;
      }
      assert !Busy(Value(), ids, now);
      fence := fence + 1;
      var until := Until(now, ttl);
      HoldEach(ids, Hold(owner, fence, until));
      r := Granted(Lease(ids, owner, fence, until));
    }

    /** `renew_resources` */
    method RenewResources(l: Lease, now: real, ttl: real) returns (r: Outcome)
      modifies this
      ensures (Value(), r) == Renew(old(Value()), l, now, ttl)
    {
      var normalized := CanonicalResourceIds(l.ids);
      if normalized.None? {
        return Raised;
      }
      var ids := normalized.value;
      var i := 0;
      while i < |ids|
        invariant 0 <= i <= |ids|
        invariant forall k | 0 <= k < i :: ids[k] in leases && leases[ids[k]].owner == l.owner
                    && leases[ids[k]].fence == l.fence && leases[ids[k]].expires > now
      {
        if ids[i] !in leases || leases[ids[i]].owner != l.owner || leases[ids[i]].fence != l.fence
           || leases[ids[i]].expires <= now {
          return NotHeld;
        }
        i := i + 1;
      }
      assert Matches(Value(), ids, l.owner, l.fence) && Live(Value(), ids, now);
      HoldEach(ids, Hold(l.owner, l.fence, Until(now, ttl)));
      r := Done;
    }

    /** `release_resources` */
    method ReleaseResources(l: Lease) returns (r: Outcome)
      modifies this
      ensures (Value(), r) == Release(old(Value()), l)
    {
      var normalized := CanonicalResourceIds(l.ids);
      if normalized.None? {
        return Raised;
      }
      var ids := normalized.value;
      var i := 0;
      while i < |ids|
        invariant 0 <= i <= |ids|
        invariant forall k | 0 <= k < i :: ids[k] in leases && leases[ids[k]].owner == l.owner && leases[ids[k]].fence == l.fence
      {
        if ids[i] !in leases || leases[ids[i]].owner != l.owner || leases[ids[i]].fence != l.fence {
          return NotHeld;
        }
        i := i + 1;
      }
      assert Matches(Value(), ids, l.owner, l.fence);
      i := 0;
      while i < |ids|
        invariant 0 <= i <= |ids|
        invariant fence == old(fence)
        invariant leases == old(leases) - (set id | id in ids[..i])
      {
        assert ids[..i + 1] == ids[..i] + [ids[i]];
        leases := leases - {ids[i]};
        i := i + 1;
      }
      assert ids[..i] == ids;
      r := Done;
    }
  }

  // --- Histories --------------------------------------------------------------

  datatype Op =
    | OpAcquire(resources: seq<string>, owner: string, now: real, ttl: real)
    | OpRenew(lease: Lease, now: real, ttl: real)
    | OpRelease(lease: Lease)

  /** What a client knows of a lease it was granted: until when it has been told it holds each resource. */
  datatype Claim = Claim(lease: Lease, held: map<string, real>)

  datatype History = History(table: Table, claims: seq<Claim>, clock: real)

  function Empty(clock: real): History {
    History(Table(map[], 0), [], clock)
  }

  predicate SameFence(l: Lease, k: Lease) {
    l.owner == k.owner && l.fence == k.fence
  }

  function Granting(l: Lease): Claim {
    Claim(l, map id | id in l.ids :: l.expires)
  }

  /** A successful renewal sets the time of the resources it names. */
  function Renewed(c: Claim, l: Lease, ids: seq<string>, until: real): Claim {
    if !SameFence(c.lease, l) then c
    else c.(held := map id | id in c.held :: if id in ids then until else c.held[id])
  }

  function RenewedAll(cs: seq<Claim>, l: Lease, ids: seq<string>, until: real): (r: seq<Claim>)
    ensures |r| == |cs| && forall i | 0 <= i < |cs| :: r[i] == Renewed(cs[i], l, ids, until)
  {
    seq(|cs|, i requires 0 <= i < |cs| => Renewed(cs[i], l, ids, until))
  }

  /** A successful release gives up the resources it names, and no others. */
  function Released(c: Claim, l: Lease, ids: seq<string>): Claim {
    if !SameFence(c.lease, l) then c else c.(held := map id | id in c.held && id !in ids :: c.held[id])
  }

  function ReleasedAll(cs: seq<Claim>, l: Lease, ids: seq<string>): (r: seq<Claim>)
    ensures |r| == |cs| && forall i | 0 <= i < |cs| :: r[i] == Released(cs[i], l, ids)
  {
    seq(|cs|, i requires 0 <= i < |cs| => Released(cs[i], l, ids))
  }

  /** The canonical identities a lease names, none when one is malformed. */
  function IdsNamed(l: Lease): seq<string> {
    match Ids(l.ids) case None => [] case Some(ids) => ids
  }

  function Apply(y: History, op: Op): History {
    match op
    case OpAcquire(resources, owner, now, ttl) =>
      var (t, r) := Acquire(y.table, resources, owner, now, ttl);
      History(t, if r.Granted? then y.claims + [Granting(r.lease)] else y.claims, now)
    case OpRenew(l, now, ttl) =>
      var (t, r) := Renew(y.table, l, now, ttl);
      History(t, if r.Done? then RenewedAll(y.claims, l, IdsNamed(l), Until(now, ttl)) else y.claims, now)
    case OpRelease(l) =>
      var (t, r) := Release(y.table, l);
      y.(table := t, claims := if r.Done? then ReleasedAll(y.claims, l, IdsNamed(l)) else y.claims)
  }

  function ApplyAll(y: History, ops: seq<Op>): History {
    if ops == [] then y else Apply(ApplyAll(y, ops[..|ops| - 1]), ops[|ops| - 1])
  }

  function TimeOf(op: Op, otherwise: real): real {
    match op
    case OpAcquire(_, _, now, _) => now
    case OpRenew(_, now, _) => now
    case OpRelease(_) => otherwise
  }

  /** The clock never runs backwards. */
  predicate Forward(y: History, ops: seq<Op>) {
    ops == [] || (var n := |ops| - 1;
                  Forward(y, ops[..n]) && TimeOf(ops[n], ApplyAll(y, ops[..n]).clock) >= ApplyAll(y, ops[..n]).clock)
  }

  // --- Exclusion --------------------------------------------------------------

  /** The client holds the resource: not released, and not run out. */
  predicate Holds(c: Claim, id: string, clock: real) {
    id in c.held && c.held[id] > clock
  }

  /** What the client holds is what the table says. */
  ghost predicate Backed(t: Table, c: Claim, clock: real) {
    forall id: string :: Holds(c, id, clock) ==>
      && id in t.holds && t.holds[id].owner == c.lease.owner && t.holds[id].fence == c.lease.fence
      && t.holds[id].expires >= c.held[id]
  }

  predicate FencesKnown(y: History) {
    && (forall id | id in y.table.holds :: y.table.holds[id].fence <= y.table.fence)
    && (forall i | 0 <= i < |y.claims| :: y.claims[i].lease.fence <= y.table.fence)
    && (forall i, j | 0 <= i < j < |y.claims| :: y.claims[i].lease.fence < y.claims[j].lease.fence)
  }

  ghost predicate Inv(y: History) {
    && FencesKnown(y)
    && forall i | 0 <= i < |y.claims| :: Backed(y.table, y.claims[i], y.clock)
  }

  lemma HeldIsNotFree(t: Table, ids: seq<string>, now: real, id: string)
    requires !Busy(t, ids, now)
    ensures id in t.holds && t.holds[id].expires > now ==> id !in ids
  {
  }

  lemma GrantKeeps(y: History, resources: seq<string>, owner: string, now: real, ttl: real)
    requires Inv(y) && now >= y.clock && Acquire(y.table, resources, owner, now, ttl).1.Granted?
    ensures Inv(Apply(y, OpAcquire(resources, owner, now, ttl)))
  {
    hide Ids, HoldAll;
    var z := Apply(y, OpAcquire(resources, owner, now, ttl));
    var ids := Ids(resources).value;
    var h := Hold(owner, y.table.fence + 1, Until(now, ttl));
    forall id | id in z.table.holds ensures z.table.holds[id].fence <= z.table.fence {
      HoldAllAt(y.table.holds, ids, h, id);
    }
    forall i | 0 <= i < |z.claims| ensures Backed(z.table, z.claims[i], z.clock) {
      forall id: string | Holds(z.claims[i], id, now)
        ensures id in z.table.holds && z.table.holds[id].owner == z.claims[i].lease.owner
        ensures z.table.holds[id].fence == z.claims[i].lease.fence && z.table.holds[id].expires >= z.claims[i].held[id]
      {
        HoldAllAt(y.table.holds, ids, h, id);
        if i < |y.claims| {
          assert Backed(y.table, y.claims[i], y.clock) && Holds(y.claims[i], id, y.clock);
          HeldIsNotFree(y.table, ids, now, id);
        }
      }
    }
  }

  lemma HoldAllAt(holds: map<string, Hold>, ids: seq<string>, h: Hold, id: string)
    ensures id in HoldAll(holds, ids, h) <==> id in holds || id in ids
    ensures id in ids ==> HoldAll(holds, ids, h)[id] == h
    ensures id in holds && id !in ids ==> HoldAll(holds, ids, h)[id] == holds[id]
  {
  }

  /** The table's holder of the resource is the client of the claim. */
  lemma SameHolder(t: Table, ids: seq<string>, l: Lease, c: Claim, id: string, clock: real)
    requires Matches(t, ids, l.owner, l.fence) && Backed(t, c, clock) && Holds(c, id, clock) && id in ids
    ensures SameFence(c.lease, l)
  {
    var k :| 0 <= k < |ids| && ids[k] == id;
  }

  lemma RenewKeeps(y: History, l: Lease, now: real, ttl: real)
    requires Inv(y) && now >= y.clock && Renew(y.table, l, now, ttl).1.Done?
    ensures Inv(Apply(y, OpRenew(l, now, ttl)))
  {
    hide Ids, HoldAll, Matches, Live;
    var z := Apply(y, OpRenew(l, now, ttl));
    var ids := Ids(l.ids).value;
    var h := Hold(l.owner, l.fence, Until(now, ttl));
    forall id | id in z.table.holds ensures z.table.holds[id].fence <= z.table.fence {
      HoldAllAt(y.table.holds, ids, h, id);
      if id in ids {
        HeldFence(y.table, ids, l, id);
      }
    }
    forall i | 0 <= i < |z.claims| ensures Backed(z.table, z.claims[i], z.clock) {
      var c := y.claims[i];
      assert Backed(y.table, c, y.clock);
      forall id: string | Holds(z.claims[i], id, now)
        ensures id in z.table.holds && z.table.holds[id].owner == c.lease.owner
        ensures z.table.holds[id].fence == c.lease.fence && z.table.holds[id].expires >= z.claims[i].held[id]
      {
        HoldAllAt(y.table.holds, ids, h, id);
        if !(SameFence(c.lease, l) && id in ids) {
          assert Holds(c, id, y.clock);
          if id in ids {
            SameHolder(y.table, ids, l, c, id, y.clock);
          }
        }
      }
    }
  }

  lemma HeldFence(t: Table, ids: seq<string>, l: Lease, id: string)
    requires Matches(t, ids, l.owner, l.fence) && id in ids
    ensures id in t.holds && t.holds[id].fence == l.fence
  {
  }

  lemma ReleaseKeeps(y: History, l: Lease)
    requires Inv(y) && Release(y.table, l).1.Done?
    ensures Inv(Apply(y, OpRelease(l)))
  {
    hide Ids, Matches;
    var z := Apply(y, OpRelease(l));
    var ids := Ids(l.ids).value;
    forall i | 0 <= i < |z.claims| ensures Backed(z.table, z.claims[i], z.clock) {
      var c := y.claims[i];
      assert Backed(y.table, c, y.clock);
      forall id: string | Holds(z.claims[i], id, y.clock)
        ensures id in z.table.holds && z.table.holds[id] == y.table.holds[id] && Holds(c, id, y.clock)
      {
        assert Holds(c, id, y.clock);
        if id in ids {
          SameHolder(y.table, ids, l, c, id, y.clock);
        }
      }
    }
  }

  /** An operation that changes nothing leaves time to pass. */
  lemma LaterKeeps(y: History, now: real)
    requires Inv(y) && now >= y.clock
    ensures Inv(y.(clock := now))
  {
    forall i | 0 <= i < |y.claims| ensures Backed(y.table, y.claims[i], now) {
      assert Backed(y.table, y.claims[i], y.clock);
      assert forall id: string :: Holds(y.claims[i], id, now) ==> Holds(y.claims[i], id, y.clock);
    }
  }

  lemma StepKeeps(y: History, op: Op)
    requires Inv(y) && TimeOf(op, y.clock) >= y.clock
    ensures Inv(Apply(y, op))
  {
    hide Acquire, Renew, Release, Backed, FencesKnown;
    match op
    case OpAcquire(resources, owner, now, ttl) =>
      AcquireFails(y.table, resources, owner, now, ttl);
      LaterKeeps(y, now);
      if Acquire(y.table, resources, owner, now, ttl).1.Granted? {
        GrantKeeps(y, resources, owner, now, ttl);
      }
    case OpRenew(l, now, ttl) =>
      RenewFails(y.table, l, now, ttl);
      LaterKeeps(y, now);
      if Renew(y.table, l, now, ttl).1.Done? {
        RenewKeeps(y, l, now, ttl);
      }
    case OpRelease(l) =>
      ReleaseFails(y.table, l);
      if Release(y.table, l).1.Done? {
        ReleaseKeeps(y, l);
      }
  }

  lemma AcquireFails(t: Table, resources: seq<string>, owner: string, now: real, ttl: real)
    ensures !Acquire(t, resources, owner, now, ttl).1.Granted? ==> Acquire(t, resources, owner, now, ttl).0 == t
  {
  }

  lemma RenewFails(t: Table, l: Lease, now: real, ttl: real)
    ensures !Renew(t, l, now, ttl).1.Done? ==> Renew(t, l, now, ttl).0 == t
  {
  }

  lemma ReleaseFails(t: Table, l: Lease)
    ensures !Release(t, l).1.Done? ==> Release(t, l).0 == t
  {
  }

  lemma {:induction false} AllKeep(clock: real, ops: seq<Op>)
    requires Forward(Empty(clock), ops)
    ensures Inv(ApplyAll(Empty(clock), ops))
  {
    hide Inv, Apply;
    if ops == [] {
      EmptyHolds(clock);
    } else {
      AllKeep(clock, ops[..|ops| - 1]);
      StepKeeps(ApplyAll(Empty(clock), ops[..|ops| - 1]), ops[|ops| - 1]);
    }
  }

  lemma EmptyHolds(clock: real)
    ensures Inv(Empty(clock))
  {
  }

  /** Exclusion: whatever was acquired, renewed and released in whatever order, in whole or in part, no
      resource is held by the clients of two granted leases. */
  lemma HeldLeasesAreDisjoint(clock: real, ops: seq<Op>, i: nat, j: nat, id: string)
    requires Forward(Empty(clock), ops) && i < j < |ApplyAll(Empty(clock), ops).claims|
    ensures var y := ApplyAll(Empty(clock), ops);
      !(Holds(y.claims[i], id, y.clock) && Holds(y.claims[j], id, y.clock))
  {
    AllKeep(clock, ops);
    var y := ApplyAll(Empty(clock), ops);
    var a, b := y.claims[i], y.claims[j];
    assert a.lease.fence < b.lease.fence && Backed(y.table, a, y.clock) && Backed(y.table, b, y.clock);
  }

  /** All or nothing: a grant holds every canonical resource of the request under one new fence, anything
      else changes nothing; and it is refused exactly when something is held and unexpired, or nothing is asked. */
  lemma AcquireIsAtomic(t: Table, resources: seq<string>, owner: string, now: real, ttl: real)
    ensures var (u, r) := Acquire(t, resources, owner, now, ttl);
      && (r.Malformed? <==> exists x :: x in resources && Blank(x))
      && (r.Refused? <==> !r.Malformed? && (resources == [] || exists x :: x in resources && Trim(x) in t.holds
                                                                  && t.holds[Trim(x)].expires > now))
      && (!r.Granted? ==> u == t)
      && (r.Granted? ==>
            && u.fence == r.lease.fence == t.fence + 1 && r.lease.expires > now
            && (forall x | x in resources :: Trim(x) in u.holds && u.holds[Trim(x)] == Hold(owner, r.lease.fence, r.lease.expires))
            && (forall id | id in t.holds && id !in r.lease.ids :: id in u.holds && u.holds[id] == t.holds[id]))
  {
    IdsMeaning(resources);
    var (u, r) := Acquire(t, resources, owner, now, ttl);
    if Ids(resources).Some? {
      var ids := Ids(resources).value;
      forall x | x in resources ensures Trim(x) in ids {
      }
      NoIds(resources, ids);
      BusyMeaning(t, resources, ids, now);
    }
  }

  lemma NoIds(resources: seq<string>, ids: seq<string>)
    requires Ids(resources) == Some(ids)
    ensures ids == [] <==> resources == []
  {
    IdsMeaning(resources);
    if resources != [] {
      assert Trim(resources[0]) in ids;
    }
  }

  lemma BusyMeaning(t: Table, resources: seq<string>, ids: seq<string>, now: real)
    requires Ids(resources) == Some(ids)
    ensures Busy(t, ids, now) <==> exists x :: x in resources && Trim(x) in t.holds && t.holds[Trim(x)].expires > now
  {
    IdsMeaning(resources);
    if Busy(t, ids, now) {
      var i :| 0 <= i < |ids| && ids[i] in t.holds && t.holds[ids[i]].expires > now;
      assert ids[i] in ids;
    }
    if x :| x in resources && Trim(x) in t.holds && t.holds[Trim(x)].expires > now {
      assert Trim(x) in ids;
    }
  }

  /** The table holds the resource for the lease, under the name without its blanks. */
  predicate HeldFor(t: Table, l: Lease, x: string) {
    Trim(x) in t.holds && t.holds[Trim(x)].owner == l.owner && t.holds[Trim(x)].fence == l.fence
  }

  lemma MatchesMeaning(t: Table, l: Lease, ids: seq<string>, now: real)
    requires Ids(l.ids) == Some(ids)
    ensures Matches(t, ids, l.owner, l.fence) <==> forall x | x in l.ids :: HeldFor(t, l, x)
    ensures Live(t, ids, now) <==> forall x | x in l.ids :: Trim(x) in t.holds && t.holds[Trim(x)].expires > now
    ensures forall id :: id in ids <==> exists x :: x in l.ids && Trim(x) == id
  {
    IdsMeaning(l.ids);
    forall x | x in l.ids ensures Trim(x) in ids {
    }
    forall i | 0 <= i < |ids| ensures exists x :: x in l.ids && Trim(x) == ids[i] {
      assert ids[i] in ids;
    }
  }

  /** A renewal succeeds exactly for the holder of every resource it names, each unexpired; then they all last from
      now on, for a tenth of a second at least, and nothing else changes. */
  lemma RenewIsAtomic(t: Table, l: Lease, now: real, ttl: real)
    ensures var (u, r) := Renew(t, l, now, ttl);
      && (r.Raised? <==> exists x :: x in l.ids && Blank(x))
      && (r.Done? <==> !r.Raised? && forall x | x in l.ids :: HeldFor(t, l, x) && t.holds[Trim(x)].expires > now)
      && (!r.Done? ==> u == t)
      && u.fence == t.fence && u.holds.Keys == t.holds.Keys
      && (r.Done? ==> forall x | x in l.ids :: Trim(x) in u.holds
                        && u.holds[Trim(x)] == Hold(l.owner, l.fence, now + if ttl < 0.1 then 0.1 else ttl))
      && (forall id | id in t.holds && (forall x | x in l.ids :: Trim(x) != id) :: u.holds[id] == t.holds[id])
  {
    hide Ids, Matches, Live, HoldAll;
    IdsMeaning(l.ids);
    if Ids(l.ids).Some? {
      var ids := Ids(l.ids).value;
      var h := Hold(l.owner, l.fence, Until(now, ttl));
      MatchesMeaning(t, l, ids, now);
      var u := Renew(t, l, now, ttl).0;
      if Renew(t, l, now, ttl).1.Done? {
        forall id ensures id in u.holds <==> id in t.holds {
          HoldAllAt(t.holds, ids, h, id);
        }
        forall id | id in t.holds ensures u.holds[id] == if id in ids then h else t.holds[id] {
          HoldAllAt(t.holds, ids, h, id);
        }
      }
    }
  }

  /** A release succeeds exactly for the holder of every resource it names, expired or not; then they are free, and
      nothing else changes. */
  lemma ReleaseIsAtomic(t: Table, l: Lease)
    ensures var (u, r) := Release(t, l);
      && (r.Raised? <==> exists x :: x in l.ids && Blank(x))
      && (r.Done? <==> !r.Raised? && forall x | x in l.ids :: HeldFor(t, l, x))
      && (!r.Done? ==> u == t)
      && u.fence == t.fence
      && (r.Done? ==> forall id :: id in u.holds <==> id in t.holds && forall x | x in l.ids :: Trim(x) != id)
      && (forall id | id in u.holds :: id in t.holds && u.holds[id] == t.holds[id])
  {
    hide Ids, Matches, Live;
    IdsMeaning(l.ids);
    if Ids(l.ids).Some? {
      MatchesMeaning(t, l, Ids(l.ids).value, 0.0);
    }
  }

  // --- No resurrection --------------------------------------------------------

  /** Some resource of the lease is no longer held under its fence. */
  predicate Lost(t: Table, l: Lease) {
    exists i | 0 <= i < |l.ids| :: l.ids[i] !in t.holds || t.holds[l.ids[i]].fence != l.fence
  }

  /** A lease that lost a resource can neither renew nor release anything, at any clock value. */
  lemma LostIsPowerless(t: Table, l: Lease, now: real, ttl: real)
    requires Lost(t, l) && Ids(l.ids) == Some(l.ids)
    ensures Renew(t, l, now, ttl) == (t, NotHeld) && Release(t, l) == (t, NotHeld)
  {
  }

  /** Nothing gives it back: only a grant raises the fence, and to a value never used before. */
  lemma LostStaysLost(y: History, l: Lease, op: Op)
    requires Lost(y.table, l) && l.fence <= y.table.fence
    ensures Lost(Apply(y, op).table, l) && l.fence <= Apply(y, op).table.fence
  {
    hide Ids;
    var i :| 0 <= i < |l.ids| && (l.ids[i] !in y.table.holds || y.table.holds[l.ids[i]].fence != l.fence);
    var id := l.ids[i];
    var z := Apply(y, op).table;
    assert id !in z.holds || z.holds[id].fence != l.fence;
  }

  /** Once any resource of a granted lease has been granted anew, no later sequence of operations, at
      whatever times, lets the lease renew or release anything. */
  lemma {:induction false} NoResurrection(y: History, l: Lease, ops: seq<Op>, now: real, ttl: real)
    requires Lost(y.table, l) && l.fence <= y.table.fence && Ids(l.ids) == Some(l.ids)
    ensures var t := ApplyAll(y, ops).table;
      Lost(t, l) && l.fence <= t.fence && Renew(t, l, now, ttl) == (t, NotHeld) && Release(t, l) == (t, NotHeld)
  {
    hide Apply, Lost, Renew, Release;
    if ops != [] {
      NoResurrection(y, l, ops[..|ops| - 1], now, ttl);
      LostStaysLost(ApplyAll(y, ops[..|ops| - 1]), l, ops[|ops| - 1]);
    }
    LostIsPowerless(ApplyAll(y, ops).table, l, now, ttl);
  }

  /** A new grant of a shared resource is such a loss. */
  lemma RegrantLoses(t: Table, l: Lease, resources: seq<string>, owner: string, now: real, ttl: real, id: string)
    requires l.fence <= t.fence && id in l.ids
    requires var r := Acquire(t, resources, owner, now, ttl).1; r.Granted? && id in r.lease.ids
    ensures Lost(Acquire(t, resources, owner, now, ttl).0, l)
  {
    hide Ids;
    var i :| 0 <= i < |l.ids| && l.ids[i] == id;
  }

  /** Granted identities are canonical, so the lemmas above apply to every granted lease. */
  lemma GrantsAreCanonical(t: Table, resources: seq<string>, owner: string, now: real, ttl: real)
    requires Acquire(t, resources, owner, now, ttl).1.Granted?
    ensures var (u, r) := Acquire(t, resources, owner, now, ttl);
      Ids(r.lease.ids) == Some(r.lease.ids) && r.lease.fence == t.fence + 1 == u.fence
  {
    IdsIdempotent(resources, Ids(resources).value);
  }

  lemma {:induction false} FenceGrows(y: History, ops: seq<Op>)
    ensures ApplyAll(y, ops).table.fence >= y.table.fence
  {
    hide Ids, HoldAll;
    if ops != [] {
      FenceGrows(y, ops[..|ops| - 1]);
    }
  }

  /** Over any history: a lease granted at any time, once one of its resources was granted anew at any later
      time, never renews or releases anything again, whatever was done before, between and afterwards. */
  lemma SupersededGrant(y: History, first: Op, between: seq<Op>, second: Op, rest: seq<Op>, id: string, now: real, ttl: real)
    requires first.OpAcquire? && second.OpAcquire?
    requires Acquire(y.table, first.resources, first.owner, first.now, first.ttl).1.Granted?
    requires var z := ApplyAll(Apply(y, first), between);
      var r := Acquire(z.table, second.resources, second.owner, second.now, second.ttl).1;
      && r.Granted? && id in r.lease.ids
      && id in Acquire(y.table, first.resources, first.owner, first.now, first.ttl).1.lease.ids
    ensures var l := Acquire(y.table, first.resources, first.owner, first.now, first.ttl).1.lease;
      var t := ApplyAll(Apply(ApplyAll(Apply(y, first), between), second), rest).table;
      Renew(t, l, now, ttl) == (t, NotHeld) && Release(t, l) == (t, NotHeld)
  {
    hide Acquire, Renew, Release, Lost, Ids, ApplyAll;
    var l := Acquire(y.table, first.resources, first.owner, first.now, first.ttl).1.lease;
    GrantsAreCanonical(y.table, first.resources, first.owner, first.now, first.ttl);
    FenceGrows(Apply(y, first), between);
    var z := ApplyAll(Apply(y, first), between);
    GrantsAreCanonical(z.table, second.resources, second.owner, second.now, second.ttl);
    RegrantLoses(z.table, l, second.resources, second.owner, second.now, second.ttl, id);
    NoResurrection(Apply(z, second), l, rest, now, ttl);
  }
}
