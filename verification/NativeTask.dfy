// The durable task host and its reconnecting client: submissions, forwarding, lost replies, client
// crashes and host restarts in any interleaving (scripts/native_task_host.py:83-206,
// scripts/native_task_client.py:60-112).

module NativeTask {
  import opened Common

  /** SHA-256, taken to be injective. */
  datatype Digest = Digest(of: string)

  datatype Status = Accepted | InFlight | Completed | Failed | Unknown

  datatype Record = Record(
    request: Digest, status: Status, submits: nat, pid: Option<nat>,
    upstream: Option<nat>, response: Option<Digest>)

  /** Where a running `execute` stands: not yet saved, saved but not posted, posted. */
  datatype Phase = Created | Saved | Posted

  datatype Task = Task(body: string, phase: Phase)

  /** Durable records and response files, and what runs in memory. */
  datatype Host = Host(records: map<string, Record>, responses: map<string, string>, tasks: map<string, Task>)

  predicate Unresolved(s: Status) {
    s.Accepted? || s.InFlight? || s.Unknown?
  }

  predicate Resolved(s: Status) {
    s.Completed? || s.Failed?
  }

  // --- The host ---------------------------------------------------------------

  datatype Reply = Found(record: Record) | Missing | Conflict

  /** `submit`: one identity, one request; and no admission beside an unresolved task. */
  function Submit(h: Host, id: string, body: string): (Host, Reply) {
    if id in h.records then
      (h, if h.records[id].request == Digest(body) then Found(h.records[id]) else Conflict)
    else if exists t | t in h.records :: Unresolved(h.records[t].status) then (h, Conflict)
    else
      var r := Record(Digest(body), Accepted, 0, None, None, None);
      (h.(records := h.records[id := r], tasks := h.tasks[id := Task(body, Created)]), Found(r))
  }

  /** `execute` saves the forwarding before it forwards. */
  function Forwarding(h: Host, id: string, pid: Option<nat>): Host
    requires id in h.tasks && id in h.records
  {
    h.(records := h.records[id := h.records[id].(status := InFlight, submits := 1, pid := pid)],
       tasks := h.tasks[id := h.tasks[id].(phase := Saved)])
  }

  function HasPosted(h: Host, id: string): Host
    requires id in h.tasks
  {
    h.(tasks := h.tasks[id := h.tasks[id].(phase := Posted)])
  }

  predicate Success(code: nat) {
    200 <= code < 300
  }

  /** The upstream answered. */
  function Answered(h: Host, id: string, code: nat, raw: string): Host
    requires id in h.tasks && id in h.records
  {
    h.(records := h.records[id := h.records[id].(status := if Success(code) then Completed else Failed,
                                                   upstream := Some(code), response := Some(Digest(raw)))],
       responses := h.responses[id := raw],
       tasks := h.tasks - {id})
  }

  /** A response file that a failed or interrupted step may have left behind. */
  function Left(responses: map<string, string>, id: string, left: Option<string>): map<string, string> {
    if left.Some? then responses[id := left.value] else responses
  }

  /** No answer: neither success nor failure is established. */
  function Broken(h: Host, id: string, left: Option<string>): Host
    requires id in h.tasks && id in h.records
  {
    h.(records := h.records[id := h.records[id].(status := Unknown)], responses := Left(h.responses, id, left),
       tasks := h.tasks - {id})
  }

  /** `execute` itself dies, as when its last save fails. */
  function Died(h: Host, id: string, left: Option<string>): Host {
    h.(responses := Left(h.responses, id, left), tasks := h.tasks - {id})
  }

  /** `reconcile_record`: the accepting process is known, observed, and another one by now. */
  predicate Exited(r: Record, current: Option<nat>) {
    r.status.Unknown? && r.pid.Some? && r.pid.value != 0 && current.Some? && current != r.pid
  }

  function ExitText(id: string): string {
    "native_runtime_exited_before_response:" + id
  }

  function Reconcile(h: Host, id: string, current: Option<nat>): (Host, Reply) {
    if id !in h.records then (h, Missing)
    else if !Exited(h.records[id], current) then (h, Found(h.records[id]))
    else
      var r := h.records[id].(status := Failed, upstream := Some(503), response := Some(Digest(ExitText(id))));
      (h.(records := h.records[id := r], responses := h.responses[id := ExitText(id)]), Found(r))
  }

  /** What a previous process may have forwarded is unknown. */
  function Restarted(h: Host): Host {
    Host(map id | id in h.records ::
           if h.records[id].status.Accepted? || h.records[id].status.InFlight? then h.records[id].(status := Unknown)
           else h.records[id],
         h.responses, map[])
  }

  /** `result` */
  function Result(h: Host, id: string): Option<string> {
    if id in h.records && Resolved(h.records[id].status) && id in h.responses then Some(h.responses[id]) else None
  }

  // --- The client -------------------------------------------------------------

  /** Where the polling loop stands. */
  datatype Point =
    | Poll
    | Intent
    | Post
    | Check(record: Record)
    | Fetch(record: Record)
    | Yielded(code: nat, raw: string)

  datatype Client = Client(body: string, accepted: bool, at: Point)

  /** One of any number of observers of an identity, alive at the same time or not. */
  datatype Slot = Slot(id: string, observer: nat)

  /** The host, the upstream's record of what it was sent and answered, the clients alive, the identities
      whose admission boundary is durable, and how often each observer posted to the host. */
  datatype World = World(
    host: Host, sent: seq<(string, string)>, answers: map<string, (nat, string)>,
    clients: map<Slot, Client>, started: set<string>, posts: map<Slot, nat>)

  function PostsOf(w: World, k: Slot): nat {
    if k in w.posts then w.posts[k] else 0
  }

  function At(w: World, k: Slot, c: Client): World {
    w.(clients := w.clients[k := c])
  }

  /** Evidence that is missing or inconsistent: keep ownership and poll again. */
  function Held(c: Client): Client {
    c.(accepted := true, at := Poll)
  }

  datatype Move =
    // the host
    | HostForwards(id: string, pid: Option<nat>)
    | HostPosts(id: string)
    | HostAnswered(id: string, code: nat, raw: string)
    | HostBroken(id: string, left: Option<string>)
    | HostDies(id: string, left: Option<string>)
    | HostReconciles(id: string, current: Option<nat>)
    | HostRestarts
    // an observer of one identity
    | ClientStarts(slot: Slot, body: string)
    | ClientCrashes(slot: Slot)
    | ClientPolls(slot: Slot, current: Option<nat>, heard: bool, garbled: bool)
    | ClientIntends(slot: Slot, stored: bool, confirmed: bool)
    | ClientPosts(slot: Slot, arrives: bool, heard: bool)
    | ClientChecks(slot: Slot, stored: bool)
    | ClientFetches(slot: Slot, heard: bool)

  predicate Enabled(w: World, m: Move) {
    match m
    case HostForwards(id, _) => id in w.host.tasks && id in w.host.records && w.host.tasks[id].phase.Created?
    case HostPosts(id) => id in w.host.tasks && w.host.tasks[id].phase.Saved?
    case HostAnswered(id, _, _) => id in w.host.tasks && id in w.host.records && w.host.tasks[id].phase.Posted?
    case HostBroken(id, _) => id in w.host.tasks && id in w.host.records && !w.host.tasks[id].phase.Created?
    case HostDies(id, _) => id in w.host.tasks
    case HostReconciles(_, _) => true
    case HostRestarts => true
    case ClientStarts(k, _) => k !in w.clients
    case ClientCrashes(k) => k in w.clients
    case ClientPolls(k, _, _, _) => k in w.clients && w.clients[k].at.Poll?
    case ClientIntends(k, stored, confirmed) => k in w.clients && w.clients[k].at.Intent? && (confirmed ==> stored)
    case ClientPosts(k, arrives, heard) => k in w.clients && w.clients[k].at.Post? && (heard ==> arrives)
    case ClientChecks(k, _) => k in w.clients && w.clients[k].at.Check?
    case ClientFetches(k, _) => k in w.clients && w.clients[k].at.Fetch?
  }

  function Checked(c: Client, r: Record): Client {
    if r.request != Digest(c.body) then Held(c)
    else if Resolved(r.status) then c.(at := Fetch(r))
    else c.(at := Poll)
  }

  function Next(w: World, m: Move): World
    requires Enabled(w, m)
  {
    match m
    case HostForwards(id, pid) => w.(host := Forwarding(w.host, id, pid))
    case HostPosts(id) => w.(host := HasPosted(w.host, id), sent := w.sent + [(id, w.host.tasks[id].body)])
    case HostAnswered(id, code, raw) => w.(host := Answered(w.host, id, code, raw), answers := w.answers[id := (code, raw)])
    case HostBroken(id, left) => w.(host := Broken(w.host, id, left))
    case HostDies(id, left) => w.(host := Died(w.host, id, left))
    case HostReconciles(id, current) => w.(host := Reconcile(w.host, id, current).0)
    case HostRestarts => w.(host := Restarted(w.host))
    case ClientStarts(k, body) => At(w, k, Client(body, k.id in w.started, Poll))
    case ClientCrashes(k) => w.(clients := w.clients - {k})
    case ClientPolls(k, current, heard, garbled) =>
      var (h, reply) := Reconcile(w.host, k.id, current);
      var c := w.clients[k];
      var v := w.(host := h);
      if !heard then v
      else if garbled then At(v, k, Held(c))
      else
        (match reply
         case Missing => At(v, k, if c.accepted then Held(c) else c.(at := Intent))
         case Found(r) => At(v, k, c.(accepted := true, at := Check(r)))
         case Conflict => At(v, k, Held(c)))
    case ClientIntends(k, stored, confirmed) =>
      var c := w.clients[k];
      At(w.(started := if stored then w.started + {k.id} else w.started), k,
         if confirmed then c.(accepted := true, at := Post) else Held(c))
    case ClientPosts(k, arrives, heard) =>
      var c := w.clients[k];
      var (h, reply) := if arrives then Submit(w.host, k.id, c.body) else (w.host, Missing);
      At(w.(host := h, posts := w.posts[k := PostsOf(w, k) + 1]), k,
         if heard && reply.Found? then c.(at := Check(reply.record)) else Held(c))
    case ClientChecks(k, stored) =>
      var c := w.clients[k];
      var w1 := if stored && c.at.record.request == Digest(c.body) && !c.at.record.status.Unknown?
                then w.(started := w.started + {k.id}) else w;
      At(w1, k, Checked(c, c.at.record))
    case ClientFetches(k, heard) =>
      var c := w.clients[k];
      if !heard then At(w, k, c.(at := Poll))
      else
        match Result(w.host, k.id)
        case None => At(w, k, Held(c))
        case Some(raw) =>
          if c.at.record.response == Some(Digest(raw)) && c.at.record.upstream.Some?
          then At(w, k, c.(at := Yielded(c.at.record.upstream.value, raw)))
          else At(w, k, Held(c))
  }

  const START := World(Host(map[], map[], map[]), [], map[], map[], {}, map[])

  predicate Allowed(w: World, moves: seq<Move>)
    decreases |moves|
  {
    moves == [] || (Enabled(w, moves[0]) && Allowed(Next(w, moves[0]), moves[1..]))
  }

  function Reached(w: World, moves: seq<Move>): World
    requires Allowed(w, moves)
    decreases |moves|
  {
    if moves == [] then w else Reached(Next(w, moves[0]), moves[1..])
  }

  // --- The host's invariant ---------------------------------------------------

  function SentCount(sent: seq<(string, string)>, id: string): nat {
    if sent == [] then 0 else SentCount(sent[..|sent| - 1], id) + (if sent[|sent| - 1].0 == id then 1 else 0)
  }

  /** A task in memory belongs to its record; nothing was sent for it before its post. */
  predicate TaskOk(w: World, id: string)
    requires id in w.host.tasks
  {
    && id in w.host.records
    && var t, r := w.host.tasks[id], w.host.records[id];
       && r.request == Digest(t.body)
       && (t.phase.Created? ==> r.status.Accepted?)
       && (!t.phase.Created? ==> r.status.InFlight? && r.submits == 1)
       && (!t.phase.Posted? ==> SentCount(w.sent, id) == 0)
  }

  /** The record counts what was sent, before it is sent; a resolved record has its response on file. */
  predicate RecordOk(w: World, id: string)
    requires id in w.host.records
  {
    var r := w.host.records[id];
    && SentCount(w.sent, id) <= r.submits <= 1
    && (Resolved(r.status) ==> id in w.host.responses && r.response == Some(Digest(w.host.responses[id])) && r.upstream.Some?)
    && (Resolved(r.status) ==>
          || (r.status.Failed? && r.upstream == Some(503) && w.host.responses[id] == ExitText(id))
          || (id in w.answers && w.answers[id] == (r.upstream.value, w.host.responses[id])
              && (r.status.Completed? <==> Success(r.upstream.value))))
  }

  /** At most one task is unresolved. */
  predicate Lone(h: Host) {
    forall a, b | a in h.records && b in h.records && Unresolved(h.records[a].status) && Unresolved(h.records[b].status) :: a == b
  }

  /** What was sent is the request of its record. */
  predicate SentKnown(w: World) {
    forall i | 0 <= i < |w.sent| :: w.sent[i].0 in w.host.records && w.host.records[w.sent[i].0].request == Digest(w.sent[i].1)
  }

  ghost predicate HostInv(w: World) {
    && (forall id | id in w.host.tasks :: TaskOk(w, id))
    && (forall id | id in w.host.records :: RecordOk(w, id))
    && Lone(w.host) && SentKnown(w)
  }

  /** Posting crosses the durable boundary first, once; what the client holds is what the host recorded. */
  predicate ClientOk(w: World, k: Slot)
    requires k in w.clients
  {
    var c := w.clients[k];
    && (PostsOf(w, k) > 0 ==> c.accepted)
    && (c.at.Intent? ==> !c.accepted)
    && (c.at.Post? ==> c.accepted && k.id in w.started && PostsOf(w, k) == 0)
    && (c.at.Fetch? ==> Recorded(w, k.id, c.body, c.at.record))
    && (c.at.Check? && Resolved(c.at.record.status) ==> k.id in w.host.records && w.host.records[k.id] == c.at.record)
    && (c.at.Yielded? ==> k.id in w.host.records && Proved(w, k.id, c.body, c.at.code, c.at.raw))
  }

  predicate Recorded(w: World, id: string, body: string, r: Record) {
    id in w.host.records && w.host.records[id] == r && Resolved(r.status) && r.request == Digest(body)
  }

  /** The response the client yields is the one on record for exactly its request. */
  predicate Proved(w: World, id: string, body: string, code: nat, raw: string) {
    && id in w.host.records
    && var r := w.host.records[id];
      && Resolved(r.status) && r.request == Digest(body)
      && r.upstream == Some(code) && r.response == Some(Digest(raw))
  }

  ghost predicate Inv(w: World) {
    && HostInv(w)
    && (forall k | k in w.clients :: ClientOk(w, k))
    && (forall k: Slot :: PostsOf(w, k) <= 1)
    && (forall k: Slot :: PostsOf(w, k) > 0 ==> k.id in w.started)
  }

  // --- Every move keeps it ----------------------------------------------------

  lemma CountSent(sent: seq<(string, string)>, id: string, body: string, other: string)
    ensures SentCount(sent + [(id, body)], other) == SentCount(sent, other) + (if other == id then 1 else 0)
  {
    assert (sent + [(id, body)])[..|sent + [(id, body)]| - 1] == sent;
  }

  lemma {:induction false} NothingSent(sent: seq<(string, string)>, id: string)
    requires forall i | 0 <= i < |sent| :: sent[i].0 != id
    ensures SentCount(sent, id) == 0
  {
    if sent != [] {
      NothingSent(sent[..|sent| - 1], id);
    }
  }

  /** Resolved records and their responses are final. */
  predicate Final(h: Host, g: Host) {
    forall id | id in h.records && Resolved(h.records[id].status) ::
      id in g.records && g.records[id] == h.records[id] && (id in h.responses ==> id in g.responses && g.responses[id] == h.responses[id])
  }

  lemma HostPostsKeeps(w: World, id: string)
    requires HostInv(w) && Enabled(w, HostPosts(id))
    ensures HostInv(Next(w, HostPosts(id))) && Final(w.host, Next(w, HostPosts(id)).host)
  {
    hide Lone, SentCount;
    var z := Next(w, HostPosts(id));
    var body := w.host.tasks[id].body;
    assert TaskOk(w, id);
    forall other: string
      ensures SentCount(z.sent, other) == SentCount(w.sent, other) + (if other == id then 1 else 0)
    {
      CountSent(w.sent, id, body, other);
    }
    forall t | t in z.host.tasks ensures TaskOk(z, t) {
      assert TaskOk(w, t);
    }
    forall t | t in z.host.records ensures RecordOk(z, t) {
      assert RecordOk(w, t);
    }
    assert z.host.records == w.host.records;
    SameLone(w.host, z.host);
  }

  lemma SameLone(h: Host, g: Host)
    requires Lone(h) && g.records == h.records
    ensures Lone(g)
  {
  }

  /** Elsewhere nothing changed, and nothing was sent. */
  predicate OnlyAt(w: World, z: World, id: string) {
    && z.sent == w.sent
    && w.host.records.Keys + {id} == z.host.records.Keys && z.host.tasks.Keys <= w.host.tasks.Keys + {id}
    && (forall t | t in w.host.records && t != id :: z.host.records[t] == w.host.records[t])
    && (forall t | t in z.host.tasks && t != id :: z.host.tasks[t] == w.host.tasks[t])
    && (forall t | t in w.host.responses && t != id :: t in z.host.responses && z.host.responses[t] == w.host.responses[t])
    && (forall t | t in w.answers && t != id :: t in z.answers && z.answers[t] == w.answers[t])
  }

  /** It may change: it is the unresolved one, or there is none. */
  predicate Free(w: World, id: string) {
    if id in w.host.records then Unresolved(w.host.records[id].status)
    else forall t | t in w.host.records :: !Unresolved(w.host.records[t].status)
  }

  lemma TasksAlone(w: World, id: string)
    requires HostInv(w) && Free(w, id)
    ensures forall t | t in w.host.tasks :: t == id
    ensures forall t | t in w.host.records && t != id :: !Unresolved(w.host.records[t].status)
  {
    hide RecordOk, SentKnown, SentCount;
    assert forall t | t in w.host.tasks :: TaskOk(w, t) && Unresolved(w.host.records[t].status);
  }

  lemma ElsewhereKeeps(w: World, z: World, id: string)
    requires HostInv(w) && OnlyAt(w, z, id)
    requires id in w.host.records ==> z.host.records[id].request == w.host.records[id].request
    ensures forall t | t in z.host.records && t != id :: RecordOk(z, t)
    ensures SentKnown(z)
  {
    hide SentCount, TaskOk, Lone;
    forall t | t in z.host.records && t != id ensures RecordOk(z, t) {
      assert RecordOk(w, t);
    }
  }

  /** One identity changed: it was not resolved before, and keeps its request. */
  lemma OneIdKeeps(w: World, z: World, id: string)
    requires HostInv(w) && OnlyAt(w, z, id) && Free(w, id)
    requires id in z.host.tasks ==> TaskOk(z, id)
    requires RecordOk(z, id)
    requires id in w.host.records ==> z.host.records[id].request == w.host.records[id].request
    ensures HostInv(z) && Final(w.host, z.host)
  {
    hide TaskOk, RecordOk, SentKnown;
    TasksAlone(w, id);
    ElsewhereKeeps(w, z, id);
  }

  lemma OldTask(w: World, id: string)
    requires HostInv(w)
    ensures id in w.host.tasks ==> TaskOk(w, id)
    ensures id in w.host.records ==> RecordOk(w, id)
  {
  }

  lemma ForwardsKeeps(w: World, id: string, pid: Option<nat>)
    requires HostInv(w) && Enabled(w, HostForwards(id, pid))
    ensures var z := Next(w, HostForwards(id, pid)); HostInv(z) && Final(w.host, z.host)
  {
    hide HostInv, SentCount;
    OldTask(w, id);
    OneIdKeeps(w, Next(w, HostForwards(id, pid)), id);
  }

  lemma AnsweredKeeps(w: World, id: string, code: nat, raw: string)
    requires HostInv(w) && Enabled(w, HostAnswered(id, code, raw))
    ensures var z := Next(w, HostAnswered(id, code, raw)); HostInv(z) && Final(w.host, z.host)
  {
    hide HostInv, SentCount;
    OldTask(w, id);
    OneIdKeeps(w, Next(w, HostAnswered(id, code, raw)), id);
  }

  lemma BrokenKeeps(w: World, id: string, left: Option<string>)
    requires HostInv(w) && Enabled(w, HostBroken(id, left))
    ensures var z := Next(w, HostBroken(id, left)); HostInv(z) && Final(w.host, z.host)
  {
    hide HostInv, SentCount;
    OldTask(w, id);
    OneIdKeeps(w, Next(w, HostBroken(id, left)), id);
  }

  lemma DiesKeeps(w: World, id: string, left: Option<string>)
    requires HostInv(w) && Enabled(w, HostDies(id, left))
    ensures var z := Next(w, HostDies(id, left)); HostInv(z) && Final(w.host, z.host)
  {
    hide HostInv, SentCount;
    OldTask(w, id);
    OneIdKeeps(w, Next(w, HostDies(id, left)), id);
  }

  lemma FinalSelf(h: Host)
    ensures Final(h, h)
  {
  }

  lemma ReconcileKeeps(w: World, id: string, current: Option<nat>)
    requires HostInv(w)
    ensures var h := Reconcile(w.host, id, current).0;
      HostInv(w.(host := h)) && Final(w.host, h)
  {
    hide HostInv, SentCount;
    var z := w.(host := Reconcile(w.host, id, current).0);
    FinalSelf(w.host);
    if id in w.host.records && Exited(w.host.records[id], current) {
      OldTask(w, id);
      OneIdKeeps(w, z, id);
    } else {
      assert z == w;
    }
  }

  lemma RestartKeeps(w: World)
    requires HostInv(w)
    ensures HostInv(w.(host := Restarted(w.host))) && Final(w.host, Restarted(w.host))
  {
    hide SentCount;
    var z := w.(host := Restarted(w.host));
    forall t | t in z.host.records ensures RecordOk(z, t) {
      assert RecordOk(w, t);
    }
  }

  lemma SubmitKeeps(w: World, id: string, body: string)
    requires HostInv(w)
    ensures var h := Submit(w.host, id, body).0;
      HostInv(w.(host := h)) && Final(w.host, h)
  {
    hide HostInv, SentCount;
    var z := w.(host := Submit(w.host, id, body).0);
    FinalSelf(w.host);
    if id !in w.host.records && forall t | t in w.host.records :: !Unresolved(w.host.records[t].status) {
      Unsent(w, id);
      OneIdKeeps(w, z, id);
    } else {
      assert z == w;
    }
  }

  lemma Unsent(w: World, id: string)
    requires HostInv(w) && id !in w.host.records
    ensures SentCount(w.sent, id) == 0
  {
    NothingSent(w.sent, id);
  }

  /** The host's part of every move. */
  lemma HostKeeps(w: World, m: Move)
    requires HostInv(w) && Enabled(w, m)
    ensures HostInv(Next(w, m)) && Final(w.host, Next(w, m).host)
  {
    hide HostInv, Final, Submit, Reconcile, Restarted, Forwarding, Answered, Broken, Died;
    match m
    case HostForwards(id, pid) => ForwardsKeeps(w, id, pid);
    case HostPosts(id) => HostPostsKeeps(w, id);
    case HostAnswered(id, code, raw) => AnsweredKeeps(w, id, code, raw);
    case HostBroken(id, left) => BrokenKeeps(w, id, left);
    case HostDies(id, left) => DiesKeeps(w, id, left);
    case HostReconciles(id, current) => ReconcileKeeps(w, id, current);
    case HostRestarts => RestartKeeps(w);
    case ClientPolls(k, current, _, _) =>
      ReconcileKeeps(w, k.id, current);
      SameHostInv(w.(host := Reconcile(w.host, k.id, current).0), Next(w, m));
    case ClientPosts(k, arrives, _) =>
      if arrives {
        SubmitKeeps(w, k.id, w.clients[k].body);
        SameHostInv(w.(host := Submit(w.host, k.id, w.clients[k].body).0), Next(w, m));
      } else {
        FinalSelf(w.host);
        SameHostInv(w, Next(w, m));
      }
    case _ =>
      FinalSelf(w.host);
      SameHostInv(w, Next(w, m));
  }

  lemma SameHostInv(w: World, z: World)
    requires HostInv(w) && z.host == w.host && z.sent == w.sent && z.answers == w.answers
    ensures HostInv(z)
  {
    forall t | t in z.host.tasks ensures TaskOk(z, t) {
      assert TaskOk(w, t);
    }
    forall t | t in z.host.records ensures RecordOk(z, t) {
      assert RecordOk(w, t);
    }
  }

  lemma ClientStays(w: World, z: World, k: Slot)
    requires HostInv(w) && k in w.clients && ClientOk(w, k) && Final(w.host, z.host)
    requires k in z.clients && z.clients[k] == w.clients[k] && w.started <= z.started && PostsOf(z, k) == PostsOf(w, k)
    ensures ClientOk(z, k)
  {
  }

  /** A reply never shows a record further than the host's own. */
  lemma ReplyIsRecord(h: Host, id: string, current: Option<nat>)
    ensures var (g, r) := Reconcile(h, id, current);
      && (r.Found? ==> id in g.records && g.records[id] == r.record)
      && (r.Missing? ==> id !in g.records) && !r.Conflict?
  {
  }

  lemma SubmitReply(h: Host, id: string, body: string)
    ensures var (g, r) := Submit(h, id, body);
      && (r.Found? ==> id in g.records && g.records[id] == r.record && r.record.request == Digest(body))
      && !r.Missing?
  {
  }

  /** What the invariant says of one observer. */
  predicate Own(w: World, k: Slot) {
    PostsOf(w, k) <= 1 && (PostsOf(w, k) > 0 ==> k.id in w.started) && (k in w.clients ==> ClientOk(w, k))
  }

  lemma PollsOwn(w: World, k: Slot, current: Option<nat>, heard: bool, garbled: bool)
    requires Own(w, k) && Enabled(w, ClientPolls(k, current, heard, garbled))
    ensures var z := Next(w, ClientPolls(k, current, heard, garbled)); k in z.clients && Own(z, k)
  {
    hide Reconcile;
    ReplyIsRecord(w.host, k.id, current);
  }

  lemma PostsOwn(w: World, k: Slot, arrives: bool, heard: bool)
    requires Own(w, k) && Enabled(w, ClientPosts(k, arrives, heard))
    ensures var z := Next(w, ClientPosts(k, arrives, heard)); k in z.clients && Own(z, k)
  {
    hide Submit;
    SubmitReply(w.host, k.id, w.clients[k].body);
  }

  lemma FetchesOwn(w: World, k: Slot, heard: bool)
    requires Own(w, k) && Enabled(w, ClientFetches(k, heard))
    ensures var z := Next(w, ClientFetches(k, heard)); k in z.clients && Own(z, k)
  {
    ResultFound(w, k.id);
  }

  lemma ClientMoves(w: World, m: Move, k: Slot)
    requires Own(w, k) && Enabled(w, m)
    requires match m
             case ClientStarts(t, _) => t == k
             case ClientPolls(t, _, _, _) => t == k
             case ClientIntends(t, _, _) => t == k
             case ClientPosts(t, _, _) => t == k
             case ClientChecks(t, _) => t == k
             case ClientFetches(t, _) => t == k
             case _ => false
    ensures k in Next(w, m).clients && Own(Next(w, m), k)
  {
    match m
    case ClientPolls(_, current, heard, garbled) =>
      hide Own, Next, Enabled;
      PollsOwn(w, k, current, heard, garbled);
    case ClientPosts(_, arrives, heard) =>
      hide Own, Next, Enabled;
      PostsOwn(w, k, arrives, heard);
    case ClientFetches(_, heard) =>
      hide Own, Next, Enabled;
      FetchesOwn(w, k, heard);
    case _ => OtherOwn(w, m, k);
  }

  lemma OtherOwn(w: World, m: Move, k: Slot)
    requires Own(w, k) && Enabled(w, m)
    requires match m
             case ClientStarts(t, _) => t == k
             case ClientIntends(t, _, _) => t == k
             case ClientChecks(t, _) => t == k
             case _ => false
    ensures k in Next(w, m).clients && Own(Next(w, m), k)
  {
  }

  lemma ResultFound(w: World, id: string)
    ensures Result(w.host, id).Some? ==> id in w.host.records && id in w.host.responses
  {
  }

  lemma StepKeeps(w: World, m: Move)
    requires Inv(w) && Enabled(w, m)
    ensures Inv(Next(w, m)) && Final(w.host, Next(w, m).host)
  {
    hide HostInv, Final, Submit, Reconcile, ClientOk;
    var z := Next(w, m);
    HostKeeps(w, m);
    var own := match m
      case ClientStarts(t, _) => Some(t)
      case ClientPolls(t, _, _, _) => Some(t)
      case ClientIntends(t, _, _) => Some(t)
      case ClientPosts(t, _, _) => Some(t)
      case ClientChecks(t, _) => Some(t)
      case ClientFetches(t, _) => Some(t)
      case _ => None;
    if own.Some? {
      ClientMoves(w, m, own.value);
    }
    forall t: Slot ensures PostsOf(z, t) <= 1 && (PostsOf(z, t) > 0 ==> t.id in z.started) {
      if own != Some(t) {
        assert PostsOf(z, t) == PostsOf(w, t) && w.started <= z.started;
      }
    }
    forall t | t in z.clients ensures ClientOk(z, t) {
      if own != Some(t) {
        ClientStays(w, z, t);
      }
    }
  }

  // --- Whole runs -------------------------------------------------------------

  lemma {:induction false} AlwaysKept(w: World, moves: seq<Move>)
    requires Inv(w) && Allowed(w, moves)
    ensures Inv(Reached(w, moves)) && Final(w.host, Reached(w, moves).host)
    decreases |moves|
  {
    hide Inv, Next, Final, Enabled;
    if moves == [] {
      FinalSelf(w.host);
    } else {
      StepKeeps(w, moves[0]);
      AlwaysKept(Next(w, moves[0]), moves[1..]);
      FinalThen(w.host, Next(w, moves[0]).host, Reached(w, moves).host);
    }
  }

  lemma FinalThen(h: Host, g: Host, f: Host)
    requires Final(h, g) && Final(g, f)
    ensures Final(h, f)
  {
  }

  lemma StartInv()
    ensures Inv(START)
  {
  }

  /** At most once, across reconnects, lost replies, client crashes and host restarts, for any number of
      observers: an identity is sent upstream at most once, each observer posts it to the host at most once
      and only behind a durable intent, and at most one task of the host is unresolved. */
  lemma AtMostOnce(moves: seq<Move>, id: string)
    requires Allowed(START, moves)
    ensures var w := Reached(START, moves);
      && SentCount(w.sent, id) <= 1
      && (forall k: Slot :: PostsOf(w, k) <= 1 && (PostsOf(w, k) > 0 ==> k.id in w.started))
      && (SentCount(w.sent, id) > 0 ==> id in w.host.records && w.host.records[id].submits == 1)
      && forall a, b | a in w.host.records && b in w.host.records
           && Unresolved(w.host.records[a].status) && Unresolved(w.host.records[b].status) :: a == b
  {
    StartInv();
    AlwaysKept(START, moves);
    var w := Reached(START, moves);
    if id in w.host.records {
      assert RecordOk(w, id);
    } else {
      Unsent(w, id);
    }
  }

  /** Once behind its boundary an observer, restarted or not, never posts again, whatever it is told. */
  lemma NeverPostsAgain(moves: seq<Move>, k: Slot, arrives: bool, heard: bool)
    requires Allowed(START, moves) && PostsOf(Reached(START, moves), k) > 0
    ensures !Enabled(Reached(START, moves), ClientPosts(k, arrives, heard))
    ensures forall stored, confirmed :: !Enabled(Reached(START, moves), ClientIntends(k, stored, confirmed))
  {
    hide HostInv, Next, Allowed, Reached;
    StartInv();
    AlwaysKept(START, moves);
    var w := Reached(START, moves);
    assert k in w.clients ==> ClientOk(w, k);
  }

  /** What is sent upstream is the request of the record. */
  lemma SentIsRequested(moves: seq<Move>, i: nat)
    requires Allowed(START, moves) && i < |Reached(START, moves).sent|
    ensures var w := Reached(START, moves); var (id, body) := w.sent[i];
      id in w.host.records && w.host.records[id].request == Digest(body)
  {
    StartInv();
    AlwaysKept(START, moves);
  }

  /** A response is yielded only for the client's own request, and is either what the upstream answered or
      the host's word that the accepting process exited. */
  lemma YieldedIsProved(moves: seq<Move>, k: Slot)
    requires Allowed(START, moves)
    requires var w := Reached(START, moves); k in w.clients && w.clients[k].at.Yielded?
    ensures var w := Reached(START, moves); var c, id := w.clients[k], k.id;
      && id in w.host.records && w.host.records[id].request == Digest(c.body)
      && Resolved(w.host.records[id].status)
      && ((id in w.answers && w.answers[id] == (c.at.code, c.at.raw)) || (c.at.code == 503 && c.at.raw == ExitText(id)))
      && (w.host.records[id].status.Completed? ==> Success(c.at.code))
  {
    StartInv();
    AlwaysKept(START, moves);
    var w := Reached(START, moves);
    assert ClientOk(w, k) && RecordOk(w, k.id);
  }

  /** A resolved record and its response never change again. */
  lemma ResolvedIsFinal(moves: seq<Move>, more: seq<Move>, id: string)
    requires Allowed(START, moves) && Allowed(Reached(START, moves), more)
    requires var h := Reached(START, moves).host; id in h.records && Resolved(h.records[id].status)
    ensures var h := Reached(START, moves).host; var g := Reached(Reached(START, moves), more).host;
      id in g.records && g.records[id] == h.records[id] && Result(g, id) == Result(h, id) && Result(h, id).Some?
  {
    StartInv();
    AlwaysKept(START, moves);
    var w := Reached(START, moves);
    AlwaysKept(w, more);
    assert RecordOk(w, id);
  }

  // --- Intents that were not confirmed ----------------------------------------

  /** The client polls on as one whose request may have been admitted. */
  predicate Barred(w: World, k: Slot) {
    k in w.clients && w.clients[k].accepted && !w.clients[k].at.Intent? && !w.clients[k].at.Post?
  }

  /** Behind a durable boundary a restarted client is barred as well. */
  predicate BarredForGood(w: World, k: Slot) {
    k.id in w.started && (k in w.clients ==> Barred(w, k))
  }

  predicate OfSlot(m: Move, k: Slot) {
    match m
    case ClientStarts(t, _) => t == k
    case ClientCrashes(t) => t == k
    case ClientPolls(t, _, _, _) => t == k
    case ClientIntends(t, _, _) => t == k
    case ClientPosts(t, _, _) => t == k
    case ClientChecks(t, _) => t == k
    case ClientFetches(t, _) => t == k
    case _ => false
  }

  /** Moves of the host and of other observers. */
  lemma OthersBarred(w: World, m: Move, k: Slot)
    requires Enabled(w, m) && !OfSlot(m, k)
    ensures var z := Next(w, m);
      && PostsOf(z, k) == PostsOf(w, k) && w.started <= z.started
      && (k in z.clients <==> k in w.clients) && (k in w.clients ==> z.clients[k] == w.clients[k])
  {
    hide Submit, Reconcile, Forwarding, HasPosted, Answered, Broken, Died, Restarted, Result;
  }

  /** Its own moves. */
  lemma OwnBarred(w: World, m: Move, k: Slot)
    requires Enabled(w, m) && OfSlot(m, k) && (BarredForGood(w, k) || (Barred(w, k) && m != ClientCrashes(k)))
    ensures var z := Next(w, m);
      && PostsOf(z, k) == PostsOf(w, k)
      && (BarredForGood(w, k) ==> BarredForGood(z, k))
      && (Barred(w, k) && m != ClientCrashes(k) ==> Barred(z, k))
  {
    hide Submit, Reconcile, Result;
  }

  lemma BarredStep(w: World, m: Move, k: Slot)
    requires Enabled(w, m) && (BarredForGood(w, k) || (Barred(w, k) && m != ClientCrashes(k)))
    ensures var z := Next(w, m);
      && PostsOf(z, k) == PostsOf(w, k)
      && (BarredForGood(w, k) ==> BarredForGood(z, k))
      && (Barred(w, k) && m != ClientCrashes(k) ==> Barred(z, k))
  {
    hide Next, Enabled, PostsOf;
    if OfSlot(m, k) {
      OwnBarred(w, m, k);
    } else {
      OthersBarred(w, m, k);
    }
  }

  lemma {:induction false} BarredRun(w: World, moves: seq<Move>, k: Slot)
    requires Allowed(w, moves) && (BarredForGood(w, k) || (Barred(w, k) && ClientCrashes(k) !in moves))
    ensures PostsOf(Reached(w, moves), k) == PostsOf(w, k)
    decreases |moves|
  {
    hide Next, Enabled, Barred, BarredForGood;
    if moves != [] {
      BarredStep(w, moves[0], k);
      BarredRun(Next(w, moves[0]), moves[1..], k);
    }
  }

  /** An intent that could not be confirmed costs the admission: whatever happens next, the identity is
      not posted, unless the client restarts and the intent was not stored. */
  lemma UnconfirmedIntentNeverPosts(w: World, k: Slot, stored: bool, moves: seq<Move>)
    requires Enabled(w, ClientIntends(k, stored, false)) && Allowed(Next(w, ClientIntends(k, stored, false)), moves)
    requires stored || k.id in w.started || ClientCrashes(k) !in moves
    ensures PostsOf(Reached(Next(w, ClientIntends(k, stored, false)), moves), k) == PostsOf(w, k)
  {
    BarredRun(Next(w, ClientIntends(k, stored, false)), moves, k);
  }

  /** That case does post: restarted without a stored intent, on a host without the record, the client
      starts over. */
  lemma LostIntentPosts(w: World, k: Slot, body: string)
    requires Enabled(w, ClientIntends(k, false, false)) && k.id !in w.started && k.id !in w.host.records
    ensures var z := Next(w, ClientIntends(k, false, false));
      var moves := [ClientCrashes(k), ClientStarts(k, body), ClientPolls(k, None, true, false),
                    ClientIntends(k, true, true), ClientPosts(k, false, false)];
      Allowed(z, moves) && PostsOf(Reached(z, moves), k) == PostsOf(w, k) + 1
  {
    hide Next, Enabled, Allowed, Reached;
    var z := Next(w, ClientIntends(k, false, false));
    IntentHeld(w, k);
    var z2 := StartsOver(z, k, body);
    var z4 := AsksAgain(z2, k, body);
    PostsOnce(z4, k);
    var m0, m1, m2, m3, m4 := ClientCrashes(k), ClientStarts(k, body), ClientPolls(k, None, true, false),
      ClientIntends(k, true, true), ClientPosts(k, false, false);
    OneMove(z, m0);
    OneMore(z, [m0], Next(z, m0), m1);
    OneMore(z, [m0] + [m1], z2, m2);
    OneMore(z, [m0] + [m1] + [m2], Next(z2, m2), m3);
    OneMore(z, [m0] + [m1] + [m2] + [m3], z4, m4);
    assert [m0] + [m1] + [m2] + [m3] + [m4] == [m0, m1, m2, m3, m4];
  }

  lemma IntentHeld(w: World, k: Slot)
    requires Enabled(w, ClientIntends(k, false, false))
    ensures var z := Next(w, ClientIntends(k, false, false));
      k in z.clients && z.host == w.host && z.started == w.started && z.posts == w.posts
  {
  }

  /** The restarted client knows of no boundary. */
  lemma StartsOver(z: World, k: Slot, body: string) returns (u: World)
    requires k in z.clients && k.id !in z.started
    ensures Enabled(z, ClientCrashes(k)) && Enabled(Next(z, ClientCrashes(k)), ClientStarts(k, body))
    ensures u == Next(Next(z, ClientCrashes(k)), ClientStarts(k, body))
    ensures k in u.clients && u.clients[k] == Client(body, false, Poll) && u.host == z.host && u.posts == z.posts
  {
    u := Next(Next(z, ClientCrashes(k)), ClientStarts(k, body));
  }

  /** An observer that finds no record stores and confirms its intent. */
  lemma AsksAgain(z: World, k: Slot, body: string) returns (u: World)
    requires k in z.clients && z.clients[k] == Client(body, false, Poll) && k.id !in z.host.records
    ensures Enabled(z, ClientPolls(k, None, true, false))
    ensures Enabled(Next(z, ClientPolls(k, None, true, false)), ClientIntends(k, true, true))
    ensures u == Next(Next(z, ClientPolls(k, None, true, false)), ClientIntends(k, true, true))
    ensures u == z.(clients := z.clients[k := Client(body, true, Post)], started := z.started + {k.id})
  {
    u := Next(Next(z, ClientPolls(k, None, true, false)), ClientIntends(k, true, true));
    assert z.clients[k := Client(body, false, Intent)][k := Client(body, true, Post)] == z.clients[k := Client(body, true, Post)];
  }

  lemma PostsOnce(z: World, k: Slot)
    requires k in z.clients && z.clients[k].at.Post?
    ensures Enabled(z, ClientPosts(k, false, false))
    ensures var u := Next(z, ClientPosts(k, false, false));
      && PostsOf(u, k) == PostsOf(z, k) + 1
      && (forall j: Slot | j != k :: PostsOf(u, j) == PostsOf(z, j) && (j in z.clients ==> j in u.clients && u.clients[j] == z.clients[j]))
  {
  }

  /** The bound is for each observer: two that look before either posts both post to the host. */
  lemma TwoObserversPost(a: Slot, b: Slot, body: string) returns (moves: seq<Move>)
    requires a != b && a.id == b.id
    ensures Allowed(START, moves) && PostsOf(Reached(START, moves), a) == 1 && PostsOf(Reached(START, moves), b) == 1
  {
    hide Next, Enabled, Allowed, Reached;
    var w2 := TwoStart(a, b, body);
    var w4 := AsksAgain(w2, a, body);
    var w6 := AsksAgain(w4, b, body);
    PostsOnce(w6, a);
    var w7 := Next(w6, ClientPosts(a, false, false));
    PostsOnce(w7, b);
    moves := [ClientStarts(a, body)];
    OneMove(START, moves[0]);
    var m1, m2, m3 := ClientStarts(b, body), ClientPolls(a, None, true, false), ClientIntends(a, true, true);
    OneMore(START, moves, Next(START, moves[0]), m1);
    moves := moves + [m1];
    OneMore(START, moves, w2, m2);
    moves := moves + [m2];
    OneMore(START, moves, Next(w2, m2), m3);
    moves := moves + [m3];
    var m4, m5 := ClientPolls(b, None, true, false), ClientIntends(b, true, true);
    OneMore(START, moves, w4, m4);
    moves := moves + [m4];
    OneMore(START, moves, Next(w4, m4), m5);
    moves := moves + [m5];
    OneMore(START, moves, w6, ClientPosts(a, false, false));
    moves := moves + [ClientPosts(a, false, false)];
    OneMore(START, moves, w7, ClientPosts(b, false, false));
    moves := moves + [ClientPosts(b, false, false)];
  }

  lemma TwoStart(a: Slot, b: Slot, body: string) returns (w: World)
    requires a != b
    ensures Enabled(START, ClientStarts(a, body)) && Enabled(Next(START, ClientStarts(a, body)), ClientStarts(b, body))
    ensures w == Next(Next(START, ClientStarts(a, body)), ClientStarts(b, body))
    ensures a in w.clients && b in w.clients && w.clients[a] == w.clients[b] == Client(body, false, Poll)
    ensures w.host.records == map[] && w.posts == map[]
  {
    w := Next(Next(START, ClientStarts(a, body)), ClientStarts(b, body));
  }

  // --- Stretches of the protocol ----------------------------------------------

  lemma OneMove(w: World, m: Move)
    requires Enabled(w, m)
    ensures Allowed(w, [m]) && Reached(w, [m]) == Next(w, m)
  {
    hide Next, Enabled;
    assert [m][1..] == [];
  }

  /** A stretch of the protocol goes on by one move. */
  lemma OneMore(w: World, moves: seq<Move>, z: World, m: Move)
    requires Allowed(w, moves) && Reached(w, moves) == z && Enabled(z, m)
    ensures Allowed(w, moves + [m]) && Reached(w, moves + [m]) == Next(z, m)
  {
    hide Next, Enabled;
    OneMove(z, m);
    Joined(w, moves, [m]);
  }

  lemma {:induction false} Joined(w: World, first: seq<Move>, second: seq<Move>)
    requires Allowed(w, first) && Allowed(Reached(w, first), second)
    ensures Allowed(w, first + second) && Reached(w, first + second) == Reached(Reached(w, first), second)
    decreases |first|
  {
    hide Next, Enabled;
    if first == [] {
      assert first + second == second;
    } else {
      Joined(Next(w, first[0]), first[1..], second);
      assert (first + second)[1..] == first[1..] + second;
    }
  }
}
