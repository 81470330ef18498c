// Host and client in their own form: records updated and saved in place, loops over the stored states,
// and the client's polling loop body. Each call is a stretch of the protocol of NativeTask.

module NativeTaskOwner {
  import opened Common
  import opened NativeTask

  class TaskHost {
    var records: map<string, Record>
    var responses: map<string, string>
    var tasks: map<string, Task>

    function Value(): Host
      reads this
    {
      Host(records, responses, tasks)
    }

    /** `__init__`: take over what a previous process left on disk. */
    constructor (stored: map<string, Record>, files: map<string, string>)
      ensures forall tasks: map<string, Task> :: Value() == Restarted(Host(stored, files, tasks))
    {
      records, responses, tasks := stored, files, map[];
      new;
      var todo := stored.Keys;
      while todo != {}
        invariant todo <= stored.Keys == records.Keys
        invariant responses == files && tasks == map[]
        invariant forall id | id in todo :: records[id] == stored[id]
        invariant forall id | id in stored && id !in todo :: records[id] == Restarted(Host(stored, files, map[])).records[id]
        decreases |todo|
      {
        var id :| id in todo;
        if records[id].status.Accepted? || records[id].status.InFlight? {
          records := records[id := records[id].(status := Unknown)];
        }
        todo := todo - {id};
      }
    }

    /** `submit` */
    method SubmitTask(id: string, body: string) returns (r: Reply)
      modifies this
      ensures (Value(), r) == Submit(old(Value()), id, body)
      ensures id in old(records) ==> r == if old(records)[id].request == Digest(body) then Found(old(records)[id]) else Conflict
      ensures id !in old(records) ==>
        (r == Conflict <==> exists t | t in old(records) :: old(records)[t].status in {Accepted, InFlight, Unknown})
      ensures id in old(records) || r == Conflict ==> records == old(records) && tasks == old(tasks)
      ensures id !in old(records) && r != Conflict ==>
        && records == old(records)[id := Record(Digest(body), Accepted, 0, None, None, None)] && r == Found(records[id])
        && tasks == old(tasks)[id := Task(body, Created)]
      ensures responses == old(responses)
    {
      if id in records {
        return if records[id].request == Digest(body) then Found(records[id]) else Conflict;
      }
      var todo := records.Keys;
      while todo != {}
        invariant todo <= records.Keys
        invariant forall t | t in records && t !in todo :: !Unresolved(records[t].status)
        decreases |todo|
      {
        var t :| t in todo;
        if Unresolved(records[t].status) {
          return Conflict;
        }
        todo := todo - {t};
      }
      var record := Record(Digest(body), Accepted, 0, None, None, None);
      records := records[id := record];
      tasks := tasks[id := Task(body, Created)];
      r := Found(record);
    }

    /** `execute` up to its post. */
    method Forward(id: string, pid: Option<nat>) returns (body: string)
      requires id in tasks && id in records
      modifies this
      ensures Value() == HasPosted(Forwarding(old(Value()), id, pid), id) && body == old(tasks)[id].body
    {
      body := tasks[id].body;
      records := records[id := records[id].(status := InFlight, submits := 1, pid := pid)];
      tasks := tasks[id := tasks[id].(phase := Posted)];
    }

    /** `execute` from the upstream's answer, or from the lack of one. */
    method Conclude(id: string, answer: Option<(nat, string)>)
      requires id in tasks && id in records
      modifies this
      ensures Value() == match answer
                         case Some((code, raw)) => Answered(old(Value()), id, code, raw)
                         case None => Broken(old(Value()), id, None)
    {
      match answer {
        case Some((code, raw)) =>
          responses := responses[id := raw];
          records := records[id := records[id].(status := if Success(code) then Completed else Failed,
                                                upstream := Some(code), response := Some(Digest(raw)))];
        case None =>
          records := records[id := records[id].(status := Unknown)];
      }
      tasks := tasks - {id};
    }

    /** `reconcile_record` */
    method ReconcileRecord(id: string, current: Option<nat>) returns (r: Reply)
      modifies this
      ensures (Value(), r) == Reconcile(old(Value()), id, current)
    {
      if id !in records {
        return Missing;
      }
      if Exited(records[id], current) {
        responses := responses[id := ExitText(id)];
        records := records[id := records[id].(status := Failed, upstream := Some(503), response := Some(Digest(ExitText(id))))];
      }
      r := Found(records[id]);
    }

    /** `result` */
    method ReadResult(id: string) returns (r: Option<string>)
      ensures r == Result(Value(), id)
    {
      r := if id in records && Resolved(records[id].status) && id in responses then Some(responses[id]) else None;
    }
  }

  /** What one round of the polling loop meets. */
  datatype Weather = Weather(
    current: Option<nat>, statusHeard: bool, garbled: bool, stored: bool, confirmed: bool,
    postArrives: bool, postHeard: bool, checkStored: bool, resultHeard: bool)

  /** One observer of an identity, over the host it talks to. */
  class TaskClient {
    const slot: Slot
    const body: string
    const host: TaskHost
    var accepted: bool
    ghost var sent: seq<(string, string)>
    ghost var answers: map<string, (nat, string)>
    var started: set<string>
    var posts: map<Slot, nat>

    ghost function View(at: Point): World
      reads this, host
    {
      World(host.Value(), sent, answers, map[slot := Client(body, accepted, at)], started, posts)
    }

    /** A fresh process: the boundary is what was stored. */
    constructor (slot: Slot, body: string, host: TaskHost, started: set<string>)
      ensures this.slot == slot && this.body == body && this.host == host && this.started == started && posts == map[]
      ensures accepted == (slot.id in started)
    {
      this.slot, this.body, this.host, this.started := slot, body, host, started;
      accepted := slot.id in started;
      sent, answers, posts := [], map[], map[];
    }

    /** The status request: the record, no record yet, or nothing usable. */
    method Status(w: Weather) returns (at: Point)
      modifies this, host
      ensures View(at) == Next(old(View(Poll)), ClientPolls(slot, w.current, w.statusHeard, w.garbled))
      ensures posts == old(posts) && started == old(started)
      ensures at.Poll? || at.Check? || (at.Intent? && !old(accepted))
    {
      hide Reconcile;
      var reply := host.ReconcileRecord(slot.id, w.current);
      ReplyIsRecord(old(host.Value()), slot.id, w.current);
      at := Poll;
      if w.statusHeard {
        if !w.garbled && reply.Missing? && !accepted {
          at := Intent;
        } else {
          accepted := true;
          if !w.garbled && reply.Found? {
            at := Check(reply.record);
          }
        }
      }
      ghost var c := Client(body, accepted, at);
      assert map[slot := Client(body, old(accepted), Poll)][slot := c] == map[slot := c];
    }

    /** Persist the crossing of the submission boundary. */
    method StoreIntent(w: Weather) returns (at: Point)
      requires w.confirmed ==> w.stored
      modifies this
      ensures View(at) == Next(old(View(Intent)), ClientIntends(slot, w.stored, w.confirmed))
      ensures posts == old(posts) && accepted && old(started) <= started
      ensures at == (if w.confirmed then Post else Poll) && (at.Post? ==> slot.id in started)
    {
      if w.stored {
        started := started + {slot.id};
      }
      accepted := true;
      at := if w.confirmed then Post else Poll;
      ghost var c := Client(body, accepted, at);
      assert map[slot := Client(body, old(accepted), Intent)][slot := c] == map[slot := c];
    }

    /** The one admission request. */
    method PostTask(w: Weather) returns (at: Point)
      requires (w.postHeard ==> w.postArrives) && accepted
      modifies this, host
      ensures View(at) == Next(old(View(Post)), ClientPosts(slot, w.postArrives, w.postHeard))
      ensures accepted && started == old(started) && (at.Check? || at.Poll?)
    {
      hide Submit;
      posts := posts[slot := (if slot in posts then posts[slot] else 0) + 1];
      at := Poll;
      if w.postArrives {
        var reply := host.SubmitTask(slot.id, body);
        if w.postHeard && reply.Found? {
          at := Check(reply.record);
        }
      }
      ghost var c := Client(body, accepted, at);
      assert map[slot := Client(body, old(accepted), Post)][slot := c] == map[slot := c];
    }

    /** Observe the record; go on to its response when it is resolved. */
    method CheckRecord(w: Weather, record: Record) returns (at: Point)
      modifies this
      ensures View(at) == Next(old(View(Check(record))), ClientChecks(slot, w.checkStored))
      ensures posts == old(posts) && (old(accepted) ==> accepted) && old(started) <= started
      ensures at.Poll? || (at == Fetch(record) && record.request == Digest(body) && Resolved(record.status))
    {
      at := Poll;
      if record.request != Digest(body) {
        accepted := true;
      } else {
        if w.checkStored && !record.status.Unknown? {
          started := started + {slot.id};
        }
        if Resolved(record.status) {
          at := Fetch(record);
        }
      }
      ghost var c := Client(body, accepted, at);
      assert map[slot := Client(body, old(accepted), Check(record))][slot := c] == map[slot := c];
    }

    /** Fetch the response, and yield it only when it is the one on record. */
    method FetchResult(w: Weather, record: Record) returns (r: Option<(nat, string)>, at: Point)
      modifies this
      ensures View(at) == Next(old(View(Fetch(record))), ClientFetches(slot, w.resultHeard))
      ensures posts == old(posts) && started == old(started) && (old(accepted) ==> accepted)
      ensures r.Some? ==> at == Yielded(r.value.0, r.value.1) && record.response == Some(Digest(r.value.1))
      ensures r.None? ==> at.Poll?
    {
      r, at := None, Poll;
      if w.resultHeard {
        var raw := host.ReadResult(slot.id);
        if raw.Some? && record.response == Some(Digest(raw.value)) && record.upstream.Some? {
          r := Some((record.upstream.value, raw.value));
          at := Yielded(record.upstream.value, raw.value);
        } else {
          accepted := true;
        }
      }
      ghost var c := Client(body, accepted, at);
      assert map[slot := Client(body, old(accepted), Fetch(record))][slot := c] == map[slot := c];
    }

    /** Learn the record: ask for it, and admit the request when there is none and none was tried. */
    method Learn(w: Weather) returns (at: Point, ghost moves: seq<Move>)
      requires w.postHeard ==> w.postArrives
      requires w.confirmed ==> w.stored
      modifies this, host
      ensures Allowed(old(View(Poll)), moves) && View(at) == Reached(old(View(Poll)), moves)
      ensures at.Poll? || at.Check?
      ensures posts != old(posts) ==> !old(accepted) && accepted && slot.id in started
    {
      hide Next, Reached, Allowed;
      ghost var w0 := View(Poll);
      at := Status(w);
      moves := [ClientPolls(slot, w.current, w.statusHeard, w.garbled)];
      OneMove(w0, moves[0]);
      if at.Intent? {
        ghost var intends := ClientIntends(slot, w.stored, w.confirmed);
        OneMore(w0, moves, View(at), intends);
        at := StoreIntent(w);
        moves := moves + [intends];
        if at.Post? {
          ghost var post := ClientPosts(slot, w.postArrives, w.postHeard);
          OneMore(w0, moves, View(at), post);
          at := PostTask(w);
          moves := moves + [post];
        }
      }
    }

    /** Act on the record: check it, and fetch its response when it is resolved. */
    method Resolve(w: Weather, record: Record) returns (r: Option<(nat, string)>, ghost moves: seq<Move>)
      modifies this
      ensures Allowed(old(View(Check(record))), moves)
      ensures View(if r.Some? then Yielded(r.value.0, r.value.1) else Poll) == Reached(old(View(Check(record))), moves)
      ensures r.Some? ==> record.request == Digest(body) && record.response == Some(Digest(r.value.1)) && Resolved(record.status)
      ensures posts == old(posts) && (old(accepted) ==> accepted) && old(started) <= started
    {
      hide Next, Reached, Allowed;
      ghost var w0 := View(Check(record));
      ghost var check := ClientChecks(slot, w.checkStored);
      OneMove(w0, check);
      var at := CheckRecord(w, record);
      moves := [check];
      r := None;
      if at.Fetch? {
        ghost var fetch := ClientFetches(slot, w.resultHeard);
        OneMore(w0, moves, View(at), fetch);
        r, at := FetchResult(w, record);
        moves := moves + [fetch];
      }
    }

    /** One turn of the loop of `native_task_request`: a stretch of the protocol, so all it keeps is kept. */
    method Round(w: Weather) returns (r: Option<(nat, string)>, ghost moves: seq<Move>)
      requires w.postHeard ==> w.postArrives
      requires w.confirmed ==> w.stored
      requires Inv(View(Poll))
      modifies this, host
      ensures Allowed(old(View(Poll)), moves)
      ensures var at := if r.Some? then Yielded(r.value.0, r.value.1) else Poll;
              View(at) == Reached(old(View(Poll)), moves) && Inv(View(at))
      ensures posts != old(posts) ==> !old(accepted) && accepted && slot.id in started
    {
      hide Next, Inv, Reached, Allowed;
      ghost var w0 := View(Poll);
      r := None;
      var at;
      at, moves := Learn(w);
      if at.Check? {
        ghost var more;
        r, more := Resolve(w, at.record);
        Joined(w0, moves, more);
        moves := moves + more;
      }
      AlwaysKept(w0, moves);
    }
  }
}
