// What the protocol of NativeTask achieves when nothing goes wrong, and when the accepting process exits: runs written
// out move by move (scripts/native_task_host.py:83-206, scripts/native_task_client.py:60-112).

module NativeTaskRuns {
  import opened Common
  import opened NativeTask

  /** One observer, behind its boundary, that has posted. */
  function Watched(host: Host, sent: seq<(string, string)>, answers: map<string, (nat, string)>, k: Slot, c: Client): World {
    World(host, sent, answers, map[k := c], {k.id}, map[k := 1])
  }

  /** A host with one record. */
  function OneTask(id: string, r: Record, responses: map<string, string>, tasks: map<string, Task>): Host {
    Host(map[id := r], responses, tasks)
  }

  /** Ask, intend, post, and look at the answer. */
  function Admission(k: Slot, body: string): seq<Move> {
    [ClientStarts(k, body), ClientPolls(k, None, true, false), ClientIntends(k, true, true), ClientPosts(k, true, true), ClientChecks(k, true)]
  }

  function Fresh(body: string): Record {
    Record(Digest(body), Accepted, 0, None, None, None)
  }

  /** An empty host admits: the record is accepted, a task for the body is created, and the client polls on. */
  lemma Admits(k: Slot, body: string)
    ensures Allowed(START, Admission(k, body))
    ensures Reached(START, Admission(k, body)) ==
      Watched(OneTask(k.id, Fresh(body), map[], map[k.id := Task(body, Created)]), [], map[], k, Client(body, true, Poll))
  {
    hide Next, Enabled, Allowed, Reached;
    var w1 := Starts(k, body);
    var w2 := FindsNothing(k, body, w1);
    var w3 := Intends(k, body, w2);
    var w4 := PostsFirst(k, body, w3);
    var w5 := Looks(k, body, w4);
    var m0, m1, m2, m3, m4 := ClientStarts(k, body), ClientPolls(k, None, true, false), ClientIntends(k, true, true), ClientPosts(k, true, true), ClientChecks(k, true);
    OneMove(START, m0);
    OneMore(START, [m0], w1, m1);
    OneMore(START, [m0] + [m1], w2, m2);
    OneMore(START, [m0] + [m1] + [m2], w3, m3);
    OneMore(START, [m0] + [m1] + [m2] + [m3], w4, m4);
    assert [m0] + [m1] + [m2] + [m3] + [m4] == Admission(k, body);
  }

  lemma Starts(k: Slot, body: string) returns (w: World)
    ensures Enabled(START, ClientStarts(k, body)) && w == Next(START, ClientStarts(k, body))
    ensures w == World(Host(map[], map[], map[]), [], map[], map[k := Client(body, false, Poll)], {}, map[])
  {
    w := Next(START, ClientStarts(k, body));
  }

  lemma FindsNothing(k: Slot, body: string, w: World) returns (z: World)
    requires w == World(Host(map[], map[], map[]), [], map[], map[k := Client(body, false, Poll)], {}, map[])
    ensures Enabled(w, ClientPolls(k, None, true, false)) && z == Next(w, ClientPolls(k, None, true, false))
    ensures z == w.(clients := map[k := Client(body, false, Intent)])
  {
    z := Next(w, ClientPolls(k, None, true, false));
  }

  lemma Intends(k: Slot, body: string, w: World) returns (z: World)
    requires w == World(Host(map[], map[], map[]), [], map[], map[k := Client(body, false, Intent)], {}, map[])
    ensures Enabled(w, ClientIntends(k, true, true)) && z == Next(w, ClientIntends(k, true, true))
    ensures z == w.(clients := map[k := Client(body, true, Post)], started := {k.id})
  {
    z := Next(w, ClientIntends(k, true, true));
  }

  lemma PostsFirst(k: Slot, body: string, w: World) returns (z: World)
    requires w == World(Host(map[], map[], map[]), [], map[], map[k := Client(body, true, Post)], {k.id}, map[])
    ensures Enabled(w, ClientPosts(k, true, true)) && z == Next(w, ClientPosts(k, true, true))
    ensures z == Watched(OneTask(k.id, Fresh(body), map[], map[k.id := Task(body, Created)]), [], map[], k, Client(body, true, Check(Fresh(body))))
  {
    z := Next(w, ClientPosts(k, true, true));
  }

  lemma Looks(k: Slot, body: string, w: World) returns (z: World)
    requires w == Watched(OneTask(k.id, Fresh(body), map[], map[k.id := Task(body, Created)]), [], map[], k, Client(body, true, Check(Fresh(body))))
    ensures Enabled(w, ClientChecks(k, true)) && z == Next(w, ClientChecks(k, true))
    ensures z == w.(clients := map[k := Client(body, true, Poll)])
  {
    z := Next(w, ClientChecks(k, true));
  }

  // --- Forwarding -------------------------------------------------------------

  function Sending(k: Slot, body: string, pid: Option<nat>): World {
    Watched(OneTask(k.id, Fresh(body).(status := InFlight, submits := 1, pid := pid), map[], map[k.id := Task(body, Posted)]),
            [(k.id, body)], map[], k, Client(body, true, Poll))
  }

  /** The host saves that it forwards, and forwards the very body. */
  lemma Forwards(k: Slot, body: string, pid: Option<nat>)
    ensures Allowed(START, Admission(k, body) + [HostForwards(k.id, pid), HostPosts(k.id)])
    ensures Reached(START, Admission(k, body) + [HostForwards(k.id, pid), HostPosts(k.id)]) == Sending(k, body, pid)
  {
    hide Next, Enabled, Allowed, Reached, Admission, Sending;
    Admits(k, body);
    var first := Admission(k, body);
    var w := Reached(START, first);
    var z := SavesForwarding(k, body, pid, w);
    Sends(k, body, pid, z);
    OneMore(START, first, w, HostForwards(k.id, pid));
    OneMore(START, first + [HostForwards(k.id, pid)], z, HostPosts(k.id));
    assert first + [HostForwards(k.id, pid)] + [HostPosts(k.id)] == first + [HostForwards(k.id, pid), HostPosts(k.id)];
  }

  lemma SavesForwarding(k: Slot, body: string, pid: Option<nat>, w: World) returns (z: World)
    requires w == Watched(OneTask(k.id, Fresh(body), map[], map[k.id := Task(body, Created)]), [], map[], k, Client(body, true, Poll))
    ensures Enabled(w, HostForwards(k.id, pid)) && z == Next(w, HostForwards(k.id, pid))
    ensures z == w.(host := OneTask(k.id, Fresh(body).(status := InFlight, submits := 1, pid := pid), map[], map[k.id := Task(body, Saved)]))
  {
    z := Next(w, HostForwards(k.id, pid));
  }

  lemma Sends(k: Slot, body: string, pid: Option<nat>, w: World)
    requires w == Watched(OneTask(k.id, Fresh(body).(status := InFlight, submits := 1, pid := pid), map[], map[k.id := Task(body, Saved)]),
                          [], map[], k, Client(body, true, Poll))
    ensures Enabled(w, HostPosts(k.id)) && Next(w, HostPosts(k.id)) == Sending(k, body, pid)
  {
  }

  // --- The upstream answers ---------------------------------------------------

  function Told(k: Slot, body: string, r: Record, text: string, answers: map<string, (nat, string)>, at: Point): World {
    Watched(OneTask(k.id, r, map[k.id := text], map[]), [(k.id, body)], answers, k, Client(body, true, at))
  }

  function Final(k: Slot, current: Option<nat>): seq<Move> {
    [ClientPolls(k, current, true, false), ClientChecks(k, true), ClientFetches(k, true)]
  }

  /** A resolved record for its request, with its response on file, is found, checked, fetched and yielded. */
  lemma Collects(k: Slot, body: string, r: Record, text: string, answers: map<string, (nat, string)>, current: Option<nat>)
    requires r.request == Digest(body) && r.upstream.Some? && r.response == Some(Digest(text)) && (r.status == Completed || r.status == Failed)
    ensures var w := Told(k, body, r, text, answers, Poll);
      Allowed(w, Final(k, current)) && Reached(w, Final(k, current)) == Told(k, body, r, text, answers, Yielded(r.upstream.value, text))
  {
    hide Next, Enabled, Allowed, Reached, Told;
    var w, w1, w2 := Told(k, body, r, text, answers, Poll), Told(k, body, r, text, answers, Check(r)), Told(k, body, r, text, answers, Fetch(r));
    Finds(k, body, r, text, answers, current);
    Matches(k, body, r, text, answers);
    Fetches(k, body, r, text, answers);
    OneMove(w, ClientPolls(k, current, true, false));
    OneMore(w, [ClientPolls(k, current, true, false)], w1, ClientChecks(k, true));
    OneMore(w, [ClientPolls(k, current, true, false)] + [ClientChecks(k, true)], w2, ClientFetches(k, true));
    assert [ClientPolls(k, current, true, false)] + [ClientChecks(k, true)] + [ClientFetches(k, true)] == Final(k, current);
  }

  lemma Finds(k: Slot, body: string, r: Record, text: string, answers: map<string, (nat, string)>, current: Option<nat>)
    requires r.status == Completed || r.status == Failed
    ensures var w := Told(k, body, r, text, answers, Poll);
      Enabled(w, ClientPolls(k, current, true, false)) && Next(w, ClientPolls(k, current, true, false)) == Told(k, body, r, text, answers, Check(r))
  {
  }

  lemma Matches(k: Slot, body: string, r: Record, text: string, answers: map<string, (nat, string)>)
    requires r.request == Digest(body) && (r.status == Completed || r.status == Failed)
    ensures var w := Told(k, body, r, text, answers, Check(r));
      Enabled(w, ClientChecks(k, true)) && Next(w, ClientChecks(k, true)) == Told(k, body, r, text, answers, Fetch(r))
  {
    assert {k.id} + {k.id} == {k.id};
  }

  lemma Fetches(k: Slot, body: string, r: Record, text: string, answers: map<string, (nat, string)>)
    requires r.upstream.Some? && r.response == Some(Digest(text)) && (r.status == Completed || r.status == Failed)
    ensures var w := Told(k, body, r, text, answers, Fetch(r));
      Enabled(w, ClientFetches(k, true)) && Next(w, ClientFetches(k, true)) == Told(k, body, r, text, answers, Yielded(r.upstream.value, text))
  {
  }

  lemma Answers(k: Slot, body: string, pid: Option<nat>, code: nat, raw: string)
    ensures var w, r := Sending(k, body, pid),
        Record(Digest(body), if 200 <= code < 300 then Completed else Failed, 1, pid, Some(code), Some(Digest(raw)));
      Enabled(w, HostAnswered(k.id, code, raw)) && Next(w, HostAnswered(k.id, code, raw)) == Told(k, body, r, raw, map[k.id := (code, raw)], Poll)
  {
    assert map[k.id := Task(body, Posted)] - {k.id} == map[];
  }

  /** From nothing to the response: whatever the request, the process, the code and the body of the answer, the client
      yields exactly that code and body, the request was sent once, and the record is completed just for codes from
      200 up to 300. */
  lemma AnsweredRun(k: Slot, body: string, pid: Option<nat>, code: nat, raw: string, current: Option<nat>)
    ensures var moves := Admission(k, body) + [HostForwards(k.id, pid), HostPosts(k.id)] + [HostAnswered(k.id, code, raw)] + Final(k, current);
      && Allowed(START, moves)
      && var w := Reached(START, moves);
      && w.clients == map[k := Client(body, true, Yielded(code, raw))] && w.sent == [(k.id, body)] && w.posts == map[k := 1]
      && w.host.tasks == map[] && w.host.responses == map[k.id := raw]
      && w.host.records == map[k.id :=
           Record(Digest(body), if 200 <= code < 300 then Completed else Failed, 1, pid, Some(code), Some(Digest(raw)))]
  {
    hide Next, Enabled, Allowed, Reached, Admission, Sending, Final;
    var r := Record(Digest(body), if 200 <= code < 300 then Completed else Failed, 1, pid, Some(code), Some(Digest(raw)));
    var first := Admission(k, body) + [HostForwards(k.id, pid), HostPosts(k.id)];
    Forwards(k, body, pid);
    Answers(k, body, pid, code, raw);
    OneMore(START, first, Sending(k, body, pid), HostAnswered(k.id, code, raw));
    Collects(k, body, r, raw, map[k.id := (code, raw)], current);
    Joined(START, first + [HostAnswered(k.id, code, raw)], Final(k, current));
  }

  // --- The accepting process exits --------------------------------------------

  function Lost(k: Slot, body: string, pid: Option<nat>, at: Point): World {
    Watched(OneTask(k.id, Record(Digest(body), Unknown, 1, pid, None, None), map[], map[]), [(k.id, body)], map[], k, Client(body, true, at))
  }

  lemma Restarts(k: Slot, body: string, pid: Option<nat>)
    ensures Enabled(Sending(k, body, pid), HostRestarts) && Next(Sending(k, body, pid), HostRestarts) == Lost(k, body, pid, Poll)
  {
  }

  /** A poll resolves an unknown outcome exactly when the accepting process is known and another one is seen. */
  lemma ExitSeenIff(k: Slot, body: string, pid: Option<nat>, current: Option<nat>)
    ensures var w := Lost(k, body, pid, Poll);
      && Enabled(w, ClientPolls(k, current, true, false))
      && var z := Next(w, ClientPolls(k, current, true, false));
      if pid.Some? && pid.value != 0 && current.Some? && current.value != pid.value then
        var r, text := Record(Digest(body), Failed, 1, pid, Some(503), Some(Digest("native_runtime_exited_before_response:" + k.id))),
          "native_runtime_exited_before_response:" + k.id;
        z == Told(k, body, r, text, map[], Check(r))
      else z == Lost(k, body, pid, Check(w.host.records[k.id]))
  {
  }

  /** And then the client yields the host's word for it: the request was sent, and no answer came back. */
  lemma ExitedRun(k: Slot, body: string, pid: nat, current: nat)
    requires pid != 0 && current != pid
    ensures var moves := Admission(k, body) + [HostForwards(k.id, Some(pid)), HostPosts(k.id)] + [HostRestarts] + Final(k, Some(current));
      && Allowed(START, moves)
      && var w, text := Reached(START, moves), "native_runtime_exited_before_response:" + k.id;
      && w.clients == map[k := Client(body, true, Yielded(503, text))] && w.sent == [(k.id, body)]
      && w.host.records == map[k.id := Record(Digest(body), Failed, 1, Some(pid), Some(503), Some(Digest(text)))]
  {
    hide Next, Enabled, Allowed, Reached, Admission, Sending;
    var text := "native_runtime_exited_before_response:" + k.id;
    var r := Record(Digest(body), Failed, 1, Some(pid), Some(503), Some(Digest(text)));
    var first := Admission(k, body) + [HostForwards(k.id, Some(pid)), HostPosts(k.id)];
    Forwards(k, body, Some(pid));
    Restarts(k, body, Some(pid));
    ExitSeenIff(k, body, Some(pid), Some(current));
    Matches(k, body, r, text, map[]);
    Fetches(k, body, r, text, map[]);
    var m0, m1, m2, m3 := HostRestarts, ClientPolls(k, Some(current), true, false), ClientChecks(k, true), ClientFetches(k, true);
    OneMore(START, first, Sending(k, body, Some(pid)), m0);
    OneMore(START, first + [m0], Lost(k, body, Some(pid), Poll), m1);
    OneMore(START, first + [m0] + [m1], Told(k, body, r, text, map[], Check(r)), m2);
    OneMore(START, first + [m0] + [m1] + [m2], Told(k, body, r, text, map[], Fetch(r)), m3);
    assert first + [m0] + [m1] + [m2] + [m3] == first + [m0] + Final(k, Some(current));
  }

  // --- What an observer makes of what it is told ------------------------------

  /** A status request: unheard it changes nothing; the client asks on only when it heard that there is no record and
      nothing was ever admitted; it looks at a record it heard of; and otherwise holds on to its identity. */
  lemma PollIff(w: World, k: Slot, current: Option<nat>, heard: bool, garbled: bool)
    requires Enabled(w, ClientPolls(k, current, heard, garbled))
    ensures var z := Next(w, ClientPolls(k, current, heard, garbled)); var c := w.clients[k];
      && k in z.clients && var d := z.clients[k];
      && d.body == c.body && (d.accepted <==> c.accepted || (heard && (garbled || k.id in w.host.records)))
      && (d.at == Intent <==> heard && !garbled && k.id !in w.host.records && !c.accepted)
      && (heard && !garbled && k.id in w.host.records ==> d.at == Check(z.host.records[k.id]))
      && (d.at == Poll || d.at == Intent || (d.at.Check? && heard && !garbled))
  {
  }

  /** It posts only behind a confirmed intent, and looks at the answer only when it heard an admission. */
  lemma PostIff(w: World, k: Slot, stored: bool, confirmed: bool, arrives: bool, heard: bool)
    ensures Enabled(w, ClientIntends(k, stored, confirmed)) ==>
      var z := Next(w, ClientIntends(k, stored, confirmed));
      && k in z.clients && z.clients[k].accepted && z.clients[k].at == (if confirmed then Post else Poll)
      && z.started == w.started + (if stored then {k.id} else {})
    ensures Enabled(w, ClientPosts(k, arrives, heard)) ==>
      var z := Next(w, ClientPosts(k, arrives, heard)); var c := w.clients[k];
      && k in z.clients
      && (z.clients[k].at.Check? <==> heard && k.id in z.host.records && z.host.records[k.id].request == Digest(c.body)
                                       && (k.id in w.host.records || z.host != w.host))
      && (z.clients[k].at.Check? ==> z.clients[k].at.record == z.host.records[k.id])
      && (!z.clients[k].at.Check? ==> z.clients[k] == Client(c.body, true, Poll))
      && (!arrives ==> z.host == w.host)
  {
  }

  /** A record for another request is held on to; one that is resolved is fetched, and any other is polled for. */
  lemma CheckIff(w: World, k: Slot, stored: bool)
    requires Enabled(w, ClientChecks(k, stored))
    ensures var z := Next(w, ClientChecks(k, stored)); var c := w.clients[k];
      var own, r := c.at.record.request == Digest(c.body), c.at.record;
      && k in z.clients && z.host == w.host
      && z.clients[k] == Client(c.body, c.accepted || !own, if own && (r.status == Completed || r.status == Failed) then Fetch(r) else Poll)
      && z.started == w.started + (if stored && own && r.status != Unknown then {k.id} else {})
  {
  }

  /** A response is yielded exactly when it was heard, the host has it on file for a resolved record, and it is the one
      that the record at hand names; heard otherwise, the client holds on. */
  lemma FetchIff(w: World, k: Slot, heard: bool)
    requires Enabled(w, ClientFetches(k, heard))
    ensures var z := Next(w, ClientFetches(k, heard)); var c, id := w.clients[k], k.id;
      var good := heard && id in w.host.records && (w.host.records[id].status == Completed || w.host.records[id].status == Failed)
                  && id in w.host.responses && c.at.record.response == Some(Digest(w.host.responses[id])) && c.at.record.upstream.Some?;
      && k in z.clients && z.host == w.host
      && z.clients[k] == if good then Client(c.body, c.accepted, Yielded(c.at.record.upstream.value, w.host.responses[id]))
                         else Client(c.body, c.accepted || heard, Poll)
  {
  }
}
