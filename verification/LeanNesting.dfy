// Algebra of `_set_nested_value`: setting dotted paths one by one builds the nested object.

module LeanNesting {
  import opened LeanText
  import opened LeanValue
  import opened LeanDecode

  lemma {:induction false} PutConcat(a: seq<Entry>, k: string, x: Value, y: Value)
    requires !HasKey(a, k)
    ensures Put(a + [Entry(k, x)], k, y) == a + [Entry(k, y)]
  {
    if a == [] {
      assert a + [Entry(k, x)] == [Entry(k, x)];
    } else {
      HasKeyTail(a, k);
      PutConcat(a[1..], k, x, y);
      assert (a + [Entry(k, x)])[1..] == a[1..] + [Entry(k, x)];
    }
  }

  lemma {:induction false} PutGet(t: seq<Entry>, k: string, x: Value, y: Value)
    requires HasKey(t, k)
    ensures HasKey(Put(t, k, x), k) && Get(Put(t, k, x), k) == x
    ensures Put(Put(t, k, x), k, y) == Put(t, k, y)
  {
    var u := Put(t, k, x);
    if t[0].key == k {
      assert u[0].key == k && u[1..] == t[1..];
    } else {
      HasKeyTail(t, k);
      PutGet(t[1..], k, x, y);
      assert u[1..] == Put(t[1..], k, x);
      HasKeyTail(u, k);
    }
  }

  lemma {:induction false} PutOther(t: seq<Entry>, k: string, x: Value, j: string)
    requires j != k
    ensures HasKey(Put(t, k, x), j) <==> HasKey(t, j)
    ensures Get(Put(t, k, x), j) == Get(t, j)
  {
    var u := Put(t, k, x);
    if t != [] {
      if t[0].key == k {
        assert u[1..] == t[1..];
      } else {
        PutOther(t[1..], k, x, j);
        assert u[1..] == Put(t[1..], k, x);
      }
      HasKeyTail(t, j);
      HasKeyTail(u, j);
    }
  }

  /** Nothing is stored at the path and nothing blocks it. */
  ghost predicate Open(t: seq<Entry>, parts: seq<string>)
    requires parts != []
  {
    SetNested(t, parts, Null).Ok?
  }

  lemma {:induction false} OpenAny(t: seq<Entry>, parts: seq<string>, v: Value)
    requires parts != []
    ensures SetNested(t, parts, v).Ok? <==> Open(t, parts)
    decreases |parts|
  {
    if |parts| > 1 {
      OpenAny([], parts[1..], v);
      if HasKey(t, parts[0]) && Get(t, parts[0]).Obj? {
        OpenAny(Get(t, parts[0]).entries, parts[1..], v);
      }
    }
  }

  /** Setting `path.k` where nothing is at `path` yet makes a one-entry object there. */
  lemma {:induction false} NestFirst(t: seq<Entry>, parts: seq<string>, k: string, v: Value)
    requires parts != [] && Open(t, parts)
    ensures SetNested(t, parts + [k], v) == SetNested(t, parts, Obj([Entry(k, v)]))
    decreases |parts|
  {
    var p, all := parts[0], parts + [k];
    OpenAny(t, parts, Obj([Entry(k, v)]));
    assert all[0] == p && all[1..] == parts[1..] + [k];
    if |parts| == 1 {
      assert all[1..] == [k];
      assert SetNested([], [k], v) == Ok([] + [Entry(k, v)]);
      assert [] + [Entry(k, v)] == [Entry(k, v)];
    } else if !HasKey(t, p) {
      NestFirst([], parts[1..], k, v);
    } else {
      NestFirst(Get(t, p).entries, parts[1..], k, v);
    }
  }

  /** Setting `path.k` next to the entries already at `path` appends one more. */
  lemma {:induction false} NestNext(t: seq<Entry>, parts: seq<string>, es: seq<Entry>, k: string, v: Value)
    requires parts != [] && Open(t, parts) && !HasKey(es, k)
    ensures SetNested(t, parts, Obj(es)).Ok?
    ensures SetNested(SetNested(t, parts, Obj(es)).value, parts + [k], v) == SetNested(t, parts, Obj(es + [Entry(k, v)]))
    decreases |parts|
  {
    var p, all := parts[0], parts + [k];
    OpenAny(t, parts, Obj(es));
    OpenAny(t, parts, Obj(es + [Entry(k, v)]));
    var u := SetNested(t, parts, Obj(es)).value;
    assert all[0] == p && all[1..] == parts[1..] + [k];
    if |parts| == 1 {
      assert all[1..] == [k];
      PlantedAt(t, p, Obj(es));
      PutConcat(t, p, Obj(es), Obj(es + [Entry(k, v)]));
    } else if !HasKey(t, p) {
      NestNext([], parts[1..], es, k, v);
      var sub := SetNested([], parts[1..], Obj(es)).value;
      PlantedAt(t, p, Obj(sub));
      PutConcat(t, p, Obj(sub), Obj(SetNested([], parts[1..], Obj(es + [Entry(k, v)])).value));
    } else {
      var inner := Get(t, p).entries;
      NestNext(inner, parts[1..], es, k, v);
      var sub := SetNested(inner, parts[1..], Obj(es)).value;
      PutGet(t, p, Obj(sub), Obj(SetNested(inner, parts[1..], Obj(es + [Entry(k, v)])).value));
    }
  }

  lemma PlantedAt(t: seq<Entry>, p: string, v: Value)
    requires !HasKey(t, p)
    ensures HasKey(t + [Entry(p, v)], p) && Get(t + [Entry(p, v)], p) == v
  {
    HasKeyConcat(t, [Entry(p, v)], p);
    GetConcat(t, [Entry(p, v)], p);
    assert [Entry(p, v)][0].key == p;
  }

  /** The target after the entries `done` have been set one by one under `parts`. */
  ghost function Current(t: seq<Entry>, parts: seq<string>, done: seq<Entry>): seq<Entry>
    requires CanFill(t, parts)
  {
    if parts == [] then done
    else if done == [] then t
    else
      OpenAny(t, parts, Obj(done));
      SetNested(t, parts, Obj(done)).value
  }

  ghost predicate CanFill(t: seq<Entry>, parts: seq<string>) {
    parts != [] ==> Open(t, parts)
  }

  lemma CurrentStep(t: seq<Entry>, parts: seq<string>, done: seq<Entry>, k: string, v: Value)
    requires CanFill(t, parts) && !HasKey(done, k)
    ensures SetNested(Current(t, parts, done), parts + [k], v) == Ok(Current(t, parts, done + [Entry(k, v)]))
  {
    if parts == [] {
      assert parts + [k] == [k];
    } else if done == [] {
      assert done + [Entry(k, v)] == [Entry(k, v)];
      NestFirst(t, parts, k, v);
      OpenAny(t, parts, Obj([Entry(k, v)]));
    } else {
      NestNext(t, parts, done, k, v);
      OpenAny(t, parts, Obj(done + [Entry(k, v)]));
    }
  }
}
