// The JSON-like values LEAN transports, with Python's dictionary equality.

module LeanValue {
  import opened LeanText

  datatype Number = Int(n: int) | Float(text: FloatText) | NonFinite

  /** A dict is its entries in insertion order. */
  datatype Value =
    | Null
    | Bool(b: bool)
    | Num(num: Number)
    | Str(s: string)
    | Arr(items: seq<Value>)
    | Obj(entries: seq<Entry>)

  datatype Entry = Entry(key: string, val: Value)

  predicate IsScalar(v: Value) {
    !v.Arr? && !v.Obj?
  }

  function KeyList(es: seq<Entry>): (ks: seq<string>)
    ensures |ks| == |es|
    ensures forall i | 0 <= i < |es| :: ks[i] == es[i].key
  {
    seq(|es|, i requires 0 <= i < |es| => es[i].key)
  }

  predicate HasKey(es: seq<Entry>, k: string) {
    exists i | 0 <= i < |es| :: es[i].key == k
  }

  /** The value stored under `k`, Null when there is none. */
  function Get(es: seq<Entry>, k: string): Value {
    if es == [] then Null else if es[0].key == k then es[0].val else Get(es[1..], k)
  }

  predicate Distinct(es: seq<Entry>) {
    forall i, j | 0 <= i < j < |es| :: es[i].key != es[j].key
  }

  lemma {:induction false} GetAt(es: seq<Entry>, i: nat)
    requires i < |es| && Distinct(es)
    ensures HasKey(es, es[i].key) && Get(es, es[i].key) == es[i].val
  {
    if i > 0 {
      assert Distinct(es[1..]) && es[1..][i - 1] == es[i];
      GetAt(es[1..], i - 1);
    }
  }

  lemma HasKeyTail(es: seq<Entry>, k: string)
    requires es != []
    ensures HasKey(es, k) <==> es[0].key == k || HasKey(es[1..], k)
  {
    if HasKey(es, k) && es[0].key != k {
      var i :| 0 <= i < |es| && es[i].key == k;
      assert es[1..][i - 1].key == k;
    }
    if HasKey(es[1..], k) {
      var i :| 0 <= i < |es[1..]| && es[1..][i].key == k;
      assert es[i + 1].key == k;
    }
  }

  lemma HasKeyConcat(a: seq<Entry>, b: seq<Entry>, k: string)
    ensures HasKey(a + b, k) <==> HasKey(a, k) || HasKey(b, k)
  {
    if HasKey(a, k) {
      var i :| 0 <= i < |a| && a[i].key == k;
      assert (a + b)[i].key == k;
    }
    if HasKey(b, k) {
      var i :| 0 <= i < |b| && b[i].key == k;
      assert (a + b)[|a| + i].key == k;
    }
  }

  lemma {:induction false} GetConcat(a: seq<Entry>, b: seq<Entry>, k: string)
    ensures Get(a + b, k) == if HasKey(a, k) then Get(a, k) else Get(b, k)
  {
    if a == [] {
      assert a + b == b;
    } else {
      GetConcat(a[1..], b, k);
      HasKeyTail(a, k);
      assert (a + b)[1..] == a[1..] + b;
    }
  }

  /** What every Python dict satisfies: no key occurs twice, at any depth. */
  predicate WellFormed(v: Value) {
    match v
    case Arr(items) => forall i | 0 <= i < |items| :: WellFormed(items[i])
    case Obj(es) => Distinct(es) && forall i | 0 <= i < |es| :: WellFormed(es[i].val)
    case _ => true
  }

  ghost predicate SameKeys(es: seq<Entry>, fs: seq<Entry>) {
    forall k: string :: HasKey(es, k) <==> HasKey(fs, k)
  }

  /** Python's `==`: lists in order, dicts by key whatever the insertion order. */
  ghost predicate PyEq(w: Value, v: Value)
    decreases w
  {
    match v
    case Arr(items) =>
      && w.Arr?
      && |w.items| == |items|
      && forall i | 0 <= i < |items| :: PyEq(w.items[i], items[i])
    case Obj(es) =>
      && w.Obj?
      && SameKeys(w.entries, es)
      && forall i | 0 <= i < |w.entries| ::
           PyEq(w.entries[i].val, Get(es, w.entries[i].key))
    case _ => w == v
  }

  /** Entry by entry equal, in the same order. */
  ghost predicate SameEntries(ws: seq<Entry>, es: seq<Entry>) {
    && |ws| == |es|
    && forall i | 0 <= i < |es| :: ws[i].key == es[i].key && PyEq(ws[i].val, es[i].val)
  }

  lemma SameEntriesPyEq(ws: seq<Entry>, es: seq<Entry>)
    requires Distinct(es) && SameEntries(ws, es)
    ensures PyEq(Obj(ws), Obj(es))
  {
    forall k: string ensures HasKey(ws, k) <==> HasKey(es, k) {
      if HasKey(ws, k) {
        var i :| 0 <= i < |ws| && ws[i].key == k;
        assert es[i].key == k;
      }
      if HasKey(es, k) {
        var i :| 0 <= i < |es| && es[i].key == k;
        assert ws[i].key == k;
      }
    }
    forall i | 0 <= i < |ws|
      ensures PyEq(ws[i].val, Get(es, ws[i].key))
    {
      GetAt(es, i);
    }
  }

  ghost predicate SameItems(ws: seq<Value>, vs: seq<Value>) {
    |ws| == |vs| && forall i | 0 <= i < |vs| :: PyEq(ws[i], vs[i])
  }
}
