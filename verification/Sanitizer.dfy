// The sanitizer of free-form inputs, and what it computes (scripts/pipeline_coordinator.py:212-283).

module Sanitizer {
  import opened Common
  import opened LeanText

  /** Free-form data as Python holds it; dictionaries keep their order. */
  datatype Data =
    | Null
    | Bool(b: bool)
    | Int(n: int)
    | Float(text: string)
    | Str(s: string)
    | Bytes(s: string)
    | List(items: seq<Data>)
    | Tuple(items: seq<Data>)
    | Dict(entries: seq<Entry>)

  datatype Entry = Entry(key: string, val: Data)

  const MAX_STRING: nat := 10_000
  const MAX_ITEMS: nat := 1_000
  const MAX_COUNT: int := 0x7FFF_FFFF_FFFF_FFFF

  const REJECTED_KEYS := {"base64", "blob", "bytes", "password", "api_key", "authorization", "secret", "private_key"}

  predicate EndsWith(s: string, t: string) {
    |s| >= |t| && s[|s| - |t|..] == t
  }

  /** A byte count is metadata, not a payload. */
  predicate IsByteCount(e: Entry) {
    EndsWith(e.key, "_bytes") && e.val.Int? && 0 <= e.val.n <= MAX_COUNT
  }

  predicate RejectedEntry(e: Entry) {
    || e.key in REJECTED_KEYS
    || ((EndsWith(e.key, "_base64") || EndsWith(e.key, "_blob") || EndsWith(e.key, "_bytes")) && !IsByteCount(e))
  }

  function Placeholder(path: string): string {
    path + ": string value exceeds 10000 chars (truncated for persistence safety)"
  }

  function KeyPath(path: string, key: string): string {
    path + "." + key
  }

  function IndexPath(path: string, i: nat): string {
    path + "[" + NatText(i) + "]"
  }

  /** `_deep_sanitize`: none where it raises. */
  function Sanitize(v: Data, path: string): Option<Data>
    decreases v, 1
  {
    match v
    case Bytes(_) => None
    case Str(s) => Some(Str(if |s| > MAX_STRING then Placeholder(path) else s))
    case Dict(es) =>
      if exists i | 0 <= i < |es| :: RejectedEntry(es[i]) then None
      else
        (match SanitizeEntries(es, path)
         case None => None
         case Some(r) => Some(Dict(r)))
    case List(items) => SanitizeList(items, path)
    case Tuple(items) => SanitizeList(items, path)
    case _ => Some(v)
  }

  function SanitizeList(items: seq<Data>, path: string): Option<Data>
    decreases items, 1
  {
    if |items| > MAX_ITEMS then None
    else
      match SanitizeItems(items, path)
      case None => None
      case Some(r) => Some(List(r))
  }

  function SanitizeItems(items: seq<Data>, path: string): (r: Option<seq<Data>>)
    ensures r.Some? ==> |r.value| == |items|
    decreases items, 0
  {
    if items == [] then Some([])
    else
      var n := |items| - 1;
      var before := SanitizeItems(items[..n], path);
      var last := Sanitize(items[n], IndexPath(path, n));
      if before.None? || last.None? then None else Some(before.value + [last.value])
  }

  function SanitizeEntries(es: seq<Entry>, path: string): (r: Option<seq<Entry>>)
    ensures r.Some? ==> |r.value| == |es|
    decreases es, 0
  {
    if es == [] then Some([])
    else
      var n := |es| - 1;
      var before := SanitizeEntries(es[..n], path);
      var last := Sanitize(es[n].val, KeyPath(path, es[n].key));
      if before.None? || last.None? then None else Some(before.value + [Entry(es[n].key, last.value)])
  }

  /** Keys and byte counts survive, so an accepted dictionary stays accepted. */
  lemma {:induction false} EntriesStayAccepted(es: seq<Entry>, path: string)
    requires SanitizeEntries(es, path).Some? && forall i | 0 <= i < |es| :: !RejectedEntry(es[i])
    ensures var r := SanitizeEntries(es, path).value; forall i | 0 <= i < |r| :: !RejectedEntry(r[i])
  {
    if es != [] {
      var n := |es| - 1;
      EntriesStayAccepted(es[..n], path);
      var r := SanitizeEntries(es, path).value;
      assert r[n].key == es[n].key && (es[n].val.Int? ==> r[n].val == es[n].val);
      assert !RejectedEntry(es[n]);
    }
  }

  /** Sanitizing again, at the same place, changes nothing: even the placeholder of an oversized string
      under an oversized path is its own placeholder. */
  lemma {:induction false} SanitizeIdempotent(v: Data, path: string)
    requires Sanitize(v, path).Some?
    ensures Sanitize(Sanitize(v, path).value, path) == Sanitize(v, path)
    decreases v, 1
  {
    match v
    case Dict(es) =>
      EntriesIdempotent(es, path);
      EntriesStayAccepted(es, path);
    case List(items) => ItemsIdempotent(items, path);
    case Tuple(items) => ItemsIdempotent(items, path);
    case _ =>
  }

  lemma {:induction false} ItemsIdempotent(items: seq<Data>, path: string)
    requires SanitizeItems(items, path).Some?
    ensures SanitizeItems(SanitizeItems(items, path).value, path) == SanitizeItems(items, path)
    decreases items, 0
  {
    if items != [] {
      var n := |items| - 1;
      ItemsIdempotent(items[..n], path);
      SanitizeIdempotent(items[n], IndexPath(path, n));
      var r := SanitizeItems(items, path).value;
      assert r[..n] == SanitizeItems(items[..n], path).value;
    }
  }

  lemma {:induction false} EntriesIdempotent(es: seq<Entry>, path: string)
    requires SanitizeEntries(es, path).Some?
    ensures SanitizeEntries(SanitizeEntries(es, path).value, path) == SanitizeEntries(es, path)
    decreases es, 0
  {
    if es != [] {
      var n := |es| - 1;
      EntriesIdempotent(es[..n], path);
      SanitizeIdempotent(es[n].val, KeyPath(path, es[n].key));
      var r := SanitizeEntries(es, path).value;
      assert r[..n] == SanitizeEntries(es[..n], path).value;
    }
  }

  // --- What the sanitizer computes --------------------------------------------

  /** The values directly inside a value, by position. */
  function Inside(v: Data): (r: seq<Data>)
    ensures v.Dict? ==> |r| == |v.entries| && forall i | 0 <= i < |r| :: r[i] == v.entries[i].val
  {
    match v
    case Dict(es) => seq(|es|, i requires 0 <= i < |es| => es[i].val)
    case List(items) => items
    case Tuple(items) => items
    case _ => []
  }

  /** The value at a position at any depth, if there is one. */
  function At(v: Data, spot: seq<nat>): Option<Data>
    decreases |spot|
  {
    if spot == [] then Some(v)
    else if spot[0] < |Inside(v)| then At(Inside(v)[spot[0]], spot[1..])
    else None
  }

  /** How messages name a value directly inside another. */
  function Below(v: Data, path: string, i: nat): string
    requires i < |Inside(v)|
  {
    if v.Dict? then path + "." + v.entries[i].key else path + "[" + NatText(i) + "]"
  }

  /** How messages name the position. */
  function Spelled(v: Data, path: string, spot: seq<nat>): string
    requires At(v, spot).Some?
    decreases |spot|
  {
    if spot == [] then path
    else Spelled(Inside(v)[spot[0]], Below(v, path, spot[0]), spot[1..])
  }

  predicate SecretName(key: string) {
    || key == "base64" || key == "blob" || key == "bytes" || key == "password"
    || key == "api_key" || key == "authorization" || key == "secret" || key == "private_key"
  }

  predicate BlobName(key: string) {
    (|key| >= 7 && key[|key| - 7..] == "_base64") || (|key| >= 5 && key[|key| - 5..] == "_blob")
  }

  predicate BytesName(key: string) {
    |key| >= 6 && key[|key| - 6..] == "_bytes"
  }

  /** An entry whose key names a payload or a secret. */
  predicate Payload(key: string, val: Data) {
    SecretName(key) || BlobName(key) || (BytesName(key) && !(val.Int? && 0 <= val.n <= 9_223_372_036_854_775_807))
  }

  /** What must not be stored, seen at one position. */
  predicate Unfit(v: Data) {
    match v
    case Bytes(_) => true
    case List(items) => |items| > 1000
    case Tuple(items) => |items| > 1000
    case Dict(es) => exists i | 0 <= i < |es| :: Payload(es[i].key, es[i].val)
    case _ => false
  }

  /** What becomes of a value at the position with this spelling, its insides apart. */
  predicate StoredAs(v: Data, r: Data, spelled: string) {
    match v
    case Str(s) =>
      r == Str(if |s| <= 10_000 then s else spelled + ": string value exceeds 10000 chars (truncated for persistence safety)")
    case Dict(es) => r.Dict? && |r.entries| == |es| && forall i | 0 <= i < |es| :: r.entries[i].key == es[i].key
    case List(items) => r.List? && |r.items| == |items|
    case Tuple(items) => r.List? && |r.items| == |items|
    case _ => r == v
  }

  lemma KeyRejected(key: string)
    ensures key in REJECTED_KEYS <==> SecretName(key)
  {
  }

  lemma SuffixesSeen(key: string)
    ensures EndsWith(key, "_base64") || EndsWith(key, "_blob") <==> BlobName(key)
    ensures EndsWith(key, "_bytes") <==> BytesName(key)
  {
    assert |"_base64"| == 7 && |"_blob"| == 5 && |"_bytes"| == 6;
  }

  /** No key ends in both ways. */
  lemma LastCharacters(key: string)
    ensures BlobName(key) ==> !BytesName(key)
  {
    assert BlobName(key) ==> key[|key| - 1] == '4' || key[|key| - 1] == 'b' by {
      assert |key| >= 7 && key[|key| - 7..] == "_base64" ==> key[|key| - 1] == key[|key| - 7..][6];
      assert |key| >= 5 && key[|key| - 5..] == "_blob" ==> key[|key| - 1] == key[|key| - 5..][4];
    }
    assert BytesName(key) ==> key[|key| - 1] == key[|key| - 6..][5] == 's';
  }

  lemma PayloadRejected(e: Entry)
    ensures RejectedEntry(e) == Payload(e.key, e.val)
  {
    hide EndsWith, SecretName, BlobName, BytesName;
    KeyRejected(e.key);
    SuffixesSeen(e.key);
    LastCharacters(e.key);
  }

  lemma {:induction false} ItemsInside(items: seq<Data>, path: string)
    ensures SanitizeItems(items, path).Some? <==> forall i | 0 <= i < |items| :: Sanitize(items[i], IndexPath(path, i)).Some?
    ensures SanitizeItems(items, path).Some? ==>
      forall i | 0 <= i < |items| :: Some(SanitizeItems(items, path).value[i]) == Sanitize(items[i], IndexPath(path, i))
  {
    hide Sanitize, IndexPath;
    if items != [] {
      var n := |items| - 1;
      ItemsInside(items[..n], path);
      forall i | 0 <= i < n ensures items[..n][i] == items[i] {
      }
    }
  }

  lemma {:induction false} EntriesInside(es: seq<Entry>, path: string)
    ensures SanitizeEntries(es, path).Some? <==> forall i | 0 <= i < |es| :: Sanitize(es[i].val, KeyPath(path, es[i].key)).Some?
    ensures SanitizeEntries(es, path).Some? ==> forall i | 0 <= i < |es| ::
      && SanitizeEntries(es, path).value[i].key == es[i].key
      && Some(SanitizeEntries(es, path).value[i].val) == Sanitize(es[i].val, KeyPath(path, es[i].key))
  {
    hide Sanitize, KeyPath;
    if es != [] {
      var n := |es| - 1;
      EntriesInside(es[..n], path);
      forall i | 0 <= i < n ensures es[..n][i] == es[i] {
      }
    }
  }

  /** One level: the value itself, and each value inside it. */
  lemma OneLevel(v: Data, path: string)
    ensures Sanitize(v, path).Some? <==> !Unfit(v) && forall i | 0 <= i < |Inside(v)| :: Sanitize(Inside(v)[i], Below(v, path, i)).Some?
    ensures Sanitize(v, path).Some? ==> var r := Sanitize(v, path).value;
      && StoredAs(v, r, path) && |Inside(r)| == |Inside(v)|
      && forall i | 0 <= i < |Inside(v)| :: Some(Inside(r)[i]) == Sanitize(Inside(v)[i], Below(v, path, i))
  {
    hide Below, RejectedEntry, Payload, SanitizeEntries, SanitizeList;
    match v
    case Dict(es) => DictLevel(es, path);
    case List(items) => ListLevel(v, items, path);
    case Tuple(items) => ListLevel(v, items, path);
    case _ =>
  }

  lemma DictLevel(es: seq<Entry>, path: string)
    ensures var v := Dict(es);
      && (Sanitize(v, path).Some? <==> !Unfit(v) && forall i | 0 <= i < |Inside(v)| :: Sanitize(Inside(v)[i], Below(v, path, i)).Some?)
      && (Sanitize(v, path).Some? ==> var r := Sanitize(v, path).value;
            && StoredAs(v, r, path) && |Inside(r)| == |Inside(v)|
            && forall i | 0 <= i < |Inside(v)| :: Some(Inside(r)[i]) == Sanitize(Inside(v)[i], Below(v, path, i)))
  {
    hide RejectedEntry, Payload, SanitizeEntries;
    var v := Dict(es);
    EntriesInside(es, path);
    forall i | 0 <= i < |es|
      ensures RejectedEntry(es[i]) == Payload(es[i].key, es[i].val) && Below(v, path, i) == KeyPath(path, es[i].key)
    {
      PayloadRejected(es[i]);
      assert path + "." + es[i].key == KeyPath(path, es[i].key);
    }
  }

  lemma ListLevel(v: Data, items: seq<Data>, path: string)
    requires v == List(items) || v == Tuple(items)
    ensures Sanitize(v, path).Some? <==> !Unfit(v) && forall i | 0 <= i < |Inside(v)| :: Sanitize(Inside(v)[i], Below(v, path, i)).Some?
    ensures Sanitize(v, path).Some? ==> var r := Sanitize(v, path).value;
      && StoredAs(v, r, path) && |Inside(r)| == |Inside(v)|
      && forall i | 0 <= i < |Inside(v)| :: Some(Inside(r)[i]) == Sanitize(Inside(v)[i], Below(v, path, i))
  {
    hide SanitizeItems;
    ItemsInside(items, path);
    assert Inside(v) == items;
    forall i | 0 <= i < |items| ensures Below(v, path, i) == IndexPath(path, i) {
    }
    assert Sanitize(v, path) == SanitizeList(items, path);
  }

  /** A refusal has its reason somewhere. */
  lemma {:induction false} RefusedAt(v: Data, path: string) returns (spot: seq<nat>)
    requires Sanitize(v, path).None?
    ensures At(v, spot).Some? && Unfit(At(v, spot).value)
    decreases v
  {
    hide Sanitize, Unfit;
    OneLevel(v, path);
    if Unfit(v) {
      spot := [];
    } else {
      var i :| 0 <= i < |Inside(v)| && Sanitize(Inside(v)[i], Below(v, path, i)).None?;
      InsideSmaller(v, i);
      var rest := RefusedAt(Inside(v)[i], Below(v, path, i));
      spot := [i] + rest;
      assert spot[1..] == rest;
    }
  }

  lemma InsideSmaller(v: Data, i: nat)
    requires i < |Inside(v)|
    ensures Inside(v)[i] < v
  {
  }

  /** What is accepted is fit, and stored as said, at every position; and there are no other positions. */
  lemma {:induction false} StoredAt(v: Data, path: string, spot: seq<nat>)
    requires Sanitize(v, path).Some?
    ensures var r := Sanitize(v, path).value;
      && (At(r, spot).Some? <==> At(v, spot).Some?)
      && (At(v, spot).Some? ==> !Unfit(At(v, spot).value) && StoredAs(At(v, spot).value, At(r, spot).value, Spelled(v, path, spot)))
    decreases |spot|
  {
    hide Sanitize, Unfit, StoredAs, Inside, Below;
    OneLevel(v, path);
    if spot != [] && spot[0] < |Inside(v)| {
      StoredAt(Inside(v)[spot[0]], Below(v, path, spot[0]), spot[1..]);
    }
  }

  /** Nothing in a value, at any depth, must be kept out of the store. */
  ghost predicate Fit(v: Data) {
    forall spot: seq<nat> :: At(v, spot).Some? ==> !Unfit(At(v, spot).value)
  }

  /** A value is accepted exactly when nothing in it, at any depth, is unfit: no bytes, no collection of more
      than a thousand items, no entry that names a payload. */
  lemma SanitizeAccepts(v: Data, path: string)
    ensures Sanitize(v, path).Some? <==> Fit(v)
  {
    hide Sanitize, Unfit, At;
    if Sanitize(v, path).Some? {
      forall spot: seq<nat> | At(v, spot).Some? ensures !Unfit(At(v, spot).value) {
        StoredAt(v, path, spot);
      }
    } else {
      var spot := RefusedAt(v, path);
    }
  }

  /** What is stored has the same positions, keys and lengths; strings are themselves unless they are longer than
      ten thousand characters, tuples become lists, and everything else is itself. */
  lemma SanitizeStores(v: Data, path: string)
    requires Sanitize(v, path).Some?
    ensures forall spot: seq<nat> ::
      (At(Sanitize(v, path).value, spot).Some? <==> At(v, spot).Some?)
      && (At(v, spot).Some? ==> StoredAs(At(v, spot).value, At(Sanitize(v, path).value, spot).value, Spelled(v, path, spot)))
  {
    hide Sanitize, Unfit, At, StoredAs;
    forall spot: seq<nat>
      ensures At(Sanitize(v, path).value, spot).Some? <==> At(v, spot).Some?
      ensures At(v, spot).Some? ==> StoredAs(At(v, spot).value, At(Sanitize(v, path).value, spot).value, Spelled(v, path, spot))
    {
      StoredAt(v, path, spot);
    }
  }

  /** No string is long and nothing is a tuple. */
  predicate Modest(v: Data) {
    !v.Tuple? && (v.Str? ==> |v.s| <= 10_000)
  }

  /** Nothing in a value, at any depth, would be stored as something else. */
  ghost predicate Plainly(v: Data) {
    forall spot: seq<nat> :: At(v, spot).Some? ==> Modest(At(v, spot).value)
  }

  /** Accepted values of that kind are stored as they are. */
  lemma {:induction false} ModestUnchanged(v: Data, path: string)
    requires Sanitize(v, path).Some?
    requires Plainly(v)
    ensures Sanitize(v, path) == Some(v)
    decreases v
  {
    hide Sanitize, Unfit, At, Modest;
    OneLevel(v, path);
    var r := Sanitize(v, path).value;
    AtHere(v);
    forall i | 0 <= i < |Inside(v)| ensures Inside(r)[i] == Inside(v)[i] {
      InsideSmaller(v, i);
      forall spot: seq<nat> | At(Inside(v)[i], spot).Some? ensures Modest(At(Inside(v)[i], spot).value) {
        AtBelow(v, i, spot);
      }
      ModestUnchanged(Inside(v)[i], Below(v, path, i));
    }
    SameInside(v, r, path);
  }

  lemma AtHere(v: Data)
    ensures At(v, []) == Some(v)
  {
  }

  lemma AtBelow(v: Data, i: nat, spot: seq<nat>)
    requires i < |Inside(v)|
    ensures At(v, [i] + spot) == At(Inside(v)[i], spot)
  {
    assert ([i] + spot)[1..] == spot;
  }

  lemma SameInside(v: Data, r: Data, path: string)
    requires Modest(v) && StoredAs(v, r, path) && |Inside(r)| == |Inside(v)| && forall i | 0 <= i < |Inside(v)| :: Inside(r)[i] == Inside(v)[i]
    ensures r == v
  {
    match v
    case Dict(es) =>
      forall i | 0 <= i < |es| ensures r.entries[i] == es[i] {
        assert Inside(r)[i] == Inside(v)[i];
      }
      assert r.entries == es;
    case List(items) => assert r.items == items;
    case _ =>
  }
}
