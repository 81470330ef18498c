// The law of the codec: exactly which values come back, and a fragment stated in the caller's terms.

module LeanLaw {
  import opened Common
  import opened LeanText
  import opened LeanValue
  import opened LeanScalar
  import opened LeanEncode
  import opened LeanDecode
  import opened LeanSafe
  import opened LeanHeads
  import opened LeanNesting
  import opened LeanRoundTrip
  import opened LeanDocument
  import opened LeanFailure
  import opened LeanAccepted

  // --- A fragment that needs no knowledge of layouts --------------------------

  predicate IsEmptyObject(v: Value) {
    v.Obj? && v.entries == []
  }

  predicate FlatList(v: Value) {
    v.Arr? && v.items != [] && AllScalars(v.items)
  }

  /** A list item that no dashed layout can garble. */
  predicate PlainItem(v: Value) {
    && (v.Str? ==> v.s != "{}" && ':' !in v.s)
    && (v.Obj? && v.entries != [] ==> !FlatList(v.entries[0].val))
  }

  /** No property value `{}`; and in lists that are not flat: no string with a colon or equal to
      `{}`, no object whose first value is a non-empty scalar list; no list of empty objects only. */
  predicate Plain(v: Value) {
    match v
    case Arr(items) =>
      && (forall i | 0 <= i < |items| :: Plain(items[i]))
      && (AllScalars(items) || forall i | 0 <= i < |items| :: PlainItem(items[i]))
      && (items == [] || exists i | 0 <= i < |items| :: !IsEmptyObject(items[i]))
    case Obj(es) => forall i | 0 <= i < |es| :: es[i].val != Str("{}") && Plain(es[i].val)
    case _ => true
  }

  lemma ColonlessIsSafe(s: string)
    requires s != "{}" && ':' !in s
    ensures !LooksStructured(s)
  {
    NoColonNoHead(s);
  }

  lemma PlainTable(path: string, vs: seq<Value>, indent: nat)
    requires LayoutOf(path, vs, indent).TabularLayout? && exists i | 0 <= i < |vs| :: !IsEmptyObject(vs[i])
    ensures EntriesOf(vs[0]) != []
  {
    TabularLines(path, vs, indent);
    var i :| 0 <= i < |vs| && !IsEmptyObject(vs[i]);
    assert ScalarRow(vs[i]);
    assert HasKey(EntriesOf(vs[i]), EntriesOf(vs[i])[0].key);
    TabularKeys(vs, i, EntriesOf(vs[i])[0].key);
  }

  lemma {:induction false} PlainArray(path: string, vs: seq<Value>, indent: nat)
    requires Plain(Arr(vs))
    ensures SafeArray(path, vs, indent)
    decreases vs, 3
  {
    hide ItemsLines, SafeItems;
    match LayoutOf(path, vs, indent)
    case TabularLayout => PlainTable(path, vs, indent);
    case DashedLayout => PlainItems(vs, indent + 1);
    case _ =>
  }

  lemma {:induction false} PlainItems(vs: seq<Value>, indent: nat)
    requires forall i | 0 <= i < |vs| :: Plain(vs[i]) && PlainItem(vs[i])
    ensures SafeItems(vs, indent)
    decreases vs, 0
  {
    hide SafeItem, Plain, PlainItem;
    if vs != [] {
      PlainListItem(vs[0], indent);
      PlainItems(vs[1..], indent);
    }
  }

  lemma {:induction false} PlainListItem(v: Value, indent: nat)
    requires Plain(v) && PlainItem(v)
    ensures SafeItem(v, indent)
    decreases v, 4
  {
    hide SafeArray, SafeEntries, LooksStructured;
    match v
    case Str(s) => ColonlessIsSafe(s);
    case Arr(items) => PlainArray("", items, 0);
    case Obj(es) =>
      if es != [] {
        match es[0].val {
          case Arr(items) => PlainArray(es[0].key, items, 0);
          case Obj(sub) => PlainEntries("", sub, indent + 2);
          case _ =>
        }
        PlainEntries("", es[1..], indent + 1);
      }
    case _ =>
  }

  lemma {:induction false} PlainEntries(prefix: string, es: seq<Entry>, indent: nat)
    requires forall i | 0 <= i < |es| :: es[i].val != Str("{}") && Plain(es[i].val)
    ensures SafeEntries(prefix, es, indent)
    decreases es, 0
  {
    hide SafeProp, Plain;
    if es != [] {
      PlainProp(prefix + es[0].key, es[0].val, indent);
      PlainEntries(prefix, es[1..], indent);
    }
  }

  lemma {:induction false} PlainProp(path: string, v: Value, indent: nat)
    requires v != Str("{}") && Plain(v)
    ensures SafeProp(path, v, indent)
    decreases v, 4
  {
    hide SafeArray, SafeEntries, DotChosen;
    match v
    case Arr(items) => PlainArray(path, items, indent);
    case Obj(es) =>
      PlainEntries(path + ".", es, 0);
      PlainEntries("", es, indent + 1);
    case _ =>
  }

  lemma PlainSurvives(v: Value)
    requires Plain(v)
    requires v.Num? && v.num.Int? ==> -FLOAT_OVERFLOW < v.num.n < FLOAT_OVERFLOW
    ensures Survives(v)
  {
    hide SafeArray, SafeEntries;
    match v
    case Arr(items) => PlainArray("", items, 0);
    case Obj(es) => PlainEntries("", es, 0);
    case _ =>
  }

  // --- The law of the codec ---------------------------------------------------

  /** decode(encode(v)) == v, for every value that can be encoded, exactly when no key ends in a
      line break and the value survives the layouts chosen for it. */
  lemma RoundTripIff(v: Value)
    requires WellFormed(v) && Encodable(v)
    ensures ComesBack(v) <==> NewlineFreeKeys(v) && Survives(v)
  {
    hide ComesBack, Survives, WellFormed, Encodable, Clean, NewlineFreeKeys;
    CleanIff(v);
    if NewlineFreeKeys(v) {
      CleanRoundTrip(v);
    } else if ComesBack(v) {
      BackIsNewlineFree(v);
    }
  }

  lemma BackIsNewlineFree(v: Value)
    requires WellFormed(v) && ComesBack(v)
    ensures NewlineFreeKeys(v)
  {
    hide Decode, EncodedText, Tidy;
    DecodedTidy(EncodedText(v));
    TidyEqual(Decode(EncodedText(v)).value, v);
  }

  lemma {:induction false} TidyEqual(w: Value, v: Value)
    requires Tidy(w) && WellFormed(v) && PyEq(w, v)
    ensures NewlineFreeKeys(v)
    decreases v
  {
    match v
    case Arr(items) =>
      forall i | 0 <= i < |items| ensures NewlineFreeKeys(items[i]) {
        TidyEqual(w.items[i], items[i]);
      }
    case Obj(es) =>
      forall i | 0 <= i < |es| ensures '\n' !in es[i].key && NewlineFreeKeys(es[i].val) {
        assert HasKey(es, es[i].key);
        var j :| 0 <= j < |w.entries| && w.entries[j].key == es[i].key;
        GetAt(es, i);
        TidyEqual(w.entries[j].val, es[i].val);
      }
    case _ =>
  }

  /** The documented fragment: no knowledge of layouts is needed to stay inside it. */
  lemma PlainRoundTrip(v: Value)
    requires WellFormed(v) && Encodable(v) && NewlineFreeKeys(v) && Plain(v)
    requires v.Num? && v.num.Int? ==> -FLOAT_OVERFLOW < v.num.n < FLOAT_OVERFLOW
    ensures ComesBack(v)
  {
    PlainSurvives(v);
    RoundTripIff(v);
  }

  /** A property value "{}" is lost. */
  lemma BracesAreLost(k: string)
    requires IsKey(k)
    ensures !ComesBack(Obj([Entry(k, Str("{}"))]))
  {
    var v := Obj([Entry(k, Str("{}"))]);
    assert forall i | 0 <= i < |k| :: IsKeyChar(k[i]);
    assert "" + k == k;
    assert !SafeProp("" + k, Str("{}"), 0);
    assert !SafeEntries("", v.entries, 0);
    RoundTripIff(v);
  }

  /** A key with a final line break passes validation and is lost. */
  lemma NewlineKeyIsLost(k: string)
    requires IsKey(k)
    ensures Encodable(Obj([Entry(k + "\n", Null)])) && !ComesBack(Obj([Entry(k + "\n", Null)]))
  {
    var key := k + "\n";
    assert key[..|key| - 1] == k && key[|k|] == '\n';
    RoundTripIff(Obj([Entry(key, Null)]));
  }
}
