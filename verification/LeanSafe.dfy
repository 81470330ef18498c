// Which values survive the trip through LEAN text, layout by layout.

module LeanSafe {
  import opened Common
  import opened LeanText
  import opened LeanValue
  import opened LeanScalar
  import opened LeanEncode
  import opened LeanDecode

  /** Finite numbers, distinct keys, and keys that KEY_REGEX accepts without a line break. */
  predicate Clean(v: Value) {
    match v
    case Arr(items) => forall i | 0 <= i < |items| :: Clean(items[i])
    case Obj(es) => Distinct(es) && forall i | 0 <= i < |es| :: IsKey(es[i].key) && Clean(es[i].val)
    case _ => v != Num(NonFinite)
  }

  predicate NewlineFreeKeys(v: Value) {
    match v
    case Arr(items) => forall i | 0 <= i < |items| :: NewlineFreeKeys(items[i])
    case Obj(es) => forall i | 0 <= i < |es| :: '\n' !in es[i].key && NewlineFreeKeys(es[i].val)
    case _ => true
  }

  lemma {:induction false} CleanIff(v: Value)
    ensures Clean(v) <==> WellFormed(v) && Encodable(v) && NewlineFreeKeys(v)
  {
    match v
    case Arr(items) =>
      forall i | 0 <= i < |items|
        ensures Clean(items[i]) <==> WellFormed(items[i]) && Encodable(items[i]) && NewlineFreeKeys(items[i])
      {
        CleanIff(items[i]);
      }
    case Obj(es) =>
      forall i | 0 <= i < |es|
        ensures Clean(es[i].val) <==> WellFormed(es[i].val) && Encodable(es[i].val) && NewlineFreeKeys(es[i].val)
        ensures IsKey(es[i].key) <==> ValidKey(es[i].key) && '\n' !in es[i].key
      {
        CleanIff(es[i].val);
        var k := es[i].key;
        if IsKey(k) {
          assert forall j | 0 <= j < |k| :: IsKeyChar(k[j]);
        }
      }
    case _ =>
  }

  /** A bare dashed string that one of the other list-item patterns claims first. */
  predicate LooksStructured(s: string) {
    s == "{}" || RootHead(s).ArrayHead? || IsObjectItem(s)
  }

  /** Does the value printed after `path` come back? */
  predicate SafeProp(path: string, v: Value, indent: nat)
    decreases v, 4
  {
    match v
    case Str(s) => s != "{}"
    case Arr(items) => SafeArray(path, items, indent)
    case Obj(es) =>
      es == [] ||
      (if indent == 0 && DotChosen(path, es) then SafeEntries(path + ".", es, 0)
       else SafeEntries("", es, indent + 1))
    case _ => true
  }

  predicate SafeEntries(prefix: string, es: seq<Entry>, indent: nat)
    decreases es, 0
  {
    es == [] || (SafeProp(prefix + es[0].key, es[0].val, indent) && SafeEntries(prefix, es[1..], indent))
  }

  predicate SafeArray(path: string, vs: seq<Value>, indent: nat)
    decreases vs, 3
  {
    match LayoutOf(path, vs, indent)
    case TabularLayout => EntriesOf(vs[0]) != []
    case DashedLayout => SafeItems(vs, indent + 1)
    case _ => true
  }

  /** The value under the first key of a dashed object. */
  predicate SafeFirst(e: Entry, indent: nat)
    decreases e, 0
  {
    match e.val
    case Str(s) => s != "{}"
    case Arr(items) => (items == [] || !AllScalars(items)) && SafeArray(e.key, items, 0)
    case Obj(sub) => SafeEntries("", sub, indent + 2)
    case _ => true
  }

  predicate SafeItem(v: Value, indent: nat)
    decreases v, 4
  {
    match v
    case Str(s) => NeedsQuoting(s) || !LooksStructured(s)
    case Arr(items) => SafeArray("", items, 0)
    case Obj(es) => es == [] || (SafeFirst(es[0], indent) && SafeEntries("", es[1..], indent + 1))
    case _ => true
  }

  predicate SafeItems(vs: seq<Value>, indent: nat)
    decreases vs, 0
  {
    vs == [] || (SafeItem(vs[0], indent) && SafeItems(vs[1..], indent))
  }

  /** Exactly the values that decode to themselves. */
  predicate Survives(v: Value) {
    match v
    case Num(num) => num.Int? ==> -FLOAT_OVERFLOW < num.n < FLOAT_OVERFLOW
    case Arr(items) => SafeArray("", items, 0)
    case Obj(es) => SafeEntries("", es, 0)
    case _ => true
  }
}
