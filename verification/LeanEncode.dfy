// The LEAN encoder: scripts/lean_format.py:208-428. The functions say which lines each value
// prints as; LeanWriter appends those lines as the encoder does.

module LeanEncode {
  import opened Common
  import opened LeanText
  import opened LeanValue
  import opened LeanScalar

  /** A physical line: `ind` blanks, then `content`. */
  datatype Line = Line(ind: nat, content: string)

  datatype Layout = EmptyLayout | FlatLayout | TabularLayout | SemiTabularLayout | DashedLayout

  // --- Keys and what can be encoded -------------------------------------------

  /** KEY_REGEX, whose `$` also matches before one final line break. */
  predicate ValidKey(k: string) {
    IsKey(k) || (k != "" && k[|k| - 1] == '\n' && IsKey(k[..|k| - 1]))
  }

  /** Values for which `encode` raises no ValueError. */
  predicate Encodable(v: Value) {
    match v
    case Arr(items) => forall i | 0 <= i < |items| :: Encodable(items[i])
    case Obj(es) => forall i | 0 <= i < |es| :: ValidKey(es[i].key) && Encodable(es[i].val)
    case _ => v != Num(NonFinite)
  }

  // --- Small pieces -----------------------------------------------------------

  function PrimText(v: Value): string {
    if Printable(v) then EncodePrimitive(v) else ""
  }

  function CellText(v: Value): string {
    if Printable(v) then CellEncode(v) else ""
  }

  function TabJoin(parts: seq<string>): string {
    if parts == [] then "" else JoinWith(parts, '\t')
  }

  function Cost(ls: seq<Line>): nat {
    if ls == [] then 0 else ls[0].ind + |ls[0].content| + 1 + Cost(ls[1..])
  }

  function Shift(ls: seq<Line>, k: nat): (r: seq<Line>)
    ensures |r| == |ls|
    ensures forall i | 0 <= i < |ls| :: r[i] == Line(ls[i].ind + k, ls[i].content)
  {
    seq(|ls|, i requires 0 <= i < |ls| => Line(ls[i].ind + k, ls[i].content))
  }

  function EntriesOf(v: Value): seq<Entry> {
    if v.Obj? then v.entries else []
  }

  predicate AllScalars(vs: seq<Value>) {
    forall i | 0 <= i < |vs| :: IsScalar(vs[i])
  }

  predicate ScalarRow(v: Value) {
    v.Obj? && forall i | 0 <= i < |v.entries| :: IsScalar(v.entries[i].val)
  }

  predicate ScalarRows(vs: seq<Value>) {
    forall i | 0 <= i < |vs| :: ScalarRow(vs[i])
  }

  /** `_is_tabular_array`: rows with equal sorted key lists and scalar values. */
  predicate IsTabular(vs: seq<Value>) {
    && vs != []
    && ScalarRows(vs)
    && forall i | 0 <= i < |vs| ::
         multiset(KeyList(EntriesOf(vs[i]))) == multiset(KeyList(EntriesOf(vs[0])))
  }

  predicate AllHaveKey(vs: seq<Value>, k: string) {
    forall i | 0 <= i < |vs| :: HasKey(EntriesOf(vs[i]), k)
  }

  /** The keys of the first row, in order, that every row has. */
  function SharedKeys(es: seq<Entry>, vs: seq<Value>): seq<string> {
    if es == [] then []
    else (if AllHaveKey(vs, es[0].key) then [es[0].key] else []) + SharedKeys(es[1..], vs)
  }

  function Shared(vs: seq<Value>): seq<string> {
    if vs == [] then [] else SharedKeys(EntriesOf(vs[0]), vs)
  }

  /** The entries outside the shared columns, in the row's own order. */
  function Remaining(es: seq<Entry>, shared: seq<string>): seq<Entry> {
    if es == [] then []
    else (if es[0].key in shared then [] else [es[0]]) + Remaining(es[1..], shared)
  }

  function FieldCells(es: seq<Entry>, fields: seq<string>): (cells: seq<string>)
    ensures |cells| == |fields|
    ensures forall i | 0 <= i < |fields| :: cells[i] == CellText(Get(es, fields[i]))
  {
    seq(|fields|, i requires 0 <= i < |fields| => CellText(Get(es, fields[i])))
  }

  function ExtraCells(es: seq<Entry>): (cells: seq<string>)
    ensures |cells| == |es|
    ensures forall i | 0 <= i < |es| :: cells[i] == es[i].key + ":" + CellText(es[i].val)
  {
    seq(|es|, i requires 0 <= i < |es| => es[i].key + ":" + CellText(es[i].val))
  }

  function SemiCells(es: seq<Entry>, shared: seq<string>): seq<string> {
    FieldCells(es, shared) + ExtraCells(Remaining(es, shared))
  }

  function RowLines(vs: seq<Value>, fields: seq<string>, indent: nat): (ls: seq<Line>)
    ensures |ls| == |vs|
    ensures forall i | 0 <= i < |vs| ::
      ls[i] == Line(2 * indent + 2, TabJoin(FieldCells(EntriesOf(vs[i]), fields)))
  {
    seq(|vs|, i requires 0 <= i < |vs| => Line(2 * indent + 2, TabJoin(FieldCells(EntriesOf(vs[i]), fields))))
  }

  function SemiLines(vs: seq<Value>, shared: seq<string>, indent: nat): (ls: seq<Line>)
    ensures |ls| == |vs|
    ensures forall i | 0 <= i < |vs| ::
      ls[i] == Line(2 * indent + 2, TabJoin(SemiCells(EntriesOf(vs[i]), shared)))
  {
    seq(|vs|, i requires 0 <= i < |vs| => Line(2 * indent + 2, TabJoin(SemiCells(EntriesOf(vs[i]), shared))))
  }

  function HeaderText(path: string, n: nat, tail: string): string {
    path + "[" + NatText(n) + "]:" + tail
  }

  function HeaderLine(path: string, vs: seq<Value>, tail: string, indent: nat): Line {
    Line(2 * indent, HeaderText(path, |vs|, tail))
  }

  // --- Which lines a value prints as ------------------------------------------

  function LayoutOf(path: string, vs: seq<Value>, indent: nat): Layout
    decreases vs, 1
  {
    if vs == [] then EmptyLayout
    else if AllScalars(vs) then FlatLayout
    else if IsTabular(vs) then TabularLayout
    else if |vs| >= 2 && ScalarRows(vs) && Shared(vs) != [] then
      var semi := [HeaderLine(path, vs, TabJoin(Shared(vs)) + "\t~", indent)] + SemiLines(vs, Shared(vs), indent);
      var dashed := [HeaderLine(path, vs, "", indent)] + ItemsLines(vs, indent + 1);
      if Cost(semi) < Cost(dashed) then SemiTabularLayout else DashedLayout
    else DashedLayout
  }

  function ArrayTail(path: string, vs: seq<Value>, indent: nat): string
    decreases vs, 2
  {
    match LayoutOf(path, vs, indent)
    case EmptyLayout => ""
    case FlatLayout => TabJoin(FlatCells(vs))
    case TabularLayout => TabJoin(KeyList(EntriesOf(vs[0])))
    case SemiTabularLayout => TabJoin(Shared(vs)) + "\t~"
    case DashedLayout => ""
  }

  function FlatCells(vs: seq<Value>): (cells: seq<string>)
    ensures |cells| == |vs|
    ensures forall i | 0 <= i < |vs| :: cells[i] == CellText(vs[i])
  {
    seq(|vs|, i requires 0 <= i < |vs| => CellText(vs[i]))
  }

  function ArrayBody(path: string, vs: seq<Value>, indent: nat): seq<Line>
    decreases vs, 2
  {
    match LayoutOf(path, vs, indent)
    case EmptyLayout => []
    case FlatLayout => []
    case TabularLayout => RowLines(vs, KeyList(EntriesOf(vs[0])), indent)
    case SemiTabularLayout => SemiLines(vs, Shared(vs), indent)
    case DashedLayout => ItemsLines(vs, indent + 1)
  }

  /** `_encode_array_value` */
  function ArrayLines(path: string, vs: seq<Value>, indent: nat): seq<Line>
    decreases vs, 3
  {
    [HeaderLine(path, vs, ArrayTail(path, vs, indent), indent)] + ArrayBody(path, vs, indent)
  }

  /** Whether an object at the left margin is written as dotted paths rather than as a block. */
  predicate DotChosen(path: string, es: seq<Entry>)
    decreases es, 1
  {
    Cost(EntriesLines(path + ".", es, 0)) <= Cost([Line(0, path + ":")] + EntriesLines("", es, 1))
  }

  /** `_encode_property` */
  function PropLines(path: string, v: Value, indent: nat): seq<Line>
    decreases v, 4
  {
    match v
    case Arr(items) => ArrayLines(path, items, indent)
    case Obj(es) =>
      if es == [] then [Line(2 * indent, path + ":{}")]
      else if indent == 0 && DotChosen(path, es) then EntriesLines(path + ".", es, 0)
      else [Line(2 * indent, path + ":")] + EntriesLines("", es, indent + 1)
    case _ => [Line(2 * indent, path + ":" + PrimText(v))]
  }

  function EntriesLines(prefix: string, es: seq<Entry>, indent: nat): seq<Line>
    decreases es, 0
  {
    if es == [] then []
    else PropLines(prefix + es[0].key, es[0].val, indent) + EntriesLines(prefix, es[1..], indent)
  }

  /** A nested array hung under a dash. */
  function Dash(sub: seq<Line>, indent: nat): seq<Line>
    requires sub != []
  {
    [Line(2 * indent, "- " + sub[0].content)] + Shift(sub[1..], 2 * indent + 2)
  }

  function FirstLines(e: Entry, indent: nat): seq<Line>
    decreases e, 0
  {
    match e.val
    case Arr(items) => Dash(ArrayLines(e.key, items, 0), indent)
    case Obj(sub) =>
      if sub == [] then [Line(2 * indent, "- " + e.key + ":{}")]
      else [Line(2 * indent, "- " + e.key + ":")] + EntriesLines("", sub, indent + 2)
    case _ => [Line(2 * indent, "- " + e.key + ":" + PrimText(e.val))]
  }

  /** `_encode_list_item` */
  function ItemLines(v: Value, indent: nat): seq<Line>
    decreases v, 4
  {
    match v
    case Arr(items) => Dash(ArrayLines("", items, 0), indent)
    case Obj(es) =>
      if es == [] then [Line(2 * indent, "- {}")]
      else FirstLines(es[0], indent) + EntriesLines("", es[1..], indent + 1)
    case _ => [Line(2 * indent, "- " + PrimText(v))]
  }

  function ItemsLines(vs: seq<Value>, indent: nat): seq<Line>
    decreases vs, 0
  {
    if vs == [] then [] else ItemLines(vs[0], indent) + ItemsLines(vs[1..], indent)
  }

  // --- Text -------------------------------------------------------------------

  function Blanks(n: nat): (s: string)
    ensures |s| == n && forall i | 0 <= i < n :: s[i] == ' '
  {
    seq(n, _ => ' ')
  }

  function Render(l: Line): string {
    Blanks(l.ind) + l.content
  }

  function RenderAll(ls: seq<Line>): (texts: seq<string>)
    ensures |texts| == |ls|
    ensures forall i | 0 <= i < |ls| :: texts[i] == Render(ls[i])
  {
    seq(|ls|, i requires 0 <= i < |ls| => Render(ls[i]))
  }

  function LinesText(ls: seq<Line>): string {
    if ls == [] then "" else JoinWith(RenderAll(ls), '\n')
  }

  /** `encode` for a value that raises nothing. */
  function EncodedText(v: Value): string {
    match v
    case Str(s) => EncodeScalar(s, true)
    case Arr(items) => LinesText(ArrayLines("", items, 0))
    case Obj(es) => if es == [] then "{}" else LinesText(EntriesLines("", es, 0))
    case _ => PrimText(v)
  }

  lemma TabularKeys(vs: seq<Value>, i: nat, k: string)
    requires IsTabular(vs) && i < |vs|
    ensures HasKey(EntriesOf(vs[i]), k) <==> HasKey(EntriesOf(vs[0]), k)
  {
    var a, b := KeyList(EntriesOf(vs[i])), KeyList(EntriesOf(vs[0]));
    assert k in multiset(a) <==> k in multiset(b);
    assert k in a <==> HasKey(EntriesOf(vs[i]), k);
    assert k in b <==> HasKey(EntriesOf(vs[0]), k);
  }
}
