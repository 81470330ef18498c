// The encoder as it runs: `_encode_*` append to a list of lines and raise on bad keys and
// non-finite numbers. Every method is tied to the line functions of LeanEncode.

module LeanWriter {
  import opened Common
  import opened LeanText
  import opened LeanValue
  import opened LeanScalar
  import opened LeanEncode
  import opened LeanLayout

  /** The `lines` list that the `_encode_*` functions append to. */
  class LineBuffer {
    var lines: seq<Line>

    constructor ()
      ensures lines == []
    {
      lines := [];
    }

    method Append(l: Line)
      modifies this
      ensures lines == old(lines) + [l]
    {
      lines := lines + [l];
    }

    method Extend(ls: seq<Line>)
      modifies this
      ensures lines == old(lines) + ls
    {
      lines := lines + ls;
    }
  }

  predicate EncodableEntries(es: seq<Entry>) {
    forall i | 0 <= i < |es| :: ValidKey(es[i].key) && Encodable(es[i].val)
  }

  predicate EncodableItems(vs: seq<Value>) {
    forall i | 0 <= i < |vs| :: Encodable(vs[i])
  }

  // --- Cells ------------------------------------------------------------------

  lemma ScalarEncodable(v: Value)
    requires IsScalar(v)
    ensures Encodable(v) <==> v != Num(NonFinite)
    ensures Encodable(v) ==> CellText(v) == CellEncode(v)
  {
    hide CellEncode;
  }

  method EncodeFieldCells(es: seq<Entry>, fields: seq<string>) returns (ok: bool, cells: seq<string>)
    requires forall i | 0 <= i < |fields| :: HasKey(es, fields[i]) && IsScalar(Get(es, fields[i]))
    ensures ok == forall i | 0 <= i < |fields| :: Encodable(Get(es, fields[i]))
    ensures ok ==> cells == FieldCells(es, fields)
  {
    hide Encodable, CellText, CellEncode, HasKey, Get;
    cells := [];
    for k := 0 to |fields|
      invariant |cells| == k
      invariant forall i | 0 <= i < k :: Encodable(Get(es, fields[i])) && cells[i] == CellText(Get(es, fields[i]))
    {
      var v := Get(es, fields[k]);
      ScalarEncodable(v);
      if v == Num(NonFinite) {
        assert !Encodable(Get(es, fields[k]));
        return false, cells;
      }
      cells := cells + [CellEncode(v)];
    }
    ok := true;
  }

  method EncodeFlatCells(vs: seq<Value>) returns (ok: bool, cells: seq<string>)
    requires AllScalars(vs)
    ensures ok == EncodableItems(vs)
    ensures ok ==> cells == FlatCells(vs)
  {
    hide Encodable, CellText, CellEncode;
    cells := [];
    for k := 0 to |vs|
      invariant |cells| == k
      invariant forall i | 0 <= i < k :: Encodable(vs[i]) && cells[i] == CellText(vs[i])
    {
      ScalarEncodable(vs[k]);
      if vs[k] == Num(NonFinite) {
        return false, cells;
      }
      cells := cells + [CellEncode(vs[k])];
    }
    ok := true;
  }

  // --- Tables -----------------------------------------------------------------

  lemma {:induction false} EncodableGet(es: seq<Entry>, k: string)
    requires HasKey(es, k) && ScalarRow(Obj(es))
    ensures IsScalar(Get(es, k)) && exists i | 0 <= i < |es| :: es[i].key == k && es[i].val == Get(es, k)
  {
    HasKeyTail(es, k);
    if es[0].key != k {
      EncodableGet(es[1..], k);
      var i :| 0 <= i < |es[1..]| && es[1..][i].key == k && es[1..][i].val == Get(es[1..], k);
      assert es[i + 1].key == k && es[i + 1].val == Get(es, k);
    }
  }

  /** A scalar row with distinct keys is printable exactly when each of its columns is. */
  lemma RowEncodable(es: seq<Entry>, fields: seq<string>)
    requires ScalarRow(Obj(es)) && Distinct(es)
    requires forall k: string :: HasKey(es, k) <==> k in fields
    ensures (forall i | 0 <= i < |es| :: Encodable(es[i].val)) <==> forall i | 0 <= i < |fields| :: Encodable(Get(es, fields[i]))
  {
    if forall i | 0 <= i < |es| :: Encodable(es[i].val) {
      forall i | 0 <= i < |fields| ensures Encodable(Get(es, fields[i])) {
        assert fields[i] in fields;
        EncodableGet(es, fields[i]);
      }
    }
    if forall i | 0 <= i < |fields| :: Encodable(Get(es, fields[i])) {
      forall i | 0 <= i < |es| ensures Encodable(es[i].val) {
        GetAt(es, i);
        assert es[i].key in fields;
      }
    }
  }

  method ValidateKeys(keys: seq<string>) returns (ok: bool)
    ensures ok == forall i | 0 <= i < |keys| :: ValidKey(keys[i])
  {
    for k := 0 to |keys|
      invariant forall i | 0 <= i < k :: ValidKey(keys[i])
    {
      if !ValidKey(keys[k]) {
        return false;
      }
    }
    return true;
  }

  lemma TableRow(vs: seq<Value>, k: nat)
    requires IsTabular(vs) && k < |vs| && WellFormed(Arr(vs))
    requires forall i | 0 <= i < |EntriesOf(vs[0])| :: ValidKey(EntriesOf(vs[0])[i].key)
    ensures var es, fields := EntriesOf(vs[k]), KeyList(EntriesOf(vs[0]));
      && (forall i | 0 <= i < |fields| :: HasKey(es, fields[i]) && IsScalar(Get(es, fields[i])))
      && (Encodable(vs[k]) <==> forall i | 0 <= i < |fields| :: Encodable(Get(es, fields[i])))
  {
    var es, first, fields := EntriesOf(vs[k]), EntriesOf(vs[0]), KeyList(EntriesOf(vs[0]));
    assert WellFormed(vs[k]) && ScalarRow(vs[k]);
    forall key: string ensures HasKey(es, key) <==> key in fields {
      TabularKeys(vs, k, key);
      assert key in fields <==> HasKey(first, key);
    }
    forall i | 0 <= i < |fields| ensures HasKey(es, fields[i]) && IsScalar(Get(es, fields[i])) {
      assert fields[i] in fields;
      EncodableGet(es, fields[i]);
    }
    forall i | 0 <= i < |es| ensures ValidKey(es[i].key) {
      assert HasKey(es, es[i].key);
      assert es[i].key in fields;
    }
    RowEncodable(es, fields);
  }

  method EncodeTableRows(vs: seq<Value>, fields: seq<string>, out: LineBuffer, indent: nat) returns (ok: bool)
    requires IsTabular(vs) && WellFormed(Arr(vs)) && fields == KeyList(EntriesOf(vs[0]))
    requires forall i | 0 <= i < |EntriesOf(vs[0])| :: ValidKey(EntriesOf(vs[0])[i].key)
    modifies out
    ensures ok == EncodableItems(vs)
    ensures ok ==> out.lines == old(out.lines) + RowLines(vs, fields, indent)
  {
    hide IsTabular, WellFormed, TabJoin, Encodable, HasKey, Get, FieldCells, IsScalar, ValidKey, ScalarRow, Distinct;
    for k := 0 to |vs|
      invariant forall i | 0 <= i < k :: Encodable(vs[i])
      invariant out.lines == old(out.lines) + RowLines(vs, fields, indent)[..k]
    {
      TableRow(vs, k);
      var good, cells := EncodeFieldCells(EntriesOf(vs[k]), fields);
      if !good {
        return false;
      }
      out.Append(Line(2 * indent + 2, TabJoin(cells)));
    }
    assert RowLines(vs, fields, indent)[..|vs|] == RowLines(vs, fields, indent);
    ok := true;
  }

  method EncodeTable(path: string, vs: seq<Value>, out: LineBuffer, indent: nat) returns (ok: bool)
    requires IsTabular(vs) && !AllScalars(vs) && WellFormed(Arr(vs))
    modifies out
    ensures ok == EncodableItems(vs)
    ensures ok ==> out.lines == old(out.lines) + ArrayLines(path, vs, indent)
  {
    var fields := KeyList(EntriesOf(vs[0]));
    ok := ValidateKeys(fields);
    if !ok {
      FirstRowInvalid(vs);
      return;
    }
    var header := HeaderLine(path, vs, TabJoin(fields), indent);
    out.Append(header);
    TableUnfold(path, vs, indent);
    LinesAssoc(old(out.lines), header, RowLines(vs, fields, indent));
    ok := EncodeTableRows(vs, fields, out, indent);
  }

  lemma FirstRowInvalid(vs: seq<Value>)
    requires IsTabular(vs) && exists i | 0 <= i < |EntriesOf(vs[0])| :: !ValidKey(KeyList(EntriesOf(vs[0]))[i])
    ensures !EncodableItems(vs)
  {
    assert !Encodable(vs[0]);
  }

  // --- Semi-tables ------------------------------------------------------------

  method EncodeExtras(es: seq<Entry>, shared: seq<string>) returns (ok: bool, cells: seq<string>)
    requires ScalarRow(Obj(es))
    ensures ok == EncodableEntries(Remaining(es, shared))
    ensures ok ==> cells == ExtraCells(Remaining(es, shared))
  {
    hide CellEncode, ValidKey, Encodable, CellText;
    cells := [];
    ghost var done: seq<Entry> := [];
    assert es[0..] == es;
    for k := 0 to |es|
      invariant done + Remaining(es[k..], shared) == Remaining(es, shared)
      invariant EncodableEntries(done) && cells == ExtraCells(done)
    {
      var e := es[k];
      assert es[k..][0] == e && es[k..][1..] == es[k + 1..];
      if e.key !in shared {
        ScalarEncodable(e.val);
        if !ValidKey(e.key) || e.val == Num(NonFinite) {
          assert Remaining(es, shared)[|done|] == e;
          return false, cells;
        }
        cells := cells + [e.key + ":" + CellEncode(e.val)];
        done := done + [e];
      }
    }
    assert es[|es|..] == [];
    assert done + [] == done;
    ok := true;
  }

  /** A row's shared columns are scalars, and a printable row has printable shared and extra cells. */
  lemma SemiRowColumns(v: Value, shared: seq<string>)
    requires ScalarRow(v) && forall j | 0 <= j < |shared| :: HasKey(EntriesOf(v), shared[j])
    ensures forall i | 0 <= i < |shared| :: IsScalar(Get(EntriesOf(v), shared[i]))
    ensures Encodable(v) ==>
      (forall i | 0 <= i < |shared| :: Encodable(Get(EntriesOf(v), shared[i]))) && EncodableEntries(Remaining(EntriesOf(v), shared))
  {
    forall i | 0 <= i < |shared|
      ensures IsScalar(Get(EntriesOf(v), shared[i])) && (Encodable(v) ==> Encodable(Get(EntriesOf(v), shared[i])))
    {
      EncodableGet(EntriesOf(v), shared[i]);
    }
    RemainingIn(EntriesOf(v), shared);
  }

  /** The rows of a semi-table, or a failure on the first bad key or number. */
  method EncodeSemiRows(vs: seq<Value>, shared: seq<string>, out: LineBuffer, indent: nat) returns (ok: bool)
    requires ScalarRows(vs) && forall i, j | 0 <= i < |vs| && 0 <= j < |shared| :: HasKey(EntriesOf(vs[i]), shared[j])
    modifies out
    ensures ok ==> out.lines == old(out.lines) + SemiLines(vs, shared, indent)
    ensures EncodableItems(vs) ==> ok
  {
    hide ScalarRow, Encodable, EncodableEntries, TabJoin, Remaining, IsScalar, ExtraCells, FieldCells, HasKey;
    for k := 0 to |vs|
      invariant out.lines == old(out.lines) + SemiLines(vs, shared, indent)[..k]
    {
      var es := EntriesOf(vs[k]);
      RowIsObject(vs[k]);
      SemiRowColumns(vs[k], shared);
      var good, factored := EncodeFieldCells(es, shared);
      if !good {
        return false;
      }
      var fine, extras := EncodeExtras(es, shared);
      if !fine {
        return false;
      }
      out.Append(Line(2 * indent + 2, TabJoin(factored + extras)));
    }
    assert SemiLines(vs, shared, indent)[..|vs|] == SemiLines(vs, shared, indent);
    ok := true;
  }

  lemma RowIsObject(v: Value)
    requires ScalarRow(v)
    ensures ScalarRow(Obj(EntriesOf(v)))
  {
  }

  lemma {:induction false} RemainingIn(es: seq<Entry>, shared: seq<string>)
    ensures forall i | 0 <= i < |Remaining(es, shared)| :: Remaining(es, shared)[i] in es
  {
    if es != [] {
      RemainingIn(es[1..], shared);
    }
  }

  lemma {:induction false} SharedIn(es: seq<Entry>, vs: seq<Value>)
    ensures forall j | 0 <= j < |SharedKeys(es, vs)| ::
      AllHaveKey(vs, SharedKeys(es, vs)[j]) && HasKey(es, SharedKeys(es, vs)[j])
  {
    if es != [] {
      SharedIn(es[1..], vs);
      forall j | 0 <= j < |SharedKeys(es, vs)|
        ensures AllHaveKey(vs, SharedKeys(es, vs)[j]) && HasKey(es, SharedKeys(es, vs)[j])
      {
        HasKeyTail(es, SharedKeys(es, vs)[j]);
      }
    }
  }

  lemma LinesAssoc(a: seq<Line>, l: Line, b: seq<Line>)
    ensures a + [l] + b == a + ([l] + b)
  {
  }

  // --- The recursive encoder --------------------------------------------------

  method EncodeArrayValue(path: string, vs: seq<Value>, out: LineBuffer, indent: nat) returns (ok: bool)
    requires WellFormed(Arr(vs))
    modifies out
    ensures ok == EncodableItems(vs)
    ensures ok ==> out.lines == old(out.lines) + ArrayLines(path, vs, indent)
    decreases vs, 3
  {
    hide WellFormed, AllScalars, IsTabular, Shared, ScalarRows, ArrayLines, ItemsLines, TabJoin, HeaderLine;
    if vs == [] {
      EmptyUnfold(path, indent);
      out.Append(HeaderLine(path, vs, "", indent));
      return true;
    }
    if AllScalars(vs) {
      var good, cells := EncodeFlatCells(vs);
      if good {
        FlatUnfold(path, vs, indent);
        out.Append(HeaderLine(path, vs, TabJoin(cells), indent));
      }
      return good;
    }
    if IsTabular(vs) {
      ok := EncodeTable(path, vs, out, indent);
      return;
    }
    if |vs| >= 2 && ScalarRows(vs) && Shared(vs) != [] {
      ok := EncodeSemiOrDashed(path, vs, out, indent);
      return;
    }
    out.Append(HeaderLine(path, vs, "", indent));
    DashedUnfold(path, vs, indent);
    LinesAssoc(old(out.lines), HeaderLine(path, vs, "", indent), ItemsLines(vs, indent + 1));
    ok := EncodeItems(vs, out, indent + 1);
  }

  lemma SharedValid(vs: seq<Value>)
    requires vs != [] && ScalarRows(vs)
    ensures forall i, j | 0 <= i < |vs| && 0 <= j < |Shared(vs)| :: HasKey(EntriesOf(vs[i]), Shared(vs)[j])
    ensures (exists j | 0 <= j < |Shared(vs)| :: !ValidKey(Shared(vs)[j])) ==> !EncodableItems(vs)
  {
    SharedIn(EntriesOf(vs[0]), vs);
    forall i, j | 0 <= i < |vs| && 0 <= j < |Shared(vs)| ensures HasKey(EntriesOf(vs[i]), Shared(vs)[j]) {
      assert AllHaveKey(vs, Shared(vs)[j]);
    }
    if j :| 0 <= j < |Shared(vs)| && !ValidKey(Shared(vs)[j]) {
      assert HasKey(EntriesOf(vs[0]), Shared(vs)[j]);
      assert !Encodable(vs[0]);
    }
  }

  method EncodeSemi(path: string, vs: seq<Value>, indent: nat) returns (ok: bool, semi: seq<Line>)
    requires vs != [] && ScalarRows(vs)
    ensures EncodableItems(vs) ==> ok
    ensures ok ==> semi == [HeaderLine(path, vs, TabJoin(Shared(vs)) + "\t~", indent)] + SemiLines(vs, Shared(vs), indent)
  {
    hide Shared, SemiLines, TabJoin, HeaderLine, ScalarRows, EncodableItems;
    var shared := Shared(vs);
    semi := [];
    SharedValid(vs);
    ok := ValidateKeys(shared);
    if ok {
      var buffer := new LineBuffer();
      buffer.Append(HeaderLine(path, vs, TabJoin(shared) + "\t~", indent));
      ok := EncodeSemiRows(vs, shared, buffer, indent);
      semi := buffer.lines;
    }
  }

  method EncodeSemiOrDashed(path: string, vs: seq<Value>, out: LineBuffer, indent: nat) returns (ok: bool)
    requires WellFormed(Arr(vs)) && !AllScalars(vs) && !IsTabular(vs)
    requires |vs| >= 2 && ScalarRows(vs) && Shared(vs) != []
    modifies out
    ensures ok == EncodableItems(vs)
    ensures ok ==> out.lines == old(out.lines) + ArrayLines(path, vs, indent)
    decreases vs, 2
  {
    hide WellFormed, AllScalars, IsTabular, Shared, ScalarRows, ArrayLines, EncodableItems, SemiLines, ItemsLines, TabJoin,
      HeaderLine, Cost;
    SemiUnfold(path, vs, indent);
    var semi;
    ok, semi := EncodeSemi(path, vs, indent);
    if !ok {
      return;
    }
    var dashed := new LineBuffer();
    dashed.Append(HeaderLine(path, vs, "", indent));
    ok := EncodeItems(vs, dashed, indent + 1);
    if !ok {
      return;
    }
    assert dashed.lines == [HeaderLine(path, vs, "", indent)] + ItemsLines(vs, indent + 1);
    if Cost(semi) < Cost(dashed.lines) {
      out.Extend(semi);
    } else {
      out.Extend(dashed.lines);
    }
  }

  method EncodeItems(vs: seq<Value>, out: LineBuffer, indent: nat) returns (ok: bool)
    requires WellFormed(Arr(vs))
    modifies out
    ensures ok == EncodableItems(vs)
    ensures ok ==> out.lines == old(out.lines) + ItemsLines(vs, indent)
    decreases vs, 1
  {
    hide Encodable, ItemLines;
    assert vs[0..] == vs;
    for k := 0 to |vs|
      invariant forall i | 0 <= i < k :: Encodable(vs[i])
      invariant out.lines + ItemsLines(vs[k..], indent) == old(out.lines) + ItemsLines(vs, indent)
    {
      ghost var before := out.lines;
      assert vs[k..][0] == vs[k] && vs[k..][1..] == vs[k + 1..];
      ok := EncodeListItem(vs[k], out, indent);
      if !ok {
        return;
      }
      assert before + ItemLines(vs[k], indent) + ItemsLines(vs[k + 1..], indent)
          == before + (ItemLines(vs[k], indent) + ItemsLines(vs[k + 1..], indent));
    }
    assert vs[|vs|..] == [] && out.lines + [] == out.lines;
    ok := true;
  }

  method EncodeEntries(prefix: string, es: seq<Entry>, out: LineBuffer, indent: nat) returns (ok: bool)
    requires WellFormed(Obj(es))
    modifies out
    ensures ok == EncodableEntries(es)
    ensures ok ==> out.lines == old(out.lines) + EntriesLines(prefix, es, indent)
    decreases es, 0
  {
    hide Encodable, PropLines, ValidKey;
    assert es[0..] == es;
    for k := 0 to |es|
      invariant forall i | 0 <= i < k :: ValidKey(es[i].key) && Encodable(es[i].val)
      invariant out.lines + EntriesLines(prefix, es[k..], indent) == old(out.lines) + EntriesLines(prefix, es, indent)
    {
      ghost var before := out.lines;
      assert es[k..][0] == es[k] && es[k..][1..] == es[k + 1..];
      if !ValidKey(es[k].key) {
        return false;
      }
      ok := EncodeProperty(prefix + es[k].key, es[k].val, out, indent);
      if !ok {
        return;
      }
      assert before + PropLines(prefix + es[k].key, es[k].val, indent) + EntriesLines(prefix, es[k + 1..], indent)
          == before + (PropLines(prefix + es[k].key, es[k].val, indent) + EntriesLines(prefix, es[k + 1..], indent));
    }
    assert es[|es|..] == [] && out.lines + [] == out.lines;
    ok := true;
  }

  /** The two spellings of an object at the margin: the shorter one is printed, dotted on a tie. */
  method EncodeTopObject(path: string, es: seq<Entry>, out: LineBuffer) returns (ok: bool)
    requires es != [] && WellFormed(Obj(es))
    modifies out
    ensures ok == Encodable(Obj(es))
    ensures ok ==> out.lines == old(out.lines) + PropLines(path, Obj(es), 0)
    decreases Obj(es), 3
  {
    hide EntriesLines, PropLines, Cost, ValidKey;
    ObjectUnfold(path, es);
    var dots := new LineBuffer();
    ok := EncodeEntries(path + ".", es, dots, 0);
    if !ok {
      return;
    }
    var block := new LineBuffer();
    block.Append(Line(0, path + ":"));
    ok := EncodeEntries("", es, block, 1);
    assert ok ==> dots.lines == EntriesLines(path + ".", es, 0);
    assert ok ==> block.lines == [Line(0, path + ":")] + EntriesLines("", es, 1);
    if Cost(dots.lines) <= Cost(block.lines) {
      out.Extend(dots.lines);
    } else {
      out.Extend(block.lines);
    }
  }

  method EncodeProperty(path: string, v: Value, out: LineBuffer, indent: nat) returns (ok: bool)
    requires WellFormed(v)
    modifies out
    ensures ok == Encodable(v)
    ensures ok ==> out.lines == old(out.lines) + PropLines(path, v, indent)
    decreases v, 4
  {
    match v
    case Arr(items) => ok := EncodeArrayValue(path, items, out, indent);
    case Obj(es) =>
      if es == [] {
        out.Append(Line(2 * indent, path + ":{}"));
        ok := true;
      } else if indent == 0 {
        ok := EncodeTopObject(path, es, out);
      } else {
        out.Append(Line(2 * indent, path + ":"));
        LinesAssoc(old(out.lines), Line(2 * indent, path + ":"), EntriesLines("", es, indent + 1));
        ok := EncodeEntries("", es, out, indent + 1);
      }
    case _ =>
      ok := v != Num(NonFinite);
      if ok {
        out.Append(Line(2 * indent, path + ":" + EncodePrimitive(v)));
      }
  }

  /** Copy a nested array's lines under a dash. */
  method AppendDashed(sub: seq<Line>, out: LineBuffer, indent: nat)
    requires sub != []
    modifies out
    ensures out.lines == old(out.lines) + Dash(sub, indent)
  {
    out.Append(Line(2 * indent, "- " + sub[0].content));
    for k := 1 to |sub|
      invariant out.lines == old(out.lines) + Dash(sub, indent)[..k]
    {
      out.Append(Line(2 * indent + 2 + sub[k].ind, sub[k].content));
      assert Dash(sub, indent)[k] == Line(2 * indent + 2 + sub[k].ind, sub[k].content);
    }
    assert Dash(sub, indent)[..|sub|] == Dash(sub, indent);
  }

  method EncodeDashedArray(key: string, items: seq<Value>, out: LineBuffer, indent: nat) returns (ok: bool)
    requires WellFormed(Arr(items))
    modifies out
    ensures ok == EncodableItems(items)
    ensures ok ==> out.lines == old(out.lines) + Dash(ArrayLines(key, items, 0), indent)
    decreases items, 4
  {
    hide WellFormed, EncodableItems, Dash;
    var sub := new LineBuffer();
    ok := EncodeArrayValue(key, items, sub, 0);
    if ok {
      assert sub.lines == ArrayLines(key, items, 0);
      AppendDashed(sub.lines, out, indent);
    }
  }

  method EncodeFirst(e: Entry, out: LineBuffer, indent: nat) returns (ok: bool)
    requires WellFormed(e.val)
    modifies out
    ensures ok == Encodable(e.val)
    ensures ok ==> out.lines == old(out.lines) + FirstLines(e, indent)
    decreases e, 0
  {
    hide ArrayLines, EntriesLines, Dash;
    match e.val
    case Arr(items) => ok := EncodeDashedArray(e.key, items, out, indent);
    case Obj(es) =>
      if es == [] {
        out.Append(Line(2 * indent, "- " + e.key + ":{}"));
        ok := true;
      } else {
        out.Append(Line(2 * indent, "- " + e.key + ":"));
        LinesAssoc(old(out.lines), Line(2 * indent, "- " + e.key + ":"), EntriesLines("", es, indent + 2));
        ok := EncodeEntries("", es, out, indent + 2);
      }
    case _ =>
      ok := e.val != Num(NonFinite);
      if ok {
        out.Append(Line(2 * indent, "- " + e.key + ":" + EncodePrimitive(e.val)));
      }
  }

  lemma TailWellFormed(es: seq<Entry>)
    requires es != [] && WellFormed(Obj(es))
    ensures WellFormed(es[0].val) && WellFormed(Obj(es[1..]))
    ensures Encodable(Obj(es)) <==> ValidKey(es[0].key) && Encodable(es[0].val) && EncodableEntries(es[1..])
  {
    assert forall i | 0 <= i < |es[1..]| :: es[1..][i] == es[i + 1];
    assert forall i | 1 <= i < |es| :: es[i] == es[1..][i - 1];
  }

  method EncodeDashedObject(es: seq<Entry>, out: LineBuffer, indent: nat) returns (ok: bool)
    requires es != [] && WellFormed(Obj(es))
    modifies out
    ensures ok == Encodable(Obj(es))
    ensures ok ==> out.lines == old(out.lines) + (FirstLines(es[0], indent) + EntriesLines("", es[1..], indent + 1))
    decreases es, 1
  {
    hide FirstLines, EntriesLines, WellFormed, Encodable, EncodableEntries, ValidKey;
    TailWellFormed(es);
    ok := ValidKey(es[0].key);
    if !ok {
      return;
    }
    ok := EncodeFirst(es[0], out, indent);
    if !ok {
      return;
    }
    ok := EncodeEntries("", es[1..], out, indent + 1);
  }

  method EncodeListItem(v: Value, out: LineBuffer, indent: nat) returns (ok: bool)
    requires WellFormed(v)
    modifies out
    ensures ok == Encodable(v)
    ensures ok ==> out.lines == old(out.lines) + ItemLines(v, indent)
    decreases v, 4
  {
    hide FirstLines, EntriesLines, ArrayLines, Dash;
    match v
    case Arr(items) => ok := EncodeDashedArray("", items, out, indent);
    case Obj(es) =>
      if es == [] {
        out.Append(Line(2 * indent, "- {}"));
        return true;
      }
      ok := EncodeDashedObject(es, out, indent);
    case _ =>
      ok := v != Num(NonFinite);
      if ok {
        out.Append(Line(2 * indent, "- " + EncodePrimitive(v)));
      }
  }

  /** `encode`: None is the ValueError it raises. */
  method Encode(v: Value) returns (r: Option<string>)
    requires WellFormed(v)
    ensures r == if Encodable(v) then Some(EncodedText(v)) else None
    ensures r.Some? && v.Obj? && v.entries != [] ==> r.value == JoinWith(Parts(v.entries), '\n')
    ensures v.Obj? ==> forall i | 0 <= i < |v.entries| && v.entries[i].val.Obj? && v.entries[i].val.entries != [] ::
      var path, es := v.entries[i].key, v.entries[i].val.entries;
      Parts(v.entries)[i] == ShorterOf(DottedText(path, es), BlockText(path, es))
  {
    hide PropLines, EntriesLines, ArrayLines, LinesText, ShorterOf, DottedText, BlockText;
    if v.Obj? {
      PartsAreShort(v.entries);
      if v.entries != [] {
        EntriesPrinted(v.entries);
      }
    }
    match v
    case Str(s) => r := Some(EncodeScalar(s, true));
    case Arr(items) =>
      var out := new LineBuffer();
      var ok := EncodeArrayValue("", items, out, 0);
      assert ok ==> out.lines == ArrayLines("", items, 0);
      r := if ok then Some(LinesText(out.lines)) else None;
    case Obj(es) =>
      if es == [] {
        return Some("{}");
      }
      var out := new LineBuffer();
      var ok := EncodeEntries("", es, out, 0);
      assert ok ==> out.lines == EntriesLines("", es, 0);
      r := if ok then Some(LinesText(out.lines)) else None;
    case _ => r := if v == Num(NonFinite) then None else Some(EncodePrimitive(v));
  }
}
