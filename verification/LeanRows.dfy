// Tables and semi-tables read back row by row.

module LeanRows {
  import opened Common
  import opened LeanText
  import opened LeanValue
  import opened LeanScalar
  import opened LeanEncode
  import opened LeanDecode
  import opened LeanSafe
  import opened LeanHeads

  lemma PrintableClean(v: Value)
    requires Clean(v) && IsScalar(v)
    ensures Printable(v) && CellText(v) == CellEncode(v) && PrimText(v) == EncodePrimitive(v) && PyEq(v, v)
  {
  }

  // --- Keys of a row ----------------------------------------------------------

  ghost predicate HasFields(es: seq<Entry>, fields: seq<string>) {
    forall k: string :: HasKey(es, k) <==> k in fields
  }

  lemma {:induction false} GetClean(es: seq<Entry>, k: string)
    requires HasKey(es, k)
    requires forall i | 0 <= i < |es| :: Clean(es[i].val) && IsScalar(es[i].val)
    ensures Printable(Get(es, k)) && Clean(Get(es, k))
  {
    HasKeyTail(es, k);
    if es[0].key != k {
      GetClean(es[1..], k);
    }
  }

  ghost predicate CleanRow(v: Value) {
    Clean(v) && ScalarRow(v)
  }

  function Gets(es: seq<Entry>, fields: seq<string>): (vs: seq<Value>)
    ensures |vs| == |fields|
    ensures forall i | 0 <= i < |fields| :: vs[i] == Get(es, fields[i])
  {
    seq(|fields|, i requires 0 <= i < |fields| => Get(es, fields[i]))
  }

  lemma FieldValues(es: seq<Entry>, fields: seq<string>)
    requires CleanRow(Obj(es))
    requires forall i | 0 <= i < |fields| :: HasKey(es, fields[i])
    ensures forall i | 0 <= i < |fields| :: Printable(Gets(es, fields)[i])
    ensures FieldCells(es, fields) == EncodeCells(Gets(es, fields))
  {
    forall i | 0 <= i < |fields| ensures Printable(Get(es, fields[i])) {
      GetClean(es, fields[i]);
    }
  }

  lemma ZipKeys(fields: seq<string>, vs: seq<Value>, k: string)
    requires |fields| <= |vs|
    ensures HasKey(Zip(fields, vs), k) <==> k in fields
  {
    var z := Zip(fields, vs);
    if k in fields {
      var i :| 0 <= i < |fields| && fields[i] == k;
      assert z[i].key == k;
    }
  }

  // --- Tables -----------------------------------------------------------------

  lemma TabularRecord(es: seq<Entry>, fields: seq<string>)
    requires CleanRow(Obj(es)) && HasFields(es, fields) && fields != []
    ensures IsToken(TabJoin(FieldCells(es, fields)))
    ensures var r := ParseRecord(TabJoin(FieldCells(es, fields)), fields, false);
            r.Ok? && PyEq(r.value, Obj(es))
  {
    assert forall i | 0 <= i < |fields| :: fields[i] in fields;
    FieldValues(es, fields);
    var vs := Gets(es, fields);
    RowRoundTrip(vs);
    forall i | 0 <= i < |vs| ensures IsToken(CellEncode(vs[i])) {
      CellRoundTrip(vs[i]);
    }
    JoinedTokens(EncodeCells(vs), '\t');
    var z := Zip(fields, vs);
    forall k: string ensures HasKey(z, k) <==> HasKey(es, k) {
      ZipKeys(fields, vs, k);
    }
    forall i | 0 <= i < |z| ensures PyEq(z[i].val, Get(es, z[i].key)) {
      PrintableEq(vs[i]);
    }
  }

  lemma PrintableEq(v: Value)
    requires Printable(v)
    ensures PyEq(v, v)
  {
  }

  lemma RowStep(l: Line, more: seq<Line>, count: nat, fields: seq<string>, min: nat, semi: bool)
    requires count > 0 && l.ind >= min && IsToken(l.content)
    ensures RowsLoop([l] + more, count, fields, min, semi) ==
      match ParseRecord(l.content, fields, semi) {
        case Err(e) => Err(e)
        case Ok(row) =>
          match RowsLoop(more, count - 1, fields, min, semi) {
            case Err(e) => Err(e)
            case Ok(p) => Ok(Parsed([row] + p.value, p.rest))
          }
      }
  {
    assert ([l] + more)[1..] == more;
    TrimSolid(l.content);
  }

  lemma ConsOf<T>(a: seq<T>, b: seq<T>, rest: seq<T>)
    requires |a| == |b| + 1 && forall i | 0 <= i < |b| :: a[i + 1] == b[i]
    ensures a == [a[0]] + b && a + rest == [a[0]] + (b + rest)
  {
    assert a == [a[0]] + b;
  }

  lemma RowLinesCons(vs: seq<Value>, fields: seq<string>, indent: nat, s: nat, rest: seq<Line>)
    requires vs != []
    ensures Shift(RowLines(vs, fields, indent), s) + rest ==
      [Line(2 * indent + 2 + s, TabJoin(FieldCells(EntriesOf(vs[0]), fields)))]
      + (Shift(RowLines(vs[1..], fields, indent), s) + rest)
  {
    var a, b := Shift(RowLines(vs, fields, indent), s), Shift(RowLines(vs[1..], fields, indent), s);
    forall i | 0 <= i < |b| ensures a[i + 1] == b[i] {
      assert vs[1..][i] == vs[i + 1];
    }
    ConsOf(a, b, rest);
  }

  lemma SameItemsCons(w: Value, ws: seq<Value>, vs: seq<Value>)
    requires vs != [] && PyEq(w, vs[0]) && SameItems(ws, vs[1..])
    ensures SameItems([w] + ws, vs)
  {
  }

  lemma {:induction false} TableRows(vs: seq<Value>, fields: seq<string>, indent: nat, s: nat, rest: seq<Line>, min: nat)
    requires fields != [] && min <= 2 * indent + 2 + s
    requires forall i | 0 <= i < |vs| :: CleanRow(vs[i]) && HasFields(EntriesOf(vs[i]), fields)
    ensures var r := RowsLoop(Shift(RowLines(vs, fields, indent), s) + rest, |vs|, fields, min, false);
            r.Ok? && r.value.rest == rest && SameItems(r.value.value, vs)
  {
    if vs == [] {
      assert Shift(RowLines(vs, fields, indent), s) + rest == rest;
    } else {
      var more := Shift(RowLines(vs[1..], fields, indent), s) + rest;
      var text := TabJoin(FieldCells(EntriesOf(vs[0]), fields));
      TableRows(vs[1..], fields, indent, s, rest, min);
      TabularRecord(EntriesOf(vs[0]), fields);
      RowLinesCons(vs, fields, indent, s, rest);
      RowStep(Line(2 * indent + 2 + s, text), more, |vs|, fields, min, false);
      SameItemsCons(ParseRecord(text, fields, false).value,
                    RowsLoop(more, |vs| - 1, fields, min, false).value.value, vs);
    }
  }

  // --- Semi-tables ------------------------------------------------------------

  lemma {:induction false} SharedKeysSpec(es: seq<Entry>, vs: seq<Value>)
    requires Distinct(es) && forall i | 0 <= i < |es| :: IsKey(es[i].key)
    ensures forall k: string :: k in SharedKeys(es, vs) <==> HasKey(es, k) && AllHaveKey(vs, k)
    ensures NoRepeats(SharedKeys(es, vs)) && IsKeys(SharedKeys(es, vs))
  {
    if es != [] {
      SharedKeysSpec(es[1..], vs);
      forall k: string ensures k in SharedKeys(es, vs) <==> HasKey(es, k) && AllHaveKey(vs, k) {
        HasKeyTail(es, k);
      }
      assert !HasKey(es[1..], es[0].key);
    }
  }

  lemma {:induction false} RemainingSpec(es: seq<Entry>, shared: seq<string>)
    requires Distinct(es)
    ensures var rem := Remaining(es, shared);
      && Distinct(rem)
      && (forall i | 0 <= i < |rem| :: rem[i] in es && rem[i].key !in shared)
      && (forall k: string :: HasKey(rem, k) <==> HasKey(es, k) && k !in shared)
  {
    if es != [] {
      RemainingSpec(es[1..], shared);
      var rem, more := Remaining(es, shared), Remaining(es[1..], shared);
      forall k: string ensures HasKey(rem, k) <==> HasKey(es, k) && k !in shared {
        HasKeyTail(es, k);
        if rem != more {
          HasKeyTail(rem, k);
          assert rem[1..] == more;
        }
      }
      assert !HasKey(es[1..], es[0].key);
    }
  }

  lemma {:induction false} FindColonOf(k: string, rest: string)
    requires ':' !in k
    ensures FindColon(k + ":" + rest) == |k|
  {
    if k == "" {
      assert k + ":" + rest == ":" + rest;
    } else {
      FindColonOf(k[1..], rest);
      assert (k + ":" + rest)[1..] == k[1..] + ":" + rest;
    }
  }

  ghost predicate CleanEntry(e: Entry) {
    IsKey(e.key) && Printable(e.val)
  }

  lemma AddExtrasStep(t: seq<Entry>, e: Entry, cells: seq<string>)
    requires CleanEntry(e) && !HasKey(t, e.key)
    ensures AddExtras(t, [e.key + ":" + CellText(e.val)] + cells) == AddExtras(t + [e], cells)
  {
    var cell := e.key + ":" + CellText(e.val);
    CellRoundTrip(e.val);
    KeyIsToken(e.key);
    FindColonOf(e.key, CellText(e.val));
    assert cell[..|e.key|] == e.key && cell[|e.key| + 1..] == CellText(e.val);
    assert ([cell] + cells)[1..] == cells;
  }

  lemma ExtraCellsCons(rem: seq<Entry>)
    requires rem != []
    ensures ExtraCells(rem) == [rem[0].key + ":" + CellText(rem[0].val)] + ExtraCells(rem[1..])
  {
    forall i | 0 <= i < |rem| - 1 ensures ExtraCells(rem)[i + 1] == ExtraCells(rem[1..])[i] {
      assert rem[1..][i] == rem[i + 1];
    }
    ConsOf(ExtraCells(rem), ExtraCells(rem[1..]), []);
  }

  ghost predicate FreshEntries(t: seq<Entry>, rem: seq<Entry>) {
    Distinct(rem) && forall i | 0 <= i < |rem| :: !HasKey(t, rem[i].key)
  }

  lemma FreshTail(t: seq<Entry>, rem: seq<Entry>)
    requires rem != [] && FreshEntries(t, rem)
    ensures FreshEntries(t + [rem[0]], rem[1..])
  {
    forall i | 0 <= i < |rem[1..]| ensures !HasKey(t + [rem[0]], rem[1..][i].key) {
      HasKeyConcat(t, [rem[0]], rem[1..][i].key);
      assert rem[1..][i] == rem[i + 1];
    }
  }

  ghost predicate CleanEntries(es: seq<Entry>) {
    forall i | 0 <= i < |es| :: CleanEntry(es[i])
  }

  lemma AddExtrasCons(t: seq<Entry>, rem: seq<Entry>)
    requires rem != [] && FreshEntries(t, rem) && CleanEntries(rem)
    requires AddExtras(t + [rem[0]], ExtraCells(rem[1..])) == Ok(t + [rem[0]] + rem[1..])
    ensures AddExtras(t, ExtraCells(rem)) == Ok(t + rem)
  {
    hide AddExtras;
    ExtraCellsCons(rem);
    AddExtrasStep(t, rem[0], ExtraCells(rem[1..]));
    assert t + [rem[0]] + rem[1..] == t + rem;
  }

  lemma {:induction false} AddExtrasOf(t: seq<Entry>, rem: seq<Entry>)
    requires FreshEntries(t, rem) && CleanEntries(rem)
    ensures AddExtras(t, ExtraCells(rem)) == Ok(t + rem)
    decreases rem
  {
    if rem == [] {
      assert t + rem == t;
    } else {
      FreshTail(t, rem);
      AddExtrasOf(t + [rem[0]], rem[1..]);
      AddExtrasCons(t, rem);
    }
  }

  lemma ValueCell(v: Value)
    requires Printable(v)
    ensures IsCell(CellText(v)) && IsToken(CellText(v))
  {
    EncodedIsCell(v, "");
    CellRoundTrip(v);
    assert "" + CellEncode(v) == CellEncode(v);
  }

  lemma EntryCell(e: Entry)
    requires CleanEntry(e)
    ensures var cell := e.key + ":" + CellText(e.val);
            IsCell(cell) && IsToken(cell)
  {
    CellRoundTrip(e.val);
    KeyIsToken(e.key);
    EncodedIsCell(e.val, e.key + ":");
  }

  lemma RemainingClean(es: seq<Entry>, shared: seq<string>)
    requires CleanRow(Obj(es))
    ensures forall i | 0 <= i < |Remaining(es, shared)| :: CleanEntry(Remaining(es, shared)[i])
  {
    RemainingSpec(es, shared);
    var rem := Remaining(es, shared);
    forall i | 0 <= i < |rem| ensures CleanEntry(rem[i]) {
      var j :| 0 <= j < |es| && es[j] == rem[i];
      PrintableClean(es[j].val);
    }
  }

  lemma SemiCellAt(es: seq<Entry>, shared: seq<string>, i: nat)
    requires CleanRow(Obj(es)) && i < |SemiCells(es, shared)|
    requires forall i | 0 <= i < |shared| :: HasKey(es, shared[i])
    ensures IsCell(SemiCells(es, shared)[i]) && IsToken(SemiCells(es, shared)[i])
  {
    hide Remaining, CleanRow, Printable, CellText, IsCell, IsToken, HasKey, CleanEntry;
    if i < |shared| {
      FieldValues(es, shared);
      ValueCell(Gets(es, shared)[i]);
    } else {
      RemainingClean(es, shared);
      EntryCell(Remaining(es, shared)[i - |shared|]);
    }
  }

  lemma SemiCellsOk(es: seq<Entry>, shared: seq<string>)
    requires CleanRow(Obj(es)) && shared != []
    requires forall i | 0 <= i < |shared| :: HasKey(es, shared[i])
    ensures IsToken(TabJoin(SemiCells(es, shared)))
    ensures SplitCells(TabJoin(SemiCells(es, shared)), false, "") == Some(SemiCells(es, shared))
  {
    var cells := SemiCells(es, shared);
    forall i | 0 <= i < |cells| ensures IsCell(cells[i]) && IsToken(cells[i]) {
      SemiCellAt(es, shared, i);
    }
    SplitJoinedCells(cells);
    JoinedTokens(cells, '\t');
  }

  /** The shared columns of the parsed row, and the cells that are left for the extra keys. */
  lemma SemiColumns(es: seq<Entry>, shared: seq<string>)
    requires CleanRow(Obj(es)) && forall i | 0 <= i < |shared| :: HasKey(es, shared[i])
    ensures var cells := SemiCells(es, shared);
      && |shared| <= |cells| && cells[|shared|..] == ExtraCells(Remaining(es, shared))
      && forall i | 0 <= i < |shared| :: ParseCells(cells)[i] == Get(es, shared[i]) && Printable(Get(es, shared[i]))
  {
    hide Remaining, CellEncode, ParseCellValue, Printable, IsCell, CleanRow, HasKey, Get;
    var cells, vs := SemiCells(es, shared), Gets(es, shared);
    FieldValues(es, shared);
    forall i | 0 <= i < |shared| ensures ParseCells(cells)[i] == Get(es, shared[i]) && Printable(Get(es, shared[i])) {
      CellRoundTrip(vs[i]);
    }
  }

  lemma SemiKeys(es: seq<Entry>, shared: seq<string>, z: seq<Entry>)
    requires Distinct(es) && forall i | 0 <= i < |shared| :: HasKey(es, shared[i])
    requires forall k: string :: HasKey(z, k) <==> k in shared
    ensures SameKeys(z + Remaining(es, shared), es)
  {
    hide Remaining;
    RemainingSpec(es, shared);
    forall k: string ensures HasKey(z + Remaining(es, shared), k) <==> HasKey(es, k) {
      HasKeyConcat(z, Remaining(es, shared), k);
    }
  }

  lemma SemiEqual(es: seq<Entry>, shared: seq<string>, z: seq<Entry>)
    requires CleanRow(Obj(es)) && SameKeys(z + Remaining(es, shared), es)
    requires forall i | 0 <= i < |z| :: z[i].val == Get(es, z[i].key) && Printable(z[i].val)
    ensures PyEq(Obj(z + Remaining(es, shared)), Obj(es))
  {
    hide Remaining, SameKeys, Printable;
    RemainingSpec(es, shared);
    var rem := Remaining(es, shared);
    var w := z + rem;
    forall i | 0 <= i < |w| ensures PyEq(w[i].val, Get(es, w[i].key)) {
      if i < |z| {
        PrintableEq(z[i].val);
      } else {
        var j :| 0 <= j < |es| && es[j] == rem[i - |z|];
        GetAt(es, j);
        PrintableClean(es[j].val);
      }
    }
  }

  lemma SemiFresh(es: seq<Entry>, shared: seq<string>, z: seq<Entry>)
    requires CleanRow(Obj(es)) && forall k: string :: HasKey(z, k) <==> k in shared
    ensures FreshEntries(z, Remaining(es, shared)) && CleanEntries(Remaining(es, shared))
  {
    hide Remaining, HasKey;
    RemainingSpec(es, shared);
    RemainingClean(es, shared);
  }

  lemma SemiRecord(es: seq<Entry>, shared: seq<string>)
    requires CleanRow(Obj(es)) && shared != [] && IsKeys(shared)
    requires forall i | 0 <= i < |shared| :: HasKey(es, shared[i])
    ensures IsToken(TabJoin(SemiCells(es, shared)))
    ensures var r := ParseRecord(TabJoin(SemiCells(es, shared)), shared, true);
            r.Ok? && PyEq(r.value, Obj(es))
  {
    hide Remaining, SemiCells, ExtraCells, AddExtras, SplitCells, Printable, CleanRow, PyEq, SameKeys, HasKey, Get,
         FreshEntries, CleanEntries, IsToken;
    SemiCellsOk(es, shared);
    SemiColumns(es, shared);
    var z := Zip(shared, ParseCells(SemiCells(es, shared)));
    forall k: string ensures HasKey(z, k) <==> k in shared {
      ZipKeys(shared, ParseCells(SemiCells(es, shared)), k);
    }
    SemiFresh(es, shared, z);
    AddExtrasOf(z, Remaining(es, shared));
    RowDistinct(es);
    SemiKeys(es, shared, z);
    SemiEqual(es, shared, z);
  }

  lemma RowDistinct(es: seq<Entry>)
    requires CleanRow(Obj(es))
    ensures Distinct(es)
  {
  }

  lemma SemiLinesCons(vs: seq<Value>, shared: seq<string>, indent: nat, s: nat, rest: seq<Line>)
    requires vs != []
    ensures Shift(SemiLines(vs, shared, indent), s) + rest ==
      [Line(2 * indent + 2 + s, TabJoin(SemiCells(EntriesOf(vs[0]), shared)))]
      + (Shift(SemiLines(vs[1..], shared, indent), s) + rest)
  {
    var a, b := Shift(SemiLines(vs, shared, indent), s), Shift(SemiLines(vs[1..], shared, indent), s);
    forall i | 0 <= i < |b| ensures a[i + 1] == b[i] {
      assert vs[1..][i] == vs[i + 1];
    }
    ConsOf(a, b, rest);
  }

  ghost predicate HasAll(v: Value, keys: seq<string>) {
    forall j | 0 <= j < |keys| :: HasKey(EntriesOf(v), keys[j])
  }

  lemma {:induction false} SemiRows(vs: seq<Value>, shared: seq<string>, indent: nat, s: nat, rest: seq<Line>, min: nat)
    requires shared != [] && IsKeys(shared) && min <= 2 * indent + 2 + s
    requires forall i | 0 <= i < |vs| :: CleanRow(vs[i]) && HasAll(vs[i], shared)
    ensures var r := RowsLoop(Shift(SemiLines(vs, shared, indent), s) + rest, |vs|, shared, min, true);
            r.Ok? && r.value.rest == rest && SameItems(r.value.value, vs)
  {
    if vs == [] {
      assert Shift(SemiLines(vs, shared, indent), s) + rest == rest;
    } else {
      var more := Shift(SemiLines(vs[1..], shared, indent), s) + rest;
      var text := TabJoin(SemiCells(EntriesOf(vs[0]), shared));
      SemiRows(vs[1..], shared, indent, s, rest, min);
      SemiRecord(EntriesOf(vs[0]), shared);
      SemiLinesCons(vs, shared, indent, s, rest);
      RowStep(Line(2 * indent + 2 + s, text), more, |vs|, shared, min, true);
      SameItemsCons(ParseRecord(text, shared, true).value,
                    RowsLoop(more, |vs| - 1, shared, min, true).value.value, vs);
    }
  }

  lemma SharedSpec(vs: seq<Value>)
    requires vs != [] && forall i | 0 <= i < |vs| :: CleanRow(vs[i])
    ensures IsKeys(Shared(vs)) && NoRepeats(Shared(vs))
    ensures forall i | 0 <= i < |vs| :: HasAll(vs[i], Shared(vs))
  {
    SharedKeysSpec(EntriesOf(vs[0]), vs);
    forall i | 0 <= i < |vs| ensures HasAll(vs[i], Shared(vs)) {
      forall j | 0 <= j < |Shared(vs)| ensures HasKey(EntriesOf(vs[i]), Shared(vs)[j]) {
        assert Shared(vs)[j] in Shared(vs);
        assert AllHaveKey(vs, Shared(vs)[j]);
      }
    }
  }

  lemma TabularFields(vs: seq<Value>)
    requires IsTabular(vs) && forall i | 0 <= i < |vs| :: Clean(vs[i])
    ensures var fields := KeyList(EntriesOf(vs[0]));
      IsKeys(fields) && NoRepeats(fields) && forall i | 0 <= i < |vs| :: HasFields(EntriesOf(vs[i]), fields)
  {
    var fields := KeyList(EntriesOf(vs[0]));
    forall i | 0 <= i < |vs| ensures HasFields(EntriesOf(vs[i]), fields) {
      forall k: string ensures HasKey(EntriesOf(vs[i]), k) <==> k in fields {
        TabularKeys(vs, i, k);
        assert k in fields <==> HasKey(EntriesOf(vs[0]), k);
      }
    }
  }
}
