// What every accepted document guarantees, whatever its text.

module LeanAccepted {
  import opened Common
  import opened LeanText
  import opened LeanValue
  import opened LeanScalar
  import opened LeanEncode
  import opened LeanDecode
  import opened LeanSafe

  /** No key repeated and no key with a line break, at any depth. */
  predicate Tidy(v: Value) {
    match v
    case Arr(items) => forall i | 0 <= i < |items| :: Tidy(items[i])
    case Obj(es) => Distinct(es) && forall i | 0 <= i < |es| :: '\n' !in es[i].key && Tidy(es[i].val)
    case _ => true
  }

  predicate NoBreaks(ls: seq<Line>) {
    forall i | 0 <= i < |ls| :: '\n' !in ls[i].content
  }

  predicate PartsFree(parts: seq<string>) {
    forall i | 0 <= i < |parts| :: '\n' !in parts[i]
  }

  lemma {:induction false} SplitFree(s: string, c: char)
    requires '\n' !in s
    ensures PartsFree(SplitOn(s, c))
  {
    if s != "" {
      SplitFree(s[1..], c);
    }
  }

  lemma HeadFree(s: string, dots: bool)
    requires '\n' !in s
    ensures var h := KeyHead(s, dots);
      && (!h.NoHead? ==> '\n' !in h.key && '\n' !in h.tail)
      && (RootHead(s).ArrayHead? ==> '\n' !in RootHead(s).tail)
  {
  }

  lemma {:induction false} CellsFree(line: string, inQuotes: bool, current: string)
    requires '\n' !in line && '\n' !in current && SplitCells(line, inQuotes, current).Some?
    ensures PartsFree(SplitCells(line, inQuotes, current).value)
    decreases |line|
  {
    if line != "" {
      if inQuotes && line[0] == '\"' && |line| > 1 && line[1] == '\"' {
        CellsFree(line[2..], true, current + "\"\"");
      } else if line[0] == '\"' {
        CellsFree(line[1..], !inQuotes, current + "\"");
      } else if !inQuotes && line[0] == '\t' {
        CellsFree(line[1..], false, "");
      } else {
        CellsFree(line[1..], inQuotes, current + [line[0]]);
      }
    }
  }

  lemma BodyFree(s: string)
    requires '\n' !in s && DashBody(s).Some?
    ensures '\n' !in DashBody(s).value
  {
  }

  lemma FieldsFree(digits: string, tail: string, next: seq<Line>, ind: nat)
    requires '\n' !in tail && FormOf(digits, tail, next, ind).RowsForm?
    ensures PartsFree(FormOf(digits, tail, next, ind).fields)
  {
    SplitFree(TrimRight(tail), '\t');
  }

  // --- What an accepted document guarantees -----------------------------------

  lemma AppendDistinct(t: seq<Entry>, k: string, v: Value)
    requires Tidy(Obj(t)) && !HasKey(t, k) && Tidy(v) && '\n' !in k
    ensures Tidy(Obj(t + [Entry(k, v)]))
  {
    var u := t + [Entry(k, v)];
    forall i, j | 0 <= i < j < |u| ensures u[i].key != u[j].key {
      if j == |t| {
        assert t[i].key != k;
      }
    }
  }

  lemma {:induction false} PutTidy(t: seq<Entry>, k: string, v: Value)
    requires Tidy(v) && forall i | 0 <= i < |t| :: Tidy(t[i].val)
    ensures forall i | 0 <= i < |t| :: Tidy(Put(t, k, v)[i].val)
  {
    if t != [] && t[0].key != k {
      PutTidy(t[1..], k, v);
    }
  }

  lemma {:induction false} GetTidy(t: seq<Entry>, k: string)
    requires forall i | 0 <= i < |t| :: Tidy(t[i].val)
    ensures Tidy(Get(t, k))
  {
    if t != [] && t[0].key != k {
      GetTidy(t[1..], k);
    }
  }

  lemma {:induction false} SetTidy(t: seq<Entry>, parts: seq<string>, v: Value)
    requires parts != [] && PartsFree(parts) && Tidy(Obj(t)) && Tidy(v) && SetNested(t, parts, v).Ok?
    ensures Tidy(Obj(SetNested(t, parts, v).value))
    decreases |parts|
  {
    var p := parts[0];
    if |parts| == 1 {
      AppendDistinct(t, p, v);
    } else if !HasKey(t, p) {
      SetTidy([], parts[1..], v);
      AppendDistinct(t, p, Obj(SetNested([], parts[1..], v).value));
    } else {
      GetTidy(t, p);
      SetTidy(Get(t, p).entries, parts[1..], v);
      PutTidy(t, p, Obj(SetNested(Get(t, p).entries, parts[1..], v).value));
    }
  }

  lemma ScalarTidy(t: string)
    ensures Tidy(ParseScalarValue(t)) && Tidy(ParseCellValue(t))
  {
  }

  lemma {:induction false} ExtrasTidy(t: seq<Entry>, cells: seq<string>)
    requires Tidy(Obj(t)) && PartsFree(cells) && AddExtras(t, cells).Ok?
    ensures Tidy(Obj(AddExtras(t, cells).value))
    decreases cells
  {
    if cells != [] {
      var n := FindColon(cells[0]);
      ScalarTidy(cells[0][n + 1..]);
      AppendDistinct(t, cells[0][..n], ParseCellValue(cells[0][n + 1..]));
      ExtrasTidy(SetKey(t, cells[0][..n], ParseCellValue(cells[0][n + 1..])).value, cells[1..]);
    }
  }

  /** A row has exactly the header's keys; only a semi-tabular row may add more. */
  lemma RecordShape(text: string, fields: seq<string>, semi: bool)
    requires NoRepeats(fields) && PartsFree(fields) && '\n' !in text && ParseRecord(text, fields, semi).Ok?
    ensures var row := ParseRecord(text, fields, semi).value;
            row.Obj? && Tidy(row) && (!semi ==> KeyList(row.entries) == fields)
  {
    var cells := SplitCells(text, false, "").value;
    var zip := Zip(fields, ParseCells(cells));
    forall i | 0 <= i < |zip| ensures Tidy(zip[i].val) {
      ScalarTidy(cells[i]);
    }
    assert Tidy(Obj(zip));
    if semi {
      CellsFree(text, false, "");
      ExtrasTidy(zip, cells[|fields|..]);
    } else {
      assert KeyList(zip) == fields;
    }
  }

  lemma {:induction false} RowsShape(ls: seq<Line>, count: nat, fields: seq<string>, min: nat, semi: bool)
    requires NoRepeats(fields) && PartsFree(fields) && NoBreaks(ls) && RowsLoop(ls, count, fields, min, semi).Ok?
    ensures NoBreaks(RowsLoop(ls, count, fields, min, semi).value.rest)
    ensures forall i | 0 <= i < count ::
      var row := RowsLoop(ls, count, fields, min, semi).value.value[i];
      row.Obj? && Tidy(row) && (!semi ==> KeyList(row.entries) == fields)
    decreases |ls|
  {
    hide ParseRecord, Tidy, NoRepeats, PartsFree;
    if count > 0 {
      if Blank(ls[0]) {
        RowsShape(ls[1..], count, fields, min, semi);
      } else {
        assert TrimRight(ls[0].content) <= ls[0].content;
        RecordShape(TrimRight(ls[0].content), fields, semi);
        RowsShape(ls[1..], count - 1, fields, min, semi);
      }
    }
  }

  lemma FlatShape(digits: string, tail: string)
    requires ParseFlat(digits, tail).Ok?
    ensures var v := ParseFlat(digits, tail).value;
            v.Arr? && |v.items| == ParseNat(digits) && Tidy(v)
  {
    var cells := SplitCells(tail, false, "").value;
    forall i | 0 <= i < |cells| ensures Tidy(ParseCellValue(cells[i])) {
      ScalarTidy(cells[i]);
    }
  }

  /** The number of elements a header declares. */
  function Declared(form: ArrayForm): nat
    requires !form.OtherForm?
  {
    match form
    case RowsForm(count, _, _) => count
    case EmptyForm => 0
    case ListForm(count) => count
  }

  lemma {:induction false} FormShape(form: ArrayForm, next: seq<Line>, ind: nat)
    requires !form.OtherForm? && NoBreaks(next) && (form.RowsForm? ==> PartsFree(form.fields))
    requires ParseArrayForm(form, next, ind).Ok?
    ensures NoBreaks(ParseArrayForm(form, next, ind).value.rest)
    ensures var v := ParseArrayForm(form, next, ind).value.value;
            v.Arr? && |v.items| == Declared(form) && Tidy(v)
    decreases |next|, 5
  {
    hide ParseItems, RowsLoop;
    match form
    case RowsForm(count, fields, semi) =>
      RowsShape(next, count, fields, ind + 2, semi);
    case EmptyForm =>
    case ListForm(count) => ItemsShape(next, ind, count);
  }

  lemma {:induction false} ArrayShape(digits: string, tail: string, ls: seq<Line>, ind: nat)
    requires ls != [] && NoBreaks(ls) && '\n' !in tail && ParseArrayHere(digits, tail, ls, ind).Ok?
    ensures NoBreaks(ParseArrayHere(digits, tail, ls, ind).value.rest)
    ensures Tidy(ParseArrayHere(digits, tail, ls, ind).value.value)
    decreases |ls|, 0
  {
    hide ParseArrayForm, FormOf, ParseFlat, Tidy;
    var form := FormOf(digits, tail, ls[1..], ind);
    if form.OtherForm? {
      FlatShape(digits, tail);
    } else {
      if form.RowsForm? {
        FieldsFree(digits, tail, ls[1..], ind);
      }
      FormShape(form, ls[1..], ind);
    }
  }

  lemma {:induction false} PropShape(head: Head, ls: seq<Line>, ind: nat)
    requires ls != [] && NoBreaks(ls) && !head.NoHead? && '\n' !in head.tail && ParsePropValue(head, ls, ind).Ok?
    ensures NoBreaks(ParsePropValue(head, ls, ind).value.rest)
    ensures Tidy(ParsePropValue(head, ls, ind).value.value)
    decreases |ls|, 1
  {
    hide ParseBlock, ParseArrayHere, FormOf, ParseScalarValue, TrimRight, AllSpace;
    match head
    case PropHead(_, tail) =>
      ScalarTidy(tail);
      if TrimRight(tail) != "{}" && AllSpace(tail) {
        EmptyTidy();
        BlockShape(ls[1..], ind + 2, []);
      }
    case ArrayHead(_, digits, tail) => ArrayShape(digits, tail, ls, ind);
  }

  lemma {:induction false} LineShape(ls: seq<Line>, t: seq<Entry>)
    requires ls != [] && NoBreaks(ls) && Tidy(Obj(t)) && ParseLine(ls, t).Ok?
    ensures NoBreaks(ParseLine(ls, t).value.rest)
    ensures Tidy(Obj(ParseLine(ls, t).value.value))
    decreases |ls|, 2
  {
    hide ParsePropValue, SetNested, KeyHead, SplitOn, Tidy;
    var head := KeyHead(ls[0].content, true);
    HeadFree(ls[0].content, true);
    SplitFree(head.key, '.');
    PropShape(head, ls, ls[0].ind);
    SetTidy(t, SplitOn(head.key, '.'), ParsePropValue(head, ls, ls[0].ind).value.value);
  }

  lemma {:induction false} BlockShape(ls: seq<Line>, min: nat, t: seq<Entry>)
    requires NoBreaks(ls) && Tidy(Obj(t)) && ParseBlock(ls, min, t).Ok?
    ensures NoBreaks(ParseBlock(ls, min, t).value.rest)
    ensures Tidy(Obj(ParseBlock(ls, min, t).value.value))
    decreases |ls|, 3
  {
    hide ParseLine, Tidy;
    if ls != [] {
      if Blank(ls[0]) {
        BlockShape(ls[1..], min, t);
      } else if ls[0].ind >= min {
        LineShape(ls, t);
        BlockShape(ParseLine(ls, t).value.rest, min, ParseLine(ls, t).value.value);
      }
    }
  }

  lemma {:induction false} BodyShape(ls: seq<Line>, min: nat, parentIndent: nat, t: seq<Entry>)
    requires NoBreaks(ls) && Tidy(Obj(t)) && ParseItemBody(ls, min, parentIndent, t).Ok?
    ensures NoBreaks(ParseItemBody(ls, min, parentIndent, t).value.rest)
    ensures Tidy(Obj(ParseItemBody(ls, min, parentIndent, t).value.value))
    decreases |ls|, 3
  {
    hide ParseLine, Tidy;
    if ls != [] {
      if Blank(ls[0]) {
        BodyShape(ls[1..], min, parentIndent, t);
      } else if ls[0].ind >= min && !(ls[0].ind == parentIndent && "- " <= ls[0].content) {
        LineShape(ls, t);
        BodyShape(ParseLine(ls, t).value.rest, min, parentIndent, ParseLine(ls, t).value.value);
      }
    }
  }

  lemma {:induction false} FirstShape(head: Head, ls: seq<Line>)
    requires ls != [] && NoBreaks(ls) && !head.NoHead? && '\n' !in head.tail && ParseFirstValue(head, ls).Ok?
    ensures NoBreaks(ParseFirstValue(head, ls).value.rest)
    ensures Tidy(ParseFirstValue(head, ls).value.value)
    decreases |ls|, 1
  {
    hide ParseBlock, ParseArrayForm, FormOf, ParseScalarValue, TrimRight, AllSpace;
    match head
    case PropHead(_, tail) =>
      ScalarTidy(tail);
      if TrimRight(tail) != "{}" && AllSpace(tail) {
        EmptyTidy();
        BlockShape(ls[1..], ls[0].ind + 4, []);
      }
    case ArrayHead(_, digits, tail) =>
      if FormOf(digits, tail, ls[1..], ls[0].ind).RowsForm? {
        FieldsFree(digits, tail, ls[1..], ls[0].ind);
      }
      FormShape(FormOf(digits, tail, ls[1..], ls[0].ind), ls[1..], ls[0].ind);
  }

  lemma {:induction false} ItemShape(ls: seq<Line>, itemIndent: nat)
    requires ls != [] && NoBreaks(ls) && ParseItem(ls, itemIndent).Ok?
    ensures NoBreaks(ParseItem(ls, itemIndent).value.rest)
    ensures Tidy(ParseItem(ls, itemIndent).value.value)
    decreases |ls|, 3
  {
    hide ParseArrayHere, ParseFirstValue, ParseItemBody, IsObjectItem, KeyHead, RootHead, DashBody, TrimRight, ParseScalarValue;
    var b := DashBody(ls[0].content).value;
    var root, head := RootHead(b), KeyHead(b, false);
    ScalarTidy(b);
    BodyFree(ls[0].content);
    HeadFree(b, false);
    if TrimRight(b) != "{}" {
      if root.ArrayHead? {
        ArrayShape(root.digits, root.tail, ls, ls[0].ind);
      } else if IsObjectItem(b) {
        FirstShape(head, ls);
        var first := ParseFirstValue(head, ls).value;
        SingleTidy(head.key, first.value);
        BodyShape(first.rest, ls[0].ind + 2, itemIndent, [Entry(head.key, first.value)]);
      }
    }
  }

  lemma {:induction false} ItemsShape(ls: seq<Line>, base: nat, count: nat)
    requires NoBreaks(ls) && ParseItems(ls, base, count).Ok?
    ensures NoBreaks(ParseItems(ls, base, count).value.rest)
    ensures Tidy(Arr(ParseItems(ls, base, count).value.value))
    decreases |ls|, 4
  {
    hide ParseItem;
    if count > 0 {
      if Blank(ls[0]) {
        ItemsShape(ls[1..], base, count);
      } else {
        ItemShape(ls, base + 2);
        ItemsShape(ParseItem(ls, base + 2).value.rest, base, count - 1);
      }
    }
  }

  /** Whatever the text, an accepted document has no repeated key and no key with a line break,
      at any depth. */
  lemma DecodedTidy(text: string)
    requires Decode(text).Ok?
    ensures Tidy(Decode(text).value)
  {
    hide ParseBlock, ParseArrayHere, FormOf, Tidy, RootHead, TrimRight, SplitOn, RootScalar;
    var all := ShapeAll(SplitOn(text, '\n'));
    var ls := SkipBlank(all);
    LinesFree(text);
    SkipFree(all);
    var first := TrimRight(ls[0].content);
    assert first <= ls[0].content;
    HeadFree(first, false);
    if RootScalar(first).Some? {
      RootScalarTidy(first);
    } else if first != "" && first[0] == '[' {
      ArrayShape(RootHead(first).digits, RootHead(first).tail, ls, 0);
    } else {
      EmptyTidy();
      BlockShape(ls, 0, []);
    }
  }

  lemma {:induction false} PartsWithoutSeparator(s: string, c: char)
    ensures forall i | 0 <= i < |SplitOn(s, c)| :: c !in SplitOn(s, c)[i]
  {
    if s != "" {
      PartsWithoutSeparator(s[1..], c);
    }
  }

  lemma LinesFree(text: string)
    ensures NoBreaks(ShapeAll(SplitOn(text, '\n')))
  {
    PartsWithoutSeparator(text, '\n');
  }

  lemma {:induction false} SkipFree(ls: seq<Line>)
    requires NoBreaks(ls)
    ensures NoBreaks(SkipBlank(ls))
  {
    if ls != [] && Blank(ls[0]) {
      SkipFree(ls[1..]);
    }
  }

  lemma EmptyTidy()
    ensures Tidy(Obj([]))
  {
  }

  lemma SingleTidy(k: string, v: Value)
    requires '\n' !in k && Tidy(v)
    ensures Tidy(Obj([Entry(k, v)]))
  {
  }

  lemma RootScalarTidy(first: string)
    requires RootScalar(first).Some?
    ensures Tidy(RootScalar(first).value)
  {
  }
}
