// decode(encode(v)) == v for every surviving value, whichever layouts the encoder chose.

module LeanRoundTrip {
  import opened Common
  import opened LeanText
  import opened LeanValue
  import opened LeanScalar
  import opened LeanEncode
  import opened LeanDecode
  import opened LeanSafe
  import opened LeanHeads
  import opened LeanNesting
  import opened LeanRows

  // --- Lines ------------------------------------------------------------------

  /** Nothing more of a construct that starts in column `c` follows. */
  predicate Follow(rest: seq<Line>, c: nat) {
    rest == [] || (!Blank(rest[0]) && rest[0].ind <= c)
  }

  lemma ShiftConcat(a: seq<Line>, b: seq<Line>, k: nat)
    ensures Shift(a + b, k) == Shift(a, k) + Shift(b, k)
  {
  }

  lemma ShiftShift(a: seq<Line>, j: nat, k: nat)
    ensures Shift(Shift(a, j), k) == Shift(a, j + k)
  {
  }

  lemma ShiftCons(l: Line, a: seq<Line>, k: nat, rest: seq<Line>)
    ensures Shift([l] + a, k) + rest == [Line(l.ind + k, l.content)] + (Shift(a, k) + rest)
  {
    ShiftConcat([l], a, k);
    assert Shift([l], k) == [Line(l.ind + k, l.content)];
  }

  lemma ShiftOne(l: Line, k: nat, rest: seq<Line>)
    ensures Shift([l], k) + rest == [Line(l.ind + k, l.content)] + rest
    ensures ([Line(l.ind + k, l.content)] + rest)[1..] == rest
  {
  }

  lemma ShiftSplit(a: seq<Line>, b: seq<Line>, k: nat, rest: seq<Line>)
    ensures Shift(a + b, k) + rest == Shift(a, k) + (Shift(b, k) + rest)
  {
    ShiftConcat(a, b, k);
  }

  lemma ShiftDash(header: string, col: nat, body: seq<Line>, indent: nat, k: nat, rest: seq<Line>)
    ensures Shift(Dash([Line(col, header)] + body, indent), k) + rest
         == [Line(2 * indent + k, "- " + header)] + (Shift(body, 2 * indent + 2 + k) + rest)
  {
    assert ([Line(col, header)] + body)[1..] == body;
    ShiftCons(Line(2 * indent, "- " + header), Shift(body, 2 * indent + 2), k, rest);
    ShiftShift(body, 2 * indent + 2, k);
  }

  // --- First lines ------------------------------------------------------------

  /** A property starts with its path, in its own column, and has a colon. */
  lemma {:induction false} PropFirst(path: string, v: Value, indent: nat)
    requires path != ""
    ensures PropLines(path, v, indent) != []
    ensures var l := PropLines(path, v, indent)[0];
            l.ind == 2 * indent && path <= l.content && ':' in l.content
    decreases v
  {
    var l := PropLines(path, v, indent)[0..];
    match v
    case Arr(items) =>
      assert HeaderText(path, |items|, ArrayTail(path, items, indent))[|path| + 1 + |NatText(|items|)| + 1] == ':';
    case Obj(es) =>
      if es != [] && indent == 0 && DotChosen(path, es) {
        PropFirst(path + "." + es[0].key, es[0].val, 0);
      } else {
        assert (path + ":")[|path|] == ':' && (path + ":{}")[|path|] == ':';
      }
    case _ =>
      assert (path + ":" + PrimText(v))[|path|] == ':';
  }

  lemma EntriesFirst(prefix: string, es: seq<Entry>, indent: nat)
    requires es != [] && IsKey(es[0].key)
    ensures EntriesLines(prefix, es, indent) != []
    ensures var l := EntriesLines(prefix, es, indent)[0];
            l.ind == 2 * indent && prefix + es[0].key <= l.content && ':' in l.content
  {
    PropFirst(prefix + es[0].key, es[0].val, indent);
  }

  lemma ItemFirst(v: Value, indent: nat)
    ensures ItemLines(v, indent) != []
    ensures ItemLines(v, indent)[0].ind == 2 * indent && "- " <= ItemLines(v, indent)[0].content
  {
  }

  lemma EntriesFollow(prefix: string, es: seq<Entry>, indent: nat, s: nat, rest: seq<Line>, c: nat)
    requires es != [] ==> IsKey(es[0].key) && c >= 2 * indent + s
    requires Follow(rest, c)
    ensures Follow(Shift(EntriesLines(prefix, es, indent), s) + rest, c)
  {
    if es != [] {
      EntriesFirst(prefix, es, indent);
    } else {
      assert Shift(EntriesLines(prefix, es, indent), s) + rest == rest;
    }
  }

  lemma ItemsFollow(vs: seq<Value>, indent: nat, s: nat, rest: seq<Line>)
    requires Follow(rest, 2 * indent + s)
    ensures Follow(Shift(ItemsLines(vs, indent), s) + rest, 2 * indent + s)
  {
    if vs != [] {
      ItemFirst(vs[0], indent);
    } else {
      assert Shift(ItemsLines(vs, indent), s) + rest == rest;
    }
  }

  // --- One step of the decoder's loops ----------------------------------------

  lemma BlockStops(rest: seq<Line>, min: nat, t: seq<Entry>)
    requires rest == [] || (!Blank(rest[0]) && rest[0].ind < min)
    ensures ParseBlock(rest, min, t) == Ok(Parsed(t, rest))
  {
  }

  lemma LineParses(l: Line, next: seq<Line>, t: seq<Entry>, head: Head, w: Value, rest: seq<Line>)
    requires head == KeyHead(l.content, true) && !head.NoHead?
    requires ParsePropValue(head, [l] + next, l.ind) == Ok(Parsed(w, rest))
    requires SetNested(t, SplitOn(head.key, '.'), w).Ok?
    ensures ParseLine([l] + next, t) == Ok(Parsed(SetNested(t, SplitOn(head.key, '.'), w).value, rest))
  {
    hide KeyHead, ParsePropValue, SetNested, SplitOn;
    assert ([l] + next)[0] == l;
  }

  lemma BlockAfterLine(l: Line, next: seq<Line>, min: nat, t: seq<Entry>, t1: seq<Entry>, rest: seq<Line>)
    requires !Blank(l) && l.ind >= min
    requires ParseLine([l] + next, t) == Ok(Parsed(t1, rest))
    ensures ParseBlock([l] + next, min, t) == ParseBlock(rest, min, t1)
  {
    hide ParseLine;
    assert ([l] + next)[0] == l;
  }

  lemma BlockLine(l: Line, next: seq<Line>, min: nat, t: seq<Entry>, parts: seq<string>, w: Value, rest: seq<Line>)
    requires !Blank(l) && l.ind >= min && parts != []
    requires var head := KeyHead(l.content, true);
      && !head.NoHead?
      && SplitOn(head.key, '.') == parts
      && ParsePropValue(head, [l] + next, l.ind) == Ok(Parsed(w, rest))
    requires SetNested(t, parts, w).Ok?
    ensures ParseBlock([l] + next, min, t) == ParseBlock(rest, min, SetNested(t, parts, w).value)
  {
    hide KeyHead, ParsePropValue, SetNested, SplitOn, ParseBlock, ParseLine;
    LineParses(l, next, t, KeyHead(l.content, true), w, rest);
    BlockAfterLine(l, next, min, t, SetNested(t, parts, w).value, rest);
  }

  /** The dash test in the "remaining keys" loop never fires: such lines are already too shallow. */
  lemma {:induction false} ItemBodyIsBlock(ls: seq<Line>, min: nat, parentIndent: nat, t: seq<Entry>)
    requires parentIndent < min
    ensures ParseItemBody(ls, min, parentIndent, t) == ParseBlock(ls, min, t)
    decreases |ls|
  {
    if ls != [] {
      if Blank(ls[0]) {
        ItemBodyIsBlock(ls[1..], min, parentIndent, t);
      } else if ls[0].ind >= min {
        var r := ParseLine(ls, t);
        if r.Ok? {
          ItemBodyIsBlock(r.value.rest, min, parentIndent, r.value.value);
        }
      }
    }
  }

  lemma ItemsStep(l: Line, next: seq<Line>, base: nat, count: nat, w: Value, rest: seq<Line>, ws: seq<Value>, last: seq<Line>)
    requires count > 0 && !Blank(l) && l.ind >= base + 2
    requires ParseItem([l] + next, base + 2) == Ok(Parsed(w, rest))
    requires ParseItems(rest, base, count - 1) == Ok(Parsed(ws, last))
    ensures ParseItems([l] + next, base, count) == Ok(Parsed([w] + ws, last))
  {
  }

  lemma NoColonNoHead(b: string)
    requires ':' !in b
    ensures KeyHead(b, false).NoHead? && KeyHead(b, true).NoHead? && !RootHead(b).ArrayHead? && !IsObjectItem(b)
  {
  }

  lemma TrimRightHead(b: string)
    requires b != "" && b[0] != '{'
    ensures TrimRight(b) != "{}"
  {
  }

  // --- Values -----------------------------------------------------------------

  lemma DataRowFirst(l: Line, next: seq<Line>, min: nat)
    requires !Blank(l) && l.ind >= min
    ensures HasDataRow([l] + next, min)
  {
    assert SkipBlank([l] + next) == [l] + next;
  }

  lemma NoDataRow(rest: seq<Line>, p: nat)
    requires Follow(rest, p + 1)
    ensures !HasDataRow(rest, p + 2)
  {
    assert SkipBlank(rest) == rest;
  }

  lemma FlatBack(vs: seq<Value>)
    requires vs != [] && AllScalars(vs) && forall i | 0 <= i < |vs| :: Clean(vs[i])
    ensures IsToken(TabJoin(FlatCells(vs)))
    ensures ParseFlat(NatText(|vs|), TabJoin(FlatCells(vs))) == Ok(Arr(vs))
    ensures PyEq(Arr(vs), Arr(vs))
  {
    forall i | 0 <= i < |vs| ensures Printable(vs[i]) && PyEq(vs[i], vs[i]) && CellText(vs[i]) == CellEncode(vs[i]) {
      PrintableClean(vs[i]);
    }
    assert FlatCells(vs) == EncodeCells(vs);
    forall i | 0 <= i < |vs| ensures IsToken(EncodeCells(vs)[i]) {
      CellRoundTrip(vs[i]);
    }
    JoinedTokens(EncodeCells(vs), '\t');
    RowRoundTrip(vs);
    ParseNatText(|vs|);
  }

  /** The tail and body of `vs`, read back below column `p`, give `w`. */
  ghost predicate Reads(path: string, vs: seq<Value>, indent: nat, s: nat, p: nat, rest: seq<Line>, w: Value) {
    var tail := ArrayTail(path, vs, indent);
    var next := Shift(ArrayBody(path, vs, indent), s) + rest;
    var form := FormOf(NatText(|vs|), tail, next, p);
    if vs != [] && AllScalars(vs) then
      form.OtherForm? && tail != "" && ParseFlat(NatText(|vs|), tail) == Ok(w) && next == rest
    else !form.OtherForm? && ParseArrayForm(form, next, p) == Ok(Parsed(w, rest))
  }

  lemma ReadsRows(path: string, vs: seq<Value>, indent: nat, s: nat, p: nat, rest: seq<Line>,
                  fields: seq<string>, semi: bool, next: seq<Line>, ws: seq<Value>)
    requires !AllScalars(vs) && NoRepeats(fields)
    requires next == Shift(ArrayBody(path, vs, indent), s) + rest
    requires FormOf(NatText(|vs|), ArrayTail(path, vs, indent), next, p) == RowsForm(|vs|, fields, semi)
    requires RowsLoop(next, |vs|, fields, p + 2, semi) == Ok(Parsed(ws, rest))
    ensures Reads(path, vs, indent, s, p, rest, Arr(ws))
  {
    hide FormOf, RowsLoop, ArrayBody, ArrayTail;
  }

  lemma RowsHaveData(l: Line, more: seq<Line>, next: seq<Line>, p: nat)
    requires next == [l] + more && IsToken(l.content) && l.ind >= p + 2
    ensures HasDataRow(next, p + 2)
  {
    DataRowFirst(l, more, p + 2);
  }

  lemma TabularLines(path: string, vs: seq<Value>, indent: nat)
    requires LayoutOf(path, vs, indent).TabularLayout?
    ensures IsTabular(vs) && !AllScalars(vs)
    ensures ArrayTail(path, vs, indent) == TabJoin(KeyList(EntriesOf(vs[0])))
    ensures ArrayBody(path, vs, indent) == RowLines(vs, KeyList(EntriesOf(vs[0])), indent)
  {
  }

  lemma SemiTabularLines(path: string, vs: seq<Value>, indent: nat)
    requires LayoutOf(path, vs, indent).SemiTabularLayout?
    ensures vs != [] && ScalarRows(vs) && Shared(vs) != [] && !AllScalars(vs)
    ensures ArrayTail(path, vs, indent) == TabJoin(Shared(vs)) + "\t~"
    ensures ArrayBody(path, vs, indent) == SemiLines(vs, Shared(vs), indent)
  {
  }

  lemma TableForm(vs: seq<Value>, fields: seq<string>, indent: nat, s: nat, p: nat, rest: seq<Line>)
    requires vs != [] && fields != [] && IsKeys(fields) && p <= 2 * indent + s
    requires CleanRow(vs[0]) && HasFields(EntriesOf(vs[0]), fields)
    ensures FormOf(NatText(|vs|), TabJoin(fields), Shift(RowLines(vs, fields, indent), s) + rest, p)
         == RowsForm(|vs|, fields, false)
  {
    hide FormOf, TabJoin, RowLines, ParseRecord, HasDataRow;
    var next := Shift(RowLines(vs, fields, indent), s) + rest;
    TabularRecord(EntriesOf(vs[0]), fields);
    RowLinesCons(vs, fields, indent, s, rest);
    RowsHaveData(next[0], Shift(RowLines(vs[1..], fields, indent), s) + rest, next, p);
    TabularForm(|vs|, fields, next, p);
  }

  lemma SemiTableForm(vs: seq<Value>, shared: seq<string>, indent: nat, s: nat, p: nat, rest: seq<Line>)
    requires vs != [] && shared != [] && IsKeys(shared) && p <= 2 * indent + s
    requires CleanRow(vs[0]) && HasAll(vs[0], shared)
    ensures FormOf(NatText(|vs|), TabJoin(shared) + "\t~", Shift(SemiLines(vs, shared, indent), s) + rest, p)
         == RowsForm(|vs|, shared, true)
  {
    hide FormOf, TabJoin, SemiLines, ParseRecord, HasDataRow;
    var next := Shift(SemiLines(vs, shared, indent), s) + rest;
    SemiRecord(EntriesOf(vs[0]), shared);
    SemiLinesCons(vs, shared, indent, s, rest);
    RowsHaveData(next[0], Shift(SemiLines(vs[1..], shared, indent), s) + rest, next, p);
    SemiForm(|vs|, shared, next, p);
  }

  lemma TableBack(path: string, vs: seq<Value>, indent: nat, s: nat, p: nat, rest: seq<Line>) returns (w: Value)
    requires forall i | 0 <= i < |vs| :: Clean(vs[i])
    requires LayoutOf(path, vs, indent).TabularLayout? && EntriesOf(vs[0]) != [] && p <= 2 * indent + s
    ensures PyEq(w, Arr(vs)) && Reads(path, vs, indent, s, p, rest, w)
  {
    hide LayoutOf, ArrayTail, ArrayBody, FormOf, RowsLoop, Reads, TabJoin, RowLines, HasFields, AllScalars;
    TabularLines(path, vs, indent);
    var fields := KeyList(EntriesOf(vs[0]));
    var next := Shift(RowLines(vs, fields, indent), s) + rest;
    TabularFields(vs);
    TableForm(vs, fields, indent, s, p, rest);
    TableRows(vs, fields, indent, s, rest, p + 2);
    var ws := RowsLoop(next, |vs|, fields, p + 2, false).value.value;
    ReadsRows(path, vs, indent, s, p, rest, fields, false, next, ws);
    w := Arr(ws);
  }

  lemma SemiBack(path: string, vs: seq<Value>, indent: nat, s: nat, p: nat, rest: seq<Line>) returns (w: Value)
    requires forall i | 0 <= i < |vs| :: Clean(vs[i])
    requires LayoutOf(path, vs, indent).SemiTabularLayout? && p <= 2 * indent + s
    ensures PyEq(w, Arr(vs)) && Reads(path, vs, indent, s, p, rest, w)
  {
    hide LayoutOf, ArrayTail, ArrayBody, FormOf, RowsLoop, Reads, TabJoin, Shared, SemiLines, HasAll, AllScalars;
    SemiTabularLines(path, vs, indent);
    var shared := Shared(vs);
    var next := Shift(SemiLines(vs, shared, indent), s) + rest;
    SharedSpec(vs);
    SemiTableForm(vs, shared, indent, s, p, rest);
    SemiRows(vs, shared, indent, s, rest, p + 2);
    var ws := RowsLoop(next, |vs|, shared, p + 2, true).value.value;
    ReadsRows(path, vs, indent, s, p, rest, shared, true, next, ws);
    w := Arr(ws);
  }

  lemma EmptyBack(path: string, indent: nat, s: nat, p: nat, rest: seq<Line>)
    requires Follow(rest, 2 * indent + s) && p <= 2 * indent + s
    ensures PyEq(Arr([]), Arr([])) && Reads(path, [], indent, s, p, rest, Arr([]))
  {
    BlankForm(0, rest, p);
    assert Shift(ArrayBody(path, [], indent), s) + rest == rest;
  }

  lemma FlatArrayBack(path: string, vs: seq<Value>, indent: nat, s: nat, p: nat, rest: seq<Line>)
    requires forall i | 0 <= i < |vs| :: Clean(vs[i])
    requires LayoutOf(path, vs, indent).FlatLayout? && Follow(rest, p + 1)
    ensures PyEq(Arr(vs), Arr(vs)) && Reads(path, vs, indent, s, p, rest, Arr(vs))
  {
    FlatBack(vs);
    NoDataRow(rest, p);
    FlatForm(|vs|, TabJoin(FlatCells(vs)), rest, p);
    assert Shift(ArrayBody(path, vs, indent), s) + rest == rest;
  }

  lemma DashedNotFlat(path: string, vs: seq<Value>, indent: nat)
    requires LayoutOf(path, vs, indent).DashedLayout?
    ensures vs != [] && !AllScalars(vs)
  {
  }

  lemma DashedBack(path: string, vs: seq<Value>, indent: nat, s: nat, p: nat, rest: seq<Line>, ws: seq<Value>)
    requires LayoutOf(path, vs, indent).DashedLayout? && SameItems(ws, vs)
    requires ParseItems(Shift(ItemsLines(vs, indent + 1), s) + rest, p, |vs|) == Ok(Parsed(ws, rest))
    ensures PyEq(Arr(ws), Arr(vs)) && Reads(path, vs, indent, s, p, rest, Arr(ws))
  {
    BlankForm(|vs|, Shift(ArrayBody(path, vs, indent), s) + rest, p);
  }

  lemma {:induction false} ArrayBack(path: string, vs: seq<Value>, indent: nat, s: nat, p: nat, rest: seq<Line>) returns (w: Value)
    requires forall i | 0 <= i < |vs| :: Clean(vs[i])
    requires SafeArray(path, vs, indent) && p <= 2 * indent + s
    requires Follow(rest, if vs != [] && AllScalars(vs) then p + 1 else 2 * indent + s)
    ensures PyEq(w, Arr(vs)) && Reads(path, vs, indent, s, p, rest, w)
    decreases vs, 3
  {
    hide Clean, PyEq, Reads, SafeItems, AllScalars, ParseItems;
    match LayoutOf(path, vs, indent)
    case EmptyLayout =>
      EmptyBack(path, indent, s, p, rest);
      w := Arr([]);
    case FlatLayout =>
      FlatArrayBack(path, vs, indent, s, p, rest);
      w := Arr(vs);
    case TabularLayout => w := TableBack(path, vs, indent, s, p, rest);
    case SemiTabularLayout => w := SemiBack(path, vs, indent, s, p, rest);
    case DashedLayout =>
      DashedNotFlat(path, vs, indent);
      var ws := ItemsBack(vs, indent + 1, s, rest, p);
      DashedBack(path, vs, indent, s, p, rest, ws);
      w := Arr(ws);
  }

  /** The item at the head of `ls` reads as `w`. */
  ghost predicate ItemReads(ls: seq<Line>, itemIndent: nat, w: Value, rest: seq<Line>) {
    ls != [] && ParseItem(ls, itemIndent) == Ok(Parsed(w, rest))
  }

  lemma {:induction false} ItemsBack(vs: seq<Value>, indent: nat, s: nat, rest: seq<Line>, base: nat) returns (ws: seq<Value>)
    requires forall i | 0 <= i < |vs| :: Clean(vs[i])
    requires SafeItems(vs, indent) && base + 2 <= 2 * indent + s && Follow(rest, 2 * indent + s)
    ensures SameItems(ws, vs)
    ensures ParseItems(Shift(ItemsLines(vs, indent), s) + rest, base, |vs|) == Ok(Parsed(ws, rest))
    decreases vs, 0
  {
    hide ParseItems, ItemLines, ItemsLines, SafeItem, SafeItems, ItemReads, Follow, PyEq, Shift;
    if vs == [] {
      ws := [];
      ItemsNone(indent, s, rest, base);
    } else {
      ItemsUnfold(vs, indent);
      ItemsFollow(vs[1..], indent, s, rest);
      var w := ItemBack(vs[0], indent, s, Shift(ItemsLines(vs[1..], indent), s) + rest, base + 2);
      var tail := ItemsBack(vs[1..], indent, s, rest, base);
      ItemsAssemble(vs, indent, s, rest, base, w, tail);
      ws := [w] + tail;
    }
  }

  lemma ItemsNone(indent: nat, s: nat, rest: seq<Line>, base: nat)
    ensures ParseItems(Shift(ItemsLines([], indent), s) + rest, base, 0) == Ok(Parsed([], rest))
  {
    assert Shift(ItemsLines([], indent), s) + rest == rest;
  }

  lemma ItemsAssemble(vs: seq<Value>, indent: nat, s: nat, rest: seq<Line>, base: nat, w: Value, tail: seq<Value>)
    requires vs != [] && base + 2 <= 2 * indent + s
    requires PyEq(w, vs[0]) && SameItems(tail, vs[1..])
    requires var more := Shift(ItemsLines(vs[1..], indent), s) + rest;
      && ItemReads(Shift(ItemLines(vs[0], indent), s) + more, base + 2, w, more)
      && ParseItems(more, base, |vs| - 1) == Ok(Parsed(tail, rest))
    ensures SameItems([w] + tail, vs)
    ensures ParseItems(Shift(ItemsLines(vs, indent), s) + rest, base, |vs|) == Ok(Parsed([w] + tail, rest))
  {
    hide ParseItems, ParseItem, ItemReads, ItemLines, ItemsLines;
    var first, more := ItemLines(vs[0], indent), Shift(ItemsLines(vs[1..], indent), s) + rest;
    ItemsUnfold(vs, indent);
    ShiftSplit(first, ItemsLines(vs[1..], indent), s, rest);
    ItemFirst(vs[0], indent);
    ItemsCons(first, indent, s, more, base, |vs|, w, tail, rest);
    SameItemsCons(w, tail, vs);
  }

  lemma ItemsUnfold(vs: seq<Value>, indent: nat)
    requires vs != []
    ensures ItemsLines(vs, indent) == ItemLines(vs[0], indent) + ItemsLines(vs[1..], indent)
    ensures SafeItems(vs, indent) <==> SafeItem(vs[0], indent) && SafeItems(vs[1..], indent)
  {
  }

  lemma ItemsCons(first: seq<Line>, indent: nat, s: nat, more: seq<Line>, base: nat, count: nat,
                  w: Value, tail: seq<Value>, rest: seq<Line>)
    requires first != [] && first[0].ind == 2 * indent && "- " <= first[0].content
    requires count > 0 && base + 2 <= 2 * indent + s
    requires ItemReads(Shift(first, s) + more, base + 2, w, more)
    requires ParseItems(more, base, count - 1) == Ok(Parsed(tail, rest))
    ensures ParseItems(Shift(first, s) + more, base, count) == Ok(Parsed([w] + tail, rest))
  {
    hide ParseItem, ParseItems;
    var ls := Shift(first, s) + more;
    assert ls == [ls[0]] + ls[1..];
    ItemsStep(ls[0], ls[1..], base, count, w, more, tail, rest);
  }

  /** A printed scalar is claimed by none of the structural list-item patterns. */
  lemma ScalarBody(v: Value)
    requires Clean(v) && IsScalar(v) && (v.Str? ==> NeedsQuoting(v.s) || !LooksStructured(v.s))
    ensures var b := PrimText(v);
      && IsToken(b) && b != "{}" && ParseScalarValue(b) == v
      && !RootHead(b).ArrayHead? && !IsObjectItem(b)
  {
    var b := PrimText(v);
    PrintableClean(v);
    PrimitiveRoundTrip(v);
    hide IsObjectItem, ParseScalarValue, NeedsQuoting;
    match v
    case Str(s) =>
      if NeedsQuoting(s) {
        assert b[0] == '\"';
        QuoteNoHead(b);
      }
    case Num(num) =>
      NumberRoundTrip(num);
      NumberToken(b);
      NoColonNoHead(b);
    case _ => NoColonNoHead(b);
  }

  lemma QuoteNoHead(b: string)
    requires b != "" && b[0] == '\"'
    ensures !RootHead(b).ArrayHead? && !IsObjectItem(b)
  {
  }

  lemma ScalarItemLine(b: string, v: Value, l: Line, rest: seq<Line>, itemIndent: nat)
    requires IsToken(b) && b != "{}" && ParseScalarValue(b) == v
    requires !RootHead(b).ArrayHead? && !IsObjectItem(b)
    requires l.content == "- " + b
    ensures ItemReads([l] + rest, itemIndent, v, rest)
  {
    hide IsObjectItem, ParseScalarValue, RootHead, DashBody, TrimRight;
    DashBodyOf(b);
    TrimSolid(b);
    assert ([l] + rest)[0] == l && ([l] + rest)[1..] == rest;
  }

  /** The head of an item that starts with a key, and what the first value parses to. */
  ghost predicate FirstReads(e: Entry, ls: seq<Line>, rest: seq<Line>, w: Value) {
    && ls != []
    && "- " + e.key <= ls[0].content
    && var b := ls[0].content[2..];
       var head := KeyHead(b, false);
       && !head.NoHead? && head.key == e.key && IsObjectItem(b)
       && ParseFirstValue(head, ls) == Ok(Parsed(w, rest))
  }

  lemma FirstPropReads(e: Entry, tail: string, l: Line, next: seq<Line>, rest: seq<Line>, w: Value)
    requires IsKey(e.key) && l.content == "- " + e.key + ":" + tail
    requires ParseFirstValue(PropHead(e.key, tail), [l] + next) == Ok(Parsed(w, rest))
    ensures FirstReads(e, [l] + next, rest, w)
  {
    hide ParseFirstValue;
    PropHeadOf(e.key, tail, false);
    assert l.content[2..] == e.key + ":" + tail;
  }

  lemma ArrayHeadIsObject(key: string, n: nat, tail: string)
    requires IsKey(key)
    requires IsFieldList(FieldsOf(tail)) || (AllSpace(tail) && (NatText(n) == "0" || NatText(n)[0] != '0'))
    ensures var b := HeaderText(key, n, tail);
            KeyHead(b, false) == ArrayHead(key, NatText(n), tail) && IsObjectItem(b)
  {
    hide FieldsOf, IsFieldList, AllSpace, NatText, KeyHead;
    ArrayHeadOf(key, n, tail, false);
  }

  lemma DashTexts(key: string, u: string)
    ensures "- " + key + u == "- " + (key + u)
    ensures ("- " + (key + u))[2..] == key + u && "- " + key <= "- " + (key + u)
  {
  }

  lemma FirstArrayReads(e: Entry, n: nat, tail: string, l: Line, next: seq<Line>, rest: seq<Line>, w: Value)
    requires IsKey(e.key) && l.content == "- " + HeaderText(e.key, n, tail)
    requires !FormOf(NatText(n), tail, next, l.ind).OtherForm?
    requires ParseArrayForm(FormOf(NatText(n), tail, next, l.ind), next, l.ind) == Ok(Parsed(w, rest))
    ensures FirstReads(e, [l] + next, rest, w)
  {
    hide ParseArrayForm, FormOf, KeyHead, NatText, HeaderText, IsKey, FieldsOf, IsFieldList, AllSpace, IsObjectItem;
    FormIsObject(n, tail, next, l.ind);
    ArrayHeadIsObject(e.key, n, tail);
    HeaderStart(e.key, n, tail);
    assert ([l] + next)[0] == l && ([l] + next)[1..] == next;
  }

  lemma HeaderStart(key: string, n: nat, tail: string)
    ensures var b := HeaderText(key, n, tail);
            ("- " + b)[2..] == b && "- " + key <= "- " + b
  {
    var u := "[" + NatText(n) + "]:" + tail;
    assert HeaderText(key, n, tail) == key + u;
    DashTexts(key, u);
  }

  lemma FormIsObject(n: nat, tail: string, next: seq<Line>, p: nat)
    requires !FormOf(NatText(n), tail, next, p).OtherForm?
    ensures IsFieldList(FieldsOf(tail)) || (AllSpace(tail) && (NatText(n) == "0" || NatText(n)[0] != '0'))
  {
  }

  lemma FirstArrayLines(e: Entry, indent: nat, s: nat, rest: seq<Line>)
    requires e.val.Arr?
    ensures Shift(FirstLines(e, indent), s) + rest ==
      [Line(2 * indent + s, "- " + HeaderText(e.key, |e.val.items|, ArrayTail(e.key, e.val.items, 0)))]
      + (Shift(ArrayBody(e.key, e.val.items, 0), 2 * indent + s + 2) + rest)
  {
    hide ArrayTail, ArrayBody, HeaderText;
    var header := HeaderText(e.key, |e.val.items|, ArrayTail(e.key, e.val.items, 0));
    ShiftDash(header, 0, ArrayBody(e.key, e.val.items, 0), indent, s, rest);
    assert 2 * indent + 2 + s == 2 * indent + s + 2;
  }

  lemma FirstArrayBack(e: Entry, indent: nat, s: nat, rest: seq<Line>, w: Value)
    requires IsKey(e.key) && e.val.Arr? && (e.val.items == [] || !AllScalars(e.val.items))
    requires Reads(e.key, e.val.items, 0, 2 * indent + s + 2, 2 * indent + s, rest, w)
    ensures FirstReads(e, Shift(FirstLines(e, indent), s) + rest, rest, w)
  {
    hide ParseArrayForm, FormOf, FirstReads, FirstLines, ArrayTail, ArrayBody, HeaderText, NatText, AllScalars, IsKey;
    var c, n := 2 * indent + s, |e.val.items|;
    var tail, body := ArrayTail(e.key, e.val.items, 0), ArrayBody(e.key, e.val.items, 0);
    FirstArrayLines(e, indent, s, rest);
    FirstArrayReads(e, n, tail, Line(c, "- " + HeaderText(e.key, n, tail)), Shift(body, c + 2) + rest, rest, w);
  }

  lemma FirstLine(e: Entry, tail: string, indent: nat, s: nat, rest: seq<Line>)
    requires FirstLines(e, indent) == [Line(2 * indent, "- " + e.key + ":" + tail)]
    ensures Shift(FirstLines(e, indent), s) + rest == [Line(2 * indent + s, "- " + e.key + ":" + tail)] + rest
  {
    hide FirstLines;
    ShiftOne(Line(2 * indent, "- " + e.key + ":" + tail), s, rest);
  }

  lemma FirstScalarLines(e: Entry, indent: nat)
    ensures IsScalar(e.val) ==> FirstLines(e, indent) == [Line(2 * indent, "- " + e.key + ":" + PrimText(e.val))]
    ensures e.val == Obj([]) ==> FirstLines(e, indent) == [Line(2 * indent, "- " + e.key + ":" + "{}")]
  {
    hide PrimText;
    assert e.key + ":{}" == e.key + ":" + "{}";
    assert "- " + e.key + ":{}" == "- " + e.key + ":" + "{}";
  }

  lemma FirstScalarBack(e: Entry, indent: nat, s: nat, rest: seq<Line>)
    requires IsKey(e.key) && IsScalar(e.val) && Clean(e.val) && e.val != Str("{}")
    ensures FirstReads(e, Shift(FirstLines(e, indent), s) + rest, rest, e.val)
  {
    hide ParseScalarValue, PrimText, FirstReads, FirstLines, Clean, IsKey, TrimRight, AllSpace;
    var tail := PrimText(e.val);
    var l := Line(2 * indent + s, "- " + e.key + ":" + tail);
    ScalarTail(e.val);
    FirstScalarLines(e, indent);
    FirstLine(e, tail, indent, s, rest);
    assert ([l] + rest)[1..] == rest;
    assert ParseFirstValue(PropHead(e.key, tail), [l] + rest) == Ok(Parsed(e.val, rest));
    FirstPropReads(e, tail, l, rest, rest, e.val);
  }

  lemma FirstEmptyBack(e: Entry, indent: nat, s: nat, rest: seq<Line>)
    requires IsKey(e.key) && e.val == Obj([])
    ensures FirstReads(e, Shift(FirstLines(e, indent), s) + rest, rest, e.val)
  {
    hide FirstReads, FirstLines, IsKey;
    var l := Line(2 * indent + s, "- " + e.key + ":" + "{}");
    FirstScalarLines(e, indent);
    FirstLine(e, "{}", indent, s, rest);
    TrimSolid("{}");
    assert ([l] + rest)[1..] == rest;
    FirstPropReads(e, "{}", l, rest, rest, e.val);
  }

  lemma FirstBlockLines(e: Entry, indent: nat, s: nat, rest: seq<Line>)
    requires e.val.Obj? && e.val.entries != []
    ensures Shift(FirstLines(e, indent), s) + rest ==
      [Line(2 * indent + s, "- " + e.key + ":" + "")] + (Shift(EntriesLines("", e.val.entries, indent + 2), s) + rest)
  {
    hide EntriesLines;
    assert "- " + e.key + ":" == "- " + e.key + ":" + "";
    ShiftCons(Line(2 * indent, "- " + e.key + ":" + ""), EntriesLines("", e.val.entries, indent + 2), s, rest);
  }

  lemma FirstBlockValue(key: string, l: Line, next: seq<Line>)
    ensures ParseFirstValue(PropHead(key, ""), [l] + next) ==
      match ParseBlock(next, l.ind + 4, []) {
        case Err(x) => Err(x)
        case Ok(p) => Ok(Parsed(Obj(p.value), p.rest))
      }
  {
    hide ParseBlock;
    assert TrimRight("") == "";
    assert ([l] + next)[0] == l && ([l] + next)[1..] == next;
  }

  lemma FirstBlockBack(e: Entry, indent: nat, s: nat, rest: seq<Line>, ws: seq<Entry>)
    requires IsKey(e.key) && e.val.Obj? && e.val.entries != []
    requires ParseBlock(Shift(EntriesLines("", e.val.entries, indent + 2), s) + rest, 2 * indent + s + 4, [])
          == Ok(Parsed(ws, rest))
    ensures FirstReads(e, Shift(FirstLines(e, indent), s) + rest, rest, Obj(ws))
  {
    hide ParseBlock, EntriesLines, FirstReads, FirstLines, IsKey, ParseFirstValue, Shift;
    var l := Line(2 * indent + s, "- " + e.key + ":" + "");
    var next := Shift(EntriesLines("", e.val.entries, indent + 2), s) + rest;
    FirstBlockLines(e, indent, s, rest);
    FirstBlockValue(e.key, l, next);
    FirstPropReads(e, "", l, next, rest, Obj(ws));
  }

  lemma {:induction false} FirstBack(e: Entry, indent: nat, s: nat, rest: seq<Line>) returns (w: Value)
    requires IsKey(e.key) && Clean(e.val) && SafeFirst(e, indent)
    requires Follow(rest, 2 * indent + s + 2)
    ensures PyEq(w, e.val)
    ensures FirstReads(e, Shift(FirstLines(e, indent), s) + rest, rest, w)
    decreases e, 5
  {
    hide FirstReads, FirstLines, ParseBlock, Reads, EntriesLines, IsKey;
    var c := 2 * indent + s;
    match e.val
    case Arr(items) =>
      w := ArrayBack(e.key, items, 0, c + 2, c, rest);
      FirstArrayBack(e, indent, s, rest, w);
    case Obj(sub) =>
      if sub == [] {
        w := e.val;
        FirstEmptyBack(e, indent, s, rest);
      } else {
        var ws := BlockEntriesBack(sub, indent + 2, s, rest, []);
        assert [] + ws == ws;
        SameEntriesPyEq(ws, sub);
        w := Obj(ws);
        FirstBlockBack(e, indent, s, rest, ws);
      }
    case _ =>
      w := e.val;
      PrintableClean(w);
      FirstScalarBack(e, indent, s, rest);
  }

  /** A list item that starts with a key, in terms of its first value and the keys after it. */
  lemma KeyedItem(key: string, ls: seq<Line>, itemIndent: nat)
    requires ls != [] && IsKey(key) && "- " + key <= ls[0].content && itemIndent < ls[0].ind + 2
    requires var head := KeyHead(ls[0].content[2..], false);
             !head.NoHead? && head.key == key
    ensures var b := ls[0].content[2..];
      ParseItem(ls, itemIndent) ==
        if !IsObjectItem(b) then Ok(Parsed(ParseScalarValue(b), ls[1..]))
        else match ParseFirstValue(KeyHead(b, false), ls) {
          case Err(x) => Err(x)
          case Ok(f) =>
            match ParseBlock(f.rest, ls[0].ind + 2, [Entry(key, f.value)]) {
              case Err(x) => Err(x)
              case Ok(p) => Ok(Parsed(Obj(p.value), p.rest))
            }
        }
  {
    hide ParseFirstValue, ParseBlock, ParseItemBody, IsObjectItem, KeyHead, TrimRight, DashBody, ParseScalarValue;
    var b := ls[0].content[2..];
    assert ls[0].content == "- " + b && key <= b && b[0] == key[0];
    DashBodyOf(b);
    TrimRightHead(b);
    if IsObjectItem(b) {
      var r := ParseFirstValue(KeyHead(b, false), ls);
      if r.Ok? {
        ItemBodyIsBlock(r.value.rest, ls[0].ind + 2, itemIndent, [Entry(key, r.value.value)]);
      }
    }
  }

  lemma ObjectItem(e: Entry, ls: seq<Line>, mid: seq<Line>, w: Value, itemIndent: nat)
    requires IsKey(e.key) && FirstReads(e, ls, mid, w) && itemIndent < ls[0].ind + 2
    ensures ParseItem(ls, itemIndent) ==
      match ParseBlock(mid, ls[0].ind + 2, [Entry(e.key, w)]) {
        case Err(x) => Err(x)
        case Ok(p) => Ok(Parsed(Obj(p.value), p.rest))
      }
  {
    hide ParseItem, ParseFirstValue, ParseBlock, IsObjectItem, IsKey, KeyHead;
    KeyedItem(e.key, ls, itemIndent);
  }

  lemma {:induction false} ItemBack(v: Value, indent: nat, s: nat, rest: seq<Line>, itemIndent: nat) returns (w: Value)
    requires Clean(v) && SafeItem(v, indent) && itemIndent <= 2 * indent + s && Follow(rest, 2 * indent + s)
    ensures PyEq(w, v)
    ensures ItemReads(Shift(ItemLines(v, indent), s) + rest, itemIndent, w, rest)
    decreases v, 4
  {
    hide ItemReads, ItemLines, Reads;
    var c := 2 * indent + s;
    match v
    case Arr(items) =>
      w := ArrayBack("", items, 0, c + 2, c, rest);
      ArrayItemBack(items, indent, s, rest, itemIndent, w);
    case Obj(es) =>
      if es == [] {
        w := v;
        EmptyItemBack(indent, s, rest, itemIndent);
      } else {
        w := ObjectBack(es, indent, s, rest, itemIndent);
      }
    case _ =>
      w := v;
      PrintableClean(v);
      ScalarItemBack(v, indent, s, rest, itemIndent);
  }

  lemma ScalarItemBack(v: Value, indent: nat, s: nat, rest: seq<Line>, itemIndent: nat)
    requires Clean(v) && IsScalar(v) && (v.Str? ==> NeedsQuoting(v.s) || !LooksStructured(v.s))
    ensures ItemReads(Shift(ItemLines(v, indent), s) + rest, itemIndent, v, rest)
  {
    var l := Line(2 * indent + s, "- " + PrimText(v));
    ScalarBody(v);
    ShiftOne(Line(2 * indent, l.content), s, rest);
    assert ItemLines(v, indent) == [Line(2 * indent, l.content)];
    hide ItemReads, ItemLines, PrimText, IsObjectItem, ParseScalarValue, RootHead;
    ScalarItemLine(PrimText(v), v, l, rest, itemIndent);
  }

  lemma EmptyItemBack(indent: nat, s: nat, rest: seq<Line>, itemIndent: nat)
    ensures ItemReads(Shift(ItemLines(Obj([]), indent), s) + rest, itemIndent, Obj([]), rest)
  {
    hide DashBody, TrimRight, IsObjectItem, RootHead;
    var l := Line(2 * indent + s, "- {}");
    ShiftOne(Line(2 * indent, "- {}"), s, rest);
    DashBodyOf("{}");
    TrimSolid("{}");
    assert "- " + "{}" == "- {}";
    assert ([l] + rest)[0] == l;
  }

  lemma ArrayItem(n: nat, tail: string, c: nat, next: seq<Line>, rest: seq<Line>, itemIndent: nat, w: Value)
    requires var form := FormOf(NatText(n), tail, next, c);
      if form.OtherForm? then ParseFlat(NatText(n), tail) == Ok(w) && next == rest
      else ParseArrayForm(form, next, c) == Ok(Parsed(w, rest))
    ensures ItemReads([Line(c, "- " + HeaderText("", n, tail))] + next, itemIndent, w, rest)
  {
    hide ParseArrayForm, ParseFlat, FormOf, NatText, DashBody, RootHead, TrimRight;
    var l, b := Line(c, "- " + HeaderText("", n, tail)), HeaderText("", n, tail);
    assert b[0] == '[';
    DashBodyOf(b);
    TrimRightHead(b);
    RootHeadOf(n, tail);
    assert ([l] + next)[0] == l && ([l] + next)[1..] == next;
    assert ParseArrayHere(NatText(n), tail, [l] + next, c) == Ok(Parsed(w, rest));
  }

  lemma ArrayItemLines(items: seq<Value>, indent: nat, s: nat, rest: seq<Line>)
    ensures Shift(ItemLines(Arr(items), indent), s) + rest ==
      [Line(2 * indent + s, "- " + HeaderText("", |items|, ArrayTail("", items, 0)))]
      + (Shift(ArrayBody("", items, 0), 2 * indent + s + 2) + rest)
  {
    hide ArrayTail, ArrayBody, HeaderText;
    ShiftDash(HeaderText("", |items|, ArrayTail("", items, 0)), 0, ArrayBody("", items, 0), indent, s, rest);
    assert 2 * indent + 2 + s == 2 * indent + s + 2;
  }

  lemma ArrayItemBack(items: seq<Value>, indent: nat, s: nat, rest: seq<Line>, itemIndent: nat, w: Value)
    requires Reads("", items, 0, 2 * indent + s + 2, 2 * indent + s, rest, w)
    ensures ItemReads(Shift(ItemLines(Arr(items), indent), s) + rest, itemIndent, w, rest)
  {
    hide ParseArrayForm, FormOf, ParseFlat, ItemReads, ItemLines, ArrayTail, ArrayBody, HeaderText, NatText, AllScalars;
    var c, n := 2 * indent + s, |items|;
    ArrayItemLines(items, indent, s, rest);
    ArrayItem(n, ArrayTail("", items, 0), c, Shift(ArrayBody("", items, 0), c + 2) + rest, rest, itemIndent, w);
  }

  lemma {:induction false} ObjectBack(es: seq<Entry>, indent: nat, s: nat, rest: seq<Line>, itemIndent: nat) returns (w: Value)
    requires es != [] && Clean(Obj(es)) && SafeFirst(es[0], indent) && SafeEntries("", es[1..], indent + 1)
    requires itemIndent <= 2 * indent + s && Follow(rest, 2 * indent + s)
    ensures PyEq(w, Obj(es))
    ensures ItemReads(Shift(ItemLines(Obj(es), indent), s) + rest, itemIndent, w, rest)
    decreases es, 2
  {
    hide FirstReads, ItemReads, FirstLines, EntriesLines, ItemLines, ParseBlock, SafeFirst, SafeEntries, Clean, NoneIn,
      Shift, PyEq, Distinct, IsKey;
    var e, tail := es[0], es[1..];
    var mid := Shift(EntriesLines("", tail, indent + 1), s) + rest;
    CleanTail(es);
    EntriesFollow("", tail, indent + 1, s, rest, 2 * indent + s + 2);
    var w0 := FirstBack(e, indent, s, mid);
    var ws := BlockEntriesBack(tail, indent + 1, s, rest, [Entry(e.key, w0)]);
    ObjectItemBack(es, indent, s, rest, mid, itemIndent, w0, [Entry(e.key, w0)] + ws);
    ObjectEq(es, w0, ws);
    w := Obj([Entry(e.key, w0)] + ws);
  }

  lemma ObjectEq(es: seq<Entry>, w: Value, ws: seq<Entry>)
    requires es != [] && Distinct(es) && PyEq(w, es[0].val) && SameEntries(ws, es[1..])
    ensures PyEq(Obj([Entry(es[0].key, w)] + ws), Obj(es))
  {
    SameEntriesCons(Entry(es[0].key, w), ws, es);
    SameEntriesPyEq([Entry(es[0].key, w)] + ws, es);
  }

  lemma CleanTail(es: seq<Entry>)
    requires es != [] && Clean(Obj(es))
    ensures IsKey(es[0].key) && Clean(es[0].val) && Distinct(es)
    ensures Clean(Obj(es[1..])) && (es[1..] != [] ==> IsKey(es[1..][0].key))
    ensures forall x :: NoneIn([Entry(es[0].key, x)], es[1..])
  {
    assert forall i | 0 <= i < |es[1..]| :: es[1..][i] == es[i + 1];
  }

  lemma SameEntriesCons(e: Entry, ws: seq<Entry>, es: seq<Entry>)
    requires es != [] && e.key == es[0].key && PyEq(e.val, es[0].val) && SameEntries(ws, es[1..])
    ensures SameEntries([e] + ws, es)
  {
  }

  lemma ObjectItemLines(es: seq<Entry>, indent: nat, s: nat, rest: seq<Line>)
    requires es != []
    ensures Shift(ItemLines(Obj(es), indent), s) + rest
         == Shift(FirstLines(es[0], indent), s) + (Shift(EntriesLines("", es[1..], indent + 1), s) + rest)
  {
    hide FirstLines, EntriesLines;
    ShiftSplit(FirstLines(es[0], indent), EntriesLines("", es[1..], indent + 1), s, rest);
  }

  lemma ObjectItemBack(es: seq<Entry>, indent: nat, s: nat, rest: seq<Line>, mid: seq<Line>, itemIndent: nat,
                       w0: Value, ws: seq<Entry>)
    requires es != [] && IsKey(es[0].key) && itemIndent <= 2 * indent + s
    requires mid == Shift(EntriesLines("", es[1..], indent + 1), s) + rest
    requires FirstReads(es[0], Shift(FirstLines(es[0], indent), s) + mid, mid, w0)
    requires ParseBlock(mid, 2 * indent + s + 2, [Entry(es[0].key, w0)]) == Ok(Parsed(ws, rest))
    ensures ItemReads(Shift(ItemLines(Obj(es), indent), s) + rest, itemIndent, Obj(ws), rest)
  {
    hide FirstReads, FirstLines, EntriesLines, ItemLines, ParseItem, ParseBlock, IsKey;
    var ls := Shift(FirstLines(es[0], indent), s) + mid;
    FirstIndent(es[0], indent);
    assert ls != [] && ls[0].ind == 2 * indent + s;
    ObjectItemLines(es, indent, s, rest);
    ObjectItem(es[0], ls, mid, w0, itemIndent);
  }

  lemma FirstIndent(e: Entry, indent: nat)
    ensures FirstLines(e, indent) != [] && FirstLines(e, indent)[0].ind == 2 * indent
  {
  }

  lemma {:induction false} EntriesBack(parts: seq<string>, prefix: string, es: seq<Entry>, indent: nat, s: nat,
                                       rest: seq<Line>, min: nat, t: seq<Entry>, done: seq<Entry>)
    returns (ws: seq<Entry>)
    requires IsKeys(parts) && CanFill(t, parts)
    requires prefix == if parts == [] then "" else JoinWith(parts, '.') + "."
    requires Clean(Obj(es)) && SafeEntries(prefix, es, indent) && NoneIn(done, es)
    requires min <= 2 * indent + s && Follow(rest, 2 * indent + s)
    ensures SameEntries(ws, es)
    ensures ParseBlock(Shift(EntriesLines(prefix, es, indent), s) + rest, min, Current(t, parts, done))
         == ParseBlock(rest, min, Current(t, parts, done + ws))
    decreases es, 0
  {
    hide ParseBlock, Current, CanFill, SafeProp, EntriesLines, SafeEntries, PropReads, Follow, Clean, JoinWith,
      IsKeys, IsKey, NoneIn, Shift, Open;
    if es == [] {
      ws := [];
      EntriesNone(prefix, indent, s, rest);
      assert done + ws == done;
    } else {
      EntriesUnfold(prefix, es, indent);
      var e, tail := es[0], es[1..];
      CleanTail(es);
      NoneStep(t, parts, done, es);
      EntriesFollow(prefix, tail, indent, s, rest, 2 * indent + s);
      PathStep(parts, prefix, e.key);
      var w := PropBack(parts + [e.key], prefix + e.key, e.val, indent, s,
                        Shift(EntriesLines(prefix, tail, indent), s) + rest, min, Current(t, parts, done));
      var later := EntriesBack(parts, prefix, tail, indent, s, rest, min, t, done + [Entry(e.key, w)]);
      EntriesAssemble(parts, prefix, es, indent, s, rest, min, t, done, w, later);
      ws := [Entry(e.key, w)] + later;
    }
  }

  lemma EntriesNone(prefix: string, indent: nat, s: nat, rest: seq<Line>)
    ensures Shift(EntriesLines(prefix, [], indent), s) + rest == rest
  {
  }

  /** Entries of a block, to its end. */
  lemma {:induction false} BlockEntriesBack(es: seq<Entry>, indent: nat, s: nat, rest: seq<Line>, done: seq<Entry>)
    returns (ws: seq<Entry>)
    requires Clean(Obj(es)) && SafeEntries("", es, indent) && NoneIn(done, es)
    requires indent > 0 && Follow(rest, 2 * indent + s - 1)
    ensures SameEntries(ws, es)
    ensures ParseBlock(Shift(EntriesLines("", es, indent), s) + rest, 2 * indent + s, done) == Ok(Parsed(done + ws, rest))
    decreases es, 1
  {
    hide ParseBlock, SafeEntries, EntriesLines, Clean, NoneIn, Shift;
    ws := EntriesBack([], "", es, indent, s, rest, 2 * indent + s, [], done);
    BlockStops(rest, 2 * indent + s, done + ws);
  }

  /** No key of `es` is among those already done. */
  ghost predicate NoneIn(done: seq<Entry>, es: seq<Entry>) {
    forall i | 0 <= i < |es| :: !HasKey(done, es[i].key)
  }

  lemma NoneStep(t: seq<Entry>, parts: seq<string>, done: seq<Entry>, es: seq<Entry>)
    requires es != [] && Distinct(es) && NoneIn(done, es) && CanFill(t, parts)
    ensures Open(Current(t, parts, done), parts + [es[0].key])
    ensures forall x :: NoneIn(done + [Entry(es[0].key, x)], es[1..])
  {
    CurrentStep(t, parts, done, es[0].key, Null);
    forall x ensures NoneIn(done + [Entry(es[0].key, x)], es[1..]) {
      forall i | 0 <= i < |es[1..]| ensures !HasKey(done + [Entry(es[0].key, x)], es[1..][i].key) {
        HasKeyConcat(done, [Entry(es[0].key, x)], es[1..][i].key);
        assert es[1..][i] == es[i + 1];
      }
    }
  }

  lemma EntriesAssemble(parts: seq<string>, prefix: string, es: seq<Entry>, indent: nat, s: nat, rest: seq<Line>,
                        min: nat, t: seq<Entry>, done: seq<Entry>, w: Value, later: seq<Entry>)
    requires es != [] && CanFill(t, parts) && NoneIn(done, es)
    requires PyEq(w, es[0].val) && SameEntries(later, es[1..])
    requires var more := Shift(EntriesLines(prefix, es[1..], indent), s) + rest;
      && PropReads(Shift(PropLines(prefix + es[0].key, es[0].val, indent), s) + more, more, min,
                   Current(t, parts, done), parts + [es[0].key], w)
      && ParseBlock(more, min, Current(t, parts, done + [Entry(es[0].key, w)]))
      == ParseBlock(rest, min, Current(t, parts, done + [Entry(es[0].key, w)] + later))
    ensures SameEntries([Entry(es[0].key, w)] + later, es)
    ensures ParseBlock(Shift(EntriesLines(prefix, es, indent), s) + rest, min, Current(t, parts, done))
         == ParseBlock(rest, min, Current(t, parts, done + ([Entry(es[0].key, w)] + later)))
  {
    hide ParseBlock, Current, CanFill, EntriesLines, PropLines, PropReads, Shift;
    var e, more := es[0], Shift(EntriesLines(prefix, es[1..], indent), s) + rest;
    EntriesUnfold(prefix, es, indent);
    ShiftSplit(PropLines(prefix + e.key, e.val, indent), EntriesLines(prefix, es[1..], indent), s, rest);
    PropContinues(Shift(PropLines(prefix + e.key, e.val, indent), s) + more, more, min, Current(t, parts, done),
                  parts + [e.key], w);
    CurrentStep(t, parts, done, e.key, w);
    SameEntriesCons(Entry(e.key, w), later, es);
    assert done + [Entry(e.key, w)] + later == done + ([Entry(e.key, w)] + later);
  }

  lemma PropContinues(ls: seq<Line>, rest: seq<Line>, min: nat, t: seq<Entry>, parts: seq<string>, w: Value)
    requires parts != [] && PropReads(ls, rest, min, t, parts, w)
    ensures SetNested(t, parts, w).Ok?
    ensures ParseBlock(ls, min, t) == ParseBlock(rest, min, SetNested(t, parts, w).value)
  {
    hide ParseBlock, SetNested;
  }

  lemma EntriesUnfold(prefix: string, es: seq<Entry>, indent: nat)
    requires es != []
    ensures EntriesLines(prefix, es, indent)
         == PropLines(prefix + es[0].key, es[0].val, indent) + EntriesLines(prefix, es[1..], indent)
    ensures SafeEntries(prefix, es, indent)
       <==> SafeProp(prefix + es[0].key, es[0].val, indent) && SafeEntries(prefix, es[1..], indent)
  {
  }

  lemma PathStep(parts: seq<string>, prefix: string, k: string)
    requires IsKeys(parts) && IsKey(k)
    requires prefix == if parts == [] then "" else JoinWith(parts, '.') + "."
    ensures IsKeys(parts + [k]) && prefix + k == JoinWith(parts + [k], '.')
  {
    if parts == [] {
      assert parts + [k] == [k];
    } else {
      JoinSnoc(parts, k, '.');
    }
  }

  /** One property line with everything that belongs to it. */
  lemma PropLineBack(parts: seq<string>, path: string, tail: string, c: nat, next: seq<Line>, min: nat,
                     t: seq<Entry>, w: Value, rest: seq<Line>)
    requires parts != [] && IsKeys(parts) && path == JoinWith(parts, '.') && min <= c && Open(t, parts)
    requires ParsePropValue(PropHead(path, tail), [Line(c, path + ":" + tail)] + next, c) == Ok(Parsed(w, rest))
    ensures SetNested(t, parts, w).Ok?
    ensures ParseBlock([Line(c, path + ":" + tail)] + next, min, t) == ParseBlock(rest, min, SetNested(t, parts, w).value)
  {
    hide ParsePropValue, ParseBlock, SetNested;
    PathOf(parts);
    PropHeadOf(path, tail, true);
    OpenAny(t, parts, w);
    BlockLine(Line(c, path + ":" + tail), next, min, t, parts, w, rest);
  }

  lemma ArrayLineBack(parts: seq<string>, path: string, n: nat, tail: string, c: nat, next: seq<Line>, min: nat,
                      t: seq<Entry>, w: Value, rest: seq<Line>)
    requires parts != [] && IsKeys(parts) && path == JoinWith(parts, '.') && min <= c && Open(t, parts)
    requires var form := FormOf(NatText(n), tail, next, c);
      if form.OtherForm? then tail != "" && ParseFlat(NatText(n), tail) == Ok(w) && next == rest
      else ParseArrayForm(form, next, c) == Ok(Parsed(w, rest))
    ensures SetNested(t, parts, w).Ok?
    ensures ParseBlock([Line(c, HeaderText(path, n, tail))] + next, min, t)
         == ParseBlock(rest, min, SetNested(t, parts, w).value)
  {
    hide ParseArrayForm, ParseFlat, FormOf, ParseBlock, SetNested;
    var l := Line(c, HeaderText(path, n, tail));
    PathOf(parts);
    ArrayHeadOf(path, n, tail, true);
    OpenAny(t, parts, w);
    assert ([l] + next)[1..] == next;
    assert ParseArrayHere(NatText(n), tail, [l] + next, c) == Ok(Parsed(w, rest));
    BlockLine(l, next, min, t, parts, w, rest);
  }

  /** Where a property's lines lead the block loop. */
  ghost predicate PropReads(ls: seq<Line>, rest: seq<Line>, min: nat, t: seq<Entry>, parts: seq<string>, w: Value)
    requires parts != []
  {
    && SetNested(t, parts, w).Ok?
    && ParseBlock(ls, min, t) == ParseBlock(rest, min, SetNested(t, parts, w).value)
  }

  lemma PropArrayLines(path: string, items: seq<Value>, indent: nat, s: nat, rest: seq<Line>)
    ensures Shift(PropLines(path, Arr(items), indent), s) + rest ==
      [Line(2 * indent + s, HeaderText(path, |items|, ArrayTail(path, items, indent)))]
      + (Shift(ArrayBody(path, items, indent), s) + rest)
  {
    hide ArrayTail, ArrayBody, HeaderText;
    ShiftCons(HeaderLine(path, items, ArrayTail(path, items, indent), indent), ArrayBody(path, items, indent), s, rest);
  }

  lemma PropArrayBack(parts: seq<string>, path: string, items: seq<Value>, indent: nat, s: nat, rest: seq<Line>,
                      min: nat, t: seq<Entry>, w: Value)
    requires parts != [] && IsKeys(parts) && path == JoinWith(parts, '.') && min <= 2 * indent + s && Open(t, parts)
    requires Reads(path, items, indent, s, 2 * indent + s, rest, w)
    ensures PropReads(Shift(PropLines(path, Arr(items), indent), s) + rest, rest, min, t, parts, w)
  {
    hide ParseArrayForm, FormOf, ParseFlat, PropLines, ArrayTail, ArrayBody, ParseBlock, SetNested, Open, JoinWith, Shift,
      HeaderText, NatText, AllScalars, IsKeys;
    PropArrayLines(path, items, indent, s, rest);
    ArrayLineBack(parts, path, |items|, ArrayTail(path, items, indent), 2 * indent + s,
                  Shift(ArrayBody(path, items, indent), s) + rest, min, t, w, rest);
  }

  lemma ScalarTail(v: Value)
    requires Clean(v) && IsScalar(v)
    ensures var tail := PrimText(v);
      TrimRight(tail) == tail && !AllSpace(tail) && ParseScalarValue(tail) == v && (tail == "{}" ==> v == Str("{}"))
  {
    PrintableClean(v);
    PrimitiveRoundTrip(v);
    TrimSolid(PrimText(v));
    TrimRightBlank(PrimText(v));
  }

  lemma PropOneLine(path: string, v: Value, tail: string, indent: nat, s: nat, rest: seq<Line>)
    requires PropLines(path, v, indent) == [Line(2 * indent, path + ":" + tail)]
    ensures Shift(PropLines(path, v, indent), s) + rest == [Line(2 * indent + s, path + ":" + tail)] + rest
    ensures ([Line(2 * indent + s, path + ":" + tail)] + rest)[1..] == rest
  {
    hide PropLines;
    ShiftOne(Line(2 * indent, path + ":" + tail), s, rest);
  }

  lemma PropSingleLines(path: string, v: Value, indent: nat)
    ensures IsScalar(v) ==> PropLines(path, v, indent) == [Line(2 * indent, path + ":" + PrimText(v))]
    ensures v == Obj([]) ==> PropLines(path, v, indent) == [Line(2 * indent, path + ":" + "{}")]
  {
    hide PrimText;
    assert path + ":{}" == path + ":" + "{}";
  }

  lemma PropScalarBack(parts: seq<string>, path: string, v: Value, indent: nat, s: nat, rest: seq<Line>,
                       min: nat, t: seq<Entry>)
    requires parts != [] && IsKeys(parts) && path == JoinWith(parts, '.') && min <= 2 * indent + s && Open(t, parts)
    requires Clean(v) && IsScalar(v) && v != Str("{}")
    ensures PropReads(Shift(PropLines(path, v, indent), s) + rest, rest, min, t, parts, v)
  {
    hide ParseBlock, SetNested, Open, JoinWith, ParseScalarValue, PrimText, Clean, TrimRight, AllSpace, IsKeys, PropLines;
    var tail := PrimText(v);
    var c, l := 2 * indent + s, Line(2 * indent + s, path + ":" + tail);
    ScalarTail(v);
    PropSingleLines(path, v, indent);
    PropOneLine(path, v, tail, indent, s, rest);
    assert ParsePropValue(PropHead(path, tail), [l] + rest, c) == Ok(Parsed(v, rest));
    PropLineBack(parts, path, tail, c, rest, min, t, v, rest);
  }

  lemma PropEmptyBack(parts: seq<string>, path: string, indent: nat, s: nat, rest: seq<Line>, min: nat, t: seq<Entry>)
    requires parts != [] && IsKeys(parts) && path == JoinWith(parts, '.') && min <= 2 * indent + s && Open(t, parts)
    ensures PropReads(Shift(PropLines(path, Obj([]), indent), s) + rest, rest, min, t, parts, Obj([]))
  {
    hide PropLines, ParseBlock, SetNested, Open, JoinWith, IsKeys;
    var c, l := 2 * indent + s, Line(2 * indent + s, path + ":" + "{}");
    TrimSolid("{}");
    PropSingleLines(path, Obj([]), indent);
    PropOneLine(path, Obj([]), "{}", indent, s, rest);
    assert ParsePropValue(PropHead(path, "{}"), [l] + rest, c) == Ok(Parsed(Obj([]), rest));
    PropLineBack(parts, path, "{}", c, rest, min, t, Obj([]), rest);
  }

  lemma PropBlockLines(path: string, body: seq<Line>, indent: nat, s: nat, rest: seq<Line>)
    ensures Shift([Line(2 * indent, path + ":")] + body, s) + rest
         == [Line(2 * indent + s, path + ":" + "")] + (Shift(body, s) + rest)
  {
    assert path + ":" == path + ":" + "";
    ShiftCons(Line(2 * indent, path + ":"), body, s, rest);
  }

  lemma PropBlockValue(path: string, l: Line, next: seq<Line>)
    ensures ParsePropValue(PropHead(path, ""), [l] + next, l.ind) ==
      match ParseBlock(next, l.ind + 2, []) {
        case Err(x) => Err(x)
        case Ok(p) => Ok(Parsed(Obj(p.value), p.rest))
      }
  {
    hide ParseBlock;
    assert TrimRight("") == "";
    assert ([l] + next)[1..] == next;
  }

  lemma PropBlockBack(parts: seq<string>, path: string, es: seq<Entry>, indent: nat, s: nat, rest: seq<Line>,
                      min: nat, t: seq<Entry>, ws: seq<Entry>)
    requires parts != [] && IsKeys(parts) && path == JoinWith(parts, '.') && min <= 2 * indent + s && Open(t, parts)
    requires ParseBlock(Shift(EntriesLines("", es, indent + 1), s) + rest, 2 * indent + s + 2, []) == Ok(Parsed(ws, rest))
    ensures PropReads(Shift([Line(2 * indent, path + ":")] + EntriesLines("", es, indent + 1), s) + rest,
                      rest, min, t, parts, Obj(ws))
  {
    hide EntriesLines, ParseBlock, SetNested, Open, JoinWith, Shift, IsKeys, ParsePropValue;
    var c, body := 2 * indent + s, EntriesLines("", es, indent + 1);
    var l, next := Line(c, path + ":" + ""), Shift(body, s) + rest;
    PropBlockLines(path, body, indent, s, rest);
    PropBlockValue(path, l, next);
    PropLineBack(parts, path, "", c, next, min, t, Obj(ws), rest);
  }

  lemma {:induction false} DottedBack(parts: seq<string>, path: string, es: seq<Entry>, s: nat,
                                      rest: seq<Line>, min: nat, t: seq<Entry>)
    returns (w: Value)
    requires parts != [] && IsKeys(parts) && path == JoinWith(parts, '.') && Open(t, parts)
    requires es != [] && Clean(Obj(es)) && DotChosen(path, es) && SafeEntries(path + ".", es, 0)
    requires min <= s && Follow(rest, s)
    ensures PyEq(w, Obj(es)) && PropReads(Shift(PropLines(path, Obj(es), 0), s) + rest, rest, min, t, parts, w)
    decreases es, 1
  {
    DottedLines(path, es);
    hide PropReads, ParseBlock, SetNested, JoinWith, Open, DotChosen, PropLines, EntriesLines, SafeEntries, Clean, Shift;
    var ws := EntriesBack(parts, path + ".", es, 0, s, rest, min, t, []);
    CleanTail(es);
    SameEntriesPyEq(ws, es);
    w := Obj(ws);
    DottedReads(parts, Shift(EntriesLines(path + ".", es, 0), s) + rest, rest, min, t, ws);
  }

  lemma DottedLines(path: string, es: seq<Entry>)
    requires es != [] && DotChosen(path, es)
    ensures PropLines(path, Obj(es), 0) == EntriesLines(path + ".", es, 0)
  {
  }

  lemma BlockLines(path: string, es: seq<Entry>, indent: nat)
    requires es != [] && !(indent == 0 && DotChosen(path, es))
    ensures PropLines(path, Obj(es), indent) == [Line(2 * indent, path + ":")] + EntriesLines("", es, indent + 1)
  {
  }

  lemma {:induction false} PropBack(parts: seq<string>, path: string, v: Value, indent: nat, s: nat,
                                    rest: seq<Line>, min: nat, t: seq<Entry>)
    returns (w: Value)
    requires parts != [] && IsKeys(parts) && path == JoinWith(parts, '.') && Open(t, parts)
    requires Clean(v) && SafeProp(path, v, indent)
    requires min <= 2 * indent + s && Follow(rest, 2 * indent + s)
    ensures PyEq(w, v) && PropReads(Shift(PropLines(path, v, indent), s) + rest, rest, min, t, parts, w)
    decreases v, 4
  {
    hide PropReads, Reads, ParseBlock, SetNested, JoinWith, Open, DotChosen, Shift, PropLines, IsKeys, EntriesLines;
    var c := 2 * indent + s;
    match v
    case Arr(items) =>
      w := ArrayBack(path, items, indent, s, c, rest);
      PropArrayBack(parts, path, items, indent, s, rest, min, t, w);
    case Obj(es) =>
      if es == [] {
        w := v;
        PropEmptyBack(parts, path, indent, s, rest, min, t);
      } else if indent == 0 && DotChosen(path, es) {
        w := DottedBack(parts, path, es, s, rest, min, t);
      } else {
        var ws := BlockEntriesBack(es, indent + 1, s, rest, []);
        assert [] + ws == ws;
        SameEntriesPyEq(ws, es);
        w := Obj(ws);
        BlockLines(path, es, indent);
        PropBlockBack(parts, path, es, indent, s, rest, min, t, ws);
      }
    case _ =>
      w := v;
      PrintableClean(v);
      PropScalarBack(parts, path, v, indent, s, rest, min, t);
  }

  lemma DottedReads(parts: seq<string>, ls: seq<Line>, rest: seq<Line>, min: nat, t: seq<Entry>, ws: seq<Entry>)
    requires parts != [] && Open(t, parts) && ws != []
    requires ParseBlock(ls, min, Current(t, parts, [])) == ParseBlock(rest, min, Current(t, parts, [] + ws))
    ensures PropReads(ls, rest, min, t, parts, Obj(ws))
  {
    hide ParseBlock;
    assert [] + ws == ws;
    OpenAny(t, parts, Obj(ws));
  }
}
