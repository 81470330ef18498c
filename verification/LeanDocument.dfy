// Whole documents: printed lines split back into the same lines, and surviving values decode
// to themselves.

module LeanDocument {
  import opened Common
  import opened LeanText
  import opened LeanValue
  import opened LeanScalar
  import opened LeanEncode
  import opened LeanDecode
  import opened LeanSafe
  import opened LeanHeads
  import opened LeanNesting
  import opened LeanRows
  import opened LeanRoundTrip

  // --- Every printed line is one physical line --------------------------------

  predicate GoodText(t: string) {
    t == "" || IsToken(t)
  }

  ghost predicate LinesOk(ls: seq<Line>) {
    forall i | 0 <= i < |ls| :: GoodText(ls[i].content)
  }

  predicate PathText(path: string) {
    forall i | 0 <= i < |path| :: PathChar(path[i], true)
  }

  lemma LinesOkConcat(a: seq<Line>, b: seq<Line>)
    requires LinesOk(a) && LinesOk(b)
    ensures LinesOk(a + b)
  {
  }

  lemma LinesOkCons(l: Line, a: seq<Line>)
    requires GoodText(l.content) && LinesOk(a)
    ensures LinesOk([l] + a)
  {
  }

  lemma HeaderOk(path: string, n: nat, tail: string)
    requires PathText(path) && GoodText(tail)
    ensures IsToken(HeaderText(path, n, tail))
  {
    var h := HeaderText(path, n, tail);
    assert h[|h| - 1] == if tail == "" then ':' else tail[|tail| - 1];
    assert h[0] == if path == "" then '[' else path[0];
  }

  lemma PropTextOk(path: string, tail: string)
    requires PathText(path) && path != "" && GoodText(tail)
    ensures IsToken(path + ":" + tail)
  {
    var h := path + ":" + tail;
    assert h[|h| - 1] == if tail == "" then ':' else tail[|tail| - 1];
  }

  lemma DashOk(t: string)
    requires IsToken(t)
    ensures IsToken("- " + t)
  {
    var h := "- " + t;
    assert h[|h| - 1] == t[|t| - 1];
  }

  lemma ShiftOk(ls: seq<Line>, k: nat)
    requires LinesOk(ls)
    ensures LinesOk(Shift(ls, k))
  {
  }

  lemma KeysPathText(k: string)
    requires IsKey(k)
    ensures PathText(k)
  {
  }

  lemma KeyListToken(fields: seq<string>)
    requires IsKeys(fields)
    ensures GoodText(TabJoin(fields))
  {
    if fields != [] {
      forall i | 0 <= i < |fields| ensures IsToken(fields[i]) {
        KeyIsToken(fields[i]);
      }
      JoinedTokens(fields, '\t');
    }
  }

  lemma ArrayTailOk(path: string, vs: seq<Value>, indent: nat)
    requires forall i | 0 <= i < |vs| :: Clean(vs[i])
    ensures GoodText(ArrayTail(path, vs, indent))
  {
    hide LayoutOf, Clean, GoodText;
    match LayoutOf(path, vs, indent)
    case EmptyLayout => EmptyGood();
    case FlatLayout =>
      FlatLines(path, vs, indent);
      FlatBack(vs);
      TokenGood(TabJoin(FlatCells(vs)));
    case TabularLayout =>
      TabularLines(path, vs, indent);
      TabularFields(vs);
      KeyListToken(KeyList(EntriesOf(vs[0])));
    case SemiTabularLayout =>
      SemiTabularLines(path, vs, indent);
      SharedSpec(vs);
      SemiTailOk(Shared(vs));
      TokenGood(TabJoin(Shared(vs)) + "\t~");
    case DashedLayout => EmptyGood();
  }

  lemma EmptyGood()
    ensures GoodText("")
  {
  }

  lemma TokenGood(t: string)
    requires IsToken(t)
    ensures GoodText(t)
  {
  }

  lemma FlatLines(path: string, vs: seq<Value>, indent: nat)
    requires LayoutOf(path, vs, indent).FlatLayout?
    ensures vs != [] && AllScalars(vs) && ArrayTail(path, vs, indent) == TabJoin(FlatCells(vs))
  {
  }

  lemma SemiTailOk(shared: seq<string>)
    requires shared != [] && IsKeys(shared)
    ensures IsToken(TabJoin(shared) + "\t~")
  {
    KeyListToken(shared);
  }

  lemma RowLinesOk(vs: seq<Value>, indent: nat)
    requires IsTabular(vs) && forall i | 0 <= i < |vs| :: Clean(vs[i])
    ensures LinesOk(RowLines(vs, KeyList(EntriesOf(vs[0])), indent))
  {
    var fields := KeyList(EntriesOf(vs[0]));
    var ls := RowLines(vs, fields, indent);
    TabularFields(vs);
    hide Clean, TabJoin, IsToken, FieldCells;
    forall i | 0 <= i < |ls| ensures GoodText(ls[i].content) {
      RowOk(vs[i], fields);
    }
  }

  lemma RowOk(v: Value, fields: seq<string>)
    requires CleanRow(v) && HasFields(EntriesOf(v), fields)
    ensures GoodText(TabJoin(FieldCells(EntriesOf(v), fields)))
  {
    if fields != [] {
      TabularRecord(EntriesOf(v), fields);
    }
  }

  lemma SemiLinesOk(vs: seq<Value>, indent: nat)
    requires vs != [] && Shared(vs) != [] && ScalarRows(vs) && forall i | 0 <= i < |vs| :: Clean(vs[i])
    ensures LinesOk(SemiLines(vs, Shared(vs), indent))
  {
    SharedSpec(vs);
    hide Clean, TabJoin, IsToken, SemiCells, Shared;
    var ls := SemiLines(vs, Shared(vs), indent);
    forall i | 0 <= i < |ls| ensures GoodText(ls[i].content) {
      assert HasAll(vs[i], Shared(vs));
      SemiRecord(EntriesOf(vs[i]), Shared(vs));
      TokenGood(TabJoin(SemiCells(EntriesOf(vs[i]), Shared(vs))));
    }
  }

  lemma {:induction false} ArrayBodyOk(path: string, vs: seq<Value>, indent: nat)
    requires forall i | 0 <= i < |vs| :: Clean(vs[i])
    ensures LinesOk(ArrayBody(path, vs, indent))
    decreases vs, 2
  {
    hide LayoutOf, Clean, GoodText, ItemsLines, RowLines, SemiLines;
    match LayoutOf(path, vs, indent)
    case TabularLayout =>
      TabularLines(path, vs, indent);
      RowLinesOk(vs, indent);
    case SemiTabularLayout =>
      SemiTabularLines(path, vs, indent);
      SemiLinesOk(vs, indent);
    case DashedLayout => ItemsOk(vs, indent + 1);
    case _ =>
  }

  lemma {:induction false} ArrayLinesOk(path: string, vs: seq<Value>, indent: nat)
    requires PathText(path) && forall i | 0 <= i < |vs| :: Clean(vs[i])
    ensures LinesOk(ArrayLines(path, vs, indent))
    decreases vs, 3
  {
    hide Clean, ArrayBody, ArrayTail, GoodText, IsToken, HeaderText, PathText;
    ArrayTailOk(path, vs, indent);
    HeaderOk(path, |vs|, ArrayTail(path, vs, indent));
    TokenGood(HeaderText(path, |vs|, ArrayTail(path, vs, indent)));
    ArrayBodyOk(path, vs, indent);
    LinesOkCons(HeaderLine(path, vs, ArrayTail(path, vs, indent), indent), ArrayBody(path, vs, indent));
  }

  lemma {:induction false} ItemsOk(vs: seq<Value>, indent: nat)
    requires forall i | 0 <= i < |vs| :: Clean(vs[i])
    ensures LinesOk(ItemsLines(vs, indent))
    decreases vs, 0
  {
    hide Clean, ItemLines, GoodText;
    if vs != [] {
      ItemOk(vs[0], indent);
      ItemsOk(vs[1..], indent);
      LinesOkConcat(ItemLines(vs[0], indent), ItemsLines(vs[1..], indent));
    }
  }

  lemma DashedOk(header: string, body: seq<Line>, indent: nat)
    requires IsToken(header) && LinesOk(body)
    ensures LinesOk(Dash([Line(0, header)] + body, indent))
  {
    hide IsToken;
    DashOk(header);
    TokenGood("- " + header);
    ShiftOk(body, 2 * indent + 2);
    assert ([Line(0, header)] + body)[1..] == body;
    LinesOkCons(Line(2 * indent, "- " + header), Shift(body, 2 * indent + 2));
  }

  lemma {:induction false} DashedArrayOk(key: string, items: seq<Value>, indent: nat)
    requires PathText(key) && forall i | 0 <= i < |items| :: Clean(items[i])
    ensures LinesOk(Dash(ArrayLines(key, items, 0), indent))
    decreases items, 3
  {
    hide Clean, ArrayBody, ArrayTail, GoodText, IsToken, HeaderText, PathText;
    ArrayTailOk(key, items, 0);
    HeaderOk(key, |items|, ArrayTail(key, items, 0));
    ArrayBodyOk(key, items, 0);
    DashedOk(HeaderText(key, |items|, ArrayTail(key, items, 0)), ArrayBody(key, items, 0), indent);
  }

  lemma PrimTextOk(v: Value)
    requires Clean(v) && IsScalar(v)
    ensures IsToken(PrimText(v)) && GoodText(PrimText(v))
  {
    PrintableClean(v);
    PrimitiveRoundTrip(v);
  }

  lemma FirstText(key: string, tail: string)
    requires IsKey(key) && GoodText(tail)
    ensures IsToken("- " + key + ":" + tail)
  {
    KeysPathText(key);
    PropTextOk(key, tail);
    DashOk(key + ":" + tail);
    assert "- " + key + ":" + tail == "- " + (key + ":" + tail);
  }

  lemma {:induction false} FirstOk(e: Entry, indent: nat)
    requires IsKey(e.key) && Clean(e.val)
    ensures LinesOk(FirstLines(e, indent))
    decreases e, 5
  {
    match e.val
    case Arr(items) =>
      KeysPathText(e.key);
      DashedArrayOk(e.key, items, indent);
    case Obj(sub) =>
      FirstText(e.key, "");
      FirstText(e.key, "{}");
      assert "- " + e.key + ":" + "" == "- " + e.key + ":" && "- " + e.key + ":" + "{}" == "- " + e.key + ":{}";
      EntriesOk("", sub, indent + 2);
    case _ =>
      PrimTextOk(e.val);
      FirstText(e.key, PrimText(e.val));
  }

  lemma {:induction false} ItemOk(v: Value, indent: nat)
    requires Clean(v)
    ensures LinesOk(ItemLines(v, indent))
    decreases v, 4
  {
    match v
    case Arr(items) => DashedArrayOk("", items, indent);
    case Obj(es) =>
      if es != [] {
        CleanTail(es);
        FirstOk(es[0], indent);
        EntriesOk("", es[1..], indent + 1);
        LinesOkConcat(FirstLines(es[0], indent), EntriesLines("", es[1..], indent + 1));
      }
    case _ =>
      PrimTextOk(v);
      DashOk(PrimText(v));
  }

  lemma {:induction false} EntriesOk(prefix: string, es: seq<Entry>, indent: nat)
    requires PathText(prefix) && Clean(Obj(es))
    ensures LinesOk(EntriesLines(prefix, es, indent))
    decreases es, 0
  {
    hide PropLines, Clean, GoodText;
    if es != [] {
      CleanTail(es);
      KeysPathText(es[0].key);
      PropOk(prefix + es[0].key, es[0].val, indent);
      EntriesOk(prefix, es[1..], indent);
      LinesOkConcat(PropLines(prefix + es[0].key, es[0].val, indent), EntriesLines(prefix, es[1..], indent));
    }
  }

  lemma {:induction false} PropOk(path: string, v: Value, indent: nat)
    requires path != "" && PathText(path) && Clean(v)
    ensures LinesOk(PropLines(path, v, indent))
    decreases v, 4
  {
    match v
    case Arr(items) => ArrayLinesOk(path, items, indent);
    case Obj(es) =>
      PropTextOk(path, "");
      PropTextOk(path, "{}");
      assert path + ":" + "" == path + ":" && path + ":" + "{}" == path + ":{}";
      if indent == 0 && es != [] && DotChosen(path, es) {
        EntriesOk(path + ".", es, 0);
      } else {
        EntriesOk("", es, indent + 1);
      }
    case _ =>
      PrimTextOk(v);
      PropTextOk(path, PrimText(v));
  }

  // --- Text and lines ---------------------------------------------------------

  lemma {:induction false} IndentOf(n: nat, t: string)
    requires t == "" || !IsSpace(t[0])
    ensures Indent(Blanks(n) + t) == n
  {
    if n == 0 {
      assert Blanks(0) + t == t;
    } else {
      IndentOf(n - 1, t);
      assert (Blanks(n) + t)[1..] == Blanks(n - 1) + t;
    }
  }

  lemma ShapeRender(l: Line)
    requires GoodText(l.content)
    ensures Shape(Render(l)) == l && '\n' !in Render(l)
  {
    IndentOf(l.ind, l.content);
    assert Render(l)[l.ind..] == l.content;
  }

  /** The decoder sees exactly the lines the encoder printed. */
  lemma DecodePrinted(ls: seq<Line>)
    requires ls != [] && LinesOk(ls)
    ensures Decode(LinesText(ls)) == DecodeLines(ls)
  {
    var texts := RenderAll(ls);
    forall i | 0 <= i < |ls| ensures Shape(texts[i]) == ls[i] && '\n' !in texts[i] {
      ShapeRender(ls[i]);
    }
    SplitJoin(texts, '\n');
    assert ShapeAll(texts) == ls;
  }

  lemma DecodeOneLine(t: string)
    requires IsToken(t)
    ensures Decode(t) == DecodeLines([Line(0, t)])
  {
    DecodePrinted([Line(0, t)]);
    assert RenderAll([Line(0, t)]) == [t] by {
      assert Blanks(0) + t == t;
    }
  }

  // --- Roots ------------------------------------------------------------------

  lemma DecodeScalarLine(t: string, v: Value)
    requires IsToken(t) && RootScalar(t) == Some(v)
    ensures Decode(t) == Ok(v)
  {
    DecodeOneLine(t);
    TrimSolid(t);
    assert SkipBlank([Line(0, t)]) == [Line(0, t)];
  }

  lemma RootScalarBack(v: Value)
    requires Clean(v) && IsScalar(v)
    requires v.Num? && v.num.Int? ==> -FLOAT_OVERFLOW < v.num.n < FLOAT_OVERFLOW
    ensures Decode(EncodedText(v)) == Ok(v)
  {
    hide Decode, IsNumberText, EscapeScalar;
    var t := EncodedText(v);
    match v
    case Str(s) =>
      StringRoundTrip(s, true);
      DecodeScalarLine(t, v);
    case Num(num) => RootNumberBack(num);
    case _ => DecodeScalarLine(t, v);
  }

  lemma RootNumberBack(num: Number)
    requires Clean(Num(num))
    requires num.Int? ==> -FLOAT_OVERFLOW < num.n < FLOAT_OVERFLOW
    ensures Decode(NumberText(num)) == Ok(Num(num))
  {
    hide Decode, IsNumberText, NumberText, ParseNumber, IsToken, IsQuoted;
    var t := NumberText(num);
    NumberRoundTrip(num);
    NumberToken(t);
    NumberNoBracket(t);
    DecodeScalarLine(t, Num(num));
  }

  lemma NumberNoBracket(t: string)
    requires IsNumberText(t)
    ensures '[' !in t && ':' !in t
  {
    NumberChars(t);
  }

  lemma StructuredFirst(t: string)
    requires IsToken(t) && (t[0] == '[' || (IsWord(t[0]) && ':' in t))
    ensures TrimRight(t) == t && RootScalar(t) == None
  {
    TrimSolid(t);
  }

  lemma RootObjectFirst(es: seq<Entry>)
    requires es != [] && Clean(Obj(es))
    ensures var ls := EntriesLines("", es, 0);
      && ls != [] && ls[0].ind == 0 && IsToken(ls[0].content)
      && IsWord(ls[0].content[0]) && ':' in ls[0].content
      && LinesOk(ls)
  {
    hide Clean, EntriesLines, PropLines;
    CleanTail(es);
    EntriesOk("", es, 0);
    EntriesFirst("", es, 0);
    var ls := EntriesLines("", es, 0);
    assert "" + es[0].key == es[0].key;
    assert es[0].key <= ls[0].content && es[0].key[0] == ls[0].content[0];
    assert GoodText(ls[0].content);
  }

  lemma RootObjectLines(es: seq<Entry>)
    requires es != [] && Clean(Obj(es))
    ensures var ls := EntriesLines("", es, 0);
      && ls != [] && LinesOk(ls)
      && DecodeLines(ls) ==
           match ParseBlock(ls, 0, []) {
             case Err(e) => Err(e)
             case Ok(p) => SkipTrailing(Parsed(Obj(p.value), p.rest))
           }
  {
    hide Clean, EntriesLines, ParseBlock, RootScalar, LinesOk, TrimRight;
    var ls := EntriesLines("", es, 0);
    RootObjectFirst(es);
    StructuredFirst(ls[0].content);
    assert SkipBlank(ls) == ls;
  }

  lemma RootArrayParts(items: seq<Value>)
    ensures ArrayLines("", items, 0) ==
      [Line(0, HeaderText("", |items|, ArrayTail("", items, 0)))] + ArrayBody("", items, 0)
  {
    hide ArrayTail, ArrayBody, HeaderText;
  }

  lemma RootHeaderBracket(n: nat, tail: string)
    ensures HeaderText("", n, tail) != "" && HeaderText("", n, tail)[0] == '['
  {
    hide NatText;
  }

  lemma RootArrayLines(items: seq<Value>)
    requires Clean(Arr(items))
    ensures var tail := ArrayTail("", items, 0);
      var l, body := Line(0, HeaderText("", |items|, tail)), ArrayBody("", items, 0);
      && ArrayLines("", items, 0) == [l] + body && LinesOk([l] + body)
      && TrimRight(l.content) == l.content && RootHead(l.content) == ArrayHead("", NatText(|items|), tail)
      && DecodeLines([l] + body) ==
           match ParseRootArray([l] + body) {
             case Err(e) => Err(e)
             case Ok(p) => SkipTrailing(p)
           }
  {
    hide Clean, ArrayBody, ArrayTail, ParseRootArray, RootScalar, NatText, ArrayLines, LinesOk, HeaderText, IsToken, RootHead,
         TrimRight, AllBlank, SkipTrailing;
    var tail := ArrayTail("", items, 0);
    var l, body := Line(0, HeaderText("", |items|, tail)), ArrayBody("", items, 0);
    assert forall i | 0 <= i < |items| :: Clean(items[i]) by {
      CleanItems(items);
    }
    ArrayLinesOk("", items, 0);
    RootArrayParts(items);
    ArrayTailOk("", items, 0);
    HeaderOk("", |items|, tail);
    RootHeaderBracket(|items|, tail);
    StructuredFirst(l.content);
    RootHeadOf(|items|, tail);
    assert SkipBlank([l] + body) == [l] + body;
  }

  lemma CleanItems(items: seq<Value>)
    requires Clean(Arr(items))
    ensures forall i | 0 <= i < |items| :: Clean(items[i])
  {
  }

  lemma RootArrayBack(items: seq<Value>)
    requires Clean(Arr(items)) && SafeArray("", items, 0)
    ensures var r := Decode(EncodedText(Arr(items)));
            r.Ok? && PyEq(r.value, Arr(items))
  {
    hide Clean, SafeArray, ArrayBody, ArrayTail, DecodeLines, ParseArrayForm, FormOf, ParseFlat, AllScalars, PyEq,
      RootHead, NatText, HeaderText, LinesOk;
    var tail := ArrayTail("", items, 0);
    var l, body := Line(0, HeaderText("", |items|, tail)), ArrayBody("", items, 0);
    RootArrayLines(items);
    CleanItems(items);
    var w := ArrayBack("", items, 0, 0, 0, []);
    assert Shift(body, 0) + [] == body;
    assert ([l] + body)[1..] == body && ([l] + body)[0] == l;
    assert ParseRootArray([l] + body) == Ok(Parsed(w, []));
    DecodePrinted([l] + body);
  }

  lemma RootObjectBack(es: seq<Entry>)
    requires es != [] && Clean(Obj(es)) && SafeEntries("", es, 0)
    ensures var r := Decode(EncodedText(Obj(es)));
            r.Ok? && PyEq(r.value, Obj(es))
  {
    hide Clean, SafeEntries, EntriesLines, DecodeLines, ParseBlock, PyEq, RootScalar, LinesOk;
    var ls := EntriesLines("", es, 0);
    RootObjectLines(es);
    var ws := EntriesBack([], "", es, 0, 0, [], 0, [], []);
    assert Shift(ls, 0) + [] == ls && [] + ws == ws;
    BlockStops([], 0, ws);
    DecodePrinted(ls);
    CleanTail(es);
    SameEntriesPyEq(ws, es);
  }

  /** decode(encode(v)) == v for every value that survives. */
  lemma SurvivorsRoundTrip(v: Value)
    requires Clean(v) && Survives(v)
    ensures var r := Decode(EncodedText(v));
            r.Ok? && PyEq(r.value, v)
  {
    match v
    case Arr(items) => RootArrayBack(items);
    case Obj(es) =>
      if es == [] {
        DecodeScalarLine("{}", Obj([]));
      } else {
        RootObjectBack(es);
      }
    case _ => RootScalarBack(v);
  }
}
