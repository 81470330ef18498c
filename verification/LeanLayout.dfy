// Which layout is chosen, told by the texts it chooses among: scripts/lean_format.py:109-164 and 244-370.

module LeanLayout {
  import opened Common
  import opened LeanText
  import opened LeanValue
  import opened LeanScalar
  import opened LeanEncode

  // --- Lines and their text ---------------------------------------------------

  lemma LinesJoin(l: Line, ls: seq<Line>)
    ensures LinesText([l]) == Render(l)
    ensures ls != [] ==> LinesText([l] + ls) == Render(l) + "\n" + LinesText(ls)
  {
    if ls != [] {
      assert RenderAll([l] + ls)[1..] == RenderAll(ls);
    }
  }

  /** What the encoder compares is the length of the text, and one for its last line. */
  lemma {:induction false} CostIsLength(ls: seq<Line>)
    requires ls != []
    ensures Cost(ls) == |LinesText(ls)| + 1
  {
    hide LinesText;
    LinesJoin(ls[0], ls[1..]);
    assert ls == [ls[0]] + ls[1..];
    if |ls| > 1 {
      CostIsLength(ls[1..]);
    } else {
      assert ls == [ls[0]] && Cost(ls[1..]) == 0;
    }
  }

  /** An entry prints at least one line. */
  lemma {:induction false} PropPrints(path: string, v: Value, indent: nat)
    ensures PropLines(path, v, indent) != []
    decreases v, 1
  {
    if v.Obj? && v.entries != [] {
      EntriesPrint(path + ".", v.entries, 0);
    }
  }

  lemma {:induction false} EntriesPrint(prefix: string, es: seq<Entry>, indent: nat)
    requires es != []
    ensures EntriesLines(prefix, es, indent) != []
    decreases es, 0
  {
    PropPrints(prefix + es[0].key, es[0].val, indent);
  }

  lemma ItemsPrint(vs: seq<Value>, indent: nat)
    requires vs != []
    ensures ItemsLines(vs, indent) != []
  {
    assert ItemLines(vs[0], indent) != [];
  }

  // --- How layouts unfold -----------------------------------------------------

  lemma EmptyUnfold(path: string, indent: nat)
    ensures ArrayLines(path, [], indent) == [HeaderLine(path, [], "", indent)]
  {
    assert LayoutOf(path, [], indent).EmptyLayout?;
  }

  lemma FlatUnfold(path: string, vs: seq<Value>, indent: nat)
    requires vs != [] && AllScalars(vs)
    ensures ArrayLines(path, vs, indent) == [HeaderLine(path, vs, TabJoin(FlatCells(vs)), indent)]
  {
    assert LayoutOf(path, vs, indent).FlatLayout?;
  }

  lemma TableUnfold(path: string, vs: seq<Value>, indent: nat)
    requires IsTabular(vs) && !AllScalars(vs)
    ensures var fields := KeyList(EntriesOf(vs[0]));
      ArrayLines(path, vs, indent) == [HeaderLine(path, vs, TabJoin(fields), indent)] + RowLines(vs, fields, indent)
  {
    assert LayoutOf(path, vs, indent).TabularLayout?;
  }

  lemma SemiUnfold(path: string, vs: seq<Value>, indent: nat)
    requires vs != [] && !AllScalars(vs) && !IsTabular(vs)
    requires |vs| >= 2 && ScalarRows(vs) && Shared(vs) != []
    ensures var semi := [HeaderLine(path, vs, TabJoin(Shared(vs)) + "\t~", indent)] + SemiLines(vs, Shared(vs), indent);
      var dashed := [HeaderLine(path, vs, "", indent)] + ItemsLines(vs, indent + 1);
      ArrayLines(path, vs, indent) == if Cost(semi) < Cost(dashed) then semi else dashed
  {
    hide AllScalars, IsTabular, Shared, SemiLines, ItemsLines, Cost, HeaderLine, TabJoin, ScalarRows;
    var semi := [HeaderLine(path, vs, TabJoin(Shared(vs)) + "\t~", indent)] + SemiLines(vs, Shared(vs), indent);
    var dashed := [HeaderLine(path, vs, "", indent)] + ItemsLines(vs, indent + 1);
    assert LayoutOf(path, vs, indent) == if Cost(semi) < Cost(dashed) then SemiTabularLayout else DashedLayout;
  }

  lemma DashedUnfold(path: string, vs: seq<Value>, indent: nat)
    requires vs != [] && !AllScalars(vs) && !IsTabular(vs)
    requires !(|vs| >= 2 && ScalarRows(vs) && Shared(vs) != [])
    ensures ArrayLines(path, vs, indent) == [HeaderLine(path, vs, "", indent)] + ItemsLines(vs, indent + 1)
  {
    hide AllScalars, IsTabular, Shared, ItemsLines, HeaderLine, ScalarRows;
    assert LayoutOf(path, vs, indent).DashedLayout?;
  }

  lemma ObjectUnfold(path: string, es: seq<Entry>)
    requires es != []
    ensures var dots := EntriesLines(path + ".", es, 0);
      var block := [Line(0, path + ":")] + EntriesLines("", es, 1);
      PropLines(path, Obj(es), 0) == if Cost(dots) <= Cost(block) then dots else block
  {
    hide EntriesLines, Cost;
    assert DotChosen(path, es) <==>
      Cost(EntriesLines(path + ".", es, 0)) <= Cost([Line(0, path + ":")] + EntriesLines("", es, 1));
  }

  // --- Bare and quoted strings ------------------------------------------------

  lemma {:induction false} ReplaceGrows(s: string, c: char, sub: string)
    requires sub != ""
    ensures |Replace(s, c, sub)| >= |s|
  {
    if s != "" {
      ReplaceGrows(s[1..], c, sub);
    }
  }

  lemma EscapeGrows(s: string)
    ensures |EscapeScalar(s)| >= |s|
  {
    var a := Replace(s, '\\', "\\\\");
    ReplaceGrows(s, '\\', "\\\\");
    ReplaceGrows(a, '\n', "\\n");
    ReplaceGrows(Replace(a, '\n', "\\n"), '\"', "\\\"");
  }

  lemma TrimKeeps(s: string)
    ensures forall i | 0 <= i < |Trim(s)| :: Trim(s)[i] in s
  {
    var t := s[Indent(s)..];
    forall i | 0 <= i < |Trim(s)| ensures Trim(s)[i] in s {
      assert Trim(s)[i] == t[i] == s[Indent(s) + i];
    }
  }

  /** A string is printed bare exactly when it is one piece of text that reads back as itself. */
  lemma BareIff(s: string)
    ensures EncodeScalar(s, false) == s <==>
      s != "" && ParseScalarValue(s) == Str(s) && '\t' !in s && '\n' !in s && '\\' !in s && '\"' !in s
  {
    hide EscapeScalar, UnescapeScalar, IsNumberText, Trim, Overflows, HasFloatMark;
    if NeedsQuoting(s) {
      EscapeGrows(s);
      TrimKeeps(s);
      if IsQuoted(Trim(s)) {
        assert Trim(s)[0] in s;
      }
    }
  }

  // --- Objects ----------------------------------------------------------------

  function DottedText(path: string, es: seq<Entry>): string {
    LinesText(EntriesLines(path + ".", es, 0))
  }

  function BlockText(path: string, es: seq<Entry>): string {
    path + ":\n" + LinesText(EntriesLines("", es, 1))
  }

  function ShorterOf(a: string, b: string): string {
    if |a| <= |b| then a else b
  }

  /** At the left margin an object is printed as dotted paths or as a block, whichever text is shorter, and as dotted
      paths when neither is. */
  lemma ObjectPrinted(path: string, es: seq<Entry>)
    requires es != []
    ensures LinesText(PropLines(path, Obj(es), 0)) == ShorterOf(DottedText(path, es), BlockText(path, es))
  {
    hide LinesText, PropLines, EntriesLines, Cost;
    var dots, rest := EntriesLines(path + ".", es, 0), EntriesLines("", es, 1);
    ObjectUnfold(path, es);
    EntriesPrint(path + ".", es, 0);
    EntriesPrint("", es, 1);
    LinesJoin(Line(0, path + ":"), rest);
    assert Render(Line(0, path + ":")) + "\n" == path + ":\n";
    CostIsLength(dots);
    CostIsLength([Line(0, path + ":")] + rest);
  }

  // --- Arrays -----------------------------------------------------------------

  /** What comes before the columns or the cells. */
  function HeadText(path: string, n: nat, indent: nat): string {
    Blanks(2 * indent) + path + "[" + NatText(n) + "]:"
  }

  lemma HeadLine(path: string, vs: seq<Value>, tail: string, indent: nat)
    ensures Render(HeaderLine(path, vs, tail, indent)) == HeadText(path, |vs|, indent) + tail
  {
  }

  /** Every element is an object, and its values are scalars. */
  predicate Records(vs: seq<Value>) {
    forall i | 0 <= i < |vs| :: vs[i].Obj? && forall j | 0 <= j < |vs[i].entries| :: IsScalar(vs[i].entries[j].val)
  }

  /** And all have the keys of the first. */
  ghost predicate SameColumns(vs: seq<Value>) {
    Records(vs) && forall i, k: string | 0 <= i < |vs| :: HasKey(EntriesOf(vs[i]), k) <==> HasKey(EntriesOf(vs[0]), k)
  }

  /** The key is in every one of them. */
  predicate Column(vs: seq<Value>, k: string) {
    forall i | 0 <= i < |vs| :: HasKey(EntriesOf(vs[i]), k)
  }

  lemma TabularIff(vs: seq<Value>)
    requires vs != [] && WellFormed(Arr(vs))
    ensures IsTabular(vs) <==> SameColumns(vs)
  {
    if IsTabular(vs) {
      forall i, k: string | 0 <= i < |vs| ensures HasKey(EntriesOf(vs[i]), k) <==> HasKey(EntriesOf(vs[0]), k) {
        TabularKeys(vs, i, k);
      }
    }
    if SameColumns(vs) {
      forall i | 0 <= i < |vs| ensures multiset(KeyList(EntriesOf(vs[i]))) == multiset(KeyList(EntriesOf(vs[0]))) {
        assert WellFormed(vs[i]) && WellFormed(vs[0]);
        SameKeyLists(EntriesOf(vs[i]), EntriesOf(vs[0]));
      }
    }
  }

  lemma SameKeyLists(a: seq<Entry>, b: seq<Entry>)
    requires Distinct(a) && Distinct(b) && forall k: string :: HasKey(a, k) <==> HasKey(b, k)
    ensures multiset(KeyList(a)) == multiset(KeyList(b))
  {
    forall k: string ensures multiset(KeyList(a))[k] == multiset(KeyList(b))[k] {
      KeyOnce(a, k);
      KeyOnce(b, k);
    }
  }

  lemma {:induction false} KeyOnce(es: seq<Entry>, k: string)
    requires Distinct(es)
    ensures multiset(KeyList(es))[k] == if HasKey(es, k) then 1 else 0
  {
    if es != [] {
      var n := |es| - 1;
      KeyOnce(es[..n], k);
      assert KeyList(es) == KeyList(es[..n]) + [es[n].key];
      assert HasKey(es, k) <==> HasKey(es[..n], k) || es[n].key == k;
    }
  }

  lemma {:induction false} SharedAre(es: seq<Entry>, vs: seq<Value>)
    ensures forall k: string :: k in SharedKeys(es, vs) <==> HasKey(es, k) && Column(vs, k)
  {
    hide HasKey;
    if es == [] {
      NoKeys();
    } else {
      SharedAre(es[1..], vs);
      forall k: string ensures k in SharedKeys(es, vs) <==> HasKey(es, k) && Column(vs, k) {
        HasKeyTail(es, k);
        assert AllHaveKey(vs, es[0].key) == Column(vs, es[0].key);
      }
    }
  }

  lemma NoKeys()
    ensures forall k: string :: !HasKey([], k)
  {
  }

  /** The columns of a semi-table are the keys that every row has. */
  lemma SharedIff(vs: seq<Value>, k: string)
    requires vs != []
    ensures k in Shared(vs) <==> Column(vs, k)
  {
    SharedAre(EntriesOf(vs[0]), vs);
  }

  /** They keep the order of the first row. */
  lemma {:induction false} SharedInOrder(es: seq<Entry>, fs: seq<Entry>, vs: seq<Value>)
    ensures SharedKeys(es + fs, vs) == SharedKeys(es, vs) + SharedKeys(fs, vs)
  {
    hide AllHaveKey;
    if es == [] {
      assert es + fs == fs;
    } else {
      SharedInOrder(es[1..], fs, vs);
      assert (es + fs)[1..] == es[1..] + fs;
    }
  }

  function TableText(vs: seq<Value>, indent: nat): string
    requires vs != []
  {
    var fields := KeyList(EntriesOf(vs[0]));
    TabJoin(fields) + "\n" + LinesText(RowLines(vs, fields, indent))
  }

  function SemiTableText(vs: seq<Value>, indent: nat): string {
    TabJoin(Shared(vs)) + "\t~\n" + LinesText(SemiLines(vs, Shared(vs), indent))
  }

  function DashedText(vs: seq<Value>, indent: nat): string {
    "\n" + LinesText(ItemsLines(vs, indent + 1))
  }

  /** A header and the lines under it. */
  lemma Headed(path: string, vs: seq<Value>, tail: string, indent: nat, ls: seq<Line>)
    requires ls != []
    ensures LinesText([HeaderLine(path, vs, tail, indent)] + ls) == HeadText(path, |vs|, indent) + (tail + "\n" + LinesText(ls))
  {
    hide LinesText, HeaderLine, HeadText;
    HeadLine(path, vs, tail, indent);
    LinesJoin(HeaderLine(path, vs, tail, indent), ls);
    var head, text := HeadText(path, |vs|, indent), LinesText(ls);
    assert head + tail + "\n" + text == head + (tail + "\n" + text);
  }

  lemma TablePrinted(path: string, vs: seq<Value>, indent: nat)
    requires vs != [] && IsTabular(vs) && !AllScalars(vs)
    ensures LinesText(ArrayLines(path, vs, indent)) == HeadText(path, |vs|, indent) + TableText(vs, indent)
  {
    hide LinesText, ArrayLines, IsTabular, AllScalars, TabJoin, HeaderLine, HeadText;
    var fields := KeyList(EntriesOf(vs[0]));
    TableUnfold(path, vs, indent);
    Headed(path, vs, TabJoin(fields), indent, RowLines(vs, fields, indent));
  }

  lemma DashedPrinted(path: string, vs: seq<Value>, indent: nat)
    requires vs != []
    ensures LinesText([HeaderLine(path, vs, "", indent)] + ItemsLines(vs, indent + 1)) == HeadText(path, |vs|, indent) + DashedText(vs, indent)
  {
    hide LinesText, HeaderLine, HeadText, ItemsLines;
    ItemsPrint(vs, indent + 1);
    Headed(path, vs, "", indent, ItemsLines(vs, indent + 1));
    assert "" + "\n" == "\n";
  }

  lemma SemiPrinted(path: string, vs: seq<Value>, indent: nat)
    requires !AllScalars(vs) && !IsTabular(vs) && |vs| >= 2 && ScalarRows(vs) && Shared(vs) != []
    ensures LinesText(ArrayLines(path, vs, indent)) == HeadText(path, |vs|, indent) +
      if |SemiTableText(vs, indent)| < |DashedText(vs, indent)| then SemiTableText(vs, indent) else DashedText(vs, indent)
  {
    hide LinesText, ArrayLines, IsTabular, AllScalars, ScalarRows, Shared, TabJoin, HeaderLine, HeadText, SemiLines, ItemsLines, Cost, DashedText;
    var tail, rows := TabJoin(Shared(vs)) + "\t~", SemiLines(vs, Shared(vs), indent);
    var semi, dashed := [HeaderLine(path, vs, tail, indent)] + rows, [HeaderLine(path, vs, "", indent)] + ItemsLines(vs, indent + 1);
    SemiUnfold(path, vs, indent);
    Headed(path, vs, tail, indent, rows);
    DashedPrinted(path, vs, indent);
    CostIsLength(semi);
    CostIsLength(dashed);
    assert tail + "\n" == TabJoin(Shared(vs)) + "\t~\n";
  }

  lemma RecordsAre(vs: seq<Value>)
    ensures Records(vs) == ScalarRows(vs)
    ensures AllScalars(vs) == forall i | 0 <= i < |vs| :: IsScalar(vs[i])
  {
  }

  /** How an array is printed: its count, and then by what it holds. Scalars stand on the line; records of the same
      keys are a table; records that share a key are a semi-table if that is strictly shorter than a dashed list; and
      anything else is a dashed list. */
  lemma ArrayPrinted(path: string, vs: seq<Value>, indent: nat)
    requires WellFormed(Arr(vs))
    ensures LinesText(ArrayLines(path, vs, indent)) == HeadText(path, |vs|, indent) +
      if forall i | 0 <= i < |vs| :: IsScalar(vs[i]) then TabJoin(FlatCells(vs))
      else if SameColumns(vs) then TableText(vs, indent)
      else if |vs| >= 2 && Records(vs) && (exists k: string :: Column(vs, k)) && |SemiTableText(vs, indent)| < |DashedText(vs, indent)|
      then SemiTableText(vs, indent)
      else DashedText(vs, indent)
  {
    hide LinesText, ArrayLines, ItemsLines, IsTabular, AllScalars, WellFormed, Shared, Records, ScalarRows, SameColumns,
      Column, TabJoin, HeaderLine, HeadText, TableText, SemiTableText, DashedText;
    RecordsAre(vs);
    if vs == [] {
      EmptyUnfold(path, indent);
      HeadLine(path, [], "", indent);
      LinesJoin(HeaderLine(path, [], "", indent), []);
      NoCells();
    } else if AllScalars(vs) {
      FlatUnfold(path, vs, indent);
      HeadLine(path, vs, TabJoin(FlatCells(vs)), indent);
      LinesJoin(HeaderLine(path, vs, TabJoin(FlatCells(vs)), indent), []);
    } else {
      TabularIff(vs);
      forall k: string ensures k in Shared(vs) <==> Column(vs, k) {
        SharedIff(vs, k);
      }
      assert Shared(vs) != [] ==> Shared(vs)[0] in Shared(vs);
      if IsTabular(vs) {
        TablePrinted(path, vs, indent);
      } else if |vs| >= 2 && ScalarRows(vs) && Shared(vs) != [] {
        SemiPrinted(path, vs, indent);
      } else {
        DashedUnfold(path, vs, indent);
        DashedPrinted(path, vs, indent);
      }
    }
  }

  lemma NoCells()
    ensures FlatCells([]) == [] && TabJoin([]) == ""
  {
  }

  // --- Documents --------------------------------------------------------------

  /** What each entry of a document prints. */
  function Parts(es: seq<Entry>): (parts: seq<string>)
    ensures |parts| == |es|
    ensures forall i | 0 <= i < |es| :: parts[i] == LinesText(PropLines(es[i].key, es[i].val, 0))
  {
    seq(|es|, i requires 0 <= i < |es| => LinesText(PropLines(es[i].key, es[i].val, 0)))
  }

  /** Lines under lines. */
  lemma {:induction false} LinesUnder(a: seq<Line>, b: seq<Line>)
    requires a != [] && b != []
    ensures LinesText(a + b) == LinesText(a) + "\n" + LinesText(b)
  {
    hide LinesText, Render;
    var rest := a[1..];
    assert a == [a[0]] + rest && a + b == [a[0]] + (rest + b);
    LinesJoin(a[0], rest + b);
    LinesJoin(a[0], rest);
    if rest == [] {
      assert rest + b == b && a == [a[0]];
    } else {
      LinesUnder(rest, b);
      var h, t, u := Render(a[0]), LinesText(rest), LinesText(b);
      assert h + "\n" + (t + "\n" + u) == h + "\n" + t + "\n" + u;
    }
  }

  lemma {:induction false} EntriesPrinted(es: seq<Entry>)
    requires es != []
    ensures LinesText(EntriesLines("", es, 0)) == JoinWith(Parts(es), '\n')
  {
    hide LinesText, PropLines;
    var first, rest := PropLines("" + es[0].key, es[0].val, 0), EntriesLines("", es[1..], 0);
    assert "" + es[0].key == es[0].key;
    PropPrints(es[0].key, es[0].val, 0);
    if |es| == 1 {
      assert first + rest == first;
    } else {
      EntriesPrint("", es[1..], 0);
      LinesUnder(first, rest);
      EntriesPrinted(es[1..]);
      assert Parts(es)[1..] == Parts(es[1..]);
    }
  }

  /** Every object at the left margin of a document takes the shorter of its two texts. */
  lemma PartsAreShort(es: seq<Entry>)
    ensures forall i | 0 <= i < |es| && es[i].val.Obj? && es[i].val.entries != [] ::
      Parts(es)[i] == ShorterOf(DottedText(es[i].key, es[i].val.entries), BlockText(es[i].key, es[i].val.entries))
  {
    hide ShorterOf, DottedText, BlockText, LinesText, PropLines;
    forall i | 0 <= i < |es| && es[i].val.Obj? && es[i].val.entries != []
      ensures Parts(es)[i] == ShorterOf(DottedText(es[i].key, es[i].val.entries), BlockText(es[i].key, es[i].val.entries))
    {
      ObjectPrinted(es[i].key, es[i].val.entries);
    }
  }

  // --- Columns ----------------------------------------------------------------

  /** What is nested stands two columns to the right of what it is nested in. */
  lemma {:induction false} PropColumns(path: string, v: Value, indent: nat)
    ensures PropLines(path, v, indent) != [] && PropLines(path, v, indent)[0].ind == 2 * indent
    ensures v.Obj? && v.entries != [] && indent > 0 ==> |PropLines(path, v, indent)| > 1 && PropLines(path, v, indent)[1].ind == 2 * indent + 2
    decreases v, 1
  {
    hide Cost;
    if v.Obj? && v.entries != [] {
      EntriesColumns(path + ".", v.entries, 0);
      EntriesColumns("", v.entries, indent + 1);
    }
  }

  lemma {:induction false} EntriesColumns(prefix: string, es: seq<Entry>, indent: nat)
    requires es != []
    ensures EntriesLines(prefix, es, indent) != [] && EntriesLines(prefix, es, indent)[0].ind == 2 * indent
    decreases es, 0
  {
    hide PropLines;
    PropColumns(prefix + es[0].key, es[0].val, indent);
  }

  lemma ItemColumns(v: Value, indent: nat)
    ensures ItemLines(v, indent) != [] && ItemLines(v, indent)[0].ind == 2 * indent
    ensures v.Obj? && v.entries != [] && v.entries[0].val.Obj? && v.entries[0].val.entries != [] ==>
      |ItemLines(v, indent)| > 1 && ItemLines(v, indent)[1].ind == 2 * indent + 4
  {
    hide EntriesLines, ArrayLines;
    if v.Obj? && v.entries != [] && v.entries[0].val.Obj? && v.entries[0].val.entries != [] {
      EntriesColumns("", v.entries[0].val.entries, indent + 2);
    }
  }

  lemma ArrayColumns(path: string, vs: seq<Value>, indent: nat)
    ensures ArrayLines(path, vs, indent)[0].ind == 2 * indent
    ensures |ArrayLines(path, vs, indent)| > 1 ==> ArrayLines(path, vs, indent)[1].ind == 2 * indent + 2
  {
    if vs == [] {
      EmptyUnfold(path, indent);
    } else {
      hide LayoutOf, ItemLines, RowLines, SemiLines;
      match LayoutOf(path, vs, indent)
      case DashedLayout =>
        ItemColumns(vs[0], indent + 1);
        assert ItemsLines(vs, indent + 1)[0] == ItemLines(vs[0], indent + 1)[0];
      case TabularLayout => assert RowLines(vs, KeyList(EntriesOf(vs[0])), indent)[0].ind == 2 * indent + 2;
      case SemiTabularLayout => assert SemiLines(vs, Shared(vs), indent)[0].ind == 2 * indent + 2;
      case _ =>
    }
  }
}
