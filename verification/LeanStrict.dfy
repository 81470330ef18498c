// What the decoder refuses: lines left over, rows and items out of their column, cells without a name
// (scripts/lean_format.py:610-618, 675-849, 1081-1141).

module LeanStrict {
  import opened Common
  import opened LeanText
  import opened LeanValue
  import opened LeanScalar
  import opened LeanEncode
  import opened LeanDecode

  // --- Lines left over --------------------------------------------------------

  /** Behind a scalar document there are blank lines only. */
  lemma ScalarStandsAlone(all: seq<Line>)
    requires SkipBlank(all) != [] && RootScalar(TrimRight(SkipBlank(all)[0].content)).Some?
    ensures DecodeLines(all).Ok? <==> forall i | 1 <= i < |SkipBlank(all)| :: SkipBlank(all)[i].content == ""
  {
    hide SkipBlank, RootScalar, TrimRight;
    var ls := SkipBlank(all);
    forall i | 0 <= i < |ls[1..]| ensures ls[1..][i] == ls[i + 1] {
    }
  }

  /** Nor behind an array document, wherever the array ends. */
  lemma ArrayStandsAlone(all: seq<Line>, v: Value, rest: seq<Line>)
    requires SkipBlank(all) != [] && RootScalar(TrimRight(SkipBlank(all)[0].content)).None?
    requires var first := TrimRight(SkipBlank(all)[0].content); first != "" && first[0] == '['
    requires ParseRootArray(SkipBlank(all)) == Ok(Parsed(v, rest))
    ensures DecodeLines(all) == if forall i | 0 <= i < |rest| :: rest[i].content == "" then Ok(v) else Err(TrailingContent)
  {
    hide SkipBlank, RootScalar, TrimRight, ParseRootArray;
  }

  /** An object document is read to its last line. */
  lemma {:induction false} BlockTakesAll(ls: seq<Line>, t: seq<Entry>)
    requires ParseBlock(ls, 0, t).Ok?
    ensures ParseBlock(ls, 0, t).value.rest == []
    decreases |ls|
  {
    hide ParseLine;
    if ls != [] {
      if Blank(ls[0]) {
        BlockTakesAll(ls[1..], t);
      } else {
        var u := ParseLine(ls, t).value;
        BlockTakesAll(u.rest, u.value);
      }
    }
  }

  // --- Rows -------------------------------------------------------------------

  /** The lines with something on them. */
  function Inked(ls: seq<Line>): seq<Line> {
    if ls == [] then [] else (if ls[0].content == "" then [] else [ls[0]]) + Inked(ls[1..])
  }

  lemma NoneInked()
    ensures Inked([]) == []
  {
  }

  lemma InkedNext(ls: seq<Line>, k: nat)
    requires 0 < k <= |ls|
    ensures Inked(ls[..k]) == (if Blank(ls[0]) then [] else [ls[0]]) + Inked(ls[1..][..k - 1])
  {
    assert ls[..k][1..] == ls[1..][..k - 1];
  }

  /** The rows of a table are its next lines, blank ones apart: as many as declared, none out of its column, each with
      the value of its own record; and nothing behind them is touched. */
  lemma {:induction false} RowsTaken(ls: seq<Line>, count: nat, fields: seq<string>, min: nat, semi: bool) returns (k: nat)
    requires RowsLoop(ls, count, fields, min, semi).Ok?
    ensures k <= |ls| && RowsLoop(ls, count, fields, min, semi).value.rest == ls[k..] && |Inked(ls[..k])| == count
    ensures forall i | 0 <= i < count ::
      && Inked(ls[..k])[i].ind >= min
      && ParseRecord(TrimRight(Inked(ls[..k])[i].content), fields, semi) == Ok(RowsLoop(ls, count, fields, min, semi).value.value[i])
    decreases |ls|
  {
    hide ParseRecord, TrimRight, Inked;
    NoneInked();
    if count == 0 {
      k := 0;
      assert ls[0..] == ls && ls[..0] == [];
    } else {
      var less := if Blank(ls[0]) then count else count - 1;
      var n := RowsTaken(ls[1..], less, fields, min, semi);
      k := n + 1;
      InkedNext(ls, k);
      assert ls[k..] == ls[1..][n..];
    }
  }

  /** A row of a table has a cell for each field; a row of a semi-table may have more, and each further cell is named. */
  lemma RowIff(text: string, fields: seq<string>)
    ensures var cells := SplitCells(text, false, "");
      && (ParseRecord(text, fields, false).Ok? <==> cells.Some? && |cells.value| == |fields|)
      && (ParseRecord(text, fields, true).Ok? <==>
            cells.Some? && |cells.value| >= |fields| && Named(fields, cells.value[|fields|..]))
  {
    hide SplitCells, AddExtras, Named;
    if SplitCells(text, false, "").Some? {
      var cells := SplitCells(text, false, "").value;
      if |cells| >= |fields| {
        ExtrasIff(Zip(fields, ParseCells(cells)), fields, cells[|fields|..]);
      }
    }
  }

  /** Each cell has a colon, and what is before it is no key so far. */
  predicate Named(keys: seq<string>, cells: seq<string>)
    decreases |cells|
  {
    cells == [] || (':' in cells[0] && KeyPart(cells[0]) !in keys && Named(keys + [KeyPart(cells[0])], cells[1..]))
  }

  /** The text before the first colon. */
  function KeyPart(cell: string): string {
    if cell == "" || cell[0] == ':' then "" else [cell[0]] + KeyPart(cell[1..])
  }

  lemma {:induction false} ColonAt(cell: string)
    ensures FindColon(cell) < |cell| <==> ':' in cell
    ensures cell[..FindColon(cell)] == KeyPart(cell)
  {
    if cell != "" && cell[0] != ':' {
      ColonAt(cell[1..]);
      assert cell == [cell[0]] + cell[1..];
      assert cell[..FindColon(cell)] == [cell[0]] + cell[1..][..FindColon(cell[1..])];
    }
  }

  lemma {:induction false} ExtrasIff(t: seq<Entry>, keys: seq<string>, cells: seq<string>)
    requires KeyList(t) == keys
    ensures AddExtras(t, cells).Ok? <==> Named(keys, cells)
    decreases |cells|
  {
    hide FindColon, KeyPart, ParseCellValue;
    if cells != [] {
      ColonAt(cells[0]);
      var k := KeyPart(cells[0]);
      assert HasKey(t, k) <==> k in keys by {
        forall i | 0 <= i < |t| ensures keys[i] == t[i].key {
        }
      }
      if ':' in cells[0] && k !in keys {
        var e := Entry(k, ParseCellValue(cells[0][FindColon(cells[0]) + 1..]));
        assert KeyList(t + [e]) == keys + [k];
        ExtrasIff(t + [e], keys + [k], cells[1..]);
      }
    }
  }

  // --- Items ------------------------------------------------------------------

  /** Each item of a dashed list begins at the list's column or to the right of it. */
  lemma {:induction false} ItemsIndented(ls: seq<Line>, base: nat, count: nat)
    requires ParseItems(ls, base, count).Ok? && count > 0
    ensures SkipBlank(ls) != [] && SkipBlank(ls)[0].ind >= base + 2 && DashBody(SkipBlank(ls)[0].content).Some?
    ensures var item := ParseItem(SkipBlank(ls), base + 2);
      item.Ok? && ParseItems(item.value.rest, base, count - 1).Ok?
    decreases |ls|
  {
    if Blank(ls[0]) {
      ItemsIndented(ls[1..], base, count);
    }
  }
}
