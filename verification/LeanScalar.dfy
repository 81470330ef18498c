// Scalars, quoting and tab-separated cells: scripts/lean_format.py:131-203 and 433-569.

module LeanScalar {
  import opened Common
  import opened LeanText
  import opened LeanValue

  // --- Quoting ----------------------------------------------------------------

  predicate NeedsQuoting(s: string) {
    || s == ""
    || s in {"T", "F", "_"}
    || Trim(s) != s
    || IsNumberText(s)
    || '\t' in s || '\n' in s || '\\' in s || '\"' in s
  }

  /** Python's `str.replace` for a one-character pattern. */
  function Replace(s: string, c: char, sub: string): string {
    if s == "" then "" else (if s[0] == c then sub else [s[0]]) + Replace(s[1..], c, sub)
  }

  lemma ConcatTail(a: string, b: string)
    requires a != ""
    ensures (a + b)[0] == a[0] && (a + b)[1..] == a[1..] + b
  {
  }

  lemma Assoc(a: string, b: string, c: string)
    ensures a + b + c == a + (b + c)
  {
  }

  lemma {:induction false} ReplaceConcat(a: string, b: string, c: char, sub: string)
    ensures Replace(a + b, c, sub) == Replace(a, c, sub) + Replace(b, c, sub)
  {
    if a == "" {
      assert a + b == b;
    } else {
      ConcatTail(a, b);
      ReplaceConcat(a[1..], b, c, sub);
      Assoc(if a[0] == c then sub else [a[0]], Replace(a[1..], c, sub), Replace(b, c, sub));
    }
  }

  function EscapeScalar(s: string): string {
    Replace(Replace(Replace(s, '\\', "\\\\"), '\n', "\\n"), '\"', "\\\"")
  }

  function EscapeCell(s: string): string {
    Replace(Replace(Replace(s, '\\', "\\\\"), '\n', "\\n"), '\"', "\"\"")
  }

  function ScalarEscape(c: char): string {
    if c == '\\' then "\\\\" else if c == '\n' then "\\n" else if c == '\"' then "\\\"" else [c]
  }

  function CellEscape(c: char): string {
    if c == '\\' then "\\\\" else if c == '\n' then "\\n" else if c == '\"' then "\"\"" else [c]
  }

  lemma ReplaceOne(c: char, p: char, sub: string)
    ensures Replace([c], p, sub) == if c == p then sub else [c]
  {
    assert [c][1..] == "";
    assert Replace("", p, sub) == "";
    assert sub + "" == sub && [c] + "" == [c];
  }

  lemma ReplaceTwo(a: char, b: char, p: char, sub: string)
    requires p != a && p != b
    ensures Replace([a, b], p, sub) == [a, b]
  {
    ReplaceOne(b, p, sub);
    assert [a, b][1..] == [b];
    assert [a] + [b] == [a, b];
  }

  /** The three chained replacements act on every character on its own. */
  lemma EscapeStep(c: char, t: string)
    ensures EscapeScalar([c] + t) == ScalarEscape(c) + EscapeScalar(t)
    ensures EscapeCell([c] + t) == CellEscape(c) + EscapeCell(t)
  {
    var a, a' := Replace([c], '\\', "\\\\"), Replace(t, '\\', "\\\\");
    var b, b' := Replace(a, '\n', "\\n"), Replace(a', '\n', "\\n");
    ReplaceConcat([c], t, '\\', "\\\\");
    ReplaceConcat(a, a', '\n', "\\n");
    ReplaceConcat(b, b', '\"', "\\\"");
    ReplaceConcat(b, b', '\"', "\"\"");
    ReplaceOne(c, '\\', "\\\\");
    ReplaceTwo('\\', '\\', '\n', "\\n");
    ReplaceOne(c, '\n', "\\n");
    ReplaceTwo('\\', '\\', '\"', "\\\"");
    ReplaceTwo('\\', '\\', '\"', "\"\"");
    ReplaceTwo('\\', 'n', '\"', "\\\"");
    ReplaceTwo('\\', 'n', '\"', "\"\"");
    ReplaceOne(c, '\"', "\\\"");
    ReplaceOne(c, '\"', "\"\"");
  }

  function UnescapeScalar(s: string): string {
    if s == "" then ""
    else if s[0] == '\\' && |s| > 1 && s[1] == 'n' then "\n" + UnescapeScalar(s[2..])
    else if s[0] == '\\' && |s| > 1 && s[1] == '\\' then "\\" + UnescapeScalar(s[2..])
    else if s[0] == '\\' && |s| > 1 && s[1] == '\"' then "\"" + UnescapeScalar(s[2..])
    else [s[0]] + UnescapeScalar(s[1..])
  }

  function UnescapeCell(s: string): string {
    if s == "" then ""
    else if s[0] == '\"' && |s| > 1 && s[1] == '\"' then "\"" + UnescapeCell(s[2..])
    else if s[0] == '\\' && |s| > 1 && s[1] == 'n' then "\n" + UnescapeCell(s[2..])
    else if s[0] == '\\' && |s| > 1 && s[1] == '\\' then "\\" + UnescapeCell(s[2..])
    else [s[0]] + UnescapeCell(s[1..])
  }

  lemma {:induction false} UnescapeScalarInverts(s: string)
    ensures UnescapeScalar(EscapeScalar(s)) == s
  {
    if s != "" {
      UnescapeScalarInverts(s[1..]);
      EscapeStep(s[0], s[1..]);
      assert [s[0]] + s[1..] == s;
      var e := EscapeScalar(s);
      assert e[|ScalarEscape(s[0])|..] == EscapeScalar(s[1..]);
    }
  }

  lemma {:induction false} UnescapeCellInverts(s: string)
    ensures UnescapeCell(EscapeCell(s)) == s
  {
    if s != "" {
      UnescapeCellInverts(s[1..]);
      EscapeStep(s[0], s[1..]);
      assert [s[0]] + s[1..] == s;
      var e := EscapeCell(s);
      assert e[|CellEscape(s[0])|..] == EscapeCell(s[1..]);
    }
  }

  lemma {:induction false} EscapedHasNoNewline(s: string)
    ensures '\n' !in EscapeScalar(s) && '\n' !in EscapeCell(s)
  {
    if s != "" {
      EscapedHasNoNewline(s[1..]);
      EscapeStep(s[0], s[1..]);
      assert [s[0]] + s[1..] == s;
    }
  }

  /** The index loop of `_unescape_scalar`. */
  method UnescapeScalarText(s: string) returns (r: string)
    ensures r == UnescapeScalar(s)
  {
    r := "";
    var i := 0;
    assert s[0..] == s;
    while i < |s|
      invariant 0 <= i <= |s|
      invariant UnescapeScalar(s) == r + UnescapeScalar(s[i..])
    {
      var ch := s[i];
      ghost var tail := s[i..];
      if ch == '\\' && i + 1 < |s| && s[i + 1] in {'n', '\\', '\"'} {
        var out := if s[i + 1] == 'n' then '\n' else s[i + 1];
        assert tail[1] == s[i + 1] && tail[2..] == s[i + 2..];
        Extend(r, out, UnescapeScalar(tail[2..]));
        r, i := r + [out], i + 2;
      } else {
        assert tail[1..] == s[i + 1..] && (i + 1 < |s| ==> tail[1] == s[i + 1]);
        Extend(r, ch, UnescapeScalar(tail[1..]));
        r, i := r + [ch], i + 1;
      }
    }
  }

  lemma Extend(a: string, c: char, b: string)
    ensures a + ([c] + b) == a + [c] + b
  {
  }

  /** The index loop of `_unescape_cell`. */
  method UnescapeCellText(s: string) returns (r: string)
    ensures r == UnescapeCell(s)
  {
    r := "";
    var i := 0;
    assert s[0..] == s;
    while i < |s|
      invariant 0 <= i <= |s|
      invariant UnescapeCell(s) == r + UnescapeCell(s[i..])
    {
      var ch := s[i];
      ghost var tail := s[i..];
      assert i + 1 < |s| ==> tail[1] == s[i + 1] && tail[2..] == s[i + 2..];
      if ch == '\"' && i + 1 < |s| && s[i + 1] == '\"' {
        Extend(r, '\"', UnescapeCell(tail[2..]));
        r, i := r + ['\"'], i + 2;
      } else if ch == '\\' && i + 1 < |s| && s[i + 1] in {'n', '\\'} {
        var out := if s[i + 1] == 'n' then '\n' else '\\';
        Extend(r, out, UnescapeCell(tail[2..]));
        r, i := r + [out], i + 2;
      } else {
        assert tail[1..] == s[i + 1..];
        Extend(r, ch, UnescapeCell(tail[1..]));
        r, i := r + [ch], i + 1;
      }
    }
  }

  // --- Scalars ----------------------------------------------------------------

  predicate Printable(v: Value) {
    IsScalar(v) && v != Num(NonFinite)
  }

  function NumberText(num: Number): string
    requires !num.NonFinite?
  {
    match num
    case Int(n) => IntText(n)
    case Float(text) => text
  }

  function EncodeScalar(s: string, forceQuote: bool): string {
    if forceQuote || NeedsQuoting(s) then "\"" + EscapeScalar(s) + "\"" else s
  }

  function EncodePrimitive(v: Value): string
    requires Printable(v)
  {
    match v
    case Null => "_"
    case Bool(b) => if b then "T" else "F"
    case Num(num) => NumberText(num)
    case Str(s) => EncodeScalar(s, false)
  }

  function CellEncode(v: Value): string
    requires Printable(v)
  {
    match v
    case Null => "_"
    case Bool(b) => if b then "T" else "F"
    case Num(num) => NumberText(num)
    case Str(s) => if NeedsQuoting(s) then "\"" + EscapeCell(s) + "\"" else s
  }

  function ParseNumber(s: string): Value
    requires IsNumberText(s)
  {
    if !HasFloatMark(s) then Num(Int(ParseInt(s))) else if Overflows(s) then Num(NonFinite) else Num(Float(s))
  }

  predicate IsQuoted(s: string) {
    |s| >= 2 && s[0] == '\"' && s[|s| - 1] == '\"'
  }

  function ParseScalarValue(text: string): Value {
    var s := Trim(text);
    if s == "T" then Bool(true)
    else if s == "F" then Bool(false)
    else if s == "_" then Null
    else if s == "" then Str("")
    else if IsQuoted(s) then Str(UnescapeScalar(s[1..|s| - 1]))
    else if IsNumberText(s) then ParseNumber(s)
    else Str(s)
  }

  function ParseCellValue(text: string): Value {
    var s := Trim(text);
    if IsQuoted(s) then Str(UnescapeCell(s[1..|s| - 1]))
    else if s == "T" then Bool(true)
    else if s == "F" then Bool(false)
    else if s == "_" then Null
    else if s == "" then Str("")
    else if IsNumberText(s) then ParseNumber(s)
    else Str(s)
  }

  /** Blanks around a scalar, or around a cell, are not part of it. */
  lemma ScalarPadded(before: string, text: string, after: string)
    requires AllSpace(before) && AllSpace(after)
    ensures ParseScalarValue(before + text + after) == ParseScalarValue(text)
    ensures ParseCellValue(before + text + after) == ParseCellValue(text)
  {
    hide Trim, IsQuoted, IsNumberText, ParseNumber, UnescapeScalar, UnescapeCell;
    TrimPadded(before, text, after);
  }

  /** Text that can stand on a line: solid and free of line breaks. */
  predicate IsToken(t: string) {
    Solid(t) && '\n' !in t
  }

  lemma NumberToken(s: string)
    requires IsNumberText(s)
    ensures IsToken(s) && !IsQuoted(s) && '\"' !in s && '\t' !in s && ':' !in s
    ensures s !in {"T", "F", "_", "{}"} && s[0] != '['
  {
    NumberChars(s);
    NumberCharsToken(s);
  }

  lemma NumberCharsToken(s: string)
    requires s != "" && NumberCharsOnly(s)
    ensures IsToken(s) && !IsQuoted(s) && '\"' !in s && '\t' !in s && ':' !in s
    ensures s !in {"T", "F", "_", "{}"} && s[0] != '['
  {
    assert IsNumberChar(s[0]) && IsNumberChar(s[|s| - 1]);
  }

  lemma BareToken(s: string)
    requires !NeedsQuoting(s)
    ensures IsToken(s) && Trim(s) == s && '\"' !in s && '\t' !in s
    ensures s !in {"T", "F", "_"} && !IsNumberText(s)
  {
    TrimEqual(s);
  }

  lemma QuotedToken(body: string)
    requires '\n' !in body
    ensures var q := "\"" + body + "\"";
            IsToken(q) && IsQuoted(q) && q[1..|q| - 1] == body && q !in {"T", "F", "_", "{}"}
  {
  }

  lemma NumberRoundTrip(num: Number)
    requires !num.NonFinite?
    ensures var t := NumberText(num);
            IsNumberText(t) && ParseNumber(t) == Num(num)
  {
    if num.Int? {
      IntTextIsNumber(num.n);
      ParseIntText(num.n);
    }
  }

  lemma PrimitiveRoundTrip(v: Value)
    requires Printable(v)
    ensures var t := EncodePrimitive(v);
            IsToken(t) && ParseScalarValue(t) == v && (t == "{}" ==> v == Str("{}"))
  {
    hide Trim, IsNumberText, ParseNumber, NumberText, EncodeScalar, UnescapeScalar, IsQuoted;
    var t := EncodePrimitive(v);
    match v
    case Null => TrimSolid(t);
    case Bool(_) => TrimSolid(t);
    case Num(num) =>
      NumberRoundTrip(num);
      NumberToken(t);
      TrimSolid(t);
    case Str(s) => StringRoundTrip(s, false);
  }

  lemma StringRoundTrip(s: string, forceQuote: bool)
    ensures var t := EncodeScalar(s, forceQuote);
            IsToken(t) && ParseScalarValue(t) == Str(s) && (t == "{}" ==> s == "{}")
    ensures forceQuote || NeedsQuoting(s) ==>
      var t := EncodeScalar(s, forceQuote);
      IsQuoted(t) && UnescapeScalar(t[1..|t| - 1]) == s
  {
    var t := EncodeScalar(s, forceQuote);
    if forceQuote || NeedsQuoting(s) {
      EscapedHasNoNewline(s);
      QuotedToken(EscapeScalar(s));
      UnescapeScalarInverts(s);
    } else {
      BareToken(s);
    }
    TrimSolid(t);
  }

  lemma CellRoundTrip(v: Value)
    requires Printable(v)
    ensures IsToken(CellEncode(v)) && ParseCellValue(CellEncode(v)) == v
  {
    hide Trim, IsNumberText, ParseNumber, NumberText, NeedsQuoting, EscapeCell, UnescapeCell;
    var t := CellEncode(v);
    match v
    case Null => TrimSolid(t);
    case Bool(_) => TrimSolid(t);
    case Num(num) =>
      NumberRoundTrip(num);
      NumberToken(t);
      TrimSolid(t);
    case Str(s) =>
      if NeedsQuoting(s) {
        EscapedHasNoNewline(s);
        QuotedToken(EscapeCell(s));
        UnescapeCellInverts(s);
      } else {
        BareToken(s);
      }
      TrimSolid(t);
  }

  // --- Rows -------------------------------------------------------------------

  /** `_split_tab_cells` from the state (in_quotes, current); None is an unterminated quote. */
  function SplitCells(line: string, inQuotes: bool, current: string): (r: Option<seq<string>>)
    ensures r.Some? ==> r.value != []
    decreases |line|
  {
    if line == "" then if inQuotes then None else Some([current])
    else if inQuotes && line[0] == '\"' && |line| > 1 && line[1] == '\"' then
      SplitCells(line[2..], true, current + "\"\"")
    else if line[0] == '\"' then SplitCells(line[1..], !inQuotes, current + "\"")
    else if !inQuotes && line[0] == '\t' then
      match SplitCells(line[1..], false, "")
      case None => None
      case Some(cells) => Some([current] + cells)
    else SplitCells(line[1..], inQuotes, current + [line[0]])
  }

  function ParseCells(cells: seq<string>): (vs: seq<Value>)
    ensures |vs| == |cells|
    ensures forall i | 0 <= i < |cells| :: vs[i] == ParseCellValue(cells[i])
  {
    seq(|cells|, i requires 0 <= i < |cells| => ParseCellValue(cells[i]))
  }

  /** `_parse_tab_row` */
  function ParseRow(line: string): Option<seq<Value>> {
    match SplitCells(line, false, "")
    case None => None
    case Some(cells) => Some(ParseCells(cells))
  }

  /** The character loop of `_split_tab_cells`. */
  method SplitTabCells(line: string) returns (r: Option<seq<string>>)
    ensures r == SplitCells(line, false, "")
  {
    var cells: seq<string> := [];
    var current, inQuotes, pos := "", false, 0;
    assert line[0..] == line;
    assert forall more: seq<string> :: cells + more == more;
    while pos < |line|
      invariant 0 <= pos <= |line|
      invariant SplitCells(line, false, "") ==
        match SplitCells(line[pos..], inQuotes, current) {
          case None => None
          case Some(more) => Some(cells + more)
        }
    {
      var ch := line[pos];
      ghost var tail := line[pos..];
      assert tail[0] == ch && tail[1..] == line[pos + 1..];
      assert pos + 1 < |line| ==> tail[1] == line[pos + 1] && tail[2..] == line[pos + 2..];
      if inQuotes {
        if ch == '\"' {
          if pos + 1 < |line| && line[pos + 1] == '\"' {
            current, pos := current + "\"\"", pos + 2;
          } else {
            inQuotes, current, pos := false, current + "\"", pos + 1;
          }
        } else {
          current, pos := current + [ch], pos + 1;
        }
      } else if ch == '\"' {
        inQuotes, current, pos := true, current + "\"", pos + 1;
      } else if ch == '\t' {
        assert forall more: seq<string> :: cells + ([current] + more) == (cells + [current]) + more;
        cells, current, pos := cells + [current], "", pos + 1;
      } else {
        current, pos := current + [ch], pos + 1;
      }
    }
    r := if inQuotes then None else Some(cells + [current]);
  }

  predicate Plain(s: string) {
    '\"' !in s && '\t' !in s
  }

  lemma {:induction false} SplitPlain(p: string, rest: string, current: string)
    requires Plain(p)
    ensures SplitCells(p + rest, false, current) == SplitCells(rest, false, current + p)
  {
    if p == "" {
      assert p + rest == rest && current + p == current;
    } else {
      SplitPlain(p[1..], rest, current + [p[0]]);
      assert (p + rest)[1..] == p[1..] + rest;
      assert current + [p[0]] + p[1..] == current + p;
    }
  }

  lemma QuoteClose(rest: string, current: string)
    requires rest == "" || rest[0] != '\"'
    ensures SplitCells("\"" + rest, true, current) == SplitCells(rest, false, current + "\"")
  {
    var tail := "\"" + rest;
    assert tail[1..] == rest;
  }

  lemma QuotedTexts(s: string, rest: string, current: string)
    requires s != ""
    ensures EscapeCell(s) + "\"" + rest == CellEscape(s[0]) + (EscapeCell(s[1..]) + "\"" + rest)
    ensures current + CellEscape(s[0]) + EscapeCell(s[1..]) + "\"" == current + EscapeCell(s) + "\""
  {
    hide EscapeCell, CellEscape;
    var e, t := CellEscape(s[0]), EscapeCell(s[1..]);
    EscapeStep(s[0], s[1..]);
    assert [s[0]] + s[1..] == s;
    assert EscapeCell(s) == e + t;
    Assoc(e, t, "\"");
    Assoc(e, t + "\"", rest);
    Assoc(current, e, t);
  }

  lemma {:induction false} SplitQuotedBody(s: string, rest: string, current: string)
    requires rest == "" || rest[0] != '\"'
    ensures SplitCells(EscapeCell(s) + "\"" + rest, true, current)
         == SplitCells(rest, false, current + EscapeCell(s) + "\"")
  {
    if s == "" {
      assert EscapeCell(s) == "";
      assert EscapeCell(s) + "\"" + rest == "\"" + rest;
      assert current + EscapeCell(s) + "\"" == current + "\"";
      QuoteClose(rest, current);
    } else {
      var more := EscapeCell(s[1..]) + "\"" + rest;
      QuotedTexts(s, rest, current);
      QuotedChar(s[0], more, current);
      SplitQuotedBody(s[1..], rest, current + CellEscape(s[0]));
    }
  }

  lemma QuotedChar(c: char, more: string, current: string)
    ensures SplitCells(CellEscape(c) + more, true, current) == SplitCells(more, true, current + CellEscape(c))
  {
    var e := CellEscape(c);
    var tail := e + more;
    assert tail[|e|..] == more;
    if |e| == 2 && c != '\"' {
      assert tail[1..][0] == e[1] && tail[1..][1..] == more;
      assert current + [e[0]] + [e[1]] == current + e;
    }
  }

  /** Cells that the splitter gives back whole. */
  ghost predicate IsCell(t: string) {
    forall rest, current :: rest == "" || rest[0] == '\t' ==>
      SplitCells(t + rest, false, current) == SplitCells(rest, false, current + t)
  }

  /** A plain prefix, then a quoted body. */
  lemma QuotedIsCell(prefix: string, s: string, rest: string, current: string)
    requires Plain(prefix) && (rest == "" || rest[0] == '\t')
    ensures SplitCells(prefix + ("\"" + EscapeCell(s) + "\"") + rest, false, current)
         == SplitCells(rest, false, current + (prefix + ("\"" + EscapeCell(s) + "\"")))
  {
    hide EscapeCell, Plain;
    var e := EscapeCell(s);
    var body := e + "\"" + rest;
    QuoteOpen(body, current + prefix);
    SplitPlain(prefix, "\"" + body, current);
    SplitQuotedBody(s, rest, current + prefix + "\"");
    QuotedCellTexts(prefix, e, rest, current);
  }

  lemma QuoteOpen(body: string, current: string)
    ensures SplitCells("\"" + body, false, current) == SplitCells(body, true, current + "\"")
  {
    assert ("\"" + body)[1..] == body;
  }

  lemma QuotedCellTexts(prefix: string, e: string, rest: string, current: string)
    ensures prefix + ("\"" + e + "\"") + rest == prefix + ("\"" + (e + "\"" + rest))
    ensures current + prefix + "\"" + e + "\"" == current + (prefix + ("\"" + e + "\""))
  {
  }

  lemma PlainIsCell(t: string, rest: string, current: string)
    requires Plain(t)
    ensures SplitCells(t + rest, false, current) == SplitCells(rest, false, current + t)
  {
    SplitPlain(t, rest, current);
  }

  lemma EncodedIsCell(v: Value, prefix: string)
    requires Printable(v) && Plain(prefix)
    ensures IsCell(prefix + CellEncode(v))
  {
    hide SplitCells, EscapeCell, Plain, NumberText;
    if v.Str? && NeedsQuoting(v.s) {
      forall rest: string, current: string | rest == "" || rest[0] == '\t'
        ensures SplitCells(prefix + CellEncode(v) + rest, false, current)
             == SplitCells(rest, false, current + (prefix + CellEncode(v)))
      {
        QuotedIsCell(prefix, v.s, rest, current);
      }
    } else {
      PlainCell(v);
      PlainConcat(prefix, CellEncode(v));
      forall rest: string, current: string | rest == "" || rest[0] == '\t'
        ensures SplitCells(prefix + CellEncode(v) + rest, false, current)
             == SplitCells(rest, false, current + (prefix + CellEncode(v)))
      {
        PlainIsCell(prefix + CellEncode(v), rest, current);
      }
    }
  }

  lemma PlainConcat(a: string, b: string)
    requires Plain(a) && Plain(b)
    ensures Plain(a + b)
  {
  }

  lemma PlainCell(v: Value)
    requires Printable(v) && !(v.Str? && NeedsQuoting(v.s))
    ensures Plain(CellEncode(v))
  {
    if v.Num? {
      NumberRoundTrip(v.num);
      NumberToken(NumberText(v.num));
    }
  }

  lemma LastCell(t: string)
    requires IsCell(t)
    ensures SplitCells(t, false, "") == Some([t])
  {
    assert SplitCells(t + "", false, "") == SplitCells("", false, "" + t);
    assert t + "" == t && "" + t == t;
  }

  lemma NextCell(t: string, more: string)
    requires IsCell(t)
    ensures SplitCells(t + ['\t'] + more, false, "") ==
      match SplitCells(more, false, "") {
        case None => None
        case Some(cells) => Some([t] + cells)
      }
  {
    var rest := ['\t'] + more;
    Assoc(t, ['\t'], more);
    assert SplitCells(t + rest, false, "") == SplitCells(rest, false, "" + t);
    assert "" + t == t && rest[1..] == more;
  }

  lemma {:induction false} SplitJoinedCells(cells: seq<string>)
    requires cells != []
    requires forall i | 0 <= i < |cells| :: IsCell(cells[i])
    ensures SplitCells(JoinWith(cells, '\t'), false, "") == Some(cells)
  {
    hide SplitCells, IsCell;
    if |cells| == 1 {
      LastCell(cells[0]);
      assert cells == [cells[0]];
    } else {
      SplitJoinedCells(cells[1..]);
      NextCell(cells[0], JoinWith(cells[1..], '\t'));
      assert [cells[0]] + cells[1..] == cells;
    }
  }

  function EncodeCells(vs: seq<Value>): (cells: seq<string>)
    requires forall i | 0 <= i < |vs| :: Printable(vs[i])
    ensures |cells| == |vs|
    ensures forall i | 0 <= i < |vs| :: cells[i] == CellEncode(vs[i])
  {
    seq(|vs|, i requires 0 <= i < |vs| => CellEncode(vs[i]))
  }

  /** A row of scalars survives: the joined text splits into its cells and each cell parses back. */
  lemma RowRoundTrip(vs: seq<Value>)
    requires vs != [] && forall i | 0 <= i < |vs| :: Printable(vs[i])
    ensures var text := JoinWith(EncodeCells(vs), '\t');
            SplitCells(text, false, "") == Some(EncodeCells(vs)) && ParseRow(text) == Some(vs)
  {
    forall i | 0 <= i < |vs|
      ensures IsCell(EncodeCells(vs)[i]) && ParseCellValue(EncodeCells(vs)[i]) == vs[i]
    {
      EncodedIsCell(vs[i], "");
      CellRoundTrip(vs[i]);
      assert "" + CellEncode(vs[i]) == CellEncode(vs[i]);
    }
    SplitJoinedCells(EncodeCells(vs));
    assert ParseCells(EncodeCells(vs)) == vs;
  }

  lemma {:induction false} JoinedTokens(cells: seq<string>, c: char)
    requires cells != [] && c != '\n'
    requires forall i | 0 <= i < |cells| :: IsToken(cells[i])
    ensures IsToken(JoinWith(cells, c))
  {
    if |cells| > 1 {
      JoinedTokens(cells[1..], c);
    }
  }
}
