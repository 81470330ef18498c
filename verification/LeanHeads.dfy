// How the decoder's line tests answer on text the encoder wrote.

module LeanHeads {
  import opened Common
  import opened LeanText
  import opened LeanValue
  import opened LeanScalar
  import opened LeanEncode
  import opened LeanDecode

  predicate PathChar(c: char, dots: bool) {
    IsKeyChar(c) || (dots && c == '.')
  }

  /** `[\w][\w.-]*`, or a plain key when dots are not allowed. */
  predicate IsPath(s: string, dots: bool) {
    s != "" && IsWord(s[0]) && forall i | 0 <= i < |s| :: PathChar(s[i], dots)
  }

  predicate IsKeys(parts: seq<string>) {
    forall i | 0 <= i < |parts| :: IsKey(parts[i])
  }

  lemma {:induction false} KeyRunOf(s: string, rest: string, dots: bool)
    requires forall i | 0 <= i < |s| :: PathChar(s[i], dots)
    requires rest == "" || !PathChar(rest[0], dots)
    ensures KeyRun(s + rest, dots) == |s|
  {
    if s == "" {
      assert s + rest == rest;
    } else {
      KeyRunOf(s[1..], rest, dots);
      assert (s + rest)[1..] == s[1..] + rest;
    }
  }

  lemma KeyHeadOf(path: string, u: string, dots: bool)
    requires IsPath(path, dots) && (u == "" || !PathChar(u[0], dots))
    ensures KeyHead(path + u, dots) == AfterKey(path, u)
  {
    var s := path + u;
    assert s[1..] == path[1..] + u;
    KeyRunOf(path[1..], u, dots);
    assert s[..|path|] == path && s[|path|..] == u;
  }

  lemma PropHeadOf(path: string, tail: string, dots: bool)
    requires IsPath(path, dots)
    ensures KeyHead(path + ":" + tail, dots) == PropHead(path, tail)
  {
    var u := ":" + tail;
    assert path + ":" + tail == path + u && u[1..] == tail;
    KeyHeadOf(path, u, dots);
  }

  lemma AfterKeyArray(path: string, n: nat, tail: string)
    ensures AfterKey(path, "[" + NatText(n) + "]:" + tail) == ArrayHead(path, NatText(n), tail)
  {
    var d := NatText(n);
    var u := "[" + d + "]:" + tail;
    assert u[1..] == d + ("]:" + tail);
    DigitSpanOf(d, "]:" + tail);
    assert u[1..|d| + 1] == d && u[|d| + 3..] == tail;
  }

  lemma ArrayHeadOf(path: string, n: nat, tail: string, dots: bool)
    requires IsPath(path, dots)
    ensures KeyHead(HeaderText(path, n, tail), dots) == ArrayHead(path, NatText(n), tail)
  {
    var u := "[" + NatText(n) + "]:" + tail;
    assert HeaderText(path, n, tail) == path + u;
    KeyHeadOf(path, u, dots);
    AfterKeyArray(path, n, tail);
  }

  lemma RootHeadOf(n: nat, tail: string)
    ensures RootHead(HeaderText("", n, tail)) == ArrayHead("", NatText(n), tail)
  {
    assert HeaderText("", n, tail) == "[" + NatText(n) + "]:" + tail;
    AfterKeyArray("", n, tail);
  }

  lemma DashBodyOf(b: string)
    requires b != "" && !IsSpace(b[0])
    ensures DashBody("- " + b) == Some(b)
  {
    var s := "- " + b;
    assert s[1..] == " " + b;
    assert s[1..][1..] == b;
    assert Indent(s[1..]) == 1 + Indent(b);
    assert s[2..] == b;
  }

  // --- Dotted paths -----------------------------------------------------------

  lemma {:induction false} PathOf(parts: seq<string>)
    requires parts != [] && IsKeys(parts)
    ensures IsPath(JoinWith(parts, '.'), true)
    ensures SplitOn(JoinWith(parts, '.'), '.') == parts
    ensures |parts| == 1 ==> JoinWith(parts, '.') == parts[0] && IsPath(parts[0], false)
  {
    forall i | 0 <= i < |parts| ensures '.' !in parts[i] {
      assert forall j | 0 <= j < |parts[i]| :: IsKeyChar(parts[i][j]);
    }
    SplitJoin(parts, '.');
    if |parts| > 1 {
      PathOf(parts[1..]);
    }
  }

  // --- Array headers ----------------------------------------------------------

  lemma KeyIsToken(k: string)
    requires IsKey(k)
    ensures IsToken(k) && Plain(k) && ':' !in k && k != "~"
  {
    assert IsKeyChar(k[|k| - 1]);
  }

  lemma BlankTail()
    ensures !IsFieldList(FieldsOf("")) && AllSpace("")
  {
    assert TrimRight("") == "";
    assert SplitOn("", '\t') == [""];
  }

  lemma BlankForm(n: nat, next: seq<Line>, p: nat)
    ensures FormOf(NatText(n), "", next, p) == if n == 0 then EmptyForm else ListForm(n)
  {
    BlankTail();
    ParseNatText(n);
  }

  lemma FieldsText(fields: seq<string>)
    requires fields != []
    requires forall i | 0 <= i < |fields| :: IsToken(fields[i]) && '\t' !in fields[i]
    ensures IsToken(TabJoin(fields)) && FieldsOf(TabJoin(fields)) == fields
  {
    JoinedTokens(fields, '\t');
    TrimSolid(TabJoin(fields));
    SplitJoin(fields, '\t');
  }

  /** A header of columns followed by rows announces a table. */
  lemma TabularForm(n: nat, fields: seq<string>, next: seq<Line>, p: nat)
    requires n > 0 && fields != [] && IsKeys(fields) && HasDataRow(next, p + 2)
    ensures IsToken(TabJoin(fields))
    ensures FormOf(NatText(n), TabJoin(fields), next, p) == RowsForm(n, fields, false)
  {
    forall i | 0 <= i < |fields| ensures IsToken(fields[i]) && '\t' !in fields[i] && fields[i] != "~" {
      KeyIsToken(fields[i]);
    }
    FieldsText(fields);
    ParseNatText(n);
  }

  lemma SemiForm(n: nat, fields: seq<string>, next: seq<Line>, p: nat)
    requires n > 0 && fields != [] && IsKeys(fields) && HasDataRow(next, p + 2)
    ensures IsToken(TabJoin(fields) + "\t~")
    ensures FormOf(NatText(n), TabJoin(fields) + "\t~", next, p) == RowsForm(n, fields, true)
  {
    var all := fields + ["~"];
    forall i | 0 <= i < |all| ensures IsToken(all[i]) && '\t' !in all[i] {
      if i < |fields| {
        KeyIsToken(fields[i]);
      }
    }
    FieldsText(all);
    JoinSnoc(fields, "~", '\t');
    assert TabJoin(fields) + "\t~" == JoinWith(fields, '\t') + ['\t'] + "~";
    assert all[..|all| - 1] == fields;
    ParseNatText(n);
  }

  /** A header that carries values is flat unless indented lines follow. */
  lemma FlatForm(n: nat, tail: string, next: seq<Line>, p: nat)
    requires Solid(tail) && !HasDataRow(next, p + 2)
    ensures FormOf(NatText(n), tail, next, p).OtherForm?
  {
  }
}
