// The other half: a value outside `Survives` never decodes to itself. Once a parsed value is
// wrong at some path, no later line can repair it.

module LeanFailure {
  import opened Common
  import opened LeanText
  import opened LeanValue
  import opened LeanScalar
  import opened LeanEncode
  import opened LeanDecode
  import opened LeanSafe
  import opened LeanHeads
  import opened LeanNesting
  import opened LeanRows
  import opened LeanRoundTrip
  import opened LeanDocument

  // --- Wrong values stay wrong ------------------------------------------------

  /** `w` differs from `v` at a place that adding dictionary keys cannot change. */
  ghost predicate Wrong(w: Value, v: Value)
    decreases v
  {
    match v
    case Obj(es) =>
      !w.Obj? ||
      exists i | 0 <= i < |es| :: HasKey(w.entries, es[i].key) && Wrong(Get(w.entries, es[i].key), es[i].val)
    case _ => !PyEq(w, v)
  }

  ghost predicate WrongAt(t: seq<Entry>, parts: seq<string>, v: Value)
    requires parts != []
    decreases |parts|
  {
    && HasKey(t, parts[0])
    && if |parts| == 1 then Wrong(Get(t, parts[0]), v)
       else Get(t, parts[0]).Obj? && WrongAt(Get(t, parts[0]).entries, parts[1..], v)
  }

  lemma {:induction false} GetFirst(t: seq<Entry>, k: string)
    requires HasKey(t, k)
    ensures exists j | 0 <= j < |t| :: t[j].key == k && t[j].val == Get(t, k)
  {
    HasKeyTail(t, k);
    if t[0].key != k {
      GetFirst(t[1..], k);
      var j :| 0 <= j < |t[1..]| && t[1..][j].key == k && t[1..][j].val == Get(t[1..], k);
      assert t[j + 1].key == k && t[j + 1].val == Get(t, k);
    }
  }

  lemma {:induction false} WrongNotEqual(w: Value, v: Value)
    requires Clean(v) && Wrong(w, v)
    ensures !PyEq(w, v)
    decreases v
  {
    if v.Obj? && w.Obj? {
      var es, t := v.entries, w.entries;
      var i :| 0 <= i < |es| && HasKey(t, es[i].key) && Wrong(Get(t, es[i].key), es[i].val);
      WrongNotEqual(Get(t, es[i].key), es[i].val);
      GetFirst(t, es[i].key);
      GetAt(es, i);
    }
  }

  lemma AppendKeeps(t: seq<Entry>, p: string, x: Value, k: string)
    requires HasKey(t, k)
    ensures HasKey(t + [Entry(p, x)], k) && Get(t + [Entry(p, x)], k) == Get(t, k)
  {
    HasKeyConcat(t, [Entry(p, x)], k);
    GetConcat(t, [Entry(p, x)], k);
  }

  /** What `_set_nested_value` does to a key that is already there. */
  lemma SetSeen(t: seq<Entry>, q: seq<string>, x: Value, k: string) returns (changed: bool)
    requires q != [] && HasKey(t, k) && SetNested(t, q, x).Ok?
    ensures var t1 := SetNested(t, q, x).value;
      && HasKey(t1, k)
      && if changed then
           && |q| > 1 && q[0] == k && Get(t, k).Obj?
           && SetNested(Get(t, k).entries, q[1..], x).Ok?
           && Get(t1, k) == Obj(SetNested(Get(t, k).entries, q[1..], x).value)
         else Get(t1, k) == Get(t, k)
  {
    changed := |q| > 1 && HasKey(t, q[0]) && q[0] == k;
    if |q| == 1 {
      AppendKeeps(t, q[0], x, k);
    } else if !HasKey(t, q[0]) {
      AppendKeeps(t, q[0], Obj(SetNested([], q[1..], x).value), k);
    } else {
      var sub := Obj(SetNested(Get(t, q[0]).entries, q[1..], x).value);
      if q[0] == k {
        PutGet(t, k, sub, sub);
      } else {
        PutOther(t, q[0], sub, k);
      }
    }
  }

  lemma {:induction false} SetKeepsWrong(t: seq<Entry>, q: seq<string>, x: Value, v: Value)
    requires q != [] && Wrong(Obj(t), v) && SetNested(t, q, x).Ok?
    ensures Wrong(Obj(SetNested(t, q, x).value), v)
    decreases |q|
  {
    if v.Obj? {
      var es := v.entries;
      var i :| 0 <= i < |es| && HasKey(t, es[i].key) && Wrong(Get(t, es[i].key), es[i].val);
      var changed := SetSeen(t, q, x, es[i].key);
      if changed {
        SetKeepsWrong(Get(t, es[i].key).entries, q[1..], x, es[i].val);
      }
      var t1 := SetNested(t, q, x).value;
      assert HasKey(t1, es[i].key) && Wrong(Get(t1, es[i].key), es[i].val);
    }
  }

  lemma {:induction false} SetKeepsWrongAt(t: seq<Entry>, q: seq<string>, x: Value, parts: seq<string>, v: Value)
    requires q != [] && parts != [] && WrongAt(t, parts, v) && SetNested(t, q, x).Ok?
    ensures WrongAt(SetNested(t, q, x).value, parts, v)
    decreases |q|
  {
    var changed := SetSeen(t, q, x, parts[0]);
    if changed {
      if |parts| == 1 {
        SetKeepsWrong(Get(t, parts[0]).entries, q[1..], x, v);
      } else {
        SetKeepsWrongAt(Get(t, parts[0]).entries, q[1..], x, parts[1..], v);
      }
    }
  }

  lemma {:induction false} SetIsWrong(t: seq<Entry>, parts: seq<string>, w: Value, v: Value)
    requires parts != [] && Wrong(w, v) && SetNested(t, parts, w).Ok?
    ensures WrongAt(SetNested(t, parts, w).value, parts, v)
    decreases |parts|
  {
    var p := parts[0];
    if |parts| == 1 {
      PlantedAt(t, p, w);
    } else if !HasKey(t, p) {
      SetIsWrong([], parts[1..], w, v);
      PlantedAt(t, p, Obj(SetNested([], parts[1..], w).value));
    } else {
      var sub := SetNested(Get(t, p).entries, parts[1..], w).value;
      SetIsWrong(Get(t, p).entries, parts[1..], w, v);
      PutGet(t, p, Obj(sub), Obj(sub));
    }
  }

  lemma LineKeepsWrongAt(ls: seq<Line>, t: seq<Entry>, parts: seq<string>, v: Value)
    requires ls != [] && parts != [] && WrongAt(t, parts, v) && ParseLine(ls, t).Ok?
    ensures WrongAt(ParseLine(ls, t).value.value, parts, v)
  {
    hide WrongAt, ParsePropValue, KeyHead, SetNested;
    var head := KeyHead(ls[0].content, true);
    var w := ParsePropValue(head, ls, ls[0].ind);
    SetKeepsWrongAt(t, SplitOn(head.key, '.'), w.value.value, parts, v);
  }

  lemma {:induction false} BlockKeepsWrongAt(ls: seq<Line>, min: nat, t: seq<Entry>, parts: seq<string>, v: Value)
    requires parts != [] && WrongAt(t, parts, v) && ParseBlock(ls, min, t).Ok?
    ensures WrongAt(ParseBlock(ls, min, t).value.value, parts, v)
    decreases |ls|
  {
    hide WrongAt, ParseLine;
    if ls != [] {
      if Blank(ls[0]) {
        BlockKeepsWrongAt(ls[1..], min, t, parts, v);
      } else if ls[0].ind >= min {
        LineKeepsWrongAt(ls, t, parts, v);
        var r := ParseLine(ls, t).value;
        BlockKeepsWrongAt(r.rest, min, r.value, parts, v);
      }
    }
  }

  /** A block parse that raises or ends with a wrong value at the path. */
  ghost predicate BlockFails(r: Result<Parsed<seq<Entry>>>, parts: seq<string>, v: Value)
    requires parts != []
  {
    r.Ok? ==> WrongAt(r.value.value, parts, v)
  }

  /** A value parse that raises or gives a wrong value. */
  ghost predicate ValueFails(r: Result<Parsed<Value>>, v: Value) {
    r.Ok? ==> Wrong(r.value.value, v)
  }

  lemma {:induction false} WrongUp(t: seq<Entry>, parts: seq<string>, es: seq<Entry>, i: nat)
    requires parts != [] && i < |es| && WrongAt(t, parts + [es[i].key], es[i].val)
    ensures WrongAt(t, parts, Obj(es))
    decreases |parts|
  {
    var all := parts + [es[i].key];
    assert all[0] == parts[0] && all[1..] == parts[1..] + [es[i].key];
    if |parts| > 1 {
      WrongUp(Get(t, parts[0]).entries, parts[1..], es, i);
    } else {
      assert all[1..] == [es[i].key];
    }
  }

  lemma WrongTop(t: seq<Entry>, es: seq<Entry>, i: nat)
    requires i < |es| && WrongAt(t, [] + [es[i].key], es[i].val)
    ensures Wrong(Obj(t), Obj(es))
  {
    assert [] + [es[i].key] == [es[i].key];
  }

  // --- One property -----------------------------------------------------------

  lemma LineBad(l: Line, next: seq<Line>, min: nat, t: seq<Entry>, parts: seq<string>, v: Value)
    requires !Blank(l) && l.ind >= min && parts != []
    requires var head := KeyHead(l.content, true);
      && !head.NoHead?
      && SplitOn(head.key, '.') == parts
      && ValueFails(ParsePropValue(head, [l] + next, l.ind), v)
    ensures BlockFails(ParseBlock([l] + next, min, t), parts, v)
  {
    hide KeyHead, ParsePropValue, SetNested, SplitOn, Wrong, WrongAt;
    var r := ParsePropValue(KeyHead(l.content, true), [l] + next, l.ind);
    assert ([l] + next)[0] == l;
    if r.Ok? && SetNested(t, parts, r.value.value).Ok? {
      var t1 := SetNested(t, parts, r.value.value).value;
      BlockLine(l, next, min, t, parts, r.value.value, r.value.rest);
      SetIsWrong(t, parts, r.value.value, v);
      if ParseBlock(r.value.rest, min, t1).Ok? {
        BlockKeepsWrongAt(r.value.rest, min, t1, parts, v);
      }
    }
  }

  lemma PropLineBad(parts: seq<string>, path: string, tail: string, c: nat, next: seq<Line>, min: nat,
                    t: seq<Entry>, v: Value)
    requires parts != [] && IsKeys(parts) && path == JoinWith(parts, '.') && min <= c
    requires ValueFails(ParsePropValue(PropHead(path, tail), [Line(c, path + ":" + tail)] + next, c), v)
    ensures BlockFails(ParseBlock([Line(c, path + ":" + tail)] + next, min, t), parts, v)
  {
    hide ParsePropValue, ParseBlock, Wrong;
    PathOf(parts);
    PropHeadOf(path, tail, true);
    LineBad(Line(c, path + ":" + tail), next, min, t, parts, v);
  }

  lemma ArrayLineBad(parts: seq<string>, path: string, n: nat, c: nat, next: seq<Line>, min: nat,
                     t: seq<Entry>, v: Value)
    requires parts != [] && IsKeys(parts) && path == JoinWith(parts, '.') && min <= c && n > 0
    requires ValueFails(ParseArrayForm(ListForm(n), next, c), v)
    ensures BlockFails(ParseBlock([Line(c, HeaderText(path, n, ""))] + next, min, t), parts, v)
  {
    hide ParseArrayForm, ParseBlock, Wrong;
    var l := Line(c, HeaderText(path, n, ""));
    PathOf(parts);
    ArrayHeadOf(path, n, "", true);
    BlankForm(n, next, c);
    assert ([l] + next)[1..] == next;
    LineBad(l, next, min, t, parts, v);
  }

  // --- Arrays -----------------------------------------------------------------

  /** What may follow a table without columns. */
  predicate NoItem(rest: seq<Line>, p: nat) {
    rest == [] || (!Blank(rest[0]) && (rest[0].ind < p + 2 || rest[0].content[0] != '-'))
  }

  lemma {:induction false} NoColumnsFail(blanks: seq<Line>, rest: seq<Line>, p: nat, count: nat)
    requires AllBlank(blanks) && NoItem(rest, p) && count > 0
    ensures ParseItems(blanks + rest, p, count).Err?
  {
    if blanks == [] {
      assert blanks + rest == rest;
    } else {
      assert (blanks + rest)[1..] == blanks[1..] + rest;
      NoColumnsFail(blanks[1..], rest, p, count);
    }
  }

  lemma UnsafeArrayShape(path: string, vs: seq<Value>, indent: nat)
    requires !SafeArray(path, vs, indent)
    ensures vs != [] && ArrayTail(path, vs, indent) == "" && !AllScalars(vs)
    ensures LayoutOf(path, vs, indent).TabularLayout? || LayoutOf(path, vs, indent).DashedLayout?
    ensures LayoutOf(path, vs, indent).TabularLayout? ==> AllBlank(ArrayBody(path, vs, indent))
    ensures LayoutOf(path, vs, indent).DashedLayout? ==>
      ArrayBody(path, vs, indent) == ItemsLines(vs, indent + 1) && !SafeItems(vs, indent + 1)
  {
    if LayoutOf(path, vs, indent).TabularLayout? {
      TabularLines(path, vs, indent);
      assert KeyList(EntriesOf(vs[0])) == [];
    }
  }

  lemma ShiftBlank(ls: seq<Line>, k: nat)
    requires AllBlank(ls)
    ensures AllBlank(Shift(ls, k))
  {
  }

  /** The lines of an unsafe array read as a list that fails or differs. */
  lemma {:induction false} ArrayBad(path: string, vs: seq<Value>, indent: nat, s: nat, p: nat, rest: seq<Line>)
    requires forall i | 0 <= i < |vs| :: Clean(vs[i])
    requires !SafeArray(path, vs, indent) && p <= 2 * indent + s
    requires Follow(rest, 2 * indent + s) && NoItem(rest, p)
    ensures ValueFails(ParseArrayForm(ListForm(|vs|), Shift(ArrayBody(path, vs, indent), s) + rest, p), Arr(vs))
    decreases vs, 3
  {
    hide SafeArray, LayoutOf, ArrayBody, ArrayTail, ParseItems, ItemsLines, SafeItems, Clean, Shift;
    UnsafeArrayShape(path, vs, indent);
    if LayoutOf(path, vs, indent).TabularLayout? {
      ShiftBlank(ArrayBody(path, vs, indent), s);
      NoColumnsFail(Shift(ArrayBody(path, vs, indent), s), rest, p, |vs|);
    } else {
      ItemsBad(vs, indent + 1, s, rest, p);
    }
  }

  lemma {:induction false} ItemsBad(vs: seq<Value>, indent: nat, s: nat, rest: seq<Line>, base: nat)
    requires forall i | 0 <= i < |vs| :: Clean(vs[i])
    requires !SafeItems(vs, indent) && base + 2 <= 2 * indent + s && Follow(rest, 2 * indent + s)
    ensures var r := ParseItems(Shift(ItemsLines(vs, indent), s) + rest, base, |vs|);
            r.Ok? ==> !SameItems(r.value.value, vs)
    decreases vs, 0
  {
    hide ParseItems, ParseItem, ItemLines, ItemsLines, SafeItem, SafeItems, Follow, PyEq, Shift, ItemReads;
    assert vs != [] by {
      EmptyItemsSafe(indent);
    }
    var more := Shift(ItemsLines(vs[1..], indent), s) + rest;
    ItemsUnfold(vs, indent);
    ItemsFollow(vs[1..], indent, s, rest);
    ItemFirst(vs[0], indent);
    ShiftSplit(ItemLines(vs[0], indent), ItemsLines(vs[1..], indent), s, rest);
    if SafeItem(vs[0], indent) {
      var w := ItemBack(vs[0], indent, s, more, base + 2);
      ItemsBad(vs[1..], indent, s, rest, base);
      FirstItemGood(ItemLines(vs[0], indent), indent, s, more, base, |vs|, w);
      TailDiffers(vs, w, ParseItems(more, base, |vs| - 1));
    } else {
      ItemBad(vs[0], indent, s, more, base + 2);
      FirstItemBad(ItemLines(vs[0], indent), indent, s, more, base, vs);
    }
  }

  lemma EmptyItemsSafe(indent: nat)
    ensures SafeItems([], indent)
  {
  }

  /** A list parse in terms of its first item. */
  lemma FirstItemGood(first: seq<Line>, indent: nat, s: nat, more: seq<Line>, base: nat, count: nat, w: Value)
    requires first != [] && first[0].ind == 2 * indent && "- " <= first[0].content
    requires count > 0 && base + 2 <= 2 * indent + s
    requires ItemReads(Shift(first, s) + more, base + 2, w, more)
    ensures ParseItems(Shift(first, s) + more, base, count) ==
      match ParseItems(more, base, count - 1) {
        case Err(e) => Err(e)
        case Ok(p) => Ok(Parsed([w] + p.value, p.rest))
      }
  {
    hide ParseItem;
    var ls := Shift(first, s) + more;
    assert ls[0] == Line(2 * indent + s, first[0].content);
  }

  lemma TailDiffers(vs: seq<Value>, w: Value, r: Result<Parsed<seq<Value>>>)
    requires vs != []
    requires r.Ok? ==> !SameItems(r.value.value, vs[1..])
    ensures r.Ok? ==> !SameItems([w] + r.value.value, vs)
  {
    if r.Ok? && SameItems([w] + r.value.value, vs) {
      var ws := [w] + r.value.value;
      assert forall i | 0 <= i < |vs[1..]| :: r.value.value[i] == ws[i + 1] && vs[1..][i] == vs[i + 1];
    }
  }

  lemma FirstItemBad(first: seq<Line>, indent: nat, s: nat, more: seq<Line>, base: nat, vs: seq<Value>)
    requires first != [] && first[0].ind == 2 * indent && "- " <= first[0].content
    requires vs != [] && base + 2 <= 2 * indent + s
    requires var r := ParseItem(Shift(first, s) + more, base + 2);
             r.Ok? ==> !PyEq(r.value.value, vs[0])
    ensures var r := ParseItems(Shift(first, s) + more, base, |vs|);
            r.Ok? ==> !SameItems(r.value.value, vs)
  {
    hide ParseItem;
    var ls := Shift(first, s) + more;
    assert ls[0] == Line(2 * indent + s, first[0].content);
  }

  // --- Items ------------------------------------------------------------------

  ghost predicate ItemFails(ls: seq<Line>, itemIndent: nat, v: Value) {
    ls != [] && (ParseItem(ls, itemIndent).Ok? ==> !PyEq(ParseItem(ls, itemIndent).value.value, v))
  }

  lemma ArrayHereIsArray(digits: string, tail: string, ls: seq<Line>, ind: nat)
    requires ls != []
    ensures var r := ParseArrayHere(digits, tail, ls, ind);
            r.Ok? ==> r.value.value.Arr?
  {
    hide ParseItems, ParseRows, FormOf;
  }

  lemma ScalarValueIsScalar(t: string)
    ensures IsScalar(ParseScalarValue(t))
  {
  }

  lemma BareText(t: string)
    requires !NeedsQuoting(t)
    ensures PrimText(Str(t)) == t
  {
    hide NeedsQuoting;
  }

  lemma BareItemLine(t: string, indent: nat, s: nat, rest: seq<Line>)
    requires !NeedsQuoting(t)
    ensures Shift(ItemLines(Str(t), indent), s) + rest == [Line(2 * indent + s, "- " + t)] + rest
  {
    hide Shift, NeedsQuoting, PropLines, ArrayLines, EntriesLines, FirstLines;
    BareText(t);
    ShiftOne(Line(2 * indent, "- " + t), s, rest);
  }

  /** A bare string that looks structured reads as an object or an array. */
  lemma StructuredStringBad(t: string, indent: nat, s: nat, rest: seq<Line>, itemIndent: nat)
    requires !NeedsQuoting(t) && LooksStructured(t)
    ensures ItemFails(Shift(ItemLines(Str(t), indent), s) + rest, itemIndent, Str(t))
  {
    hide ItemLines, NeedsQuoting, IsObjectItem, RootHead, ParseArrayHere, ParseItemObject, DashBody, TrimRight;
    var l := Line(2 * indent + s, "- " + t);
    BareItemLine(t, indent, s, rest);
    BareToken(t);
    DashBodyOf(t);
    TrimSolid(t);
    assert ([l] + rest)[0] == l;
    if RootHead(t).ArrayHead? {
      ArrayHereIsArray(RootHead(t).digits, RootHead(t).tail, [l] + rest, l.ind);
    }
  }

  lemma RootListItem(n: nat, c: nat, next: seq<Line>, itemIndent: nat)
    requires n > 0
    ensures ParseItem([Line(c, "- " + HeaderText("", n, ""))] + next, itemIndent) == ParseArrayForm(ListForm(n), next, c)
  {
    hide ParseArrayForm, HeaderText, NatText, FormOf, DashBody, RootHead, TrimRight;
    var b := HeaderText("", n, "");
    var l := Line(c, "- " + b);
    HeaderBracket(n);
    DashBodyOf(b);
    TrimRightHead(b);
    RootHeadOf(n, "");
    BlankForm(n, next, c);
    assert ([l] + next)[0] == l && ([l] + next)[1..] == next;
    assert ParseArrayHere(NatText(n), "", [l] + next, c) == ParseArrayForm(ListForm(n), next, c);
  }

  lemma ArrayItemBad(items: seq<Value>, indent: nat, s: nat, rest: seq<Line>, itemIndent: nat)
    requires !SafeArray("", items, 0) && Clean(Arr(items))
    requires ValueFails(ParseArrayForm(ListForm(|items|), Shift(ArrayBody("", items, 0), 2 * indent + s + 2) + rest,
                                       2 * indent + s), Arr(items))
    ensures ItemFails(Shift(ItemLines(Arr(items), indent), s) + rest, itemIndent, Arr(items))
  {
    hide SafeArray, ParseArrayForm, ParseItem, ItemLines, ArrayBody, ArrayTail, Wrong, HeaderText, Clean, PyEq;
    var c := 2 * indent + s;
    var next := Shift(ArrayBody("", items, 0), c + 2) + rest;
    UnsafeArrayShape("", items, 0);
    ArrayItemLines(items, indent, s, rest);
    RootListItem(|items|, c, next, itemIndent);
    var r := ParseArrayForm(ListForm(|items|), next, c);
    if r.Ok? {
      WrongNotEqual(r.value.value, Arr(items));
    }
  }

  lemma HeaderBracket(n: nat)
    ensures HeaderText("", n, "") != "" && HeaderText("", n, "")[0] == '['
  {
  }

  // --- Objects in lists -------------------------------------------------------

  /** The first key of a dashed object whose value fails. */
  ghost predicate FirstFails(e: Entry, ls: seq<Line>) {
    && ls != []
    && "- " + e.key <= ls[0].content
    && var b := ls[0].content[2..];
       var head := KeyHead(b, false);
       && !head.NoHead? && head.key == e.key
       && (IsObjectItem(b) ==> ValueFails(ParseFirstValue(head, ls), e.val))
  }

  lemma FirstFailsItem(es: seq<Entry>, ls: seq<Line>, itemIndent: nat)
    requires es != [] && Clean(Obj(es)) && FirstFails(es[0], ls) && itemIndent < ls[0].ind + 2
    ensures ItemFails(ls, itemIndent, Obj(es))
  {
    hide ParseItem, ParseFirstValue, ParseBlock, IsObjectItem, Clean, Wrong, WrongAt, KeyHead, ParseScalarValue;
    var e, b := es[0], ls[0].content[2..];
    CleanTail(es);
    KeyedItem(e.key, ls, itemIndent);
    ScalarValueIsScalar(b);
    if IsObjectItem(b) {
      var r := ParseFirstValue(KeyHead(b, false), ls);
      if r.Ok? {
        SingleWrong(e.key, r.value.value, e.val);
        FirstWrongBlock(es, r.value.rest, ls[0].ind + 2, r.value.value);
      }
    }
  }

  lemma FirstWrongBlock(es: seq<Entry>, mid: seq<Line>, min: nat, w: Value)
    requires es != [] && Clean(Obj(es)) && WrongAt([Entry(es[0].key, w)], [es[0].key], es[0].val)
    ensures var body := ParseBlock(mid, min, [Entry(es[0].key, w)]);
            body.Ok? ==> !PyEq(Obj(body.value.value), Obj(es))
  {
    hide ParseBlock, Clean, Wrong, WrongAt, PyEq;
    var body := ParseBlock(mid, min, [Entry(es[0].key, w)]);
    if body.Ok? {
      BlockKeepsWrongAt(mid, min, [Entry(es[0].key, w)], [es[0].key], es[0].val);
      assert [] + [es[0].key] == [es[0].key];
      WrongTop(body.value.value, es, 0);
      WrongNotEqual(Obj(body.value.value), Obj(es));
    }
  }

  lemma SingleWrong(k: string, w: Value, v: Value)
    requires Wrong(w, v)
    ensures WrongAt([Entry(k, w)], [k], v)
  {
    assert [Entry(k, w)][0].key == k;
  }

  lemma FirstPropFails(e: Entry, tail: string, l: Line, next: seq<Line>)
    requires IsKey(e.key) && l.content == "- " + e.key + ":" + tail
    requires ValueFails(ParseFirstValue(PropHead(e.key, tail), [l] + next), e.val)
    ensures FirstFails(e, [l] + next)
  {
    hide ParseFirstValue, Wrong, IsObjectItem;
    PropHeadOf(e.key, tail, false);
    assert l.content[2..] == e.key + ":" + tail;
  }

  lemma FirstArrayFails(e: Entry, n: nat, tail: string, l: Line, next: seq<Line>)
    requires IsKey(e.key) && l.content == "- " + HeaderText(e.key, n, tail)
    requires var form := FormOf(NatText(n), tail, next, l.ind);
             !form.OtherForm? ==> ValueFails(ParseArrayForm(form, next, l.ind), e.val)
    ensures FirstFails(e, [l] + next)
  {
    hide ParseArrayForm, FormOf, KeyHead, NatText, HeaderText, IsObjectItem, Wrong;
    ArrayHeadOf(e.key, n, tail, false);
    HeaderStart(e.key, n, tail);
    assert ([l] + next)[0] == l && ([l] + next)[1..] == next;
  }

  /** A flat array under the first key: its header is no object line, has no branch, or reads as a table. */
  lemma FlatFirstBad(e: Entry, indent: nat, s: nat, rest: seq<Line>)
    requires IsKey(e.key) && e.val.Arr? && e.val.items != [] && AllScalars(e.val.items) && Clean(e.val)
    ensures FirstFails(e, Shift(FirstLines(e, indent), s) + rest)
  {
    hide FirstLines, ArrayTail, ArrayBody, LayoutOf, TabJoin, FlatCells, HeaderText, NatText, FirstFails, Clean, AllScalars,
         FormOf, ParseArrayForm, IsToken, ParseFlat, Shift, IsKey, ValueFails;
    var items, c := e.val.items, 2 * indent + s;
    var n, tail := |items|, TabJoin(FlatCells(items));
    FlatFirstParts(e.key, items);
    FirstArrayLines(e, indent, s, rest);
    var next := Shift([], c + 2) + rest;
    FlatFormFails(n, tail, next, c, items);
    FirstArrayFails(e, n, tail, Line(c, "- " + HeaderText(e.key, n, tail)), next);
  }

  lemma FlatFirstParts(key: string, items: seq<Value>)
    requires items != [] && AllScalars(items) && Clean(Arr(items))
    ensures ArrayTail(key, items, 0) == TabJoin(FlatCells(items)) && ArrayBody(key, items, 0) == []
    ensures IsToken(TabJoin(FlatCells(items)))
  {
    hide TabJoin, FlatCells, IsToken;
    assert LayoutOf(key, items, 0).FlatLayout?;
    CleanItems(items);
    FlatBack(items);
  }

  lemma FlatFormFails(n: nat, tail: string, next: seq<Line>, p: nat, items: seq<Value>)
    requires n == |items| && items != [] && AllScalars(items) && IsToken(tail)
    ensures var form := FormOf(NatText(n), tail, next, p);
            !form.OtherForm? ==> ValueFails(ParseArrayForm(form, next, p), Arr(items))
  {
    hide RowsLoop, ParseItems, NatText, FieldsOf, IsFieldList, HasDataRow, ParseNat;
    var form := FormOf(NatText(n), tail, next, p);
    assert !AllSpace(tail);
    if !form.OtherForm? {
      assert form.RowsForm?;
      var r := ParseRows(next, form.count, form.fields, p + 2, form.semi);
      if r.Ok? {
        RowsAreObjects(next, form.count, form.fields, p + 2, form.semi);
        assert !PyEq(r.value.value[0], items[0]);
      }
    }
  }

  lemma {:induction false} RowsAreObjects(ls: seq<Line>, count: nat, fields: seq<string>, min: nat, semi: bool)
    requires RowsLoop(ls, count, fields, min, semi).Ok?
    ensures forall i | 0 <= i < count :: RowsLoop(ls, count, fields, min, semi).value.value[i].Obj?
    decreases |ls|
  {
    if count > 0 {
      if Blank(ls[0]) {
        RowsAreObjects(ls[1..], count, fields, min, semi);
      } else {
        RowsAreObjects(ls[1..], count - 1, fields, min, semi);
      }
    }
  }

  lemma EmptyObjectIsFirst(e: Entry, indent: nat, s: nat, rest: seq<Line>)
    requires IsKey(e.key) && e.val == Str("{}")
    ensures FirstFails(e, Shift(FirstLines(e, indent), s) + rest)
  {
    hide FirstLines, FirstFails, PrimText, IsKey, Shift;
    var l := Line(2 * indent + s, "- " + e.key + ":" + "{}");
    BracesPrint();
    FirstScalarLines(e, indent);
    FirstLine(e, "{}", indent, s, rest);
    TrimSolid("{}");
    FirstPropFails(e, "{}", l, rest);
  }

  /** The string `{}` is printed bare. */
  lemma BracesPrint()
    ensures PrimText(Str("{}")) == "{}"
  {
    TrimSolid("{}");
    assert DigitSpan("{}") == 0;
  }

  lemma {:induction false} FirstBad(e: Entry, indent: nat, s: nat, rest: seq<Line>)
    requires IsKey(e.key) && Clean(e.val) && !SafeFirst(e, indent)
    requires Follow(rest, 2 * indent + s + 2) && NoItem(rest, 2 * indent + s)
    ensures FirstFails(e, Shift(FirstLines(e, indent), s) + rest)
    decreases e, 5
  {
    hide FirstFails, FirstLines, ParseBlock, EntriesLines, IsKey, ArrayBody, Wrong;
    var c := 2 * indent + s;
    match e.val
    case Arr(items) =>
      if items != [] && AllScalars(items) {
        FlatFirstBad(e, indent, s, rest);
      } else {
        ArrayBad(e.key, items, 0, c + 2, c, rest);
        FirstListBad(e, indent, s, rest);
      }
    case Obj(sub) =>
      var i := EntriesBad([], "", sub, indent + 2, s, rest, c + 4, [], []);
      FirstBlockBad(e, indent, s, rest, i);
    case _ => EmptyObjectIsFirst(e, indent, s, rest);
  }

  lemma FirstListBad(e: Entry, indent: nat, s: nat, rest: seq<Line>)
    requires IsKey(e.key) && e.val.Arr? && !SafeArray(e.key, e.val.items, 0)
    requires ValueFails(ParseArrayForm(ListForm(|e.val.items|),
                                       Shift(ArrayBody(e.key, e.val.items, 0), 2 * indent + s + 2) + rest, 2 * indent + s), e.val)
    ensures FirstFails(e, Shift(FirstLines(e, indent), s) + rest)
  {
    hide FirstFails, FirstLines, ArrayBody, ArrayTail, ParseArrayForm, SafeArray, Wrong, HeaderText, NatText, FormOf;
    var items, c := e.val.items, 2 * indent + s;
    var next := Shift(ArrayBody(e.key, items, 0), c + 2) + rest;
    UnsafeArrayShape(e.key, items, 0);
    FirstArrayLines(e, indent, s, rest);
    BlankForm(|items|, next, c);
    FirstArrayFails(e, |items|, "", Line(c, "- " + HeaderText(e.key, |items|, "")), next);
  }

  lemma FirstBlockBad(e: Entry, indent: nat, s: nat, rest: seq<Line>, i: nat)
    requires IsKey(e.key) && e.val.Obj? && i < |e.val.entries|
    requires BlockFails(ParseBlock(Shift(EntriesLines("", e.val.entries, indent + 2), s) + rest, 2 * indent + s + 4, []),
                        [] + [e.val.entries[i].key], e.val.entries[i].val)
    ensures FirstFails(e, Shift(FirstLines(e, indent), s) + rest)
  {
    hide ParseBlock, EntriesLines, FirstFails, FirstLines, Wrong, WrongAt, Shift, IsKey;
    var next := Shift(EntriesLines("", e.val.entries, indent + 2), s) + rest;
    var l := Line(2 * indent + s, "- " + e.key + ":" + "");
    FirstBlockLines(e, indent, s, rest);
    FirstBlockValue(e.key, l, next);
    var r := ParseBlock(next, l.ind + 4, []);
    if r.Ok? {
      WrongTop(r.value.value, e.val.entries, i);
    }
    FirstPropFails(e, "", l, next);
  }

  lemma {:induction false} ObjectBad(es: seq<Entry>, indent: nat, s: nat, rest: seq<Line>, itemIndent: nat)
    requires es != [] && Clean(Obj(es)) && !(SafeFirst(es[0], indent) && SafeEntries("", es[1..], indent + 1))
    requires itemIndent <= 2 * indent + s && Follow(rest, 2 * indent + s)
    ensures ItemFails(Shift(ItemLines(Obj(es), indent), s) + rest, itemIndent, Obj(es))
    decreases es, 2
  {
    hide ItemFails, FirstLines, EntriesLines, ItemLines, SafeFirst, SafeEntries, Clean, Shift, IsKey, FirstReads, FirstFails,
      BlockFails;
    var mid := Shift(EntriesLines("", es[1..], indent + 1), s) + rest;
    CleanTail(es);
    MiddleFollows(es, indent, s, rest);
    ObjectItemLines(es, indent, s, rest);
    ShiftedFirst(es[0], indent, s, mid);
    if SafeFirst(es[0], indent) {
      var w0 := FirstBack(es[0], indent, s, mid);
      var i := EntriesBad([], "", es[1..], indent + 1, s, rest, 2 * indent + s + 2, [], [Entry(es[0].key, w0)]);
      TailFailsItem(es, Shift(FirstLines(es[0], indent), s) + mid, mid, itemIndent, w0, i);
    } else {
      FirstBad(es[0], indent, s, mid);
      FirstFailsItem(es, Shift(FirstLines(es[0], indent), s) + mid, itemIndent);
    }
  }

  lemma MiddleFollows(es: seq<Entry>, indent: nat, s: nat, rest: seq<Line>)
    requires es != [] && Clean(Obj(es)) && Follow(rest, 2 * indent + s)
    ensures var mid := Shift(EntriesLines("", es[1..], indent + 1), s) + rest;
            Follow(mid, 2 * indent + s + 2) && NoItem(mid, 2 * indent + s)
  {
    hide Clean, EntriesLines, Shift;
    CleanTail(es);
    EntriesFollow("", es[1..], indent + 1, s, rest, 2 * indent + s + 2);
    EntriesNoItem(es[1..], indent + 1, s, rest, 2 * indent + s);
  }

  lemma ShiftedFirst(e: Entry, indent: nat, s: nat, mid: seq<Line>)
    ensures var ls := Shift(FirstLines(e, indent), s) + mid;
            ls != [] && ls[0].ind == 2 * indent + s
  {
    FirstIndent(e, indent);
  }

  lemma TailFailsItem(es: seq<Entry>, ls: seq<Line>, mid: seq<Line>, itemIndent: nat, w0: Value, i: nat)
    requires es != [] && Clean(Obj(es)) && ls != [] && i < |es[1..]| && itemIndent < ls[0].ind + 2
    requires FirstReads(es[0], ls, mid, w0)
    requires BlockFails(ParseBlock(mid, ls[0].ind + 2, [Entry(es[0].key, w0)]), [] + [es[1..][i].key], es[1..][i].val)
    ensures ItemFails(ls, itemIndent, Obj(es))
  {
    hide ParseItem, ParseBlock, Clean, Wrong, WrongAt, PyEq, FirstReads;
    assert es[1..][i] == es[i + 1];
    CleanTail(es);
    ObjectItem(es[0], ls, mid, w0, itemIndent);
    var r := ParseBlock(mid, ls[0].ind + 2, [Entry(es[0].key, w0)]);
    if r.Ok? {
      WrongTop(r.value.value, es, i + 1);
      WrongNotEqual(Obj(r.value.value), Obj(es));
    }
  }

  lemma EntriesNoItem(es: seq<Entry>, indent: nat, s: nat, rest: seq<Line>, c: nat)
    requires es != [] ==> IsKey(es[0].key)
    requires Follow(rest, c)
    ensures NoItem(Shift(EntriesLines("", es, indent), s) + rest, c)
  {
    if es != [] {
      EntriesFirst("", es, indent);
      assert "" + es[0].key == es[0].key;
    } else {
      EntriesNone("", indent, s, rest);
    }
  }

  lemma {:induction false} ItemBad(v: Value, indent: nat, s: nat, rest: seq<Line>, itemIndent: nat)
    requires Clean(v) && !SafeItem(v, indent) && itemIndent <= 2 * indent + s && Follow(rest, 2 * indent + s)
    ensures ItemFails(Shift(ItemLines(v, indent), s) + rest, itemIndent, v)
    decreases v, 4
  {
    hide ItemFails, ItemLines, Wrong, ArrayBody, ParseArrayForm, LooksStructured, NeedsQuoting;
    match v
    case Arr(items) =>
      ArrayBad("", items, 0, 2 * indent + s + 2, 2 * indent + s, rest);
      ArrayItemBad(items, indent, s, rest, itemIndent);
    case Obj(es) => ObjectBad(es, indent, s, rest, itemIndent);
    case Str(t) => StructuredStringBad(t, indent, s, rest, itemIndent);
  }

  // --- Entries and properties -------------------------------------------------

  /** The first unsafe entry leaves a wrong value at its path, or the parse raises. */
  lemma {:induction false} EntriesBad(parts: seq<string>, prefix: string, es: seq<Entry>, indent: nat, s: nat,
                                      rest: seq<Line>, min: nat, t: seq<Entry>, done: seq<Entry>)
    returns (i: nat)
    requires IsKeys(parts) && CanFill(t, parts)
    requires prefix == if parts == [] then "" else JoinWith(parts, '.') + "."
    requires Clean(Obj(es)) && !SafeEntries(prefix, es, indent) && NoneIn(done, es)
    requires min <= 2 * indent + s && Follow(rest, 2 * indent + s)
    ensures i < |es|
    ensures BlockFails(ParseBlock(Shift(EntriesLines(prefix, es, indent), s) + rest, min, Current(t, parts, done)),
                       parts + [es[i].key], es[i].val)
    decreases es, 0
  {
    hide ParseBlock, Current, CanFill, SafeProp, EntriesLines, SafeEntries, PropReads, Follow, Clean, JoinWith,
      IsKeys, IsKey, NoneIn, Shift, Open, BlockFails;
    assert es != [] by {
      EmptyEntriesSafe(prefix, indent);
    }
    EntriesUnfold(prefix, es, indent);
    var e, tail := es[0], es[1..];
    var more := Shift(EntriesLines(prefix, tail, indent), s) + rest;
    CleanTail(es);
    NoneStep(t, parts, done, es);
    EntriesFollow(prefix, tail, indent, s, rest, 2 * indent + s);
    PathStep(parts, prefix, e.key);
    ShiftSplit(PropLines(prefix + e.key, e.val, indent), EntriesLines(prefix, tail, indent), s, rest);
    if SafeProp(prefix + e.key, e.val, indent) {
      var w := PropBack(parts + [e.key], prefix + e.key, e.val, indent, s, more, min, Current(t, parts, done));
      var j := EntriesBad(parts, prefix, tail, indent, s, rest, min, t, done + [Entry(e.key, w)]);
      SkipGood(parts, es, min, t, done, w, Shift(PropLines(prefix + e.key, e.val, indent), s) + more, more);
      i := j + 1;
      assert tail[j] == es[i];
    } else {
      PropBad(parts + [e.key], prefix + e.key, e.val, indent, s, more, min, Current(t, parts, done));
      i := 0;
    }
  }

  lemma EmptyEntriesSafe(prefix: string, indent: nat)
    ensures SafeEntries(prefix, [], indent)
  {
  }

  lemma SkipGood(parts: seq<string>, es: seq<Entry>, min: nat, t: seq<Entry>, done: seq<Entry>, w: Value,
                 ls: seq<Line>, more: seq<Line>)
    requires es != [] && CanFill(t, parts) && NoneIn(done, es)
    requires PropReads(ls, more, min, Current(t, parts, done), parts + [es[0].key], w)
    ensures ParseBlock(ls, min, Current(t, parts, done))
         == ParseBlock(more, min, Current(t, parts, done + [Entry(es[0].key, w)]))
  {
    hide ParseBlock, Current, CanFill, PropReads;
    PropContinues(ls, more, min, Current(t, parts, done), parts + [es[0].key], w);
    CurrentStep(t, parts, done, es[0].key, w);
  }

  lemma BracesLine(path: string, indent: nat, s: nat, rest: seq<Line>)
    ensures Shift(PropLines(path, Str("{}"), indent), s) + rest == [Line(2 * indent + s, path + ":" + "{}")] + rest
  {
    BracesPrint();
    ShiftOne(Line(2 * indent, path + ":" + "{}"), s, rest);
  }

  lemma BracesPropBad(parts: seq<string>, path: string, indent: nat, s: nat, rest: seq<Line>, min: nat, t: seq<Entry>)
    requires parts != [] && IsKeys(parts) && path == JoinWith(parts, '.') && min <= 2 * indent + s
    ensures BlockFails(ParseBlock(Shift(PropLines(path, Str("{}"), indent), s) + rest, min, t), parts, Str("{}"))
  {
    hide PropLines, ParseBlock, JoinWith, BlockFails;
    var c, l := 2 * indent + s, Line(2 * indent + s, path + ":" + "{}");
    BracesLine(path, indent, s, rest);
    TrimSolid("{}");
    assert ParsePropValue(PropHead(path, "{}"), [l] + rest, c) == Ok(Parsed(Obj([]), ([l] + rest)[1..]));
    PropLineBad(parts, path, "{}", c, rest, min, t, Str("{}"));
  }

  lemma PropArrayBad(parts: seq<string>, path: string, items: seq<Value>, indent: nat, s: nat, rest: seq<Line>,
                     min: nat, t: seq<Entry>)
    requires parts != [] && IsKeys(parts) && path == JoinWith(parts, '.') && min <= 2 * indent + s
    requires !SafeArray(path, items, indent)
    requires ValueFails(ParseArrayForm(ListForm(|items|), Shift(ArrayBody(path, items, indent), s) + rest, 2 * indent + s),
                        Arr(items))
    ensures BlockFails(ParseBlock(Shift(PropLines(path, Arr(items), indent), s) + rest, min, t), parts, Arr(items))
  {
    hide ParseArrayForm, ArrayBody, ArrayTail, ParseBlock, JoinWith, SafeArray, BlockFails, Wrong, HeaderText;
    var body := ArrayBody(path, items, indent);
    UnsafeArrayShape(path, items, indent);
    ShiftCons(HeaderLine(path, items, "", indent), body, s, rest);
    assert PropLines(path, Arr(items), indent) == [HeaderLine(path, items, "", indent)] + body;
    ArrayLineBad(parts, path, |items|, 2 * indent + s, Shift(body, s) + rest, min, t, Arr(items));
  }

  lemma BlockValueBad(path: string, l: Line, next: seq<Line>, es: seq<Entry>, i: nat)
    requires i < |es|
    requires BlockFails(ParseBlock(next, l.ind + 2, []), [] + [es[i].key], es[i].val)
    ensures ValueFails(ParsePropValue(PropHead(path, ""), [l] + next, l.ind), Obj(es))
  {
    hide ParseBlock, Wrong, WrongAt, ParsePropValue;
    PropBlockValue(path, l, next);
    var r := ParseBlock(next, l.ind + 2, []);
    if r.Ok? {
      WrongTop(r.value.value, es, i);
    }
  }

  lemma PropBlockBad(parts: seq<string>, path: string, es: seq<Entry>, indent: nat, s: nat, rest: seq<Line>,
                     min: nat, t: seq<Entry>, i: nat)
    requires parts != [] && IsKeys(parts) && path == JoinWith(parts, '.') && min <= 2 * indent + s && i < |es|
    requires BlockFails(ParseBlock(Shift(EntriesLines("", es, indent + 1), s) + rest, 2 * indent + s + 2, []),
                        [] + [es[i].key], es[i].val)
    ensures BlockFails(ParseBlock(Shift([Line(2 * indent, path + ":")] + EntriesLines("", es, indent + 1), s) + rest, min, t),
                       parts, Obj(es))
  {
    hide EntriesLines, ParseBlock, JoinWith, ParsePropValue, BlockFails, Wrong;
    var c, body := 2 * indent + s, EntriesLines("", es, indent + 1);
    var l, next := Line(c, path + ":" + ""), Shift(body, s) + rest;
    assert path + ":" == path + ":" + "";
    ShiftCons(Line(2 * indent, path + ":"), body, s, rest);
    BlockValueBad(path, l, next, es, i);
    PropLineBad(parts, path, "", c, next, min, t, Obj(es));
  }

  lemma {:induction false} PropBad(parts: seq<string>, path: string, v: Value, indent: nat, s: nat,
                                   rest: seq<Line>, min: nat, t: seq<Entry>)
    requires parts != [] && IsKeys(parts) && path == JoinWith(parts, '.') && Open(t, parts)
    requires Clean(v) && !SafeProp(path, v, indent)
    requires min <= 2 * indent + s && Follow(rest, 2 * indent + s)
    ensures BlockFails(ParseBlock(Shift(PropLines(path, v, indent), s) + rest, min, t), parts, v)
    decreases v, 4
  {
    hide BlockFails, ParseBlock, JoinWith, Open, DotChosen, ArrayBody, ParseArrayForm, Wrong;
    match v
    case Arr(items) =>
      ArrayBad(path, items, indent, s, 2 * indent + s, rest);
      PropArrayBad(parts, path, items, indent, s, rest, min, t);
    case Obj(es) =>
      if indent == 0 && DotChosen(path, es) {
        var i := EntriesBad(parts, path + ".", es, 0, s, rest, min, t, []);
        DottedFails(ParseBlock(Shift(EntriesLines(path + ".", es, 0), s) + rest, min, t), parts, es, i);
        CurrentNone(t, parts);
      } else {
        var i := EntriesBad([], "", es, indent + 1, s, rest, 2 * indent + s + 2, [], []);
        PropBlockBad(parts, path, es, indent, s, rest, min, t, i);
      }
    case _ => BracesPropBad(parts, path, indent, s, rest, min, t);
  }

  lemma CurrentNone(t: seq<Entry>, parts: seq<string>)
    requires parts != [] && CanFill(t, parts)
    ensures Current(t, parts, []) == t
  {
  }

  lemma DottedFails(r: Result<Parsed<seq<Entry>>>, parts: seq<string>, es: seq<Entry>, i: nat)
    requires parts != [] && i < |es| && BlockFails(r, parts + [es[i].key], es[i].val)
    ensures BlockFails(r, parts, Obj(es))
  {
    if r.Ok? {
      WrongUp(r.value.value, parts, es, i);
    }
  }

  // --- Documents --------------------------------------------------------------

  ghost predicate ComesBack(v: Value) {
    Decode(EncodedText(v)).Ok? && PyEq(Decode(EncodedText(v)).value, v)
  }

  lemma RootObjectBad(es: seq<Entry>)
    requires es != [] && Clean(Obj(es)) && !SafeEntries("", es, 0)
    ensures !ComesBack(Obj(es))
  {
    hide Clean, SafeEntries, EntriesLines, DecodeLines, ParseBlock, PyEq, RootScalar, LinesOk, Wrong, WrongAt;
    var ls := EntriesLines("", es, 0);
    RootObjectLines(es);
    var i := EntriesBad([], "", es, 0, 0, [], 0, [], []);
    assert Shift(ls, 0) + [] == ls;
    DecodePrinted(ls);
    var r := ParseBlock(ls, 0, []);
    if r.Ok? {
      WrongTop(r.value.value, es, i);
      WrongNotEqual(Obj(r.value.value), Obj(es));
    }
  }

  lemma RootArrayBad(items: seq<Value>)
    requires Clean(Arr(items)) && !SafeArray("", items, 0)
    ensures !ComesBack(Arr(items))
  {
    hide Clean, SafeArray, ArrayBody, ArrayTail, DecodeLines, ParseArrayForm, FormOf, AllScalars, PyEq, RootHead,
      HeaderText, LinesOk, NatText, Wrong;
    var l, body := Line(0, HeaderText("", |items|, "")), ArrayBody("", items, 0);
    UnsafeArrayShape("", items, 0);
    RootArrayLines(items);
    CleanItems(items);
    ArrayBad("", items, 0, 0, 0, []);
    BlankForm(|items|, body, 0);
    assert Shift(body, 0) + [] == body;
    assert ([l] + body)[1..] == body && ([l] + body)[0] == l;
    DecodePrinted([l] + body);
    var r := ParseArrayForm(ListForm(|items|), body, 0);
    if r.Ok? {
      WrongNotEqual(r.value.value, Arr(items));
    }
  }

  lemma RootScalarNone(t: string, n: int)
    requires IsNumberText(t) && ParseNumber(t) == Num(Int(n)) && !(-FLOAT_OVERFLOW < n < FLOAT_OVERFLOW)
    ensures RootScalar(t) == None
  {
    NumberToken(t);
  }

  lemma HeadlessLineFails(t: string)
    requires IsToken(t) && ':' !in t && t[0] != '[' && RootScalar(t) == None
    ensures Decode(t).Err?
  {
    hide RootScalar, KeyHead;
    var ls := [Line(0, t)];
    DecodeOneLine(t);
    TrimSolid(t);
    NoColonNoHead(t);
    assert SkipBlank(ls) == ls;
    assert ParseBlock(ls, 0, []).Err?;
  }

  lemma BigIntBad(n: int)
    requires !(-FLOAT_OVERFLOW < n < FLOAT_OVERFLOW)
    ensures !ComesBack(Num(Int(n)))
  {
    hide IsNumberText, RootScalar, Decode;
    var t := IntText(n);
    NumberRoundTrip(Int(n));
    NumberToken(t);
    RootScalarNone(t, n);
    HeadlessLineFails(t);
  }

  /** A clean value comes back if and only if it survives. */
  lemma CleanRoundTrip(v: Value)
    requires Clean(v)
    ensures ComesBack(v) <==> Survives(v)
  {
    hide ComesBack, Clean, SafeArray, SafeEntries, Decode, EncodedText;
    if Survives(v) {
      SurvivorsComeBack(v);
    } else {
      match v {
        case Arr(items) => RootArrayBad(items);
        case Obj(es) =>
          EmptyEntriesSafe("", 0);
          RootObjectBad(es);
        case Num(num) => BigIntBad(num.n);
      }
    }
  }

  lemma SurvivorsComeBack(v: Value)
    requires Clean(v) && Survives(v)
    ensures ComesBack(v)
  {
    hide Clean, Survives, Decode, EncodedText, PyEq;
    SurvivorsRoundTrip(v);
  }
}
