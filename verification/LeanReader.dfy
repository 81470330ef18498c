// The decoder as it runs: a cursor over the lines that the `_parse_*` methods move forward.
// Every method is tied to the function of the same name in LeanDecode.

module LeanReader {
  import opened Common
  import opened LeanText
  import opened LeanValue
  import opened LeanScalar
  import opened LeanEncode
  import opened LeanDecode

  /** The method's outcome is the function's, and the cursor stands at the function's rest. */
  ghost predicate Agrees<T>(r: Result<T>, spec: Result<Parsed<T>>, rest: seq<Line>) {
    match spec
    case Ok(p) => r == Ok(p.value) && p.rest == rest
    case Err(e) => r == Err(e)
  }

  /** `_ParseState` */
  class ParseState {
    const lines: seq<Line>
    var i: nat

    ghost predicate Valid()
      reads this
    {
      i <= |lines|
    }

    constructor (lines: seq<Line>)
      ensures this.lines == lines && i == 0
    {
      this.lines := lines;
      i := 0;
    }

    /** The look-ahead before a table: is the next non-blank line indented to `min`? */
    method PeekDataRow(min: nat) returns (data: bool)
      requires i < |lines|
      ensures data == HasDataRow(lines[i + 1..], min)
    {
      var peek := i + 1;
      while peek < |lines| && Blank(lines[peek])
        invariant i < peek <= |lines|
        invariant SkipBlank(lines[i + 1..]) == SkipBlank(lines[peek..])
      {
        assert lines[peek..][1..] == lines[peek + 1..];
        peek := peek + 1;
      }
      data := peek < |lines| && lines[peek].ind >= min;
    }

    method Form(digits: string, tail: string, ind: nat) returns (form: ArrayForm)
      requires i < |lines|
      ensures form == FormOf(digits, tail, lines[i + 1..], ind)
    {
      var data := PeekDataRow(ind + 2);
      var fields := FieldsOf(tail);
      if IsFieldList(fields) && ParseNat(digits) > 0 && data {
        var semi := fields[|fields| - 1] == "~";
        form := RowsForm(ParseNat(digits), if semi then fields[..|fields| - 1] else fields, semi);
      } else if digits == "0" && AllSpace(tail) {
        form := EmptyForm;
      } else if digits != "" && digits[0] != '0' && AllSpace(tail) {
        form := ListForm(ParseNat(digits));
      } else {
        form := OtherForm;
      }
    }

    method ParseTabularRows(count: nat, fields: seq<string>, min: nat, semi: bool) returns (r: Result<seq<Value>>)
      requires Valid()
      modifies this
      ensures Valid() && i >= old(i)
      ensures Agrees(r, ParseRows(lines[old(i)..], count, fields, min, semi), lines[i..])
    {
      hide ParseRecord, NoRepeats, TrimRight, Blank;
      if !NoRepeats(fields) {
        return Err(DuplicateField);
      }
      var rows: seq<Value> := [];
      EmptyPrefix(RowsLoop(lines[i..], count, fields, min, semi));
      while |rows| < count && i < |lines|
        invariant Valid() && i >= old(i) && |rows| <= count
        invariant RowsLoop(lines[old(i)..], count, fields, min, semi) ==
          match RowsLoop(lines[i..], count - |rows|, fields, min, semi) {
            case Err(e) => Err(e)
            case Ok(p) => Ok(Parsed(rows + p.value, p.rest))
          }
        decreases |lines| - i
      {
        assert lines[i..][0] == lines[i] && lines[i..][1..] == lines[i + 1..];
        if Blank(lines[i]) {
          i := i + 1;
          continue;
        }
        if lines[i].ind < min {
          break;
        }
        var row := ParseRecord(TrimRight(lines[i].content), fields, semi);
        if row.Err? {
          return Err(row.error);
        }
        RowsShift(rows, row.value, RowsLoop(lines[i + 1..], count - |rows| - 1, fields, min, semi));
        rows := rows + [row.value];
        i := i + 1;
      }
      r := if |rows| != count then Err(RowCountMismatch) else Ok(rows);
      assert rows + [] == rows;
    }

    /** The array whose header is the current line, flat notation included. */
    method ParseArrayAt(digits: string, tail: string, ind: nat) returns (r: Result<Value>)
      requires i < |lines|
      modifies this
      ensures Valid() && i >= old(i)
      ensures Agrees(r, ParseArrayHere(digits, tail, lines[old(i)..], ind), lines[i..])
      decreases |lines| - i, 0
    {
      hide FormOf, ParseRows, ParseItems, ParseFlat;
      assert lines[i..][1..] == lines[i + 1..];
      var form := Form(digits, tail, ind);
      if !form.OtherForm? {
        i := i + 1;
        r := ParseFormAt(form, ind);
      } else {
        r := ParseFlat(digits, tail);
        i := i + 1;
      }
    }

    /** The body of an array in any notation but the flat one. */
    method ParseFormAt(form: ArrayForm, ind: nat) returns (r: Result<Value>)
      requires Valid() && !form.OtherForm?
      modifies this
      ensures Valid() && i >= old(i)
      ensures Agrees(r, ParseArrayForm(form, lines[old(i)..], ind), lines[i..])
      decreases |lines| - i, 5
    {
      hide ParseRows, ParseItems;
      match form
      case RowsForm(count, fields, semi) =>
        var rows := ParseTabularRows(count, fields, ind + 2, semi);
        r := if rows.Ok? then Ok(Arr(rows.value)) else Err(rows.error);
      case EmptyForm => r := Ok(Arr([]));
      case ListForm(count) =>
        var items := ParseListItems(ind, count);
        r := if items.Ok? then Ok(Arr(items.value)) else Err(items.error);
    }

    method ParseListItems(baseIndent: nat, count: nat) returns (r: Result<seq<Value>>)
      requires Valid()
      modifies this
      ensures Valid() && i >= old(i)
      ensures Agrees(r, ParseItems(lines[old(i)..], baseIndent, count), lines[i..])
      decreases |lines| - i, 4
    {
      hide ParseItem;
      var arr: seq<Value> := [];
      EmptyPrefix(ParseItems(lines[i..], baseIndent, count));
      while |arr| < count && i < |lines|
        invariant Valid() && i >= old(i) && |arr| <= count
        invariant ParseItems(lines[old(i)..], baseIndent, count) ==
          match ParseItems(lines[i..], baseIndent, count - |arr|) {
            case Err(e) => Err(e)
            case Ok(p) => Ok(Parsed(arr + p.value, p.rest))
          }
        decreases |lines| - i
      {
        assert lines[i..][0] == lines[i] && lines[i..][1..] == lines[i + 1..];
        if Blank(lines[i]) {
          i := i + 1;
          continue;
        }
        if lines[i].ind < baseIndent + 2 {
          break;
        }
        var item := ParseItemAt(baseIndent + 2);
        if item.Err? {
          return Err(item.error);
        }
        RowsShift(arr, item.value, ParseItems(lines[i..], baseIndent, count - |arr| - 1));
        arr := arr + [item.value];
      }
      r := if |arr| != count then Err(CountMismatch) else Ok(arr);
      assert arr + [] == arr;
    }

    /** One dashed item. */
    method ParseItemAt(itemIndent: nat) returns (r: Result<Value>)
      requires i < |lines|
      modifies this
      ensures Valid() && i >= old(i)
      ensures Agrees(r, ParseItem(lines[old(i)..], itemIndent), lines[i..])
      decreases |lines| - i, 3
    {
      hide ParseArrayHere, ParseItemObject, DashBody, RootHead, TrimRight, IsObjectItem, ParseScalarValue;
      ghost var ls := lines[i..];
      assert ls[0] == lines[i] && ls[1..] == lines[i + 1..];
      var body := DashBody(lines[i].content);
      if body.None? {
        return Err(UnrecognizedItem);
      }
      var b := body.value;
      if TrimRight(b) == "{}" {
        i := i + 1;
        return Ok(Obj([]));
      }
      var root := RootHead(b);
      if root.ArrayHead? {
        r := ParseArrayAt(root.digits, root.tail, lines[i].ind);
        return;
      }
      if IsObjectItem(b) {
        var es := ParseListItemObject(b, itemIndent);
        r := if es.Ok? then Ok(Obj(es.value)) else Err(es.error);
        return;
      }
      if b == "" && |lines[i].content| < 3 {
        return Err(UnrecognizedItem);
      }
      i := i + 1;
      r := Ok(ParseScalarValue(b));
    }

    /** The value of the first key of a dashed object. */
    method ParseFirst(head: Head) returns (r: Result<Value>)
      requires i < |lines| && !head.NoHead?
      modifies this
      ensures Valid() && i >= old(i)
      ensures Agrees(r, ParseFirstValue(head, lines[old(i)..]), lines[i..])
      decreases |lines| - i, 1
    {
      hide ParseArrayForm, FormOf, ParseBlock, TrimRight, AllSpace, ParseScalarValue;
      ghost var ls := lines[i..];
      assert ls[0] == lines[i] && ls[1..] == lines[i + 1..];
      var ind := lines[i].ind;
      match head
      case PropHead(_, tail) =>
        i := i + 1;
        if TrimRight(tail) == "{}" {
          r := Ok(Obj([]));
        } else if AllSpace(tail) {
          var nested := ParseBlockAt(ind + 4, []);
          r := if nested.Ok? then Ok(Obj(nested.value)) else Err(nested.error);
        } else {
          r := Ok(ParseScalarValue(tail));
        }
      case ArrayHead(_, digits, tail) =>
        var form := Form(digits, tail, ind);
        if form.OtherForm? {
          return Err(InvalidItemObject);
        }
        i := i + 1;
        r := ParseFormAt(form, ind);
    }

    method ParseListItemObject(body: string, parentIndent: nat) returns (r: Result<seq<Entry>>)
      requires i < |lines|
      modifies this
      ensures Valid() && i >= old(i) && (r.Ok? ==> i > old(i))
      ensures Agrees(r, ParseItemObject(body, lines[old(i)..], parentIndent), lines[i..])
      decreases |lines| - i, 2
    {
      hide ParseFirstValue, KeyHead, ParseLine;
      var head := KeyHead(body, false);
      if head.NoHead? {
        return Err(InvalidItemObject);
      }
      var min := lines[i].ind + 2;
      assert lines[i..][0] == lines[i];
      var first := ParseFirst(head);
      if first.Err? {
        return Err(first.error);
      }
      ghost var start := i;
      var obj := [Entry(head.key, first.value)];
      while i < |lines|
        invariant Valid() && i >= start
        invariant ParseItemBody(lines[start..], min, parentIndent, [Entry(head.key, first.value)])
               == ParseItemBody(lines[i..], min, parentIndent, obj)
        decreases |lines| - i
      {
        assert lines[i..][0] == lines[i] && lines[i..][1..] == lines[i + 1..];
        if Blank(lines[i]) {
          i := i + 1;
          continue;
        }
        if lines[i].ind < min {
          break;
        }
        if lines[i].ind == parentIndent && "- " <= lines[i].content {
          break;
        }
        var t := ParseLineAt(obj);
        if t.Err? {
          return Err(t.error);
        }
        obj := t.value;
      }
      r := Ok(obj);
    }

    method ParseLineAt(target: seq<Entry>) returns (r: Result<seq<Entry>>)
      requires i < |lines|
      modifies this
      ensures Valid() && i >= old(i) && (r.Ok? ==> i > old(i))
      ensures Agrees(r, ParseLine(lines[old(i)..], target), lines[i..])
      decreases |lines| - i, 2
    {
      hide ParsePropValue, KeyHead, SetNested, SplitOn;
      assert lines[i..][0] == lines[i];
      var head := KeyHead(lines[i].content, true);
      if head.NoHead? {
        return Err(Unrecognized);
      }
      var v := ParseProp(head, lines[i].ind);
      if v.Err? {
        return Err(v.error);
      }
      r := SetNested(target, SplitOn(head.key, '.'), v.value);
    }

    method ParseProp(head: Head, ind: nat) returns (r: Result<Value>)
      requires i < |lines| && !head.NoHead?
      modifies this
      ensures Valid() && i >= old(i)
      ensures Agrees(r, ParsePropValue(head, lines[old(i)..], ind), lines[i..])
      decreases |lines| - i, 1
    {
      hide ParseArrayHere, FormOf, ParseBlock, TrimRight, AllSpace, ParseScalarValue;
      ghost var ls := lines[i..];
      assert ls[0] == lines[i] && ls[1..] == lines[i + 1..];
      match head
      case PropHead(_, tail) =>
        i := i + 1;
        if TrimRight(tail) == "{}" {
          r := Ok(Obj([]));
        } else if AllSpace(tail) {
          var nested := ParseBlockAt(ind + 2, []);
          r := if nested.Ok? then Ok(Obj(nested.value)) else Err(nested.error);
        } else {
          r := Ok(ParseScalarValue(tail));
        }
      case ArrayHead(_, digits, tail) =>
        var form := Form(digits, tail, ind);
        if form.OtherForm? && tail == "" {
          return Err(Unrecognized);
        }
        r := ParseArrayAt(digits, tail, ind);
    }

    method ParseBlockAt(min: nat, target: seq<Entry>) returns (r: Result<seq<Entry>>)
      requires Valid()
      modifies this
      ensures Valid() && i >= old(i)
      ensures Agrees(r, ParseBlock(lines[old(i)..], min, target), lines[i..])
      decreases |lines| - i, 3
    {
      hide ParseLine;
      var obj := target;
      while i < |lines|
        invariant Valid() && i >= old(i)
        invariant ParseBlock(lines[old(i)..], min, target) == ParseBlock(lines[i..], min, obj)
        decreases |lines| - i
      {
        assert lines[i..][0] == lines[i] && lines[i..][1..] == lines[i + 1..];
        if Blank(lines[i]) {
          i := i + 1;
          continue;
        }
        if lines[i].ind < min {
          break;
        }
        var t := ParseLineAt(obj);
        if t.Err? {
          return Err(t.error);
        }
        obj := t.value;
      }
      r := Ok(obj);
    }

    method SkipToContent()
      requires Valid()
      modifies this
      ensures Valid() && i >= old(i)
      ensures lines[i..] == SkipBlank(lines[old(i)..])
    {
      while i < |lines| && Blank(lines[i])
        invariant Valid() && i >= old(i)
        invariant SkipBlank(lines[old(i)..]) == SkipBlank(lines[i..])
        decreases |lines| - i
      {
        assert lines[i..][0] == lines[i] && lines[i..][1..] == lines[i + 1..];
        i := i + 1;
      }
    }

    /** `_skip_trailing`: everything after a document must be blank. */
    method OnlyBlanksLeft() returns (ok: bool)
      requires Valid()
      modifies this
      ensures Valid() && ok == AllBlank(lines[old(i)..])
      ensures ok ==> i == |lines|
    {
      while i < |lines|
        invariant old(i) <= i <= |lines|
        invariant forall k | old(i) <= k < i :: Blank(lines[k])
        decreases |lines| - i
      {
        if !Blank(lines[i]) {
          assert !Blank(lines[old(i)..][i - old(i)]);
          return false;
        }
        i := i + 1;
      }
      return true;
    }

    method ParseRoot(first: string) returns (r: Result<Value>)
      requires i < |lines| && first == TrimRight(lines[i].content)
      modifies this
      ensures Valid()
      ensures first != "" && first[0] == '[' ==> Agrees(r, ParseRootArray(lines[old(i)..]), lines[i..])
      ensures !(first != "" && first[0] == '[') ==>
        match ParseBlock(lines[old(i)..], 0, []) {
          case Err(e) => r == Err(e)
          case Ok(p) => r == Ok(Obj(p.value)) && lines[i..] == p.rest
        }
    {
      hide ParseArrayHere, ParseBlock, FormOf, RootHead, TrimRight;
      assert lines[i..][0] == lines[i] && lines[i..][1..] == lines[i + 1..];
      if first != "" && first[0] == '[' {
        var head := RootHead(first);
        if !head.ArrayHead? {
          return Err(Unrecognized);
        }
        var form := Form(head.digits, head.tail, 0);
        if form.OtherForm? && head.tail == "" {
          return Err(Unrecognized);
        }
        r := ParseArrayAt(head.digits, head.tail, 0);
      } else {
        var es := ParseBlockAt(0, []);
        r := if es.Ok? then Ok(Obj(es.value)) else Err(es.error);
      }
    }
  }

  lemma RowsShift(done: seq<Value>, v: Value, r: Result<Parsed<seq<Value>>>)
    ensures r.Ok? ==> done + ([v] + r.value.value) == done + [v] + r.value.value
  {
  }

  lemma EmptyPrefix(r: Result<Parsed<seq<Value>>>)
    ensures r.Ok? ==> [] + r.value.value == r.value.value
  {
  }

  /** `decode` */
  method DecodeText(text: string) returns (r: Result<Value>)
    ensures r == Decode(text)
  {
    hide ParseRootArray, ParseBlock, RootScalar, TrimRight, AllBlank, SplitOn;
    var state := new ParseState(ShapeAll(SplitOn(text, '\n')));
    assert state.lines[0..] == state.lines;
    state.SkipToContent();
    if state.i >= |state.lines| {
      return Err(EmptyDocument);
    }
    ghost var ls := state.lines[state.i..];
    assert ls[0] == state.lines[state.i] && ls[1..] == state.lines[state.i + 1..];
    var first := TrimRight(state.lines[state.i].content);
    var scalar := RootScalar(first);
    if scalar.Some? {
      state.i := state.i + 1;
      r := Ok(scalar.value);
    } else {
      r := state.ParseRoot(first);
    }
    if r.Ok? {
      var clean := state.OnlyBlanksLeft();
      if !clean {
        r := Err(TrailingContent);
      }
    }
  }
}
