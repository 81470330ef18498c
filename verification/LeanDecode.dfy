// The LEAN decoder: scripts/lean_format.py:30-81 and 433-1141. Each regular expression is a
// predicate on the text of a line; the functions are the reference for the cursor-based methods
// of LeanReader.

module LeanDecode {
  import opened Common
  import opened LeanText
  import opened LeanValue
  import opened LeanScalar
  import opened LeanEncode

  datatype ParseError =
    | DuplicateKey | NestIntoScalar | TrailingContent | CountMismatch | RowCountMismatch
    | FieldCountMismatch | DuplicateField | CellWithoutColon | UnterminatedQuote
    | UnrecognizedItem | InvalidItemObject | Unrecognized | EmptyDocument

  datatype Result<+T> = Ok(value: T) | Err(error: ParseError) {
    predicate IsFailure() {
      Err?
    }

    function PropagateFailure<U>(): Result<U>
      requires Err?
    {
      Err(error)
    }

    function Extract(): T
      requires Ok?
    {
      value
    }
  }

  /** A parsed piece and the lines that follow it. */
  datatype Parsed<+T> = Parsed(value: T, rest: seq<Line>)

  // --- Lines and heads --------------------------------------------------------

  /** A physical line as the decoder sees it: its indent and `line[indent:]`. */
  function Shape(text: string): Line {
    Line(Indent(text), text[Indent(text)..])
  }

  function ShapeAll(texts: seq<string>): (ls: seq<Line>)
    ensures |ls| == |texts|
    ensures forall i | 0 <= i < |texts| :: ls[i] == Shape(texts[i])
  {
    seq(|texts|, i requires 0 <= i < |texts| => Shape(texts[i]))
  }

  predicate Blank(l: Line) {
    l.content == ""
  }

  predicate AllBlank(ls: seq<Line>) {
    forall i | 0 <= i < |ls| :: Blank(ls[i])
  }

  function SkipBlank(ls: seq<Line>): (r: seq<Line>)
    ensures |r| <= |ls|
    ensures r != [] ==> !Blank(r[0])
    ensures ls != [] && !Blank(ls[0]) ==> r == ls
  {
    if ls != [] && Blank(ls[0]) then SkipBlank(ls[1..]) else ls
  }

  /** Greedy run of `[\w-]*`, or `[\w.-]*` when dots are allowed. */
  function KeyRun(s: string, dots: bool): (n: nat)
    ensures n <= |s|
  {
    if s != "" && (IsKeyChar(s[0]) || (dots && s[0] == '.')) then 1 + KeyRun(s[1..], dots) else 0
  }

  /** What follows the key at the start of a line. */
  datatype Head = NoHead | PropHead(key: string, tail: string) | ArrayHead(key: string, digits: string, tail: string)

  function AfterKey(key: string, u: string): Head {
    if u == "" then NoHead
    else if u[0] == ':' then PropHead(key, u[1..])
    else if u[0] == '[' then
      var d := DigitSpan(u[1..]);
      if d > 0 && |u| >= d + 3 && u[d + 1] == ']' && u[d + 2] == ':'
      then ArrayHead(key, u[1..d + 1], u[d + 3..])
      else NoHead
    else NoHead
  }

  /** `^([\w][\w.-]*):` or `^([\w][\w.-]*)\[(\d+)\]:` */
  function KeyHead(s: string, dots: bool): Head {
    if s == "" || !IsWord(s[0]) then NoHead
    else
      var n := 1 + KeyRun(s[1..], dots);
      AfterKey(s[..n], s[n..])
  }

  /** `^\[(\d+)\]:` */
  function RootHead(s: string): Head {
    if s != "" && s[0] == '[' then AfterKey("", s) else NoHead
  }

  predicate IsFieldList(fields: seq<string>) {
    && fields != []
    && (forall i | 0 <= i < |fields| - 1 :: IsKey(fields[i]))
    && (IsKey(fields[|fields| - 1]) || (|fields| >= 2 && fields[|fields| - 1] == "~"))
  }

  function FieldsOf(tail: string): seq<string> {
    SplitOn(TrimRight(tail), '\t')
  }

  /** Look-ahead: the next non-blank line is indented at least to `min`. */
  predicate HasDataRow(next: seq<Line>, min: nat) {
    var r := SkipBlank(next);
    r != [] && r[0].ind >= min
  }

  /** Which array notation `[digits]:tail` is, given the lines after it. */
  datatype ArrayForm = RowsForm(count: nat, fields: seq<string>, semi: bool) | EmptyForm | ListForm(count: nat) | OtherForm

  function FormOf(digits: string, tail: string, next: seq<Line>, ind: nat): ArrayForm {
    var fields := FieldsOf(tail);
    if IsFieldList(fields) && ParseNat(digits) > 0 && HasDataRow(next, ind + 2) then
      var semi := fields[|fields| - 1] == "~";
      RowsForm(ParseNat(digits), if semi then fields[..|fields| - 1] else fields, semi)
    else if digits == "0" && AllSpace(tail) then EmptyForm
    else if digits != "" && digits[0] != '0' && AllSpace(tail) then ListForm(ParseNat(digits))
    else OtherForm
  }

  /** The text after `^-\s+`, and whether `.+` finds at least one character there. */
  function DashBody(s: string): Option<string> {
    if |s| >= 2 && s[0] == '-' && IsSpace(s[1]) then Some(s[1 + Indent(s[1..])..]) else None
  }

  /** The tests that send a list item to `_parse_list_item_object`. */
  predicate IsObjectItem(b: string) {
    match KeyHead(b, false)
    case NoHead => false
    case PropHead(_, _) => true
    case ArrayHead(_, digits, tail) =>
      IsFieldList(FieldsOf(tail)) || (AllSpace(tail) && (digits == "0" || digits[0] != '0'))
  }

  // --- Dictionaries -----------------------------------------------------------

  function SetKey(t: seq<Entry>, k: string, v: Value): Result<seq<Entry>> {
    if HasKey(t, k) then Err(DuplicateKey) else Ok(t + [Entry(k, v)])
  }

  /** Replace the value under `k`. */
  function Put(t: seq<Entry>, k: string, v: Value): (r: seq<Entry>)
    ensures |r| == |t|
    ensures forall i | 0 <= i < |t| :: r[i].key == t[i].key
  {
    if t == [] then [] else if t[0].key == k then [Entry(k, v)] + t[1..] else [t[0]] + Put(t[1..], k, v)
  }

  /** `_set_nested_value` along the parts of a dotted path. */
  function SetNested(t: seq<Entry>, parts: seq<string>, v: Value): Result<seq<Entry>>
    requires parts != []
    decreases |parts|
  {
    var p := parts[0];
    if |parts| == 1 then SetKey(t, p, v)
    else if !HasKey(t, p) then
      var sub :- SetNested([], parts[1..], v);
      Ok(t + [Entry(p, Obj(sub))])
    else if Get(t, p).Obj? then
      var sub :- SetNested(Get(t, p).entries, parts[1..], v);
      Ok(Put(t, p, Obj(sub)))
    else Err(NestIntoScalar)
  }

  // --- Rows -------------------------------------------------------------------

  function Zip(fields: seq<string>, vs: seq<Value>): (es: seq<Entry>)
    requires |fields| <= |vs|
    ensures |es| == |fields|
    ensures forall i | 0 <= i < |fields| :: es[i] == Entry(fields[i], vs[i])
  {
    seq(|fields|, i requires 0 <= i < |fields| => Entry(fields[i], vs[i]))
  }

  /** Position of the first colon, or the length when there is none. */
  function FindColon(s: string): (n: nat)
    ensures n <= |s|
  {
    if s == "" || s[0] == ':' then 0 else 1 + FindColon(s[1..])
  }

  function AddExtras(t: seq<Entry>, cells: seq<string>): Result<seq<Entry>>
    decreases cells
  {
    if cells == [] then Ok(t)
    else
      var n := FindColon(cells[0]);
      if n == |cells[0]| then Err(CellWithoutColon)
      else
        var t1 :- SetKey(t, cells[0][..n], ParseCellValue(cells[0][n + 1..]));
        AddExtras(t1, cells[1..])
  }

  function ParseRecord(text: string, fields: seq<string>, semi: bool): Result<Value> {
    match SplitCells(text, false, "")
    case None => Err(UnterminatedQuote)
    case Some(cells) =>
      if semi then
        if |cells| < |fields| then Err(FieldCountMismatch)
        else
          var es :- AddExtras(Zip(fields, ParseCells(cells)), cells[|fields|..]);
          Ok(Obj(es))
      else if |cells| != |fields| then Err(FieldCountMismatch)
      else Ok(Obj(Zip(fields, ParseCells(cells))))
  }

  predicate NoRepeats(fields: seq<string>) {
    forall i, j | 0 <= i < j < |fields| :: fields[i] != fields[j]
  }

  function RowsLoop(ls: seq<Line>, count: nat, fields: seq<string>, min: nat, semi: bool): (r: Result<Parsed<seq<Value>>>)
    ensures r.Ok? ==> |r.value.rest| <= |ls| && |r.value.value| == count
  {
    if count == 0 then Ok(Parsed([], ls))
    else if ls == [] then Err(RowCountMismatch)
    else if Blank(ls[0]) then RowsLoop(ls[1..], count, fields, min, semi)
    else if ls[0].ind < min then Err(RowCountMismatch)
    else
      var row :- ParseRecord(TrimRight(ls[0].content), fields, semi);
      var more :- RowsLoop(ls[1..], count - 1, fields, min, semi);
      Ok(Parsed([row] + more.value, more.rest))
  }

  /** `_parse_tabular_rows` */
  function ParseRows(ls: seq<Line>, count: nat, fields: seq<string>, min: nat, semi: bool): (r: Result<Parsed<seq<Value>>>)
    ensures r.Ok? ==> |r.value.rest| <= |ls| && |r.value.value| == count
  {
    if !NoRepeats(fields) then Err(DuplicateField) else RowsLoop(ls, count, fields, min, semi)
  }

  function ParseFlat(digits: string, tail: string): Result<Value> {
    match ParseRow(tail)
    case None => Err(UnterminatedQuote)
    case Some(vs) => if |vs| != ParseNat(digits) then Err(CountMismatch) else Ok(Arr(vs))
  }

  // --- Structure --------------------------------------------------------------

  /** The value of `[digits]:tail` in any notation but the flat one; None means OtherForm. */
  function ParseArrayForm(form: ArrayForm, next: seq<Line>, ind: nat): (r: Result<Parsed<Value>>)
    requires !form.OtherForm?
    ensures r.Ok? ==> |r.value.rest| <= |next|
    decreases |next|, 5
  {
    match form
    case RowsForm(count, fields, semi) =>
      var rows :- ParseRows(next, count, fields, ind + 2, semi);
      Ok(Parsed(Arr(rows.value), rows.rest))
    case EmptyForm => Ok(Parsed(Arr([]), next))
    case ListForm(count) =>
      var items :- ParseItems(next, ind, count);
      Ok(Parsed(Arr(items.value), items.rest))
  }

  /** The array whose head is the first line, flat notation included. */
  function ParseArrayHere(digits: string, tail: string, ls: seq<Line>, ind: nat): (r: Result<Parsed<Value>>)
    requires ls != []
    ensures r.Ok? ==> |r.value.rest| < |ls|
    decreases |ls|, 0
  {
    var form := FormOf(digits, tail, ls[1..], ind);
    if !form.OtherForm? then ParseArrayForm(form, ls[1..], ind)
    else
      var v :- ParseFlat(digits, tail);
      Ok(Parsed(v, ls[1..]))
  }

  /** The value a `key...` line holds. */
  function ParsePropValue(head: Head, ls: seq<Line>, ind: nat): (r: Result<Parsed<Value>>)
    requires ls != [] && !head.NoHead?
    ensures r.Ok? ==> |r.value.rest| < |ls|
    decreases |ls|, 1
  {
    match head
    case PropHead(_, tail) =>
      if TrimRight(tail) == "{}" then Ok(Parsed(Obj([]), ls[1..]))
      else if AllSpace(tail) then
        var nested :- ParseBlock(ls[1..], ind + 2, []);
        Ok(Parsed(Obj(nested.value), nested.rest))
      else Ok(Parsed(ParseScalarValue(tail), ls[1..]))
    case ArrayHead(_, digits, tail) =>
      if FormOf(digits, tail, ls[1..], ind).OtherForm? && tail == "" then Err(Unrecognized)
      else ParseArrayHere(digits, tail, ls, ind)
  }

  /** `_parse_line` on the first line */
  function ParseLine(ls: seq<Line>, target: seq<Entry>): (r: Result<Parsed<seq<Entry>>>)
    requires ls != []
    ensures r.Ok? ==> |r.value.rest| < |ls|
    decreases |ls|, 2
  {
    var head := KeyHead(ls[0].content, true);
    if head.NoHead? then Err(Unrecognized)
    else
      var v :- ParsePropValue(head, ls, ls[0].ind);
      var t :- SetNested(target, SplitOn(head.key, '.'), v.value);
      Ok(Parsed(t, v.rest))
  }

  /** `_parse_block` */
  function ParseBlock(ls: seq<Line>, min: nat, target: seq<Entry>): (r: Result<Parsed<seq<Entry>>>)
    ensures r.Ok? ==> |r.value.rest| <= |ls|
    decreases |ls|, 3
  {
    if ls == [] then Ok(Parsed(target, ls))
    else if Blank(ls[0]) then ParseBlock(ls[1..], min, target)
    else if ls[0].ind < min then Ok(Parsed(target, ls))
    else
      var t :- ParseLine(ls, target);
      ParseBlock(t.rest, min, t.value)
  }

  /** The "remaining keys" loop of `_parse_list_item_object` */
  function ParseItemBody(ls: seq<Line>, min: nat, parentIndent: nat, target: seq<Entry>): (r: Result<Parsed<seq<Entry>>>)
    ensures r.Ok? ==> |r.value.rest| <= |ls|
    decreases |ls|, 3
  {
    if ls == [] then Ok(Parsed(target, ls))
    else if Blank(ls[0]) then ParseItemBody(ls[1..], min, parentIndent, target)
    else if ls[0].ind < min then Ok(Parsed(target, ls))
    else if ls[0].ind == parentIndent && "- " <= ls[0].content then Ok(Parsed(target, ls))
    else
      var t :- ParseLine(ls, target);
      ParseItemBody(t.rest, min, parentIndent, t.value)
  }

  /** The value of the first key of a dashed object; a flat array has no branch here. */
  function ParseFirstValue(head: Head, ls: seq<Line>): (r: Result<Parsed<Value>>)
    requires ls != [] && !head.NoHead?
    ensures r.Ok? ==> |r.value.rest| < |ls|
    decreases |ls|, 1
  {
    var ind := ls[0].ind;
    match head
    case PropHead(_, tail) =>
      if TrimRight(tail) == "{}" then Ok(Parsed(Obj([]), ls[1..]))
      else if AllSpace(tail) then
        var nested :- ParseBlock(ls[1..], ind + 4, []);
        Ok(Parsed(Obj(nested.value), nested.rest))
      else Ok(Parsed(ParseScalarValue(tail), ls[1..]))
    case ArrayHead(_, digits, tail) =>
      var form := FormOf(digits, tail, ls[1..], ind);
      if form.OtherForm? then Err(InvalidItemObject) else ParseArrayForm(form, ls[1..], ind)
  }

  /** `_parse_list_item_object` */
  function ParseItemObject(body: string, ls: seq<Line>, parentIndent: nat): (r: Result<Parsed<seq<Entry>>>)
    requires ls != []
    ensures r.Ok? ==> |r.value.rest| < |ls|
    decreases |ls|, 2
  {
    var head := KeyHead(body, false);
    if head.NoHead? then Err(InvalidItemObject)
    else
      var first :- ParseFirstValue(head, ls);
      ParseItemBody(first.rest, ls[0].ind + 2, parentIndent, [Entry(head.key, first.value)])
  }

  /** One item of a dashed list */
  function ParseItem(ls: seq<Line>, itemIndent: nat): (r: Result<Parsed<Value>>)
    requires ls != []
    ensures r.Ok? ==> |r.value.rest| < |ls|
    decreases |ls|, 3
  {
    match DashBody(ls[0].content)
    case None => Err(UnrecognizedItem)
    case Some(b) =>
      if TrimRight(b) == "{}" then Ok(Parsed(Obj([]), ls[1..]))
      else
        var root := RootHead(b);
        if root.ArrayHead? then ParseArrayHere(root.digits, root.tail, ls, ls[0].ind)
        else if IsObjectItem(b) then
          var es :- ParseItemObject(b, ls, itemIndent);
          Ok(Parsed(Obj(es.value), es.rest))
        else if b == "" && |ls[0].content| < 3 then Err(UnrecognizedItem)
        else Ok(Parsed(ParseScalarValue(b), ls[1..]))
  }

  /** `_parse_list_items`, with `count` items still to read */
  function ParseItems(ls: seq<Line>, baseIndent: nat, count: nat): (r: Result<Parsed<seq<Value>>>)
    ensures r.Ok? ==> |r.value.rest| <= |ls| && |r.value.value| == count
    decreases |ls|, 4
  {
    if count == 0 then Ok(Parsed([], ls))
    else if ls == [] then Err(CountMismatch)
    else if Blank(ls[0]) then ParseItems(ls[1..], baseIndent, count)
    else if ls[0].ind < baseIndent + 2 then Err(CountMismatch)
    else
      var item :- ParseItem(ls, baseIndent + 2);
      var more :- ParseItems(item.rest, baseIndent, count - 1);
      Ok(Parsed([item.value] + more.value, more.rest))
  }

  // --- Documents --------------------------------------------------------------

  function SkipTrailing<T>(p: Parsed<T>): Result<T> {
    if AllBlank(p.rest) then Ok(p.value) else Err(TrailingContent)
  }

  /** `_parse_root_array` */
  function ParseRootArray(ls: seq<Line>): (r: Result<Parsed<Value>>)
    requires ls != []
  {
    var head := RootHead(TrimRight(ls[0].content));
    if !head.ArrayHead? then Err(Unrecognized)
    else if FormOf(head.digits, head.tail, ls[1..], 0).OtherForm? && head.tail == "" then Err(Unrecognized)
    else ParseArrayHere(head.digits, head.tail, ls, 0)
  }

  /** The scalar documents that `decode` recognizes on the first line. */
  function RootScalar(first: string): Option<Value> {
    if first == "{}" then Some(Obj([]))
    else if first == "T" then Some(Bool(true))
    else if first == "F" then Some(Bool(false))
    else if first == "_" then Some(Null)
    else if IsQuoted(first) then Some(Str(UnescapeScalar(first[1..|first| - 1])))
    else if ':' !in first && '[' !in first && IsNumberText(first) then
      var num := ParseNumber(first);
      if num.num.NonFinite? || (num.num.Int? && !(-FLOAT_OVERFLOW < num.num.n < FLOAT_OVERFLOW)) then None else Some(num)
    else None
  }

  function DecodeLines(all: seq<Line>): Result<Value> {
    var ls := SkipBlank(all);
    if ls == [] then Err(EmptyDocument)
    else
      var first := TrimRight(ls[0].content);
      var scalar := RootScalar(first);
      if scalar.Some? then SkipTrailing(Parsed(scalar.value, ls[1..]))
      else if first != "" && first[0] == '[' then
        var arr :- ParseRootArray(ls);
        SkipTrailing(arr)
      else
        var es :- ParseBlock(ls, 0, []);
        SkipTrailing(Parsed(Obj(es.value), es.rest))
  }

  /** `decode` */
  function Decode(text: string): Result<Value> {
    DecodeLines(ShapeAll(SplitOn(text, '\n')))
  }
}
