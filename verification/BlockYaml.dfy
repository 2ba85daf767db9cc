/** The fragment of YAML the embedded RKE2 config is written in, as text: a block mapping (section
    8.2.2 of YAML 1.2.2) with one `key: value` line per entry, where a value may instead continue on
    indented lines or with sequence items. The boot script appends a raw line to such a text, so
    what that means has to be settled character by character. */
module BlockYaml {
  import opened Prelude

  /** A string, a plain scalar that is not a string (number, boolean, null), or the lines
      of a nested value, kept as they are. */
  datatype Value = Str(s: string) | Typed(text: string) | Nested(lines: seq<string>)

  type Config = map<string, Value>

  /** The schema's resolution of plain scalars: whether a text stands for itself as a string. */
  type Schema = string -> bool

  // ----- lines -----

  predicate OneLine(s: string) { '\n' !in s }

  function JoinLines(lines: seq<string>): string {
    if lines == [] then "" else lines[0] + "\n" + JoinLines(lines[1..])
  }

  /** The lines of a text whose last line may lack its line break. */
  function SplitLines(text: string): seq<string> {
    if text == "" then [] else SplitFrom(text, 0)
  }

  function SplitFrom(text: string, i: nat): (lines: seq<string>)
    requires i <= |text| && text != ""
    ensures lines != []
    decreases |text|, |text| - i
  {
    if i == |text| then [text]
    else if text[i] == '\n' then [text[..i]] + (if i + 1 == |text| then [] else SplitFrom(text[i + 1..], 0))
    else SplitFrom(text, i + 1)
  }

  lemma {:induction false} SplitFromLine(line: string, rest: string, i: nat)
    requires OneLine(line) && i <= |line|
    ensures SplitFrom(line + "\n" + rest, i) == [line] + SplitLines(rest)
    decreases |line| - i
  {
    var text := line + "\n" + rest;
    if i < |line| {
      assert text[i] == line[i];
      SplitFromLine(line, rest, i + 1);
    } else {
      assert text[..i] == line && text[i + 1..] == rest;
    }
  }

  lemma SplitOneMore(line: string, tail: string, rest: string)
    requires OneLine(line)
    ensures SplitLines((line + "\n" + tail) + rest) == [line] + SplitLines(tail + rest)
  {
    Associative(line + "\n", tail, rest);
    SplitFromLine(line, tail + rest, 0);
  }

  /** Splitting undoes joining, also with a further text behind. */
  lemma {:induction false} SplitJoin(lines: seq<string>, rest: string)
    requires forall l :: l in lines ==> OneLine(l)
    ensures SplitLines(JoinLines(lines) + rest) == lines + SplitLines(rest)
  {
    if lines == [] {
      assert JoinLines(lines) + rest == rest;
    } else {
      SplitOneMore(lines[0], JoinLines(lines[1..]), rest);
      SplitJoin(lines[1..], rest);
      Associative([lines[0]], lines[1..], SplitLines(rest));
    }
  }

  lemma {:induction false} SplitFromOneLine(text: string, i: nat)
    requires text != "" && i <= |text|
    ensures forall l :: l in SplitFrom(text, i) && (forall k :: 0 <= k < i ==> text[k] != '\n') ==> OneLine(l)
    decreases |text|, |text| - i
  {
    if i == |text| {
    } else if text[i] == '\n' {
      if i + 1 < |text| {
        SplitFromOneLine(text[i + 1..], 0);
      }
    } else {
      SplitFromOneLine(text, i + 1);
    }
  }

  lemma LinesAreOneLine(text: string)
    ensures forall l :: l in SplitLines(text) ==> OneLine(l)
  {
    if text != "" {
      SplitFromOneLine(text, 0);
    }
  }

  // ----- scalars -----

  const INDICATORS := "-?:,[]{}#&*!|>'\"%@`"

  predicate NoPair(s: string, a: char, b: char) {
    forall i :: 0 <= i < |s| - 1 ==> !(s[i] == a && s[i + 1] == b)
  }

  /** A plain scalar on one line (section 7.3.3 of YAML 1.2.2). */
  predicate Plain(s: string) {
    && s != "" && OneLine(s) && '\t' !in s && '\r' !in s
    && s[0] != ' ' && s[|s| - 1] != ' ' && s[|s| - 1] != ':'
    && (s[0] in INDICATORS ==> s[0] in "-?:" && |s| > 1 && s[1] != ' ')
    && NoPair(s, ':', ' ') && NoPair(s, ' ', '#')
  }

  /** Characters the quoted styles of this fragment do not hold as themselves. */
  predicate IsControl(c: char) { c == '\n' || c == '\t' || c == '\r' }

  function Prepend(c: char, s: Option<string>): Option<string> {
    match s
    case Some(rest) => Some([c] + rest)
    case None => None
  }

  // Double quotes (section 7.3.1): a quote, a backslash and control characters are escaped.

  function EscapeChar(c: char): string {
    match c
    case '"' => "\\\""
    case '\\' => "\\\\"
    case '\n' => "\\n"
    case '\t' => "\\t"
    case '\r' => "\\r"
    case _ => [c]
  }

  function EscapedBy(letter: char): Option<char> {
    match letter
    case '"' => Some('"')
    case '\\' => Some('\\')
    case 'n' => Some('\n')
    case 't' => Some('\t')
    case 'r' => Some('\r')
    case _ => None
  }

  function Escape(s: string): string {
    if s == "" then "" else EscapeChar(s[0]) + Escape(s[1..])
  }

  function Unescape(s: string): Option<string> {
    if s == "" then Some("")
    else if s[0] == '\\' then
      if |s| == 1 || EscapedBy(s[1]).None? then None else Prepend(EscapedBy(s[1]).value, Unescape(s[2..]))
    else if s[0] == '"' || IsControl(s[0]) then None
    else Prepend(s[0], Unescape(s[1..]))
  }

  lemma UnescapeChar(c: char, rest: string)
    ensures Unescape(EscapeChar(c) + rest) == Prepend(c, Unescape(rest)) && OneLine(EscapeChar(c))
  {
    var e := EscapeChar(c);
    assert (e + rest)[|e|..] == rest;
  }

  lemma {:induction false} UnescapeUndoes(s: string)
    ensures Unescape(Escape(s)) == Some(s) && OneLine(Escape(s))
  {
    if s != "" {
      UnescapeUndoes(s[1..]);
      UnescapeChar(s[0], Escape(s[1..]));
      assert s == [s[0]] + s[1..];
    }
  }

  /** A quote ends the string: there is nothing to read behind it. */
  lemma {:induction false} NothingBehindQuote(a: string, b: string)
    requires Unescape(a).Some?
    ensures Unescape(a + "\"" + b) == None
  {
    var s := a + "\"" + b;
    if a != "" {
      var n := if a[0] == '\\' then 2 else 1;
      assert s[n..] == a[n..] + "\"" + b;
      NothingBehindQuote(a[n..], b);
    }
  }

  // Single quotes (section 7.3.2): a quote is written twice.

  predicate Singly(s: string) {
    forall c :: c in s ==> !IsControl(c)
  }

  function DoubleChar(c: char): string {
    if c == '\'' then "''" else [c]
  }

  function Double(s: string): string {
    if s == "" then "" else DoubleChar(s[0]) + Double(s[1..])
  }

  function Undouble(s: string): Option<string> {
    if s == "" then Some("")
    else if s[0] == '\'' then
      if |s| == 1 || s[1] != '\'' then None else Prepend('\'', Undouble(s[2..]))
    else if IsControl(s[0]) then None
    else Prepend(s[0], Undouble(s[1..]))
  }

  lemma UndoubleChar(c: char, rest: string)
    requires !IsControl(c)
    ensures Undouble(DoubleChar(c) + rest) == Prepend(c, Undouble(rest)) && OneLine(DoubleChar(c))
  {
    var d := DoubleChar(c);
    assert (d + rest)[|d|..] == rest;
  }

  lemma {:induction false} UndoubleUndoes(s: string)
    requires Singly(s)
    ensures Undouble(Double(s)) == Some(s) && OneLine(Double(s))
  {
    if s != "" {
      UndoubleUndoes(s[1..]);
      UndoubleChar(s[0], Double(s[1..]));
      assert s == [s[0]] + s[1..];
    }
  }

  /** So does a single quote, unless another one follows. */
  lemma {:induction false} NothingBehindSingle(a: string, b: string)
    requires Undouble(a).Some? && b != "" && b[0] != '\''
    ensures Undouble(a + "'" + b) == None
  {
    var s := a + "'" + b;
    if a == "" {
      assert s[1] == b[0];
    } else {
      var n := if a[0] == '\'' then 2 else 1;
      assert s[n..] == a[n..] + "'" + b;
      NothingBehindSingle(a[n..], b);
    }
  }

  /** What is between the quotes is never longer than what it is written as. */
  lemma {:induction false} QuotedIsShorter(s: string)
    ensures Unescape(s).Some? ==> |Unescape(s).value| <= |s|
    ensures Undouble(s).Some? ==> |Undouble(s).value| <= |s|
    decreases |s|
  {
    if s != "" {
      QuotedIsShorter(s[1..]);
      if |s| > 1 {
        QuotedIsShorter(s[2..]);
      }
    }
  }

  /** A bare key that cannot be taken for a sequence entry or a document marker. */
  predicate IsKey(k: string) {
    Plain(k) && ':' !in k && k[0] !in "-?."
  }

  /** An indented line, or an item of a sequence that is not indented below its key. */
  predicate IsContinuation(line: string) {
    line != "" && (line[0] == ' ' || line[0] == '-')
  }

  predicate ValidValue(schema: Schema, v: Value) {
    match v
    case Str(_) => true
    case Typed(text) => text == "" || (Plain(text) && !schema(text))
    case Nested(lines) => lines != [] && forall l :: l in lines ==> OneLine(l) && IsContinuation(l)
  }

  predicate ValidConfig(schema: Schema, m: Config) {
    forall k :: k in m ==> IsKey(k) && ValidValue(schema, m[k])
  }

  // ----- printing -----

  /** The style a marshaller picks for a string. */
  datatype Style = PlainStyle | SingleQuoted | DoubleQuoted

  /** One choice for every key. */
  type Styles = string -> Style

  /** A string is quoted when the plain text would not read back as that string, and escaped when
      single quotes could not hold it. */
  function Scalar(schema: Schema, s: string, style: Style): string {
    if style.PlainStyle? && Plain(s) && schema(s) then s
    else if style.SingleQuoted? && Singly(s) then "'" + Double(s) + "'"
    else "\"" + Escape(s) + "\""
  }

  function PrintEntry(schema: Schema, k: string, v: Value, style: Style): seq<string> {
    match v
    case Str(s) => [k + ": " + Scalar(schema, s, style)]
    case Typed(text) => [if text == "" then k + ":" else k + ": " + text]
    case Nested(lines) => [k + ":"] + lines
  }

  function PrintEntries(schema: Schema, m: Config, order: seq<string>, styles: Styles): seq<string>
    requires forall k :: k in order ==> k in m
  {
    if order == [] then [] else PrintEntry(schema, order[0], m[order[0]], styles(order[0])) + PrintEntries(schema, m, order[1..], styles)
  }

  /** What a YAML marshaller may print for a map: its entries in some order of the keys and with some
      choice of styles, or `{}`. */
  ghost predicate IsPrinted(schema: Schema, m: Config, text: string) {
    if m == map[] then text == "{}\n"
    else exists order, styles :: Lists(order, m.Keys) && PrintsInOrder(schema, m, order, styles, text)
  }

  ghost predicate PrintsInOrder(schema: Schema, m: Config, order: seq<string>, styles: Styles, text: string)
    requires Lists(order, m.Keys)
  {
    (forall k :: k in order ==> k in Elements(order)) && text == JoinLines(PrintEntries(schema, m, order, styles))
  }

  lemma IsPrintedBy(schema: Schema, m: Config, order: seq<string>, styles: Styles, text: string)
    requires m != map[] && Lists(order, m.Keys) && PrintsInOrder(schema, m, order, styles, text)
    ensures IsPrinted(schema, m, text)
  {}

  // ----- parsing -----

  function KeyEnd(line: string, i: nat): (j: nat)
    requires i <= |line|
    ensures i <= j <= |line|
    decreases |line| - i
  {
    if i == |line| || line[i] == ':' then i else KeyEnd(line, i + 1)
  }

  /** How many leading lines continue the value before them. */
  function Continuations(lines: seq<string>): (n: nat)
    ensures n <= |lines|
  {
    if lines == [] || !IsContinuation(lines[0]) then 0 else 1 + Continuations(lines[1..])
  }

  predicate Enclosed(text: string, quote: char) {
    |text| >= 2 && text[0] == quote && text[|text| - 1] == quote
  }

  function AsString(s: Option<string>): Option<Value> {
    match s
    case Some(read) => Some(Str(read))
    case None => None
  }

  function ParseScalar(schema: Schema, text: string): Option<Value> {
    if text == "" then Some(Typed(""))
    else if Enclosed(text, '"') then AsString(Unescape(text[1..|text| - 1]))
    else if Enclosed(text, '\'') then AsString(Undouble(text[1..|text| - 1]))
    else if !Plain(text) then None
    else if schema(text) then Some(Str(text)) else Some(Typed(text))
  }

  /** The value of an entry from the text after the colon and the continuation lines. */
  function ParseValue(schema: Schema, after: string, rest: seq<string>): Option<Value> {
    if rest != [] then (if after == "" then Some(Nested(rest)) else None)
    else if after == "" then Some(Typed(""))
    else if after[0] != ' ' then None
    else ParseScalar(schema, after[1..])
  }

  /** Entries from the top; a repeated key is an error. */
  function ParseEntries(schema: Schema, lines: seq<string>): Option<Config>
    decreases |lines|
  {
    if lines == [] then Some(map[])
    else
      var colon := KeyEnd(lines[0], 0);
      if colon == |lines[0]| || !IsKey(lines[0][..colon]) then None
      else
        var n := Continuations(lines[1..]);
        var value := ParseValue(schema, lines[0][colon + 1..], lines[1..1 + n]);
        var others := ParseEntries(schema, lines[1 + n..]);
        if value.None? || others.None? || lines[0][..colon] in others.value then None
        else Some(others.value[lines[0][..colon] := value.value])
  }

  function Parse(schema: Schema, text: string): Option<Config> {
    if text == "{}\n" then Some(map[]) else ParseEntries(schema, SplitLines(text))
  }

  // ----- parsing what was printed -----

  lemma {:induction false} KeyEndFinds(k: string, after: string, i: nat)
    requires ':' !in k && i <= |k|
    ensures KeyEnd(k + ":" + after, i) == |k|
    decreases |k| - i
  {
    var line := k + ":" + after;
    if i < |k| {
      assert line[i] == k[i];
      KeyEndFinds(k, after, i + 1);
    }
  }

  lemma {:induction false} ContinuationsCount(lines: seq<string>, rest: seq<string>)
    requires forall l :: l in lines ==> IsContinuation(l)
    requires rest == [] || !IsContinuation(rest[0])
    ensures Continuations(lines + rest) == |lines|
  {
    if lines == [] {
      assert lines + rest == rest;
    } else {
      assert (lines + rest)[1..] == lines[1..] + rest;
      ContinuationsCount(lines[1..], rest);
    }
  }

  /** The head line of an entry and its continuation lines. */
  function HeadOf(schema: Schema, v: Value, style: Style): string {
    match v
    case Str(s) => " " + Scalar(schema, s, style)
    case Typed(text) => if text == "" then "" else " " + text
    case Nested(_) => ""
  }

  function TailOf(v: Value): seq<string> {
    if v.Nested? then v.lines else []
  }

  lemma EntryLines(schema: Schema, k: string, v: Value, style: Style)
    ensures PrintEntry(schema, k, v, style) == [k + ":" + HeadOf(schema, v, style)] + TailOf(v)
  {
    match v
    case Str(s) =>
      var p := Scalar(schema, s, style);
      assert k + ": " + p == k + ":" + (" " + p);
    case Typed(text) =>
      assert k + ": " + text == k + ":" + (" " + text);
      assert k + ":" == k + ":" + "";
    case Nested(lines) =>
      assert k + ":" == k + ":" + "";
  }

  lemma PlainReads(schema: Schema, s: string)
    requires Plain(s)
    ensures ParseScalar(schema, s) == Some(if schema(s) then Str(s) else Typed(s))
  {
    assert s[0] != '"' && s[0] != '\'';
  }

  lemma EnclosedReads(schema: Schema, inner: string)
    ensures ParseScalar(schema, "\"" + inner + "\"") == AsString(Unescape(inner))
    ensures ParseScalar(schema, "'" + inner + "'") == AsString(Undouble(inner))
  {
    var double, single := "\"" + inner + "\"", "'" + inner + "'";
    assert double[1..|double| - 1] == inner && single[1..|single| - 1] == inner;
  }

  /** In every style a string reads back as itself. */
  lemma ScalarReadsBack(schema: Schema, s: string, style: Style)
    ensures ParseScalar(schema, Scalar(schema, s, style)) == Some(Str(s))
    ensures Scalar(schema, s, style) != "" && OneLine(Scalar(schema, s, style))
  {
    if style.PlainStyle? && Plain(s) && schema(s) {
      PlainReads(schema, s);
    } else if style.SingleQuoted? && Singly(s) {
      UndoubleUndoes(s);
      EnclosedReads(schema, Double(s));
    } else {
      UnescapeUndoes(s);
      EnclosedReads(schema, Escape(s));
    }
  }

  lemma ValueReadsBack(schema: Schema, v: Value, style: Style)
    requires ValidValue(schema, v)
    ensures ParseValue(schema, HeadOf(schema, v, style), TailOf(v)) == Some(v)
  {
    match v
    case Str(s) =>
      var p := Scalar(schema, s, style);
      ScalarReadsBack(schema, s, style);
      assert (" " + p)[1..] == p;
    case Typed(text) =>
      assert (" " + text)[1..] == text;
      if text != "" { PlainReads(schema, text); }
    case Nested(lines) =>
  }

  /** A key line and its continuation lines in front of other lines. */
  lemma HeadAndTailParse(schema: Schema, k: string, after: string, tail: seq<string>, rest: seq<string>)
    requires IsKey(k) && forall l :: l in tail ==> IsContinuation(l)
    requires rest == [] || !IsContinuation(rest[0])
    ensures var value, others := ParseValue(schema, after, tail), ParseEntries(schema, rest);
            ParseEntries(schema, [k + ":" + after] + (tail + rest))
            == if value.None? || others.None? || k in others.value then None else Some(others.value[k := value.value])
  {
    var head := k + ":" + after;
    var lines := [head] + (tail + rest);
    KeyEndFinds(k, after, 0);
    assert head[..|k|] == k && head[|k| + 1..] == after;
    assert lines[0] == head && lines[1..] == tail + rest;
    ContinuationsCount(tail, rest);
    assert lines[1..1 + |tail|] == tail && lines[1 + |tail|..] == rest;
  }

  /** One printed entry in front of other lines parses as that entry in front of the others. */
  lemma EntryParses(schema: Schema, k: string, v: Value, style: Style, rest: seq<string>)
    requires IsKey(k) && ValidValue(schema, v)
    requires rest == [] || !IsContinuation(rest[0])
    ensures var others := ParseEntries(schema, rest);
            ParseEntries(schema, PrintEntry(schema, k, v, style) + rest)
            == if others.None? || k in others.value then None else Some(others.value[k := v])
  {
    EntryLines(schema, k, v, style);
    Associative([k + ":" + HeadOf(schema, v, style)], TailOf(v), rest);
    ValueReadsBack(schema, v, style);
    HeadAndTailParse(schema, k, HeadOf(schema, v, style), TailOf(v), rest);
  }

  /** Nothing printed at the top level looks like a continuation. */
  lemma EntryHead(schema: Schema, k: string, v: Value, style: Style)
    requires IsKey(k)
    ensures PrintEntry(schema, k, v, style) != [] && !IsContinuation(PrintEntry(schema, k, v, style)[0])
  {
    EntryLines(schema, k, v, style);
    assert (k + ":" + HeadOf(schema, v, style))[0] == k[0];
  }

  /** The entries of `order` on top of what was parsed behind them. */
  function OnTop(last: Option<Config>, m: Config, order: seq<string>): Option<Config>
    requires forall k :: k in order ==> k in m
  {
    if order == [] then last
    else
      var below := OnTop(last, m, order[1..]);
      if below.None? || order[0] in below.value then None else Some(below.value[order[0] := m[order[0]]])
  }

  lemma {:induction false} OnTopMeans(last: Option<Config>, m: Config, order: seq<string>)
    requires Distinct(order) && forall k :: k in order ==> k in m
    ensures OnTop(last, m, order).Some? <==> last.Some? && last.value.Keys !! Elements(order)
    ensures OnTop(last, m, order).Some? ==>
              && OnTop(last, m, order).value.Keys == last.value.Keys + Elements(order)
              && (forall k :: k in order ==> OnTop(last, m, order).value[k] == m[k])
              && (forall k :: k in last.value ==> OnTop(last, m, order).value[k] == last.value[k])
  {
    if order != [] {
      var k, others := order[0], order[1..];
      OnTopMeans(last, m, others);
      assert order == [k] + others;
      assert Elements(order) == Elements(others) + {k};
      assert k !in others;
    }
  }

  lemma PrintOneMore(schema: Schema, m: Config, order: seq<string>, styles: Styles, rest: seq<string>)
    requires order != [] && forall k :: k in order ==> k in m
    ensures PrintEntries(schema, m, order, styles) + rest
         == PrintEntry(schema, order[0], m[order[0]], styles(order[0])) + (PrintEntries(schema, m, order[1..], styles) + rest)
  {
    Associative(PrintEntry(schema, order[0], m[order[0]], styles(order[0])), PrintEntries(schema, m, order[1..], styles), rest);
  }

  lemma Associative<T>(a: seq<T>, b: seq<T>, c: seq<T>)
    ensures (a + b) + c == a + (b + c)
  {}

  lemma PrintedHead(schema: Schema, m: Config, order: seq<string>, styles: Styles, rest: seq<string>)
    requires ValidConfig(schema, m) && forall k :: k in order ==> k in m
    requires rest == [] || !IsContinuation(rest[0])
    ensures var all := PrintEntries(schema, m, order, styles) + rest; all == [] || !IsContinuation(all[0])
  {
    if order != [] {
      PrintOneMore(schema, m, order, styles, rest);
      EntryHead(schema, order[0], m[order[0]], styles(order[0]));
    } else {
      assert PrintEntries(schema, m, order, styles) + rest == rest;
    }
  }

  /** Printed entries followed by further lines parse as the entries on top of what those lines say. */
  lemma {:induction false} EntriesParse(schema: Schema, m: Config, order: seq<string>, styles: Styles, rest: seq<string>)
    requires ValidConfig(schema, m) && forall k :: k in order ==> k in m
    requires rest == [] || !IsContinuation(rest[0])
    ensures ParseEntries(schema, PrintEntries(schema, m, order, styles) + rest) == OnTop(ParseEntries(schema, rest), m, order)
  {
    if order == [] {
      assert PrintEntries(schema, m, order, styles) + rest == rest;
    } else {
      EntriesParse(schema, m, order[1..], styles, rest);
      PrintedHead(schema, m, order[1..], styles, rest);
      PrintOneMore(schema, m, order, styles, rest);
      EntryParses(schema, order[0], m[order[0]], styles(order[0]), PrintEntries(schema, m, order[1..], styles) + rest);
    }
  }

  lemma EntryOneLine(schema: Schema, k: string, v: Value, style: Style)
    requires IsKey(k) && ValidValue(schema, v)
    ensures forall l :: l in PrintEntry(schema, k, v, style) ==> OneLine(l)
  {
    if v.Str? {
      ScalarReadsBack(schema, v.s, style);
    }
  }

  lemma {:induction false} EntriesOneLine(schema: Schema, m: Config, order: seq<string>, styles: Styles)
    requires ValidConfig(schema, m) && forall k :: k in order ==> k in m
    ensures forall l :: l in PrintEntries(schema, m, order, styles) ==> OneLine(l)
  {
    if order != [] {
      EntriesOneLine(schema, m, order[1..], styles);
      EntryOneLine(schema, order[0], m[order[0]], styles(order[0]));
    }
  }

  /** The parse of a printed config with further text behind: its entries and those of the text. */
  function Merged(last: Option<Config>, m: Config): Option<Config> {
    if last.None? || !(last.value.Keys !! m.Keys) then None else Some(last.value + m)
  }

  lemma OnTopOfAll(last: Option<Config>, m: Config, order: seq<string>)
    requires Lists(order, m.Keys)
    ensures forall k :: k in order ==> k in m
    ensures OnTop(last, m, order) == Merged(last, m)
  {
    assert forall k :: k in order <==> k in Elements(order);
    OnTopMeans(last, m, order);
    if last.Some? && last.value.Keys !! m.Keys {
      assert OnTop(last, m, order).value == last.value + m;
    }
  }

  /** A printed config with any further text behind parses as its entries and those of the text. */
  lemma {:induction false} PrintedThen(schema: Schema, m: Config, order: seq<string>, styles: Styles, more: string)
    requires ValidConfig(schema, m) && Lists(order, m.Keys) && m != map[]
    requires more == "" || !IsContinuation(SplitLines(more)[0])
    ensures forall k :: k in order ==> k in m
    ensures Parse(schema, JoinLines(PrintEntries(schema, m, order, styles)) + more)
         == Merged(ParseEntries(schema, SplitLines(more)), m)
  {
    OnTopOfAll(ParseEntries(schema, SplitLines(more)), m, order);
    EntriesOneLine(schema, m, order, styles);
    SplitJoin(PrintEntries(schema, m, order, styles), more);
    EntriesParse(schema, m, order, styles, SplitLines(more));
    NotEmptyMap(schema, m, order, styles, more);
  }

  /** A printed non-empty config never starts like the empty one. */
  lemma NotEmptyMap(schema: Schema, m: Config, order: seq<string>, styles: Styles, more: string)
    requires ValidConfig(schema, m) && order != [] && forall k :: k in order ==> k in m
    ensures JoinLines(PrintEntries(schema, m, order, styles)) + more != "{}\n"
  {
    var k := order[0];
    EntryLines(schema, k, m[k], styles(k));
    assert PrintEntries(schema, m, order, styles)[0] == k + ":" + HeadOf(schema, m[k], styles(k));
    var text := JoinLines(PrintEntries(schema, m, order, styles)) + more;
    assert text[0] == k[0];
    assert k[0] != '{' by { assert '{' in INDICATORS && '{' !in "-?:"; }
  }

  lemma MergedWithNothing(m: Config)
    ensures Merged(Some(map[]), m) == Some(m)
  {
    assert map[] + m == m;
  }

  lemma {:induction false} OneOrderReadsBack(schema: Schema, m: Config, order: seq<string>, styles: Styles, text: string)
    requires ValidConfig(schema, m) && m != map[] && Lists(order, m.Keys) && PrintsInOrder(schema, m, order, styles, text)
    ensures Parse(schema, text) == Some(m)
  {
    PrintedThen(schema, m, order, styles, "");
    assert text + "" == text;
    MergedWithNothing(m);
  }

  /** Reading back what was printed gives the map, whatever order and styles it was printed in. */
  lemma {:induction false} PrintedReadsBack(schema: Schema, m: Config, text: string)
    requires ValidConfig(schema, m) && IsPrinted(schema, m, text)
    ensures Parse(schema, text) == Some(m)
  {
    if m != map[] {
      var order, styles :| Lists(order, m.Keys) && PrintsInOrder(schema, m, order, styles, text);
      OneOrderReadsBack(schema, m, order, styles, text);
    }
  }
}
