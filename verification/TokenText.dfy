/** Taking the join token out of the printed RKE2 config and appending it again as a raw line, the
    way stripRKE2Token and the boot script do (internal/controller/cloudinit.go). */
module TokenText {
  import opened Prelude
  import opened BlockYaml

  const TOKEN := "token"

  /** What the boot script leaves of a config file: one more line. */
  function Inject(text: string, t: string): string {
    text + (TOKEN + ": " + t + "\n")
  }

  /** The token, if the config has one and it is a non-empty string. */
  function TokenOf(m: Config): Option<string> {
    if TOKEN in m && m[TOKEN].Str? && m[TOKEN].s != "" then Some(m[TOKEN].s) else None
  }

  function WithoutToken(m: Config): Config {
    m - {TOKEN}
  }

  lemma TokenIsKey()
    ensures IsKey(TOKEN)
  {
    assert TOKEN[0] == 't' && TOKEN[|TOKEN| - 1] == 'n';
  }

  /** The appended text is cut into lines wherever the token itself has a line break. */
  function BeforeBreak(t: string): string {
    if t == "" || t[0] == '\n' then "" else [t[0]] + BeforeBreak(t[1..])
  }

  function AfterBreak(t: string): string {
    if t == "" then "" else if t[0] == '\n' then t[1..] + "\n" else AfterBreak(t[1..])
  }

  lemma {:induction false} CutAtBreak(t: string)
    ensures OneLine(BeforeBreak(t)) && |BeforeBreak(t)| <= |t|
    ensures t + "\n" == BeforeBreak(t) + "\n" + AfterBreak(t)
    ensures OneLine(t) ==> BeforeBreak(t) == t && AfterBreak(t) == ""
  {
    if t == "" {
    } else if t[0] == '\n' {
      assert t + "\n" == "" + "\n" + (t[1..] + "\n");
    } else {
      CutAtBreak(t[1..]);
      assert t + "\n" == [t[0]] + (t[1..] + "\n");
      assert t == [t[0]] + t[1..];
    }
  }

  function TokenLines(t: string): seq<string> {
    [TOKEN + ": " + BeforeBreak(t)] + SplitLines(AfterBreak(t))
  }

  lemma InjectedLines(t: string)
    ensures SplitLines(TOKEN + ": " + t + "\n") == TokenLines(t)
    ensures !IsContinuation(TokenLines(t)[0])
  {
    CutAtBreak(t);
    var line := TOKEN + ": " + BeforeBreak(t);
    assert OneLine(line);
    assert TOKEN + ": " + t + "\n" == (TOKEN + ": ") + (t + "\n");
    assert line + "\n" + AfterBreak(t) == (TOKEN + ": ") + (BeforeBreak(t) + "\n" + AfterBreak(t));
    SplitFromLine(line, AfterBreak(t), 0);
    assert line[0] == 't';
  }

  /** The injected text parses as the printed entries and the appended lines. */
  lemma {:induction false} InjectParses(schema: Schema, m: Config, text: string, t: string)
    requires ValidConfig(schema, m) && m != map[] && IsPrinted(schema, m, text)
    ensures Parse(schema, Inject(text, t)) == Merged(ParseEntries(schema, TokenLines(t)), m)
  {
    var order, styles :| Lists(order, m.Keys) && PrintsInOrder(schema, m, order, styles, text);
    InjectedLines(t);
    PrintedThen(schema, m, order, styles, TOKEN + ": " + t + "\n");
  }

  /** What the appended lines say of the token: the plain or quoted reading of the first one. */
  lemma InjectedToken(schema: Schema, t0: string, others: seq<string>)
    requires OneLine(t0)
    ensures var last := ParseEntries(schema, [TOKEN + ": " + t0] + others);
            last.Some? ==>
              && TOKEN in last.value
              && (last.value[TOKEN].Str? ==> ParseScalar(schema, t0) == Some(last.value[TOKEN]))
  {
    var lines := [TOKEN + ": " + t0] + others;
    assert TOKEN + ": " + t0 == TOKEN + ":" + (" " + t0);
    KeyEndFinds(TOKEN, " " + t0, 0);
    assert lines[0][..5] == TOKEN && lines[0][6..] == " " + t0;
    assert (" " + t0)[1..] == t0;
  }

  /** Reading a scalar as the string it is takes a plain one. */
  lemma ScalarIsItself(schema: Schema, t0: string, t: string)
    requires |t0| <= |t| && ParseScalar(schema, t0) == Some(Str(t))
    ensures t0 == t && Plain(t) && schema(t)
  {
    if |t0| >= 2 {
      QuotedIsShorter(t0[1..|t0| - 1]);
    }
  }

  /** Strip and inject undo each other exactly when the config has another entry and the token reads
      back as a string: for every order in which the keys may be printed. */
  lemma InjectExactly(schema: Schema, m: Config, text: string, t: string)
    requires ValidConfig(schema, m) && TOKEN !in m && IsPrinted(schema, m, text)
    ensures Parse(schema, Inject(text, t)) == Some(m[TOKEN := Str(t)]) <==> m != map[] && Plain(t) && schema(t)
  {
    if m == map[] {
      EmptyConfigFails(schema, t);
    } else {
      InjectParses(schema, m, text, t);
      if Plain(t) && schema(t) {
        PlainTokenParses(schema, Str(t), t);
        OneEntryMerged(m, Str(t));
      } else {
        OtherTokenFails(schema, m, t);
      }
    }
  }

  lemma OneEntryMerged(m: Config, v: Value)
    requires TOKEN !in m
    ensures Merged(Some(map[TOKEN := v]), m) == Some(m[TOKEN := v])
  {
    assert map[TOKEN := v] + m == m[TOKEN := v];
  }

  /** A token that is not plain, or reads as something else, does not come back. */
  lemma OtherTokenFails(schema: Schema, m: Config, t: string)
    requires TOKEN !in m && !(Plain(t) && schema(t))
    ensures Merged(ParseEntries(schema, TokenLines(t)), m) != Some(m[TOKEN := Str(t)])
  {
    var last := ParseEntries(schema, TokenLines(t));
    CutAtBreak(t);
    InjectedToken(schema, BeforeBreak(t), SplitLines(AfterBreak(t)));
    if last.Some? && last.value[TOKEN] == Str(t) {
      ScalarIsItself(schema, BeforeBreak(t), t);
    }
  }

  lemma PlainTokenParses(schema: Schema, v: Value, t: string)
    requires Plain(t) && v == (if schema(t) then Str(t) else Typed(t))
    ensures ParseEntries(schema, TokenLines(t)) == Some(map[TOKEN := v])
  {
    TokenIsKey();
    CutAtBreak(t);
    EntryParses(schema, TOKEN, v, PlainStyle, []);
    assert PrintEntry(schema, TOKEN, v, PlainStyle) + [] == TokenLines(t);
  }

  /** An empty map prints as `{}`, and nothing can follow that. */
  lemma EmptyConfigFails(schema: Schema, t: string)
    ensures Parse(schema, Inject("{}\n", t)) == None
  {
    var text := Inject("{}\n", t);
    assert text == "{}" + "\n" + (TOKEN + ": " + t + "\n");
    assert OneLine("{}");
    SplitFromLine("{}", TOKEN + ": " + t + "\n", 0);
    assert KeyEnd("{}", 0) == 2;
    assert |text| > 3;
  }

  /** A config that still has its token does not take another: the repeated key is an error. */
  lemma {:induction false} InjectNeedsStrip(schema: Schema, m: Config, text: string, t: string)
    requires ValidConfig(schema, m) && TOKEN in m && IsPrinted(schema, m, text)
    ensures Parse(schema, Inject(text, t)) == None
  {
    InjectParses(schema, m, text, t);
    CutAtBreak(t);
    InjectedToken(schema, BeforeBreak(t), SplitLines(AfterBreak(t)));
  }

  /** Strings need not survive: a token that reads as a number, say, is one after the round trip. */
  lemma {:induction false} TypedTokenChangesType(schema: Schema, m: Config, text: string, t: string)
    requires ValidConfig(schema, m) && TOKEN !in m && m != map[] && IsPrinted(schema, m, text)
    requires Plain(t) && !schema(t)
    ensures Parse(schema, Inject(text, t)) == Some(m[TOKEN := Typed(t)])
  {
    InjectParses(schema, m, text, t);
    PlainTokenParses(schema, Typed(t), t);
    OneEntryMerged(m, Typed(t));
  }

  // ----- the configs a text can hold -----

  lemma {:induction false} ContinuationLines(lines: seq<string>)
    ensures forall l :: l in lines[..Continuations(lines)] ==> IsContinuation(l)
  {
    if lines != [] && IsContinuation(lines[0]) {
      ContinuationLines(lines[1..]);
      var n := Continuations(lines[1..]);
      assert lines[..1 + n] == [lines[0]] + lines[1..][..n];
    }
  }

  lemma ParsedValueIsValid(schema: Schema, after: string, rest: seq<string>)
    requires OneLine(after) && forall l :: l in rest ==> OneLine(l) && IsContinuation(l)
    ensures ParseValue(schema, after, rest).Some? ==> ValidValue(schema, ParseValue(schema, after, rest).value)
  {}

  lemma FirstValueIsValid(schema: Schema, lines: seq<string>, colon: nat)
    requires lines != [] && colon < |lines[0]| && forall l :: l in lines ==> OneLine(l)
    ensures var value := ParseValue(schema, lines[0][colon + 1..], lines[1..1 + Continuations(lines[1..])]);
            value.Some? ==> ValidValue(schema, value.value)
  {
    var n := Continuations(lines[1..]);
    ContinuationLines(lines[1..]);
    assert lines[1..1 + n] == lines[1..][..n];
    assert forall l :: l in lines[1..1 + n] ==> l in lines;
    assert lines[0] in lines;
    ParsedValueIsValid(schema, lines[0][colon + 1..], lines[1..1 + n]);
  }

  lemma {:induction false} ParsedIsValid(schema: Schema, lines: seq<string>)
    requires forall l :: l in lines ==> OneLine(l)
    ensures ParseEntries(schema, lines).Some? ==> ValidConfig(schema, ParseEntries(schema, lines).value)
    decreases |lines|
  {
    if lines != [] && ParseEntries(schema, lines).Some? {
      ParsedIsValid(schema, lines[1 + Continuations(lines[1..])..]);
      FirstValueIsValid(schema, lines, KeyEnd(lines[0], 0));
    }
  }

  /** Whatever parses is a valid config, with or without its token. */
  lemma ConfigIsValid(schema: Schema, text: string)
    ensures Parse(schema, text).Some? ==>
              && ValidConfig(schema, Parse(schema, text).value)
              && ValidConfig(schema, WithoutToken(Parse(schema, text).value))
  {
    LinesAreOneLine(text);
    ParsedIsValid(schema, SplitLines(text));
  }
}
