/** A token line behind any config text: whatever the text is, hand-written or not, with or without a
    final line break, it no longer reads as the config it was. The boot script does this to the last
    config entry; only the first one had its token taken out before. */
module AppendedToken {
  import opened Prelude
  import opened BlockYaml
  import opened TokenText

  // ----- lines and text -----

  lemma {:induction false} JoinOneMore(lines: seq<string>, last: string)
    ensures JoinLines(lines + [last]) == JoinLines(lines) + last + "\n"
  {
    if lines == [] {
      assert lines + [last] == [last] && [last][1..] == [];
    } else {
      assert (lines + [last])[1..] == lines[1..] + [last];
      JoinOneMore(lines[1..], last);
      assert JoinLines(lines + [last]) == lines[0] + "\n" + (JoinLines(lines[1..]) + last + "\n");
    }
  }

  predicate EndsLine(text: string) {
    text != "" && text[|text| - 1] == '\n'
  }

  lemma {:induction false} JoinEndsLine(lines: seq<string>)
    requires lines != []
    ensures EndsLine(JoinLines(lines))
  {
    if |lines| > 1 {
      JoinEndsLine(lines[1..]);
    }
  }

  lemma {:induction false} JoinSplitFrom(text: string, i: nat)
    requires text != "" && i <= |text| && (EndsLine(text) ==> i < |text|)
    ensures JoinLines(SplitFrom(text, i)) == if EndsLine(text) then text else text + "\n"
    decreases |text|, |text| - i
  {
    if i == |text| {
      assert [text][1..] == [];
      assert JoinLines([text]) == text + "\n" + "";
    } else if text[i] == '\n' {
      var rest := text[i + 1..];
      assert text == text[..i] + "\n" + rest;
      if i + 1 < |text| {
        JoinSplitFrom(rest, 0);
        assert SplitFrom(text, i)[1..] == SplitFrom(rest, 0);
      } else {
        assert SplitFrom(text, i) == [text[..i]] && [text[..i]][1..] == [];
      }
    } else {
      JoinSplitFrom(text, i + 1);
    }
  }

  /** Text that ends its last line splits apart from what follows. */
  lemma SplitBehindLine(text: string, more: string)
    requires text == "" || EndsLine(text)
    ensures SplitLines(text + more) == SplitLines(text) + SplitLines(more)
  {
    if text == "" {
      assert text + more == more;
    } else {
      LinesAreOneLine(text);
      JoinSplitFrom(text, 0);
      SplitJoin(SplitLines(text), more);
    }
  }

  /** Text that does not is its full lines and a last one, which is not empty. */
  lemma OpenLine(text: string)
    requires text != "" && !EndsLine(text)
    ensures var lines := SplitLines(text);
            && lines != [] && lines[|lines| - 1] != ""
            && text == JoinLines(lines[..|lines| - 1]) + lines[|lines| - 1]
  {
    var lines := SplitLines(text);
    var front, last := lines[..|lines| - 1], lines[|lines| - 1];
    JoinSplitFrom(text, 0);
    assert lines == front + [last];
    JoinOneMore(front, last);
    assert (text + "\n")[..|text|] == (JoinLines(front) + last + "\n")[..|text|];
    if last == "" {
      assert text == JoinLines(front);
      if front != [] {
        JoinEndsLine(front);
      }
    }
  }

  // ----- the first entry and the others -----

  function FirstTail(lines: seq<string>): seq<string>
    requires lines != []
  {
    lines[1..][..Continuations(lines[1..])]
  }

  function Others(lines: seq<string>): (others: seq<string>)
    requires lines != []
    ensures |others| < |lines|
  {
    lines[1..][Continuations(lines[1..])..]
  }

  /** One entry, from its head line and its continuation lines, in front of the others. */
  function WithEntry(schema: Schema, head: string, tail: seq<string>, others: Option<Config>): Option<Config> {
    var colon := KeyEnd(head, 0);
    if colon == |head| || !IsKey(head[..colon]) then None
    else
      var value := ParseValue(schema, head[colon + 1..], tail);
      if value.None? || others.None? || head[..colon] in others.value then None
      else Some(others.value[head[..colon] := value.value])
  }

  lemma {:induction false} ContinuationsStop(lines: seq<string>)
    ensures Continuations(lines) < |lines| ==> !IsContinuation(lines[Continuations(lines)])
  {
    if lines != [] && IsContinuation(lines[0]) {
      ContinuationsStop(lines[1..]);
    }
  }

  /** Any lines are a head, what continues it, and the others. */
  lemma Shape(lines: seq<string>)
    requires lines != []
    ensures lines == [lines[0]] + (FirstTail(lines) + Others(lines))
    ensures forall l :: l in FirstTail(lines) ==> IsContinuation(l)
    ensures Others(lines) == [] || !IsContinuation(Others(lines)[0])
  {
    ContinuationLines(lines[1..]);
    ContinuationsStop(lines[1..]);
  }

  lemma ComesApart(schema: Schema, lines: seq<string>)
    requires lines != []
    ensures ParseEntries(schema, lines) == WithEntry(schema, lines[0], FirstTail(lines), ParseEntries(schema, Others(lines)))
  {
    var n := Continuations(lines[1..]);
    assert lines[1..1 + n] == FirstTail(lines) && lines[1 + n..] == Others(lines);
  }

  /** And lines put together that way come apart that way. */
  lemma PutTogether(schema: Schema, head: string, tail: seq<string>, others: seq<string>)
    requires forall l :: l in tail ==> IsContinuation(l)
    requires others == [] || !IsContinuation(others[0])
    ensures ParseEntries(schema, [head] + (tail + others)) == WithEntry(schema, head, tail, ParseEntries(schema, others))
  {
    var lines := [head] + (tail + others);
    assert lines[1..] == tail + others;
    ContinuationsCount(tail, others);
    assert FirstTail(lines) == tail && Others(lines) == others;
    ComesApart(schema, lines);
  }

  // ----- further entries behind a config -----

  /** Lines behind a config that parses add their entries to it. */
  lemma {:induction false} ConcatParses(schema: Schema, a: seq<string>, b: seq<string>)
    requires ParseEntries(schema, a).Some? && (b == [] || !IsContinuation(b[0]))
    ensures ParseEntries(schema, a + b) == Merged(ParseEntries(schema, b), ParseEntries(schema, a).value)
    decreases |a|
  {
    if a == [] {
      assert a + b == b;
      if ParseEntries(schema, b).Some? {
        assert ParseEntries(schema, b).value + map[] == ParseEntries(schema, b).value;
      }
    } else {
      ComesApart(schema, a);
      ConcatParses(schema, Others(a), b);
      ConcatStep(schema, a, b);
    }
  }

  lemma ConcatStep(schema: Schema, a: seq<string>, b: seq<string>)
    requires a != [] && ParseEntries(schema, Others(a)).Some? && (b == [] || !IsContinuation(b[0]))
    requires WithEntry(schema, a[0], FirstTail(a), ParseEntries(schema, Others(a))).Some?
    requires ParseEntries(schema, Others(a) + b) == Merged(ParseEntries(schema, b), ParseEntries(schema, Others(a)).value)
    ensures ParseEntries(schema, a + b)
         == Merged(ParseEntries(schema, b), WithEntry(schema, a[0], FirstTail(a), ParseEntries(schema, Others(a))).value)
  {
    Regrouped(a, b);
    PutTogether(schema, a[0], FirstTail(a), Others(a) + b);
    MergedEntry(schema, a[0], FirstTail(a), ParseEntries(schema, b), ParseEntries(schema, Others(a)).value);
  }

  lemma Regrouped(a: seq<string>, b: seq<string>)
    requires a != [] && (b == [] || !IsContinuation(b[0]))
    ensures a + b == [a[0]] + (FirstTail(a) + (Others(a) + b))
    ensures forall l :: l in FirstTail(a) ==> IsContinuation(l)
    ensures Others(a) + b == [] || !IsContinuation((Others(a) + b)[0])
  {
    Shape(a);
    Associative([a[0]], FirstTail(a) + Others(a), b);
    Associative(FirstTail(a), Others(a), b);
  }

  lemma MergedEntry(schema: Schema, head: string, tail: seq<string>, last: Option<Config>, below: Config)
    requires WithEntry(schema, head, tail, Some(below)).Some?
    ensures WithEntry(schema, head, tail, Merged(last, below)) == Merged(last, WithEntry(schema, head, tail, Some(below)).value)
  {
    var k := head[..KeyEnd(head, 0)];
    MergedUpdate(last, below, k, WithEntry(schema, head, tail, Some(below)).value);
  }

  lemma MergedUpdate(last: Option<Config>, below: Config, k: string, m: Config)
    requires k in m && k !in below && m == below[k := m[k]]
    ensures Merged(last, m) ==
              var others := Merged(last, below);
              if others.None? || k in others.value then None else Some(others.value[k := m[k]])
  {
    if last.Some? && last.value.Keys !! m.Keys {
      assert last.value + m == (last.value + below)[k := m[k]];
    }
  }

  // ----- a longer last line -----

  /** The lines with `x` appended to the last of them, and further ones behind. */
  function Extended(lines: seq<string>, x: string, more: seq<string>): seq<string>
    requires lines != []
  {
    lines[..|lines| - 1] + ([lines[|lines| - 1] + x] + more)
  }

  lemma {:induction false} KeyEndStays(line: string, x: string, i: nat)
    requires i <= |line| && KeyEnd(line, i) < |line|
    ensures KeyEnd(line + x, i) == KeyEnd(line, i)
    decreases |line| - i
  {
    if line[i] != ':' {
      KeyEndStays(line, x, i + 1);
    }
  }

  /** A scalar with `token: …` at its end is none. */
  lemma ScalarExtended(schema: Schema, v: string, t0: string)
    requires ParseScalar(schema, v).Some?
    ensures ParseScalar(schema, v + (TOKEN + ": " + t0)) == None
  {
    var x := TOKEN + ": " + t0;
    var s := v + x;
    assert s[|v| + 5] == ':' && s[|v| + 6] == ' ';
    assert !Plain(s);
    if Enclosed(s, '"') || Enclosed(s, '\'') {
      EnclosedExtended(schema, v, x);
    }
  }

  lemma EnclosedExtended(schema: Schema, v: string, x: string)
    requires ParseScalar(schema, v).Some? && |x| >= 2 && x[0] == 't'
    requires Enclosed(v + x, '"') || Enclosed(v + x, '\'')
    ensures ParseScalar(schema, v + x) == None
  {
    assert v != "" by { assert (v + x)[0] != 't'; }
    assert (v + x)[0] == v[0];
    assert Enclosed(v, v[0]) by { assert '"' in INDICATORS && '\'' in INDICATORS; }
    var inner, rest := v[1..|v| - 1], x[..|x| - 1];
    assert (v + x)[1..|v + x| - 1] == inner + [v[0]] + rest;
    if v[0] == '"' {
      NothingBehindQuote(inner, rest);
    } else {
      NothingBehindSingle(inner, rest);
    }
  }

  lemma ValueExtended(schema: Schema, after: string, t0: string, tail: seq<string>)
    requires ParseValue(schema, after, []).Some?
    ensures ParseValue(schema, after + (TOKEN + ": " + t0), tail) == None
  {
    var x := TOKEN + ": " + t0;
    if after != "" {
      assert (after + x)[1..] == after[1..] + x;
      ScalarExtended(schema, after[1..], t0);
    } else {
      assert (after + x)[0] == 't';
    }
  }

  lemma HeadExtended(schema: Schema, line: string, t0: string, more: seq<string>)
    requires ParseEntries(schema, [line]).Some?
    ensures ParseEntries(schema, [line + (TOKEN + ": " + t0)] + more) == None
  {
    var lines := [line + (TOKEN + ": " + t0)] + more;
    assert FirstTail([line]) == [];
    ComesApart(schema, [line]);
    ComesApart(schema, lines);
    LongerHeadFails(schema, line, t0, ParseEntries(schema, Others([line])), FirstTail(lines), ParseEntries(schema, Others(lines)));
  }

  lemma LongerHeadFails(schema: Schema, line: string, t0: string, was: Option<Config>, tail: seq<string>, now: Option<Config>)
    requires WithEntry(schema, line, [], was).Some?
    ensures WithEntry(schema, line + (TOKEN + ": " + t0), tail, now) == None
  {
    var x, colon := TOKEN + ": " + t0, KeyEnd(line, 0);
    KeyEndStays(line, x, 0);
    assert (line + x)[colon + 1..] == line[colon + 1..] + x;
    ValueExtended(schema, line[colon + 1..], t0, tail);
  }

  /** The last line continues the value before it: then that value grows. */
  lemma TailExtended(schema: Schema, lines: seq<string>, x: string, more: seq<string>)
    requires |lines| >= 2 && Others(lines) == [] && ParseEntries(schema, lines).Some? && x != ""
    ensures ParseEntries(schema, Extended(lines, x, more)) != ParseEntries(schema, lines)
  {
    Shape(lines);
    TailGrows(lines, x, more);
    ContinuedDiffer(schema, lines, Extended(lines, x, more));
  }

  /** Different continuations of the same head line are different values. */
  lemma ContinuedDiffer(schema: Schema, a: seq<string>, b: seq<string>)
    requires a != [] && b != [] && a[0] == b[0]
    requires FirstTail(a) != FirstTail(b) && FirstTail(a) != [] && FirstTail(b) != [] && ParseEntries(schema, a).Some?
    ensures ParseEntries(schema, b) != ParseEntries(schema, a)
  {
    ComesApart(schema, a);
    ComesApart(schema, b);
    NestedEntry(schema, a[0], FirstTail(a), ParseEntries(schema, Others(a)));
    NestedEntry(schema, b[0], FirstTail(b), ParseEntries(schema, Others(b)));
  }

  lemma NestedEntry(schema: Schema, head: string, tail: seq<string>, others: Option<Config>)
    requires tail != []
    ensures var r := WithEntry(schema, head, tail, others);
            r.Some? ==> head[..KeyEnd(head, 0)] in r.value && r.value[head[..KeyEnd(head, 0)]] == Nested(tail)
  {}

  lemma TailGrows(lines: seq<string>, x: string, more: seq<string>)
    requires |lines| >= 2 && Others(lines) == [] && x != ""
    ensures var all := Extended(lines, x, more);
            all[0] == lines[0] && FirstTail(all) != FirstTail(lines) && FirstTail(all) != [] && FirstTail(lines) != []
  {
    var n := |lines| - 1;
    var all, grown := Extended(lines, x, more), lines[1..n] + [lines[n] + x];
    ContinuationLines(lines[1..]);
    assert lines[1..][..n] == lines[1..] == FirstTail(lines);
    forall l | l in grown ensures IsContinuation(l) {
      assert lines[n] in lines[1..];
      assert forall y :: y in lines[1..n] ==> y in lines[1..];
    }
    assert all[1..] == grown + more;
    ContinuationsAtLeast(grown, more);
    assert FirstTail(all)[n - 1] == lines[n] + x && FirstTail(lines)[n - 1] == lines[n];
  }

  lemma {:induction false} ContinuationsAtLeast(lines: seq<string>, rest: seq<string>)
    requires forall l :: l in lines ==> IsContinuation(l)
    ensures Continuations(lines + rest) >= |lines|
  {
    if lines != [] {
      assert (lines + rest)[1..] == lines[1..] + rest;
      ContinuationsAtLeast(lines[1..], rest);
    }
  }

  /** Appending to the last line of a config that parses changes what it says or breaks it. */
  lemma {:induction false} ExtendedDiffers(schema: Schema, lines: seq<string>, t0: string, more: seq<string>)
    requires lines != [] && lines[|lines| - 1] != "" && ParseEntries(schema, lines).Some?
    ensures ParseEntries(schema, Extended(lines, TOKEN + ": " + t0, more)) != ParseEntries(schema, lines)
    decreases |lines|
  {
    var x := TOKEN + ": " + t0;
    if |lines| == 1 {
      assert lines == [lines[0]] && Extended(lines, x, more) == [lines[0] + x] + more;
      HeadExtended(schema, lines[0], t0, more);
    } else if Others(lines) == [] {
      TailExtended(schema, lines, x, more);
    } else {
      Shape(lines);
      ComesApart(schema, lines);
      var others := Others(lines);
      ExtendedDiffers(schema, others, t0, more);
      FirstEntryStays(schema, lines, x, more);
      if ParseEntries(schema, Extended(lines, x, more)) == ParseEntries(schema, lines) {
        OthersMatter(schema, lines[0], FirstTail(lines), ParseEntries(schema, others), ParseEntries(schema, Extended(others, x, more)));
      }
    }
  }

  /** With the last line in a later entry, the first entry stays as it is. */
  lemma FirstEntryStays(schema: Schema, lines: seq<string>, x: string, more: seq<string>)
    requires lines != [] && Others(lines) != [] && lines[|lines| - 1] != ""
    ensures ParseEntries(schema, Extended(lines, x, more))
         == WithEntry(schema, lines[0], FirstTail(lines), ParseEntries(schema, Extended(Others(lines), x, more)))
  {
    Shape(lines);
    var tail, others := FirstTail(lines), Others(lines);
    var rest := Extended(others, x, more);
    assert rest[0] == if |others| == 1 then others[0] + x else others[0];
    ExtendedApart(lines[0], tail, others, x, more);
    PutTogether(schema, lines[0], tail, rest);
  }

  lemma ExtendedApart(head: string, tail: seq<string>, others: seq<string>, x: string, more: seq<string>)
    requires others != []
    ensures Extended([head] + (tail + others), x, more) == [head] + (tail + Extended(others, x, more))
  {
    var lines, last := [head] + (tail + others), [others[|others| - 1] + x] + more;
    assert lines[..|lines| - 1] == [head] + (tail + others[..|others| - 1]);
    Associative([head], tail + others[..|others| - 1], last);
    Associative(tail, others[..|others| - 1], last);
  }

  lemma OthersMatter(schema: Schema, head: string, tail: seq<string>, a: Option<Config>, b: Option<Config>)
    requires WithEntry(schema, head, tail, a).Some? && WithEntry(schema, head, tail, b) == WithEntry(schema, head, tail, a)
    ensures a == b
  {
    var k := head[..KeyEnd(head, 0)];
    SameWithout(a.value, b.value, k, WithEntry(schema, head, tail, a).value[k]);
  }

  lemma SameWithout(a: Config, b: Config, k: string, v: Value)
    requires k !in a && k !in b && a[k := v] == b[k := v]
    ensures a == b
  {
    assert a == a[k := v] - {k} && b == b[k := v] - {k};
  }

  // ----- the result -----

  /** A config text never reads as before once a token line is appended to it. */
  lemma InjectChanges(schema: Schema, text: string, t: string)
    requires Parse(schema, text).Some?
    ensures Parse(schema, Inject(text, t)) != Parse(schema, text)
  {
    if text == "{}\n" {
      EmptyConfigFails(schema, t);
    } else {
      InjectIsNotEmpty(text, t);
      if text == "" || EndsLine(text) {
        InjectedLines(t);
        SplitBehindLine(text, TOKEN + ": " + t + "\n");
        ConcatParses(schema, SplitLines(text), TokenLines(t));
        CutAtBreak(t);
        InjectedToken(schema, BeforeBreak(t), SplitLines(AfterBreak(t)));
      } else {
        OpenLineInjected(text, t);
        OpenLine(text);
        ExtendedDiffers(schema, SplitLines(text), BeforeBreak(t), SplitLines(AfterBreak(t)));
      }
    }
  }

  lemma InjectIsNotEmpty(text: string, t: string)
    ensures Inject(text, t) != "{}\n"
  {
    assert |TOKEN| == 5 && |Inject(text, t)| >= 8;
  }

  lemma OpenLineInjected(text: string, t: string)
    requires text != "" && !EndsLine(text)
    ensures SplitLines(text) != []
    ensures SplitLines(Inject(text, t)) == Extended(SplitLines(text), TOKEN + ": " + BeforeBreak(t), SplitLines(AfterBreak(t)))
  {
    OpenLine(text);
    LinesAreOneLine(text);
    var lines := SplitLines(text);
    assert lines[|lines| - 1] in lines && forall l :: l in lines[..|lines| - 1] ==> l in lines;
    LastLineInjected(lines[..|lines| - 1], lines[|lines| - 1], t);
  }

  lemma LastLineInjected(front: seq<string>, last: string, t: string)
    requires OneLine(last) && forall l :: l in front ==> OneLine(l)
    ensures SplitLines(Inject(JoinLines(front) + last, t))
         == front + ([last + (TOKEN + ": " + BeforeBreak(t))] + SplitLines(AfterBreak(t)))
  {
    var line := TOKEN + ": " + t + "\n";
    TokenBehind(last, t);
    Associative(JoinLines(front), last, line);
    SplitJoin(front, last + line);
  }

  lemma TokenBehind(last: string, t: string)
    requires OneLine(last)
    ensures SplitLines(last + (TOKEN + ": " + t + "\n")) == [last + (TOKEN + ": " + BeforeBreak(t))] + SplitLines(AfterBreak(t))
  {
    CutAtBreak(t);
    var line := last + (TOKEN + ": " + BeforeBreak(t));
    assert OneLine(TOKEN + ": ") && OneLine(line);
    SplitFromLine(line, AfterBreak(t), 0);
    Regroup(last, TOKEN + ": ", t, BeforeBreak(t), AfterBreak(t));
  }

  lemma Regroup(last: string, a: string, t: string, b: string, c: string)
    requires t + "\n" == b + "\n" + c
    ensures last + (a + t + "\n") == last + (a + b) + "\n" + c
  {
    Associative(a, t, "\n");
    Associative(a, b + "\n", c);
    Associative(a, b, "\n");
    Associative(last, a + b + "\n", c);
    Associative(last, a + b, "\n");
  }

  /** Behind text that ends its last line the key is there twice, if it was there before. */
  lemma InjectRepeats(schema: Schema, text: string, t: string)
    requires EndsLine(text) && Parse(schema, text).Some? && TOKEN in Parse(schema, text).value
    ensures Parse(schema, Inject(text, t)) == None
  {
    InjectIsNotEmpty(text, t);
    InjectedLines(t);
    SplitBehindLine(text, TOKEN + ": " + t + "\n");
    ConcatParses(schema, SplitLines(text), TokenLines(t));
    CutAtBreak(t);
    InjectedToken(schema, BeforeBreak(t), SplitLines(AfterBreak(t)));
  }
}
