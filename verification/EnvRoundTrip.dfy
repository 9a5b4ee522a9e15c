/** Parsing a rendered .env file gives the parsed template with the overrides laid over it. */
module EnvRoundTrip {
  import opened Outcomes
  import opened Text
  import opened Ordering
  import opened EnvFile

  /** A key that its own assignment line gives back. */
  predicate WellFormedKey(k: string) {
    k != "" && Trimmed(k) && SingleLine(k) && k[0] != '#' && '=' !in k
  }

  ghost predicate WellFormed(o: Overrides) {
    forall k :: k in o ==> WellFormedKey(k) && SingleLine(o[k])
  }

  /** The override values as the parser reads them back. */
  function Cleaned(o: Overrides): Overrides {
    map k | k in o :: StripWrappingQuotes(o[k])
  }

  // ----- one line -----

  /** An equals sign is not white space, so the trimmed and the untrimmed line have the same key. */
  lemma SameKey(line: string)
    requires IsAssignment(line)
    ensures LineKey(line) == Strip(Strip(line)[..FirstIndex(Strip(line), '=')])
  {
    hide StripLeft, StripRight;
    var s := Strip(line);
    var a, b := StripDecomposes(line);
    var q := FirstIndex(s, '=');
    assert line[..|a| + q] == a + s[..q];
    assert line[|a| + q] == s[q];
    FirstIndexAt(line, |a| + q, '=');
    StripLeftPrefix(a, s[..q]);
  }

  lemma CleanIgnoresTrailingSpace(value: string)
    ensures StripWrappingQuotes(StripRight(value)) == StripWrappingQuotes(value)
  {
    hide Strip, Wrapped;
    StripAfterStripRight(value);
  }

  lemma AssignmentParses(key: string, value: string)
    requires WellFormedKey(key)
    ensures ParseLine(Assignment(key, value)) == Some(Entry(key, StripWrappingQuotes(value)))
  {
    hide StripWrappingQuotes;
    var raw := Assignment(key, value);
    var p := key + "=";
    assert raw == p + value && raw[0] == key[0];
    assert StripLeft(raw) == raw;
    StripRightAfter(p, value);
    hide StripLeft, StripRight;
    var line := Strip(raw);
    assert line == key + "=" + StripRight(value);
    assert line[..|key|] == key && line[|key|] == '=' && line[|key| + 1..] == StripRight(value);
    FirstIndexAt(line, |key|, '=');
    TrimmedStrip(key);
    CleanIgnoresTrailingSpace(value);
  }

  /** The parser reads a value back unchanged exactly when it is trimmed and not quote-wrapped. */
  lemma ReadBackUnchanged(value: string)
    ensures StripWrappingQuotes(value) == value <==> Trimmed(value) && !Wrapped(value)
  {
    hide StripLeft, StripRight;
    StripTrimmed(value);
    var a, b := StripDecomposes(value);
    if Trimmed(value) {
      TrimmedStrip(value);
    }
    var s := Strip(value);
    if Wrapped(s) {
      var c, d := StripDecomposes(s[1..|s| - 1]);
      assert |StripWrappingQuotes(value)| < |s|;
    }
  }

  /** One pair of quotes around a value goes, with the white space outside and inside them. */
  lemma QuotesGo(before: string, quote: char, value: string, after: string)
    requires AllSpace(before) && AllSpace(after) && quote in {'\'', '"'}
    ensures StripWrappingQuotes(before + [quote] + value + [quote] + after) == Strip(value)
  {
    hide StripLeft, StripRight;
    var quoted := [quote] + value + [quote];
    assert Trimmed(quoted) && Wrapped(quoted) && quoted[1..|quoted| - 1] == value;
    StripPadded(before, quoted, after);
    assert before + [quote] + value + [quote] + after == before + quoted + after;
  }

  lemma StripPadded(before: string, s: string, after: string)
    requires AllSpace(before) && AllSpace(after) && Trimmed(s) && s != ""
    ensures Strip(before + s + after) == s
  {
    assert before + s + after == before + (s + after);
    StripLeftPrefix(before, s + after);
    StripLeftBefore(s, after);
    StripRightSuffix(s, after);
    TrimmedStrip(s);
  }

  function Overlaid(e: Option<Entry>, o: Overrides): Option<Entry> {
    if e.Some? && e.value.key in o then Some(Entry(e.value.key, StripWrappingQuotes(o[e.value.key]))) else e
  }

  /** Rendering a line overrides exactly what the parser reads from it. */
  lemma RenderLineParses(line: string, o: Overrides)
    requires WellFormed(o)
    ensures IsOverridden(line, o) <==> ParseLine(line).Some? && ParseLine(line).value.key in o
    ensures IsOverridden(line, o) ==> LineKey(line) == ParseLine(line).value.key
    ensures ParseLine(RenderLine(line, o)) == Overlaid(ParseLine(line), o)
  {
    hide StripWrappingQuotes, Strip, SingleLine;
    if IsAssignment(line) {
      SameKey(line);
      var key := LineKey(line);
      if key in o {
        assert WellFormedKey(key);
        AssignmentParses(key, o[key]);
      }
    }
  }

  // ----- many lines -----

  lemma {:induction false} ParsedConcat(a: seq<string>, b: seq<string>)
    ensures Parsed(a + b) == Parsed(a) + Parsed(b)
  {
    hide ParseLine;
    if b == [] {
      assert a + b == a;
    } else {
      assert (a + b)[..|a + b| - 1] == a + b[..|b| - 1];
      ParsedConcat(a, b[..|b| - 1]);
    }
  }

  lemma {:induction false} NothingParsed(lines: seq<string>)
    requires forall i :: 0 <= i < |lines| ==> lines[i] == "" || lines[i][0] == '#'
    ensures Parsed(lines) == map[]
  {
    if lines != [] {
      NothingParsed(lines[..|lines| - 1]);
      var line := lines[|lines| - 1];
      if line != "" {
        var p := line[..1];
        assert line == p + line[1..];
        StripRightAfter(p, line[1..]);
        assert Strip(line)[0] == '#';
      }
    }
  }

  /** Only trailing line feeds go. */
  lemma {:induction false} StripNewlinesLaw(s: string, n: nat)
    requires SingleLine(s)
    ensures StripNewlines(s + seq(n, _ => '\n')) == s
  {
    var t := s + seq(n, _ => '\n');
    if n == 0 {
      assert t == s;
      StripNewlinesOfSingleLine(s);
    } else {
      assert t[|t| - 1] == '\n' && t[..|t| - 1] == s + seq(n - 1, _ => '\n');
      StripNewlinesLaw(s, n - 1);
    }
  }

  lemma StripNewlinesOfSingleLine(s: string)
    requires SingleLine(s)
    ensures StripNewlines(s) == s
  {
  }

  /** The parsed template with the overrides of the keys it holds. */
  ghost predicate IsOverlay(r: map<string, string>, base: map<string, string>, o: Overrides) {
    r.Keys == base.Keys && forall k :: k in base ==> r[k] == if k in o then Cleaned(o)[k] else base[k]
  }

  lemma OverlayStep(r: map<string, string>, base: map<string, string>, o: Overrides, e: Option<Entry>)
    requires IsOverlay(r, base, o)
    ensures IsOverlay(Extended(r, Overlaid(e, o)), Extended(base, e), o)
  {
    hide StripWrappingQuotes;
  }

  lemma {:induction false} BodyParses(template: seq<string>, o: Overrides)
    requires WellFormed(o) && forall i :: 0 <= i < |template| ==> SingleLine(template[i])
    ensures IsOverlay(Parsed(RenderedBody(template, o)), Parsed(template), o)
    ensures forall k :: Seen(template, o, k) <==> k in o && k in Parsed(template)
  {
    hide ParseLine, RenderLine, IsOverridden, StripNewlines, LineKey, SingleLine, WellFormed, Overlaid, IsOverlay, Seen;
    if template == [] {
      BodyOfNothing(o);
    } else {
      var n := |template| - 1;
      var init, line := template[..n], template[n];
      BodyParses(init, o);
      StripNewlinesOfSingleLine(line);
      RenderLineParses(line, o);
      var body := RenderedBody(template, o);
      assert body[..n] == RenderedBody(init, o) && body[n] == RenderLine(line, o);
      assert template == init + [line];
      SeenStep(init, line, o);
      OverlayStep(Parsed(RenderedBody(init, o)), Parsed(init), o, ParseLine(line));
    }
  }

  lemma BodyOfNothing(o: Overrides)
    ensures IsOverlay(Parsed(RenderedBody([], o)), Parsed([]), o) && forall k :: !Seen([], o, k)
  {
  }

  lemma OverlayThenRest(body: map<string, string>, base: map<string, string>, o: Overrides, rest: seq<string>)
    requires IsOverlay(body, base, o) && forall k :: k in rest <==> k in o && k !in base
    ensures body + (map k | k in rest :: Cleaned(o)[k]) == base + Cleaned(o)
  {
    hide StripWrappingQuotes;
  }

  lemma {:induction false} AssignmentsParse(keys: seq<string>, o: Overrides)
    requires WellFormed(o) && forall k :: k in keys ==> k in o
    ensures Parsed(Assignments(keys, o)) == map k | k in keys :: Cleaned(o)[k]
  {
    hide ParseLine, StripWrappingQuotes, Assignment, SingleLine;
    if keys != [] {
      var n := |keys| - 1;
      var init := keys[..n];
      AssignmentsParse(init, o);
      var lines := Assignments(keys, o);
      assert lines[..n] == Assignments(init, o);
      AssignmentParses(keys[n], o[keys[n]]);
      assert keys == init + [keys[n]];
    }
  }

  lemma RenderingParses(lines: seq<string>, header: seq<string>, template: seq<string>, o: Overrides)
    requires WellFormed(o) && IsHeader(header) && forall i :: 0 <= i < |template| ==> SingleLine(template[i])
    requires IsRendering(lines, header, template, o)
    ensures Parsed(lines) == Parsed(template) + Cleaned(o)
  {
    hide Parsed, Seen, Cleaned, SingleLine, RenderedBody, Assignments, Ascending, IsOverlay;
    var rest: seq<string> :|
      Lists(rest, set k | k in o && !Seen(template, o, k)) && lines == header + RenderedBody(template, o) + Assignments(rest, o);
    NothingParsed(header);
    BodyParses(template, o);
    AssignmentsParse(rest, o);
    ParsedConcat(header, RenderedBody(template, o));
    ParsedConcat(header + RenderedBody(template, o), Assignments(rest, o));
    OverlayThenRest(Parsed(RenderedBody(template, o)), Parsed(template), o, rest);
  }

  lemma SingleLineAssignment(key: string, value: string)
    requires SingleLine(key) && SingleLine(value)
    ensures SingleLine(Assignment(key, value))
  {
  }

  lemma RenderingIsSingleLine(lines: seq<string>, header: seq<string>, template: seq<string>, o: Overrides)
    requires WellFormed(o) && IsHeader(header) && forall i :: 0 <= i < |template| ==> SingleLine(template[i])
    requires IsRendering(lines, header, template, o)
    ensures forall i :: 0 <= i < |lines| ==> SingleLine(lines[i])
  {
    hide IsAssignment, LineKey;
    var rest: seq<string> :|
      Lists(rest, set k | k in o && !Seen(template, o, k)) && lines == header + RenderedBody(template, o) + Assignments(rest, o);
    forall i | 0 <= i < |template| ensures SingleLine(RenderedBody(template, o)[i]) {
      StripNewlinesOfSingleLine(template[i]);
    }
    forall i | 0 <= i < |rest| ensures SingleLine(Assignments(rest, o)[i]) {
      assert rest[i] in rest;
      SingleLineAssignment(rest[i], o[rest[i]]);
    }
  }

  /** For every template: the overrides win, as the parser reads them, and nothing else changes. */
  lemma EnvRoundTrip(header: seq<string>, template: string, o: Overrides, lines: seq<string>)
    requires WellFormed(o) && IsHeader(header) && IsRendering(lines, header, SplitLines(template), o)
    ensures Parsed(SplitLines(Unlines(lines))) == Parsed(SplitLines(template)) + Cleaned(o)
    ensures Parsed(SplitLines(Unlines(lines))) == Parsed(SplitLines(template)) + o <==>
      forall k :: k in o ==> Trimmed(o[k]) && !Wrapped(o[k])
  {
    hide Parsed, WellFormed, IsRendering, IsHeader, SingleLine, SplitLines, StripWrappingQuotes, Trimmed, Wrapped;
    SplitLinesAreSingle(template);
    RenderingIsSingleLine(lines, header, SplitLines(template), o);
    SplitUnlines(lines);
    RenderingParses(lines, header, SplitLines(template), o);
    forall k | k in o ensures StripWrappingQuotes(o[k]) == o[k] <==> Trimmed(o[k]) && !Wrapped(o[k]) {
      ReadBackUnchanged(o[k]);
    }
    var base := Parsed(SplitLines(template));
    if base + Cleaned(o) == base + o {
      forall k | k in o ensures Cleaned(o)[k] == o[k] {
        assert (base + Cleaned(o))[k] == (base + o)[k];
      }
    }
    if forall k :: k in o ==> Cleaned(o)[k] == o[k] {
      assert Cleaned(o) == o;
    }
  }

  lemma OriginIsComment()
    ensures IsComment(Origin())
  {
    var a, b := "# Generated by scripts/" + "generate_local_dev_env.py; ", "safe for local isolated " + "testing only.";
    assert SingleLine(a) && a[0] == '#';
    assert SingleLine(b);
    assert Origin() == a + b;
    hide SingleLine;
    SingleLineConcat(a, b);
  }

  lemma TitleIsComment()
    ensures IsComment(Title()) && IsComment("")
  {
  }

  lemma CautionIsComment()
    ensures IsComment(Caution())
  {
  }

  lemma HeaderIsHeader()
    ensures IsHeader(Header())
  {
    TitleIsComment();
    OriginIsComment();
    CautionIsComment();
    hide IsComment, Title, Origin, Caution;
  }

  /** The two scripts one after the other. */
  method GenerateAndParse(template: string, o: Overrides) returns (data: map<string, string>)
    requires WellFormed(o)
    ensures data == Parsed(SplitLines(template)) + Cleaned(o)
  {
    hide *;
    var text := RenderEnv(Header(), SplitLines(template), o);
    data := ParseEnvFile(text);
    HeaderIsHeader();
    ghost var lines :| IsRendering(lines, Header(), SplitLines(template), o) && text == Unlines(lines);
    EnvRoundTrip(Header(), template, o, lines);
  }
}
