/** Rendering the local development .env file from a template, and parsing .env files. */
module EnvFile {
  import opened Outcomes
  import opened Text
  import opened Ordering

  // ----- parsing -----

  /** One pair of equal quotes around the value. */
  predicate Wrapped(s: string) {
    |s| >= 2 && s[0] == s[|s| - 1] && s[0] in {'\'', '"'}
  }

  function StripWrappingQuotes(value: string): string {
    var s := Strip(value);
    if Wrapped(s) then Strip(s[1..|s| - 1]) else s
  }

  /** Neither blank nor a comment, and holding an equals sign. */
  predicate IsAssignment(raw: string) {
    var line := Strip(raw);
    line != "" && line[0] != '#' && '=' in line
  }

  datatype Entry = Entry(key: string, value: string)

  function ParseLine(raw: string): Option<Entry> {
    var line := Strip(raw);
    if !IsAssignment(raw) then None else
    var at := FirstIndex(line, '=');
    var key := Strip(line[..at]);
    if key == "" then None else Some(Entry(key, StripWrappingQuotes(line[at + 1..])))
  }

  function Extended(data: map<string, string>, e: Option<Entry>): map<string, string> {
    if e.None? then data else data[e.value.key := e.value.value]
  }

  function Parsed(lines: seq<string>): map<string, string> {
    if lines == [] then map[] else Extended(Parsed(lines[..|lines| - 1]), ParseLine(lines[|lines| - 1]))
  }

  method ParseEnvFile(text: string) returns (data: map<string, string>)
    ensures data == Parsed(SplitLines(text))
  {
    hide Strip, StripWrappingQuotes;
    data := map[];
    var lines := SplitLines(text);
    for i := 0 to |lines|
      invariant data == Parsed(lines[..i])
    {
      assert lines[..i + 1][..i] == lines[..i];
      var line := Strip(lines[i]);
      if line == "" || line[0] == '#' || '=' !in line { continue; }
      var at := FirstIndex(line, '=');
      var key := Strip(line[..at]);
      if key == "" { continue; }
      data := data[key := StripWrappingQuotes(line[at + 1..])];
    }
    assert lines[..|lines|] == lines;
  }

  ghost predicate LastFor(lines: seq<string>, key: string, i: nat) {
    && i < |lines| && ParseLine(lines[i]).Some? && ParseLine(lines[i]).value.key == key
    && forall j :: i < j < |lines| && ParseLine(lines[j]).Some? ==> ParseLine(lines[j]).value.key != key
  }

  /** The last line that assigns a key decides its value. */
  lemma {:induction false} LastAssignmentWins(lines: seq<string>, key: string)
    ensures key in Parsed(lines) <==> exists i: nat :: LastFor(lines, key, i)
    ensures forall i: nat :: LastFor(lines, key, i) ==> Parsed(lines)[key] == ParseLine(lines[i]).value.value
  {
    hide ParseLine;
    if lines != [] {
      var n := |lines| - 1;
      var init := lines[..n];
      LastAssignmentWins(init, key);
      var e := ParseLine(lines[n]);
      if e.Some? && e.value.key == key {
        assert LastFor(lines, key, n);
        assert forall i: nat :: LastFor(lines, key, i) ==> i == n;
      } else {
        assert forall i: nat :: i < n ==> lines[i] == init[i];
        assert forall i: nat :: LastFor(lines, key, i) <==> LastFor(init, key, i);
      }
    }
  }

  // ----- rendering -----

  type Overrides = map<string, string>

  function StripNewlines(s: string): string {
    if s != "" && s[|s| - 1] == '\n' then StripNewlines(s[..|s| - 1]) else s
  }

  /** The key as the renderer reads it: the untrimmed line up to its first equals sign. */
  function LineKey(line: string): string {
    Strip(line[..FirstIndex(line, '=')])
  }

  function Assignment(key: string, value: string): string {
    key + "=" + value
  }

  predicate IsOverridden(line: string, o: Overrides) {
    IsAssignment(line) && LineKey(line) in o
  }

  function RenderLine(line: string, o: Overrides): string {
    if IsOverridden(line, o) then Assignment(LineKey(line), o[LineKey(line)]) else line
  }

  function Title(): string { "# Local deterministic " + "development environment." }

  function Origin(): string {
    "# Generated by scripts/" + "generate_local_dev_env.py; " + "safe for local isolated " + "testing only."
  }

  function Caution(): string { "# Do not deploy this file " + "to staging or production." }

  function Header(): seq<string> {
    [Title(), Origin(), Caution(), ""]
  }

  predicate IsComment(line: string) {
    SingleLine(line) && (line == "" || line[0] == '#')
  }

  /** Comments and blank lines. */
  ghost predicate IsHeader(lines: seq<string>) {
    forall i :: 0 <= i < |lines| ==> IsComment(lines[i])
  }

  function RenderedBody(template: seq<string>, o: Overrides): (r: seq<string>)
    ensures |r| == |template|
  {
    seq(|template|, i requires 0 <= i < |template| => RenderLine(StripNewlines(template[i]), o))
  }

  ghost predicate Seen(template: seq<string>, o: Overrides, key: string) {
    exists i :: 0 <= i < |template| && IsOverridden(StripNewlines(template[i]), o) && LineKey(StripNewlines(template[i])) == key
  }

  lemma SeenStep(template: seq<string>, line: string, o: Overrides)
    ensures forall k :: Seen(template + [line], o, k) <==>
      Seen(template, o, k) || (IsOverridden(StripNewlines(line), o) && LineKey(StripNewlines(line)) == k)
  {
    hide StripNewlines, IsOverridden, LineKey;
    var longer := template + [line];
    assert longer[|template|] == line;
    assert forall i :: 0 <= i < |template| ==> longer[i] == template[i];
    forall k | Seen(template, o, k) ensures Seen(longer, o, k) {
      var i :| 0 <= i < |template| && IsOverridden(StripNewlines(template[i]), o) && LineKey(StripNewlines(template[i])) == k;
      assert longer[i] == template[i];
    }
  }

  function Assignments(keys: seq<string>, o: Overrides): (r: seq<string>)
    requires forall k :: k in keys ==> k in o
    ensures |r| == |keys|
  {
    seq(|keys|, i requires 0 <= i < |keys| => Assignment(keys[i], o[keys[i]]))
  }

  /** The header, the template with its overridden lines replaced, and the unseen overrides in order. */
  ghost predicate IsRendering(lines: seq<string>, header: seq<string>, template: seq<string>, o: Overrides) {
    exists rest ::
      Lists(rest, set k | k in o && !Seen(template, o, k)) && lines == header + RenderedBody(template, o) + Assignments(rest, o)
  }

  method RenderEnv(header: seq<string>, template: seq<string>, o: Overrides) returns (text: string)
    ensures exists lines :: IsRendering(lines, header, template, o) && text == Unlines(lines)
  {
    hide Strip, IsAssignment, LineKey, StripNewlines;
    var output := header;
    var seen: set<string> := {};
    for i := 0 to |template|
      invariant output == header + RenderedBody(template[..i], o)
      invariant forall k :: k in seen <==> Seen(template[..i], o, k)
    {
      assert RenderedBody(template[..i + 1], o) == RenderedBody(template[..i], o) + [RenderLine(StripNewlines(template[i]), o)];
      assert template[..i + 1] == template[..i] + [template[i]];
      SeenStep(template[..i], template[i], o);
      var line := StripNewlines(template[i]);
      if !IsAssignment(line) {
        output := output + [line];
        continue;
      }
      var key := LineKey(line);
      if key in o {
        output := output + [Assignment(key, o[key])];
        seen := seen + {key};
        continue;
      }
      output := output + [line];
    }
    assert template[..|template|] == template;
    var rest := Sorted(o.Keys - seen);
    assert o.Keys - seen == set k | k in o && !Seen(template, o, k);
    var body := output;
    for i := 0 to |rest|
      invariant forall k :: k in rest ==> k in o
      invariant output == body + Assignments(rest[..i], o)
    {
      assert Assignments(rest[..i + 1], o) == Assignments(rest[..i], o) + [Assignment(rest[i], o[rest[i]])];
      output := output + [Assignment(rest[i], o[rest[i]])];
    }
    assert rest[..|rest|] == rest;
    assert IsRendering(output, header, template, o);
    JoinWithEmptyLast(output);
    text := Join(output + [""]);
  }
}
