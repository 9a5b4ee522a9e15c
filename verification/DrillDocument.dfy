/** The key-rotation drill document: Markdown lines, and the extraction of its fields. */
module DrillDocument {
  import opened Outcomes
  import opened Text

  datatype Field =
    | DrillId | ExecutedAt | Environment | Owner | Approver | NextDue
    | PreRotation | NewTokens | OldTokens | Fallback | Rollback | Replay | Alert | EndpointGuard
    | Status | SelectorResult(number: nat)

  function Name(f: Field): string {
    match f
    case DrillId => "drill_id"
    case ExecutedAt => "executed_at_utc"
    case Environment => "environment"
    case Owner => "owner"
    case Approver => "approver"
    case NextDue => "next_drill_due_on"
    case PreRotation => "pre_rotation_tokens_accepted"
    case NewTokens => "post_rotation_new_tokens_accepted"
    case OldTokens => "post_rotation_old_tokens_rejected"
    case Fallback => "fallback_verification_passed"
    case Rollback => "rollback_validation_passed"
    case Replay => "replay_protection_intact"
    case Alert => "alert_pipeline_verified"
    case EndpointGuard => "endpoint_replay_tamper_guard"
    case Status => "post_drill_status"
    case SelectorResult(n) => "test_selector_result_" + Decimal(n)
  }

  predicate IsKeyChar(c: char) {
    'a' <= c <= 'z' || '0' <= c <= '9' || c == '_'
  }

  predicate IsKey(s: string) {
    s != "" && forall i :: 0 <= i < |s| ==> IsKeyChar(s[i])
  }

  // ----- names -----

  lemma LongNamesAreKeys()
    ensures IsKey(Name(NewTokens)) && IsKey(Name(OldTokens)) && IsKey(Name(PreRotation))
  {
  }

  lemma OutcomeNamesAreKeys()
    ensures IsKey(Name(Fallback)) && IsKey(Name(Rollback)) && IsKey(Name(Replay))
  {
  }

  lemma GuardNamesAreKeys()
    ensures IsKey(Name(Alert)) && IsKey(Name(EndpointGuard))
  {
  }

  lemma MetadataNamesAreKeys()
    ensures IsKey(Name(DrillId)) && IsKey(Name(ExecutedAt)) && IsKey(Name(Environment)) && IsKey(Name(Owner))
    ensures IsKey(Name(Approver)) && IsKey(Name(NextDue)) && IsKey(Name(Status))
  {
  }

  lemma NamesAreKeys(f: Field)
    ensures IsKey(Name(f))
  {
    LongNamesAreKeys();
    OutcomeNamesAreKeys();
    GuardNamesAreKeys();
    MetadataNamesAreKeys();
    if f.SelectorResult? {
      assert IsKey("test_selector_result_");
    }
  }

  /** Length, first letter and fifteenth letter, enough to tell the names apart. */
  lemma NameSignature(f: Field)
    ensures !f.SelectorResult? ==> |Name(f)| == Length(f) && Name(f)[0] == Initial(f)
    ensures f == NewTokens ==> Name(f)[14] == 'n'
    ensures f == OldTokens ==> Name(f)[14] == 'o'
    ensures f.SelectorResult? ==> Name(f)[0] == 't' && Name(f)[21..] == Decimal(f.number)
  {
    if f.SelectorResult? {
      var stem := "test_selector_result_";
      assert |stem| == 21;
      hide Decimal;
    }
  }

  function Length(f: Field): nat {
    match f
    case DrillId => 8 case ExecutedAt => 15 case Environment => 11 case Owner => 5 case Approver => 8 case NextDue => 17
    case PreRotation => 28 case NewTokens => 33 case OldTokens => 33 case Fallback => 28 case Rollback => 26
    case Replay => 24 case Alert => 23 case EndpointGuard => 28 case Status => 17
    case SelectorResult(_) => 0
  }

  function Initial(f: Field): char {
    match f
    case DrillId => 'd' case ExecutedAt => 'e' case Environment => 'e' case Owner => 'o' case Approver => 'a' case NextDue => 'n'
    case PreRotation => 'p' case NewTokens => 'p' case OldTokens => 'p' case Fallback => 'f' case Rollback => 'r'
    case Replay => 'r' case Alert => 'a' case EndpointGuard => 'e' case Status => 'p'
    case SelectorResult(_) => 't'
  }

  /** Different fields have different names, for any number of selectors. */
  lemma NameInjective(f: Field, g: Field)
    requires Name(f) == Name(g)
    ensures f == g
  {
    hide Name;
    NameSignature(f);
    NameSignature(g);
    if f.SelectorResult? && g.SelectorResult? {
      DecimalInjective(f.number, g.number);
    }
  }

  // ----- lines -----

  datatype Line = Prose(text: string) | Item(field: Field, value: string)

  function RenderLine(l: Line): string {
    match l
    case Prose(text) => text
    case Item(f, value) => "- " + Name(f) + ": " + value
  }

  function Render(doc: seq<Line>): (r: seq<string>)
    ensures |r| == |doc| && forall i :: 0 <= i < |doc| ==> r[i] == RenderLine(doc[i])
  {
    seq(|doc|, i requires 0 <= i < |doc| => RenderLine(doc[i]))
  }

  datatype Entry = Entry(key: string, value: string)

  /** A dash, a space, a key, a colon and a non-empty rest, on the trimmed line. */
  function MatchField(line: string): Option<Entry> {
    var s := Strip(line);
    var colon := FirstIndex(s, ':');
    if 2 <= colon < |s| && s[..2] == "- " && IsKey(s[2..colon]) && s[colon + 1..] != ""
      then Some(Entry(s[2..colon], Strip(s[colon + 1..])))
      else None
  }

  /** The fields of the lines, unless one is repeated. */
  function Fields(lines: seq<string>): Result<map<string, string>> {
    if lines == [] then Ok(map[]) else
    var before := Fields(lines[..|lines| - 1]);
    if before.Error? then before else
    match MatchField(lines[|lines| - 1])
    case None => before
    case Some(e) => if e.key in before.value then Error("duplicate field") else Ok(before.value[e.key := e.value])
  }

  lemma {:induction false} FieldsOfPrefix(lines: seq<string>, i: nat)
    requires i <= |lines| && Fields(lines[..i]).Error?
    ensures Fields(lines) == Error("duplicate field")
    decreases |lines|
  {
    hide MatchField;
    if i == |lines| {
      assert lines[..i] == lines;
      FieldsErrorIsDuplicate(lines);
    } else {
      assert lines[..|lines| - 1][..i] == lines[..i];
      FieldsOfPrefix(lines[..|lines| - 1], i);
    }
  }

  lemma {:induction false} FieldsErrorIsDuplicate(lines: seq<string>)
    ensures Fields(lines).Error? ==> Fields(lines) == Error("duplicate field")
  {
    hide MatchField;
    if lines != [] {
      FieldsErrorIsDuplicate(lines[..|lines| - 1]);
    }
  }

  method ExtractFields(text: string) returns (r: Result<map<string, string>>)
    ensures r == Fields(SplitLines(text))
  {
    hide MatchField;
    var values: map<string, string> := map[];
    var lines := SplitLines(text);
    for i := 0 to |lines|
      invariant Fields(lines[..i]) == Ok(values)
    {
      assert lines[..i + 1][..i] == lines[..i];
      var m := MatchField(lines[i]);
      if m.Some? {
        if m.value.key in values {
          FieldsOfPrefix(lines, i + 1);
          return Error("duplicate field");
        }
        values := values[m.value.key := m.value.value];
      }
    }
    assert lines[..|lines|] == lines;
    return Ok(values);
  }

  // ----- the round trip -----

  /** What a written value must be for the extractor to give it back. */
  predicate WritableValue(v: string) {
    v != "" && Trimmed(v) && SingleLine(v)
  }

  ghost predicate Writable(l: Line) {
    match l
    case Prose(text) => SingleLine(text) && (text == "" || (!IsSpace(text[0]) && text[0] != '-'))
    case Item(_, value) => WritableValue(value)
  }

  ghost predicate NoRepeatedField(doc: seq<Line>) {
    forall i, j :: 0 <= i < j < |doc| && doc[i].Item? && doc[j].Item? ==> doc[i].field != doc[j].field
  }

  /** The dictionary of the written fields. */
  ghost function Written(doc: seq<Line>): map<string, string> {
    if doc == [] then map[] else
    var before, last := Written(doc[..|doc| - 1]), doc[|doc| - 1];
    if last.Item? then before[Name(last.field) := last.value] else before
  }

  lemma ProseDoesNotMatch(text: string)
    requires Writable(Prose(text))
    ensures MatchField(text) == None
  {
    if text != "" {
      var p := text[..1];
      assert text == p + text[1..];
      StripRightAfter(p, text[1..]);
      assert Strip(text)[0] == text[0];
    }
  }

  lemma StripAfterSpace(value: string)
    requires Trimmed(value)
    ensures Strip(" " + value) == value
  {
    assert AllSpace(" ");
    StripLeftPrefix(" ", value);
    TrimmedStrip(value);
  }

  lemma ItemMatches(f: Field, value: string)
    requires WritableValue(value)
    ensures MatchField(RenderLine(Item(f, value))) == Some(Entry(Name(f), value))
  {
    hide Name, Strip;
    var key := Name(f);
    NamesAreKeys(f);
    var s := RenderLine(Item(f, value));
    assert Trimmed(s);
    TrimmedStrip(s);
    var colon := 2 + |key|;
    assert s[..colon] == "- " + key && s[colon] == ':' && s[2..colon] == key;
    FirstIndexAt(s, colon, ':');
    assert s[colon + 1..] == " " + value;
    StripAfterSpace(value);
  }

  lemma {:induction false} WrittenKeys(doc: seq<Line>)
    ensures forall k :: k in Written(doc) <==> exists i :: 0 <= i < |doc| && doc[i].Item? && Name(doc[i].field) == k
  {
    hide Name;
    if doc != [] {
      var init := doc[..|doc| - 1];
      WrittenKeys(init);
      assert forall i :: 0 <= i < |init| ==> init[i] == doc[i];
    }
  }

  /** Every written field is in the dictionary with its value. */
  lemma {:induction false} WrittenValue(doc: seq<Line>, i: nat)
    requires NoRepeatedField(doc) && i < |doc| && doc[i].Item?
    ensures Name(doc[i].field) in Written(doc) && Written(doc)[Name(doc[i].field)] == doc[i].value
  {
    hide Name;
    var n := |doc| - 1;
    if i < n {
      WrittenValue(doc[..n], i);
      if doc[n].Item? && Name(doc[n].field) == Name(doc[i].field) {
        NameInjective(doc[n].field, doc[i].field);
      }
    }
  }

  lemma RepeatedByLast(doc: seq<Line>)
    requires doc != []
    ensures var n := |doc| - 1;
            NoRepeatedField(doc) <==>
              NoRepeatedField(doc[..n]) && (doc[n].Item? ==> Name(doc[n].field) !in Written(doc[..n]))
  {
    hide Name;
    var n := |doc| - 1;
    var init := doc[..n];
    WrittenKeys(init);
    assert forall i :: 0 <= i < n ==> init[i] == doc[i];
    if doc[n].Item? && Name(doc[n].field) in Written(init) {
      var i :| 0 <= i < n && init[i].Item? && Name(init[i].field) == Name(doc[n].field);
      NameInjective(init[i].field, doc[n].field);
      assert doc[i].field == doc[n].field;
    }
  }

  /** The extractor returns every written field, and reports a duplicate exactly when there is one. */
  lemma {:induction false} FieldsRoundTrip(doc: seq<Line>)
    requires forall i :: 0 <= i < |doc| ==> Writable(doc[i])
    ensures Fields(Render(doc)).Ok? <==> NoRepeatedField(doc)
    ensures NoRepeatedField(doc) ==> Fields(Render(doc)) == Ok(Written(doc))
  {
    hide Name, MatchField, Writable, RenderLine;
    if doc != [] {
      hide NoRepeatedField;
      var n := |doc| - 1;
      var init, last := doc[..n], doc[n];
      FieldsRoundTrip(init);
      RepeatedByLast(doc);
      assert Render(doc)[..n] == Render(init);
      LineMatches(last);
    }
  }

  lemma LineMatches(l: Line)
    requires Writable(l)
    ensures MatchField(RenderLine(l)) == if l.Item? then Some(Entry(Name(l.field), l.value)) else None
  {
    hide Name, MatchField;
    match l {
      case Prose(text) => ProseDoesNotMatch(text);
      case Item(f, value) => ItemMatches(f, value);
    }
  }

  lemma RenderedLineIsSingle(l: Line)
    requires Writable(l)
    ensures SingleLine(RenderLine(l))
  {
    if l.Item? {
      hide Name;
      NamesAreKeys(l.field);
    }
  }

  /** The same for the document as text. */
  lemma DocumentRoundTrip(doc: seq<Line>)
    requires (forall i :: 0 <= i < |doc| ==> Writable(doc[i])) && NoRepeatedField(doc)
    ensures Fields(SplitLines(Unlines(Render(doc)))) == Ok(Written(doc))
  {
    hide RenderLine, Writable, Fields, NoRepeatedField, SingleLine;
    forall i | 0 <= i < |doc| ensures SingleLine(Render(doc)[i]) {
      RenderedLineIsSingle(doc[i]);
    }
    SplitUnlines(Render(doc));
    FieldsRoundTrip(doc);
  }
}
