/** The key-rotation drill: writing the evidence document and verifying it. */
module KeyRotation {
  import opened Outcomes
  import opened Text
  import opened Ordering
  import opened DrillDocument

  /** Instants are microseconds; days are counted from the same origin. */
  const SECOND: int := 1_000_000
  const DAY: int := 86_400_000_000

  function DayOf(instant: int): int {
    instant / DAY
  }

  function WholeSecond(instant: int): int {
    instant - instant % SECOND
  }

  function AgeDays(executed: int, now: int): real {
    (now - executed) as real / 86_400_000_000.0
  }

  /** ISO-8601 text of instants and days, and its readers. */
  datatype Calendar = Calendar(
    instant: int -> string, day: int -> string, readInstant: string -> Option<int>, readDay: string -> Option<int>)

  ghost predicate Faithful(c: Calendar) {
    && (forall t :: t % SECOND == 0 ==> WritableValue(c.instant(t)) && c.readInstant(c.instant(t)) == Some(t))
    && (forall d :: WritableValue(c.day(d)) && c.readDay(c.day(d)) == Some(d))
  }

  datatype Results = Results(
    pre: bool, newTokens: bool, oldTokens: bool, fallback: bool, rollback: bool, replay: bool, alert: bool, endpointGuard: bool)

  /** The outcomes the verifier requires; the endpoint guard is reported but not required. */
  predicate AllSeven(r: Results) {
    r.pre && r.newTokens && r.oldTokens && r.fallback && r.rollback && r.replay && r.alert
  }

  // ----- the document -----

  function TrueOrFalse(b: bool): string {
    if b then "true" else "false"
  }

  function Title(day: string): string {
    "# Enforcement Key " + "Rotation Drill Evidence (" + day + ")"
  }

  function Origin(): string {
    "Generated from live " + "enforcement test execution " + "for release gate " + "verification."
  }

  function DrillName(day: string): string {
    "KRD-" + day + "-ENF-RT"
  }

  function Metadata(c: Calendar, executed: int): seq<Line> {
    var day := c.day(DayOf(executed));
    [Prose(Title(day)), Prose(""), Prose(Origin()), Prose(""), Prose("## Metadata"), Prose(""),
     Item(DrillId, DrillName(day)), Item(ExecutedAt, c.instant(executed)), Item(Environment, "ci"),
     Item(Owner, "ci-security-oncall"), Item(Approver, "ci-platform-oncall"), Item(NextDue, c.day(DayOf(executed) + 90)),
     Prose("")]
  }

  function Validation(r: Results): seq<Line> {
    [Prose("## Validation Outcomes"), Prose(""),
     Item(PreRotation, TrueOrFalse(r.pre)), Item(NewTokens, TrueOrFalse(r.newTokens)),
     Item(OldTokens, TrueOrFalse(r.oldTokens)), Item(Fallback, TrueOrFalse(r.fallback)),
     Item(Rollback, TrueOrFalse(r.rollback)), Item(Replay, TrueOrFalse(r.replay)),
     Item(Alert, TrueOrFalse(r.alert)), Item(EndpointGuard, TrueOrFalse(r.endpointGuard)),
     Item(Status, "PASS"), Prose(""), Prose("## Executed Selectors"), Prose("")]
  }

  function PassOrFail(b: bool): string {
    if b then "pass" else "fail"
  }

  function SelectorLines(marks: seq<bool>): (r: seq<Line>)
    ensures |r| == |marks| && forall i :: 0 <= i < |marks| ==> r[i] == Item(SelectorResult(i + 1), PassOrFail(marks[i]))
  {
    seq(|marks|, i requires 0 <= i < |marks| => Item(SelectorResult(i + 1), PassOrFail(marks[i])))
  }

  /** Joining no selector lines still leaves one line break. */
  function Document(c: Calendar, r: Results, marks: seq<bool>, executed: int): seq<Line> {
    Metadata(c, executed) + Validation(r) + if marks == [] then [Prose("")] else SelectorLines(marks)
  }

  predicate IsDrillText(text: string, c: Calendar, r: Results, marks: seq<bool>, executed: int) {
    text == Unlines(Render(Document(c, r, marks, executed)))
  }

  predicate ResultOf(results: map<string, bool>, selector: string) {
    selector in results && results[selector]
  }

  function Marks(selectors: seq<string>, results: map<string, bool>): (m: seq<bool>)
    ensures |m| == |selectors| && forall i :: 0 <= i < |m| ==> m[i] == ResultOf(results, selectors[i])
  {
    seq(|selectors|, i requires 0 <= i < |selectors| => ResultOf(results, selectors[i]))
  }

  lemma {:induction false} JoinIsUnlines(lines: seq<string>)
    requires lines != []
    ensures Join(lines) + "\n" == Unlines(lines)
  {
    if |lines| > 1 {
      JoinIsUnlines(lines[1..]);
    } else {
      assert Unlines(lines[1..]) == "";
    }
  }

  lemma {:induction false} UnlinesConcat(a: seq<string>, b: seq<string>)
    ensures Unlines(a + b) == Unlines(a) + Unlines(b)
  {
    if a == [] {
      assert a + b == b;
    } else {
      assert (a + b)[1..] == a[1..] + b;
      UnlinesConcat(a[1..], b);
    }
  }

  lemma RenderConcat(a: seq<Line>, b: seq<Line>)
    ensures Render(a + b) == Render(a) + Render(b)
  {
    hide RenderLine;
  }

  method BuildMarkdown(c: Calendar, r: Results, logs: set<string>, results: map<string, bool>, now: int) returns (text: string)
    ensures exists selectors :: Lists(selectors, logs) && IsDrillText(text, c, r, Marks(selectors, results), WholeSecond(now))
  {
    hide RenderLine, Metadata, Validation, Lists;
    var executed := now - now % 1000000;
    assert executed == WholeSecond(now);
    var selectors := Sorted(logs);
    var lines: seq<string> := [];
    ghost var marks := Marks(selectors, results);
    for i := 0 to |selectors|
      invariant lines == Render(SelectorLines(marks[..i]))
    {
      var word := "fail";
      if selectors[i] in results && results[selectors[i]] { word := "pass"; }
      lines := lines + [RenderLine(Item(SelectorResult(|lines| + 1), word))];
    }
    assert marks[..|selectors|] == marks;
    var head := Metadata(c, executed) + Validation(r);
    text := Unlines(Render(head)) + Join(lines) + "\n";
    ghost var tail := if marks == [] then [Prose("")] else SelectorLines(marks);
    RenderConcat(head, tail);
    UnlinesConcat(Render(head), Render(tail));
    if marks == [] {
      BlankLine();
      assert Unlines(Render(head)) + "" + "\n" == Unlines(Render(head)) + "\n";
    } else {
      JoinIsUnlines(lines);
      assert text == Unlines(Render(head)) + (Join(lines) + "\n");
    }
  }

  lemma BlankLine()
    ensures Unlines(Render([Prose("")])) == "\n"
  {
    assert Render([Prose("")]) == [""];
    assert Unlines([""]) == "" + "\n" + Unlines([""][1..]);
    assert [""][1..] == [];
  }

  // ----- the verifier -----

  const TEXT_FIELDS: seq<string> := ["drill_id", "environment", "owner", "approver", "post_drill_status"]
  const BOOL_FIELDS: seq<string> := [
    "pre_rotation_tokens_accepted", "post_rotation_new_tokens_accepted", "post_rotation_old_tokens_rejected",
    "fallback_verification_passed", "rollback_validation_passed", "replay_protection_intact", "alert_pipeline_verified"]

  function Get(fields: map<string, string>, name: string): string {
    if name in fields then fields[name] else ""
  }

  function ParseBool(value: string): Option<bool> {
    var v := Lower(Strip(value));
    if v in {"true", "yes", "1"} then Some(true) else if v in {"false", "no", "0"} then Some(false) else None
  }

  function ReadNonBlank(read: string -> Option<int>, value: string): Option<int> {
    if Strip(value) == "" then None else read(Strip(value))
  }

  /** Principals, status and outcomes. */
  ghost predicate ContentsOk(fields: map<string, string>) {
    && (forall i :: 0 <= i < |TEXT_FIELDS| ==> Strip(Get(fields, TEXT_FIELDS[i])) != "")
    && Upper(Strip(Get(fields, "post_drill_status"))) == "PASS"
    && Strip(Get(fields, "owner")) != Strip(Get(fields, "approver"))
    && (forall i :: 0 <= i < |BOOL_FIELDS| ==> ParseBool(Get(fields, BOOL_FIELDS[i])) == Some(true))
  }

  predicate DatesOk(executed: int, due: int, now: int, maxAge: real) {
    && executed <= now + 300 * SECOND
    && maxAge > 0.0
    && AgeDays(executed, now) <= maxAge
    && due >= DayOf(executed)
    && due >= DayOf(now)
  }

  ghost predicate DrillAccepted(fields: map<string, string>, c: Calendar, now: int, maxAge: real) {
    && ContentsOk(fields)
    && var executed := ReadNonBlank(c.readInstant, Get(fields, "executed_at_utc"));
      var due := ReadNonBlank(c.readDay, Get(fields, "next_drill_due_on"));
      executed.Some? && due.Some? && DatesOk(executed.value, due.value, now, maxAge)
  }

  method ReadBool(value: string) returns (b: Option<bool>)
    ensures b == ParseBool(value)
  {
    hide Strip, Lower;
    var word := Lower(Strip(value));
    if word == "true" || word == "yes" || word == "1" { return Some(true); }
    if word == "false" || word == "no" || word == "0" { return Some(false); }
    return None;
  }

  method CheckContents(fields: map<string, string>) returns (v: Verdict)
    ensures v.Accept? <==> ContentsOk(fields)
  {
    hide Strip, Lower, Upper, ParseBool, Get;
    for i := 0 to |TEXT_FIELDS|
      invariant forall j :: 0 <= j < i ==> Strip(Get(fields, TEXT_FIELDS[j])) != ""
    {
      if Strip(Get(fields, TEXT_FIELDS[i])) == "" { return Reject("missing text field"); }
    }
    if Upper(Strip(Get(fields, "post_drill_status"))) != "PASS" { return Reject("status"); }
    if Strip(Get(fields, "owner")) == Strip(Get(fields, "approver")) { return Reject("same principal"); }
    for i := 0 to |BOOL_FIELDS|
      invariant forall j :: 0 <= j < i ==> ParseBool(Get(fields, BOOL_FIELDS[j])) == Some(true)
    {
      var outcome := ReadBool(Get(fields, BOOL_FIELDS[i]));
      if outcome != Some(true) { return Reject("outcome not true"); }
    }
    return Accept;
  }

  method VerifyDrill(text: string, c: Calendar, now: int, maxAge: real) returns (v: Verdict)
    ensures v.Accept? <==>
      Fields(SplitLines(text)).Ok? && DrillAccepted(Fields(SplitLines(text)).value, c, now, maxAge)
  {
    hide ContentsOk, Get, ReadNonBlank, AgeDays, DayOf, Fields;
    var extracted := ExtractFields(text);
    if extracted.Error? { return Reject(extracted.message); }
    var fields := extracted.value;
    var contents := CheckContents(fields);
    if contents.Reject? { return contents; }
    var executed := ReadNonBlank(c.readInstant, Get(fields, "executed_at_utc"));
    if executed.None? { return Reject("executed_at_utc"); }
    var due := ReadNonBlank(c.readDay, Get(fields, "next_drill_due_on"));
    if due.None? { return Reject("next_drill_due_on"); }
    if executed.value > now + 300 * SECOND { return Reject("in the future"); }
    if maxAge <= 0.0 { return Reject("max age"); }
    if AgeDays(executed.value, now) > maxAge { return Reject("too old"); }
    if due.value < DayOf(executed.value) { return Reject("due before drill"); }
    if due.value < DayOf(now) { return Reject("due in the past"); }
    return Accept;
  }
}
