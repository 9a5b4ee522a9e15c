/** When the drill verifier accepts what the drill generator writes. */
module KeyRotationAcceptance {
  import opened Outcomes
  import opened Text
  import opened Ordering
  import opened DrillDocument
  import opened KeyRotation

  // ----- the document is well formed -----

  /** Where each field stands in the document. */
  function Position(f: Field): int {
    match f
    case DrillId => 6 case ExecutedAt => 7 case Environment => 8 case Owner => 9 case Approver => 10 case NextDue => 11
    case PreRotation => 15 case NewTokens => 16 case OldTokens => 17 case Fallback => 18 case Rollback => 19
    case Replay => 20 case Alert => 21 case EndpointGuard => 22 case Status => 23
    case SelectorResult(n) => 26 + n
  }

  lemma DocumentPositions(c: Calendar, r: Results, marks: seq<bool>, executed: int, i: nat)
    requires i < |Document(c, r, marks, executed)| && Document(c, r, marks, executed)[i].Item?
    ensures Position(Document(c, r, marks, executed)[i].field) == i
  {
    hide Title, Origin, DrillName, TrueOrFalse, PassOrFail;
    var m, v := Metadata(c, executed), Validation(r);
    assert |m| == 13 && |v| == 14;
    if i < 13 {
      assert Document(c, r, marks, executed)[i] == m[i];
    } else if i < 27 {
      assert Document(c, r, marks, executed)[i] == v[i - 13];
    }
  }

  lemma DocumentHasNoRepeats(c: Calendar, r: Results, marks: seq<bool>, executed: int)
    ensures NoRepeatedField(Document(c, r, marks, executed))
  {
    hide Document, Position;
    var doc := Document(c, r, marks, executed);
    forall i, j | 0 <= i < j < |doc| && doc[i].Item? && doc[j].Item? ensures doc[i].field != doc[j].field {
      DocumentPositions(c, r, marks, executed, i);
      DocumentPositions(c, r, marks, executed, j);
    }
  }

  lemma ProseWritable(day: string)
    requires SingleLine(day)
    ensures Writable(Prose(Title(day))) && Writable(Prose(""))
  {
    var a, b := "# Enforcement Key ", "Rotation Drill Evidence (";
    assert SingleLine(a) && SingleLine(b) && a[0] == '#';
  }

  lemma OriginWritable()
    ensures Writable(Prose(Origin()))
  {
    var a, b := "Generated from live " + "enforcement test execution ", "for release gate " + "verification.";
    assert SingleLine(a) && a[0] == 'G';
    assert SingleLine(b);
    assert Origin() == a + b;
    hide SingleLine;
    SingleLineConcat(a, b);
  }

  lemma HeadingWritable()
    ensures Writable(Prose("## Metadata")) && Writable(Prose("## Validation Outcomes"))
  {
    assert "## Metadata"[0] == '#' && "## Validation Outcomes"[0] == '#';
  }

  lemma LastHeadingWritable()
    ensures Writable(Prose("## Executed Selectors"))
  {
    assert "## Executed Selectors"[0] == '#';
  }

  lemma ConstantsWritable()
    ensures WritableValue("ci") && WritableValue("ci-security-oncall") && WritableValue("ci-platform-oncall")
  {
  }

  lemma VerdictsWritable()
    ensures WritableValue("true") && WritableValue("false") && WritableValue("pass") && WritableValue("fail") && WritableValue("PASS")
  {
  }

  lemma DrillNameWritable(day: string)
    requires SingleLine(day)
    ensures WritableValue(DrillName(day))
  {
    var a, b := "KRD-", "-ENF-RT";
    assert SingleLine(a) && SingleLine(b);
    var s := DrillName(day);
    assert s[0] == 'K' && s[|s| - 1] == 'T';
  }

  lemma MetadataWritable(c: Calendar, executed: int)
    requires Faithful(c) && executed % SECOND == 0
    ensures forall i :: 0 <= i < |Metadata(c, executed)| ==> Writable(Metadata(c, executed)[i])
  {
    var day := c.day(DayOf(executed));
    assert WritableValue(day) && WritableValue(c.day(DayOf(executed) + 90)) && WritableValue(c.instant(executed));
    assert SingleLine(day);
    ProseWritable(day);
    OriginWritable();
    HeadingWritable();
    ConstantsWritable();
    DrillNameWritable(day);
    hide Title, Origin, DrillName, SingleLine, Trimmed, Faithful, IsSpace;
  }

  lemma ValidationWritable(r: Results, marks: seq<bool>)
    ensures forall i :: 0 <= i < |Validation(r)| ==> Writable(Validation(r)[i])
    ensures forall i :: 0 <= i < |marks| ==> Writable(SelectorLines(marks)[i])
    ensures Writable(Prose(""))
  {
    HeadingWritable();
    LastHeadingWritable();
    VerdictsWritable();
    hide SingleLine, Trimmed, IsSpace;
    ProseWritableEmpty();
  }

  lemma ProseWritableEmpty()
    ensures Writable(Prose(""))
  {
  }

  lemma DocumentWritable(c: Calendar, r: Results, marks: seq<bool>, executed: int)
    requires Faithful(c) && executed % SECOND == 0
    ensures forall i :: 0 <= i < |Document(c, r, marks, executed)| ==> Writable(Document(c, r, marks, executed)[i])
  {
    MetadataWritable(c, executed);
    ValidationWritable(r, marks);
    hide Metadata, Validation, Writable;
  }

  /** Extraction returns every written field, with no duplicate, for any number of selectors. */
  lemma DrillRoundTrip(c: Calendar, r: Results, marks: seq<bool>, executed: int, text: string)
    requires Faithful(c) && executed % SECOND == 0 && IsDrillText(text, c, r, marks, executed)
    ensures Fields(SplitLines(text)) == Ok(Written(Document(c, r, marks, executed)))
  {
    hide Document, Fields, SplitLines, Faithful;
    DocumentWritable(c, r, marks, executed);
    DocumentHasNoRepeats(c, r, marks, executed);
    DocumentRoundTrip(Document(c, r, marks, executed));
  }

  // ----- what the verifier reads -----

  lemma Reads(c: Calendar, r: Results, marks: seq<bool>, executed: int, i: nat)
    requires i < |Document(c, r, marks, executed)| && Document(c, r, marks, executed)[i].Item?
    ensures var l := Document(c, r, marks, executed)[i]; Get(Written(Document(c, r, marks, executed)), Name(l.field)) == l.value
  {
    hide Document;
    DocumentHasNoRepeats(c, r, marks, executed);
    WrittenValue(Document(c, r, marks, executed), i);
  }

  lemma ReadsMetadata(c: Calendar, r: Results, marks: seq<bool>, executed: int, k: nat)
    requires k < |Metadata(c, executed)| && Metadata(c, executed)[k].Item?
    ensures Get(Written(Document(c, r, marks, executed)), Name(Metadata(c, executed)[k].field)) == Metadata(c, executed)[k].value
  {
    hide Written, Get, Metadata, Validation, SelectorLines;
    Reads(c, r, marks, executed, k);
  }

  lemma ReadsValidation(c: Calendar, r: Results, marks: seq<bool>, executed: int, k: nat)
    requires k < |Validation(r)| && Validation(r)[k].Item?
    ensures Get(Written(Document(c, r, marks, executed)), Name(Validation(r)[k].field)) == Validation(r)[k].value
  {
    hide Written, Get, Metadata, Validation, SelectorLines;
    Reads(c, r, marks, executed, |Metadata(c, executed)| + k);
  }

  lemma ReadsDates(c: Calendar, r: Results, marks: seq<bool>, executed: int)
    ensures Get(Written(Document(c, r, marks, executed)), "executed_at_utc") == c.instant(executed)
    ensures Get(Written(Document(c, r, marks, executed)), "next_drill_due_on") == c.day(DayOf(executed) + 90)
  {
    hide Written, Get, DrillName, Title, Origin, Document;
    ReadsMetadata(c, r, marks, executed, 7);
    ReadsMetadata(c, r, marks, executed, 11);
  }

  lemma ReadsPrincipals(c: Calendar, r: Results, marks: seq<bool>, executed: int)
    ensures Get(Written(Document(c, r, marks, executed)), "drill_id") == DrillName(c.day(DayOf(executed)))
    ensures Get(Written(Document(c, r, marks, executed)), "environment") == "ci"
    ensures Get(Written(Document(c, r, marks, executed)), "owner") == "ci-security-oncall"
    ensures Get(Written(Document(c, r, marks, executed)), "approver") == "ci-platform-oncall"
    ensures Get(Written(Document(c, r, marks, executed)), "post_drill_status") == "PASS"
  {
    hide Written, Get, DrillName, Title, Origin, Document, TrueOrFalse;
    ReadsMetadata(c, r, marks, executed, 6);
    ReadsMetadata(c, r, marks, executed, 8);
    ReadsMetadata(c, r, marks, executed, 9);
    ReadsMetadata(c, r, marks, executed, 10);
    ReadsValidation(c, r, marks, executed, 10);
  }

  /** The outcome each required field reports. */
  function Outcome(r: Results, k: nat): bool
    requires k < |BOOL_FIELDS|
  {
    [r.pre, r.newTokens, r.oldTokens, r.fallback, r.rollback, r.replay, r.alert][k]
  }

  lemma ReadsOutcome(c: Calendar, r: Results, marks: seq<bool>, executed: int, k: nat)
    requires k < |BOOL_FIELDS|
    ensures Get(Written(Document(c, r, marks, executed)), BOOL_FIELDS[k]) == TrueOrFalse(Outcome(r, k))
  {
    hide Written, Get, Document, TrueOrFalse, Validation, Name, Outcome;
    ValidationAt(r, k);
    RequiredName(k);
    ReadsValidation(c, r, marks, executed, k + 2);
  }

  lemma ValidationAt(r: Results, k: nat)
    requires k < |REQUIRED|
    ensures k + 2 < |Validation(r)| && Validation(r)[k + 2] == Item(REQUIRED[k], TrueOrFalse(Outcome(r, k)))
  {
    hide TrueOrFalse;
    assert k == 0 || k == 1 || k == 2 || k == 3 || k == 4 || k == 5 || k == 6;
  }

  /** The outcomes the generator writes, in the order in which the verifier asks for them. */
  const REQUIRED: seq<Field> := [PreRotation, NewTokens, OldTokens, Fallback, Rollback, Replay, Alert]

  /** The two scripts spell the required names alike. */
  lemma RequiredName(k: nat)
    requires k < |BOOL_FIELDS|
    ensures Name(REQUIRED[k]) == BOOL_FIELDS[k]
  {
    assert k == 0 || k == 1 || k == 2 || k == 3 || k == 4 || k == 5 || k == 6;
  }

  // ----- the verdict -----

  lemma ParsesTrueOrFalse(b: bool)
    ensures ParseBool(TrueOrFalse(b)) == Some(b)
  {
    TrimmedStrip("true");
    TrimmedStrip("false");
    assert Lower("true") == "true" && Lower("false") == "false";
    assert "false" != "true" && "false" != "yes" && "false" != "1" by {
      assert |"false"| == 5 && |"true"| == 4 && |"yes"| == 3 && |"1"| == 1;
    }
  }

  lemma PrincipalsOk(day: string)
    requires SingleLine(day)
    ensures Strip("ci") != "" && Strip("ci-security-oncall") != Strip("ci-platform-oncall")
    ensures Strip("ci-security-oncall") != "" && Strip("ci-platform-oncall") != ""
    ensures Strip(DrillName(day)) != "" && Upper(Strip("PASS")) == "PASS" && Strip("PASS") != ""
  {
    TrimmedStrip("ci");
    TrimmedStrip("ci-security-oncall");
    TrimmedStrip("ci-platform-oncall");
    TrimmedStrip("PASS");
    DrillNameWritable(day);
    TrimmedStrip(DrillName(day));
    hide Strip;
    assert "ci-security-oncall"[3] != "ci-platform-oncall"[3];
    assert Upper("PASS") == "PASS";
  }

  lemma SevenOutcomes(r: Results)
    ensures AllSeven(r) <==> forall k :: 0 <= k < |BOOL_FIELDS| ==> Outcome(r, k)
  {
    assert AllSeven(r) ==> forall k :: 0 <= k < |BOOL_FIELDS| ==> Outcome(r, k);
    assert Outcome(r, 0) == r.pre && Outcome(r, 1) == r.newTokens && Outcome(r, 2) == r.oldTokens && Outcome(r, 3) == r.fallback;
    assert Outcome(r, 4) == r.rollback && Outcome(r, 5) == r.replay && Outcome(r, 6) == r.alert;
  }

  /** The status is always written as PASS; only the seven outcomes decide. */
  lemma ContentsOkIffAllSeven(c: Calendar, r: Results, marks: seq<bool>, executed: int)
    requires Faithful(c)
    ensures ContentsOk(Written(Document(c, r, marks, executed))) <==> AllSeven(r)
  {
    hide Document, Written, Get, DrillName, TrueOrFalse, ParseBool, Strip, Upper, Outcome, AllSeven;
    ReadsPrincipals(c, r, marks, executed);
    assert WritableValue(c.day(DayOf(executed)));
    PrincipalsOk(c.day(DayOf(executed)));
    SevenOutcomes(r);
    forall k | 0 <= k < |BOOL_FIELDS|
      ensures ParseBool(Get(Written(Document(c, r, marks, executed)), BOOL_FIELDS[k])) == Some(Outcome(r, k))
    {
      ReadsOutcome(c, r, marks, executed, k);
      ParsesTrueOrFalse(Outcome(r, k));
    }
  }

  /** The clock conditions under which fresh evidence is still accepted. */
  predicate ClockOk(executed: int, now: int, maxAge: real) {
    && executed <= now + 300 * SECOND
    && maxAge > 0.0
    && AgeDays(executed, now) <= maxAge
    && DayOf(now) <= DayOf(executed) + 90
  }

  lemma ReadsBack(c: Calendar, executed: int)
    requires Faithful(c) && executed % SECOND == 0
    ensures ReadNonBlank(c.readInstant, c.instant(executed)) == Some(executed)
    ensures ReadNonBlank(c.readDay, c.day(DayOf(executed) + 90)) == Some(DayOf(executed) + 90)
  {
    TrimmedStrip(c.instant(executed));
    TrimmedStrip(c.day(DayOf(executed) + 90));
  }

  /** The verifier accepts exactly when all seven outcomes are true and the clock conditions hold. */
  lemma DrillAcceptance(c: Calendar, r: Results, marks: seq<bool>, executed: int, text: string, now: int, maxAge: real)
    requires Faithful(c) && executed % SECOND == 0 && IsDrillText(text, c, r, marks, executed)
    ensures Fields(SplitLines(text)).Ok?
    ensures DrillAccepted(Fields(SplitLines(text)).value, c, now, maxAge) <==> AllSeven(r) && ClockOk(executed, now, maxAge)
  {
    hide Document, Written, Get, ContentsOk, AllSeven, Fields, SplitLines, Faithful, ReadNonBlank, AgeDays, DayOf, IsDrillText;
    DrillRoundTrip(c, r, marks, executed, text);
    ContentsOkIffAllSeven(c, r, marks, executed);
    ReadsDates(c, r, marks, executed);
    ReadsBack(c, executed);
  }

  /** Up to ninety days, a clock advance within the age limit never matters. */
  lemma WithinNinetyDays(executed: int, now: int, maxAge: real)
    requires 0.0 < maxAge <= 90.0 && executed <= now && AgeDays(executed, now) <= maxAge
    ensures ClockOk(executed, now, maxAge)
  {
    assert (now - executed) as real <= 90.0 * 86_400_000_000.0;
    assert now <= executed + 90 * DAY;
    assert DayOf(executed + 90 * DAY) == DayOf(executed) + 90;
  }

  /** With a clock advance inside a positive age limit, only the outcomes and the written due date decide. */
  lemma FreshEvidence(c: Calendar, r: Results, marks: seq<bool>, executed: int, text: string, now: int, maxAge: real)
    requires Faithful(c) && executed % SECOND == 0 && IsDrillText(text, c, r, marks, executed)
    requires maxAge > 0.0 && executed <= now && AgeDays(executed, now) <= maxAge
    ensures Fields(SplitLines(text)).Ok?
    ensures DrillAccepted(Fields(SplitLines(text)).value, c, now, maxAge) <==> AllSeven(r) && DayOf(now) <= DayOf(executed) + 90
    ensures maxAge <= 90.0 ==> (DrillAccepted(Fields(SplitLines(text)).value, c, now, maxAge) <==> AllSeven(r))
  {
    hide Faithful, IsDrillText, Fields, SplitLines, DrillAccepted, AllSeven, AgeDays, DayOf;
    DrillAcceptance(c, r, marks, executed, text, now, maxAge);
    if maxAge <= 90.0 {
      WithinNinetyDays(executed, now, maxAge);
    }
  }

  /** Beyond, the written due date decides: with every outcome true, 91 days are refused under the default limit of 120. */
  lemma DefaultLimitCutShort(c: Calendar, r: Results, marks: seq<bool>, executed: int, text: string)
    requires Faithful(c) && executed % SECOND == 0 && IsDrillText(text, c, r, marks, executed) && AllSeven(r)
    ensures Fields(SplitLines(text)).Ok?
    ensures AgeDays(executed, executed + 91 * DAY) == 91.0 && !DrillAccepted(Fields(SplitLines(text)).value, c, executed + 91 * DAY, 120.0)
    ensures DrillAccepted(Fields(SplitLines(text)).value, c, executed + 90 * DAY, 120.0)
  {
    hide Faithful, IsDrillText, Fields, SplitLines, DrillAccepted;
    DrillAcceptance(c, r, marks, executed, text, executed + 91 * DAY, 120.0);
    DrillAcceptance(c, r, marks, executed, text, executed + 90 * DAY, 120.0);
  }

  // ----- the generator's main -----

  method GenerateDrillEvidence(
    c: Calendar, r: Results, logs: set<string>, results: map<string, bool>, allowFailures: bool,
    written: int, verified: int, maxAge: real) returns (v: Verdict)
    requires Faithful(c)
    ensures v.Accept? <==>
      AllSeven(r) && (r.endpointGuard || allowFailures) && ClockOk(WholeSecond(written), verified, maxAge)
  {
    hide Faithful, ClockOk, IsDrillText, Fields, DrillAccepted, SplitLines, Lists;
    if !(AllSeven(r) && r.endpointGuard) && !allowFailures {
      return Reject("live checks failed");
    }
    var text := BuildMarkdown(c, r, logs, results, written);
    v := VerifyDrill(text, c, verified, maxAge);
    ghost var selectors :| Lists(selectors, logs) && IsDrillText(text, c, r, Marks(selectors, results), WholeSecond(written));
    DrillAcceptance(c, r, Marks(selectors, results), WholeSecond(written), text, verified, maxAge);
  }
}
