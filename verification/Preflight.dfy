/** The retrying preflight probe that precedes a load test. */
module Preflight {
  import opened Outcomes
  import opened Rounding
  import opened Text

  /** What one request brought, with the milliseconds the clock measured for it. */
  datatype Reply =
    | Response(status: nat, text: string, elapsed: real)
    | Raised(message: string, elapsed: real)

  datatype Check = Check(endpoint: string, attempt: nat, status: Option<nat>, ok: bool, latency: real, error: string)

  datatype Failure = Failure(endpoint: string, error: string)

  datatype Report = Report(passed: bool, attempts: nat, timeout: real, checks: seq<Check>, failures: seq<Failure>)

  /** The reply to an endpoint (by position) at an attempt (from 1). */
  type Replies = (nat, nat) -> Reply

  predicate Succeeds(reply: Reply) {
    reply.Response? && reply.status < 400
  }

  function OneLine(text: string): (s: string)
    ensures |s| == |text| && forall i :: 0 <= i < |s| ==> s[i] == if text[i] == '\n' then ' ' else text[i]
  {
    seq(|text|, i requires 0 <= i < |text| => if text[i] == '\n' then ' ' else text[i])
  }

  function Preview(text: string): string {
    var line := OneLine(text);
    if |line| <= 140 then line else line[..140]
  }

  function ErrorOf(reply: Reply): string {
    match reply
    case Raised(message, _) => message
    case Response(status, text, _) => if status < 400 then "" else "HTTP " + Decimal(status) + ": " + Preview(text)
  }

  function CheckOf(endpoint: string, attempt: nat, reply: Reply): Check {
    Check(endpoint, attempt, if reply.Response? then Some(reply.status) else None, Succeeds(reply),
          Round(Max(0.0, reply.elapsed), PLACES2), ErrorOf(reply))
  }

  function FailureOf(last: Check): Failure {
    Failure(last.endpoint, if last.error == "" then "preflight failed" else last.error)
  }

  // ----- what the log must be -----

  function Last<T>(s: seq<T>): T
    requires s != []
  {
    s[|s| - 1]
  }

  function Flatten<T>(blocks: seq<seq<T>>): seq<T> {
    if blocks == [] then [] else Flatten(blocks[..|blocks| - 1]) + Last(blocks)
  }

  /** One endpoint's entries: attempts from 1, only the last possibly ok, all of them when none is ok. */
  ghost predicate IsBlock(block: seq<Check>, endpoint: string, i: nat, replies: Replies, attempts: nat) {
    && 1 <= |block| <= attempts
    && (forall a :: 0 <= a < |block| ==> block[a] == CheckOf(endpoint, a + 1, replies(i, a + 1)))
    && (forall a :: 0 <= a < |block| - 1 ==> !block[a].ok)
    && (|block| < attempts ==> Last(block).ok)
  }

  ghost predicate AreBlocks(blocks: seq<seq<Check>>, endpoints: seq<string>, replies: Replies, attempts: nat) {
    |blocks| <= |endpoints| && forall i :: 0 <= i < |blocks| ==> IsBlock(blocks[i], endpoints[i], i, replies, attempts)
  }

  /** One entry for every block that never succeeded, in order, with its last error. */
  ghost function FailuresOf(blocks: seq<seq<Check>>): seq<Failure>
    requires forall i :: 0 <= i < |blocks| ==> blocks[i] != []
  {
    if blocks == [] then [] else
    var last := Last(Last(blocks));
    FailuresOf(blocks[..|blocks| - 1]) + if last.ok then [] else [FailureOf(last)]
  }

  ghost predicate IsLog(r: Report, blocks: seq<seq<Check>>, endpoints: seq<string>, replies: Replies, attempts: nat) {
    && |blocks| == |endpoints|
    && AreBlocks(blocks, endpoints, replies, attempts)
    && r.checks == Flatten(blocks)
    && r.failures == FailuresOf(blocks)
    && (r.passed <==> forall i :: 0 <= i < |blocks| ==> Last(blocks[i]).ok)
  }

  // ----- the loops -----

  lemma {:induction false} NoFailures(blocks: seq<seq<Check>>)
    requires forall i :: 0 <= i < |blocks| ==> blocks[i] != []
    ensures FailuresOf(blocks) == [] <==> forall i :: 0 <= i < |blocks| ==> Last(blocks[i]).ok
  {
    if blocks != [] {
      var init := blocks[..|blocks| - 1];
      NoFailures(init);
      assert forall i :: 0 <= i < |init| ==> init[i] == blocks[i];
    }
  }

  method BuildCheck(endpoint: string, attempt: nat, reply: Reply) returns (c: Check)
    ensures c == CheckOf(endpoint, attempt, reply)
  {
    hide Round, Decimal;
    var latency := Round(if reply.elapsed > 0.0 then reply.elapsed else 0.0, PLACES2);
    match reply {
      case Response(status, text, _) =>
        var line := seq(|text|, i requires 0 <= i < |text| => if text[i] == '\n' then ' ' else text[i]);
        assert line == OneLine(text);
        var preview := if |line| > 140 then line[..140] else line;
        var ok := status < 400;
        c := Check(endpoint, attempt, Some(status), ok, latency, if ok then "" else "HTTP " + Decimal(status) + ": " + preview);
      case Raised(message, _) =>
        c := Check(endpoint, attempt, None, false, latency, message);
    }
  }

  lemma CheckSucceeds(endpoint: string, attempt: nat, reply: Reply)
    ensures CheckOf(endpoint, attempt, reply).ok == Succeeds(reply)
  {
  }

  method ProbeEndpoint(endpoint: string, i: nat, replies: Replies, attempts: nat, before: seq<Check>)
    returns (checks: seq<Check>, passed: bool)
    requires attempts >= 1
    ensures before < checks
    ensures IsBlock(checks[|before|..], endpoint, i, replies, attempts)
    ensures passed == Last(checks).ok
  {
    hide Round, CheckOf;
    checks, passed := before, false;
    var attempt := 1;
    ghost var block := [];
    while attempt <= attempts
      invariant 1 <= attempt <= attempts + 1
      invariant !passed && |block| == attempt - 1 && checks == before + block
      invariant forall a :: 0 <= a < |block| ==> block[a] == CheckOf(endpoint, a + 1, replies(i, a + 1)) && !block[a].ok
    {
      var reply := replies(i, attempt);
      var entry := BuildCheck(endpoint, attempt, reply);
      CheckSucceeds(endpoint, attempt, reply);
      checks := checks + [entry];
      block := block + [entry];
      if entry.ok {
        passed := true;
        break;
      }
      attempt := attempt + 1;
    }
    assert checks[|before|..] == block;
  }

  method RunPreflightChecks(endpoints: seq<string>, replies: Replies, timeout: real, attempts: int) returns (r: Report)
    ensures (attempts >= 1 ==> r.attempts == attempts) && (attempts < 1 ==> r.attempts == 1)
    ensures (timeout >= 0.1 ==> r.timeout == timeout) && (timeout < 0.1 ==> r.timeout == 0.1)
    ensures exists blocks :: IsLog(r, blocks, endpoints, replies, r.attempts)
  {
    hide IsBlock, CheckOf;
    var limit: nat := if attempts > 1 then attempts else 1;
    var checks: seq<Check>, failures: seq<Failure> := [], [];
    ghost var blocks: seq<seq<Check>> := [];
    for i := 0 to |endpoints|
      invariant |blocks| == i && AreBlocks(blocks, endpoints, replies, limit)
      invariant forall j :: 0 <= j < i ==> blocks[j] != []
      invariant checks == Flatten(blocks) && failures == FailuresOf(blocks)
    {
      var more, passed := ProbeEndpoint(endpoints[i], i, replies, limit, checks);
      ghost var block := more[|checks|..];
      assert more == checks + block && Last(block) == Last(more);
      ghost var grown := blocks + [block];
      assert grown[..|grown| - 1] == blocks;
      assert forall j :: 0 <= j < |grown| ==> grown[j] == if j < |blocks| then blocks[j] else block;
      if !passed {
        var last := more[|more| - 1];
        var error := if last.error != "" then last.error else "preflight failed";
        failures := failures + [Failure(last.endpoint, error)];
      }
      checks, blocks := more, grown;
    }
    NoFailures(blocks);
    r := Report(failures == [], limit, Max(0.1, timeout), checks, failures);
    assert IsLog(r, blocks, endpoints, replies, limit);
  }

  // ----- what the log says -----

  /** The replies determine the block. */
  lemma BlockUnique(b: seq<Check>, c: seq<Check>, endpoint: string, i: nat, replies: Replies, attempts: nat)
    requires IsBlock(b, endpoint, i, replies, attempts) && IsBlock(c, endpoint, i, replies, attempts)
    ensures b == c
  {
    hide CheckOf;
    var shared := if |b| < |c| then |b| else |c|;
    assert b[shared - 1] == c[shared - 1];
  }

  /** Any two reports that log the same replies agree on entries, failures and verdict. */
  lemma LogUnique(r: Report, s: Report, bs: seq<seq<Check>>, cs: seq<seq<Check>>,
                  endpoints: seq<string>, replies: Replies, attempts: nat)
    requires IsLog(r, bs, endpoints, replies, attempts) && IsLog(s, cs, endpoints, replies, attempts)
    ensures bs == cs && r.checks == s.checks && r.failures == s.failures && r.passed == s.passed
  {
    forall i | 0 <= i < |bs| ensures bs[i] == cs[i] {
      BlockUnique(bs[i], cs[i], endpoints[i], i, replies, attempts);
    }
  }

  ghost predicate SomeAttemptSucceeds(i: nat, replies: Replies, attempts: nat) {
    exists a: nat :: 1 <= a <= attempts && Succeeds(replies(i, a))
  }

  lemma BlockEndsOk(block: seq<Check>, endpoint: string, i: nat, replies: Replies, attempts: nat)
    requires IsBlock(block, endpoint, i, replies, attempts)
    ensures Last(block).ok <==> SomeAttemptSucceeds(i, replies, attempts)
    ensures !Last(block).ok ==> |block| == attempts
    ensures Last(block) == CheckOf(endpoint, |block|, replies(i, |block|))
  {
    hide Round, ErrorOf;
    assert Last(block) == CheckOf(endpoint, |block|, replies(i, |block|));
    assert forall a :: 1 <= a <= |block| ==> block[a - 1].ok == Succeeds(replies(i, a));
  }

  /** The positions of the endpoints no attempt reached, in order. */
  ghost function Unreached(count: nat, replies: Replies, attempts: nat): seq<nat> {
    if count == 0 then [] else
    Unreached(count - 1, replies, attempts) + if SomeAttemptSucceeds(count - 1, replies, attempts) then [] else [count - 1]
  }

  /** Exactly the endpoints no attempt reached, each once, in order. */
  lemma {:induction false} UnreachedExact(count: nat, replies: Replies, attempts: nat)
    ensures forall i: nat :: i in Unreached(count, replies, attempts) <==> i < count && !SomeAttemptSucceeds(i, replies, attempts)
    ensures forall j, k :: 0 <= j < k < |Unreached(count, replies, attempts)| ==>
      Unreached(count, replies, attempts)[j] < Unreached(count, replies, attempts)[k]
  {
    hide SomeAttemptSucceeds;
    if count > 0 {
      UnreachedExact(count - 1, replies, attempts);
      var u := Unreached(count - 1, replies, attempts);
      assert forall j :: 0 <= j < |u| ==> u[j] in u;
    }
  }

  /** The k-th failure is that of the k-th listed endpoint, with the error of its last attempt. */
  ghost predicate Lists(failures: seq<Failure>, which: seq<nat>, endpoints: seq<string>, replies: Replies, attempts: nat) {
    && |failures| == |which|
    && forall k :: 0 <= k < |which| ==>
      which[k] < |endpoints| && failures[k] == FailureOf(CheckOf(endpoints[which[k]], attempts, replies(which[k], attempts)))
  }

  lemma {:induction false} FailuresAreUnreached(blocks: seq<seq<Check>>, endpoints: seq<string>, replies: Replies, attempts: nat)
    requires AreBlocks(blocks, endpoints, replies, attempts) && attempts >= 1
    requires forall i :: 0 <= i < |blocks| ==> blocks[i] != []
    ensures Lists(FailuresOf(blocks), Unreached(|blocks|, replies, attempts), endpoints, replies, attempts)
  {
    hide FailureOf, CheckOf, IsBlock;
    if blocks != [] {
      var n := |blocks| - 1;
      var init := blocks[..n];
      assert forall i :: 0 <= i < n ==> init[i] == blocks[i];
      FailuresAreUnreached(init, endpoints, replies, attempts);
      BlockEndsOk(blocks[n], endpoints[n], n, replies, attempts);
      assert Last(blocks) == blocks[n];
    }
  }

  /**
   * The report passes exactly when every endpoint succeeds within its attempts, and its failures are
   * the other endpoints in order, each with the error of its last attempt.
   */
  lemma PreflightMeaning(r: Report, endpoints: seq<string>, replies: Replies)
    requires exists blocks :: IsLog(r, blocks, endpoints, replies, r.attempts)
    requires r.attempts >= 1
    ensures r.passed <==> forall i :: 0 <= i < |endpoints| ==> SomeAttemptSucceeds(i, replies, r.attempts)
    ensures Lists(r.failures, Unreached(|endpoints|, replies, r.attempts), endpoints, replies, r.attempts)
  {
    hide FailureOf, CheckOf, SomeAttemptSucceeds;
    var blocks: seq<seq<Check>> :| IsLog(r, blocks, endpoints, replies, r.attempts);
    forall i | 0 <= i < |blocks| ensures Last(blocks[i]).ok <==> SomeAttemptSucceeds(i, replies, r.attempts) {
      BlockEndsOk(blocks[i], endpoints[i], i, replies, r.attempts);
    }
    FailuresAreUnreached(blocks, endpoints, replies, r.attempts);
  }
}
