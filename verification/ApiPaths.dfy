/** Matching frontend request paths against backend route templates. */
module ApiPaths {
  import opened Text

  /** The non-empty segments between slashes. */
  function Parts(path: string): seq<string>
    decreases |path|
  {
    if path == "" then [] else
    var k := FirstIndex(path, '/');
    var rest := if k == |path| then "" else path[k + 1..];
    (if k == 0 then [] else [path[..k]]) + Parts(rest)
  }

  /** A segment written in braces stands for one arbitrary segment. */
  predicate IsParameter(part: string) {
    part != "" && part[0] == '{' && part[|part| - 1] == '}'
  }

  /** A parameter is some text, possibly none, inside one pair of braces. */
  lemma ParameterLaw(part: string)
    ensures IsParameter(part) <==> exists name :: part == "{" + name + "}"
  {
    if IsParameter(part) {
      assert part == "{" + part[1..|part| - 1] + "}";
    }
  }

  predicate SegmentsMatch(front: seq<string>, back: seq<string>) {
    && |front| == |back|
    && forall i :: 0 <= i < |front| ==> IsParameter(back[i]) || IsParameter(front[i]) || front[i] == back[i]
  }

  predicate PathMatches(front: string, back: string) {
    front == back || SegmentsMatch(Parts(front), Parts(back))
  }

  // ----- overlap of templates -----

  predicate IsSegment(s: string) {
    s != "" && '/' !in s
  }

  ghost predicate AreSegments(s: seq<string>) {
    forall i :: 0 <= i < |s| ==> IsSegment(s[i])
  }

  /** The template accepts the concrete segments. */
  ghost predicate Accepts(template: seq<string>, concrete: seq<string>) {
    |template| == |concrete| && forall i :: 0 <= i < |template| ==> IsParameter(template[i]) || template[i] == concrete[i]
  }

  function Url(segments: seq<string>): string {
    if segments == [] then "" else "/" + segments[0] + Url(segments[1..])
  }

  /** Some concrete path is accepted by both templates. */
  ghost predicate Overlap(front: string, back: string) {
    exists concrete :: AreSegments(concrete) && Accepts(Parts(front), concrete) && Accepts(Parts(back), concrete)
  }

  lemma {:induction false} PartsAreSegments(path: string)
    ensures AreSegments(Parts(path))
    decreases |path|
  {
    if path != "" {
      var k := FirstIndex(path, '/');
      if k < |path| {
        PartsAreSegments(path[k + 1..]);
      }
    }
  }

  lemma PartsOfPlain(s: string)
    requires '/' !in s
    ensures Parts(s) == if s == "" then [] else [s]
  {
    if s != "" {
      assert FirstIndex(s, '/') == |s| && s[..|s|] == s;
      assert Parts("") == [];
    }
  }

  lemma PartsAtSlash(path: string, k: nat)
    requires k < |path| && path[k] == '/' && '/' !in path[..k]
    ensures Parts(path) == Parts(path[..k]) + Parts(path[k + 1..])
  {
    FirstIndexAt(path, k, '/');
    PartsOfPlain(path[..k]);
  }

  lemma {:induction false} PartsAcrossSlash(a: string, b: string)
    ensures Parts(a + "/" + b) == Parts(a) + Parts(b)
    decreases |a|
  {
    hide Parts, FirstIndex;
    var path := a + "/" + b;
    var k := FirstIndex(a, '/');
    assert path[..k] == a[..k] && path[k] == '/';
    PartsAtSlash(path, k);
    if k < |a| {
      var rest := a[k + 1..];
      assert path[k + 1..] == rest + "/" + b;
      PartsAtSlash(a, k);
      PartsAcrossSlash(rest, b);
    } else {
      assert a[..k] == a && path[k + 1..] == b;
    }
  }

  /** Splitting a concrete path gives its segments back. */
  lemma {:induction false} PartsOfUrl(segments: seq<string>)
    requires AreSegments(segments)
    ensures Parts(Url(segments)) == segments
  {
    hide Parts;
    if segments == [] {
      PartsOfPlain("");
    } else {
      var init, last := segments[..|segments| - 1], segments[|segments| - 1];
      PartsOfUrl(init);
      UrlOfLast(init, last);
      assert segments == init + [last];
      PartsAcrossSlash(Url(init), last);
      PartsOfPlain(last);
    }
  }

  lemma {:induction false} UrlOfLast(init: seq<string>, last: string)
    ensures Url(init + [last]) == Url(init) + "/" + last
  {
    if init == [] {
      assert init + [last] == [last] && [last][1..] == [];
    } else {
      assert (init + [last])[1..] == init[1..] + [last];
      UrlOfLast(init[1..], last);
    }
  }

  lemma MatchingSegmentsOverlap(front: seq<string>, back: seq<string>) returns (concrete: seq<string>)
    requires SegmentsMatch(front, back) && AreSegments(front) && AreSegments(back)
    ensures AreSegments(concrete) && Accepts(front, concrete) && Accepts(back, concrete)
  {
    concrete := seq(|front|, i requires 0 <= i < |front| => if IsParameter(front[i]) then back[i] else front[i]);
  }

  /** A path matches a route exactly when some concrete path is accepted by both. */
  lemma PathMatchesIsOverlap(front: string, back: string)
    ensures PathMatches(front, back) <==> Overlap(front, back)
  {
    hide Parts, IsParameter, IsSegment;
    PartsAreSegments(front);
    PartsAreSegments(back);
    if PathMatches(front, back) {
      var concrete := MatchingSegmentsOverlap(Parts(front), Parts(back));
    }
  }

  /** Hence matching is symmetric, and repeated slashes anywhere make no difference. */
  lemma PathMatchesSymmetric(front: string, back: string)
    ensures PathMatches(front, back) == PathMatches(back, front)
  {
    PathMatchesIsOverlap(front, back);
    PathMatchesIsOverlap(back, front);
  }

  lemma RepeatedSlashesIgnored(a: string, b: string, other: string)
    ensures PathMatches(a + "/" + "/" + b, other) == PathMatches(a + "/" + b, other)
    ensures PathMatches(other, a + "/" + "/" + b) == PathMatches(other, a + "/" + b)
  {
    hide PathMatches, Parts;
    PartsAcrossSlash(a, b);
    PartsAcrossSlash(a + "/", b);
    PartsAcrossSlash(a, "");
    assert a + "/" + "" == a + "/";
    PartsOfPlain("");
    PathMatchesIsOverlap(a + "/" + "/" + b, other);
    PathMatchesIsOverlap(a + "/" + b, other);
    PathMatchesSymmetric(a + "/" + "/" + b, other);
    PathMatchesSymmetric(a + "/" + b, other);
  }
}
