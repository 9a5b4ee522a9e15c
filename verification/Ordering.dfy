/** Strings in code-point order, and the keys of a dictionary sorted that way. */
module Ordering {

  /** Code-point order. */
  predicate Less(a: string, b: string) {
    b != "" && (a == "" || a[0] < b[0] || (a[0] == b[0] && Less(a[1..], b[1..])))
  }

  /** The first character that differs decides; a prefix comes first. */
  lemma {:induction false} LessLaw(p: string, s: string, t: string)
    ensures s == "" && t != "" ==> Less(p + s, p + t)
    ensures s != "" && t != "" && s[0] < t[0] ==> Less(p + s, p + t)
  {
    if p == "" {
      assert p + s == s && p + t == t;
    } else {
      assert (p + s)[1..] == p[1..] + s && (p + t)[1..] == p[1..] + t;
      LessLaw(p[1..], s, t);
    }
  }

  lemma {:induction false} LessTrans(a: string, b: string, c: string)
    requires Less(a, b) && Less(b, c)
    ensures Less(a, c)
  {
    if a != "" && a[0] == b[0] && b[0] == c[0] {
      LessTrans(a[1..], b[1..], c[1..]);
    }
  }

  lemma {:induction false} LessTotal(a: string, b: string)
    ensures Less(a, b) || Less(b, a) || a == b
  {
    if a != "" && b != "" && a[0] == b[0] {
      LessTotal(a[1..], b[1..]);
      assert a == [a[0]] + a[1..] && b == [b[0]] + b[1..];
    }
  }

  lemma {:induction false} LessIrreflexive(a: string)
    ensures !Less(a, a)
  {
    if a != "" {
      LessIrreflexive(a[1..]);
    }
  }

  ghost predicate Ascending(s: seq<string>) {
    forall i, j :: 0 <= i < j < |s| ==> Less(s[i], s[j])
  }

  /** The keys in order, each once. */
  ghost predicate Lists(s: seq<string>, keys: set<string>) {
    Ascending(s) && forall k :: k in s <==> k in keys
  }

  method Insert(s: seq<string>, k: string) returns (r: seq<string>)
    requires Ascending(s) && k !in s
    ensures Ascending(r) && forall x :: x in r <==> x in s || x == k
  {
    hide Less;
    var i := 0;
    while i < |s| && Less(s[i], k)
      invariant i <= |s| && forall j :: 0 <= j < i ==> Less(s[j], k)
    {
      i := i + 1;
    }
    forall j | i <= j < |s| ensures Less(k, s[j]) {
      LessTotal(s[i], k);
      if i < j {
        LessTrans(k, s[i], s[j]);
      }
    }
    r := s[..i] + [k] + s[i..];
  }

  method Sorted(keys: set<string>) returns (r: seq<string>)
    ensures Lists(r, keys)
  {
    r := [];
    var rest := keys;
    while rest != {}
      invariant rest <= keys && Lists(r, keys - rest)
      decreases |rest|
    {
      var k :| k in rest;
      r := Insert(r, k);
      rest := rest - {k};
    }
  }

  /** A set has one sorted listing. */
  lemma {:induction false} ListingUnique(s: seq<string>, t: seq<string>, keys: set<string>)
    requires Lists(s, keys) && Lists(t, keys)
    ensures s == t
  {
    hide Less;
    if s != [] || t != [] {
      assert s != [] && t != [] by {
        assert s != [] ==> s[0] in keys;
        assert t != [] ==> t[0] in keys;
      }
      SameFirst(s, t, keys);
      var rest := keys - {s[0]};
      ListingOfRest(s, keys);
      ListingOfRest(t, keys);
      ListingUnique(s[1..], t[1..], rest);
      assert s == [s[0]] + s[1..] && t == [t[0]] + t[1..];
    }
  }

  lemma SameFirst(s: seq<string>, t: seq<string>, keys: set<string>)
    requires Lists(s, keys) && Lists(t, keys) && s != [] && t != []
    ensures s[0] == t[0]
  {
    hide Less;
    assert s[0] in t && t[0] in s;
    if s[0] != t[0] {
      assert Less(s[0], t[0]) && Less(t[0], s[0]);
      LessTrans(s[0], t[0], s[0]);
      LessIrreflexive(s[0]);
    }
  }

  lemma ListingOfRest(s: seq<string>, keys: set<string>)
    requires Lists(s, keys) && s != []
    ensures Lists(s[1..], keys - {s[0]})
  {
    hide Less;
    LessIrreflexive(s[0]);
    assert forall i :: 1 <= i < |s| ==> Less(s[0], s[i]);
    assert s == [s[0]] + s[1..];
    assert forall k :: k in s[1..] ==> k in s;
  }
}
