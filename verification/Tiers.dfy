/** Option, result and verdict types shared by every pipeline. */
module Outcomes {

  datatype Option<+T> = None | Some(value: T)

  /** A script that computes a value or raises. */
  datatype Result<+T> = Ok(value: T) | Error(message: string)

  /** A verifier that returns or raises. */
  datatype Verdict = Accept | Reject(reason: string)
}

/** Pricing tiers, and the dictionaries the scripts build from rows keyed by tier. */
module Tiers {
  import opened Outcomes

  /** A tier name after trimming and lower-casing. */
  datatype TierKey = Blank | Free | Starter | Growth | Pro | Enterprise | Unlisted(name: string)

  const TRACKED: seq<TierKey> := [Starter, Growth, Pro, Enterprise]
  const COLLECTED: seq<TierKey> := [Free, Starter, Growth, Pro, Enterprise]

  datatype Row<T> = Row(tier: TierKey, data: T)

  ghost predicate HasBlank<T>(rows: seq<Row<T>>) {
    exists i :: 0 <= i < |rows| && rows[i].tier == Blank
  }

  /** The dictionary that maps each tier to the data of its last row. */
  function Index<T>(rows: seq<Row<T>>): map<TierKey, T> {
    if rows == [] then map[] else
    var last := rows[|rows| - 1];
    Index(rows[..|rows| - 1])[last.tier := last.data]
  }

  lemma {:induction false} IndexKeys<T>(rows: seq<Row<T>>)
    ensures forall k :: k in Index(rows) <==> exists i :: 0 <= i < |rows| && rows[i].tier == k
  {
    if rows != [] {
      var init := rows[..|rows| - 1];
      IndexKeys(init);
      forall k
        ensures k in Index(rows) <==> exists i :: 0 <= i < |rows| && rows[i].tier == k
      {
        if k in Index(init) {
          var i :| 0 <= i < |init| && init[i].tier == k;
          assert rows[i].tier == k;
        } else if k == rows[|rows| - 1].tier {
        } else if exists i :: 0 <= i < |rows| && rows[i].tier == k {
          var i :| 0 <= i < |rows| && rows[i].tier == k;
          assert init[i].tier == k;
        }
      }
    }
  }

  ghost predicate LastRowFor<T>(rows: seq<Row<T>>, k: TierKey, i: int) {
    0 <= i < |rows| && rows[i].tier == k && forall j :: i < j < |rows| ==> rows[j].tier != k
  }

  /** Whatever holds of every row's data holds of every indexed value. */
  lemma {:induction false} IndexedFromRow<T>(rows: seq<Row<T>>, k: TierKey)
    requires k in Index(rows)
    ensures exists i :: 0 <= i < |rows| && rows[i].tier == k && rows[i].data == Index(rows)[k]
    ensures forall i :: LastRowFor(rows, k, i) ==> rows[i].data == Index(rows)[k]
  {
    var n := |rows| - 1;
    if rows[n].tier == k {
      assert rows[n].data == Index(rows)[k];
    } else {
      var init := rows[..n];
      IndexedFromRow(init, k);
      var i :| 0 <= i < n && init[i].tier == k && init[i].data == Index(init)[k];
      assert rows[i] == init[i];
      forall i | LastRowFor(rows, k, i)
        ensures rows[i].data == Index(rows)[k]
      {
        assert init[i] == rows[i];
        assert forall j :: i < j < n ==> init[j] == rows[j];
        assert LastRowFor(init, k, i);
      }
    }
  }

  /** A blank tier raises. */
  method IndexByTier<T>(rows: seq<Row<T>>) returns (r: Result<map<TierKey, T>>)
    ensures r.Error? <==> HasBlank(rows)
    ensures r.Ok? ==> r.value == Index(rows)
  {
    var indexed: map<TierKey, T> := map[];
    for i := 0 to |rows|
      invariant indexed == Index(rows[..i])
      invariant !HasBlank(rows[..i])
    {
      if rows[i].tier == Blank {
        return Error("tier must be a non-empty string");
      }
      indexed := indexed[rows[i].tier := rows[i].data];
      assert rows[..i + 1][..i] == rows[..i];
    }
    assert rows[..|rows|] == rows;
    return Ok(indexed);
  }

  /** A blank tier is skipped. */
  method IndexSkippingBlanks<T>(rows: seq<Row<T>>) returns (indexed: map<TierKey, T>)
    ensures indexed == Index(rows) - {Blank}
  {
    indexed := map[];
    for i := 0 to |rows|
      invariant indexed == Index(rows[..i]) - {Blank}
    {
      if rows[i].tier != Blank {
        indexed := indexed[rows[i].tier := rows[i].data];
      }
      assert rows[..i + 1][..i] == rows[..i];
    }
    assert rows[..|rows|] == rows;
  }
}
