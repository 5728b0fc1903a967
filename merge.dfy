/**
 * Folding dictionaries with Python's `dict.update`: on a key present in both,
 * the later dictionary wins.
 */
module Merge {
  import opened DekaTypes

  /** `acc = {}; for m in ms: acc.update(m)` */
  function UpdateAll(ms: seq<ResultSet>): ResultSet
  {
    if ms == [] then map[] else UpdateAll(ms[..|ms| - 1]) + ms[|ms| - 1]
  }

  /** The union of the key sets of all dictionaries in `ms`. */
  ghost function UnionKeys(ms: seq<ResultSet>): set<string>
  {
    if ms == [] then {} else UnionKeys(ms[..|ms| - 1]) + ms[|ms| - 1].Keys
  }

  /** `r[k]` is the value one of the dictionaries in `ms` holds for `k`. */
  ghost predicate ComesFrom(r: ResultSet, k: string, ms: seq<ResultSet>)
    requires k in r
  {
    exists j :: 0 <= j < |ms| && k in ms[j] && r[k] == ms[j][k]
  }

  /**
   * What a merge of `ms` in ANY order guarantees: the keys are exactly the
   * union, and every value is one some dictionary supplied for that key.
   */
  ghost predicate MergeOf(r: ResultSet, ms: seq<ResultSet>)
  {
    && r.Keys == UnionKeys(ms)
    && forall k :: k in r ==> ComesFrom(r, k, ms)
  }

  lemma {:induction false} UnionKeysAppend(a: seq<ResultSet>, b: seq<ResultSet>)
    ensures UnionKeys(a + b) == UnionKeys(a) + UnionKeys(b)
    decreases |b|
  {
    if b == [] {
      assert a + b == a;
    } else {
      assert (a + b)[..|a + b| - 1] == a + b[..|b| - 1];
      UnionKeysAppend(a, b[..|b| - 1]);
    }
  }

  /** Updating an empty dictionary with one dictionary gives that dictionary. */
  lemma UpdateAllOne(m: ResultSet)
    ensures UpdateAll([m]) == m
  {
    var none: seq<ResultSet> := [];
    assert [m][..0] == none;
    assert map[] + m == m;
  }

  /** Updating with a concatenation is updating with each part in turn. */
  lemma {:induction false} UpdateAllAppend(a: seq<ResultSet>, b: seq<ResultSet>)
    ensures UpdateAll(a + b) == UpdateAll(a) + UpdateAll(b)
    decreases |b|
  {
    if b == [] {
      assert a + b == a;
    } else {
      assert (a + b)[..|a + b| - 1] == a + b[..|b| - 1];
      UpdateAllAppend(a, b[..|b| - 1]);
    }
  }

  /**
   * The fold is a merge: its keys are the union of the dictionaries' keys,
   * and each value is one some dictionary holds for that key.
   */
  lemma {:induction false} UpdateAllIsMerge(ms: seq<ResultSet>)
    ensures MergeOf(UpdateAll(ms), ms)
  {
    if ms != [] {
      var front, last := ms[..|ms| - 1], ms[|ms| - 1];
      UpdateAllIsMerge(front);
      assert front + [last] == ms;
      var r := UpdateAll(ms);
      forall k | k in r ensures ComesFrom(r, k, ms) {
        if k in last {
          assert ms[|ms| - 1] == last;
        } else {
          var j :| 0 <= j < |front| && k in front[j] && UpdateAll(front)[k] == front[j][k];
          assert ms[j] == front[j];
        }
      }
    }
  }

  /** A merge of `a` followed by a merge of `b` is a merge of `a + b`. */
  lemma MergeOfAppend(ra: ResultSet, a: seq<ResultSet>, rb: ResultSet, b: seq<ResultSet>)
    requires MergeOf(ra, a) && MergeOf(rb, b)
    ensures MergeOf(ra + rb, a + b)
  {
    UnionKeysAppend(a, b);
    var r := ra + rb;
    forall k | k in r ensures ComesFrom(r, k, a + b) {
      if k in rb {
        var j :| 0 <= j < |b| && k in b[j] && rb[k] == b[j][k];
        assert (a + b)[|a| + j] == b[j];
      } else {
        var j :| 0 <= j < |a| && k in a[j] && ra[k] == a[j][k];
        assert (a + b)[j] == a[j];
      }
    }
  }
}
