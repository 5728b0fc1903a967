/**
 * `KeyConverter` of load_data/datastore_adapter/redis.py: the temporary-key
 * suffix and the two `str.split` look-ups on keys.
 */
module KeyConverter {

  /** Appended to an area name to form the staging area. */
  const TempStageSuffix := ":temporarykey"

  /** `sep` occurs in `s` starting at index `i`. */
  predicate OccursAt(s: string, sep: string, i: nat)
  {
    i + |sep| <= |s| && s[i..i + |sep|] == sep
  }

  ghost predicate Contains(s: string, sep: string)
  {
    exists i: nat :: OccursAt(s, sep, i)
  }

  /**
   * `s.split(sep)[0]`: the longest prefix of `s` before the first occurrence of
   * `sep`, or all of `s` when `sep` does not occur.
   */
  function BeforeFirst(s: string, sep: string): (r: string)
    requires sep != []
    ensures r <= s
    ensures forall i: nat :: i < |r| ==> !OccursAt(s, sep, i)
    ensures r == s || OccursAt(s, sep, |r|)
    decreases |s|
  {
    if |s| < |sep| then s
    else if s[..|sep|] == sep then ""
    else
      var r := [s[0]] + BeforeFirst(s[1..], sep);
      assert !OccursAt(s, sep, 0) by { assert s[0..|sep|] == s[..|sep|]; }
      assert forall i: nat :: 0 < i ==> OccursAt(s, sep, i) == OccursAt(s[1..], sep, i - 1) by {
        forall i: nat | 0 < i ensures OccursAt(s, sep, i) == OccursAt(s[1..], sep, i - 1) {
          if i + |sep| <= |s| {
            assert s[1..][i - 1..i - 1 + |sep|] == s[i..i + |sep|];
          }
        }
      }
      r
  }

  /**
   * `s.split(c)[-1]` for a one-character separator: the longest suffix of `s`
   * without `c`, which is all of `s` or follows an occurrence of `c`.
   */
  function AfterLast(s: string, c: char): (r: string)
    ensures |r| <= |s| && r == s[|s| - |r|..]
    ensures c !in r
    ensures r == s || s[|s| - |r| - 1] == c
  {
    if s == [] then []
    else if s[|s| - 1] == c then []
    else
      var front := s[..|s| - 1];
      var r := AfterLast(front, c) + [s[|s| - 1]];
      assert front[|front| - (|r| - 1)..] + [s[|s| - 1]] == s[|s| - |r|..];
      r
  }

  /** `to_temp` */
  function ToTemp(k: string): (t: string)
    ensures |t| == |k| + |TempStageSuffix| && t[..|k|] == k
    ensures OccursAt(t, TempStageSuffix, |k|)
  {
    k + TempStageSuffix
  }

  /** `from_temp`: a key without the suffix comes back as it is. */
  function FromTemp(k: string): (r: string)
    ensures r <= k
    ensures !Contains(k, TempStageSuffix) ==> r == k
  {
    BeforeFirst(k, TempStageSuffix)
  }

  /** `get_area_name` */
  function GetAreaName(key: string): string
  {
    AfterLast(key, ':')
  }

  /** The suffix's only colon is its first character. */
  lemma SuffixColons()
    ensures TempStageSuffix[0] == ':'
    ensures forall j :: 0 < j < |TempStageSuffix| ==> TempStageSuffix[j] != ':'
  {
  }

  /** `from_temp(to_temp(k)) == k` for a key that does not already hold the suffix. */
  lemma {:induction false} FromTempOfTemp(k: string)
    requires !Contains(k, TempStageSuffix)
    ensures FromTemp(ToTemp(k)) == k
  {
    var s := k + TempStageSuffix;
    if k == [] {
      assert s[..|TempStageSuffix|] == TempStageSuffix;
    } else {
      SuffixNotAtStart(k);
      NoSuffixInTail(k);
      FromTempOfTemp(k[1..]);
      assert s[1..] == k[1..] + TempStageSuffix;
      assert BeforeFirst(s, TempStageSuffix) == [s[0]] + BeforeFirst(s[1..], TempStageSuffix);
    }
  }

  /** A non-empty key without the suffix, followed by the suffix, does not start with it. */
  lemma SuffixNotAtStart(k: string)
    requires k != [] && !Contains(k, TempStageSuffix)
    ensures (k + TempStageSuffix)[..|TempStageSuffix|] != TempStageSuffix
  {
    var suffix, n := TempStageSuffix, |TempStageSuffix|;
    var s := k + suffix;
    if |k| >= n {
      assert !OccursAt(k, suffix, 0);
      assert s[..n] == k[0..n];
    } else {
      SuffixColons();
      assert s[..n][|k|] == ':' != suffix[|k|];
    }
  }

  lemma NoSuffixInTail(k: string)
    requires k != [] && !Contains(k, TempStageSuffix)
    ensures !Contains(k[1..], TempStageSuffix)
  {
    var suffix, n := TempStageSuffix, |TempStageSuffix|;
    forall i: nat ensures !OccursAt(k[1..], suffix, i) {
      assert !OccursAt(k, suffix, i + 1);
      if i + n <= |k| - 1 {
        assert k[1..][i..i + n] == k[i + 1..i + 1 + n];
      }
    }
  }

  /** After a template ending in ':', `get_area_name` recovers a colon-free area name. */
  lemma {:induction false} AreaNameOfKey(template: string, area: string)
    requires |template| > 0 && template[|template| - 1] == ':'
    requires ':' !in area
    ensures GetAreaName(template + area) == area
    decreases |area|
  {
    var s := template + area;
    if area != [] {
      var front := area[..|area| - 1];
      AreaNameOfKey(template, front);
      assert s[..|s| - 1] == template + front;
      assert s[|s| - 1] == area[|area| - 1];
      assert front + [area[|area| - 1]] == area;
    }
  }

  /** The example of the source's comment. */
  lemma AreaNameOfLondon()
    ensures GetAreaName("cities:places:london") == "london"
  {
    AreaNameOfKey("cities:places:", "london");
    assert "cities:places:" + "london" == "cities:places:london";
  }
}
