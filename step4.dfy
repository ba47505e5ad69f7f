/**
 * The fourth script of the trace-based clustering workflow: keeps, in order and unchanged, the entries
 * of the matrix of matches whose mean best score is at least the threshold. An entry without matches
 * makes the mean a division by zero, which stops the script (None).
 */
module FinalCandidates {
  import opened Wrappers
  import opened MatrixOfMatches

  /** The `max_value_of_match` of each match, in order. */
  function Values(ms: seq<Match>): seq<real> {
    seq(|ms|, i requires 0 <= i < |ms| => ms[i].maxValue)
  }

  /** Python's `sum`, adding from the left. */
  function Sum(vs: seq<real>): real {
    if vs == [] then 0.0 else Sum(vs[..|vs| - 1]) + vs[|vs| - 1]
  }

  function Mean(vs: seq<real>): real
    requires |vs| > 0
  {
    Sum(vs) / |vs| as real
  }

  /** Values between lo and hi add up to between n * lo and n * hi. */
  lemma {:induction false} SumBounds(vs: seq<real>, lo: real, hi: real)
    requires forall i :: 0 <= i < |vs| ==> lo <= vs[i] <= hi
    ensures |vs| as real * lo <= Sum(vs) <= |vs| as real * hi
    decreases |vs|
  {
    if vs != [] {
      SumBounds(vs[..|vs| - 1], lo, hi);
    }
  }

  /** The mean of values between lo and hi is between lo and hi. */
  lemma MeanBounds(vs: seq<real>, lo: real, hi: real)
    requires |vs| > 0
    requires forall i :: 0 <= i < |vs| ==> lo <= vs[i] <= hi
    ensures lo <= Mean(vs) <= hi
  {
    SumBounds(vs, lo, hi);
    var n := |vs| as real;
    assert n * lo <= Sum(vs) <= n * hi;
    assert Mean(vs) * n == Sum(vs);
  }

  /** The mean of the `max_value_of_match` values of an entry, as both scripts compute it. */
  function MeanOf(c: Candidate): real
    requires |c.matches| > 0
  {
    Mean(Values(c.matches))
  }

  /**
   * The loop collecting `values_of_match`, then `sum(values_of_match) / len(values_of_match)`;
   * None is the division by zero of an entry without matches.
   */
  method MeanValueOfMatch(c: Candidate) returns (r: Option<real>)
    ensures r.None? <==> c.matches == []
    ensures r.Some? ==> r.value == MeanOf(c)
  {
    var values: seq<real> := [];
    var i := 0;
    while i < |c.matches|
      invariant i <= |c.matches|
      invariant values == Values(c.matches[..i])
    {
      values := values + [c.matches[i].maxValue];
      i := i + 1;
    }
    assert c.matches[..i] == c.matches;
    if |values| == 0 {
      return None;
    }
    r := Some(Sum(values) / |values| as real);
  }

  /** Every entry has at least one match. */
  predicate AllMatched(cs: seq<Candidate>) {
    forall i :: 0 <= i < |cs| ==> |cs[i].matches| > 0
  }

  /** The entries whose mean is at least the threshold, in order. */
  function Kept(cs: seq<Candidate>, threshold: real): (r: seq<Candidate>)
    requires AllMatched(cs)
    ensures AllMatched(r) && |r| <= |cs|
  {
    if cs == [] then []
    else Kept(cs[..|cs| - 1], threshold) + (if MeanOf(cs[|cs| - 1]) >= threshold then [cs[|cs| - 1]] else [])
  }

  /** The script: None when some entry has no matches, otherwise the kept entries. */
  method FinalCandidateClusters(matrix: seq<Candidate>, threshold: real) returns (r: Option<seq<Candidate>>)
    ensures r.Some? <==> AllMatched(matrix)
    ensures r.Some? ==> r.value == Kept(matrix, threshold)
  {
    var kept: seq<Candidate> := [];
    var i := 0;
    while i < |matrix|
      invariant i <= |matrix| && AllMatched(matrix[..i])
      invariant kept == Kept(matrix[..i], threshold)
    {
      var mean := MeanValueOfMatch(matrix[i]);
      if mean.None? {
        return None;
      }
      assert matrix[..i + 1][..i] == matrix[..i];
      if mean.value >= threshold {
        kept := kept + [matrix[i]];
      }
      i := i + 1;
    }
    assert matrix[..i] == matrix;
    r := Some(kept);
  }

  /** An entry is kept exactly when it is an entry of the matrix whose mean reaches the threshold. */
  lemma {:induction false} KeptMembers(cs: seq<Candidate>, threshold: real, c: Candidate)
    requires AllMatched(cs)
    ensures c in Kept(cs, threshold) <==> c in cs && MeanOf(c) >= threshold
    decreases |cs|
  {
    if cs != [] {
      var front := cs[..|cs| - 1];
      KeptMembers(front, threshold, c);
      assert cs == front + [cs[|cs| - 1]];
    }
  }

  /**
   * Raising the threshold only removes entries: the entries kept at the higher threshold are those
   * kept at the lower one, filtered again, in the same order.
   */
  lemma {:induction false} KeptMonotone(cs: seq<Candidate>, low: real, high: real)
    requires AllMatched(cs) && low <= high
    ensures Kept(Kept(cs, low), high) == Kept(cs, high)
    decreases |cs|
  {
    if cs != [] {
      var front, last := cs[..|cs| - 1], cs[|cs| - 1];
      assert AllMatched(front);
      KeptMonotone(front, low, high);
      var k := Kept(front, low);
      var tail := if MeanOf(last) >= high then [last] else [];
      assert Kept(cs, high) == Kept(front, high) + tail;
      if MeanOf(last) >= low {
        assert Kept(cs, low) == k + [last];
        KeptSnoc(k, last, high);
      } else {
        assert Kept(cs, low) == k;
        assert tail == [];
      }
    }
  }

  /** Keeping from a list with one more entry at the end. */
  lemma KeptSnoc(cs: seq<Candidate>, last: Candidate, threshold: real)
    requires AllMatched(cs) && |last.matches| > 0
    ensures AllMatched(cs + [last])
    ensures Kept(cs + [last], threshold) == Kept(cs, threshold) + (if MeanOf(last) >= threshold then [last] else [])
  {
    assert (cs + [last])[..|cs|] == cs;
  }

  /** When every mean reaches the threshold, every entry is kept, unchanged and in order. */
  lemma {:induction false} KeptAll(cs: seq<Candidate>, threshold: real)
    requires AllMatched(cs)
    requires forall i :: 0 <= i < |cs| ==> MeanOf(cs[i]) >= threshold
    ensures Kept(cs, threshold) == cs
    decreases |cs|
  {
    if cs != [] {
      var front := cs[..|cs| - 1];
      assert AllMatched(front);
      KeptAll(front, threshold);
      assert MeanOf(cs[|cs| - 1]) >= threshold;
      assert cs == front + [cs[|cs| - 1]];
    }
  }

  /**
   * On the matrix the third script writes for k >= 3, no entry divides by zero and every mean lies
   * between 0 and 1; for 1 <= k <= 2 every entry has no matches, so the script stops.
   */
  lemma MatrixMeans(partitions: Partitions, k: nat, matrix: seq<Candidate>)
    requires |matrix| == k && forall c :: 0 <= c < k ==> EntryOk(partitions, k, c, matrix[c])
    ensures k >= 3 ==> AllMatched(matrix) && forall c :: 0 <= c < k ==> 0.0 <= MeanOf(matrix[c]) <= 1.0
    ensures 1 <= k < 3 ==> !AllMatched(matrix)
  {
    if k >= 3 {
      forall c | 0 <= c < k
        ensures |matrix[c].matches| > 0 && 0.0 <= MeanOf(matrix[c]) <= 1.0
      {
        var vs := Values(matrix[c].matches);
        forall i | 0 <= i < |vs|
          ensures 0.0 <= vs[i] <= 1.0
        {
          assert MatchOk(Elems(partitions[k][c]), partitions, i + 2, matrix[c].matches[i]);
        }
        MeanBounds(vs, 0.0, 1.0);
      }
    } else if 1 <= k {
      assert |matrix[0].matches| == 0;
    }
  }
}
