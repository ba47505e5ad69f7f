/**
 * The third script of the trace-based clustering workflow: for every cluster of the partition with
 * k clusters and every earlier partition p in 2..k-1, the Dice score of that cluster against each
 * cluster of p, keeping the first cluster with the highest score. Floats are exact reals here; an
 * uncaught exception (a missing key, a division by zero) is None.
 */
module MatrixOfMatches {
  import opened Wrappers
  import opened Text

  /** One partition of the previous step: `cluster_<c>` to the indexes of that cluster's instances. */
  type Partition = map<nat, seq<int>>

  /** All partitions of the previous step: `partition_k_<p>` to partition p. */
  type Partitions = map<nat, Partition>

  /**
   * The entry `partition_k_<partition>` of `match_with_previous_partitions`: the best score and the
   * cluster reaching it (written as `partition_k_<partition>_cluster_<bestCluster>`).
   */
  datatype Match = Match(partition: nat, maxValue: real, bestCluster: nat)

  /** One entry of the matrix of matches: its key, its `instances` and its matches, in order. */
  datatype Candidate = Candidate(name: string, instances: seq<int>, matches: seq<Match>)

  /** The key `partition_k_<k>_cluster_<c>`. */
  function ClusterName(k: nat, c: nat): string {
    "partition_k_" + NatToDecimal(k) + "_cluster_" + NatToDecimal(c)
  }

  /** Python's `set(list)`. */
  function Elems(s: seq<int>): set<int> {
    set x | x in s
  }

  lemma SubsetCard(x: set<int>, y: set<int>)
    requires x <= y
    ensures |x| <= |y|
  {
    assert y == x + (y - x);
  }

  /** The Dice coefficient `2|A ∩ B| / (|A| + |B|)`; it lies between 0 and 1. */
  function Dice(a: set<int>, b: set<int>): (r: real)
    requires |a| + |b| > 0
    ensures 0.0 <= r <= 1.0
  {
    SubsetCard(a * b, a);
    SubsetCard(a * b, b);
    (2 * |a * b|) as real / (|a| + |b|) as real
  }

  /** A cluster compared with itself scores 1, and the score does not depend on the order of its arguments. */
  lemma DiceProperties(a: set<int>, b: set<int>)
    requires |a| + |b| > 0
    ensures Dice(a, b) == Dice(b, a)
    ensures a == b ==> Dice(a, b) == 1.0
  {
    assert a * b == b * a;
    if a == b {
      assert a * b == a;
    }
  }

  /** Clusters 0..n-1 of `part` exist and none of them meets `a` with both sides empty. */
  predicate Scorable(a: set<int>, part: Partition, n: nat) {
    forall cl :: 0 <= cl < n ==> cl in part && |a| + |Elems(part[cl])| > 0
  }

  /**
   * Among clusters 0..n-1 of `part`, cluster j has the highest score v against `a`, and no earlier
   * cluster reaches v.
   */
  predicate IsFirstBest(a: set<int>, part: Partition, n: nat, v: real, j: nat)
    requires Scorable(a, part, n)
  {
    && j < n
    && v == Dice(a, Elems(part[j]))
    && (forall cl :: 0 <= cl < n ==> Dice(a, Elems(part[cl])) <= v)
    && (forall cl :: 0 <= cl < j ==> Dice(a, Elems(part[cl])) < v)
  }

  /** The first best cluster and its score are determined by the clusters. */
  lemma FirstBestUnique(a: set<int>, part: Partition, n: nat, v: real, j: nat, v': real, j': nat)
    requires Scorable(a, part, n)
    requires IsFirstBest(a, part, n, v, j) && IsFirstBest(a, part, n, v', j')
    ensures v == v' && j == j'
  {
    assert Dice(a, Elems(part[j'])) <= v && Dice(a, Elems(part[j])) <= v';
  }

  /**
   * The innermost loop: the best match of cluster `a` among clusters 0..p-1 of partition p, scanning
   * upwards and replacing the best only on a strictly higher score.
   */
  method BestMatch(a: set<int>, partitions: Partitions, p: nat) returns (r: Option<Match>)
    requires 1 <= p
    ensures r.Some? <==> p in partitions && Scorable(a, partitions[p], p)
    ensures r.Some? ==> r.value.partition == p && IsFirstBest(a, partitions[p], p, r.value.maxValue, r.value.bestCluster)
  {
    var best: Option<Match> := None;
    var cl := 0;
    while cl < p
      invariant cl <= p
      invariant best.None? <==> cl == 0
      invariant best.Some? ==>
        && p in partitions && Scorable(a, partitions[p], cl) && best.value.partition == p
        && IsFirstBest(a, partitions[p], cl, best.value.maxValue, best.value.bestCluster)
    {
      if p !in partitions || cl !in partitions[p] {
        return None;
      }
      var b := Elems(partitions[p][cl]);
      if |a| + |b| == 0 {
        return None;
      }
      var v := Dice(a, b);
      if best.None? || v > best.value.maxValue {
        best := Some(Match(p, v, cl));
      }
      cl := cl + 1;
    }
    r := best;
  }

  /** Match m is the best match of `a` within partition p. */
  predicate MatchOk(a: set<int>, partitions: Partitions, p: nat, m: Match) {
    && m.partition == p && p in partitions && Scorable(a, partitions[p], p)
    && IsFirstBest(a, partitions[p], p, m.maxValue, m.bestCluster)
  }

  /** Every partition 2..k-1 exists and can be scored against `a`. */
  predicate MatchesComputable(a: set<int>, partitions: Partitions, k: nat) {
    forall p :: 2 <= p < k ==> p in partitions && Scorable(a, partitions[p], p)
  }

  /** The middle loop: the best match of `a` in each partition 2..k-1, in order. */
  method PartitionMatches(a: set<int>, partitions: Partitions, k: nat) returns (r: Option<seq<Match>>)
    ensures r.Some? <==> MatchesComputable(a, partitions, k)
    ensures r.Some? ==> |r.value| == if k < 2 then 0 else k - 2
    ensures r.Some? ==> forall i :: 0 <= i < |r.value| ==> MatchOk(a, partitions, i + 2, r.value[i])
  {
    var matches: seq<Match> := [];
    var p := 2;
    while p < k
      invariant 2 <= p <= (if k < 2 then 2 else k)
      invariant |matches| == p - 2
      invariant MatchesComputable(a, partitions, p)
      invariant forall i :: 0 <= i < |matches| ==> MatchOk(a, partitions, i + 2, matches[i])
    {
      var m := BestMatch(a, partitions, p);
      if m.None? {
        return None;
      }
      matches := matches + [m.value];
      p := p + 1;
    }
    r := Some(matches);
  }

  /** Entry c of the matrix of the k-partition: its key, its instances verbatim, and its matches. */
  predicate EntryOk(partitions: Partitions, k: nat, c: nat, e: Candidate) {
    && k in partitions && c in partitions[k]
    && e.name == ClusterName(k, c) && e.instances == partitions[k][c]
    && |e.matches| == (if k < 2 then 0 else k - 2)
    && forall i :: 0 <= i < |e.matches| ==> MatchOk(Elems(partitions[k][c]), partitions, i + 2, e.matches[i])
  }

  /** Cluster c of the k-partition exists and every partition 2..k-1 can be scored against it. */
  predicate ClusterComputable(partitions: Partitions, k: nat, c: nat) {
    k in partitions && c in partitions[k] && MatchesComputable(Elems(partitions[k][c]), partitions, k)
  }

  /**
   * The script: one entry per cluster 0..k-1 of the k-partition, in order. It stops (None) on a missing
   * partition or cluster, or on a division by zero.
   */
  method Matrix(partitions: Partitions, k: nat) returns (r: Option<seq<Candidate>>)
    ensures r.Some? <==> forall c :: 0 <= c < k ==> ClusterComputable(partitions, k, c)
    ensures r.Some? ==> |r.value| == k && forall c :: 0 <= c < k ==> EntryOk(partitions, k, c, r.value[c])
  {
    var entries: seq<Candidate> := [];
    var c := 0;
    while c < k
      invariant c <= k && |entries| == c
      invariant forall c' :: 0 <= c' < c ==> ClusterComputable(partitions, k, c') && EntryOk(partitions, k, c', entries[c'])
    {
      if k !in partitions || c !in partitions[k] {
        assert !ClusterComputable(partitions, k, c);
        return None;
      }
      var instances := partitions[k][c];
      var matches := PartitionMatches(Elems(instances), partitions, k);
      if matches.None? {
        assert !ClusterComputable(partitions, k, c);
        return None;
      }
      entries := entries + [Candidate(ClusterName(k, c), instances, matches.value)];
      c := c + 1;
    }
    r := Some(entries);
  }

  /** The k entries have distinct keys, so none overwrites another in the output dictionary. */
  lemma ClusterNamesDistinct(k: nat, c: nat, c': nat)
    requires ClusterName(k, c) == ClusterName(k, c')
    ensures c == c'
  {
    var prefix := "partition_k_" + NatToDecimal(k) + "_cluster_";
    assert ClusterName(k, c) == prefix + NatToDecimal(c);
    assert ClusterName(k, c') == prefix + NatToDecimal(c');
    assert NatToDecimal(c) == ClusterName(k, c)[|prefix|..];
    assert NatToDecimal(c') == ClusterName(k, c')[|prefix|..];
    DecimalInjective(c, c');
  }
}
