/**
 * The fifth script of the trace-based clustering workflow: writes the final candidate clusters as CSV,
 * a fixed header and then one row per instance of each cluster. The writes are the chunks passed to
 * `file_out.write`, in order; `str(float)` is the parameter `format`. An entry without matches stops the
 * script after the rows of the entries before it.
 */
module CandidateCsv {
  import opened Text
  import opened MatrixOfMatches
  import opened FinalCandidates

  const Header := "\"instance index of the initial dataset (starting from 0)\",\"cluster name (starting from 0 and from the partition with 5 clusters)\",\"mean value of match with previous partitions\"\n"

  /** The row of one instance: `str(index) + "," + cluster_name + "," + str(mean) + "\n"`. */
  function Row(index: int, name: string, mean: string): string {
    IntToDecimal(index) + "," + name + "," + mean + "\n"
  }

  /** The rows of one entry, one per instance, in the order of its `instances`. */
  function EntryRows(c: Candidate, format: real -> string): seq<string>
    requires |c.matches| > 0
  {
    seq(|c.instances|, i requires 0 <= i < |c.instances| => Row(c.instances[i], c.name, format(MeanOf(c))))
  }

  /** The rows of all entries, entry after entry. */
  function Rows(cs: seq<Candidate>, format: real -> string): seq<string>
    requires AllMatched(cs)
  {
    if cs == [] then [] else Rows(cs[..|cs| - 1], format) + EntryRows(cs[|cs| - 1], format)
  }

  /** The number of instances of the entries. */
  function InstanceCount(cs: seq<Candidate>): nat {
    if cs == [] then 0 else InstanceCount(cs[..|cs| - 1]) + |cs[|cs| - 1].instances|
  }

  /**
   * The script. With every entry matched, the writes are the header and the rows of all entries;
   * otherwise they stop before the first entry without matches.
   */
  method WriteCandidates(final: seq<Candidate>, format: real -> string) returns (writes: seq<string>, ok: bool)
    ensures ok <==> AllMatched(final)
    ensures ok ==> writes == [Header] + Rows(final, format)
    ensures !ok ==> exists n :: 0 <= n < |final| && final[n].matches == [] && AllMatched(final[..n])
                                && writes == [Header] + Rows(final[..n], format)
  {
    writes := [Header];
    var i := 0;
    while i < |final|
      invariant i <= |final| && AllMatched(final[..i])
      invariant writes == [Header] + Rows(final[..i], format)
    {
      var mean := MeanValueOfMatch(final[i]);
      if mean.None? {
        return writes, false;
      }
      writes := WriteEntry(writes, final[i], mean.value, format);
      RowsSnoc(final, i, format);
      i := i + 1;
    }
    assert final[..i] == final;
    ok := true;
  }

  /** The loop over the instances of one entry, whose mean is `mean`. */
  method WriteEntry(writes: seq<string>, c: Candidate, mean: real, format: real -> string) returns (writes': seq<string>)
    requires |c.matches| > 0 && mean == MeanOf(c)
    ensures writes' == writes + EntryRows(c, format)
  {
    writes' := writes;
    var j := 0;
    while j < |c.instances|
      invariant j <= |c.instances|
      invariant writes' == writes + EntryRows(c, format)[..j]
    {
      writes' := writes' + [Row(c.instances[j], c.name, format(mean))];
      j := j + 1;
    }
    assert EntryRows(c, format)[..j] == EntryRows(c, format);
  }

  lemma RowsSnoc(cs: seq<Candidate>, i: nat, format: real -> string)
    requires i < |cs| && AllMatched(cs[..i]) && |cs[i].matches| > 0
    ensures AllMatched(cs[..i + 1])
    ensures Rows(cs[..i + 1], format) == Rows(cs[..i], format) + EntryRows(cs[i], format)
  {
    assert cs[..i + 1][..i] == cs[..i];
  }

  /** One row per instance: the number of rows is the number of instances. */
  lemma {:induction false} RowCount(cs: seq<Candidate>, format: real -> string)
    requires AllMatched(cs)
    ensures |Rows(cs, format)| == InstanceCount(cs)
    decreases |cs|
  {
    if cs != [] {
      assert AllMatched(cs[..|cs| - 1]);
      RowCount(cs[..|cs| - 1], format);
    }
  }

  /** The rows of the first n entries come first. */
  lemma {:induction false} RowsPrefix(cs: seq<Candidate>, n: nat, format: real -> string)
    requires AllMatched(cs) && n <= |cs|
    ensures AllMatched(cs[..n])
    ensures |Rows(cs[..n], format)| <= |Rows(cs, format)|
    ensures Rows(cs, format)[..|Rows(cs[..n], format)|] == Rows(cs[..n], format)
    decreases |cs|
  {
    if n < |cs| {
      var front := cs[..|cs| - 1];
      assert AllMatched(front);
      assert front[..n] == cs[..n];
      RowsPrefix(front, n, format);
      assert Rows(cs, format) == Rows(front, format) + EntryRows(cs[|cs| - 1], format);
    } else {
      assert cs[..n] == cs;
    }
  }

  /**
   * Instance j of entry i is on row InstanceCount(cs[..i]) + j, with that entry's name and the text of
   * its mean.
   */
  lemma RowAt(cs: seq<Candidate>, format: real -> string, i: nat, j: nat)
    requires AllMatched(cs) && i < |cs| && j < |cs[i].instances|
    ensures InstanceCount(cs[..i]) + j < |Rows(cs, format)|
    ensures Rows(cs, format)[InstanceCount(cs[..i]) + j] == Row(cs[i].instances[j], cs[i].name, format(MeanOf(cs[i])))
  {
    RowsSnoc(cs, i, format);
    RowCount(cs[..i], format);
    RowsPrefix(cs, i + 1, format);
    var head, entry := Rows(cs[..i], format), EntryRows(cs[i], format);
    assert |head| == InstanceCount(cs[..i]);
    assert entry[j] == Row(cs[i].instances[j], cs[i].name, format(MeanOf(cs[i])));
    ConcatIndex(Rows(cs, format), head, entry, j);
  }

  lemma ConcatIndex(all: seq<string>, head: seq<string>, entry: seq<string>, j: nat)
    requires |head| + |entry| <= |all| && all[..|head| + |entry|] == head + entry && j < |entry|
    ensures all[|head| + j] == entry[j]
  {
    assert all[|head| + j] == all[..|head| + |entry|][|head| + j];
  }
}
