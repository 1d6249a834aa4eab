/**
 * Longest common subsequence of two lists of lines: the length by recursion,
 * its meaning over every common subsequence, and the table that
 * `lcsLengths` (apps/server/src/concord/merge.ts) fills bottom-up.
 */
module Lcs {
  import opened Text

  function Max(x: nat, y: nat): nat {
    if x >= y then x else y
  }

  /** Length of a longest common subsequence. */
  function LcsLength(a: Lines, b: Lines): nat
    decreases |a| + |b|
  {
    if a == [] || b == [] then 0
    else if a[0] == b[0] then LcsLength(a[1..], b[1..]) + 1
    else Max(LcsLength(a[1..], b), LcsLength(a, b[1..]))
  }

  /** `c` is what is left of `t` after striking out some of its lines. */
  ghost predicate Subsequence(c: Lines, t: Lines) {
    c == [] ||
    (t != [] && ((c[0] == t[0] && Subsequence(c[1..], t[1..])) || Subsequence(c, t[1..])))
  }

  ghost predicate Common(c: Lines, a: Lines, b: Lines) {
    Subsequence(c, a) && Subsequence(c, b)
  }

  lemma {:induction false} SubsequenceTail(c: Lines, t: Lines)
    requires c != [] && Subsequence(c, t)
    ensures t != [] && Subsequence(c[1..], t) && Subsequence(c[1..], t[1..])
  {
    if Subsequence(c, t[1..]) {
      SubsequenceTail(c, t[1..]);
    }
    SubsequenceWeaken(c[1..], t);
  }

  lemma {:induction false} SubsequenceWeaken(c: Lines, t: Lines)
    requires t != [] && Subsequence(c, t[1..])
    ensures Subsequence(c, t)
  {
  }

  /** No common subsequence is longer than `LcsLength` says. */
  lemma {:induction false} LcsIsUpperBound(c: Lines, a: Lines, b: Lines)
    requires Common(c, a, b)
    ensures |c| <= LcsLength(a, b)
    decreases |a| + |b|
  {
    if c != [] {
      if a[0] == b[0] {
        SubsequenceTail(c, a);
        SubsequenceTail(c, b);
        LcsIsUpperBound(c[1..], a[1..], b[1..]);
      } else if c[0] != a[0] {
        LcsIsUpperBound(c, a[1..], b);
      } else {
        LcsIsUpperBound(c, a, b[1..]);
      }
    }
  }

  /** And one common subsequence is that long. */
  lemma {:induction false} LcsIsAttained(a: Lines, b: Lines) returns (c: Lines)
    ensures Common(c, a, b) && |c| == LcsLength(a, b)
    decreases |a| + |b|
  {
    if a == [] || b == [] {
      c := [];
    } else if a[0] == b[0] {
      var rest := LcsIsAttained(a[1..], b[1..]);
      c := [a[0]] + rest;
    } else if LcsLength(a[1..], b) >= LcsLength(a, b[1..]) {
      c := LcsIsAttained(a[1..], b);
    } else {
      c := LcsIsAttained(a, b[1..]);
    }
  }

  /** `LcsLength` is the maximum length over all common subsequences. */
  lemma {:induction false} LcsIsMaximum(a: Lines, b: Lines)
    ensures forall c :: Common(c, a, b) ==> |c| <= LcsLength(a, b)
    ensures exists c :: Common(c, a, b) && |c| == LcsLength(a, b)
  {
    forall c | Common(c, a, b) ensures |c| <= LcsLength(a, b) {
      LcsIsUpperBound(c, a, b);
    }
    var _ := LcsIsAttained(a, b);
  }

  /** `table` holds the length for every pair of suffixes. */
  ghost predicate TableOf(table: array2<nat>, a: Lines, b: Lines)
    reads table
  {
    table.Length0 == |a| + 1 && table.Length1 == |b| + 1 &&
    forall i, j :: 0 <= i <= |a| && 0 <= j <= |b| ==> table[i, j] == LcsLength(a[i..], b[j..])
  }

  /** Fills the table from the last row and column towards the first. */
  method LcsTable(a: Lines, b: Lines) returns (table: array2<nat>)
    ensures fresh(table) && TableOf(table, a, b)
  {
    table := new nat[|a| + 1, |b| + 1]((_, _) => 0);
    var i := |a| - 1;
    while i >= 0
      invariant -1 <= i < |a|
      invariant forall k, j :: i < k <= |a| && 0 <= j <= |b| ==> table[k, j] == LcsLength(a[k..], b[j..])
      invariant forall k, j :: 0 <= k <= i && 0 <= j <= |b| ==> table[k, j] == 0
    {
      var j := |b| - 1;
      while j >= 0
        invariant -1 <= j < |b|
        invariant forall k, l :: i < k <= |a| && 0 <= l <= |b| ==> table[k, l] == LcsLength(a[k..], b[l..])
        invariant forall l :: j < l <= |b| ==> table[i, l] == LcsLength(a[i..], b[l..])
        invariant forall k, l :: 0 <= k < i && 0 <= l <= |b| ==> table[k, l] == 0
      {
        assert a[i..][1..] == a[i + 1..] && b[j..][1..] == b[j + 1..];
        table[i, j] :=
          if a[i] == b[j] then table[i + 1, j + 1] + 1
          else Max(table[i + 1, j], table[i, j + 1]);
        j := j - 1;
      }
      i := i - 1;
    }
  }
}
