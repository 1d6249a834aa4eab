/**
 * The line diff (apps/server/src/concord/merge.ts, `diffLines`): edit hunks in
 * base coordinates, what applying them means, and the proof that the greedy
 * walk over the table is both correct and minimal.
 */
module Diff {
  import opened Text
  import opened Lcs

  /** Replace `deleted` base lines from `start` on by `inserted`. */
  datatype Hunk = Hunk(start: nat, deleted: nat, inserted: Lines) {
    function End(): nat { start + deleted }
  }

  datatype Pending = Nothing | Pending(hunk: Hunk)

  // ---------------------------------------------------------------- meaning

  /** Hunks in order, not overlapping, inside `base[pos..n]`. */
  predicate Ordered(hunks: seq<Hunk>, pos: nat, n: nat) {
    if hunks == [] then pos <= n
    else pos <= hunks[0].start && hunks[0].End() <= n && Ordered(hunks[1..], hunks[0].End(), n)
  }

  /** The lines from base position `pos` on, after the hunks. */
  function ApplyFrom(base: Lines, hunks: seq<Hunk>, pos: nat): Lines
    requires Ordered(hunks, pos, |base|)
  {
    if hunks == [] then base[pos..]
    else base[pos..hunks[0].start] + hunks[0].inserted + ApplyFrom(base, hunks[1..], hunks[0].End())
  }

  function Apply(base: Lines, hunks: seq<Hunk>): Lines
    requires Ordered(hunks, 0, |base|)
  {
    ApplyFrom(base, hunks, 0)
  }

  /** Ordered, each hunk changes something, and a base line is kept between any two. */
  ghost predicate Separated(hunks: seq<Hunk>, pos: nat, n: nat) {
    hunks == [] ||
    (pos <= hunks[0].start && hunks[0].End() <= n &&
     (hunks[0].deleted > 0 || hunks[0].inserted != []) &&
     Separated(hunks[1..], hunks[0].End() + 1, n))
  }

  function Deleted(hunks: seq<Hunk>): nat {
    if hunks == [] then 0 else hunks[0].deleted + Deleted(hunks[1..])
  }

  function Inserted(hunks: seq<Hunk>): nat {
    if hunks == [] then 0 else |hunks[0].inserted| + Inserted(hunks[1..])
  }

  // --------------------------------------------------------------- the walk

  function Flush(pending: Pending): seq<Hunk> {
    if pending.Nothing? then [] else [pending.hunk]
  }

  function Open(pending: Pending, at: nat): Hunk {
    if pending.Nothing? then Hunk(at, 0, []) else pending.hunk
  }

  /**
   * The greedy walk, on what remains of both sides: equal lines are kept, and
   * otherwise the side whose loss keeps the longer common subsequence moves.
   */
  function Walk(a: Lines, b: Lines, at: nat, pending: Pending): seq<Hunk>
    decreases |a| + |b|
  {
    if a == [] && b == [] then Flush(pending)
    else if a == [] || b == [] then
      var hunk := Open(pending, at);
      [hunk.(deleted := hunk.deleted + |a|, inserted := hunk.inserted + b)]
    else if a[0] == b[0] then
      Flush(pending) + Walk(a[1..], b[1..], at + 1, Nothing)
    else
      var hunk := Open(pending, at);
      if LcsLength(a[1..], b) >= LcsLength(a, b[1..]) then
        Walk(a[1..], b, at + 1, Pending(hunk.(deleted := hunk.deleted + 1)))
      else
        Walk(a, b[1..], at, Pending(hunk.(inserted := hunk.inserted + [b[0]])))
  }

  /** Edit hunks turning `base` into `other`. */
  function DiffLines(base: Lines, other: Lines): seq<Hunk> {
    Walk(base, other, 0, Nothing)
  }

  // ---------------------------------------------------------- the algorithm

  /** The two closing loops: whatever is left on either side joins the last hunk. */
  method Finish(base: Lines, other: Lines, from: nat, to: nat, open: Hunk) returns (hunk: Hunk)
    requires from <= |base| && to <= |other|
    ensures hunk == open.(deleted := open.deleted + |base[from..]|, inserted := open.inserted + other[to..])
  {
    hunk := open;
    var i, j := from, to;
    while i < |base|
      invariant from <= i <= |base|
      invariant hunk == open.(deleted := open.deleted + (i - from))
    {
      hunk := hunk.(deleted := hunk.deleted + 1);
      i := i + 1;
    }
    while j < |other|
      invariant to <= j <= |other|
      invariant hunk == open.(deleted := open.deleted + |base[from..]|, inserted := open.inserted + other[to..j])
    {
      hunk := hunk.(inserted := hunk.inserted + [other[j]]);
      j := j + 1;
    }
    assert other[to..j] == other[to..];
  }

  /** One step of the walk, by index. */
  lemma {:induction false} WalkAt(base: Lines, other: Lines, i: nat, j: nat, pending: Pending)
    requires i < |base| && j < |other|
    ensures Walk(base[i..], other[j..], i, pending) ==
            if base[i] == other[j] then Flush(pending) + Walk(base[i + 1..], other[j + 1..], i + 1, Nothing)
            else
              var hunk := Open(pending, i);
              if LcsLength(base[i + 1..], other[j..]) >= LcsLength(base[i..], other[j + 1..]) then
                Walk(base[i + 1..], other[j..], i + 1, Pending(hunk.(deleted := hunk.deleted + 1)))
              else
                Walk(base[i..], other[j + 1..], i, Pending(hunk.(inserted := hunk.inserted + [other[j]])))
  {
    assert base[i..][1..] == base[i + 1..] && other[j..][1..] == other[j + 1..];
  }

  /** What is pushed so far, and what the walk still yields, make up the diff. */
  ghost predicate Progress(base: Lines, other: Lines, hunks: seq<Hunk>, i: nat, j: nat, pending: Pending) {
    i <= |base| && j <= |other| && hunks + Walk(base[i..], other[j..], i, pending) == DiffLines(base, other)
  }

  lemma {:induction false} AtFirst(base: Lines, other: Lines)
    ensures Progress(base, other, [], 0, 0, Nothing)
  {
    assert base[0..] == base && other[0..] == other;
  }

  lemma {:induction false} KeepLine(base: Lines, other: Lines, hunks: seq<Hunk>, i: nat, j: nat, pending: Pending)
    requires Progress(base, other, hunks, i, j, pending) && i < |base| && j < |other| && base[i] == other[j]
    ensures Progress(base, other, hunks + Flush(pending), i + 1, j + 1, Nothing)
  {
    WalkAt(base, other, i, j, pending);
    var rest := Walk(base[i + 1..], other[j + 1..], i + 1, Nothing);
    assert hunks + (Flush(pending) + rest) == hunks + Flush(pending) + rest;
  }

  lemma {:induction false} MoveOn(base: Lines, other: Lines, hunks: seq<Hunk>, i: nat, j: nat, pending: Pending)
    requires Progress(base, other, hunks, i, j, pending) && i < |base| && j < |other| && base[i] != other[j]
    ensures var hunk := Open(pending, i);
            if LcsLength(base[i + 1..], other[j..]) >= LcsLength(base[i..], other[j + 1..])
            then Progress(base, other, hunks, i + 1, j, Pending(hunk.(deleted := hunk.deleted + 1)))
            else Progress(base, other, hunks, i, j + 1, Pending(hunk.(inserted := hunk.inserted + [other[j]])))
  {
    WalkAt(base, other, i, j, pending);
  }

  lemma {:induction false} AtEnd(base: Lines, other: Lines, hunks: seq<Hunk>, i: nat, j: nat, pending: Pending)
    requires Progress(base, other, hunks, i, j, pending) && (i == |base| || j == |other|)
    ensures var hunk := Open(pending, i);
            var last := hunk.(deleted := hunk.deleted + |base[i..]|, inserted := hunk.inserted + other[j..]);
            hunks + Flush(if i < |base| || j < |other| then Pending(last) else pending) == DiffLines(base, other)
  {
  }

  /** The main loop, until one side is used up. */
  method WalkBoth(base: Lines, other: Lines, table: array2<nat>) returns (hunks: seq<Hunk>, i: nat, j: nat, pending: Pending)
    requires TableOf(table, base, other)
    ensures Progress(base, other, hunks, i, j, pending) && (i == |base| || j == |other|)
  {
    hunks, i, j, pending := [], 0, 0, Nothing;
    AtFirst(base, other);
    while i < |base| && j < |other|
      invariant i <= |base| && j <= |other|
      invariant Progress(base, other, hunks, i, j, pending)
      decreases |base| - i + |other| - j
    {
      if base[i] == other[j] {
        KeepLine(base, other, hunks, i, j, pending);
        hunks := hunks + Flush(pending);
        pending := Nothing;
        i, j := i + 1, j + 1;
      } else {
        MoveOn(base, other, hunks, i, j, pending);
        var hunk := Open(pending, i);
        if table[i + 1, j] >= table[i, j + 1] {
          pending := Pending(hunk.(deleted := hunk.deleted + 1));
          i := i + 1;
        } else {
          pending := Pending(hunk.(inserted := hunk.inserted + [other[j]]));
          j := j + 1;
        }
      }
    }
  }

  /** The two loops of the source, refining `DiffLines`. */
  method ComputeDiff(base: Lines, other: Lines) returns (hunks: seq<Hunk>)
    ensures hunks == DiffLines(base, other)
  {
    var table := LcsTable(base, other);
    var i, j, pending;
    hunks, i, j, pending := WalkBoth(base, other, table);
    AtEnd(base, other, hunks, i, j, pending);
    if i < |base| || j < |other| {
      var hunk := Finish(base, other, i, j, Open(pending, i));
      pending := Pending(hunk);
    }
    hunks := hunks + Flush(pending);
  }

  // ------------------------------------------------------------ correctness

  ghost predicate Consistent(pending: Pending, at: nat) {
    pending.Pending? ==>
      pending.hunk.End() == at && (pending.hunk.deleted > 0 || pending.hunk.inserted != [])
  }

  lemma {:induction false} WalkIsSeparated(a: Lines, b: Lines, at: nat, pending: Pending)
    requires Consistent(pending, at)
    ensures Separated(Walk(a, b, at, pending), Open(pending, at).start, at + |a|)
    decreases |a| + |b|
  {
    if a == [] || b == [] {
    } else if a[0] == b[0] {
      WalkIsSeparated(a[1..], b[1..], at + 1, Nothing);
      var rest := Walk(a[1..], b[1..], at + 1, Nothing);
      if pending.Pending? {
        assert ([pending.hunk] + rest)[1..] == rest;
      } else {
        assert [] + rest == rest;
        SeparatedFromEarlier(rest, at + 1, at, at + |a|);
      }
    } else {
      var hunk := Open(pending, at);
      if LcsLength(a[1..], b) >= LcsLength(a, b[1..]) {
        WalkIsSeparated(a[1..], b, at + 1, Pending(hunk.(deleted := hunk.deleted + 1)));
      } else {
        WalkIsSeparated(a, b[1..], at, Pending(hunk.(inserted := hunk.inserted + [b[0]])));
      }
    }
  }

  lemma {:induction false} SeparatedFromEarlier(hunks: seq<Hunk>, pos: nat, earlier: nat, n: nat)
    requires Separated(hunks, pos, n) && earlier <= pos
    ensures Separated(hunks, earlier, n)
  {
  }

  lemma {:induction false} SeparatedIsOrdered(hunks: seq<Hunk>, pos: nat, n: nat)
    requires Separated(hunks, pos, n) && pos <= n
    ensures Ordered(hunks, pos, n)
  {
    if hunks != [] {
      SeparatedFromEarlier(hunks[1..], hunks[0].End() + 1, hunks[0].End(), n);
      SeparatedIsOrdered(hunks[1..], hunks[0].End(), n);
    }
  }

  ghost predicate Applies(base: Lines, hunks: seq<Hunk>, first: Hunk, b: Lines) {
    Ordered(hunks, first.start, |base|) && ApplyFrom(base, hunks, first.start) == first.inserted + b
  }

  lemma {:induction false} WalkApplies(base: Lines, b: Lines, at: nat, pending: Pending)
    requires at <= |base| && Consistent(pending, at)
    ensures Applies(base, Walk(base[at..], b, at, pending), Open(pending, at), b)
    decreases |base| - at + |b|
  {
    var a := base[at..];
    var first := Open(pending, at);
    if a == [] || b == [] {
      WalkAppliesAtEnd(base, b, at, pending);
    } else if a[0] == b[0] {
      assert a[1..] == base[at + 1..];
      WalkApplies(base, b[1..], at + 1, Nothing);
      WalkAppliesKeep(base, b, at, pending, Walk(base[at + 1..], b[1..], at + 1, Nothing));
    } else {
      assert a[1..] == base[at + 1..];
      if LcsLength(a[1..], b) >= LcsLength(a, b[1..]) {
        WalkApplies(base, b, at + 1, Pending(first.(deleted := first.deleted + 1)));
      } else {
        WalkApplies(base, b[1..], at, Pending(first.(inserted := first.inserted + [b[0]])));
        assert first.inserted + [b[0]] + b[1..] == first.inserted + b;
      }
    }
  }

  lemma {:induction false} WalkAppliesAtEnd(base: Lines, b: Lines, at: nat, pending: Pending)
    requires at <= |base| && Consistent(pending, at)
    requires at == |base| || b == []
    ensures Applies(base, Walk(base[at..], b, at, pending), Open(pending, at), b)
  {
    var first := Open(pending, at);
    var hunks := Walk(base[at..], b, at, pending);
    if at == |base| && b == [] && pending.Nothing? {
      assert hunks == [];
    } else {
      var hunk := first.(deleted := first.deleted + |base[at..]|, inserted := first.inserted + b);
      assert first.inserted + [] == first.inserted;
      assert hunks == [hunk];
      assert hunks[1..] == [];
      assert ApplyFrom(base, [], hunk.End()) == [];
      assert base[first.start..first.start] + hunk.inserted + [] == hunk.inserted;
    }
  }

  lemma {:induction false} WalkAppliesKeep(base: Lines, b: Lines, at: nat, pending: Pending, rest: seq<Hunk>)
    requires at < |base| && b != [] && base[at] == b[0] && Consistent(pending, at)
    requires Ordered(rest, at + 1, |base|) && ApplyFrom(base, rest, at + 1) == b[1..]
    ensures Applies(base, Flush(pending) + rest, Open(pending, at), b)
  {
    assert Ordered(rest, at, |base|) && ApplyFrom(base, rest, at) == b by {
      ApplySplit(base, rest, at, at + 1);
      assert base[at..at + 1] == [b[0]];
      assert [b[0]] + b[1..] == b;
    }
    if pending.Pending? {
      var hunk := pending.hunk;
      ApplyCons(base, hunk, rest, hunk.start);
      assert base[hunk.start..hunk.start] + hunk.inserted + b == hunk.inserted + b;
    } else {
      assert Flush(pending) + rest == rest;
      assert [] + b == b;
    }
  }

  lemma {:induction false} ApplyCons(base: Lines, hunk: Hunk, rest: seq<Hunk>, pos: nat)
    requires pos <= hunk.start && hunk.End() <= |base| && Ordered(rest, hunk.End(), |base|)
    ensures Ordered([hunk] + rest, pos, |base|)
    ensures ApplyFrom(base, [hunk] + rest, pos) ==
            base[pos..hunk.start] + hunk.inserted + ApplyFrom(base, rest, hunk.End())
  {
    assert ([hunk] + rest)[1..] == rest;
  }

  /** Lines before the first hunk can be taken off the front. */
  lemma {:induction false} ApplySplit(base: Lines, hunks: seq<Hunk>, pos: nat, to: nat)
    requires pos <= to <= |base| && Ordered(hunks, to, |base|)
    ensures Ordered(hunks, pos, |base|)
    ensures ApplyFrom(base, hunks, pos) == base[pos..to] + ApplyFrom(base, hunks, to)
  {
    if hunks != [] {
      assert base[pos..hunks[0].start] == base[pos..to] + base[to..hunks[0].start];
    }
  }

  lemma {:induction false} WalkCounts(a: Lines, b: Lines, at: nat, pending: Pending)
    ensures Deleted(Walk(a, b, at, pending)) + LcsLength(a, b) == Open(pending, at).deleted + |a|
    ensures Inserted(Walk(a, b, at, pending)) + LcsLength(a, b) == |Open(pending, at).inserted| + |b|
    decreases |a| + |b|
  {
    if a == [] || b == [] {
    } else if a[0] == b[0] {
      WalkCounts(a[1..], b[1..], at + 1, Nothing);
      var rest := Walk(a[1..], b[1..], at + 1, Nothing);
      if pending.Pending? {
        assert ([pending.hunk] + rest)[1..] == rest;
      } else {
        assert [] + rest == rest;
      }
    } else {
      var hunk := Open(pending, at);
      if LcsLength(a[1..], b) >= LcsLength(a, b[1..]) {
        WalkCounts(a[1..], b, at + 1, Pending(hunk.(deleted := hunk.deleted + 1)));
      } else {
        WalkCounts(a, b[1..], at, Pending(hunk.(inserted := hunk.inserted + [b[0]])));
      }
    }
  }

  /** Applying the diff to `base` gives `other`; hunks keep a line between them. */
  lemma {:induction false} DiffIsCorrect(base: Lines, other: Lines)
    ensures Separated(DiffLines(base, other), 0, |base|)
    ensures Ordered(DiffLines(base, other), 0, |base|)
    ensures Apply(base, DiffLines(base, other)) == other
  {
    assert base[0..] == base;
    WalkIsSeparated(base, other, 0, Nothing);
    WalkApplies(base, other, 0, Nothing);
  }

  lemma {:induction false} DiffCounts(base: Lines, other: Lines)
    ensures Deleted(DiffLines(base, other)) == |base| - LcsLength(base, other)
    ensures Inserted(DiffLines(base, other)) == |other| - LcsLength(base, other)
  {
    WalkCounts(base, other, 0, Nothing);
  }

  // ------------------------------------------------------------- minimality

  /** The base lines the hunks leave in place. */
  function Kept(base: Lines, hunks: seq<Hunk>, pos: nat): Lines
    requires Ordered(hunks, pos, |base|)
  {
    if hunks == [] then base[pos..]
    else base[pos..hunks[0].start] + Kept(base, hunks[1..], hunks[0].End())
  }

  lemma {:induction false} SubsequencePrepend(p: Lines, c: Lines, t: Lines)
    requires Subsequence(c, t)
    ensures Subsequence(p + c, p + t)
  {
    if p == [] {
      assert p + c == c && p + t == t;
    } else {
      SubsequencePrepend(p[1..], c, t);
      assert (p + c)[1..] == p[1..] + c && (p + t)[1..] == p[1..] + t;
    }
  }

  lemma {:induction false} SubsequenceSkip(p: Lines, c: Lines, t: Lines)
    requires Subsequence(c, t)
    ensures Subsequence(c, p + t)
  {
    if p == [] {
      assert p + t == t;
    } else {
      SubsequenceSkip(p[1..], c, t);
      assert (p + t)[1..] == p[1..] + t;
    }
  }

  lemma {:induction false} KeptIsCommon(base: Lines, hunks: seq<Hunk>, pos: nat)
    requires Ordered(hunks, pos, |base|)
    ensures Common(Kept(base, hunks, pos), base[pos..], ApplyFrom(base, hunks, pos))
    ensures |Kept(base, hunks, pos)| + Deleted(hunks) == |base| - pos
    ensures |Kept(base, hunks, pos)| + Inserted(hunks) == |ApplyFrom(base, hunks, pos)|
  {
    if hunks == [] {
      SubsequencePrepend(base[pos..], [], []);
      assert base[pos..] + [] == base[pos..];
    } else {
      var hunk, rest := hunks[0], hunks[1..];
      KeptIsCommon(base, rest, hunk.End());
      var kept, after := Kept(base, rest, hunk.End()), ApplyFrom(base, rest, hunk.End());
      var before := base[pos..hunk.start];
      SubsequenceSkip(base[hunk.start..hunk.End()], kept, base[hunk.End()..]);
      SubsequencePrepend(before, kept, base[hunk.start..hunk.End()] + base[hunk.End()..]);
      assert base[pos..] == before + (base[hunk.start..hunk.End()] + base[hunk.End()..]);
      SubsequenceSkip(hunk.inserted, kept, after);
      SubsequencePrepend(before, kept, hunk.inserted + after);
      assert before + hunk.inserted + after == before + (hunk.inserted + after);
    }
  }

  /** No hunk list turning `base` into `other` deletes or inserts fewer lines. */
  lemma {:induction false} DiffIsMinimal(base: Lines, other: Lines, hunks: seq<Hunk>)
    requires Ordered(hunks, 0, |base|) && Apply(base, hunks) == other
    ensures Deleted(DiffLines(base, other)) <= Deleted(hunks)
    ensures Inserted(DiffLines(base, other)) <= Inserted(hunks)
  {
    KeptIsCommon(base, hunks, 0);
    assert base[0..] == base;
    LcsIsUpperBound(Kept(base, hunks, 0), base, other);
    DiffCounts(base, other);
  }

  // ------------------------------------------------- facts the layers above use

  /** Positions of separated hunks: each starts past the end of every earlier one. */
  lemma {:induction false} SeparatedAt(hunks: seq<Hunk>, pos: nat, n: nat, i: nat, j: nat)
    requires Separated(hunks, pos, n) && i < j < |hunks|
    ensures pos <= hunks[i].start && hunks[i].End() < hunks[j].start && hunks[j].End() <= n
  {
    if i > 0 {
      SeparatedAt(hunks[1..], hunks[0].End() + 1, n, i - 1, j - 1);
    } else {
      SeparatedBounds(hunks[1..], hunks[0].End() + 1, n, j - 1);
    }
  }

  lemma {:induction false} SeparatedBounds(hunks: seq<Hunk>, pos: nat, n: nat, i: nat)
    requires Separated(hunks, pos, n) && i < |hunks|
    ensures pos <= hunks[i].start && hunks[i].End() <= n
    ensures hunks[i].deleted > 0 || hunks[i].inserted != []
  {
    if i > 0 {
      SeparatedBounds(hunks[1..], hunks[0].End() + 1, n, i - 1);
    }
  }

  /** The diff is empty exactly when nothing changed. */
  lemma {:induction false} DiffIsEmpty(base: Lines, other: Lines)
    ensures DiffLines(base, other) == [] <==> base == other
  {
    DiffIsCorrect(base, other);
    if base == other {
      DiffOfSame(base, 0);
    }
  }

  lemma {:induction false} DiffOfSame(a: Lines, at: nat)
    ensures Walk(a, a, at, Nothing) == []
  {
    if a != [] {
      DiffOfSame(a[1..], at + 1);
    }
  }

  /** From nothing, the diff is one insertion at the top. */
  lemma {:induction false} DiffFromNothing(other: Lines)
    ensures DiffLines([], other) == if other == [] then [] else [Hunk(0, 0, other)]
  {
    assert [] + other == other;
  }
  /** A common beginning is kept. */
  lemma {:induction false} WalkSkips(front: Lines, a: Lines, b: Lines, at: nat)
    ensures Walk(front + a, front + b, at, Nothing) == Walk(a, b, at + |front|, Nothing)
  {
    if front == [] {
      assert front + a == a && front + b == b;
    } else {
      assert (front + a)[0] == (front + b)[0] == front[0];
      assert (front + a)[1..] == front[1..] + a && (front + b)[1..] == front[1..] + b;
      WalkSkips(front[1..], a, b, at + 1);
      assert [] + Walk(a, b, at + |front|, Nothing) == Walk(a, b, at + |front|, Nothing);
    }
  }

  lemma {:induction false} WalkOfOne(x: Line, y: Line, at: nat)
    requires x != y
    ensures Walk([x], [y], at, Nothing) == [Hunk(at, 1, [y])]
  {
    var none: Lines := [];
    assert [x][1..] == none && [y][1..] == none && none + [y] == [y];
    assert LcsLength(none, [y]) == 0 && LcsLength([x], none) == 0;
    assert Walk(none, [y], at + 1, Pending(Hunk(at, 1, none))) == [Hunk(at, 1, [y])];
  }
}
