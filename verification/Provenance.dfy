/**
 * Line provenance (apps/server/src/concord/provenance.ts): who last changed
 * each line, carried over a commit along the line diff.
 */
module Provenance {
  import opened Options
  import opened Text
  import opened Diff

  /** Line and contribution ids are drawn from one supply of fresh numbers. */
  datatype LineProvenance = LineProvenance(
    lineId: nat,
    agent: Option<string>,
    human: Option<string>,
    contribution: Option<nat>,
    version: nat,
    at: int)

  /** Who commits, and as what. */
  datatype Writer = Writer(agent: Option<string>, human: Option<string>, contribution: nat, version: nat, at: int)

  datatype Caret = Caret(line: nat, column: nat)

  datatype Update = Update(lines: seq<LineProvenance>, changed: seq<nat>, caret: Option<Caret>, supply: nat)

  datatype ReconcileResult = Reconciled(update: Update) | InvariantViolated(entries: nat, expected: nat)

  // ------------------------------------------------------------ the alignment

  function KeptRun(from: nat, to: nat): seq<Option<nat>>
    requires from <= to
  {
    seq(to - from, k requires 0 <= k => Some(from + k))
  }

  function NewRun(count: nat): seq<Option<nat>> {
    seq(count, _ => None)
  }

  /** For each line after the hunks: the base line it is, or `None` if inserted. */
  function Alignment(hunks: seq<Hunk>, pos: nat, n: nat): seq<Option<nat>>
    requires Ordered(hunks, pos, n)
  {
    if hunks == [] then KeptRun(pos, n)
    else KeptRun(pos, hunks[0].start) + NewRun(|hunks[0].inserted|) + Alignment(hunks[1..], hunks[0].End(), n)
  }

  /** Where each line of `next` comes from in `previous`. */
  function Origins(previous: Lines, next: Lines): seq<Option<nat>> {
    DiffIsCorrect(previous, next);
    Alignment(DiffLines(previous, next), 0, |previous|)
  }

  function Insertions(origins: seq<Option<nat>>): nat {
    if origins == [] then 0 else (if origins[0].None? then 1 else 0) + Insertions(origins[1..])
  }

  lemma {:induction false} AlignmentFits(base: Lines, hunks: seq<Hunk>, pos: nat)
    requires Ordered(hunks, pos, |base|)
    ensures var origins, lines := Alignment(hunks, pos, |base|), ApplyFrom(base, hunks, pos);
            |origins| == |lines| &&
            forall j :: 0 <= j < |origins| && origins[j].Some? ==>
              pos <= origins[j].value < |base| && base[origins[j].value] == lines[j]
  {
    if hunks != [] {
      AlignmentFits(base, hunks[1..], hunks[0].End());
      var front := base[pos..hunks[0].start] + hunks[0].inserted;
      var rest := ApplyFrom(base, hunks[1..], hunks[0].End());
      var origins := Alignment(hunks, pos, |base|);
      var restOrigins := Alignment(hunks[1..], hunks[0].End(), |base|);
      forall j | 0 <= j < |origins| && origins[j].Some?
        ensures pos <= origins[j].value < |base| && base[origins[j].value] == ApplyFrom(base, hunks, pos)[j]
      {
        if j >= |front| {
          assert origins[j] == restOrigins[j - |front|];
          assert ApplyFrom(base, hunks, pos)[j] == rest[j - |front|];
        }
      }
    }
  }

  lemma {:induction false} AlignmentAscends(hunks: seq<Hunk>, pos: nat, n: nat, i: nat, j: nat)
    requires Ordered(hunks, pos, n)
    requires i < j < |Alignment(hunks, pos, n)|
    requires Alignment(hunks, pos, n)[i].Some? && Alignment(hunks, pos, n)[j].Some?
    ensures pos <= Alignment(hunks, pos, n)[i].value < Alignment(hunks, pos, n)[j].value
  {
    if hunks != [] {
      var front := hunks[0].start - pos + |hunks[0].inserted|;
      var rest := Alignment(hunks[1..], hunks[0].End(), n);
      if i >= front {
        AlignmentAscends(hunks[1..], hunks[0].End(), n, i - front, j - front);
      } else if j >= front {
        AlignmentFloor(hunks[1..], hunks[0].End(), n, j - front);
      }
    }
  }

  lemma {:induction false} AlignmentFloor(hunks: seq<Hunk>, pos: nat, n: nat, j: nat)
    requires Ordered(hunks, pos, n)
    requires j < |Alignment(hunks, pos, n)| && Alignment(hunks, pos, n)[j].Some?
    ensures pos <= Alignment(hunks, pos, n)[j].value
  {
    if hunks != [] {
      var front := hunks[0].start - pos + |hunks[0].inserted|;
      if j >= front {
        AlignmentFloor(hunks[1..], hunks[0].End(), n, j - front);
      }
    }
  }

  lemma {:induction false} InsertionsConcat(xs: seq<Option<nat>>, ys: seq<Option<nat>>)
    ensures Insertions(xs + ys) == Insertions(xs) + Insertions(ys)
  {
    if xs == [] {
      assert xs + ys == ys;
    } else {
      InsertionsConcat(xs[1..], ys);
      assert (xs + ys)[1..] == xs[1..] + ys;
    }
  }

  lemma {:induction false} InsertionsUniform(xs: seq<Option<nat>>, none: bool)
    requires forall k :: 0 <= k < |xs| ==> xs[k].None? == none
    ensures Insertions(xs) == if none then |xs| else 0
  {
    if xs != [] {
      InsertionsUniform(xs[1..], none);
    }
  }

  lemma {:induction false} AlignmentInsertions(hunks: seq<Hunk>, pos: nat, n: nat)
    requires Ordered(hunks, pos, n)
    ensures Insertions(Alignment(hunks, pos, n)) == Inserted(hunks)
  {
    if hunks == [] {
      InsertionsUniform(Alignment(hunks, pos, n), false);
    } else {
      var kept, added := KeptRun(pos, hunks[0].start), NewRun(|hunks[0].inserted|);
      InsertionsUniform(kept, false);
      InsertionsUniform(added, true);
      AlignmentInsertions(hunks[1..], hunks[0].End(), n);
      InsertionsConcat(kept, added);
      InsertionsConcat(kept + added, Alignment(hunks[1..], hunks[0].End(), n));
    }
  }

  /**
   * The alignment is an order-preserving match of equal lines that leaves out
   * exactly the lines the diff inserts.
   */
  lemma {:induction false} OriginsAreAlignment(previous: Lines, next: Lines)
    ensures |Origins(previous, next)| == |next|
    ensures forall j :: 0 <= j < |next| && Origins(previous, next)[j].Some? ==>
              Origins(previous, next)[j].value < |previous| &&
              previous[Origins(previous, next)[j].value] == next[j]
    ensures forall i, j :: 0 <= i < j < |next| && Origins(previous, next)[i].Some? && Origins(previous, next)[j].Some? ==>
              Origins(previous, next)[i].value < Origins(previous, next)[j].value
    ensures Insertions(Origins(previous, next)) == Inserted(DiffLines(previous, next))
  {
    var hunks := DiffLines(previous, next);
    DiffIsCorrect(previous, next);
    AlignmentFits(previous, hunks, 0);
    AlignmentInsertions(hunks, 0, |previous|);
    forall i, j | 0 <= i < j < |next| && Origins(previous, next)[i].Some? && Origins(previous, next)[j].Some?
      ensures Origins(previous, next)[i].value < Origins(previous, next)[j].value
    {
      AlignmentAscends(hunks, 0, |previous|, i, j);
    }
  }

  // ---------------------------------------------------------- the attribution

  /** The entry of a kept line whose previous entry is missing. */
  function Unattributed(writer: Writer, id: nat): LineProvenance {
    LineProvenance(id, None, None, None, writer.version, writer.at)
  }

  /** An empty human id is no human, as in the source. */
  function HumanOf(writer: Writer): Option<string> {
    if writer.human.Some? && writer.human.value != "" then writer.human else None
  }

  function Attributed(writer: Writer, id: nat): LineProvenance {
    LineProvenance(id, writer.agent, HumanOf(writer), Some(writer.contribution), writer.version, writer.at)
  }

  predicate Draws(origin: Option<nat>, previous: seq<LineProvenance>) {
    origin.None? || origin.value >= |previous|
  }

  function Entry(origin: Option<nat>, previous: seq<LineProvenance>, writer: Writer, supply: nat): LineProvenance {
    if origin.None? then Attributed(writer, supply)
    else if origin.value < |previous| then previous[origin.value]
    else Unattributed(writer, supply)
  }

  function NextFresh(origin: Option<nat>, previous: seq<LineProvenance>, supply: nat): nat {
    if Draws(origin, previous) then supply + 1 else supply
  }

  /** One entry per origin, drawing fresh ids in order. */
  function Attribute(origins: seq<Option<nat>>, previous: seq<LineProvenance>, writer: Writer, supply: nat): seq<LineProvenance> {
    if origins == [] then []
    else [Entry(origins[0], previous, writer, supply)]
         + Attribute(origins[1..], previous, writer, NextFresh(origins[0], previous, supply))
  }

  function FreshAfter(origins: seq<Option<nat>>, previous: seq<LineProvenance>, supply: nat): nat {
    if origins == [] then supply else FreshAfter(origins[1..], previous, NextFresh(origins[0], previous, supply))
  }

  function ChangedIds(origins: seq<Option<nat>>, previous: seq<LineProvenance>, supply: nat): seq<nat> {
    if origins == [] then []
    else (if origins[0].None? then [supply] else [])
         + ChangedIds(origins[1..], previous, NextFresh(origins[0], previous, supply))
  }

  // ----------------------------------------------------------------- the caret

  function SharedTail(a: string, b: string): nat {
    if a == "" || b == "" || a[|a| - 1] != b[|b| - 1] then 0
    else 1 + SharedTail(a[..|a| - 1], b[..|b| - 1])
  }

  function EndColumn(replaced: Option<string>, inserted: string): (column: nat)
    ensures 1 <= column <= |inserted| + 1
  {
    if replaced.None? || replaced.value == inserted then |inserted| + 1
    else
      SharedTailBound(replaced.value, inserted);
      |inserted| - SharedTail(replaced.value, inserted) + 1
  }

  lemma {:induction false} SharedTailBound(a: string, b: string)
    ensures SharedTail(a, b) <= |a| && SharedTail(a, b) <= |b|
  {
    if a != "" && b != "" && a[|a| - 1] == b[|b| - 1] {
      SharedTailBound(a[..|a| - 1], b[..|b| - 1]);
    }
  }

  /** The last `k` characters agree; before them a line ends, or the characters differ. */
  ghost predicate IsSharedTail(a: string, b: string, k: nat) {
    k <= |a| && k <= |b| &&
    (forall p :: |a| - k <= p < |a| ==> a[p] == b[p + |b| - |a|]) &&
    (k == |a| || k == |b| || a[|a| - 1 - k] != b[|b| - 1 - k])
  }

  lemma {:induction false} SharedTailGrows(a: string, b: string, k: nat)
    requires a != "" && b != "" && a[|a| - 1] == b[|b| - 1]
    requires IsSharedTail(a[..|a| - 1], b[..|b| - 1], k)
    ensures IsSharedTail(a, b, k + 1)
  {
    var a', b' := a[..|a| - 1], b[..|b| - 1];
    forall p | |a| - (k + 1) <= p < |a| ensures a[p] == b[p + |b| - |a|] {
      if p < |a| - 1 {
        assert a'[p] == b'[p + |b'| - |a'|];
      }
    }
  }

  lemma {:induction false} SharedTailMeaning(a: string, b: string)
    ensures IsSharedTail(a, b, SharedTail(a, b))
  {
    if a != "" && b != "" && a[|a| - 1] == b[|b| - 1] {
      SharedTailMeaning(a[..|a| - 1], b[..|b| - 1]);
      SharedTailGrows(a, b, SharedTail(a[..|a| - 1], b[..|b| - 1]));
    }
  }

  /**
   * One past the end of the line when it replaces nothing, or the same line;
   * else in front of the longest tail the two lines share.
   */
  ghost predicate ColumnIs(replaced: Option<string>, inserted: string, column: nat) {
    if replaced.None? || replaced.value == inserted then column == |inserted| + 1
    else 1 <= column <= |inserted| + 1 && IsSharedTail(replaced.value, inserted, |inserted| + 1 - column)
  }

  lemma EndColumnIs(replaced: Option<string>, inserted: string)
    ensures ColumnIs(replaced, inserted, EndColumn(replaced, inserted))
  {
    if replaced.Some? {
      SharedTailMeaning(replaced.value, inserted);
    }
  }

  lemma SharedTailStep(a: string, b: string, k: nat)
    requires k < |a| && k < |b| && a[|a| - 1 - k] == b[|b| - 1 - k]
    ensures SharedTail(a[..|a| - k], b[..|b| - k]) == 1 + SharedTail(a[..|a| - (k + 1)], b[..|b| - (k + 1)])
  {
    var front, other := a[..|a| - k], b[..|b| - k];
    assert front[..|front| - 1] == a[..|a| - (k + 1)] && other[..|other| - 1] == b[..|b| - (k + 1)];
  }

  method EndColumnOf(replaced: Option<string>, inserted: string) returns (column: nat)
    ensures column == EndColumn(replaced, inserted) && ColumnIs(replaced, inserted, column)
  {
    if replaced.None? || replaced.value == inserted { return |inserted| + 1; }
    var old_ := replaced.value;
    var shared := 0;
    assert old_[..|old_|] == old_ && inserted[..|inserted|] == inserted;
    while shared < |old_| && shared < |inserted| && old_[|old_| - 1 - shared] == inserted[|inserted| - 1 - shared]
      invariant shared <= |old_| && shared <= |inserted|
      invariant shared + SharedTail(old_[..|old_| - shared], inserted[..|inserted| - shared]) == SharedTail(old_, inserted)
    {
      SharedTailStep(old_, inserted, shared);
      shared := shared + 1;
    }
    EndColumnIs(replaced, inserted);
    return |inserted| - shared + 1;
  }

  /** The caret after one more hunk, whose last line is line `produced` of the new text. */
  function CaretAfter(old_: Lines, hunk: Hunk, produced: nat, caret: Option<Caret>): Option<Caret>
    requires hunk.End() <= |old_|
  {
    if hunk.inserted != [] then
      var replaced := if hunk.deleted > 0 then Some(old_[hunk.start]) else None;
      Some(Caret(produced, EndColumn(replaced, hunk.inserted[|hunk.inserted| - 1])))
    else if hunk.deleted > 0 then Some(Caret(if produced >= 1 then produced else 1, 1))
    else caret
  }

  function CaretFrom(old_: Lines, hunks: seq<Hunk>, pos: nat, produced: nat, caret: Option<Caret>): Option<Caret>
    requires Ordered(hunks, pos, |old_|)
    decreases |hunks|
  {
    if hunks == [] then caret
    else
      var produced' := produced + (hunks[0].start - pos) + |hunks[0].inserted|;
      CaretFrom(old_, hunks[1..], hunks[0].End(), produced', CaretAfter(old_, hunks[0], produced', caret))
  }

  // ------------------------------------------------------------- reconciliation

  function ReconcileProvenance(previous: seq<LineProvenance>, previousContent: string, nextContent: string,
                               writer: Writer, supply: nat): Update
  {
    var old_, new_ := SplitLines(previousContent), SplitLines(nextContent);
    DiffIsCorrect(old_, new_);
    var origins := Origins(old_, new_);
    Update(Attribute(origins, previous, writer, supply),
           ChangedIds(origins, previous, supply),
           CaretFrom(old_, DiffLines(old_, new_), 0, 0, None),
           FreshAfter(origins, previous, supply))
  }

  lemma {:induction false} FreshConcat(xs: seq<Option<nat>>, ys: seq<Option<nat>>, previous: seq<LineProvenance>, supply: nat)
    ensures FreshAfter(xs + ys, previous, supply) == FreshAfter(ys, previous, FreshAfter(xs, previous, supply))
  {
    if xs == [] {
      assert xs + ys == ys;
    } else {
      FreshConcat(xs[1..], ys, previous, NextFresh(xs[0], previous, supply));
      assert (xs + ys)[1..] == xs[1..] + ys;
    }
  }

  lemma {:induction false} ChangedConcat(xs: seq<Option<nat>>, ys: seq<Option<nat>>, previous: seq<LineProvenance>, supply: nat)
    ensures ChangedIds(xs + ys, previous, supply) ==
            ChangedIds(xs, previous, supply) + ChangedIds(ys, previous, FreshAfter(xs, previous, supply))
  {
    if xs == [] {
      assert xs + ys == ys;
    } else {
      var next := NextFresh(xs[0], previous, supply);
      ChangedConcat(xs[1..], ys, previous, next);
      ConsConcat(xs, ys);
      Reassociate(if xs[0].None? then [supply] else [], ChangedIds(xs[1..], previous, next),
                  ChangedIds(ys, previous, FreshAfter(xs[1..], previous, next)));
    }
  }

  lemma {:induction false} ConsConcat<T>(xs: seq<T>, ys: seq<T>)
    requires xs != []
    ensures (xs + ys)[0] == xs[0] && (xs + ys)[1..] == xs[1..] + ys
  {
  }

  lemma {:induction false} Reassociate<T>(a: seq<T>, b: seq<T>, c: seq<T>)
    ensures a + (b + c) == a + b + c
  {
  }

  lemma {:induction false} AttributeConcat(xs: seq<Option<nat>>, ys: seq<Option<nat>>,
                                           previous: seq<LineProvenance>, writer: Writer, supply: nat)
    ensures Attribute(xs + ys, previous, writer, supply) ==
            Attribute(xs, previous, writer, supply) + Attribute(ys, previous, writer, FreshAfter(xs, previous, supply))
  {
    if xs == [] {
      assert xs + ys == ys;
    } else {
      var next := NextFresh(xs[0], previous, supply);
      AttributeConcat(xs[1..], ys, previous, writer, next);
      ConsConcat(xs, ys);
      Reassociate([Entry(xs[0], previous, writer, supply)], Attribute(xs[1..], previous, writer, next),
                  Attribute(ys, previous, writer, FreshAfter(xs[1..], previous, next)));
    }
  }

  /** What the loops have produced after the origins `done`. */
  ghost predicate Produced(done: seq<Option<nat>>, previous: seq<LineProvenance>, writer: Writer, start: nat,
                           lines: seq<LineProvenance>, changed: seq<nat>, supply: nat)
  {
    lines == Attribute(done, previous, writer, start) &&
    changed == ChangedIds(done, previous, start) &&
    supply == FreshAfter(done, previous, start)
  }

  lemma {:induction false} ProducedOne(done: seq<Option<nat>>, origin: Option<nat>, previous: seq<LineProvenance>, writer: Writer, start: nat,
                    lines: seq<LineProvenance>, changed: seq<nat>, supply: nat)
    requires Produced(done, previous, writer, start, lines, changed, supply)
    ensures Produced(done + [origin], previous, writer, start,
                     lines + [Entry(origin, previous, writer, supply)],
                     changed + (if origin.None? then [supply] else []),
                     NextFresh(origin, previous, supply))
  {
    AttributeConcat(done, [origin], previous, writer, start);
    ChangedConcat(done, [origin], previous, start);
    FreshConcat(done, [origin], previous, start);
    assert [origin][1..] == [];
  }

  /** Copies the entries of the base lines `from..to`. */
  method CarryRun(ghost done: seq<Option<nat>>, previous: seq<LineProvenance>, writer: Writer, ghost start: nat,
                  from: nat, to: nat, lines0: seq<LineProvenance>, ghost changed: seq<nat>, supply0: nat)
    returns (lines: seq<LineProvenance>, supply: nat)
    requires from <= to && Produced(done, previous, writer, start, lines0, changed, supply0)
    ensures Produced(done + KeptRun(from, to), previous, writer, start, lines, changed, supply)
    ensures |lines| == |lines0| + (to - from)
  {
    lines, supply := lines0, supply0;
    var cursor := from;
    assert done + KeptRun(from, from) == done;
    while cursor < to
      invariant from <= cursor <= to
      invariant Produced(done + KeptRun(from, cursor), previous, writer, start, lines, changed, supply)
      invariant |lines| == |lines0| + (cursor - from)
    {
      ProducedOne(done + KeptRun(from, cursor), Some(cursor), previous, writer, start, lines, changed, supply);
      assert changed + [] == changed;
      assert done + KeptRun(from, cursor) + [Some(cursor)] == done + KeptRun(from, cursor + 1);
      if cursor < |previous| {
        lines := lines + [previous[cursor]];
      } else {
        lines := lines + [Unattributed(writer, supply)];
        supply := supply + 1;
      }
      cursor := cursor + 1;
    }
  }

  /** Attributes `count` inserted lines to the writer. */
  method AttributeRun(ghost done: seq<Option<nat>>, ghost previous: seq<LineProvenance>, writer: Writer, ghost start: nat,
                      count: nat, lines0: seq<LineProvenance>, changed0: seq<nat>, supply0: nat)
    returns (lines: seq<LineProvenance>, changed: seq<nat>, supply: nat)
    requires Produced(done, previous, writer, start, lines0, changed0, supply0)
    ensures Produced(done + NewRun(count), previous, writer, start, lines, changed, supply)
    ensures |lines| == |lines0| + count
  {
    lines, changed, supply := lines0, changed0, supply0;
    assert done + NewRun(0) == done;
    for n := 0 to count
      invariant Produced(done + NewRun(n), previous, writer, start, lines, changed, supply)
      invariant |lines| == |lines0| + n
    {
      ProducedOne(done + NewRun(n), None, previous, writer, start, lines, changed, supply);
      assert done + NewRun(n) + [None] == done + NewRun(n + 1);
      lines := lines + [Attributed(writer, supply)];
      changed := changed + [supply];
      supply := supply + 1;
    }
  }

  /** One hunk: the kept lines before it, then its inserted lines, then the caret. */
  method ReconcileHunk(ghost done: seq<Option<nat>>, previous: seq<LineProvenance>, writer: Writer, ghost start: nat,
                       oldLines: Lines, hunk: Hunk, cursor: nat,
                       lines0: seq<LineProvenance>, changed0: seq<nat>, supply0: nat, caret0: Option<Caret>)
    returns (lines: seq<LineProvenance>, changed: seq<nat>, supply: nat, caret: Option<Caret>)
    requires cursor <= hunk.start && hunk.End() <= |oldLines|
    requires Produced(done, previous, writer, start, lines0, changed0, supply0)
    ensures Produced(done + KeptRun(cursor, hunk.start) + NewRun(|hunk.inserted|), previous, writer, start, lines, changed, supply)
    ensures |lines| == |lines0| + (hunk.start - cursor) + |hunk.inserted|
    ensures caret == CaretAfter(oldLines, hunk, |lines|, caret0)
  {
    lines, supply := CarryRun(done, previous, writer, start, cursor, hunk.start, lines0, changed0, supply0);
    var replaced: Option<string> := if hunk.deleted > 0 then Some(oldLines[hunk.start]) else None;
    lines, changed, supply := AttributeRun(done + KeptRun(cursor, hunk.start), previous, writer, start,
                                           |hunk.inserted|, lines, changed0, supply);
    caret := caret0;
    if |hunk.inserted| > 0 {
      var column := EndColumnOf(replaced, hunk.inserted[|hunk.inserted| - 1]);
      caret := Some(Caret(|lines|, column));
    } else if hunk.deleted > 0 {
      caret := Some(Caret(if |lines| >= 1 then |lines| else 1, 1));
    }
  }

  /** What is still to come after the hunks before `h`: alignment and caret. */
  ghost predicate Remaining(oldLines: Lines, hunks: seq<Hunk>, h: nat, cursor: nat, done: seq<Option<nat>>, produced: nat,
                            caret: Option<Caret>)
    requires h <= |hunks| && Ordered(hunks, 0, |oldLines|)
  {
    Ordered(hunks[h..], cursor, |oldLines|) &&
    done + Alignment(hunks[h..], cursor, |oldLines|) == Alignment(hunks, 0, |oldLines|) &&
    CaretFrom(oldLines, hunks[h..], cursor, produced, caret) == CaretFrom(oldLines, hunks, 0, 0, None)
  }

  lemma {:induction false} RemainingEnd(oldLines: Lines, hunks: seq<Hunk>, cursor: nat, done: seq<Option<nat>>, produced: nat,
                                        caret: Option<Caret>)
    requires Ordered(hunks, 0, |oldLines|) && Remaining(oldLines, hunks, |hunks|, cursor, done, produced, caret)
    ensures cursor <= |oldLines| && done + KeptRun(cursor, |oldLines|) == Alignment(hunks, 0, |oldLines|)
    ensures caret == CaretFrom(oldLines, hunks, 0, 0, None)
  {
    assert hunks[|hunks|..] == [];
  }

  lemma {:induction false} RemainingStep(oldLines: Lines, hunks: seq<Hunk>, h: nat, cursor: nat, done: seq<Option<nat>>, produced: nat,
                      caret: Option<Caret>)
    requires h < |hunks| && Ordered(hunks, 0, |oldLines|) && Remaining(oldLines, hunks, h, cursor, done, produced, caret)
    ensures cursor <= hunks[h].start && hunks[h].End() <= |oldLines|
    ensures var produced' := produced + (hunks[h].start - cursor) + |hunks[h].inserted|;
            Remaining(oldLines, hunks, h + 1, hunks[h].End(),
                      done + KeptRun(cursor, hunks[h].start) + NewRun(|hunks[h].inserted|),
                      produced', CaretAfter(oldLines, hunks[h], produced', caret))
  {
    var now, next := hunks[h..], hunks[h + 1..];
    assert now[0] == hunks[h] && now[1..] == next;
    var kept, added := KeptRun(cursor, hunks[h].start), NewRun(|hunks[h].inserted|);
    var rest := Alignment(next, hunks[h].End(), |oldLines|);
    assert done + (kept + added + rest) == done + kept + added + rest;
  }

  lemma {:induction false} RemainingAtFirst(oldLines: Lines, hunks: seq<Hunk>)
    requires Ordered(hunks, 0, |oldLines|)
    ensures Remaining(oldLines, hunks, 0, 0, [], 0, None)
  {
    assert hunks[0..] == hunks;
    assert [] + Alignment(hunks, 0, |oldLines|) == Alignment(hunks, 0, |oldLines|);
  }

  /** Every hunk in order, then the kept lines after the last one. */
  method ReconcileHunks(previous: seq<LineProvenance>, writer: Writer, start: nat, oldLines: Lines, hunks: seq<Hunk>)
    returns (lines: seq<LineProvenance>, changed: seq<nat>, supply: nat, caret: Option<Caret>)
    requires Ordered(hunks, 0, |oldLines|)
    ensures Produced(Alignment(hunks, 0, |oldLines|), previous, writer, start, lines, changed, supply)
    ensures caret == CaretFrom(oldLines, hunks, 0, 0, None)
  {
    lines, changed, supply, caret := [], [], start, None;
    var cursor := 0;
    ghost var done: seq<Option<nat>> := [];
    RemainingAtFirst(oldLines, hunks);
    for h := 0 to |hunks|
      invariant Remaining(oldLines, hunks, h, cursor, done, |lines|, caret)
      invariant Produced(done, previous, writer, start, lines, changed, supply)
    {
      RemainingStep(oldLines, hunks, h, cursor, done, |lines|, caret);
      ghost var done' := done + KeptRun(cursor, hunks[h].start) + NewRun(|hunks[h].inserted|);
      lines, changed, supply, caret :=
        ReconcileHunk(done, previous, writer, start, oldLines, hunks[h], cursor, lines, changed, supply, caret);
      done := done';
      cursor := hunks[h].End();
    }
    RemainingEnd(oldLines, hunks, cursor, done, |lines|, caret);
    lines, supply := CarryRun(done, previous, writer, start, cursor, |oldLines|, lines, changed, supply);
  }

  /** The length check at the end never fires. */
  method Reconcile(previous: seq<LineProvenance>, previousContent: string, nextContent: string,
                   writer: Writer, supply: nat) returns (result: ReconcileResult)
    ensures result == Reconciled(ReconcileProvenance(previous, previousContent, nextContent, writer, supply))
  {
    var oldLines, newLines := SplitLines(previousContent), SplitLines(nextContent);
    var hunks := ComputeDiff(oldLines, newLines);
    DiffIsCorrect(oldLines, newLines);
    var lines, changed, next, caret := ReconcileHunks(previous, writer, supply, oldLines, hunks);
    if |lines| != |newLines| {
      result := InvariantViolated(|lines|, |newLines|);
    } else {
      result := Reconciled(Update(lines, changed, caret, next));
    }
    EntriesMatchLines(previous, previousContent, nextContent, writer, supply);
  }

  // ----------------------------------------------------------------- what it means

  lemma {:induction false} AttributeAt(origins: seq<Option<nat>>, previous: seq<LineProvenance>, writer: Writer, supply: nat, j: nat)
    requires j < |origins|
    ensures |Attribute(origins, previous, writer, supply)| == |origins|
    ensures supply <= FreshAfter(origins[..j], previous, supply)
    ensures Attribute(origins, previous, writer, supply)[j] ==
            Entry(origins[j], previous, writer, FreshAfter(origins[..j], previous, supply))
    ensures NextFresh(origins[j], previous, FreshAfter(origins[..j], previous, supply)) <= FreshAfter(origins, previous, supply)
  {
    var next := NextFresh(origins[0], previous, supply);
    if j > 0 {
      AttributeAt(origins[1..], previous, writer, next, j - 1);
      assert origins[..j][1..] == origins[1..][..j - 1];
    } else if |origins| > 1 {
      AttributeAt(origins[1..], previous, writer, next, 0);
    }
  }

  lemma {:induction false} AttributeLength(origins: seq<Option<nat>>, previous: seq<LineProvenance>, writer: Writer, supply: nat)
    ensures |Attribute(origins, previous, writer, supply)| == |origins|
    ensures |ChangedIds(origins, previous, supply)| == Insertions(origins)
    ensures supply <= FreshAfter(origins, previous, supply)
  {
    if origins != [] {
      AttributeLength(origins[1..], previous, writer, NextFresh(origins[0], previous, supply));
    }
  }

  lemma {:induction false} FreshAscends(origins: seq<Option<nat>>, previous: seq<LineProvenance>, supply: nat, i: nat, j: nat)
    requires i < j <= |origins|
    ensures NextFresh(origins[i], previous, FreshAfter(origins[..i], previous, supply)) <= FreshAfter(origins[..j], previous, supply)
    ensures supply <= FreshAfter(origins[..i], previous, supply)
  {
    var writer := Writer(None, None, 0, 0, 0);
    assert origins[..j][..i] == origins[..i] && origins[..j][i] == origins[i];
    AttributeAt(origins[..j], previous, writer, supply, i);
  }

  /** One entry per line, for any two texts and any previous entries, even too few. */
  lemma {:induction false} EntriesMatchLines(previous: seq<LineProvenance>, previousContent: string, nextContent: string, writer: Writer, supply: nat)
    ensures var update := ReconcileProvenance(previous, previousContent, nextContent, writer, supply);
            |update.lines| == |SplitLines(nextContent)| &&
            |update.changed| == Inserted(DiffLines(SplitLines(previousContent), SplitLines(nextContent))) &&
            supply <= update.supply
  {
    var origins := Origins(SplitLines(previousContent), SplitLines(nextContent));
    OriginsAreAlignment(SplitLines(previousContent), SplitLines(nextContent));
    AttributeLength(origins, previous, writer, supply);
  }

  /** The entry names the writer, its contribution, version and time; an empty human id names nobody. */
  ghost predicate BelongsTo(entry: LineProvenance, writer: Writer) {
    entry.agent == writer.agent && entry.contribution == Some(writer.contribution) && entry.version == writer.version &&
    entry.at == writer.at && (writer.human != Some("") ==> entry.human == writer.human) && (writer.human == Some("") ==> entry.human.None?)
  }

  /** The entry names nobody and no contribution, at the writer's version and time. */
  ghost predicate BelongsToNobody(entry: LineProvenance, writer: Writer) {
    entry.agent.None? && entry.human.None? && entry.contribution.None? && entry.version == writer.version && entry.at == writer.at
  }

  /**
   * Kept lines carry the entry of the line they are; inserted lines, and only
   * those, name the writer under an id from the fresh supply.
   */
  lemma {:induction false} AttributionIsExact(previous: seq<LineProvenance>, previousContent: string, nextContent: string,
                           writer: Writer, supply: nat, j: nat)
    requires j < |SplitLines(nextContent)|
    ensures var old_, new_ := SplitLines(previousContent), SplitLines(nextContent);
            var origins := Origins(old_, new_);
            var update := ReconcileProvenance(previous, previousContent, nextContent, writer, supply);
            |origins| == |update.lines| == |new_| &&
            (origins[j].Some? && origins[j].value < |previous| ==>
               origins[j].value < |old_| && old_[origins[j].value] == new_[j] &&
               update.lines[j] == previous[origins[j].value]) &&
            (origins[j].Some? && origins[j].value >= |previous| ==>
               BelongsToNobody(update.lines[j], writer) && supply <= update.lines[j].lineId < update.supply) &&
            (origins[j].None? ==>
               BelongsTo(update.lines[j], writer) && supply <= update.lines[j].lineId < update.supply)
  {
    var origins := Origins(SplitLines(previousContent), SplitLines(nextContent));
    OriginsAreAlignment(SplitLines(previousContent), SplitLines(nextContent));
    AttributeAt(origins, previous, writer, supply, j);
  }

  ghost predicate DistinctIds(lines: seq<LineProvenance>) {
    forall i, j :: 0 <= i < j < |lines| ==> lines[i].lineId != lines[j].lineId
  }

  ghost predicate IdsBelow(lines: seq<LineProvenance>, supply: nat) {
    forall i :: 0 <= i < |lines| ==> lines[i].lineId < supply
  }

  /** Line identities stay pairwise distinct. */
  lemma {:induction false} IdsStayDistinct(previous: seq<LineProvenance>, previousContent: string, nextContent: string, writer: Writer, supply: nat)
    requires DistinctIds(previous) && IdsBelow(previous, supply)
    ensures var update := ReconcileProvenance(previous, previousContent, nextContent, writer, supply);
            DistinctIds(update.lines) && IdsBelow(update.lines, update.supply)
  {
    var old_, new_ := SplitLines(previousContent), SplitLines(nextContent);
    var origins := Origins(old_, new_);
    OriginsAreAlignment(old_, new_);
    var update := ReconcileProvenance(previous, previousContent, nextContent, writer, supply);
    EntriesMatchLines(previous, previousContent, nextContent, writer, supply);
    forall i | 0 <= i < |update.lines| ensures update.lines[i].lineId < update.supply {
      AttributionIsExact(previous, previousContent, nextContent, writer, supply, i);
    }
    forall i, j | 0 <= i < j < |update.lines| ensures update.lines[i].lineId != update.lines[j].lineId {
      DistinctAt(origins, previous, writer, supply, i, j);
    }
  }

  lemma {:induction false} DistinctAt(origins: seq<Option<nat>>, previous: seq<LineProvenance>, writer: Writer, supply: nat, i: nat, j: nat)
    requires i < j < |origins| && DistinctIds(previous) && IdsBelow(previous, supply)
    requires origins[i].Some? && origins[j].Some? ==> origins[i].value < origins[j].value
    ensures |Attribute(origins, previous, writer, supply)| == |origins|
    ensures Attribute(origins, previous, writer, supply)[i].lineId != Attribute(origins, previous, writer, supply)[j].lineId
  {
    AttributeAt(origins, previous, writer, supply, i);
    AttributeAt(origins, previous, writer, supply, j);
    FreshAscends(origins, previous, supply, i, j);
  }

  lemma {:induction false} ChangedAre(origins: seq<Option<nat>>, previous: seq<LineProvenance>, writer: Writer, supply: nat, id: nat)
    ensures id in ChangedIds(origins, previous, supply) <==>
            exists j :: 0 <= j < |origins| && origins[j].None? && |Attribute(origins, previous, writer, supply)| == |origins|
                        && Attribute(origins, previous, writer, supply)[j].lineId == id
  {
    AttributeLength(origins, previous, writer, supply);
    if origins != [] {
      var next := NextFresh(origins[0], previous, supply);
      var rest := Attribute(origins[1..], previous, writer, next);
      AttributeLength(origins[1..], previous, writer, next);
      ChangedAre(origins[1..], previous, writer, next, id);
      var all := Attribute(origins, previous, writer, supply);
      assert forall j :: 0 <= j < |rest| ==> all[j + 1] == rest[j] && origins[j + 1] == origins[1..][j];
      if j :| 0 <= j < |origins| && origins[j].None? && all[j].lineId == id {
        if j > 0 {
          assert origins[1..][j - 1].None? && rest[j - 1].lineId == id;
        }
      }
    }
  }

  /** The ids a commit reports as changed are those of the lines it inserted. */
  lemma {:induction false} ChangedAreInserted(previous: seq<LineProvenance>, previousContent: string, nextContent: string,
                           writer: Writer, supply: nat, id: nat)
    ensures var update := ReconcileProvenance(previous, previousContent, nextContent, writer, supply);
            var origins := Origins(SplitLines(previousContent), SplitLines(nextContent));
            |update.lines| == |origins| &&
            (id in update.changed <==>
             exists j :: 0 <= j < |origins| && origins[j].None? && update.lines[j].lineId == id)
  {
    var origins := Origins(SplitLines(previousContent), SplitLines(nextContent));
    AttributeLength(origins, previous, writer, supply);
    ChangedAre(origins, previous, writer, supply, id);
  }

  // ------------------------------------------------------------------- caret

  ghost predicate CaretFits(caret: Option<Caret>, produced: nat) {
    caret.Some? ==> 1 <= caret.value.line && (caret.value.line <= produced || caret.value.line == 1) && caret.value.column >= 1
  }

  lemma {:induction false} CaretFitsFrom(old_: Lines, hunks: seq<Hunk>, pos: nat, produced: nat, caret: Option<Caret>)
    requires Ordered(hunks, pos, |old_|) && CaretFits(caret, produced)
    requires forall k :: 0 <= k < |hunks| ==> hunks[k].deleted > 0 || hunks[k].inserted != []
    ensures CaretFits(CaretFrom(old_, hunks, pos, produced, caret), produced + |ApplyFrom(old_, hunks, pos)|)
    ensures CaretFrom(old_, hunks, pos, produced, caret).Some? <==> hunks != [] || caret.Some?
    decreases |hunks|
  {
    if hunks != [] {
      var produced' := produced + (hunks[0].start - pos) + |hunks[0].inserted|;
      var caret' := CaretAfter(old_, hunks[0], produced', caret);
      assert forall k :: 0 <= k < |hunks[1..]| ==> hunks[1..][k] == hunks[k + 1];
      assert CaretFits(caret', produced') && caret'.Some?;
      CaretFitsFrom(old_, hunks[1..], hunks[0].End(), produced', caret');
      assert produced + |ApplyFrom(old_, hunks, pos)| == produced' + |ApplyFrom(old_, hunks[1..], hunks[0].End())|;
    }
  }

  /** There is a caret exactly when the lines changed, and it stands inside the new text. */
  lemma {:induction false} CaretIsInside(previous: seq<LineProvenance>, previousContent: string, nextContent: string, writer: Writer, supply: nat)
    ensures var caret := ReconcileProvenance(previous, previousContent, nextContent, writer, supply).caret;
            var lines := SplitLines(nextContent);
            (caret.Some? <==> SplitLines(previousContent) != lines) &&
            (caret.Some? ==> 1 <= caret.value.line <= (if |lines| >= 1 then |lines| else 1) && caret.value.column >= 1)
  {
    var old_, new_ := SplitLines(previousContent), SplitLines(nextContent);
    var hunks := DiffLines(old_, new_);
    DiffIsCorrect(old_, new_);
    DiffIsEmpty(old_, new_);
    forall k | 0 <= k < |hunks| ensures hunks[k].deleted > 0 || hunks[k].inserted != [] {
      SeparatedBounds(hunks, 0, |old_|, k);
    }
    CaretFitsFrom(old_, hunks, 0, 0, None);
  }

  /** The caret the last hunk leaves, at line `line` of the new text. */
  function CaretAt(old_: Lines, hunk: Hunk, line: nat): Caret
    requires hunk.End() <= |old_|
  {
    if hunk.inserted == [] then Caret(if line >= 1 then line else 1, 1)
    else Caret(line, EndColumn(if hunk.deleted > 0 then Some(old_[hunk.start]) else None, hunk.inserted[|hunk.inserted| - 1]))
  }

  lemma {:induction false} BehindFront(front: Lines, rest: Lines, from: nat)
    requires from <= |rest|
    ensures (front + rest)[|front| + from..] == rest[from..]
  {
  }

  /** The caret is at the end of the last hunk, and behind it the new text is the old one. */
  ghost predicate EndsAtLast(old_: Lines, hunks: seq<Hunk>, pos: nat, produced: nat, caret: Option<Caret>)
    requires Ordered(hunks, pos, |old_|) && hunks != []
  {
    var last := hunks[|hunks| - 1];
    var new_ := ApplyFrom(old_, hunks, pos);
    last.End() <= |old_| && |old_| - last.End() <= |new_| &&
    var kept := |new_| - (|old_| - last.End());
    CaretFrom(old_, hunks, pos, produced, caret) == Some(CaretAt(old_, last, produced + kept)) && new_[kept..] == old_[last.End()..]
  }

  lemma {:induction false} CaretOfOne(old_: Lines, hunk: Hunk, pos: nat, produced: nat, caret: Option<Caret>)
    requires pos <= hunk.start && hunk.End() <= |old_| && (hunk.deleted > 0 || hunk.inserted != [])
    ensures Ordered([hunk], pos, |old_|) && EndsAtLast(old_, [hunk], pos, produced, caret)
  {
    ApplyCons(old_, hunk, [], pos);
    BehindFront(old_[pos..hunk.start] + hunk.inserted, old_[hunk.End()..], 0);
    assert [hunk][1..] == [];
  }

  lemma {:induction false} CaretOfMore(old_: Lines, hunk: Hunk, rest: seq<Hunk>, pos: nat, produced: nat, caret: Option<Caret>)
    requires pos <= hunk.start && hunk.End() <= |old_| && Ordered(rest, hunk.End(), |old_|) && rest != []
    requires var produced' := produced + (hunk.start - pos) + |hunk.inserted|;
             EndsAtLast(old_, rest, hunk.End(), produced', CaretAfter(old_, hunk, produced', caret))
    ensures Ordered([hunk] + rest, pos, |old_|) && EndsAtLast(old_, [hunk] + rest, pos, produced, caret)
  {
    var front, behind := old_[pos..hunk.start] + hunk.inserted, ApplyFrom(old_, rest, hunk.End());
    ApplyCons(old_, hunk, rest, pos);
    assert ([hunk] + rest)[1..] == rest && ([hunk] + rest)[|rest|] == rest[|rest| - 1];
    BehindFront(front, behind, |behind| - (|old_| - rest[|rest| - 1].End()));
  }

  lemma {:induction false} CaretFromLast(old_: Lines, hunks: seq<Hunk>, pos: nat, produced: nat, caret: Option<Caret>)
    requires Ordered(hunks, pos, |old_|) && hunks != []
    requires forall k :: 0 <= k < |hunks| ==> hunks[k].deleted > 0 || hunks[k].inserted != []
    ensures EndsAtLast(old_, hunks, pos, produced, caret)
    decreases |hunks|
  {
    var hunk, rest := hunks[0], hunks[1..];
    assert hunks == [hunk] + rest;
    if rest == [] {
      CaretOfOne(old_, hunk, pos, produced, caret);
    } else {
      var produced' := produced + (hunk.start - pos) + |hunk.inserted|;
      assert forall k :: 0 <= k < |rest| ==> rest[k] == hunks[k + 1];
      CaretFromLast(old_, rest, hunk.End(), produced', CaretAfter(old_, hunk, produced', caret));
      CaretOfMore(old_, hunk, rest, pos, produced, caret);
    }
  }

  /**
   * Where the last hunk leaves the caret when its last line is `line` of the new
   * text. Behind a deletion it stands at the start of a line; behind an insertion
   * at the column `ColumnIs` gives, against the line replaced, if there is one.
   */
  ghost predicate CaretStands(caret: Caret, old_: Lines, hunk: Hunk, line: nat)
    requires hunk.End() <= |old_|
  {
    if hunk.inserted == [] then
      caret.column == 1 && (line == 0 ==> caret.line == 1) && (line >= 1 ==> caret.line == line)
    else
      caret.line == line &&
      ColumnIs(if hunk.deleted > 0 then Some(old_[hunk.start]) else None, hunk.inserted[|hunk.inserted| - 1], caret.column)
  }

  /**
   * The caret stands at the end of the last change: from its line on the new
   * text is the old text behind the last hunk.
   */
  lemma {:induction false} CaretIsLastChange(previous: seq<LineProvenance>, previousContent: string, nextContent: string,
                                             writer: Writer, supply: nat)
    requires SplitLines(previousContent) != SplitLines(nextContent)
    ensures var old_, new_ := SplitLines(previousContent), SplitLines(nextContent);
            var hunks := DiffLines(old_, new_);
            hunks != [] &&
            var last := hunks[|hunks| - 1];
            last.End() <= |old_| && |old_| - last.End() <= |new_| &&
            var line := |new_| - (|old_| - last.End());
            new_[line..] == old_[last.End()..] &&
            var caret := ReconcileProvenance(previous, previousContent, nextContent, writer, supply).caret;
            caret.Some? && CaretStands(caret.value, old_, last, line)
  {
    var old_, new_ := SplitLines(previousContent), SplitLines(nextContent);
    var hunks := DiffLines(old_, new_);
    DiffIsCorrect(old_, new_);
    DiffIsEmpty(old_, new_);
    forall k | 0 <= k < |hunks| ensures hunks[k].deleted > 0 || hunks[k].inserted != [] {
      SeparatedBounds(hunks, 0, |old_|, k);
    }
    CaretFromLast(old_, hunks, 0, 0, None);
    var last := hunks[|hunks| - 1];
    if last.inserted != [] {
      EndColumnIs(if last.deleted > 0 then Some(old_[last.start]) else None, last.inserted[|last.inserted| - 1]);
    }
  }

  // ------------------------------------------------------------ responsible Agents

  datatype ResponsibleAgents = ResponsibleAgents(recommended: Option<string>, candidates: seq<string>, ambiguous: bool)

  /** Agents named on lines `start..end` (1-based, inclusive). */
  ghost predicate NamedIn(lines: seq<LineProvenance>, start: int, end: int, agent: string) {
    agent != "" && exists k :: 0 <= k < |lines| && start <= k + 1 <= end && lines[k].agent == Some(agent)
  }

  /** The candidates are those named, once each; one is recommended if it is the only one. */
  ghost predicate Routes(lines: seq<LineProvenance>, start: int, end: int, result: ResponsibleAgents) {
    (forall a :: a in result.candidates <==> NamedIn(lines, start, end, a)) &&
    (forall i, j :: 0 <= i < j < |result.candidates| ==> result.candidates[i] != result.candidates[j]) &&
    (forall a :: result.recommended == Some(a) <==> result.candidates == [a]) &&
    (result.ambiguous <==> |result.candidates| > 1)
  }

  /** Who a comment on lines `start..end` should go to. */
  method Responsible(lines: seq<LineProvenance>, start: int, end: int) returns (result: ResponsibleAgents)
    ensures Routes(lines, start, end, result)
    ensures forall a :: result.recommended == Some(a) <==>
              NamedIn(lines, start, end, a) && forall b :: NamedIn(lines, start, end, b) ==> b == a
    ensures result.ambiguous <==> exists a, b :: NamedIn(lines, start, end, a) && NamedIn(lines, start, end, b) && a != b
  {
    var found: seq<string> := [];
    var line := start;
    while line <= end
      invariant start <= line
      invariant line <= end + 1 || line == start
      invariant forall a :: a in found <==> NamedIn(lines, start, line - 1, a)
      invariant forall i, j :: 0 <= i < j < |found| ==> found[i] != found[j]
      decreases end - line
    {
      ghost var before := found;
      if 1 <= line <= |lines| {
        var entry := lines[line - 1];
        if entry.agent.Some? && entry.agent.value != "" && entry.agent.value !in found {
          found := found + [entry.agent.value];
        }
      }
      forall a ensures a in found <==> NamedIn(lines, start, line, a) {
        if NamedIn(lines, start, line, a) {
          var k :| 0 <= k < |lines| && start <= k + 1 <= line && lines[k].agent == Some(a);
          if k + 1 < line {
            assert NamedIn(lines, start, line - 1, a);
          }
        }
        if a in before {
          assert NamedIn(lines, start, line - 1, a);
        }
      }
      line := line + 1;
    }
    forall a ensures NamedIn(lines, start, line - 1, a) == NamedIn(lines, start, end, a) {
    }
    result := ResponsibleAgents(if |found| == 1 then Some(found[0]) else None, found, |found| > 1);
    if |found| >= 1 {
      assert found[0] in found;
    }
    if |found| > 1 {
      assert found[1] in found && found[0] != found[1];
    }
  }
}
