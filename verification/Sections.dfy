/**
 * Section ownership (apps/server/src/concord/sections.ts): where a section
 * lies in a text, which edits stay inside it, and who is allocated what.
 */
module Sections {
  import opened Options
  import opened Text
  import opened Diff

  /** 1-based, inclusive; the heading line belongs to the section. */
  datatype Range = Range(startLine: nat, endLine: nat)

  // ------------------------------------------------------------------ headings

  /** White space of the regular expression `\s` and of `trim`. */
  predicate IsSpace(c: char) {
    c == ' ' || '\t' <= c <= '\r' || c == '\U{00A0}' || c == '\U{1680}' || '\U{2000}' <= c <= '\U{200A}' ||
    c == '\U{2028}' || c == '\U{2029}' || c == '\U{202F}' || c == '\U{205F}' || c == '\U{3000}' || c == '\U{FEFF}'
  }

  function TrimStart(s: string): string {
    if s != "" && IsSpace(s[0]) then TrimStart(s[1..]) else s
  }

  function TrimEnd(s: string): string {
    if s != "" && IsSpace(s[|s| - 1]) then TrimEnd(s[..|s| - 1]) else s
  }

  function Trim(s: string): string {
    TrimEnd(TrimStart(s))
  }

  predicate AllSpace(s: string) {
    forall k :: 0 <= k < |s| ==> IsSpace(s[k])
  }

  lemma {:induction false} TrimStartIs(s: string) returns (n: nat)
    ensures n <= |s| && TrimStart(s) == s[n..] && AllSpace(s[..n]) && (n < |s| ==> !IsSpace(s[n]))
  {
    n := 0;
    if s != "" && IsSpace(s[0]) {
      var m := TrimStartIs(s[1..]);
      n := m + 1;
      assert forall k :: 0 < k < n ==> s[..n][k] == s[1..][..m][k - 1];
    }
  }

  lemma {:induction false} TrimEndIs(s: string) returns (n: nat)
    ensures n <= |s| && TrimEnd(s) == s[..n] && AllSpace(s[n..]) && (n > 0 ==> !IsSpace(s[n - 1]))
  {
    n := |s|;
    if s != "" && IsSpace(s[|s| - 1]) {
      n := TrimEndIs(s[..|s| - 1]);
      assert forall k :: 0 <= k < |s| - 1 - n ==> s[n..][k] == s[..|s| - 1][n..][k];
    }
  }

  /** Trimming takes white space off both ends, and all of it. */
  lemma {:induction false} TrimIs(s: string) returns (from: nat, to: nat)
    ensures from <= to <= |s| && Trim(s) == s[from..to] && AllSpace(s[..from]) && AllSpace(s[to..])
    ensures from < to ==> !IsSpace(s[from]) && !IsSpace(s[to - 1])
  {
    from := TrimStartIs(s);
    var n := TrimEndIs(s[from..]);
    to := from + n;
    assert s[from..][..n] == s[from..to] && s[from..][n..] == s[to..];
    if n > 0 {
      assert s[from..][n - 1] == s[to - 1];
    }
  }

  /** Number of leading `#`. */
  function Hashes(line: Line): nat {
    if line != "" && line[0] == '#' then 1 + Hashes(line[1..]) else 0
  }

  /** Level of a Markdown heading; 0 when the line is not one. */
  function HeadingLevel(line: Line): nat {
    var hashes := Hashes(line);
    if 1 <= hashes <= 6 && hashes < |line| && IsSpace(line[hashes]) then hashes else 0
  }

  lemma {:induction false} HashesAre(line: Line, k: nat)
    ensures Hashes(line) == k <==>
            k <= |line| && (forall i :: 0 <= i < k ==> line[i] == '#') && (k < |line| ==> line[k] != '#')
  {
    if line != "" && line[0] == '#' {
      if k > 0 {
        HashesAre(line[1..], k - 1);
        assert k - 1 <= |line[1..]| && (forall i :: 0 <= i < k - 1 ==> line[1..][i] == '#') ==>
               forall i :: 0 <= i < k && k <= |line| ==> line[i] == '#' by {
          if k - 1 <= |line[1..]| && forall i :: 0 <= i < k - 1 ==> line[1..][i] == '#' {
            forall i | 0 <= i < k ensures line[i] == '#' {
              if i > 0 { assert line[1..][i - 1] == line[i]; }
            }
          }
        }
      }
    }
  }

  /** The heading pattern: one to six `#`, then white space. A space is no `#`, so the run is all of them. */
  lemma HeadingLevelIs(line: Line, level: nat)
    requires level > 0
    ensures HeadingLevel(line) == level <==>
            level <= 6 && level < |line| && IsSpace(line[level]) && forall i :: 0 <= i < level ==> line[i] == '#'
  {
    HashesAre(line, level);
    HashesAre(line, Hashes(line));
  }

  // ---------------------------------------------------------------- the section

  /** A heading of the same or a higher level closes a section; level 0 is closed by any heading. */
  predicate Closes(level: nat, line: Line) {
    var candidate := HeadingLevel(line);
    candidate > 0 && (level == 0 || candidate <= level)
  }

  function FirstHeading(lines: Lines, wanted: string, from: nat): nat
    requires from <= |lines|
    decreases |lines| - from
  {
    if from == |lines| || Trim(lines[from]) == wanted then from else FirstHeading(lines, wanted, from + 1)
  }

  function SectionEnd(lines: Lines, level: nat, from: nat): nat
    requires from <= |lines|
    decreases |lines| - from
  {
    if from == |lines| || Closes(level, lines[from]) then from else SectionEnd(lines, level, from + 1)
  }

  function LocateLines(lines: Lines, heading: string): (range: Option<Range>)
    ensures range.Some? ==> 1 <= range.value.startLine <= range.value.endLine <= |lines|
  {
    FirstHeadingBounds(lines, Trim(heading), 0);
    var index := FirstHeading(lines, Trim(heading), 0);
    if index == |lines| then None
    else
      SectionEndBounds(lines, HeadingLevel(lines[index]), index + 1);
      Some(Range(index + 1, SectionEnd(lines, HeadingLevel(lines[index]), index + 1)))
  }

  function LocateSection(content: string, heading: string): (range: Option<Range>)
    ensures range.Some? ==> 1 <= range.value.startLine <= range.value.endLine <= |SplitLines(content)|
  {
    LocateLines(SplitLines(content), heading)
  }

  lemma {:induction false} FirstHeadingBounds(lines: Lines, wanted: string, from: nat)
    requires from <= |lines|
    ensures var index := FirstHeading(lines, wanted, from);
            from <= index <= |lines| &&
            (index < |lines| ==> Trim(lines[index]) == wanted) &&
            forall i :: from <= i < index ==> Trim(lines[i]) != wanted
    decreases |lines| - from
  {
    if from != |lines| && Trim(lines[from]) != wanted {
      FirstHeadingBounds(lines, wanted, from + 1);
    }
  }

  lemma {:induction false} SectionEndBounds(lines: Lines, level: nat, from: nat)
    requires from <= |lines|
    ensures var end := SectionEnd(lines, level, from);
            from <= end <= |lines| &&
            (end < |lines| ==> Closes(level, lines[end])) &&
            forall i :: from <= i < end ==> !Closes(level, lines[i])
    decreases |lines| - from
  {
    if from != |lines| && !Closes(level, lines[from]) {
      SectionEndBounds(lines, level, from + 1);
    }
  }

  /**
   * A section runs from the first line that reads as its heading to the line
   * before the next heading of the same or a higher level, past every deeper
   * one; if its own first line is no heading, any heading ends it.
   */
  lemma SectionIs(content: string, heading: string)
    ensures var lines := SplitLines(content);
            match LocateSection(content, heading)
            case None => forall i :: 0 <= i < |lines| ==> Trim(lines[i]) != Trim(heading)
            case Some(range) =>
              1 <= range.startLine <= range.endLine <= |lines| &&
              Trim(lines[range.startLine - 1]) == Trim(heading) &&
              (forall i :: 0 <= i < range.startLine - 1 ==> Trim(lines[i]) != Trim(heading)) &&
              var level := HeadingLevel(lines[range.startLine - 1]);
              (forall i :: range.startLine <= i < range.endLine ==>
                 HeadingLevel(lines[i]) == 0 || (level > 0 && HeadingLevel(lines[i]) > level)) &&
              (range.endLine < |lines| ==>
                 HeadingLevel(lines[range.endLine]) > 0 && (level == 0 || HeadingLevel(lines[range.endLine]) <= level))
  {
    var lines := SplitLines(content);
    FirstHeadingBounds(lines, Trim(heading), 0);
    var index := FirstHeading(lines, Trim(heading), 0);
    if index < |lines| {
      SectionEndBounds(lines, HeadingLevel(lines[index]), index + 1);
    }
  }

  method Locate(content: string, heading: string) returns (range: Option<Range>)
    ensures range == LocateSection(content, heading)
  {
    var lines := SplitLines(content);
    var wanted := Trim(heading);
    var index := 0;
    while index < |lines| && Trim(lines[index]) != wanted
      invariant index <= |lines|
      invariant FirstHeading(lines, wanted, index) == FirstHeading(lines, wanted, 0)
    {
      index := index + 1;
    }
    if index == |lines| { return None; }
    var level := HeadingLevel(lines[index]);
    var end := |lines|;
    var i := index + 1;
    while i < |lines|
      invariant index + 1 <= i <= |lines| && end == |lines|
      invariant SectionEnd(lines, level, i) == SectionEnd(lines, level, index + 1)
    {
      if Closes(level, lines[i]) {
        end := i;
        break;
      }
      i := i + 1;
    }
    return Some(Range(index + 1, end));
  }

  /** Two headings that read differently and lead sections of one level have disjoint sections. */
  lemma SectionsOfOneLevelAreDisjoint(content: string, h1: string, h2: string)
    requires LocateSection(content, h1).Some? && LocateSection(content, h2).Some?
    requires Trim(h1) != Trim(h2)
    requires var lines := SplitLines(content);
             HeadingLevel(lines[LocateSection(content, h1).value.startLine - 1]) > 0 &&
             HeadingLevel(lines[LocateSection(content, h1).value.startLine - 1]) ==
             HeadingLevel(lines[LocateSection(content, h2).value.startLine - 1])
    ensures var r1, r2 := LocateSection(content, h1).value, LocateSection(content, h2).value;
            r1.endLine < r2.startLine || r2.endLine < r1.startLine
  {
    SectionIs(content, h1);
    SectionIs(content, h2);
    var lines := SplitLines(content);
    var r1, r2 := LocateSection(content, h1).value, LocateSection(content, h2).value;
    assert r1.startLine != r2.startLine;
    if r1.startLine < r2.startLine {
      assert Closes(HeadingLevel(lines[r1.startLine - 1]), lines[r2.startLine - 1]);
    } else {
      assert Closes(HeadingLevel(lines[r2.startLine - 1]), lines[r1.startLine - 1]);
    }
  }

  // -------------------------------------------------------------------- bounds

  /** The line a hunk is refused for, or `None` when it stays inside the range. */
  function Violation(hunk: Hunk, range: Range): Option<nat> {
    var first := hunk.start + 1;
    var last := if hunk.deleted > 0 then hunk.start + hunk.deleted else first;
    if hunk.deleted > 0 then
      if first < range.startLine || last > range.endLine then Some(first) else None
    else
      if first < range.startLine || first > range.endLine + 1 then Some(first) else None
  }

  function FirstViolation(hunks: seq<Hunk>, range: Range): Option<nat> {
    if hunks == [] then None
    else if Violation(hunks[0], range).Some? then Violation(hunks[0], range)
    else FirstViolation(hunks[1..], range)
  }

  function FindOutOfBounds(previous: string, next: string, range: Range): Option<nat> {
    FirstViolation(DiffLines(SplitLines(previous), SplitLines(next)), range)
  }

  method CheckBounds(previous: string, next: string, range: Range) returns (violation: Option<nat>)
    ensures violation == FindOutOfBounds(previous, next, range)
  {
    var hunks := ComputeDiff(SplitLines(previous), SplitLines(next));
    for h := 0 to |hunks|
      invariant FirstViolation(hunks[h..], range) == FirstViolation(hunks, range)
    {
      assert hunks[h..][1..] == hunks[h + 1..];
      if Violation(hunks[h], range).Some? { return Violation(hunks[h], range); }
    }
    return None;
  }

  /** Inside the range, in 0-based positions: both ends between the section's own. */
  predicate Inside(hunk: Hunk, range: Range) {
    range.startLine <= hunk.start + 1 && hunk.End() <= range.endLine
  }

  lemma {:induction false} NoViolationIff(hunks: seq<Hunk>, range: Range)
    ensures FirstViolation(hunks, range) == None <==> forall k :: 0 <= k < |hunks| ==> Inside(hunks[k], range)
  {
    if hunks != [] {
      NoViolationIff(hunks[1..], range);
      assert Inside(hunks[0], range) <==> Violation(hunks[0], range) == None;
      assert forall k :: 0 <= k < |hunks[1..]| ==> hunks[1..][k] == hunks[k + 1];
      if forall k :: 0 <= k < |hunks[1..]| ==> Inside(hunks[1..][k], range) {
        forall k | 1 <= k < |hunks| ensures Inside(hunks[k], range) {
          assert hunks[1..][k - 1] == hunks[k];
        }
      }
    }
  }

  /** Accepted exactly when every hunk of the diff stays inside the range. */
  lemma AcceptedIff(previous: string, next: string, range: Range)
    ensures FindOutOfBounds(previous, next, range) == None <==>
            forall k :: 0 <= k < |DiffLines(SplitLines(previous), SplitLines(next))| ==>
              Inside(DiffLines(SplitLines(previous), SplitLines(next))[k], range)
  {
    NoViolationIff(DiffLines(SplitLines(previous), SplitLines(next)), range);
  }

  lemma {:induction false} FirstViolationIs(hunks: seq<Hunk>, range: Range, line: nat)
    ensures FirstViolation(hunks, range) == Some(line) <==>
            exists k :: 0 <= k < |hunks| && !Inside(hunks[k], range) && line == hunks[k].start + 1 &&
                        forall i :: 0 <= i < k ==> Inside(hunks[i], range)
  {
    if hunks != [] {
      var rest := hunks[1..];
      assert Inside(hunks[0], range) <==> Violation(hunks[0], range) == None;
      FirstViolationIs(rest, range, line);
      assert forall i :: 0 <= i < |rest| ==> rest[i] == hunks[i + 1];
      if Inside(hunks[0], range) {
        if k :| 0 <= k < |rest| && !Inside(rest[k], range) && line == rest[k].start + 1 && forall i :: 0 <= i < k ==> Inside(rest[i], range) {
          forall i | 0 <= i < k + 1 ensures Inside(hunks[i], range) {
            if i > 0 { assert Inside(rest[i - 1], range); }
          }
          assert !Inside(hunks[k + 1], range);
        }
        if k :| 0 <= k < |hunks| && !Inside(hunks[k], range) && line == hunks[k].start + 1 && forall i :: 0 <= i < k ==> Inside(hunks[i], range) {
          assert rest[k - 1] == hunks[k];
        }
      }
    }
  }

  /** A refused write is refused for the first line of the first hunk that leaves the range. */
  lemma RefusedAtFirst(previous: string, next: string, range: Range, line: nat)
    ensures FindOutOfBounds(previous, next, range) == Some(line) <==>
            var hunks := DiffLines(SplitLines(previous), SplitLines(next));
            exists k :: 0 <= k < |hunks| && !Inside(hunks[k], range) && line == hunks[k].start + 1 &&
                        forall i :: 0 <= i < k ==> Inside(hunks[i], range)
  {
    FirstViolationIs(DiffLines(SplitLines(previous), SplitLines(next)), range, line);
  }
}
