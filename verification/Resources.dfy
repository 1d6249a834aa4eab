/**
 * Canonical resource names (apps/server/src/warrant/resources.ts) and the
 * relation every authorization decision rests on.
 */
module Resources {
  import opened Text

  const REPO := "repo:"

  /** A directory name ends in exactly the slash it came with, or gets one. */
  function Slashed(path: string): string {
    if path != "" && path[|path| - 1] == '/' then path else path + "/"
  }

  /** A repository grant covers everything beneath it; any other grant is exact. */
  predicate Covers(granted: string, resource: string) {
    granted == resource ||
    (REPO <= granted && REPO <= resource &&
     var g, r := granted[|REPO|..], resource[|REPO|..];
     g == "" || r == g || Slashed(g) <= r)
  }

  lemma PrefixTransitive(a: string, b: string, c: string)
    requires a <= b && b <= c
    ensures a <= c
  {
  }

  /** `Slashed` prefixes compose: below something below a directory is below it. */
  lemma BelowTransitive(g: string, m: string, r: string)
    requires g != "" && Slashed(g) <= m && Slashed(m) <= r
    ensures Slashed(g) <= r
  {
    assert m <= Slashed(m);
    PrefixTransitive(m, Slashed(m), r);
    PrefixTransitive(Slashed(g), m, r);
  }

  /** Authority over authority is authority: what covers a cover covers. */
  lemma CoversTransitive(a: string, b: string, c: string)
    requires Covers(a, b) && Covers(b, c)
    ensures Covers(a, c)
  {
    if a != b && b != c {
      var g, m, r := a[|REPO|..], b[|REPO|..], c[|REPO|..];
      if g != "" && m != g && r != m {
        assert Slashed(g) <= m && m != "";
        BelowTransitive(g, m, r);
      }
    }
  }

  /**
   * A grant on a path covers that path and what lies below it, and no sibling
   * that merely starts alike.
   */
  lemma CoversIsBeneath(g: string, r: string)
    requires g != "" && g[|g| - 1] != '/'
    ensures Covers(REPO + g, REPO + r) <==> r == g || g + "/" <= r
  {
    assert (REPO + g)[|REPO|..] == g && (REPO + r)[|REPO|..] == r;
  }

  /** Written with a slash at its end, it covers what lies below but not the path itself. */
  lemma SlashedGrantIsBelow(g: string, r: string)
    requires g != "" && g[|g| - 1] != '/'
    ensures Covers(REPO + g + "/", REPO + r) <==> g + "/" <= r
    ensures Covers(REPO + g, REPO + g + "/") && !Covers(REPO + g + "/", REPO + g)
  {
    var s := g + "/";
    assert REPO + g + "/" == REPO + s;
    assert (REPO + s)[|REPO|..] == s && (REPO + r)[|REPO|..] == r && (REPO + g)[|REPO|..] == g;
    assert Slashed(s) == s;
  }

  /** A grant on the whole repository covers every file of it, and any other grant only itself. */
  lemma CoversOutside(g: string, r: string)
    ensures Covers(REPO, REPO + r)
    ensures !(REPO <= g) ==> (Covers(g, r) <==> g == r)
  {
    assert REPO[|REPO|..] == "";
  }

  function StripSlashes(docId: string): string {
    if docId != "" && docId[0] == '/' then StripSlashes(docId[1..]) else docId
  }

  /** A shared document is a file of the repository. */
  function DocResource(docId: string): string {
    REPO + StripSlashes(docId)
  }

  /** Exactly the first `n` characters are slashes in front of the rest. */
  predicate LeadingSlashes(docId: string, n: nat) {
    n <= |docId| && (forall k :: 0 <= k < n ==> docId[k] == '/') && (n < |docId| ==> docId[n] != '/')
  }

  /** The file of that name, or one below it. */
  predicate FileOrBelow(name: string, file: string)
    requires name != ""
  {
    if name[|name| - 1] == '/' then name <= file else file == name || name + "/" <= file
  }

  lemma {:induction false} StripSlashesIs(docId: string, n: nat)
    requires LeadingSlashes(docId, n)
    ensures StripSlashes(docId) == docId[n..]
  {
    if n > 0 {
      StripSlashesIs(docId[1..], n - 1);
    }
  }

  /**
   * Sharing a document covers its own file and what lies below it, and no other
   * file, if and only if its id holds something besides slashes. An id of
   * slashes alone, or none, names the whole repository.
   */
  lemma SharedFileIsExactIff(docId: string, n: nat)
    requires LeadingSlashes(docId, n)
    ensures n < |docId| ==> forall file: string {:trigger REPO + file} :: Covers(DocResource(docId), REPO + file) <==> FileOrBelow(docId[n..], file)
    ensures n == |docId| ==> forall file: string {:trigger REPO + file} :: Covers(DocResource(docId), REPO + file)
  {
    StripSlashesIs(docId, n);
    forall file: string {:trigger REPO + file}
      ensures Covers(DocResource(docId), REPO + file) <==> n == |docId| || FileOrBelow(docId[n..], file)
    {
      CoversFile(docId[n..], file);
    }
  }

  lemma CoversFile(name: string, file: string)
    ensures Covers(REPO + name, REPO + file) <==> name == "" || FileOrBelow(name, file)
  {
    assert (REPO + name)[|REPO|..] == name && (REPO + file)[|REPO|..] == file;
    if name != "" && name[|name| - 1] == '/' && file == name {
      assert name <= file;
    }
  }

  // ---------------------------------------------------------------- paths

  /** Backslashes read as slashes. */
  function Slashes(path: string): string {
    seq(|path|, k requires 0 <= k < |path| => if path[k] == '\\' then '/' else path[k])
  }

  /** What one path part does to the parts kept so far. */
  function PutPart(kept: seq<string>, part: string): seq<string> {
    if part == "" || part == "." then kept
    else if part == ".." then (if kept == [] then [] else kept[..|kept| - 1])
    else kept + [part]
  }

  function Normalised(parts: seq<string>): seq<string> {
    if parts == [] then [] else PutPart(Normalised(parts[..|parts| - 1]), parts[|parts| - 1])
  }

  function NormalisePath(path: string): string {
    Joined(Normalised(Fields(Slashes(path), '/')), '/')
  }

  /** The loop of the source over the parts between the slashes. */
  method ComputeNormalPath(path: string) returns (normal: string)
    ensures normal == NormalisePath(path)
  {
    var parts := Fields(Slashes(path), '/');
    var kept: seq<string> := [];
    for k := 0 to |parts|
      invariant kept == Normalised(parts[..k])
    {
      var part := parts[k];
      assert parts[..k + 1][..k] == parts[..k];
      if part == "" || part == "." {
        continue;
      }
      if part == ".." {
        if |kept| > 0 { kept := kept[..|kept| - 1]; }
        continue;
      }
      kept := kept + [part];
    }
    assert parts[..|parts|] == parts;
    normal := Joined(kept, '/');
  }

  /** A part that stays: it names something, and holds no slash of either kind. */
  predicate PlainPart(part: string) {
    part != "" && part != "." && part != ".." && '/' !in part && '\\' !in part
  }

  ghost predicate Plain(parts: seq<string>) {
    forall k :: 0 <= k < |parts| ==> PlainPart(parts[k])
  }

  lemma PutPartIsPlain(kept: seq<string>, part: string)
    requires Plain(kept) && '/' !in part && '\\' !in part
    ensures Plain(PutPart(kept, part))
  {
    var after := PutPart(kept, part);
    forall k | 0 <= k < |after| ensures PlainPart(after[k]) {
      if k < |kept| {
        assert after[k] == kept[k];
      }
    }
  }

  lemma {:induction false} NormalisedIsPlain(parts: seq<string>)
    requires Separable(parts, '/') && Separable(parts, '\\')
    ensures Plain(Normalised(parts))
    decreases |parts|
  {
    if parts != [] {
      NormalisedIsPlain(parts[..|parts| - 1]);
      PutPartIsPlain(Normalised(parts[..|parts| - 1]), parts[|parts| - 1]);
    }
  }

  lemma PlainFront(parts: seq<string>, n: nat)
    requires Plain(parts) && n <= |parts|
    ensures Plain(parts[..n])
  {
    forall k | 0 <= k < n ensures PlainPart(parts[..n][k]) {
      assert parts[..n][k] == parts[k];
    }
  }

  lemma PlainPartIsPut(kept: seq<string>, part: string)
    requires PlainPart(part)
    ensures PutPart(kept, part) == kept + [part]
  {
  }

  lemma {:induction false} PlainIsKept(parts: seq<string>)
    requires Plain(parts)
    ensures Normalised(parts) == parts
    decreases |parts|
  {
    if parts != [] {
      var last := |parts| - 1;
      var front, part := parts[..last], parts[last];
      assert PlainPart(part);
      PlainFront(parts, last);
      PlainIsKept(front);
      PlainPartIsPut(front, part);
      assert parts == front + [part];
    }
  }

  /** A character that is not in the text is in none of its fields. */
  lemma {:induction false} FieldsHoldNoMore(text: string, separator: char, c: char)
    requires c !in text
    ensures Separable(Fields(text, separator), c)
  {
    if text != "" {
      assert text[0] in text;
      assert forall x :: x in text[1..] ==> x in text;
      FieldsHoldNoMore(text[1..], separator, c);
    }
  }

  lemma {:induction false} JoinedHoldsNoMore(fields: seq<string>, separator: char, c: char)
    requires Separable(fields, c) && c != separator
    ensures c !in Joined(fields, separator)
  {
    if |fields| > 1 {
      JoinedHoldsNoMore(fields[1..], separator, c);
    }
  }

  lemma SlashesStay(path: string)
    requires '\\' !in path
    ensures Slashes(path) == path
  {
  }

  /** The parts of a normalised path: none of them is empty, a dot, a climb, or holds a slash of either kind. */
  lemma NormalPathIsPlain(path: string)
    ensures Plain(Normalised(Fields(Slashes(path), '/')))
    ensures NormalisePath(path) != "" ==>
              Fields(NormalisePath(path), '/') == Normalised(Fields(Slashes(path), '/'))
    ensures '\\' !in NormalisePath(path)
  {
    var parts := Fields(Slashes(path), '/');
    JoinFields(Slashes(path), '/');
    FieldsHoldNoMore(Slashes(path), '/', '\\');
    NormalisedIsPlain(parts);
    JoinedHoldsNoMore(Normalised(parts), '/', '\\');
    if Normalised(parts) != [] {
      FieldsJoined(Normalised(parts), '/');
    }
  }

  /** A path is left as it is exactly when it is empty or all its parts are plain. */
  lemma PathIsNormalIff(path: string)
    ensures NormalisePath(path) == path <==> path == "" || Plain(Fields(path, '/'))
  {
    NormalPathIsPlain(path);
    if path == "" {
      assert Slashes(path) == "";
      assert Fields("", '/')[..0] == [];
      assert Normalised([""]) == PutPart([], "");
    } else if Plain(Fields(path, '/')) {
      JoinFields(path, '/');
      JoinedHoldsNoMore(Fields(path, '/'), '/', '\\');
      SlashesStay(path);
      PlainIsKept(Fields(path, '/'));
    }
  }

  /** Normalising again changes nothing. */
  lemma NormalPathIsStable(path: string)
    ensures NormalisePath(NormalisePath(path)) == NormalisePath(path)
  {
    NormalPathIsPlain(path);
    PathIsNormalIff(NormalisePath(path));
  }

  /** What climbs is resolved against the parts before it: `..` takes back exactly one part. */
  lemma ClimbTakesBack(parts: seq<string>, part: string)
    requires PlainPart(part)
    ensures Normalised(parts + [part] + [".."]) == Normalised(parts)
  {
    var put := parts + [part];
    assert put[..|put| - 1] == parts;
    assert (put + [".."])[..|put|] == put;
  }
}
