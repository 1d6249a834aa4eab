/**
 * Texts and their lines: the pair of conversions every CONCORD layer goes
 * through (apps/server/src/concord/merge.ts, `splitLines` and `joinLines`).
 */
module Text {

  type Line = string
  type Lines = seq<Line>

  /** `text.split(separator)`: at least one field, even for the empty text. */
  function Fields(text: string, separator: char): (fields: Lines)
    ensures |fields| >= 1
  {
    if text == "" then [""]
    else if text[0] == separator then [""] + Fields(text[1..], separator)
    else
      var rest := Fields(text[1..], separator);
      [[text[0]] + rest[0]] + rest[1..]
  }

  function Joined(fields: Lines, separator: char): string {
    if fields == [] then ""
    else if |fields| == 1 then fields[0]
    else fields[0] + [separator] + Joined(fields[1..], separator)
  }

  function SplitLines(text: string): Lines {
    if |text| == 0 then [] else Fields(text, '\n')
  }

  function JoinLines(lines: Lines): string {
    Joined(lines, '\n')
  }

  /** No field carries the separator, as holds of everything `Fields` returns. */
  ghost predicate Separable(fields: Lines, separator: char) {
    forall k :: 0 <= k < |fields| ==> separator !in fields[k]
  }

  lemma {:induction false} JoinFields(text: string, separator: char)
    ensures Joined(Fields(text, separator), separator) == text
    ensures Separable(Fields(text, separator), separator)
  {
    if text != "" {
      JoinFields(text[1..], separator);
      var rest := Fields(text[1..], separator);
      if text[0] == separator {
        assert Fields(text, separator)[1..] == rest;
      } else {
        assert Fields(text, separator)[1..] == rest[1..];
        assert text == [text[0]] + text[1..];
        if |rest| > 1 {
          assert [text[0]] + (rest[0] + [separator] + Joined(rest[1..], separator))
              == ([text[0]] + rest[0]) + [separator] + Joined(rest[1..], separator);
        }
      }
    }
  }

  /** Splitting and joining gives back every text, without exception. */
  lemma {:induction false} JoinSplit(text: string)
    ensures JoinLines(SplitLines(text)) == text
    ensures Separable(SplitLines(text), '\n')
    ensures SplitLines(text) != [""]
  {
    JoinFields(text, '\n');
  }

  lemma {:induction false} SplitInjective(s: string, t: string)
    requires SplitLines(s) == SplitLines(t)
    ensures s == t
  {
    JoinSplit(s);
    JoinSplit(t);
  }

  lemma {:induction false} FieldsOfOne(field: Line, separator: char)
    requires separator !in field
    ensures Fields(field, separator) == [field]
  {
    if field != "" {
      assert field[0] in field;
      assert forall c :: c in field[1..] ==> c in field;
      FieldsOfOne(field[1..], separator);
      assert [field[0]] + field[1..] == field;
    }
  }

  lemma {:induction false} FieldsOfMore(field: Line, text: string, separator: char)
    requires separator !in field
    ensures Fields(field + [separator] + text, separator) == [field] + Fields(text, separator)
  {
    var whole := field + [separator] + text;
    if field == "" {
      assert whole[1..] == text;
    } else {
      assert whole[0] == field[0] && field[0] in field;
      assert whole[1..] == field[1..] + [separator] + text;
      assert forall c :: c in field[1..] ==> c in field;
      FieldsOfMore(field[1..], text, separator);
      assert [field[0]] + field[1..] == field;
    }
  }

  lemma {:induction false} FieldsJoined(fields: Lines, separator: char)
    requires fields != [] && Separable(fields, separator)
    ensures Fields(Joined(fields, separator), separator) == fields
  {
    if |fields| == 1 {
      FieldsOfOne(fields[0], separator);
    } else {
      FieldsJoined(fields[1..], separator);
      FieldsOfMore(fields[0], Joined(fields[1..], separator), separator);
    }
  }

  /**
   * Joining and splitting gives back a list of lines exactly when no line holds
   * the separator and the list is not the single blank line, which `JoinLines`
   * makes indistinguishable from no line at all.
   */
  lemma {:induction false} SplitJoin(lines: Lines)
    ensures SplitLines(JoinLines(lines)) == lines <==> Separable(lines, '\n') && lines != [""]
  {
    if SplitLines(JoinLines(lines)) == lines {
      JoinSplit(JoinLines(lines));
    }
    if Separable(lines, '\n') && lines != [""] && lines != [] {
      FieldsJoined(lines, '\n');
    }
  }

  lemma Regroup(x: Lines, y: Lines, z: Lines)
    ensures x + (y + z) == x + y + z
  {
  }

  /** The one list a text cannot hold: what comes back instead. */
  lemma {:induction false} BlankLineIsLost()
    ensures SplitLines(JoinLines([""])) == []
  {
  }
}
