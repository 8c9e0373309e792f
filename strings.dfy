/** The few Python string operations the record layer relies on. */
module Strings {

  /** `str.lower()` restricted to ASCII letters. */
  function LowerChar(c: char): char
  {
    if 'A' <= c <= 'Z' then (c as int + 32) as char else c
  }

  function Lower(s: string): string
  {
    seq(|s|, i requires 0 <= i < |s| => LowerChar(s[i]))
  }

  lemma LowerIdempotent(s: string)
    ensures Lower(Lower(s)) == Lower(s)
  {
  }

  /** `s.startswith(prefix)` */
  predicate StartsWith(s: string, prefix: string)
  {
    |prefix| <= |s| && s[..|prefix|] == prefix
  }

  lemma StartsWithConcat(a: string, b: string)
    ensures StartsWith(a + b, a)
  {
    assert (a + b)[..|a|] == a;
  }

  /** `s.endswith(suffix)` */
  predicate EndsWith(s: string, suffix: string)
  {
    |suffix| <= |s| && s[|s| - |suffix|..] == suffix
  }

  /** `needle in hay` on two strings: `needle` occurs at some position of `hay`. */
  predicate Contains(hay: string, needle: string)
  {
    exists i | 0 <= i <= |hay| :: OccursAt(hay, needle, i)
  }

  /** `needle` occurs in `hay` starting at index `i`. */
  predicate OccursAt(hay: string, needle: string, i: int)
  {
    0 <= i <= |hay| - |needle| && hay[i..i + |needle|] == needle
  }

  lemma ContainsEmpty(hay: string)
    ensures Contains(hay, "")
  {
    assert OccursAt(hay, "", 0);
  }

  /** `str(n)` for an integer: its decimal digits, with a leading '-' when negative. */
  function IntToString(n: int): string
  {
    if n < 0 then "-" + NatToString(-n) else NatToString(n)
  }

  function NatToString(n: nat): string
  {
    if n < 10 then [DigitChar(n)] else NatToString(n / 10) + [DigitChar(n % 10)]
  }

  function DigitChar(d: nat): char
    requires d < 10
  {
    "0123456789"[d]
  }

  /** `sep.join(parts)` */
  function Join(parts: seq<string>, sep: string): string
  {
    if |parts| == 0 then ""
    else if |parts| == 1 then parts[0]
    else Join(parts[..|parts| - 1], sep) + sep + parts[|parts| - 1]
  }

  /** `a < b` on Python strings: lexicographic order by code point, a proper
      prefix being smaller. */
  predicate Below(a: string, b: string)
    decreases |a|
  {
    if a == [] then b != []
    else if b == [] then false
    else if a[0] != b[0] then a[0] < b[0]
    else Below(a[1..], b[1..])
  }

  lemma {:induction false} BelowIrreflexive(a: string)
    ensures !Below(a, a)
  {
    if a != [] {
      BelowIrreflexive(a[1..]);
    }
  }

  lemma {:induction false} BelowTransitive(a: string, b: string, c: string)
    requires Below(a, b) && Below(b, c)
    ensures Below(a, c)
  {
    if a != [] && b != [] && c != [] && a[0] == b[0] && b[0] == c[0] {
      BelowTransitive(a[1..], b[1..], c[1..]);
    }
  }

  lemma {:induction false} BelowTotal(a: string, b: string)
    ensures a == b || Below(a, b) || Below(b, a)
  {
    if a != [] && b != [] && a[0] == b[0] {
      BelowTotal(a[1..], b[1..]);
      if a[1..] == b[1..] {
        assert a == [a[0]] + a[1..] && b == [b[0]] + b[1..];
      }
    }
  }

  lemma {:induction false} BelowAsymmetric(a: string, b: string)
    requires Below(a, b)
    ensures !Below(b, a)
  {
    if a != [] && b != [] && a[0] == b[0] {
      BelowAsymmetric(a[1..], b[1..]);
    }
  }

  /** `a >= b` on Python strings. */
  predicate AtLeast(a: string, b: string)
  {
    !Below(a, b)
  }

  lemma AtLeastTransitive(a: string, b: string, c: string)
    requires AtLeast(a, b) && AtLeast(b, c)
    ensures AtLeast(a, c)
  {
    BelowTotal(a, b);
    BelowTotal(b, c);
    if Below(a, c) {
      if a == b {
      } else if b == c {
      } else {
        BelowTransitive(c, b, a);
        BelowAsymmetric(c, a);
      }
    }
  }

  /** The lines one after another, with nothing between them. */
  function Concat(lines: seq<string>): string
  {
    if lines == [] then "" else Concat(lines[..|lines| - 1]) + lines[|lines| - 1]
  }

  /** Concatenating one more line appends it. */
  lemma ConcatSnoc(lines: seq<string>, line: string)
    ensures Concat(lines + [line]) == Concat(lines) + line
  {
    assert (lines + [line])[..|lines|] == lines;
  }

  /** Appending one more line to a text built from lines. */
  lemma AppendLine(text: string, lines: seq<string>, line: string)
    ensures text + Concat(lines + [line]) == text + Concat(lines) + line
  {
    ConcatSnoc(lines, line);
  }

  const BulletMark := "- "
  const LabelMark := ": "
  const LineEnd := "\n"

  /** A report line `- {key}: {note}` and its line break. */
  function Bullet(key: string, note: string): string
  {
    BulletMark + key + LabelMark + note + LineEnd
  }

  /** A line that opens with the bullet mark and ends with a line break. */
  predicate IsBullet(line: string)
  {
    StartsWith(line, BulletMark) && EndsWith(line, LineEnd)
  }

  /** A bullet line is one, and it opens with its key. */
  lemma BulletShape(key: string, note: string)
    ensures IsBullet(Bullet(key, note))
    ensures StartsWith(Bullet(key, note), BulletMark + key + LabelMark)
  {
    var lead := BulletMark + key + LabelMark;
    var l := Bullet(key, note);
    assert l == lead + (note + LineEnd);
    assert l[..|lead|] == lead;
    assert l[..|BulletMark|] == BulletMark;
    assert l[|l| - |LineEnd|..] == LineEnd;
  }
}
