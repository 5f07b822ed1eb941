/**
 * The two string operations the dashboard relies on: `toLowerCase` for the
 * case-insensitive lake-name and source comparisons, and
 * `replace(/\s+/g, '')` for building canvas ids.
 */
module Text {

  /** Lower-cases one ASCII letter and leaves every other character alone. */
  function LowerChar(c: char): char
  {
    if 'A' <= c <= 'Z' then (c as int + 32) as char else c
  }

  /** `toLowerCase`: lower-cases each character in place. */
  function Lower(s: string): (r: string)
    ensures |r| == |s|
    ensures forall i :: 0 <= i < |s| ==> r[i] == LowerChar(s[i])
  {
    if s == [] then [] else [LowerChar(s[0])] + Lower(s[1..])
  }

  /** Lower-casing twice is lower-casing once. */
  lemma LowerIdempotent(s: string)
    ensures Lower(Lower(s)) == Lower(s)
  {
    assert forall i :: 0 <= i < |s| ==> Lower(Lower(s))[i] == Lower(s)[i];
  }

  /** `a.toLowerCase() === b`, decided one character at a time. */
  predicate LowersTo(a: string, b: string)
  {
    |a| == |b| && (a == [] || (LowerChar(a[0]) == b[0] && LowersTo(a[1..], b[1..])))
  }

  /** Deciding `LowersTo` character by character agrees with comparing the lower-cased string. */
  lemma {:induction false} LowersToIsLower(a: string, b: string)
    ensures LowersTo(a, b) <==> Lower(a) == b
  {
    if a != [] && |a| == |b| {
      LowersToIsLower(a[1..], b[1..]);
      assert Lower(a) == [LowerChar(a[0])] + Lower(a[1..]);
      assert b == [b[0]] + b[1..];
    }
  }

  /** Two strings equal up to letter case lower-case to the same string. */
  predicate SameIgnoringCase(a: string, b: string)
  {
    Lower(a) == Lower(b)
  }

  /** The characters the JavaScript regular-expression class `\s` matches. */
  predicate IsJsWhitespace(c: char)
  {
    var n := c as int;
    n == 0x09 || n == 0x0A || n == 0x0B || n == 0x0C || n == 0x0D || n == 0x20 ||
    n == 0xA0 || n == 0x1680 || (0x2000 <= n <= 0x200A) || n == 0x2028 || n == 0x2029 ||
    n == 0x202F || n == 0x205F || n == 0x3000 || n == 0xFEFF
  }

  /** `s.replace(/\s+/g, '')`: every whitespace character removed. */
  function StripWhitespace(s: string): (r: string)
    ensures |r| <= |s|
  {
    if s == [] then []
    else if IsJsWhitespace(s[0]) then StripWhitespace(s[1..])
    else [s[0]] + StripWhitespace(s[1..])
  }

  /** No whitespace survives stripping. */
  lemma {:induction false} StripWhitespaceClean(s: string)
    ensures forall i :: 0 <= i < |StripWhitespace(s)| ==> !IsJsWhitespace(StripWhitespace(s)[i])
  {
    if s != [] {
      StripWhitespaceClean(s[1..]);
    }
  }

  /** Stripping leaves a string without whitespace unchanged. */
  lemma {:induction false} StripWhitespaceKeeps(s: string)
    requires forall i :: 0 <= i < |s| ==> !IsJsWhitespace(s[i])
    ensures StripWhitespace(s) == s
  {
    if s != [] {
      StripWhitespaceKeeps(s[1..]);
    }
  }

  /** Stripping works piecewise, so the order of the kept characters is preserved. */
  lemma {:induction false} StripWhitespaceAppend(a: string, b: string)
    ensures StripWhitespace(a + b) == StripWhitespace(a) + StripWhitespace(b)
  {
    if a == [] {
      assert a + b == b;
    } else {
      assert (a + b)[0] == a[0];
      assert (a + b)[1..] == a[1..] + b;
      StripWhitespaceAppend(a[1..], b);
    }
  }

  /** A string of whitespace strips to nothing. */
  lemma {:induction false} StripWhitespaceDrops(s: string)
    requires forall i :: 0 <= i < |s| ==> IsJsWhitespace(s[i])
    ensures StripWhitespace(s) == []
  {
    if s != [] {
      StripWhitespaceDrops(s[1..]);
    }
  }

  /** A single space between two pieces is dropped and the pieces are joined. */
  lemma StripWhitespaceAtSpace(a: string, b: string)
    ensures StripWhitespace(a + " " + b) == StripWhitespace(a) + StripWhitespace(b)
  {
    StripWhitespaceAppend(a + " ", b);
    StripWhitespaceAppend(a, " ");
    StripWhitespaceDrops(" ");
  }
}
