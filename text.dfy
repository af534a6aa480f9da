/**
 * The string primitives of ECMAScript that the core relies on, defined character
 * by character: `trim`, `toLowerCase` (ASCII letters only), `includes`,
 * `split` on a one-character separator, `Array.prototype.join`, and the decimal
 * rendering of a count in a template literal.
 */
module Text {

  /** The line terminators of ECMAScript: the characters `.` in a regular expression never matches. */
  predicate IsLineTerminator(c: char) {
    c == '\n' || c == '\r' || c == '\U{2028}' || c == '\U{2029}'
  }

  /** White space as `String.prototype.trim` and the class `\s` see it: WhiteSpace and LineTerminator. */
  predicate IsSpace(c: char) {
    || IsLineTerminator(c)
    || c == '\t' || c == '\U{000B}' || c == '\U{000C}' || c == ' ' || c == '\U{00A0}'
    || c == '\U{1680}' || ('\U{2000}' <= c <= '\U{200A}') || c == '\U{202F}'
    || c == '\U{205F}' || c == '\U{3000}' || c == '\U{FEFF}'
  }

  predicate NoLineTerminator(s: string) {
    forall i :: 0 <= i < |s| ==> !IsLineTerminator(s[i])
  }

  /** A string with no white space at either end: what `trim` leaves. */
  predicate IsTrimmed(s: string) {
    s == [] || (!IsSpace(s[0]) && !IsSpace(s[|s| - 1]))
  }

  /** `s.trimStart()`: drops the leading white space. */
  function TrimStart(s: string): (r: string)
    ensures |r| <= |s| && r == s[|s| - |r|..]
    ensures r == [] || !IsSpace(r[0])
    ensures forall i :: 0 <= i < |s| - |r| ==> IsSpace(s[i])
  {
    if |s| > 0 && IsSpace(s[0]) then TrimStart(s[1..]) else s
  }

  /** `s.trimEnd()`: drops the trailing white space. */
  function TrimEnd(s: string): (r: string)
    ensures |r| <= |s| && r == s[..|r|]
    ensures r == [] || !IsSpace(r[|r| - 1])
    ensures forall i :: |r| <= i < |s| ==> IsSpace(s[i])
  {
    if |s| > 0 && IsSpace(s[|s| - 1]) then TrimEnd(s[..|s| - 1]) else s
  }

  /** `r` is `s` from index `a` on, with only white space before it and after it. */
  ghost predicate TrimmedAt(s: string, r: string, a: int) {
    && 0 <= a && a + |r| <= |s| && r == s[a..a + |r|]
    && (forall i :: 0 <= i < a ==> IsSpace(s[i]))
    && (forall i :: a + |r| <= i < |s| ==> IsSpace(s[i]))
  }

  /**
   * A prefix `r` of a suffix `t` of `s`, where what `t` leaves out before it and
   * what `r` leaves out of `t` is white space, is `s` with only white space around it.
   */
  lemma {:induction false} SpaceAround(s: string, t: string, r: string)
    requires |t| <= |s| && t == s[|s| - |t|..] && forall i :: 0 <= i < |s| - |t| ==> IsSpace(s[i])
    requires |r| <= |t| && r == t[..|r|] && forall i :: |r| <= i < |t| ==> IsSpace(t[i])
    ensures TrimmedAt(s, r, |s| - |t|)
  {
    var a := |s| - |t|;
    assert s[a..][..|r|] == s[a..a + |r|];
    forall i | a + |r| <= i < |s| ensures IsSpace(s[i]) {
      assert s[i] == t[i - a];
    }
  }

  /** `s.trim()`: the longest slice of `s` with no white space at either end. */
  function Trim(s: string): (r: string)
    ensures IsTrimmed(r)
    ensures |r| <= |s|
    ensures IsTrimmed(s) ==> r == s
    ensures r == [] <==> forall i :: 0 <= i < |s| ==> IsSpace(s[i])
    ensures exists a :: TrimmedAt(s, r, a)
  {
    var t := TrimStart(s);
    SpaceAround(s, t, TrimEnd(t));
    assert t == [] ==> forall i :: 0 <= i < |s| ==> IsSpace(s[i]);
    assert IsTrimmed(s) && s != [] ==> t == s;
    TrimEnd(t)
  }

  /** `toLowerCase` on one character, restricted to the ASCII letters. */
  function LowerChar(c: char): char {
    if 'A' <= c <= 'Z' then (c as int + 32) as char else c
  }

  /** `s.toLowerCase()`, restricted to the ASCII letters. */
  function Lower(s: string): (r: string)
    ensures |r| == |s|
    ensures forall i :: 0 <= i < |s| ==> r[i] == LowerChar(s[i])
  {
    seq(|s|, i requires 0 <= i < |s| => LowerChar(s[i]))
  }

  /** `needle` occurs in `hay` starting at index `i`. */
  ghost predicate OccursAt(hay: string, needle: string, i: int) {
    0 <= i && i + |needle| <= |hay| && hay[i..i + |needle|] == needle
  }

  /** `s.endsWith(suffix)`. */
  predicate EndsWith(s: string, suffix: string) {
    |suffix| <= |s| && s[|s| - |suffix|..] == suffix
  }

  /** `hay.includes(needle)`: some window of `hay` is `needle`. */
  function Contains(hay: string, needle: string): (r: bool)
    ensures r <==> exists i :: OccursAt(hay, needle, i)
    decreases |hay|
  {
    if needle <= hay then
      assert OccursAt(hay, needle, 0);
      true
    else if |hay| == 0 then
      false
    else
      var r := Contains(hay[1..], needle);
      assert r ==> exists i :: OccursAt(hay, needle, i) by {
        if r {
          var i :| OccursAt(hay[1..], needle, i);
          assert OccursAt(hay, needle, i + 1);
        }
      }
      assert (exists i :: OccursAt(hay, needle, i)) ==> r by {
        if exists i :: OccursAt(hay, needle, i) {
          var i :| OccursAt(hay, needle, i);
          assert i != 0;
          assert OccursAt(hay[1..], needle, i - 1);
        }
      }
      r
  }

  /** An occurrence inside an occurrence is an occurrence. */
  lemma OccursWithin(hay: string, mid: string, needle: string, i: int, j: int)
    requires OccursAt(hay, mid, i) && OccursAt(mid, needle, j)
    ensures OccursAt(hay, needle, i + j)
  {
    forall k | 0 <= k < |needle|
      ensures hay[i + j + k] == needle[k]
    {
      assert mid[j + k] == hay[i..i + |mid|][j + k];
    }
  }

  /** `xs.join(sep)`. */
  function Join(xs: seq<string>, sep: string): string
    decreases |xs|
  {
    if |xs| == 0 then ""
    else if |xs| == 1 then xs[0]
    else xs[0] + sep + Join(xs[1..], sep)
  }

  /** Every joined element occurs in the joined string, unchanged. */
  lemma {:induction false} JoinContainsElement(xs: seq<string>, sep: string, k: nat)
    requires k < |xs|
    ensures exists i :: OccursAt(Join(xs, sep), xs[k], i)
    decreases |xs|
  {
    var j := Join(xs, sep);
    if |xs| == 1 {
      assert OccursAt(j, xs[0], 0);
    } else if k == 0 {
      assert j == xs[0] + (sep + Join(xs[1..], sep));
      assert OccursAt(j, xs[0], 0);
    } else {
      JoinContainsElement(xs[1..], sep, k - 1);
      var tail := Join(xs[1..], sep);
      var i :| OccursAt(tail, xs[k], i);
      var off := |xs[0]| + |sep|;
      assert j == (xs[0] + sep) + tail;
      assert OccursAt(j, tail, off);
      OccursWithin(j, tail, xs[k], off, i);
    }
  }

  /** `needle` occurs in some element of `xs`. */
  ghost predicate InSome(xs: seq<string>, needle: string) {
    exists k, i :: 0 <= k < |xs| && OccursAt(xs[k], needle, i)
  }

  /** An occurrence in either part is an occurrence in the concatenation of the lists. */
  lemma InSomeAppend(a: seq<string>, b: seq<string>, needle: string)
    ensures InSome(a, needle) || InSome(b, needle) ==> InSome(a + b, needle)
  {
    if InSome(a, needle) {
      var k, i :| 0 <= k < |a| && OccursAt(a[k], needle, i);
      assert (a + b)[k] == a[k];
    } else if InSome(b, needle) {
      var k, i :| 0 <= k < |b| && OccursAt(b[k], needle, i);
      assert (a + b)[|a| + k] == b[k];
    }
  }

  /** What occurs in an element occurs in the joined string. */
  lemma InSomeJoin(xs: seq<string>, sep: string, needle: string)
    requires InSome(xs, needle)
    ensures exists i :: OccursAt(Join(xs, sep), needle, i)
  {
    var k, i :| 0 <= k < |xs| && OccursAt(xs[k], needle, i);
    JoinContainsElement(xs, sep, k);
    var j :| OccursAt(Join(xs, sep), xs[k], j);
    OccursWithin(Join(xs, sep), xs[k], needle, j, i);
  }

  /** What occurs in `s` occurs in `prefix + s`. */
  lemma OccursAfterPrefix(prefix: string, s: string, needle: string)
    requires exists i :: OccursAt(s, needle, i)
    ensures exists i :: OccursAt(prefix + s, needle, i)
  {
    var i :| OccursAt(s, needle, i);
    assert OccursAt(prefix + s, s, |prefix|);
    OccursWithin(prefix + s, s, needle, |prefix|, i);
  }

  /** A join whose first element is not empty is not empty. */
  lemma JoinNonEmpty(xs: seq<string>, sep: string)
    ensures |xs| > 0 && xs[0] != "" ==> Join(xs, sep) != ""
  {
    if |xs| > 0 {
      JoinStartsWithFirst(xs, sep);
    }
  }

  /** The joined string starts with the first element. */
  lemma JoinStartsWithFirst(xs: seq<string>, sep: string)
    requires |xs| > 0
    ensures xs[0] <= Join(xs, sep)
  {
    if |xs| > 1 {
      assert Join(xs, sep) == xs[0] + (sep + Join(xs[1..], sep));
    }
  }

  /** `s.split(sep)` for a one-character separator: the pieces between separators. */
  function Split(s: string, sep: char): (r: seq<string>)
    ensures |r| >= 1
    ensures forall k :: 0 <= k < |r| ==> sep !in r[k]
    decreases |s|
  {
    if |s| == 0 then [""]
    else
      var rest := Split(s[1..], sep);
      if s[0] == sep then [""] + rest
      else [[s[0]] + rest[0]] + rest[1..]
  }

  /** Splitting then joining with the same separator gives the string back. */
  lemma {:induction false} JoinSplit(s: string, sep: char)
    ensures Join(Split(s, sep), [sep]) == s
    decreases |s|
  {
    if |s| > 0 {
      var rest := Split(s[1..], sep);
      JoinSplit(s[1..], sep);
      if s[0] == sep {
        assert Split(s, sep) == [""] + rest;
        assert ([""] + rest)[1..] == rest;
      } else {
        var r := Split(s, sep);
        assert r == [[s[0]] + rest[0]] + rest[1..];
        if |rest| == 1 {
          assert s[1..] == rest[0];
        } else {
          assert r[1..] == rest[1..];
          assert Join(rest, [sep]) == rest[0] + [sep] + Join(rest[1..], [sep]);
        }
        assert s == [s[0]] + s[1..];
      }
    }
  }

  /** A string without the separator is a single piece. */
  lemma {:induction false} SplitNoSeparator(s: string, sep: char)
    requires sep !in s
    ensures Split(s, sep) == [s]
    decreases |s|
  {
    if |s| > 0 {
      SplitNoSeparator(s[1..], sep);
      assert s == [s[0]] + s[1..];
    }
  }

  /** A separator cuts the string into the pieces of each side. */
  lemma {:induction false} SplitAtSeparator(a: string, b: string, sep: char)
    ensures Split(a + [sep] + b, sep) == Split(a, sep) + Split(b, sep)
    decreases |a|
  {
    if |a| == 0 {
      assert a + [sep] + b == [sep] + b;
      SplitFirst(sep, b, sep);
    } else {
      SplitAtSeparator(a[1..], b, sep);
      SplitStep(a, b, sep);
    }
  }

  /** One step of `Split`: the first character either ends the first piece or joins it. */
  lemma SplitFirst(c: char, t: string, sep: char)
    ensures Split([c] + t, sep) ==
      if c == sep then [""] + Split(t, sep) else [[c] + Split(t, sep)[0]] + Split(t, sep)[1..]
  {
    assert ([c] + t)[0] == c && ([c] + t)[1..] == t;
  }

  /** The inductive step of `SplitAtSeparator`: putting one character back in front. */
  lemma SplitStep(a: string, b: string, sep: char)
    requires |a| > 0
    requires Split(a[1..] + [sep] + b, sep) == Split(a[1..], sep) + Split(b, sep)
    ensures Split(a + [sep] + b, sep) == Split(a, sep) + Split(b, sep)
  {
    var c, rb := a[0], Split(b, sep);
    var t := a[1..] + [sep] + b;
    assert Split(a + [sep] + b, sep) == Split([c] + t, sep) by {
      assert a + [sep] + b == [c] + t;
    }
    assert Split(a, sep) == Split([c] + a[1..], sep) by {
      assert a == [c] + a[1..];
    }
    if c == sep {
      SplitStepAtSeparator(c, a[1..], t, rb, sep);
    } else {
      SplitStepInPiece(c, a[1..], t, rb, sep);
    }
  }

  /** A leading separator adds an empty first piece on both sides. */
  lemma SplitStepAtSeparator(c: char, a: string, t: string, rb: seq<string>, sep: char)
    requires c == sep && Split(t, sep) == Split(a, sep) + rb
    ensures Split([c] + t, sep) == Split([c] + a, sep) + rb
  {
    SplitFirst(c, t, sep);
    SplitFirst(c, a, sep);
  }

  /** A leading other character joins the first piece on both sides. */
  lemma SplitStepInPiece(c: char, a: string, t: string, rb: seq<string>, sep: char)
    requires c != sep && Split(t, sep) == Split(a, sep) + rb
    ensures Split([c] + t, sep) == Split([c] + a, sep) + rb
  {
    SplitFirst(c, t, sep);
    SplitFirst(c, a, sep);
    PrefixFirstPiece([c], Split(a, sep), rb);
  }

  /** Extending the first piece of `ra + rb` extends the first piece of `ra`. */
  lemma PrefixFirstPiece(p: string, ra: seq<string>, rb: seq<string>)
    requires |ra| >= 1
    ensures [p + (ra + rb)[0]] + (ra + rb)[1..] == ([p + ra[0]] + ra[1..]) + rb
  {
    assert (ra + rb)[0] == ra[0];
    assert (ra + rb)[1..] == ra[1..] + rb;
  }

  function DigitChar(d: nat): char
    requires d < 10
  {
    "0123456789"[d]
  }

  /** The decimal rendering of a count, as `${n}` prints it. */
  function DecimalString(n: nat): (r: string)
    ensures |r| >= 1
    ensures forall i :: 0 <= i < |r| ==> '0' <= r[i] <= '9'
    ensures r[0] == '0' ==> n == 0
    decreases n
  {
    if n < 10 then [DigitChar(n)] else DecimalString(n / 10) + [DigitChar(n % 10)]
  }

  /** The value of a string of decimal digits. */
  function DecimalValue(s: string): nat
    requires forall i :: 0 <= i < |s| ==> '0' <= s[i] <= '9'
    decreases |s|
  {
    if |s| == 0 then 0 else 10 * DecimalValue(s[..|s| - 1]) + (s[|s| - 1] as int - '0' as int)
  }

  /** Reading back the rendering of a count gives the count. */
  lemma {:induction false} DecimalRoundTrip(n: nat)
    ensures DecimalValue(DecimalString(n)) == n
    decreases n
  {
    var r := DecimalString(n);
    if n >= 10 {
      DecimalRoundTrip(n / 10);
      assert r[..|r| - 1] == DecimalString(n / 10);
    }
  }
}
