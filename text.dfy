/** The string operations the filters, hydrators and the simulation use: `toLowerCase`,
    `includes`, the tag and run expressions, and the UTF-16 view JavaScript has of a string. */
module Text {

  /** `toLowerCase`, on the ASCII letters only. */
  function ToLowerAscii(s: string): (r: string)
    ensures |r| == |s|
    ensures forall i :: 0 <= i < |s| && 'A' <= s[i] <= 'Z' ==> r[i] == (s[i] as int + 32) as char
    ensures forall i :: 0 <= i < |s| && !('A' <= s[i] <= 'Z') ==> r[i] == s[i]
  {
    seq(|s|, i requires 0 <= i < |s| => if 'A' <= s[i] <= 'Z' then (s[i] as int + 32) as char else s[i])
  }

  /** `t` occurs in `s` starting at position `i`. */
  predicate OccursAt(s: string, t: string, i: int)
  {
    0 <= i && i + |t| <= |s| && s[i..i + |t|] == t
  }

  /** `s.includes(t)`: `t` occurs in `s` at some position. */
  predicate Contains(s: string, t: string)
  {
    exists i :: 0 <= i <= |s| - |t| && OccursAt(s, t, i)
  }

  /** `terms.some(term => s.includes(term))`. */
  predicate ContainsAny(s: string, terms: seq<string>)
  {
    exists k :: 0 <= k < |terms| && Contains(s, terms[k])
  }

  /** `toUpperCase`, on the ASCII letters only. */
  function ToUpperAscii(s: string): (r: string)
    ensures |r| == |s|
    ensures forall i :: 0 <= i < |s| && 'a' <= s[i] <= 'z' ==> r[i] == (s[i] as int - 32) as char
    ensures forall i :: 0 <= i < |s| && !('a' <= s[i] <= 'z') ==> r[i] == s[i]
  {
    seq(|s|, i requires 0 <= i < |s| => if 'a' <= s[i] <= 'z' then (s[i] as int - 32) as char else s[i])
  }

  /** The regular-expression class `\w`: an ASCII letter, digit or underscore. */
  predicate IsWordChar(c: char)
  {
    'a' <= c <= 'z' || 'A' <= c <= 'Z' || '0' <= c <= '9' || c == '_'
  }

  /** Position `i` starts a match of `mark\w+`. */
  predicate TagAt(s: string, mark: char, i: int)
  {
    0 <= i && i + 1 < |s| && s[i] == mark && IsWordChar(s[i + 1])
  }

  /** The number of matches of the global expression `mark\w+` (`/#\w+/g`, `/@\w+/g`).
      `mark` is not a word character, so no match can start inside another one and
      the matches are exactly the positions holding `mark` followed by a word character. */
  function TagCount(s: string, mark: char): (n: nat)
    ensures n <= |s|
    decreases |s|
  {
    if |s| < 2 then 0
    else TagCount(s[..|s| - 1], mark) + (if TagAt(s, mark, |s| - 2) then 1 else 0)
  }

  // ---------------------------------------------------------------- UTF-16

  /** The UTF-16 code units of one character: the character itself below U+10000, otherwise
      its surrogate pair, a high surrogate in D800..DBFF followed by a low one in DC00..DFFF. */
  function CodeUnits(c: char): (u: seq<int>)
    ensures |u| == (if c as int < 0x1_0000 then 1 else 2)
    ensures forall k :: 0 <= k < |u| ==> 0 <= u[k] < 0x1_0000
    ensures |u| == 1 ==> u[0] == c as int
    ensures |u| == 2 ==> 0xD800 <= u[0] < 0xDC00 <= u[1] < 0xE000
  {
    var v := c as int;
    if v < 0x1_0000 then [v]
    else [0xD800 + (v - 0x1_0000) / 0x400, 0xDC00 + (v - 0x1_0000) % 0x400]
  }

  /** A JavaScript string as JavaScript sees it: the sequence of its UTF-16 code units, which
      `length`, `charCodeAt` and a regular expression without the `u` flag work on. */
  function Utf16(s: string): (u: seq<int>)
    decreases |s|
  {
    if s == [] then [] else CodeUnits(s[0]) + Utf16(s[1..])
  }

  /** `length` counts one unit per character and a second one for every character above U+FFFF. */
  lemma {:induction false} Utf16Length(s: string)
    ensures |Utf16(s)| == |s| + CountInRange(s, '\U{10000}', '\U{10FFFF}')
    decreases |s|
  {
    if s != [] {
      Utf16Length(s[1..]);
      CountInRangeCons(s[0], s[1..], '\U{10000}', '\U{10FFFF}');
      assert [s[0]] + s[1..] == s;
    }
  }

  /** A line terminator, which the regular-expression `.` does not match. */
  predicate IsLineTerminator(unit: int)
  {
    unit == 0x0A || unit == 0x0D || unit == 0x2028 || unit == 0x2029
  }

  /** Position `i` starts a run of six equal code units. */
  predicate RunAt(u: seq<int>, i: int)
  {
    0 <= i && i + 6 <= |u| && !IsLineTerminator(u[i]) &&
    forall k :: i < k < i + 6 ==> u[k] == u[i]
  }

  /** `/(.)\1{5,}/.test(s)` on the code units `u` of `s`: without the `u` flag `.` matches a
      single code unit, so some unit is repeated at least six times in a row. */
  predicate HasRepeatedRun(u: seq<int>)
  {
    exists i :: 0 <= i <= |u| - 6 && RunAt(u, i)
  }

  /** A character above U+FFFF repeated takes twice the length, and its alternating surrogates
      never form a run: three emoji are six units long, six of them are no repeated run. */
  lemma AstralRepetition(c: char)
    requires c as int >= 0x1_0000
    ensures |Utf16([c, c, c])| == 6
    ensures !HasRepeatedRun(Utf16([c, c, c, c, c, c]))
  {
    var p := CodeUnits(c);
    assert Utf16([c]) == p;
    assert Utf16([c, c]) == p + p by { assert [c, c][1..] == [c]; }
    assert Utf16([c, c, c]) == p + p + p by { assert [c, c, c][1..] == [c, c]; }
    assert Utf16([c, c, c, c]) == p + p + p + p by { assert [c, c, c, c][1..] == [c, c, c]; }
    assert Utf16([c, c, c, c, c]) == p + p + p + p + p by { assert [c, c, c, c, c][1..] == [c, c, c, c]; }
    var u := Utf16([c, c, c, c, c, c]);
    assert u == p + p + p + p + p + p by { assert [c, c, c, c, c, c][1..] == [c, c, c, c, c]; }
    forall i | 0 <= i <= |u| - 6
      ensures !RunAt(u, i)
    {
      assert u[i + 1] != u[i] by {
        if i % 2 == 0 { assert u[i] == p[0] && u[i + 1] == p[1]; }
        else { assert u[i] == p[1] && u[i + 1] == p[0]; }
      }
    }
  }

  /** The number of characters of `s` in the range `lo..hi`, as `/[lo-hi]/gu` counts them. */
  function CountInRange(s: string, lo: char, hi: char): (n: nat)
    ensures n <= |s|
    decreases |s|
  {
    if s == [] then 0
    else CountInRange(s[..|s| - 1], lo, hi) + (if lo <= s[|s| - 1] <= hi then 1 else 0)
  }

  lemma {:induction false} CountInRangeCons(c: char, s: string, lo: char, hi: char)
    ensures CountInRange([c] + s, lo, hi) == (if lo <= c <= hi then 1 else 0) + CountInRange(s, lo, hi)
    decreases |s|
  {
    if s != [] {
      CountInRangeCons(c, s[..|s| - 1], lo, hi);
      assert ([c] + s)[..|s|] == [c] + s[..|s| - 1];
    }
  }
}
