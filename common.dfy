/** Small value types and string functions shared by the backend and the browser
    client models: optional values, whitespace stripping (Python `str.strip`,
    JavaScript `String.prototype.trim`), ASCII lower-casing, splitting on one
    separator character (Python `str.split(c)`, JavaScript `String.split(c)`),
    and decimal rendering of naturals (Python `str(int)`). */
module Common {

  datatype Option<+T> = None | Some(value: T)

  datatype Result<+T, +E> = Ok(value: T) | Err(error: E)

  type byte = b: int | 0 <= b < 256

  /** The ASCII whitespace characters that both Python's `str.strip()` and
      JavaScript's `trim()` remove: space, tab, line feed, vertical tab, form
      feed and carriage return. */
  predicate IsSpace(c: char) {
    c == ' ' || c == '\t' || c == '\n' || c == '\U{000B}' || c == '\U{000C}' || c == '\r'
  }

  predicate AllSpace(s: string) {
    forall k :: 0 <= k < |s| ==> IsSpace(s[k])
  }

  /** Python's `s.strip()` and JavaScript's `s.trim()` (on ASCII whitespace):
      the result is empty exactly when `s` is all whitespace, and otherwise it
      neither starts nor ends with whitespace. */
  function Strip(s: string): (r: string)
    decreases |s|
    ensures |r| <= |s|
    ensures r == [] <==> AllSpace(s)
    ensures r != [] ==> !IsSpace(r[0]) && !IsSpace(r[|r| - 1])
  {
    if s == [] then s
    else if IsSpace(s[0]) then
      assert forall k :: 0 < k < |s| ==> s[k] == s[1..][k - 1];
      Strip(s[1..])
    else if IsSpace(s[|s| - 1]) then
      assert forall k :: 0 <= k < |s| - 1 ==> s[k] == s[..|s| - 1][k];
      Strip(s[..|s| - 1])
    else s
  }

  /** `r` is `s[i..j]` and everything of `s` outside it is whitespace. */
  predicate Trimmed(r: string, s: string, i: int, j: int) {
    0 <= i <= j <= |s| && r == s[i..j] && AllSpace(s[..i]) && AllSpace(s[j..])
  }

  /** `s = u + Strip(s) + v` where `u` and `v` are all whitespace: stripping
      only removes whitespace, and only at the two ends. */
  lemma {:induction false} StripSlice(s: string)
    decreases |s|
    ensures exists i, j :: Trimmed(Strip(s), s, i, j)
  {
    if s == [] {
      assert Trimmed(Strip(s), s, 0, 0);
    } else if IsSpace(s[0]) {
      StripSlice(s[1..]);
      var i, j :| Trimmed(Strip(s[1..]), s[1..], i, j);
      TrimmedFront(s, i, j);
    } else if IsSpace(s[|s| - 1]) {
      StripSlice(s[..|s| - 1]);
      var i, j :| Trimmed(Strip(s[..|s| - 1]), s[..|s| - 1], i, j);
      TrimmedBack(s, i, j);
    } else {
      assert Trimmed(Strip(s), s, 0, |s|);
    }
  }

  lemma TrimmedFront(s: string, i: int, j: int)
    requires s != [] && IsSpace(s[0])
    requires Trimmed(Strip(s[1..]), s[1..], i, j)
    ensures Trimmed(Strip(s), s, i + 1, j + 1)
  {
    var t := s[1..];
    SpaceBefore(s[0], t[..i]);
    assert [s[0]] + t[..i] == s[..i + 1];
    assert t[i..j] == s[i + 1..j + 1] && t[j..] == s[j + 1..];
  }

  lemma TrimmedBack(s: string, i: int, j: int)
    requires s != [] && !IsSpace(s[0]) && IsSpace(s[|s| - 1])
    requires Trimmed(Strip(s[..|s| - 1]), s[..|s| - 1], i, j)
    ensures Trimmed(Strip(s), s, i, j)
  {
    var t := s[..|s| - 1];
    StripDropsBack(s);
    SlicesOfFront(s, i, j);
    SpaceAfter(t[j..], s[|s| - 1]);
  }

  lemma StripDropsBack(s: string)
    requires s != [] && !IsSpace(s[0]) && IsSpace(s[|s| - 1])
    ensures Strip(s) == Strip(s[..|s| - 1])
  {
  }

  /** Slices of `s` without its last character are slices of `s`. */
  lemma SlicesOfFront(s: string, i: int, j: int)
    requires s != [] && 0 <= i <= j <= |s| - 1
    ensures var t := s[..|s| - 1];
      t[i..j] == s[i..j] && t[..i] == s[..i] && t[j..] + [s[|s| - 1]] == s[j..]
  {
  }

  lemma SpaceBefore(c: char, s: string)
    requires IsSpace(c) && AllSpace(s)
    ensures AllSpace([c] + s)
  {
    assert forall k :: 0 < k < |s| + 1 ==> ([c] + s)[k] == s[k - 1];
  }

  lemma SpaceAfter(s: string, c: char)
    requires IsSpace(c) && AllSpace(s)
    ensures AllSpace(s + [c])
  {
    assert forall k :: 0 <= k < |s| ==> (s + [c])[k] == s[k];
  }

  /** A single character lower-cased as Python's `str.lower()` does for ASCII. */
  function LowerChar(c: char): char {
    if 'A' <= c <= 'Z' then (c as int + 32) as char else c
  }

  /** `s.lower()` restricted to ASCII letters; characters outside A-Z are kept. */
  function Lower(s: string): (r: string)
    ensures |r| == |s|
    ensures forall k :: 0 <= k < |s| ==> r[k] == LowerChar(s[k])
  {
    seq(|s|, k requires 0 <= k < |s| => LowerChar(s[k]))
  }

  predicate StartsWith(s: string, prefix: string) {
    |prefix| <= |s| && s[..|prefix|] == prefix
  }

  predicate EndsWith(s: string, suffix: string) {
    |suffix| <= |s| && s[|s| - |suffix|..] == suffix
  }

  /** The parts separated by `sep`, joined back with `sep` in between. */
  function Join(parts: seq<string>, sep: char): string {
    if |parts| == 0 then ""
    else if |parts| == 1 then parts[0]
    else parts[0] + [sep] + Join(parts[1..], sep)
  }

  predicate Separated(parts: seq<string>, sep: char) {
    forall i :: 0 <= i < |parts| ==> sep !in parts[i]
  }

  /** `s.split(sep)` for a one-character separator (Python and JavaScript
      agree): never empty, the parts rebuild `s`, and no part holds `sep`. */
  function Split(s: string, sep: char): (parts: seq<string>)
    ensures |parts| >= 1
    ensures Join(parts, sep) == s
    ensures Separated(parts, sep)
  {
    if s == [] then [[]]
    else
      var rest := Split(s[1..], sep);
      if s[0] == sep then
        assert ([[]] + rest)[1..] == rest;
        [[]] + rest
      else
        var parts := [[s[0]] + rest[0]] + rest[1..];
        assert parts[1..] == rest[1..];
        if |rest| == 1 then parts
        else
          assert Join(rest, sep) == rest[0] + [sep] + Join(rest[1..], sep);
          parts
  }

  lemma {:induction false} SplitNoSeparator(s: string, sep: char)
    requires sep !in s
    ensures Split(s, sep) == [s]
  {
    if s != [] {
      SplitNoSeparator(s[1..], sep);
    }
  }

  lemma {:induction false} SplitAtSeparator(x: string, y: string, sep: char)
    requires sep !in x
    ensures Split(x + [sep] + y, sep) == [x] + Split(y, sep)
  {
    if x == [] {
      assert (x + [sep] + y)[1..] == y;
    } else {
      assert (x + [sep] + y)[1..] == x[1..] + [sep] + y;
      assert x[0] != sep && (x + [sep] + y)[0] == x[0];
      SplitAtSeparator(x[1..], y, sep);
      assert [x[0]] + x[1..] == x;
    }
  }

  /** Splitting is the inverse of joining parts that hold no separator. */
  lemma {:induction false} SplitJoin(parts: seq<string>, sep: char)
    requires |parts| >= 1 && Separated(parts, sep)
    ensures Split(Join(parts, sep), sep) == parts
  {
    if |parts| == 1 {
      SplitNoSeparator(parts[0], sep);
    } else {
      SplitJoin(parts[1..], sep);
      SplitAtSeparator(parts[0], Join(parts[1..], sep), sep);
    }
  }

  /** Each line followed by its terminator, all concatenated. */
  function Terminated(lines: seq<string>, sep: char): string {
    if lines == [] then "" else lines[0] + [sep] + Terminated(lines[1..], sep)
  }

  lemma {:induction false} TerminatedAppend(a: seq<string>, b: seq<string>, sep: char)
    ensures Terminated(a + b, sep) == Terminated(a, sep) + Terminated(b, sep)
  {
    if a != [] {
      assert (a + b)[1..] == a[1..] + b;
      TerminatedAppend(a[1..], b, sep);
    } else {
      assert a + b == b;
    }
  }

  /** A joined sequence is its complete lines, each terminated, then its last part. */
  lemma {:induction false} JoinAsTerminated(parts: seq<string>, sep: char)
    requires |parts| >= 1
    ensures Join(parts, sep) == Terminated(parts[..|parts| - 1], sep) + parts[|parts| - 1]
  {
    if |parts| > 1 {
      JoinAsTerminated(parts[1..], sep);
      assert parts[..|parts| - 1][1..] == parts[1..][..|parts[1..]| - 1];
    }
  }

  /** Complete lines followed by an unterminated remainder split back into
      those lines and the remainder. */
  lemma SplitTerminated(lines: seq<string>, remainder: string, sep: char)
    requires Separated(lines, sep) && sep !in remainder
    ensures Split(Terminated(lines, sep) + remainder, sep) == lines + [remainder]
  {
    var parts := lines + [remainder];
    assert parts[..|parts| - 1] == lines;
    JoinAsTerminated(parts, sep);
    assert Separated(parts, sep) by {
      forall i | 0 <= i < |parts|
        ensures sep !in parts[i]
      {
        if i < |lines| {
          assert parts[i] == lines[i];
        }
      }
    }
    SplitJoin(parts, sep);
  }

  function DigitChar(d: nat): (c: char)
    requires d < 10
    ensures '0' <= c <= '9'
  {
    ('0' as int + d) as char
  }

  predicate IsDigits(s: string) {
    forall k :: 0 <= k < |s| ==> '0' <= s[k] <= '9'
  }

  /** The number a string of decimal digits denotes. */
  function DigitsValue(s: string): nat
    requires IsDigits(s)
  {
    if s == [] then 0 else DigitsValue(s[..|s| - 1]) * 10 + (s[|s| - 1] as int - '0' as int)
  }

  /** Python's `str(n)` for a natural number: one or more decimal digits,
      with no leading zero. */
  function NatToString(n: nat): (s: string)
    ensures |s| >= 1 && IsDigits(s)
    ensures |s| > 1 ==> s[0] != '0'
  {
    if n < 10 then [DigitChar(n)] else NatToString(n / 10) + [DigitChar(n % 10)]
  }

  /** Reading back the rendered digits gives the number. */
  lemma {:induction false} NatToStringValue(n: nat)
    ensures DigitsValue(NatToString(n)) == n
  {
    if n >= 10 {
      NatToStringValue(n / 10);
      var s := NatToString(n);
      assert s[..|s| - 1] == NatToString(n / 10);
    }
  }
}
