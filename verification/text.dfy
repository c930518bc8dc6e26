/**
 * String primitives the Python and JavaScript sources rely on: whitespace
 * trimming in both languages, splitting on one character and joining with a
 * separator, ASCII case mapping, and decimal digits.
 */
module Text {

  /** Python's `str.isspace()`; it is also the set `\s` matches in a str pattern. */
  predicate IsPySpace(c: char) {
    || ('\t' <= c <= '\r')
    || ('\U{1C}' <= c <= '\U{1F}')
    || c == ' ' || c == '\U{85}' || c == '\U{A0}' || c == '\U{1680}'
    || ('\U{2000}' <= c <= '\U{200A}')
    || c == '\U{2028}' || c == '\U{2029}' || c == '\U{202F}' || c == '\U{205F}' || c == '\U{3000}'
  }

  /** ECMAScript WhiteSpace and LineTerminator: what `String.prototype.trim` removes. */
  predicate IsJsSpace(c: char) {
    || c == '\t' || c == '\n' || c == '\U{B}' || c == '\U{C}' || c == '\r'
    || c == ' ' || c == '\U{A0}' || c == '\U{1680}'
    || ('\U{2000}' <= c <= '\U{200A}')
    || c == '\U{2028}' || c == '\U{2029}' || c == '\U{202F}' || c == '\U{205F}' || c == '\U{3000}'
    || c == '\U{FEFF}'
  }

  /** Which language's notion of whitespace a trim follows. */
  datatype Dialect = Python | JavaScript

  predicate IsSpace(d: Dialect, c: char) {
    match d
    case Python => IsPySpace(c)
    case JavaScript => IsJsSpace(c)
  }

  predicate AllSpace(d: Dialect, s: string) {
    forall i :: 0 <= i < |s| ==> IsSpace(d, s[i])
  }

  /** A string that begins and ends with a non-space character, or is empty. */
  predicate IsTrimmed(d: Dialect, s: string) {
    |s| == 0 || (!IsSpace(d, s[0]) && !IsSpace(d, s[|s| - 1]))
  }

  /** End of the maximal run of whitespace that starts at `j`. */
  function SkipSpace(d: Dialect, s: string, j: nat): (k: nat)
    requires j <= |s|
    ensures j <= k <= |s|
    ensures forall i :: j <= i < k ==> IsSpace(d, s[i])
    ensures k == |s| || !IsSpace(d, s[k])
    decreases |s| - j
  {
    if j == |s| || !IsSpace(d, s[j]) then j else SkipSpace(d, s, j + 1)
  }

  /** Any position that ends a whitespace run starting at `j` is the one `SkipSpace` finds. */
  lemma {:induction false} SkipSpaceUnique(d: Dialect, s: string, j: nat, p: nat)
    requires j <= p <= |s|
    requires forall k :: j <= k < p ==> IsSpace(d, s[k])
    requires p == |s| || !IsSpace(d, s[p])
    ensures SkipSpace(d, s, j) == p
    decreases p - j
  {
    if j < p {
      SkipSpaceUnique(d, s, j + 1, p);
    }
  }

  /** Start of the maximal run of whitespace that ends at `j`. */
  function BackSpace(d: Dialect, s: string, j: nat): (k: nat)
    requires j <= |s|
    ensures k <= j
    ensures forall i :: k <= i < j ==> IsSpace(d, s[i])
    ensures k == 0 || !IsSpace(d, s[k - 1])
  {
    if j == 0 || !IsSpace(d, s[j - 1]) then j else BackSpace(d, s, j - 1)
  }

  /** Any position that starts a whitespace run ending at `j` is the one `BackSpace` finds. */
  lemma {:induction false} BackSpaceUnique(d: Dialect, s: string, j: nat, p: nat)
    requires p <= j <= |s|
    requires forall k :: p <= k < j ==> IsSpace(d, s[k])
    requires p == 0 || !IsSpace(d, s[p - 1])
    ensures BackSpace(d, s, j) == p
    decreases j - p
  {
    if p < j {
      BackSpaceUnique(d, s, j - 1, p);
    }
  }

  /** End of the maximal run of Python whitespace (`\s*` in a str pattern) that starts at `j`. */
  function SkipPySpace(s: string, j: nat): (k: nat)
    requires j <= |s|
    ensures j <= k <= |s|
    ensures forall i :: j <= i < k ==> IsPySpace(s[i])
    ensures k == |s| || !IsPySpace(s[k])
  {
    SkipSpace(Python, s, j)
  }

  /** Any position that ends a Python whitespace run starting at `j` is the one `SkipPySpace` finds. */
  lemma SkipPySpaceUnique(s: string, j: nat, p: nat)
    requires j <= p <= |s|
    requires forall k :: j <= k < p ==> IsPySpace(s[k])
    requires p == |s| || !IsPySpace(s[p])
    ensures SkipPySpace(s, j) == p
  {
    SkipSpaceUnique(Python, s, j, p);
  }

  /** Python's `str.strip()` or JavaScript's `String.prototype.trim()`. */
  function Trim(d: Dialect, s: string): (r: string)
    ensures IsTrimmed(d, r)
    ensures |r| == 0 <==> AllSpace(d, s)
  {
    var a := SkipSpace(d, s, 0);
    if a == |s| then []
    else
      var b := BackSpace(d, s, |s|);
      assert !IsSpace(d, s[a]);
      s[a..b]
  }

  /**
   * Trim is characterised by its output alone: surrounding a trimmed string
   * with any whitespace and trimming gives the string back.
   */
  lemma {:induction false} TrimSurrounded(d: Dialect, p: string, m: string, q: string)
    requires AllSpace(d, p) && AllSpace(d, q)
    requires IsTrimmed(d, m)
    ensures Trim(d, p + m + q) == m
  {
    var s := p + m + q;
    if |m| == 0 {
      assert AllSpace(d, s) by {
        forall i | 0 <= i < |s| ensures IsSpace(d, s[i]) {
          if i < |p| { assert s[i] == p[i]; } else { assert s[i] == q[i - |p|]; }
        }
      }
    } else {
      assert forall k :: 0 <= k < |p| ==> s[k] == p[k];
      assert s[|p|] == m[0];
      SkipSpaceUnique(d, s, 0, |p|);
      assert forall k :: |p| + |m| <= k < |s| ==> s[k] == q[k - |p| - |m|];
      assert s[|p| + |m| - 1] == m[|m| - 1];
      BackSpaceUnique(d, s, |s|, |p| + |m|);
      assert s[|p|..|p| + |m|] == m;
    }
  }

  /** Trimming twice is trimming once. */
  lemma TrimIdempotent(d: Dialect, s: string)
    ensures Trim(d, Trim(d, s)) == Trim(d, s)
  {
    var m := Trim(d, s);
    assert [] + m + [] == m;
    TrimSurrounded(d, [], m, []);
  }

  /**
   * The trimmed pieces that are not empty, in order: Python's
   * `[t.strip() for t in parts if t.strip()]` and JavaScript's
   * `parts.map(x => x.trim()).filter(Boolean)`.
   */
  function TrimmedNames(d: Dialect, parts: seq<string>): (r: seq<string>)
    ensures |r| <= |parts|
    ensures forall x :: x in r ==> |x| > 0 && IsTrimmed(d, x)
  {
    if parts == [] then []
    else
      var rest := TrimmedNames(d, parts[1..]);
      var t := Trim(d, parts[0]);
      if |t| > 0 then [t] + rest else rest
  }

  /** Pieces that are already trimmed and non-empty pass through unchanged. */
  lemma {:induction false} TrimmedNamesKeepsNames(d: Dialect, names: seq<string>)
    requires forall x :: x in names ==> |x| > 0 && IsTrimmed(d, x)
    ensures TrimmedNames(d, names) == names
  {
    if |names| > 0 {
      var n := names[0];
      assert Trim(d, n) == n && |n| > 0 by {
        assert n in names;
        assert [] + n + [] == n;
        TrimSurrounded(d, [], n, []);
      }
      assert TrimmedNames(d, names[1..]) == names[1..] by {
        assert forall x :: x in names[1..] ==> x in names;
        TrimmedNamesKeepsNames(d, names[1..]);
      }
      calc {
        TrimmedNames(d, names);
        [Trim(d, n)] + TrimmedNames(d, names[1..]);
        [n] + names[1..];
        names;
      }
    }
  }

  /** Position of the first occurrence of `c` in `s`. */
  function IndexOf(s: string, c: char): (i: nat)
    requires c in s
    ensures i < |s| && s[i] == c && c !in s[..i]
  {
    if s[0] == c then 0
    else
      assert c in s[1..] by {
        var k :| 0 <= k < |s| && s[k] == c;
        assert s[1..][k - 1] == c;
      }
      var j := IndexOf(s[1..], c);
      assert s[..j + 1] == [s[0]] + s[1..][..j];
      j + 1
  }

  /** The first position holding `c` is the one `IndexOf` finds. */
  lemma {:induction false} IndexOfUnique(s: string, c: char, j: nat)
    requires j < |s| && s[j] == c
    requires forall k :: 0 <= k < j ==> s[k] != c
    ensures IndexOf(s, c) == j
  {
    if j > 0 {
      assert s[1..][j - 1] == c;
      IndexOfUnique(s[1..], c, j - 1);
    }
  }

  /** Python's `s.split(sep)` / JavaScript's `s.split(sep)` for a one-character separator. */
  function Split(s: string, sep: char): (parts: seq<string>)
    ensures |parts| >= 1
    ensures forall i :: 0 <= i < |parts| ==> sep !in parts[i]
    decreases |s|
  {
    if sep !in s then [s]
    else
      var i := IndexOf(s, sep);
      [s[..i]] + Split(s[i + 1..], sep)
  }

  /** Python's `sep.join(parts)` / JavaScript's `parts.join(sep)`. */
  function Join(parts: seq<string>, sep: string): string {
    if |parts| == 0 then ""
    else if |parts| == 1 then parts[0]
    else parts[0] + sep + Join(parts[1..], sep)
  }

  /** A character absent from every piece and from the separator is absent from the join. */
  lemma {:induction false} JoinAvoids(parts: seq<string>, sep: string, c: char)
    requires c !in sep
    requires forall i :: 0 <= i < |parts| ==> c !in parts[i]
    ensures c !in Join(parts, sep)
    decreases |parts|
  {
    if |parts| > 1 {
      JoinAvoids(parts[1..], sep, c);
    }
  }

  /** A join begins with its first piece. */
  lemma JoinStartsWithFirst(parts: seq<string>, sep: string)
    requires |parts| >= 1
    ensures |parts[0]| <= |Join(parts, sep)| && Join(parts, sep)[..|parts[0]|] == parts[0]
  {
  }

  /** Joining the pieces of a split with the same separator restores the string. */
  lemma {:induction false} JoinSplit(s: string, sep: char)
    ensures Join(Split(s, sep), [sep]) == s
    decreases |s|
  {
    if sep in s {
      var i := IndexOf(s, sep);
      var rest := Split(s[i + 1..], sep);
      assert Split(s, sep) == [s[..i]] + rest;
      assert ([s[..i]] + rest)[1..] == rest;
      JoinSplit(s[i + 1..], sep);
      assert s == s[..i] + [sep] + s[i + 1..];
    }
  }

  /** Splitting a join whose pieces avoid the separator gives the pieces back. */
  lemma {:induction false} SplitJoin(parts: seq<string>, sep: char)
    requires |parts| >= 1
    requires forall i :: 0 <= i < |parts| ==> sep !in parts[i]
    ensures Split(Join(parts, [sep]), sep) == parts
    decreases |parts|
  {
    if |parts| > 1 {
      var tail := Join(parts[1..], [sep]);
      var p0 := parts[0];
      assert Join(parts, [sep]) == p0 + [sep] + tail;
      SplitAtFirst(p0, sep, tail);
      SplitJoin(parts[1..], sep);
      assert parts == [p0] + parts[1..];
    }
  }

  /** A piece free of the separator, then the separator, splits off as the first part. */
  lemma SplitAtFirst(p: string, sep: char, rest: string)
    requires sep !in p
    ensures Split(p + [sep] + rest, sep) == [p] + Split(rest, sep)
  {
    var s := p + [sep] + rest;
    assert s[|p|] == sep;
    assert forall k :: 0 <= k < |p| ==> s[k] != sep by {
      assert forall k :: 0 <= k < |p| ==> s[k] == p[k];
    }
    IndexOfUnique(s, sep, |p|);
    assert s[..|p|] == p;
    assert s[|p| + 1..] == rest;
  }

  /** ASCII lower-casing of one character; other characters are unchanged. */
  function AsciiLower(c: char): char {
    if 'A' <= c <= 'Z' then (c as int + 32) as char else c
  }

  /** ASCII upper-casing of one character; other characters are unchanged. */
  function AsciiUpper(c: char): char {
    if 'a' <= c <= 'z' then (c as int - 32) as char else c
  }

  function LowerAscii(s: string): (r: string)
    ensures |r| == |s| && forall i :: 0 <= i < |s| ==> r[i] == AsciiLower(s[i])
  {
    seq(|s|, i requires 0 <= i < |s| => AsciiLower(s[i]))
  }

  function UpperAscii(s: string): (r: string)
    ensures |r| == |s| && forall i :: 0 <= i < |s| ==> r[i] == AsciiUpper(s[i])
  {
    seq(|s|, i requires 0 <= i < |s| => AsciiUpper(s[i]))
  }

  predicate IsDigit(c: char) {
    '0' <= c <= '9'
  }

  predicate IsAsciiAlnum(c: char) {
    IsDigit(c) || ('a' <= c <= 'z') || ('A' <= c <= 'Z')
  }

  predicate AllDigits(s: string) {
    forall i :: 0 <= i < |s| ==> IsDigit(s[i])
  }

  function DigitValue(c: char): nat
    requires IsDigit(c)
  {
    c as int - '0' as int
  }

  /** Python's `int(s)` on a string of ASCII digits. */
  function DecimalValue(s: string): nat
    requires AllDigits(s)
  {
    if |s| == 0 then 0 else DecimalValue(s[..|s| - 1]) * 10 + DigitValue(s[|s| - 1])
  }

  /** Python's `str(n)` on a non-negative integer. */
  function NatToString(n: nat): (s: string)
    ensures |s| >= 1 && AllDigits(s) && DecimalValue(s) == n
    ensures |s| == 1 || s[0] != '0'
  {
    if n < 10 then [('0' as int + n) as char]
    else
      var p := NatToString(n / 10);
      var s := p + [('0' as int + n % 10) as char];
      assert s[..|s| - 1] == p;
      s
  }

  /** Python's `str(i)` on an integer. */
  function IntToString(i: int): string {
    if i < 0 then "-" + NatToString(-i) else NatToString(i)
  }
}
