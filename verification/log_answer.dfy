/**
 * The answer extraction of the results call: the first match of the Python
 * pattern `x=\s*([\w.+-]+)` in the job log, captured group 1, or nothing.
 */
module LogAnswer {
  import opened Wrappers
  import Text

  /** The character class `[\w.+-]`, with `\w` read as ASCII letters, digits and `_`. */
  predicate IsAnswerChar(c: char) {
    Text.IsAsciiAlnum(c) || c == '_' || c == '.' || c == '+' || c == '-'
  }

  /** End of the maximal run of answer characters that starts at `j`. */
  function RunEnd(s: string, j: nat): (k: nat)
    requires j <= |s|
    ensures j <= k <= |s|
    ensures forall i :: j <= i < k ==> IsAnswerChar(s[i])
    ensures k == |s| || !IsAnswerChar(s[k])
    decreases |s| - j
  {
    if j == |s| || !IsAnswerChar(s[j]) then j else RunEnd(s, j + 1)
  }

  /** Any position that ends an answer-character run starting at `j` is the one `RunEnd` finds. */
  lemma {:induction false} RunEndUnique(s: string, j: nat, e: nat)
    requires j <= e <= |s|
    requires forall k :: j <= k < e ==> IsAnswerChar(s[k])
    requires e == |s| || !IsAnswerChar(s[e])
    ensures RunEnd(s, j) == e
    decreases e - j
  {
    if j < e {
      RunEndUnique(s, j + 1, e);
    }
  }

  /**
   * Reference semantics of one regex match: `x=` at `i`, whitespace on
   * `[i+2, p)`, the group on `[p, e)`, and the greedy `+` stopping only where
   * no further answer character follows.
   */
  ghost predicate IsMatch(s: string, i: int, p: int, e: int) {
    && 0 <= i && i + 2 <= p < e <= |s|
    && s[i] == 'x' && s[i + 1] == '='
    && (forall k :: i + 2 <= k < p ==> Text.IsPySpace(s[k]))
    && (forall k :: p <= k < e ==> IsAnswerChar(s[k]))
    && (e == |s| || !IsAnswerChar(s[e]))
  }

  /** The scanner's test for a match starting at `i`. */
  predicate MatchesAt(s: string, i: nat) {
    && i + 2 <= |s| && s[i] == 'x' && s[i + 1] == '='
    && var p := Text.SkipPySpace(s, i + 2);
       p < |s| && IsAnswerChar(s[p])
  }

  /** The group captured by the match that starts at `i`. */
  function CaptureAt(s: string, i: nat): string
    requires MatchesAt(s, i)
  {
    var p := Text.SkipPySpace(s, i + 2);
    s[p..RunEnd(s, p)]
  }

  /**
   * Whitespace and answer characters are disjoint, so a match at `i` has
   * exactly one shape: the scanner's.
   */
  lemma MatchShape(s: string, i: nat, p: int, e: int)
    ensures IsMatch(s, i, p, e) <==>
      (MatchesAt(s, i) && p == Text.SkipPySpace(s, i + 2) && e == RunEnd(s, p))
  {
    if IsMatch(s, i, p, e) {
      Text.SkipPySpaceUnique(s, i + 2, p);
      RunEndUnique(s, p, e);
    }
  }

  /** The leftmost position at or after `i` where the pattern matches. */
  function FirstMatch(s: string, i: nat): (r: Option<nat>)
    requires i <= |s|
    ensures r.Some? ==> i <= r.value < |s| && MatchesAt(s, r.value)
    ensures r.Some? ==> forall j :: i <= j < r.value ==> !MatchesAt(s, j)
    ensures r.None? ==> forall j :: i <= j < |s| ==> !MatchesAt(s, j)
    decreases |s| - i
  {
    if i == |s| then None
    else if MatchesAt(s, i) then Some(i)
    else FirstMatch(s, i + 1)
  }

  /** `re.search(r"x=\s*([\w.+-]+)", log)` followed by `match.group(1)`. */
  function ExtractAnswer(log: string): Option<string> {
    match FirstMatch(log, 0)
    case None => None
    case Some(i) => Some(CaptureAt(log, i))
  }

  /**
   * The scanner agrees with the regex semantics: there is an answer exactly
   * when some match exists, and then it is the group of the leftmost match.
   */
  lemma ExtractAnswerIsLeftmostMatch(log: string)
    ensures ExtractAnswer(log).None? <==> forall i, p, e :: !IsMatch(log, i, p, e)
    ensures ExtractAnswer(log).Some? ==>
      exists i, p, e :: IsMatch(log, i, p, e) && ExtractAnswer(log).value == log[p..e]
        && forall j, p', e' :: j < i ==> !IsMatch(log, j, p', e')
  {
    match FirstMatch(log, 0)
    case None =>
      forall i, p, e ensures !IsMatch(log, i, p, e) {
        if IsMatch(log, i, p, e) {
          MatchShape(log, i, p, e);
        }
      }
    case Some(i) =>
      var p := Text.SkipPySpace(log, i + 2);
      var e := RunEnd(log, p);
      MatchShape(log, i, p, e);
      forall j, p', e' | j < i ensures !IsMatch(log, j, p', e') {
        if 0 <= j && IsMatch(log, j, p', e') {
          MatchShape(log, j, p', e');
        }
      }
  }

  /** An answer is never empty and consists of answer characters only. */
  lemma AnswerShape(log: string)
    ensures ExtractAnswer(log).Some? ==>
      var a := ExtractAnswer(log).value;
      |a| > 0 && forall k :: 0 <= k < |a| ==> IsAnswerChar(a[k])
  {
  }
}
