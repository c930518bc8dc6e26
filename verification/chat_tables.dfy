/**
 * How the chatbot endpoint decides which library and tables to read back:
 * an explicit table name, else the names after `Tables:` in the prompt,
 * else three default names.
 */
module ChatTables {
  import opened Wrappers
  import Text

  /** The tables read when neither the request nor the prompt names any. */
  const DefaultTables: seq<string> := ["results", "results1", "results2"]

  /** `data.get("library") or "work"`. */
  function ResolveLibrary(library: Option<string>): (r: string)
    ensures r != ""
    ensures Truthy(library) ==> r == library.value
  {
    if Truthy(library) then library.value else "work"
  }

  /** The keyword of the pattern `Tables:\s*(.*)`, in lower case. */
  const Keyword := "tables:"

  /**
   * One character of the keyword under `re.IGNORECASE`: ASCII case folding,
   * plus U+017F (long s), which Python's case-insensitive matching also
   * accepts for `s`.
   */
  predicate KeywordChar(c: char, k: char) {
    Text.AsciiLower(c) == k || (k == 's' && c == '\U{17F}')
  }

  /** The keyword matches case-insensitively at position `i`. */
  predicate KeywordAt(s: string, i: nat) {
    i + |Keyword| <= |s| && forall k :: 0 <= k < |Keyword| ==> KeywordChar(s[i + k], Keyword[k])
  }

  /** The leftmost position at or after `i` where the keyword matches. */
  function FindKeyword(s: string, i: nat): (r: Option<nat>)
    requires i <= |s|
    ensures r.Some? ==> i <= r.value && KeywordAt(s, r.value)
    ensures r.Some? ==> forall j :: i <= j < r.value ==> !KeywordAt(s, j)
    ensures r.None? ==> forall j :: i <= j <= |s| ==> !KeywordAt(s, j)
    decreases |s| - i
  {
    if i + |Keyword| > |s| then None
    else if KeywordAt(s, i) then Some(i)
    else FindKeyword(s, i + 1)
  }

  /** The end of the line containing position `p`: the next newline, or the end of the text. */
  function LineEnd(s: string, p: nat): (e: nat)
    requires p <= |s|
    ensures p <= e <= |s|
    ensures '\n' !in s[p..e]
    ensures e == |s| || s[e] == '\n'
    decreases |s| - p
  {
    if p == |s| || s[p] == '\n' then p
    else
      var e := LineEnd(s, p + 1);
      assert s[p..e] == [s[p]] + s[p + 1..e];
      e
  }

  /**
   * Group 1 of `re.search(r"Tables:\s*(.*)", prompt, re.IGNORECASE)`: after
   * the leftmost keyword, `\s*` skips every whitespace character (newlines
   * included) and `.*` takes the rest of that line.
   */
  function TablesCapture(prompt: string): (r: Option<string>)
    ensures r.Some? ==> '\n' !in r.value
    ensures r.None? <==> forall j :: 0 <= j <= |prompt| ==> !KeywordAt(prompt, j)
  {
    match FindKeyword(prompt, 0)
    case None => None
    case Some(i) =>
      var p := Text.SkipPySpace(prompt, i + |Keyword|);
      Some(prompt[p..LineEnd(prompt, p)])
  }

  /** The table names the prompt lists after `Tables:`, comma-separated; none without the keyword. */
  function PromptTables(prompt: string): seq<string> {
    match TablesCapture(prompt)
    case None => []
    case Some(line) => Text.TrimmedNames(Text.Python, Text.Split(line, ','))
  }

  /**
   * The tables the chatbot reads back: the request's table name when given,
   * else the prompt's `Tables:` list, else the defaults. Never empty, and
   * no entry is empty.
   */
  function ResolveTables(tableName: Option<string>, prompt: Option<string>): (r: seq<string>)
    ensures |r| >= 1
    ensures forall i :: 0 <= i < |r| ==> r[i] != ""
    ensures Truthy(tableName) ==> r == [tableName.value]
    ensures !Truthy(tableName) && Truthy(prompt) && PromptTables(prompt.value) != [] ==> r == PromptTables(prompt.value)
    ensures !Truthy(tableName) && (!Truthy(prompt) || PromptTables(prompt.value) == []) ==> r == DefaultTables
  {
    if Truthy(tableName) then [tableName.value]
    else
      var fromPrompt := if Truthy(prompt) then PromptTables(prompt.value) else [];
      if fromPrompt == [] then DefaultTables else fromPrompt
  }

  /**
   * Listing names after the keyword gives them back: a prompt
   * `Tables: a,b,...` whose names are trimmed, non-empty and free of commas
   * and newlines resolves to exactly those names, in order.
   */
  lemma {:induction false} PromptTablesRoundTrip(names: seq<string>)
    requires |names| >= 1
    requires forall i :: 0 <= i < |names| ==> names[i] != "" && Text.IsTrimmed(Text.Python, names[i])
    requires forall i :: 0 <= i < |names| ==> ',' !in names[i] && '\n' !in names[i]
    ensures PromptTables("Tables: " + Text.Join(names, ",")) == names
  {
    var line := Text.Join(names, [',']);
    assert '\n' !in line by {
      Text.JoinAvoids(names, [','], '\n');
    }
    assert line != [] && !Text.IsPySpace(line[0]) by {
      Text.JoinStartsWithFirst(names, [',']);
      assert line[0] == line[..|names[0]|][0];
      assert !Text.IsSpace(Text.Python, names[0][0]);
    }
    assert PromptTables("Tables: " + line) == Text.TrimmedNames(Text.Python, Text.Split(line, ',')) by {
      CaptureAfterKeyword(line);
    }
    assert Text.Split(line, ',') == names by {
      Text.SplitJoin(names, ',');
    }
    Text.TrimmedNamesKeepsNames(Text.Python, names);
  }

  /** A one-line list that starts with a non-space is captured whole after `Tables: `. */
  lemma {:induction false} CaptureAfterKeyword(line: string)
    requires line != [] && !Text.IsPySpace(line[0])
    requires '\n' !in line
    ensures TablesCapture("Tables: " + line) == Some(line)
    ensures PromptTables("Tables: " + line) == Text.TrimmedNames(Text.Python, Text.Split(line, ','))
  {
    var prompt := "Tables: " + line;
    assert KeywordAt(prompt, 0);
    assert FindKeyword(prompt, 0) == Some(0);
    assert prompt[7] == ' ' && prompt[8] == line[0];
    Text.SkipPySpaceUnique(prompt, 7, 8);
    assert prompt[8..|prompt|] == line;
    LineEndUnique(prompt, 8, |prompt|);
    assert TablesCapture(prompt) == Some(prompt[8..|prompt|]);
  }

  /** Any position that ends the line starting at `p` is the one `LineEnd` finds. */
  lemma {:induction false} LineEndUnique(s: string, p: nat, e: nat)
    requires p <= e <= |s|
    requires '\n' !in s[p..e]
    requires e == |s| || s[e] == '\n'
    ensures LineEnd(s, p) == e
    decreases e - p
  {
    if p < e {
      assert s[p] == s[p..e][0];
      assert s[p + 1..e] == s[p..e][1..];
      LineEndUnique(s, p + 1, e);
    }
  }
}
