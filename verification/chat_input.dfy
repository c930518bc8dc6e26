/**
 * The chat box of the earlier frontend: what it sends for a message. A
 * line whose trimmed text starts with `tables:` (any case) is a directive
 * naming up to two tables; every other line is SAS code.
 */
module ChatInput {
  import opened Wrappers
  import Text

  /** The directive keyword, in lower case. */
  const Directive := "tables:"

  /**
   * The keyword matches at position `i`, ignoring ASCII case. Both the
   * `toLowerCase().startsWith` test and the `/tables:/i` pattern come down
   * to this: no other character lowercases, or case-folds under a pattern
   * without the `u` flag, to one of the keyword's letters.
   */
  predicate DirectiveAt(s: string, i: nat) {
    i + |Directive| <= |s| && forall k :: 0 <= k < |Directive| ==> Text.AsciiLower(s[i + k]) == Directive[k]
  }

  /** `line.trim().toLowerCase().startsWith('tables:')`. */
  predicate IsDirective(line: string) {
    DirectiveAt(Text.Trim(Text.JavaScript, line), 0)
  }

  /** The leftmost match of `/tables:/i` at or after `i`. */
  function FindDirective(s: string, i: nat): (r: Option<nat>)
    requires i <= |s|
    ensures r.Some? ==> i <= r.value && DirectiveAt(s, r.value)
    ensures r.Some? ==> forall j :: i <= j < r.value ==> !DirectiveAt(s, j)
    ensures r.None? ==> forall j :: i <= j <= |s| ==> !DirectiveAt(s, j)
    decreases |s| - i
  {
    if i + |Directive| > |s| then None
    else if DirectiveAt(s, i) then Some(i)
    else FindDirective(s, i + 1)
  }

  /** `line.replace(/tables:/i, '')`: the first match removed. */
  function RemoveDirective(line: string): (r: string)
    ensures FindDirective(line, 0).None? ==> r == line
    ensures FindDirective(line, 0).Some? ==> |r| + |Directive| == |line|
    ensures FindDirective(line, 0).Some? ==>
      var i := FindDirective(line, 0).value; r == line[..i] + line[i + |Directive|..]
  {
    match FindDirective(line, 0)
    case None => line
    case Some(i) => line[..i] + line[i + |Directive|..]
  }

  /** The tables one directive line names: at most two, each trimmed and non-empty. */
  function DirectiveTables(line: string): (r: seq<string>)
    ensures |r| <= 2
    ensures forall x :: x in r ==> |x| > 0 && Text.IsTrimmed(Text.JavaScript, x)
  {
    var names := Text.TrimmedNames(Text.JavaScript, Text.Split(RemoveDirective(line), ','));
    if |names| <= 2 then names else names[..2]
  }

  /** The lines that go into the code: every line that is not a directive, in order. */
  function KeptLines(lines: seq<string>): (r: seq<string>)
    ensures |r| <= |lines|
    ensures forall i :: 0 <= i < |r| ==> !IsDirective(r[i])
    decreases |lines|
  {
    if lines == [] then []
    else
      var init := KeptLines(lines[..|lines| - 1]);
      if IsDirective(lines[|lines| - 1]) then init else init + [lines[|lines| - 1]]
  }

  /** The tables the lines name: those of the last directive line, none without one. */
  function LinesTables(lines: seq<string>): (r: seq<string>)
    ensures |r| <= 2
    ensures forall x :: x in r ==> |x| > 0 && Text.IsTrimmed(Text.JavaScript, x)
    decreases |lines|
  {
    if lines == [] then []
    else if IsDirective(lines[|lines| - 1]) then DirectiveTables(lines[|lines| - 1])
    else LinesTables(lines[..|lines| - 1])
  }

  /** What `parseInput` returns. */
  datatype Parsed = Parsed(code: string, tables: seq<string>)

  /** `parseInput(raw)`: the input's lines, read as the loop does. */
  method ParseInput(raw: string) returns (p: Parsed)
    ensures p.code == Text.Trim(Text.JavaScript, Text.Join(KeptLines(Text.Split(raw, '\n')), "\n"))
    ensures p.tables == LinesTables(Text.Split(raw, '\n'))
  {
    p := ParseLines(Text.Split(raw, '\n'));
  }

  /** The loop of `parseInput`: a directive replaces the tables, any other line is appended to the code. */
  method ParseLines(lines: seq<string>) returns (p: Parsed)
    ensures p.code == Text.Trim(Text.JavaScript, Text.Join(KeptLines(lines), "\n"))
    ensures p.tables == LinesTables(lines)
  {
    var tables: seq<string> := [];
    var codeLines: seq<string> := [];
    var i := 0;
    while i < |lines|
      invariant 0 <= i <= |lines|
      invariant codeLines == KeptLines(lines[..i])
      invariant tables == LinesTables(lines[..i])
    {
      var line := lines[i];
      TakeOneMore(lines, i);
      if IsDirective(line) {
        LastDirectiveWins(lines[..i], line);
        tables := DirectiveTables(line);
      } else {
        CodeLineKeepsTables(lines[..i], line);
        codeLines := codeLines + [line];
      }
      i := i + 1;
    }
    TakeAll(lines);
    p := Parsed(Text.Trim(Text.JavaScript, Text.Join(codeLines, "\n")), tables);
  }

  /** The first `i + 1` elements are the first `i` and then element `i`. */
  lemma TakeOneMore<T>(s: seq<T>, i: nat)
    requires i < |s|
    ensures s[..i + 1] == s[..i] + [s[i]]
  {
  }

  /** Taking every element gives the sequence back. */
  lemma TakeAll<T>(s: seq<T>)
    ensures s[..|s|] == s
  {
  }

  /** Keeping lines distributes over concatenation, so kept lines stay in their order. */
  lemma {:induction false} KeptLinesAppend(a: seq<string>, b: seq<string>)
    ensures KeptLines(a + b) == KeptLines(a) + KeptLines(b)
    decreases |b|
  {
    if b == [] {
      assert a + b == a;
    } else {
      var b0 := b[..|b| - 1];
      var last := b[|b| - 1];
      assert a + b == (a + b0) + [last];
      assert (a + b)[..|a + b| - 1] == a + b0;
      assert b[..|b| - 1] == b0;
      KeptLinesAppend(a, b0);
    }
  }

  /** A directive line after any lines decides the tables on its own. */
  lemma LastDirectiveWins(lines: seq<string>, d: string)
    requires IsDirective(d)
    ensures LinesTables(lines + [d]) == DirectiveTables(d)
    ensures KeptLines(lines + [d]) == KeptLines(lines)
  {
    assert (lines + [d])[..|lines + [d]| - 1] == lines;
  }

  /** A code line after any lines leaves the tables as they were, and is kept at the end. */
  lemma CodeLineKeepsTables(lines: seq<string>, c: string)
    requires !IsDirective(c)
    ensures LinesTables(lines + [c]) == LinesTables(lines)
    ensures KeptLines(lines + [c]) == KeptLines(lines) + [c]
  {
    assert (lines + [c])[..|lines + [c]| - 1] == lines;
  }

  /** Lines without a directive name no tables. */
  lemma {:induction false} NoDirectiveNoTables(lines: seq<string>)
    requires forall i :: 0 <= i < |lines| ==> !IsDirective(lines[i])
    ensures LinesTables(lines) == []
    decreases |lines|
  {
    if lines != [] {
      NoDirectiveNoTables(lines[..|lines| - 1]);
    }
  }

  /** Lines without a directive are all kept. */
  lemma {:induction false} KeptLinesAll(lines: seq<string>)
    requires forall i :: 0 <= i < |lines| ==> !IsDirective(lines[i])
    ensures KeptLines(lines) == lines
    decreases |lines|
  {
    if lines != [] {
      KeptLinesAll(lines[..|lines| - 1]);
      assert lines[..|lines| - 1] + [lines[|lines| - 1]] == lines;
    }
  }

  /**
   * Input without a directive line names no tables, and its code is the
   * input itself, trimmed.
   */
  lemma NoDirectiveKeepsInput(raw: string)
    requires forall i :: 0 <= i < |Text.Split(raw, '\n')| ==> !IsDirective(Text.Split(raw, '\n')[i])
    ensures LinesTables(Text.Split(raw, '\n')) == []
    ensures Text.Trim(Text.JavaScript, Text.Join(KeptLines(Text.Split(raw, '\n')), "\n")) == Text.Trim(Text.JavaScript, raw)
  {
    KeptLinesAll(Text.Split(raw, '\n'));
    NoDirectiveNoTables(Text.Split(raw, '\n'));
    Text.JoinSplit(raw, '\n');
    assert "\n" == ['\n'];
  }

  /** The body the chat box posts: the code as the prompt, and the tables. */
  datatype Post = Post(prompt: string, tables: seq<string>)

  /**
   * `handleSend`: whitespace-only input sends nothing; anything else is
   * parsed and posted, with a code that has no surrounding whitespace and
   * at most two tables.
   */
  method HandleSend(input: string) returns (post: Option<Post>)
    ensures post.None? <==> Text.AllSpace(Text.JavaScript, input)
    ensures post.Some? ==> Text.IsTrimmed(Text.JavaScript, post.value.prompt)
    ensures post.Some? ==>
      post.value.prompt == Text.Trim(Text.JavaScript, Text.Join(KeptLines(Text.Split(input, '\n')), "\n"))
    ensures post.Some? ==> |post.value.tables| <= 2
    ensures post.Some? ==> post.value.tables == LinesTables(Text.Split(input, '\n'))
  {
    if Text.Trim(Text.JavaScript, input) == "" {
      return None;
    }
    var p := ParseInput(input);
    post := Some(Post(p.code, p.tables));
  }
}
