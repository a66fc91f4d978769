/** Rewriting Markdown for the card renderer: a blank line before each table, and line breaks as
    "<br>" except where the renderer needs a newline. */
module Markdown {
  import opened Options
  import opened Text
  import Splitter

  /** The line syntax the code leaves to regular expressions: what looks like a table divider, what
      starts a block, and what a trimmed blank is made of. */
  datatype Syntax = Syntax(dashes: string -> bool, blockStart: string -> bool, space: char -> bool)

  predicate IsRow(line: string) {
    '|' in line
  }

  predicate IsDivider(line: string, syn: Syntax) {
    line != "" && '|' in line && syn.dashes(line)
  }

  predicate Blank(line: string, syn: Syntax) {
    forall c :: c in line ==> syn.space(c)
  }

  /** Carriage returns, alone or before a newline, become newlines. */
  function Unix(s: string): string
    decreases |s|
  {
    if s == "" then ""
    else if s[0] == '\r' then "\n" + Unix(if |s| > 1 && s[1] == '\n' then s[2..] else s[1..])
    else [s[0]] + Unix(s[1..])
  }

  lemma {:induction false} UnixHasNoReturn(s: string)
    ensures '\r' !in Unix(s)
    decreases |s|
  {
    if s != "" {
      UnixHasNoReturn(s[1..]);
      if |s| > 1 {
        UnixHasNoReturn(s[2..]);
      }
    }
  }

  lemma {:induction false} UnixKeeps(s: string)
    requires '\r' !in s
    ensures Unix(s) == s
  {
    if s != "" {
      UnixKeeps(s[1..]);
      assert s == [s[0]] + s[1..];
    }
  }

  /** A carriage return with a newline is one line end, and so is either alone; all else stays. With
      UnixAppend this says what becomes of any text. */
  lemma UnixEnds(c: char)
    ensures Unix("") == "" && Unix("\r\n") == "\n" && Unix("\r") == "\n"
    ensures c != '\r' ==> Unix([c]) == [c]
  {
    assert "\r\n"[2..] == "" && "\r"[1..] == "" && [c][1..] == "";
  }

  lemma {:induction false} UnixAppend(a: string, b: string)
    requires a == "" || b == "" || a[|a| - 1] != '\r' || b[0] != '\n'
    ensures Unix(a + b) == Unix(a) + Unix(b)
    decreases |a|
  {
    if a == "" {
      assert a + b == b;
    } else {
      var n := if a[0] == '\r' && |a| > 1 && a[1] == '\n' then 2 else 1;
      assert (a + b)[n..] == a[n..] + b;
      UnixAppend(a[n..], b);
    }
  }

  // ---------- tables ----------

  /** A table head that nothing separates from the paragraph before it. */
  predicate Stuck(prev: string, cur: string, next: string, syn: Syntax) {
    IsRow(cur) && IsDivider(next, syn) && !Blank(prev, syn) && !IsRow(prev)
  }

  predicate NeedsBlank(lines: seq<string>, i: nat, syn: Syntax)
    requires i < |lines|
  {
    0 < i < |lines| - 1 && Stuck(lines[i - 1], lines[i], lines[i + 1], syn)
  }

  /** The first n lines, a blank line added where one is needed. */
  function TableFix(lines: seq<string>, n: nat, syn: Syntax): seq<string>
    requires n <= |lines|
  {
    if n == 0 then []
    else TableFix(lines, n - 1, syn) + (if NeedsBlank(lines, n - 1, syn) then [""] else []) + [lines[n - 1]]
  }

  function FixedTables(lines: seq<string>, syn: Syntax): seq<string> {
    TableFix(lines, |lines|, syn)
  }

  method EnsureTableBlankLines(text: string, syn: Syntax) returns (fixed: string)
    ensures fixed == Join(FixedTables(Split(Unix(text)), syn), "\n")
  {
    var lines := Split(Unix(text));
    var out: seq<string> := [];
    for i := 0 to |lines|
      invariant out == TableFix(lines, i, syn)
    {
      var cur := lines[i];
      var next := "";
      if i + 1 < |lines| {
        next := lines[i + 1];
      }
      if i > 0 && IsRow(cur) && IsDivider(next, syn) && !Blank(lines[i - 1], syn) && !IsRow(lines[i - 1]) {
        out := out + [""];
      }
      out := out + [cur];
    }
    return Join(out, "\n");
  }

  /** `b` is `a` with blank lines added, none of them first. */
  ghost predicate PlusBlanks(a: seq<string>, b: seq<string>)
    decreases |b|
  {
    if b == [] then a == []
    else
      var last := b[|b| - 1];
      || (a != [] && a[|a| - 1] == last && PlusBlanks(a[..|a| - 1], b[..|b| - 1]))
      || (last == "" && |b| > 1 && PlusBlanks(a, b[..|b| - 1]))
  }

  lemma {:induction false} OnlyBlanksAdded(lines: seq<string>, n: nat, syn: Syntax)
    requires n <= |lines|
    ensures PlusBlanks(lines[..n], TableFix(lines, n, syn))
    ensures n > 0 ==> TableFix(lines, n, syn) != []
  {
    if n > 0 {
      OnlyBlanksAdded(lines, n - 1, syn);
      var was, out := TableFix(lines, n - 1, syn), TableFix(lines, n, syn);
      var a := lines[..n];
      assert a[..n - 1] == lines[..n - 1] && a[n - 1] == lines[n - 1];
      if NeedsBlank(lines, n - 1, syn) {
        assert out[..|out| - 1] == was + [""];
        assert (was + [""])[..|was|] == was;
      } else {
        assert out[..|out| - 1] == was;
      }
    }
  }

  /** A row with a divider below it, directly after a line that is neither blank nor a row. */
  predicate HeadAfterText(lines: seq<string>, i: nat, syn: Syntax) {
    && 0 < i && i + 1 < |lines| && '|' in lines[i] && '|' in lines[i + 1] && syn.dashes(lines[i + 1])
    && '|' !in lines[i - 1] && exists c :: c in lines[i - 1] && !syn.space(c)
  }

  /** Line i stands at place at[i] of the output: directly behind line i - 1, or behind one blank line
      that separates a table head from text. */
  predicate Placed(lines: seq<string>, out: seq<string>, at: seq<nat>, i: nat, syn: Syntax)
    requires i < |at| <= |lines|
  {
    && at[i] < |out| && out[at[i]] == lines[i]
    && if i == 0 then at[i] == 0
       else if HeadAfterText(lines, i, syn) then at[i] == at[i - 1] + 2 && out[at[i] - 1] == ""
       else at[i] == at[i - 1] + 1
  }

  /** The output is the lines in their places and nothing behind the last. */
  lemma {:induction false} BlankLinesExactly(lines: seq<string>, n: nat, syn: Syntax) returns (at: seq<nat>)
    requires n <= |lines|
    ensures |at| == n && |TableFix(lines, n, syn)| == if n == 0 then 0 else at[n - 1] + 1
    ensures forall i :: 0 <= i < n ==> Placed(lines, TableFix(lines, n, syn), at, i, syn)
  {
    at := [];
    if n > 0 {
      hide Placed, HeadAfterText;
      var before := BlankLinesExactly(lines, n - 1, syn);
      var was, out := TableFix(lines, n - 1, syn), TableFix(lines, n, syn);
      at := before + [|out| - 1];
      TableFixGrows(lines, n - 1, syn);
      hide TableFix;
      forall i | 0 <= i < n
        ensures Placed(lines, out, at, i, syn)
      {
        if i < n - 1 {
          StillPlaced(lines, was, out, before, at, i, syn);
        } else {
          LastPlaced(lines, was, out, at, syn);
        }
      }
    }
  }

  lemma StillPlaced(lines: seq<string>, was: seq<string>, out: seq<string>, before: seq<nat>, at: seq<nat>, i: nat, syn: Syntax)
    requires i < |before| <= |at| <= |lines| && before <= at && was <= out && Placed(lines, was, before, i, syn)
    ensures Placed(lines, out, at, i, syn)
  {
    hide HeadAfterText;
  }

  lemma LastPlaced(lines: seq<string>, was: seq<string>, out: seq<string>, at: seq<nat>, syn: Syntax)
    requires 0 < |at| <= |lines|
    requires var i := |at| - 1;
      && |out| == |was| + (if HeadAfterText(lines, i, syn) then 2 else 1) && at[i] == |out| - 1
      && out[|out| - 1] == lines[i] && (HeadAfterText(lines, i, syn) ==> out[|out| - 2] == "")
      && |was| == if i == 0 then 0 else at[i - 1] + 1
    ensures Placed(lines, out, at, |at| - 1, syn)
  {
    if |at| > 1 {
      hide HeadAfterText;
    }
  }

  lemma TableFixGrows(lines: seq<string>, i: nat, syn: Syntax)
    requires i < |lines|
    ensures var was, out := TableFix(lines, i, syn), TableFix(lines, i + 1, syn);
      && |out| == |was| + (if HeadAfterText(lines, i, syn) then 2 else 1)
      && was <= out && out[|out| - 1] == lines[i]
      && (HeadAfterText(lines, i, syn) ==> out[|out| - 2] == "")
  {
    HeadNeedsBlank(lines, i, syn);
    hide NeedsBlank, HeadAfterText;
  }

  lemma HeadNeedsBlank(lines: seq<string>, i: nat, syn: Syntax)
    requires i < |lines|
    ensures NeedsBlank(lines, i, syn) <==> HeadAfterText(lines, i, syn)
  {
  }

  /** After the fix every table head but a first line has a blank line or another row before it. */
  predicate Separated(lines: seq<string>, syn: Syntax) {
    forall i :: 0 <= i < |lines| ==> !NeedsBlank(lines, i, syn)
  }

  lemma {:induction false} FixSeparates(lines: seq<string>, n: nat, syn: Syntax)
    requires n <= |lines|
    ensures var out := TableFix(lines, n, syn);
      && (n > 0 ==> out != [] && out[|out| - 1] == lines[n - 1])
      && Separated(out, syn)
      && (0 < n < |lines| && |out| > 1 ==> !Stuck(out[|out| - 2], out[|out| - 1], lines[n], syn))
  {
    if n > 0 {
      FixSeparates(lines, n - 1, syn);
      var was, out := TableFix(lines, n - 1, syn), TableFix(lines, n, syn);
      hide Stuck;
      forall k | 0 <= k < |out|
        ensures !NeedsBlank(out, k, syn)
      {
        if k < |was| - 1 {
          assert NeedsBlank(was, k, syn) == NeedsBlank(out, k, syn);
        }
        NotStuck(syn);
      }
      NotStuck(syn);
    }
  }

  lemma NotStuck(syn: Syntax)
    ensures forall a, b :: !Stuck(a, b, "", syn) && !Stuck(a, "", b, syn) && !Stuck("", a, b, syn)
  {
  }

  lemma {:induction false} FixKeepsSeparated(lines: seq<string>, n: nat, syn: Syntax)
    requires n <= |lines| && Separated(lines, syn)
    ensures TableFix(lines, n, syn) == lines[..n]
  {
    if n > 0 {
      FixKeepsSeparated(lines, n - 1, syn);
      assert lines[..n] == lines[..n - 1] + [lines[n - 1]];
    }
  }

  /** Fixing tables twice, as texts, is fixing them once. */
  lemma TableFixTwice(text: string, syn: Syntax)
    ensures var once := Join(FixedTables(Split(Unix(text)), syn), "\n");
      && Separated(FixedTables(Split(Unix(text)), syn), syn)
      && Join(FixedTables(Split(Unix(once)), syn), "\n") == once
  {
    var lines := Split(Unix(text));
    var fixed := FixedTables(lines, syn);
    FixSeparates(lines, |lines|, syn);
    UnixLines(text);
    FixedLines(lines, |lines|, syn);
    JoinedLines(fixed);
    FixKeepsSeparated(fixed, |fixed|, syn);
    assert fixed[..|fixed|] == fixed;
  }

  // ---------- texts as lines ----------

  /** Lines without newlines or carriage returns, at least one. */
  ghost predicate Clean(lines: seq<string>) {
    lines != [] && forall line :: line in lines ==> '\n' !in line && '\r' !in line
  }

  lemma UnixLines(text: string)
    ensures Clean(Split(Unix(text)))
  {
    SplitLines(Unix(text));
    UnixHasNoReturn(text);
    SplitWithoutReturns(Unix(text));
  }

  lemma {:induction false} SplitWithoutReturns(s: string)
    requires '\r' !in s
    ensures forall line :: line in Split(s) ==> '\r' !in line
  {
    if s != "" {
      SplitWithoutReturns(s[1..]);
      var rest := Split(s[1..]);
      assert rest[0] in rest;
    }
  }

  lemma {:induction false} JoinWithoutReturns(lines: seq<string>)
    requires forall line :: line in lines ==> '\r' !in line
    ensures '\r' !in Join(lines, "\n")
  {
    if lines != [] {
      assert lines[0] in lines;
      JoinWithoutReturns(lines[1..]);
    }
  }

  /** Clean lines survive being joined and read again. */
  lemma JoinedLines(lines: seq<string>)
    requires Clean(lines)
    ensures Split(Unix(Join(lines, "\n"))) == lines
  {
    JoinWithoutReturns(lines);
    UnixKeeps(Join(lines, "\n"));
    SplitOfJoin(lines);
  }

  lemma {:induction false} FixedLines(lines: seq<string>, n: nat, syn: Syntax)
    requires n <= |lines| && Clean(lines)
    ensures n > 0 ==> Clean(TableFix(lines, n, syn))
  {
    if n > 0 {
      FixedLines(lines, n - 1, syn);
      assert lines[n - 1] in lines;
    }
  }

  // ---------- code, as the renderer's fences mark it ----------

  /** At most three blanks, then the mark. */
  predicate Indented(line: string, mark: string) {
    exists k :: 0 <= k <= 3 && IndentedBy(line, k, mark)
  }

  predicate IndentedBy(line: string, k: nat, mark: string) {
    && k + |mark| <= |line| && line[k..k + |mark|] == mark
    && forall i :: 0 <= i < k ==> Splitter.IsBlank(line[i])
  }

  predicate IsFence(line: string) {
    Indented(line, "```")
  }

  predicate IsQuote(line: string) {
    Indented(line, ">")
  }

  lemma MarkStarts(line: string, k: nat, mark: string)
    requires IndentedBy(line, k, mark) && mark != ""
    ensures |line| > k && line[k] == mark[0]
  {
    assert line[k..k + |mark|][0] == mark[0];
  }

  lemma QuoteIsNoFence(line: string)
    ensures !(IsQuote(line) && IsFence(line))
  {
    if k, j :| 0 <= k <= 3 && 0 <= j <= 3 && IndentedBy(line, k, ">") && IndentedBy(line, j, "```") {
      MarkStarts(line, k, ">");
      MarkStarts(line, j, "```");
      assert false;
    }
  }

  /** Whether the line after this one is code. */
  function Toggle(inCode: bool, line: string): bool {
    if IsFence(line) then !inCode else inCode
  }

  function InCode(inCode: bool, lines: seq<string>): bool
    decreases |lines|
  {
    if lines == [] then inCode else InCode(Toggle(inCode, lines[0]), lines[1..])
  }

  /** Every line with code after it: opening fences and lines of code. */
  function CodeOf(inCode: bool, lines: seq<string>): seq<string>
    decreases |lines|
  {
    if lines == [] then []
    else (if Toggle(inCode, lines[0]) then [lines[0]] else []) + CodeOf(Toggle(inCode, lines[0]), lines[1..])
  }

  lemma {:induction false} CodeAppend(inCode: bool, a: seq<string>, b: seq<string>)
    ensures CodeOf(inCode, a + b) == CodeOf(inCode, a) + CodeOf(InCode(inCode, a), b)
    ensures InCode(inCode, a + b) == InCode(InCode(inCode, a), b)
    decreases |a|
  {
    AppendUnfolds(a, b);
    if a != [] {
      CodeAppend(Toggle(inCode, a[0]), a[1..], b);
    }
  }

  /** A table head within code: the fix puts a blank line among the lines of code. */
  predicate SplitsCode(lines: seq<string>, i: nat, syn: Syntax)
    requires i < |lines|
  {
    NeedsBlank(lines, i, syn) && InCode(false, lines[..i])
  }

  function SplitsIn(lines: seq<string>, n: nat, syn: Syntax): nat
    requires n <= |lines|
  {
    if n == 0 then 0 else SplitsIn(lines, n - 1, syn) + if SplitsCode(lines, n - 1, syn) then 1 else 0
  }

  lemma {:induction false} TablesInCode(lines: seq<string>, n: nat, syn: Syntax)
    requires n <= |lines|
    ensures var was, out := lines[..n], TableFix(lines, n, syn);
      && InCode(false, out) == InCode(false, was)
      && |CodeOf(false, out)| == |CodeOf(false, was)| + SplitsIn(lines, n, syn)
      && (SplitsIn(lines, n, syn) == 0 ==> CodeOf(false, out) == CodeOf(false, was))
  {
    if n > 0 {
      TablesInCode(lines, n - 1, syn);
      var was, out, line := lines[..n - 1], TableFix(lines, n - 1, syn), lines[n - 1];
      hide IsFence, NeedsBlank;
      assert lines[..n] == was + [line];
      AppendOne(was, line);
      AppendOne(out, line);
      if NeedsBlank(lines, n - 1, syn) {
        AppendOne(out, "");
        AppendOne(out + [""], line);
        BlankIsNoFence();
      } else {
        assert out + [] == out;
      }
    }
  }

  lemma BlankIsNoFence()
    ensures !IsFence("")
  {
  }

  lemma AppendOne(lines: seq<string>, line: string)
    ensures CodeOf(false, lines + [line])
         == CodeOf(false, lines) + if Toggle(InCode(false, lines), line) then [line] else []
    ensures InCode(false, lines + [line]) == Toggle(InCode(false, lines), line)
  {
    hide IsFence;
    CodeAppend(false, lines, [line]);
    assert [line][1..] == [];
  }

  lemma {:induction false} SplitsInMeaning(lines: seq<string>, n: nat, syn: Syntax)
    requires n <= |lines|
    ensures SplitsIn(lines, n, syn) == 0 <==> forall i :: 0 <= i < n ==> !SplitsCode(lines, i, syn)
  {
    if n > 0 {
      SplitsInMeaning(lines, n - 1, syn);
    }
  }

  /** The table fix leaves code as it is exactly when no table within code needs a blank line. */
  lemma {:induction false} TableFixKeepsCode(lines: seq<string>, syn: Syntax)
    ensures CodeOf(false, FixedTables(lines, syn)) == CodeOf(false, lines)
       <==> forall i :: 0 <= i < |lines| ==> !SplitsCode(lines, i, syn)
  {
    TablesInCode(lines, |lines|, syn);
    SplitsInMeaning(lines, |lines|, syn);
    assert lines[..|lines|] == lines;
  }

  /** Such code exists: a table drawn below a line of text in a fenced block. */
  lemma TableInCodeIsSplit(syn: Syntax)
    requires syn.dashes("-|-") && !syn.space('x')
    ensures var lines := ["```", "x", "a|b", "-|-", "```"];
      SplitsCode(lines, 2, syn) && CodeOf(false, FixedTables(lines, syn)) != CodeOf(false, lines)
  {
    var lines := ["```", "x", "a|b", "-|-", "```"];
    StuckInCode(syn);
    FenceThenText();
    assert lines[..2] == ["```", "x"];
    assert SplitsCode(lines, 2, syn);
    hide SplitsCode, FixedTables, CodeOf;
    TableFixKeepsCode(lines, syn);
  }

  lemma StuckInCode(syn: Syntax)
    requires syn.dashes("-|-") && !syn.space('x')
    ensures Stuck("x", "a|b", "-|-", syn)
  {
    assert "x"[0] in "x" && "a|b"[1] in "a|b" && "-|-"[1] in "-|-";
  }

  lemma FenceThenText()
    ensures InCode(false, ["```", "x"])
  {
    assert IndentedBy("```", 0, "```") && !IsFence("x");
    hide IsFence;
    AppendOne([], "```");
    AppendOne(["```"], "x");
    assert [] + ["```"] == ["```"] && ["```"] + ["x"] == ["```", "x"];
  }
}
