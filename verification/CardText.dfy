/** The text for the card, line by line: every line of the input is there, whole and in order, a
    continued quote without its mark, and between two lines stands what the renderer needs. */
module CardText {
  import opened Options
  import opened Text
  import opened Markdown
  import opened Newlines
  import Splitter

  // ---------- marks and fences, spelled out ----------

  predicate Blanks(s: string) {
    forall c :: c in s ==> c in [' ', '\t', '\n', '\r', 12 as char]
  }

  ghost predicate Spelled(line: string, lead: string, mark: string, rest: string) {
    |lead| <= 3 && Blanks(lead) && line == lead + mark + rest
  }

  /** A quote is at most three blanks, '>' and anything; a fence is the same with three backticks. */
  lemma MarksMeaning(line: string)
    ensures IsQuote(line) <==> exists lead, rest :: Spelled(line, lead, ">", rest)
    ensures IsFence(line) <==> exists lead, rest :: Spelled(line, lead, "```", rest)
  {
    MarkMeaning(line, ">");
    MarkMeaning(line, "```");
  }

  lemma MarkMeaning(line: string, mark: string)
    ensures Indented(line, mark) <==> exists lead, rest :: Spelled(line, lead, mark, rest)
  {
    if Indented(line, mark) {
      var k :| 0 <= k <= 3 && IndentedBy(line, k, mark);
      assert Spelled(line, line[..k], mark, line[k + |mark|..]);
    }
    if lead, rest :| Spelled(line, lead, mark, rest) {
      assert line[|lead|..|lead| + |mark|] == mark;
      assert forall i :: 0 <= i < |lead| ==> line[i] == lead[i] && lead[i] in lead;
      assert IndentedBy(line, |lead|, mark);
    }
  }

  function FenceCount(lines: seq<string>): nat {
    if lines == [] then 0 else (if IsFence(lines[0]) then 1 else 0) + FenceCount(lines[1..])
  }

  /** Code begins after an odd number of fences. */
  lemma {:induction false} InCodeMeaning(inCode: bool, lines: seq<string>)
    ensures InCode(inCode, lines) <==> (FenceCount(lines) % 2 == 1) != inCode
    decreases |lines|
  {
    if lines != [] {
      hide IsFence;
      InCodeMeaning(Toggle(inCode, lines[0]), lines[1..]);
    }
  }

  // ---------- quotes without their mark ----------

  /** `rest` is the line without its blanks, its mark and one blank after it. */
  ghost predicate MarkOff(line: string, rest: string) {
    exists lead, gap :: Spelled(line, lead, ">", gap + rest) && OneBlank(gap, rest)
  }

  predicate OneBlank(gap: string, rest: string) {
    && |gap| <= 1 && Blanks(gap)
    && (gap == "" && rest != "" ==> !Blanks([rest[0]]))
  }

  lemma UnquotedMeaning(line: string)
    requires IsQuote(line)
    ensures MarkOff(line, Unquoted(line))
  {
    QuoteMargin(line);
    MarginBlank(line);
    var k, rest := Margin(line), Unquoted(line);
    var after := line[k + 1..];
    var gap := if after != "" && Splitter.IsBlank(after[0]) then after[..1] else "";
    assert gap + rest == after;
    if after != "" {
      BlankChar(after[0]);
      assert after[..1] == [after[0]];
    }
    assert line == line[..k] + ">" + after;
    assert Spelled(line, line[..k], ">", gap + rest);
    assert OneBlank(gap, rest);
  }

  lemma BlankChar(c: char)
    ensures Splitter.IsBlank(c) <==> Blanks([c])
  {
    assert c in [c];
  }

  lemma {:induction false} MarginBlank(line: string)
    ensures Blanks(line[..Margin(line)])
  {
    if line != "" && Splitter.IsBlank(line[0]) {
      MarginBlank(line[1..]);
      assert line[..Margin(line)] == [line[0]] + line[1..][..Margin(line[1..])];
    }
  }

  /** A run of quotes: its first line, then "<br>" and the text of each further line. */
  lemma {:induction false} RunText(lines: seq<string>) returns (pieces: seq<string>)
    requires lines != [] && forall line :: line in lines ==> IsQuote(line)
    ensures |pieces| == |lines| && pieces[0] == lines[0]
    ensures forall i :: 0 < i < |lines| ==> MarkOff(lines[i], pieces[i])
    ensures QuoteText(lines) == Join(pieces, "<br>")
  {
    hide IsQuote, MarkOff, Unquoted;
    var n := |lines| - 1;
    if n == 0 {
      pieces := lines;
    } else {
      pieces := RunText(lines[..n]);
      UnquotedMeaning(lines[n]);
      JoinAppend(pieces, [Unquoted(lines[n])], "<br>");
      pieces := pieces + [Unquoted(lines[n])];
    }
  }

  // ---------- the output by lines ----------

  /** A quote that goes on a quote, outside code: it loses its mark. */
  predicate Continues(lines: seq<string>, i: nat) {
    0 < i < |lines| && IsQuote(lines[i]) && IsQuote(lines[i - 1]) && !InCode(false, lines[..i])
  }

  /** The pieces of line i and of the quotes that continue it. */
  function Grown(lines: seq<string>, pieces: seq<string>, i: nat): string
    requires i < |lines| == |pieces|
    decreases |lines| - i, 1
  {
    pieces[i] + GrownAfter(lines, pieces, i)
  }

  function GrownAfter(lines: seq<string>, pieces: seq<string>, i: nat): string
    requires i < |lines| == |pieces|
    decreases |lines| - i, 0
  {
    if Continues(lines, i + 1) then "<br>" + Grown(lines, pieces, i + 1) else ""
  }

  /** Between lines i and i + 1 the newline stays: in code, next to an empty line, before a fence or
      the start of a block. */
  predicate Stays(lines: seq<string>, pieces: seq<string>, i: nat, syn: Syntax)
    requires i + 1 < |lines| == |pieces|
  {
    || InCode(false, lines[..i + 1]) || lines[i] == "" || lines[i + 1] == ""
    || IsFence(lines[i + 1]) || syn.blockStart(Grown(lines, pieces, i + 1))
  }

  function Woven(lines: seq<string>, pieces: seq<string>, i: nat, syn: Syntax): string
    requires i < |lines| == |pieces|
    decreases |lines| - i
  {
    if i + 1 == |lines| then pieces[i]
    else if !Continues(lines, i + 1) && Stays(lines, pieces, i, syn) then pieces[i] + "\n" + Woven(lines, pieces, i + 1, syn)
    else pieces[i] + "<br>" + Woven(lines, pieces, i + 1, syn)
  }

  /** The text is the lines with "<br>" or a newline between them, each line whole except that a
      continued quote comes without its mark. */
  ghost predicate ByLine(lines: seq<string>, pieces: seq<string>, syn: Syntax, text: string) {
    && lines != [] && |pieces| == |lines| && text == Woven(lines, pieces, 0, syn)
    && forall i :: 0 <= i < |lines| ==> if Continues(lines, i) then MarkOff(lines[i], pieces[i]) else pieces[i] == lines[i]
  }

  ghost function Pieces(lines: seq<string>, n: nat): (pieces: seq<string>)
    requires n <= |lines|
    ensures |pieces| == n
    ensures forall i :: 0 <= i < n ==> pieces[i] == if Continues(lines, i) then Unquoted(lines[i]) else lines[i]
  {
    if n == 0 then [] else Pieces(lines, n - 1) + [if Continues(lines, n - 1) then Unquoted(lines[n - 1]) else lines[n - 1]]
  }

  /** Where item j begins among the lines. */
  ghost function Offset(items: seq<Part>, j: nat): nat
    requires j <= |items|
  {
    |AllSources(items[..j])|
  }

  lemma {:induction false} SourcesAt(items: seq<Part>, j: nat)
    requires j < |items|
    ensures var o, run := Offset(items, j), Sources(items[j]);
      && Offset(items, j + 1) == o + |run| <= |AllSources(items)|
      && AllSources(items)[..o] == AllSources(items[..j])
      && AllSources(items)[o..o + |run|] == run
      && (j + 1 == |items| ==> o + |run| == |AllSources(items)|)
  {
    hide Sources;
    assert items[..j + 1][..j] == items[..j] && items[..j + 1][j] == items[j];
    SourcesPrefix(items, j + 1);
    if j + 1 == |items| {
      assert items[..j + 1] == items;
    }
  }

  lemma {:induction false} SourcesPrefix(items: seq<Part>, j: nat)
    requires j <= |items|
    ensures AllSources(items[..j]) <= AllSources(items)
  {
    if j < |items| {
      var before := items[..|items| - 1];
      SourcesPrefix(before, j);
      assert before[..j] == items[..j];
    } else {
      assert items[..j] == items;
    }
  }

  /** What the lines of item j are: code status before and after, and which of them continue a quote. */
  ghost predicate Placed(lines: seq<string>, item: Part, o: nat) {
    var run := Sources(item);
    && o + |run| <= |lines| && run != [] && lines[o..o + |run|] == run
    && InCode(false, lines[..o]) == (item.Inside? || item.Closing?)
    && InCode(false, lines[..o + |run|]) == LeadsToCode(item)
    && !Continues(lines, o) && !Continues(lines, o + |run|)
    && (forall t :: o < t < o + |run| ==> Continues(lines, t))
  }

  /** Two items with a quote on each side of the border: the first one leads to code. */
  lemma QuotesMeet(prev: Part, item: Part)
    requires Follows(Some(prev), item)
    ensures IsQuote(Sources(prev)[|Sources(prev)| - 1]) && IsQuote(Sources(item)[0]) ==> LeadsToCode(prev)
  {
    QuoteIsNoFence(Sources(prev)[|Sources(prev)| - 1]);
    QuoteIsNoFence(Sources(item)[0]);
  }

  /** No item begins in the middle of a run of quotes. */
  lemma StartsAfresh(items: seq<Part>, lines: seq<string>, j: nat)
    requires Reads(items, lines) && j <= |items|
    ensures !Continues(lines, Offset(items, j))
  {
    hide Grammatical, AllSources, InCode, IsFence, IsQuote, Sources, Follows;
    if j == |items| {
      assert items[..j] == items;
    } else if j == 0 {
      NoSources(items[..j]);
    } else {
      GrammaticalPrefix(items, j);
      PassesAgree(items[..j]);
      SourcesAt(items, j);
      SourcesAt(items, j - 1);
      QuotesMeet(items[j - 1], items[j]);
      Ends(items[j]);
      Ends(items[j - 1]);
      var o := Offset(items, j);
      assert lines[o] == lines[o..o + |Sources(items[j])|][0];
      var before := Offset(items, j - 1);
      assert lines[o - 1] == lines[before..o][|Sources(items[j - 1])| - 1];
    }
  }

  lemma Ends(item: Part)
    ensures Sources(item) != []
  {
  }

  lemma InsideRun(lines: seq<string>, run: seq<string>, o: nat, t: nat)
    requires o + |run| <= |lines| && lines[o..o + |run|] == run && o < t < o + |run|
    requires !InCode(false, lines[..o]) && forall line :: line in run ==> IsQuote(line)
    ensures Continues(lines, t)
  {
    hide IsQuote;
    assert lines[t] == run[t - o] && lines[t - 1] == run[t - 1 - o];
    assert lines[..t] == lines[..o] + run[..t - o];
    CodeAppend(false, lines[..o], run[..t - o]);
    NoCodeInQuotes(run[..t - o]);
  }

  lemma ItemPlaced(items: seq<Part>, lines: seq<string>, j: nat)
    requires Reads(items, lines) && j < |items|
    ensures Placed(lines, items[j], Offset(items, j))
    ensures Offset(items, j + 1) == Offset(items, j) + |Sources(items[j])|
  {
    hide Grammatical, AllSources, InCode, IsFence, IsQuote;
    var o, run := Offset(items, j), Sources(items[j]);
    SourcesAt(items, j);
    StartsAfresh(items, lines, j);
    StartsAfresh(items, lines, j + 1);
    StatusBefore(items, lines, j);
    forall t | o < t < o + |run|
      ensures Continues(lines, t)
    {
      InsideRun(lines, run, o, t);
    }
  }

  lemma StatusBefore(items: seq<Part>, lines: seq<string>, j: nat)
    requires Reads(items, lines) && j < |items|
    ensures Offset(items, j) + |Sources(items[j])| <= |lines|
    ensures InCode(false, lines[..Offset(items, j)]) == (items[j].Inside? || items[j].Closing?)
    ensures InCode(false, lines[..Offset(items, j) + |Sources(items[j])|]) == LeadsToCode(items[j])
  {
    hide AllSources, InCode, Sources, Grammatical;
    SourcesAt(items, j);
    GrammaticalPrefix(items, j);
    PassesAgree(items[..j]);
    ItemCode(items[j], CodeAfter(items[..j]));
    var o, run := Offset(items, j), Sources(items[j]);
    assert lines[..o + |run|] == lines[..o] + run;
    CodeAppend(false, lines[..o], run);
  }

  /** The separator behind line i and the rest of the text. */
  function After(lines: seq<string>, pieces: seq<string>, i: nat, syn: Syntax): string
    requires i < |lines| == |pieces|
  {
    if i + 1 == |lines| then ""
    else (if !Continues(lines, i + 1) && Stays(lines, pieces, i, syn) then "\n" else "<br>") + Woven(lines, pieces, i + 1, syn)
  }

  lemma WovenUnfolds(lines: seq<string>, pieces: seq<string>, i: nat, syn: Syntax)
    requires i < |lines| == |pieces|
    ensures Woven(lines, pieces, i, syn) == pieces[i] + After(lines, pieces, i, syn)
  {
    hide InCode, IsQuote, IsFence, Continues, Stays;
    if i + 1 < |lines| {
      var rest := Woven(lines, pieces, i + 1, syn);
      assert pieces[i] + ("\n" + rest) == pieces[i] + "\n" + rest;
      assert pieces[i] + ("<br>" + rest) == pieces[i] + "<br>" + rest;
    }
  }

  /** The first t + 1 lines of a run, and what follows them. */
  lemma {:induction false} RunWoven(lines: seq<string>, run: seq<string>, o: nat, t: nat, syn: Syntax)
    requires t < |run| && o + |run| <= |lines| && lines[o..o + |run|] == run
    requires forall line :: line in run ==> IsQuote(line)
    requires !Continues(lines, o) && forall i :: o < i < o + |run| ==> Continues(lines, i)
    ensures var pieces, text := Pieces(lines, |lines|), QuoteText(run[..t + 1]);
      Woven(lines, pieces, o, syn) == text + After(lines, pieces, o + t, syn)
  {
    hide InCode, IsQuote, IsFence, Continues, Unquoted, Woven, Stays, QuoteText;
    var pieces, i := Pieces(lines, |lines|), o + t;
    assert lines[i] == lines[o..o + |run|][t] == run[t];
    WovenUnfolds(lines, pieces, i, syn);
    OneQuoted(run);
    if t > 0 {
      RunWoven(lines, run, o, t - 1, syn);
      QuoteTextGrows(run, t);
      Regroup(QuoteText(run[..t]), Unquoted(run[t]), After(lines, pieces, i, syn));
    } else {
      assert run[..1] == [lines[o]];
    }
  }

  lemma OneQuoted(run: seq<string>)
    requires run != [] && forall line :: line in run ==> IsQuote(line)
    ensures QuoteText(run[..1]) == run[0]
  {
    hide IsQuote, Unquoted;
  }

  lemma GrownUnfolds(lines: seq<string>, pieces: seq<string>, i: nat)
    requires i < |lines| == |pieces|
    ensures Grown(lines, pieces, i) == pieces[i] + GrownAfter(lines, pieces, i)
  {
    hide GrownAfter;
  }

  lemma {:induction false} RunGrown(lines: seq<string>, run: seq<string>, o: nat, t: nat)
    requires t < |run| && o + |run| <= |lines| && lines[o..o + |run|] == run
    requires forall line :: line in run ==> IsQuote(line)
    requires !Continues(lines, o) && forall i :: o < i < o + |run| ==> Continues(lines, i)
    ensures var pieces := Pieces(lines, |lines|);
      Grown(lines, pieces, o) == QuoteText(run[..t + 1]) + GrownAfter(lines, pieces, o + t)
  {
    hide InCode, IsQuote, IsFence, Continues, Unquoted, Grown, QuoteText;
    var pieces, i := Pieces(lines, |lines|), o + t;
    assert lines[i] == lines[o..o + |run|][t] == run[t];
    GrownUnfolds(lines, pieces, i);
    OneQuoted(run);
    if t > 0 {
      RunGrown(lines, run, o, t - 1);
      QuoteTextGrows(run, t);
      Regroup(QuoteText(run[..t]), Unquoted(run[t]), GrownAfter(lines, pieces, i));
    } else {
      assert run[..1] == [lines[o]];
    }
  }

  lemma Regroup(a: string, b: string, c: string)
    ensures a + ("<br>" + (b + c)) == (a + "<br>" + b) + c
  {
  }

  lemma QuoteTextGrows(run: seq<string>, t: nat)
    requires 0 < t < |run| && forall line :: line in run ==> IsQuote(line)
    ensures QuoteText(run[..t + 1]) == QuoteText(run[..t]) + "<br>" + Unquoted(run[t])
  {
    hide IsQuote, Unquoted;
    assert run[..t + 1][..t] == run[..t] && run[..t + 1][t] == run[t];
  }

  lemma ItemWoven(lines: seq<string>, item: Part, o: nat, syn: Syntax)
    requires Placed(lines, item, o)
    ensures var pieces, i := Pieces(lines, |lines|), o + |Sources(item)| - 1;
      Woven(lines, pieces, o, syn) == TextOf(item) + After(lines, pieces, i, syn)
  {
    hide InCode, IsQuote, IsFence, Continues, Unquoted, Woven, After;
    if item.Quote? {
      var t := |item.lines| - 1;
      RunWoven(lines, item.lines, o, t, syn);
      assert item.lines[..t + 1] == item.lines;
    } else {
      assert lines[o] == lines[o..o + 1][0];
      WovenUnfolds(lines, Pieces(lines, |lines|), o, syn);
    }
  }

  lemma ItemGrown(lines: seq<string>, item: Part, o: nat)
    requires Placed(lines, item, o)
    ensures Grown(lines, Pieces(lines, |lines|), o) == TextOf(item)
  {
    hide InCode, IsQuote, IsFence, Continues, Unquoted;
    if item.Quote? {
      var t := |item.lines| - 1;
      RunGrown(lines, item.lines, o, t);
      assert item.lines[..t + 1] == item.lines;
      assert QuoteText(item.lines) + "" == QuoteText(item.lines);
    } else {
      assert lines[o] == lines[o..o + 1][0];
    }
  }

  lemma {:induction false} EmitIsWoven(items: seq<Part>, lines: seq<string>, j: nat, syn: Syntax)
    requires Reads(items, lines) && j < |items|
    ensures Offset(items, j) < |lines|
    ensures Emit(items, j, syn) == Woven(lines, Pieces(lines, |lines|), Offset(items, j), syn)
    decreases |items| - j
  {
    hide InCode, IsQuote, IsFence, Continues, TextOf, Woven, Sources, AllSources, Grammatical, Stays, KeepsNewline, Placed, Offset;
    var o := Offset(items, j);
    ItemPlaced(items, lines, j);
    PlacedEnds(lines, items[j], o);
    ItemWoven(lines, items[j], o, syn);
    if j + 1 == |items| {
      LastOffset(items, lines);
    } else {
      EmitIsWoven(items, lines, j + 1, syn);
      ItemPlaced(items, lines, j + 1);
      SameSeparator(lines, items[j], items[j + 1], o, syn);
    }
  }

  lemma PlacedEnds(lines: seq<string>, item: Part, o: nat)
    requires Placed(lines, item, o)
    ensures var run := Sources(item);
      && run != [] && o + |run| <= |lines|
      && lines[o] == run[0] && lines[o + |run| - 1] == run[|run| - 1]
      && InCode(false, lines[..o + |run|]) == LeadsToCode(item) && !Continues(lines, o + |run|)
  {
    hide InCode, Continues, Sources;
    var run := Sources(item);
    assert lines[o] == lines[o..o + |run|][0] && lines[o + |run| - 1] == lines[o..o + |run|][|run| - 1];
  }

  lemma SameSeparator(lines: seq<string>, item: Part, next: Part, o: nat, syn: Syntax)
    requires Placed(lines, item, o) && Placed(lines, next, o + |Sources(item)|)
    ensures KeepsNewline(item, next, syn) <==> Stays(lines, Pieces(lines, |lines|), o + |Sources(item)| - 1, syn)
  {
    hide InCode, IsQuote, IsFence, Continues, TextOf, Grown, Sources, Placed;
    PlacedEnds(lines, item, o);
    PlacedEnds(lines, next, o + |Sources(item)|);
    TextEnds(item);
    TextEnds(next);
    ItemGrown(lines, next, o + |Sources(item)|);
  }

  /** The text of an item is empty, or a fence, exactly if its lines are. */
  lemma TextEnds(item: Part)
    ensures var run := Sources(item);
      && run != []
      && (TextOf(item) == "" <==> run[0] == "") && (TextOf(item) == "" <==> run[|run| - 1] == "")
      && (IsFence(TextOf(item)) <==> IsFence(run[0]))
  {
    if item.Quote? {
      hide IsQuote, IsFence;
      var run := item.lines;
      QuoteTextQuotes(run);
      QuoteIsNoFence(TextOf(item));
      QuoteIsNoFence(run[0]);
      QuoteNotEmpty(TextOf(item));
      QuoteNotEmpty(run[0]);
      QuoteNotEmpty(run[|run| - 1]);
    }
  }

  lemma QuoteNotEmpty(line: string)
    requires IsQuote(line)
    ensures line != ""
  {
  }

  lemma LastOffset(items: seq<Part>, lines: seq<string>)
    requires Reads(items, lines)
    ensures Offset(items, |items|) == |lines|
  {
    hide AllSources;
    assert items[..|items|] == items;
  }

  /** The rewriting keeps every line whole and in order, except for the mark of a continued quote. */
  lemma EmitByLine(items: seq<Part>, lines: seq<string>, syn: Syntax)
    requires Reads(items, lines) && lines != []
    ensures items != [] && ByLine(lines, Pieces(lines, |lines|), syn, Emit(items, 0, syn))
  {
    hide InCode, IsQuote, IsFence, Woven, AllSources, Grammatical, Unquoted, MarkOff;
    SomeItem(items, lines);
    EmitIsWoven(items, lines, 0, syn);
    NoSources(items[..0]);
    forall i | 0 <= i < |lines| && Continues(lines, i)
      ensures MarkOff(lines[i], Unquoted(lines[i]))
    {
      UnquotedMeaning(lines[i]);
    }
  }

  // ---------- the two operations ----------

  method FixNewlines(text: string, syn: Syntax) returns (fixed: string)
    ensures exists items: seq<Part> :: Reads(items, Split(Unix(text))) && items != [] && fixed == Emit(items, 0, syn)
    ensures exists pieces :: ByLine(Split(Unix(text)), pieces, syn, fixed)
  {
    var lines := Split(Unix(text));
    hide *;
    var merged := MergeQuotes(lines);
    ghost var items :| Reads(items, lines) && merged == AllTexts(items);
    SomeItem(items, lines);
    EmitByLine(items, lines, syn);
    fixed := Separate(merged, syn, items);
  }

  /** The whole rewriting keeps code as it is exactly when no table inside code needs a blank line:
      the table fix does not know about code. */
  method NormalizeForCard(content: string, syn: Syntax) returns (card: string)
    ensures exists pieces :: ByLine(FixedTables(Split(Unix(content)), syn), pieces, syn, card)
    ensures CodeOf(false, Split(card)) == CodeOf(false, Split(Unix(content)))
       <==> forall i :: 0 <= i < |Split(Unix(content))| ==> !SplitsCode(Split(Unix(content)), i, syn)
  {
    hide *;
    var fixed := EnsureTableBlankLines(content, syn);
    card := FixNewlines(fixed, syn);
    ghost var items: seq<Part> :| Reads(items, Split(Unix(fixed))) && items != [] && card == Emit(items, 0, syn);
    CodeSurvives(fixed, items, syn);
    UnixLines(content);
    FixedClean(Split(Unix(content)), syn);
    JoinedLines(FixedTables(Split(Unix(content)), syn));
    TableFixKeepsCode(Split(Unix(content)), syn);
  }

  lemma FixedClean(lines: seq<string>, syn: Syntax)
    requires Clean(lines)
    ensures Clean(FixedTables(lines, syn))
  {
    FixedLines(lines, |lines|, syn);
  }
}
