/** The second rewriting for the card renderer: quotes merged, newlines turned into "<br>" where the
    renderer would drop them. Two passes each work out anew what is code. */
module Newlines {
  import opened Options
  import opened Text
  import opened Markdown
  import Splitter

  const Br := "<br>"

  /** What the first pass makes of the lines: one line each, except a run of quotes. */
  datatype Item =
    | Opening(line: string)
    | Inside(line: string)
    | Closing(line: string)
    | Plain(line: string)
    | Quote(lines: seq<string>)

  /** How many blanks stand before the mark. */
  function Margin(line: string): (k: nat)
    ensures k <= |line|
  {
    if line == "" || !Splitter.IsBlank(line[0]) then 0 else 1 + Margin(line[1..])
  }

  /** A quoted line without its mark, and without one blank after it. */
  function Unquoted(line: string): string
    requires IsQuote(line)
  {
    QuoteMargin(line);
    var rest := line[Margin(line) + 1..];
    if rest != "" && Splitter.IsBlank(rest[0]) then rest[1..] else rest
  }

  lemma QuoteMargin(line: string)
    requires IsQuote(line)
    ensures Margin(line) <= 3 && Margin(line) < |line| && line[Margin(line)] == '>'
  {
    var k :| 0 <= k <= 3 && IndentedBy(line, k, ">");
    MarkStarts(line, k, ">");
    MarginIs(line, k);
  }

  lemma {:induction false} MarginIs(line: string, k: nat)
    requires k < |line| && !Splitter.IsBlank(line[k]) && forall i :: 0 <= i < k ==> Splitter.IsBlank(line[i])
    ensures Margin(line) == k
  {
    if k > 0 {
      MarginIs(line[1..], k - 1);
    }
  }

  function QuoteText(lines: seq<string>): string
    requires lines != [] && forall line :: line in lines ==> IsQuote(line)
  {
    if |lines| == 1 then lines[0] else QuoteText(lines[..|lines| - 1]) + Br + Unquoted(lines[|lines| - 1])
  }

  predicate Fits(item: Item) {
    match item
    case Opening(line) => IsFence(line)
    case Inside(line) => !IsFence(line)
    case Closing(line) => IsFence(line)
    case Plain(line) => !IsFence(line) && !IsQuote(line)
    case Quote(lines) => lines != [] && forall line :: line in lines ==> IsQuote(line)
  }

  type Part = item: Item | Fits(item) witness Plain("")

  function TextOf(item: Part): string {
    if item.Quote? then QuoteText(item.lines) else item.line
  }

  function Sources(item: Item): seq<string> {
    if item.Quote? then item.lines else [item.line]
  }

  function AllSources(items: seq<Part>): seq<string> {
    if items == [] then [] else AllSources(items[..|items| - 1]) + Sources(items[|items| - 1])
  }

  function AllTexts(items: seq<Part>): (texts: seq<string>)
    ensures |texts| == |items|
  {
    if items == [] then [] else AllTexts(items[..|items| - 1]) + [TextOf(items[|items| - 1])]
  }

  /** The line after this item is code. */
  predicate LeadsToCode(item: Item) {
    item.Opening? || item.Inside?
  }

  /** Which items may follow which: code opens, goes on and closes; no two runs of quotes touch. */
  predicate Follows(prev: Option<Part>, item: Part) {
    var inCode := prev.Some? && LeadsToCode(prev.value);
    && inCode == (item.Inside? || item.Closing?)
    && !(item.Quote? && prev.Some? && prev.value.Quote?)
  }

  function Last(items: seq<Part>): Option<Part> {
    if items == [] then None else Some(items[|items| - 1])
  }

  predicate Grammatical(items: seq<Part>) {
    items == [] || (Grammatical(items[..|items| - 1]) && Follows(Last(items[..|items| - 1]), items[|items| - 1]))
  }

  predicate CodeAfter(items: seq<Part>) {
    items != [] && LeadsToCode(items[|items| - 1])
  }

  /** A quote that comes now starts a run of its own. */
  predicate AfterNoQuote(items: seq<Part>) {
    items != [] ==> !items[|items| - 1].Quote?
  }

  /** The items say how the lines were read, and leave no line out. */
  ghost predicate Reads(items: seq<Part>, lines: seq<string>) {
    Grammatical(items) && AllSources(items) == lines
  }

  // ---------- the first pass ----------

  /** Lines appended so far, the texts of an unfinished run of quotes, and whether the next line is
      code; `items` and `run` are the reading that explains them. */
  datatype First = First(merged: seq<string>, pending: seq<string>, inCode: bool)

  ghost predicate Explains(items: seq<Part>, run: seq<string>, p: First, lines: seq<string>) {
    && Grammatical(items)
    && AllSources(items) + run == lines
    && p.merged == AllTexts(items)
    && p.inCode == CodeAfter(items)
    && (p.pending == [] <==> run == [])
    && (forall line :: line in run ==> IsQuote(line))
    && (run != [] ==> Join(p.pending, Br) == QuoteText(run) && !p.inCode && AfterNoQuote(items))
  }

  method MergeQuotes(lines: seq<string>) returns (merged: seq<string>)
    ensures exists items :: Reads(items, lines) && merged == AllTexts(items)
  {
    hide *;
    var p := First([], [], false);
    ghost var items: seq<Part> := [];
    ghost var run := [];
    NothingRead();
    for i := 0 to |lines|
      invariant Explains(items, run, p, lines[..i]) && AfterNoQuote(items)
    {
      p, items, run := MergeLine(lines[i], p, items, run, lines[..i]);
      assert lines[..i] + [lines[i]] == lines[..i + 1];
    }
    assert lines[..|lines|] == lines;
    AllRead(items, run, p, lines);
    p, items := FlushQuotes(p, items, run, lines);
    merged := p.merged;
    assert Reads(items, lines);
  }

  /** The body of the loop. */
  method MergeLine(line: string, p: First, ghost items: seq<Part>, ghost run: seq<string>, ghost before: seq<string>)
    returns (p': First, ghost items': seq<Part>, ghost run': seq<string>)
    requires Explains(items, run, p, before) && AfterNoQuote(items)
    ensures Explains(items', run', p', before + [line]) && AfterNoQuote(items')
  {
    hide Explains, IsFence, IsQuote, Grammatical, Unquoted, QuoteText, AllSources, AllTexts;
    QuoteIsNoFence(line);
    if IsQuote(line) && !p.inCode {
      HoldQuote(items, run, p, before, line);
      items', run' := items, run + [line];
      if p.pending == [] {
        p' := p.(pending := [line]);
      } else {
        p' := p.(pending := p.pending + [Unquoted(line)]);
      }
      return;
    }
    p', items' := FlushQuotes(p, items, run, before);
    run' := [];
    ghost var item := ItemOf(p.inCode, line);
    AppendItem(items', p', before, item);
    items' := items' + [item];
    p' := First(p'.merged + [line], [], if IsFence(line) then !p.inCode else p.inCode);
  }

  method FlushQuotes(p: First, ghost items: seq<Part>, ghost run: seq<string>, ghost before: seq<string>)
    returns (p': First, ghost items': seq<Part>)
    requires Explains(items, run, p, before)
    ensures Explains(items', [], p', before) && p'.inCode == p.inCode && p'.pending == []
    ensures run == [] ==> items' == items
  {
    p', items' := p, items;
    if |p.pending| > 0 {
      AppendRun(items, run, p, before);
      items' := items + [Quote(run)];
      p' := p.(merged := p.merged + [Join(p.pending, Br)], pending := []);
    }
  }

  /** How one line that joins no run is read. */
  ghost function ItemOf(inCode: bool, line: string): Part
    requires IsQuote(line) ==> inCode
  {
    if IsFence(line) then (if inCode then Closing(line) else Opening(line))
    else if inCode then Inside(line) else Plain(line)
  }

  lemma NothingRead()
    ensures Explains([], [], First([], [], false), []) && AfterNoQuote([])
  {
  }

  lemma AllRead(items: seq<Part>, run: seq<string>, p: First, lines: seq<string>)
    requires Explains(items, run, p, lines)
    ensures forall items', p' :: Explains(items', [], p', lines) ==> Reads(items', lines) && p'.merged == AllTexts(items')
  {
    forall items', p' | Explains(items', [], p', lines)
      ensures Reads(items', lines)
    {
      assert AllSources(items') + [] == AllSources(items');
    }
  }

  lemma GrowItems(items: seq<Part>, item: Part)
    requires Grammatical(items) && Follows(Last(items), item)
    ensures Grammatical(items + [item])
    ensures AllSources(items + [item]) == AllSources(items) + Sources(item)
    ensures AllTexts(items + [item]) == AllTexts(items) + [TextOf(item)]
  {
    hide Follows, TextOf, Last;
    assert (items + [item])[..|items|] == items;
  }

  lemma AppendRun(items: seq<Part>, run: seq<string>, p: First, before: seq<string>)
    requires Explains(items, run, p, before) && p.pending != []
    ensures Fits(Quote(run))
    ensures Explains(items + [Quote(run)], [], p.(merged := p.merged + [Join(p.pending, Br)], pending := []), before)
  {
    GrowItems(items, Quote(run));
    assert (AllSources(items) + run) + [] == AllSources(items) + run;
  }

  lemma AppendItem(items: seq<Part>, p: First, before: seq<string>, item: Part)
    requires Explains(items, [], p, before) && !item.Quote? && p.inCode == (item.Inside? || item.Closing?)
    ensures Explains(items + [item], [], First(p.merged + [item.line], [], LeadsToCode(item)), before + [item.line])
  {
    GrowItems(items, item);
    assert AllSources(items) + [] == AllSources(items);
    assert (AllSources(items) + [item.line]) + [] == AllSources(items) + [item.line];
  }

  lemma HoldQuote(items: seq<Part>, run: seq<string>, p: First, before: seq<string>, line: string)
    requires Explains(items, run, p, before) && IsQuote(line) && !p.inCode && AfterNoQuote(items)
    ensures Explains(items, run + [line],
      p.(pending := if p.pending == [] then [line] else p.pending + [Unquoted(line)]), before + [line])
  {
    assert (AllSources(items) + run) + [line] == AllSources(items) + (run + [line]);
    if run != [] {
      assert (run + [line])[..|run|] == run;
      JoinAppend(p.pending, [Unquoted(line)], Br);
    }
  }

  // ---------- the reading is one ----------

  /** The code status after the items is the one a toggle over the lines computes, and the one a
      toggle over the merged lines computes: the two passes agree. */
  lemma {:induction false} PassesAgree(items: seq<Part>)
    requires Grammatical(items)
    ensures CodeAfter(items) == InCode(false, AllSources(items)) == InCode(false, AllTexts(items))
    ensures CodeOf(false, AllSources(items)) == CodeOf(false, AllTexts(items))
  {
    if items != [] {
      var before, item := items[..|items| - 1], items[|items| - 1];
      PassesAgree(before);
      ItemCode(item, CodeAfter(before));
      CodeAppend(false, AllSources(before), Sources(item));
      CodeAppend(false, AllTexts(before), [TextOf(item)]);
    }
  }

  lemma ItemCode(item: Part, inCode: bool)
    requires inCode == (item.Inside? || item.Closing?)
    ensures InCode(inCode, Sources(item)) == LeadsToCode(item) == Toggle(inCode, TextOf(item)) == InCode(inCode, [TextOf(item)])
    ensures CodeOf(inCode, Sources(item)) == CodeOf(inCode, [TextOf(item)])
  {
    OneLine(inCode, TextOf(item));
    if item.Quote? {
      QuoteTextQuotes(item.lines);
      NoCodeInQuotes(item.lines);
      QuoteIsNoFence(TextOf(item));
    }
  }

  lemma OneLine(inCode: bool, line: string)
    ensures InCode(inCode, [line]) == Toggle(inCode, line)
    ensures CodeOf(inCode, [line]) == if Toggle(inCode, line) then [line] else []
  {
    assert [line][1..] == [];
  }

  lemma {:induction false} NoCodeInQuotes(lines: seq<string>)
    requires forall line :: line in lines ==> IsQuote(line)
    ensures !InCode(false, lines) && CodeOf(false, lines) == []
  {
    if lines != [] {
      QuoteIsNoFence(lines[0]);
      NoCodeInQuotes(lines[1..]);
    }
  }

  lemma {:induction false} QuoteTextQuotes(lines: seq<string>)
    requires lines != [] && forall line :: line in lines ==> IsQuote(line)
    ensures IsQuote(QuoteText(lines))
  {
    if |lines| > 1 {
      QuoteTextQuotes(lines[..|lines| - 1]);
      MarkStays(QuoteText(lines[..|lines| - 1]), Br + Unquoted(lines[|lines| - 1]), ">");
      assert QuoteText(lines) == QuoteText(lines[..|lines| - 1]) + (Br + Unquoted(lines[|lines| - 1]));
    }
  }

  lemma MarkStays(line: string, more: string, mark: string)
    requires Indented(line, mark)
    ensures Indented(line + more, mark)
  {
    var k :| 0 <= k <= 3 && IndentedBy(line, k, mark);
    assert (line + more)[k..k + |mark|] == line[k..k + |mark|];
    assert IndentedBy(line + more, k, mark);
  }

  /** What is appended after "<br>" makes no fence, and unmakes none. */
  lemma FenceStays(line: string, more: string)
    ensures IsFence(line + Br + more) == IsFence(line)
  {
    if IsFence(line) {
      MarkStays(line, Br + more, "```");
      assert line + Br + more == line + (Br + more);
    }
    var long := line + Br + more;
    if k :| 0 <= k <= 3 && IndentedBy(long, k, "```") {
      BrBreaksMark(line, more, k);
      assert line[k..k + 3] == long[k..k + 3];
      assert forall i :: 0 <= i < k ==> line[i] == long[i];
      assert IndentedBy(line, k, "```");
    }
  }

  lemma BrBreaksMark(line: string, more: string, k: nat)
    requires IndentedBy(line + Br + more, k, "```")
    ensures k + 3 <= |line|
  {
    var long := line + Br + more;
    assert long[|line|] == '<';
    assert long[k..k + 3][0] == long[k] && long[k..k + 3][1] == long[k + 1] && long[k..k + 3][2] == long[k + 2];
  }

  // ---------- the second pass ----------

  /** Whether a newline stays between two merged lines. In code it always does. */
  predicate KeepsNewline(item: Part, next: Part, syn: Syntax) {
    || LeadsToCode(item)
    || TextOf(item) == "" || TextOf(next) == ""
    || IsFence(TextOf(next)) || syn.blockStart(TextOf(next))
  }

  /** The output from item i on. */
  function Emit(items: seq<Part>, i: nat, syn: Syntax): string
    requires i < |items|
    decreases |items| - i
  {
    if i == |items| - 1 then TextOf(items[i])
    else TextOf(items[i]) + (if KeepsNewline(items[i], items[i + 1], syn) then "\n" else Br) + Emit(items, i + 1, syn)
  }

  lemma {:induction false} TextsAt(items: seq<Part>, i: nat)
    requires i <= |items|
    ensures AllTexts(items)[..i] == AllTexts(items[..i])
    ensures i < |items| ==> AllTexts(items)[i] == TextOf(items[i])
  {
    if i < |items| {
      var before := items[..|items| - 1];
      TextsAt(before, i);
      assert before[..i] == items[..i];
    } else {
      assert items[..i] == items;
    }
  }

  lemma {:induction false} GrammaticalPrefix(items: seq<Part>, i: nat)
    requires Grammatical(items) && i <= |items|
    ensures Grammatical(items[..i])
    ensures i < |items| ==> Follows(Last(items[..i]), items[i])
  {
    if i < |items| {
      var before := items[..|items| - 1];
      GrammaticalPrefix(before, i);
      assert before[..i] == items[..i];
      if i == |items| - 1 {
        assert items[..i] == before;
      }
    } else {
      assert items[..i] == items;
    }
  }

  /** At item i, the second pass has the status the item says. */
  lemma {:induction false} StatusAt(items: seq<Part>, i: nat)
    requires Grammatical(items) && i < |items|
    ensures InCode(false, AllTexts(items)[..i]) == (items[i].Inside? || items[i].Closing?)
    ensures LeadsToCode(items[i]) == Toggle(InCode(false, AllTexts(items)[..i]), TextOf(items[i]))
  {
    GrammaticalPrefix(items, i);
    TextsAt(items, i);
    PassesAgree(items[..i]);
    ItemCode(items[i], CodeAfter(items[..i]));
  }

  lemma {:induction false} NewlineAt(items: seq<Part>, i: nat, syn: Syntax)
    requires Grammatical(items) && i < |items|
    ensures var merged := AllTexts(items);
      && merged[i] == TextOf(items[i])
      && (i < |items| - 1 ==>
            (KeepsNewline(items[i], items[i + 1], syn) <==>
               Toggle(InCode(false, merged[..i]), merged[i]) || merged[i] == "" || merged[i + 1] == ""
               || IsFence(merged[i + 1]) || syn.blockStart(merged[i + 1])))
  {
    hide IsFence, Grammatical, AllTexts, TextOf, InCode;
    StatusAt(items, i);
    TextsAt(items, i);
    if i < |items| - 1 {
      TextsAt(items, i + 1);
    }
  }

  method Separate(merged: seq<string>, syn: Syntax, ghost items: seq<Part>) returns (sb: string)
    requires items != [] && Grammatical(items) && merged == AllTexts(items)
    ensures sb == Emit(items, 0, syn)
  {
    hide IsFence, Grammatical, AllTexts, TextOf, KeepsNewline;
    sb := "";
    var inCode := false;
    for i := 0 to |merged|
      invariant inCode == InCode(false, merged[..i])
      invariant i < |merged| ==> sb + Emit(items, i, syn) == Emit(items, 0, syn)
      invariant i == |merged| ==> sb == Emit(items, 0, syn)
    {
      var cur := merged[i];
      var nextInCode := inCode;
      if IsFence(cur) {
        nextInCode := !inCode;
      }
      StatusNext(merged, i);
      NewlineAt(items, i, syn);
      if i < |merged| - 1 {
        var next := merged[i + 1];
        var keepNL := nextInCode || cur == "" || next == "" || IsFence(next) || syn.blockStart(next);
        sb := sb + cur;
        if keepNL {
          sb := sb + "\n";
        } else {
          sb := sb + Br;
        }
      } else {
        sb := sb + cur;
      }
      inCode := nextInCode;
    }
    assert merged[..|merged|] == merged;
  }

  lemma StatusNext(lines: seq<string>, i: nat)
    requires i < |lines|
    ensures InCode(false, lines[..i + 1]) == Toggle(InCode(false, lines[..i]), lines[i])
  {
    assert lines[..i + 1] == lines[..i] + [lines[i]];
    CodeAppend(false, lines[..i], [lines[i]]);
    OneLine(InCode(false, lines[..i]), lines[i]);
  }

  lemma SomeItem(items: seq<Part>, lines: seq<string>)
    requires Reads(items, lines) && lines != []
    ensures items != [] && Grammatical(items)
  {
  }

  // ---------- reading the output ----------

  ghost predicate CleanItems(items: seq<Part>) {
    forall i :: 0 <= i < |items| ==> IsLine(TextOf(items[i]))
  }

  ghost predicate AllLines(lines: seq<string>) {
    forall line :: line in lines ==> IsLine(line)
  }

  lemma LinesOfBoth(a: seq<string>, b: seq<string>)
    requires AllLines(a + b)
    ensures AllLines(a) && AllLines(b)
  {
    hide IsLine;
    assert forall line :: line in a || line in b ==> line in a + b;
  }

  lemma {:induction false} ItemsClean(items: seq<Part>, lines: seq<string>)
    requires AllSources(items) == lines && forall line :: line in lines ==> IsLine(line)
    ensures CleanItems(items)
  {
    hide IsLine, CleanItems, TextOf;
    if items != [] {
      var before, item := items[..|items| - 1], items[|items| - 1];
      assert AllLines(lines);
      LinesOfBoth(AllSources(before), Sources(item));
      hide Sources, AllSources;
      ItemsClean(before, AllSources(before));
      TextClean(item);
      CleanAppend(before, item);
      assert before + [item] == items;
    } else {
      NoneClean(items);
    }
  }

  lemma NoneClean(items: seq<Part>)
    requires items == []
    ensures CleanItems(items)
  {
  }

  lemma TextClean(item: Part)
    requires forall line :: line in Sources(item) ==> IsLine(line)
    ensures IsLine(TextOf(item))
  {
    if item.Quote? {
      QuoteClean(item.lines);
    } else {
      assert item.line in Sources(item);
    }
  }

  lemma CleanAppend(items: seq<Part>, item: Part)
    requires CleanItems(items) && IsLine(TextOf(item))
    ensures CleanItems(items + [item])
  {
    hide TextOf, IsLine;
    var all := items + [item];
    forall i | 0 <= i < |all|
      ensures IsLine(TextOf(all[i]))
    {
      if i < |items| {
        assert all[i] == items[i];
      }
    }
  }

  lemma {:induction false} QuoteClean(lines: seq<string>)
    requires lines != [] && forall line :: line in lines ==> IsQuote(line) && IsLine(line)
    ensures IsLine(QuoteText(lines))
  {
    if |lines| > 1 {
      QuoteClean(lines[..|lines| - 1]);
      UnquotedClean(lines[|lines| - 1]);
    }
  }

  lemma UnquotedClean(line: string)
    requires IsQuote(line) && IsLine(line)
    ensures IsLine(Unquoted(line))
  {
    QuoteMargin(line);
    var rest := line[Margin(line) + 1..];
    assert forall c :: c in rest ==> c in line;
    assert rest != "" ==> forall c :: c in rest[1..] ==> c in rest;
  }

  lemma {:induction false} SplitBehind(line: string, rest: string)
    requires IsLine(line)
    ensures Split(line + rest) == [line + Split(rest)[0]] + Split(rest)[1..]
  {
    if line == "" {
      assert line + rest == rest;
      assert line + Split(rest)[0] == Split(rest)[0];
    } else {
      assert line[0] in line;
      assert (line + rest)[1..] == line[1..] + rest;
      SplitBehind(line[1..], rest);
      assert [line[0]] + (line[1..] + Split(rest)[0]) == line + Split(rest)[0];
    }
  }

  /** The lines of the output from item i on, read by the renderer: the same code as in the merged
      lines, and the first one a fence exactly when item i is. */
  lemma {:induction false} OutputCode(items: seq<Part>, i: nat, syn: Syntax)
    requires Grammatical(items) && i < |items| && CleanItems(items)
    ensures var out := Split(Emit(items, i, syn));
      var inCode := items[i].Inside? || items[i].Closing?;
      && CodeOf(inCode, out) == CodeOf(inCode, AllTexts(items)[i..])
      && IsFence(out[0]) == IsFence(TextOf(items[i]))
    decreases |items| - i
  {
    hide Grammatical, IsFence, TextOf, AllTexts;
    var texts := AllTexts(items);
    var line := TextOf(items[i]);
    var inCode := items[i].Inside? || items[i].Closing?;
    TextsAt(items, i);
    StatusAt(items, i);
    assert texts[i..] == [line] + texts[i + 1..];
    if i == |items| - 1 {
      SplitOneLine(line);
    } else {
      OutputCode(items, i + 1, syn);
      StatusAt(items, i + 1);
      StatusNext(texts, i);
      var rest := Emit(items, i + 1, syn);
      var next := Split(rest);
      if KeepsNewline(items[i], items[i + 1], syn) {
        SplitHead(line, rest);
      } else {
        SplitBehind(line + Br, rest);
        FenceStays(line, next[0]);
      }
    }
  }

  /** Whatever the text and its block syntax: the output holds exactly the code of the input, every
      opening fence and every line of code a line of its own, unchanged and in order. */
  lemma CodeSurvives(text: string, items: seq<Part>, syn: Syntax)
    requires Reads(items, Split(Unix(text))) && items != []
    ensures CodeOf(false, Split(Emit(items, 0, syn))) == CodeOf(false, Split(Unix(text)))
  {
    UnixLines(text);
    ItemsClean(items, Split(Unix(text)));
    OutputCode(items, 0, syn);
    StatusAt(items, 0);
    PassesAgree(items);
    assert AllTexts(items)[0..] == AllTexts(items);
    assert AllTexts(items)[..0] == [];
  }

  // ---------- one reading only ----------

  /** Two readings of the same lines are the same reading. */
  lemma {:induction false} OneReading(a: seq<Part>, b: seq<Part>)
    requires Grammatical(a) && Grammatical(b) && AllSources(a) == AllSources(b)
    ensures a == b
    decreases |a|
  {
    if a == [] {
      NoSources(b);
    } else if b == [] {
      NoSources(a);
    } else {
      var a0, b0 := a[..|a| - 1], b[..|b| - 1];
      var x, y := a[|a| - 1], b[|b| - 1];
      hide Follows, Sources;
      SameLast(a0, x, b0, y);
      OneReading(a0, b0);
    }
  }

  lemma NoSources(items: seq<Part>)
    ensures AllSources(items) == [] <==> items == []
  {
  }

  lemma SameLast(a: seq<Part>, x: Part, b: seq<Part>, y: Part)
    requires Grammatical(a) && Grammatical(b) && Follows(Last(a), x) && Follows(Last(b), y)
    requires AllSources(a) + Sources(x) == AllSources(b) + Sources(y)
    ensures x == y && AllSources(a) == AllSources(b)
  {
    RunIsMaximal(a, x, b, y);
    RunIsMaximal(b, y, a, x);
    hide Grammatical, AllSources, Sources, Follows;
    SameEnds(AllSources(a), Sources(x), AllSources(b), Sources(y));
    SameStatus(a, b);
    SameItem(a, x, b, y);
  }

  lemma SameEnds(a: seq<string>, x: seq<string>, b: seq<string>, y: seq<string>)
    requires a + x == b + y && |x| == |y|
    ensures a == b && x == y
  {
    var all := a + x;
    assert a == all[..|a|] == b && x == all[|a|..] == y;
  }

  lemma SameStatus(a: seq<Part>, b: seq<Part>)
    requires Grammatical(a) && Grammatical(b) && AllSources(a) == AllSources(b)
    ensures CodeAfter(a) == CodeAfter(b)
  {
    hide Grammatical, AllSources;
    PassesAgree(a);
    PassesAgree(b);
  }

  lemma SameItem(a: seq<Part>, x: Part, b: seq<Part>, y: Part)
    requires Follows(Last(a), x) && Follows(Last(b), y) && CodeAfter(a) == CodeAfter(b) && Sources(x) == Sources(y)
    ensures x == y
  {
    hide IsQuote, IsFence;
    if !x.Quote? && y.Quote? {
      LineOrRun(x, y.lines);
    } else if x.Quote? && !y.Quote? {
      LineOrRun(y, x.lines);
    }
  }

  /** Outside code a quote is never a line of its own. */
  lemma LineOrRun(x: Part, run: seq<string>)
    requires !x.Quote? && run == Sources(x) && forall line :: line in run ==> IsQuote(line)
    ensures x.Inside?
  {
    assert x.line in run;
    QuoteIsNoFence(x.line);
  }

  /** Outside code, what ends with a quote is a run. */
  lemma EndsWithRun(item: Part, line: string)
    requires !item.Inside? && IsQuote(line) && Sources(item)[|Sources(item)| - 1] == line
    ensures item.Quote?
  {
    QuoteIsNoFence(line);
  }

  lemma Overlap(a: seq<string>, x: seq<string>, b: seq<string>, y: seq<string>)
    requires a + x == b + y && 0 < |x| < |y|
    ensures a == b + y[..|y| - |x|] && a != [] && a[|a| - 1] == y[|y| - |x| - 1]
    ensures x[|x| - 1] == y[|y| - 1]
  {
    var all := a + x;
    assert a == all[..|all| - |x|] == b + y[..|y| - |x|];
    assert all[|all| - 1] == y[|y| - 1];
  }

  lemma LastSource(items: seq<Part>)
    requires items != []
    ensures AllSources(items)[|AllSources(items)| - 1] == Sources(items[|items| - 1])[|Sources(items[|items| - 1])| - 1]
  {
  }

  lemma NoCodeAtRun(a: seq<Part>, b: seq<Part>, run: seq<string>)
    requires Grammatical(a) && Grammatical(b) && !CodeAfter(b)
    requires AllSources(a) == AllSources(b) + run && forall line :: line in run ==> IsQuote(line)
    ensures !CodeAfter(a)
  {
    hide Grammatical, AllSources;
    PassesAgree(a);
    PassesAgree(b);
    CodeAppend(false, AllSources(b), run);
    NoCodeInQuotes(run);
  }

  /** A run does not end where the other reading has it go on. */
  lemma RunIsMaximal(a: seq<Part>, x: Part, b: seq<Part>, y: Part)
    requires Grammatical(a) && Grammatical(b) && Follows(Last(a), x) && Follows(Last(b), y)
    requires AllSources(a) + Sources(x) == AllSources(b) + Sources(y)
    ensures |Sources(x)| >= |Sources(y)|
  {
    if |Sources(x)| < |Sources(y)| {
      hide IsQuote, IsFence, Grammatical, AllSources;
      ShorterRun(a, x, b, y.lines);
    }
  }

  /** If it did, another run or code would follow it. */
  lemma ShorterRun(a: seq<Part>, x: Part, b: seq<Part>, run: seq<string>)
    requires Grammatical(a) && Grammatical(b) && !CodeAfter(b) && forall line :: line in run ==> IsQuote(line)
    requires AllSources(a) + Sources(x) == AllSources(b) + run && |Sources(x)| < |run|
    ensures !CodeAfter(a) && a != [] && a[|a| - 1].Quote? && (x.Inside? || x.Quote?)
  {
    hide IsQuote, IsFence, Grammatical, AllSources;
    var k := |run| - |Sources(x)|;
    Overlap(AllSources(a), Sources(x), AllSources(b), run);
    NoCodeAtRun(a, b, run[..k]);
    NoSources(a);
    LastSource(a);
    EndsWithRun(a[|a| - 1], run[k - 1]);
    if !x.Inside? {
      EndsWithRun(x, run[|run| - 1]);
    }
  }
}
