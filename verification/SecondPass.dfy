/** What the newline rewriting does to its own output: when a second pass changes nothing. */
module SecondPass {
  import opened Options
  import opened Text
  import opened Markdown
  import opened Newlines
  import Splitter

  /** A block start stays one when "<br>" and more follow on the line. True of an expression that
      does not look at the end of the line. */
  ghost predicate PrefixOnly(syn: Syntax) {
    forall line, more :: syn.blockStart(line) ==> syn.blockStart(line + Br + more)
  }

  /** The second pass's condition for a newline, between two lines. */
  predicate Kept(cur: string, nextInCode: bool, next: string, syn: Syntax) {
    nextInCode || cur == "" || next == "" || IsFence(next) || syn.blockStart(next)
  }

  predicate AllKept(lines: seq<string>, inCode: bool, syn: Syntax)
    decreases |lines|
  {
    |lines| > 1 ==> Kept(lines[0], Toggle(inCode, lines[0]), lines[1], syn) && AllKept(lines[1..], Toggle(inCode, lines[0]), syn)
  }

  /** Two quoted lines follow each other outside code. */
  predicate QuotesTouch(lines: seq<string>, inCode: bool)
    decreases |lines|
  {
    |lines| > 1 && ((!inCode && IsQuote(lines[0]) && IsQuote(lines[1])) || QuotesTouch(lines[1..], Toggle(inCode, lines[0])))
  }

  // ---------- the output keeps its newlines ----------

  /** The first line of the output from item i on is that item, alone or with "<br>" after it. */
  lemma FirstLine(items: seq<Part>, i: nat, syn: Syntax)
    requires i < |items| && CleanItems(items)
    ensures var first, line := Split(Emit(items, i, syn))[0], TextOf(items[i]);
      first == line || (line != "" && exists more :: first == line + Br + more)
  {
    hide TextOf, IsFence;
    var line := TextOf(items[i]);
    if i == |items| - 1 {
      SplitOneLine(line);
    } else {
      var rest := Emit(items, i + 1, syn);
      if KeepsNewline(items[i], items[i + 1], syn) {
        SplitHead(line, rest);
      } else {
        SplitBehind(line + Br, rest);
        assert Split(Emit(items, i, syn))[0] == line + Br + Split(rest)[0];
      }
    }
  }

  /** What separates two items separates the lines they end up in. */
  lemma StillKept(items: seq<Part>, i: nat, first: string, syn: Syntax)
    requires i + 1 < |items| && KeepsNewline(items[i], items[i + 1], syn) && PrefixOnly(syn)
    requires var next := TextOf(items[i + 1]);
      first == next || (next != "" && exists more :: first == next + Br + more)
    ensures Kept(TextOf(items[i]), LeadsToCode(items[i]), first, syn)
  {
    hide TextOf, IsFence;
    var next := TextOf(items[i + 1]);
    if first != next {
      var more :| first == next + Br + more;
      FenceStays(next, more);
    }
  }

  lemma {:induction false} OutputKept(items: seq<Part>, i: nat, syn: Syntax)
    requires Grammatical(items) && i < |items| && CleanItems(items) && PrefixOnly(syn)
    ensures AllKept(Split(Emit(items, i, syn)), items[i].Inside? || items[i].Closing?, syn)
    decreases |items| - i
  {
    hide Grammatical, IsFence, TextOf, PrefixOnly;
    var line := TextOf(items[i]);
    StatusHere(items, i);
    if i == |items| - 1 {
      SplitOneLine(line);
    } else {
      var rest := Emit(items, i + 1, syn);
      OutputKept(items, i + 1, syn);
      FirstLine(items, i + 1, syn);
      StatusNextItem(items, i);
      if KeepsNewline(items[i], items[i + 1], syn) {
        SplitHead(line, rest);
        StillKept(items, i, Split(rest)[0], syn);
        assert ([line] + Split(rest))[1..] == Split(rest);
      } else {
        SplitBehind(line + Br, rest);
        FirstNoFence(items, i, syn);
        FenceStays(line, Split(rest)[0]);
        LongerLine(line, Split(rest), items[i].Inside? || items[i].Closing?, syn);
      }
    }
  }

  lemma StatusHere(items: seq<Part>, i: nat)
    requires Grammatical(items) && i < |items|
    ensures LeadsToCode(items[i]) == Toggle(items[i].Inside? || items[i].Closing?, TextOf(items[i]))
  {
    StatusAt(items, i);
  }

  lemma StatusNextItem(items: seq<Part>, i: nat)
    requires Grammatical(items) && i + 1 < |items|
    ensures LeadsToCode(items[i]) == (items[i + 1].Inside? || items[i + 1].Closing?)
  {
    StatusAt(items, i);
    StatusAt(items, i + 1);
    TextsAt(items, i);
    StatusNext(AllTexts(items), i);
  }

  /** After "<br>" comes no fence. */
  lemma FirstNoFence(items: seq<Part>, i: nat, syn: Syntax)
    requires i + 1 < |items| && CleanItems(items) && !KeepsNewline(items[i], items[i + 1], syn)
    ensures var first := Split(Emit(items, i + 1, syn))[0];
      !LeadsToCode(items[i]) && first != "" && !IsFence(first)
  {
    hide TextOf, IsFence;
    FirstLine(items, i + 1, syn);
    var first, next := Split(Emit(items, i + 1, syn))[0], TextOf(items[i + 1]);
    if first != next {
      var more :| first == next + Br + more;
      FenceStays(next, more);
    }
  }

  /** Putting a line and "<br>" in front of the first line changes no separator. */
  lemma LongerLine(line: string, lines: seq<string>, inCode: bool, syn: Syntax)
    requires lines != [] && AllKept(lines, false, syn)
    requires !Toggle(inCode, line) && lines[0] != "" && !IsFence(lines[0])
    requires IsFence(line + Br + lines[0]) == IsFence(line)
    ensures AllKept([line + Br + lines[0]] + lines[1..], inCode, syn)
  {
    hide IsFence;
    var longer := [line + Br + lines[0]] + lines[1..];
    assert longer[1..] == lines[1..];
    assert Toggle(inCode, longer[0]) == Toggle(false, lines[0]) == false;
  }

  // ---------- the second reading ----------

  /** Without touching quotes every line is an item of its own. */
  lemma {:induction false} OneLineEach(items: seq<Part>)
    requires Grammatical(items) && !QuotesTouch(AllSources(items), false)
    ensures AllTexts(items) == AllSources(items)
  {
    if items != [] {
      var before, item := items[..|items| - 1], items[|items| - 1];
      PassesAgree(before);
      TouchConcat(AllSources(before), Sources(item), false);
      OneLineEach(before);
      if item.Quote? {
        ShortRun(item);
      }
      assert Sources(item) == [TextOf(item)];
    }
  }

  lemma ShortRun(item: Part)
    requires item.Quote? && !QuotesTouch(item.lines, false)
    ensures |item.lines| == 1
  {
    TwoQuotesTouch(item.lines);
  }

  lemma TwoQuotesTouch(lines: seq<string>)
    requires forall line :: line in lines ==> IsQuote(line)
    ensures |lines| > 1 ==> QuotesTouch(lines, false)
  {
    if |lines| > 1 {
      assert lines[0] in lines && lines[1] in lines;
    }
  }

  lemma {:induction false} TouchConcat(a: seq<string>, b: seq<string>, inCode: bool)
    ensures QuotesTouch(a, inCode) || QuotesTouch(b, InCode(inCode, a)) ==> QuotesTouch(a + b, inCode)
    decreases |a|
  {
    hide IsQuote, IsFence;
    AppendUnfolds(a, b);
    if a != [] {
      TouchConcat(a[1..], b, Toggle(inCode, a[0]));
      if |a| > 1 {
        assert (a + b)[1] == a[1];
      }
    }
  }

  lemma {:induction false} KeptAt(lines: seq<string>, inCode: bool, i: nat, syn: Syntax)
    requires AllKept(lines, inCode, syn) && i + 1 < |lines|
    ensures Kept(lines[i], Toggle(InCode(inCode, lines[..i]), lines[i]), lines[i + 1], syn)
    decreases i
  {
    hide IsFence;
    if i > 0 {
      KeptAt(lines[1..], Toggle(inCode, lines[0]), i - 1, syn);
      assert lines[..i][1..] == lines[1..][..i - 1];
    } else {
      assert lines[..0] == [];
    }
  }

  lemma {:induction false} EmitsLines(items: seq<Part>, i: nat, syn: Syntax)
    requires Grammatical(items) && i < |items| && AllKept(AllTexts(items), false, syn)
    ensures Emit(items, i, syn) == Join(AllTexts(items)[i..], "\n")
    decreases |items| - i
  {
    hide Grammatical, IsFence, TextOf, AllTexts, AllKept;
    var texts := AllTexts(items);
    TextsAt(items, i);
    if i < |items| - 1 {
      EmitsLines(items, i + 1, syn);
      KeptAt(texts, false, i, syn);
      NewlineAt(items, i, syn);
      JoinCons(texts[i], texts[i + 1..], "\n");
      assert texts[i..] == [texts[i]] + texts[i + 1..];
    } else {
      assert texts[i..] == [texts[i]];
    }
  }

  // ---------- fewer lines when quotes touch ----------

  lemma {:induction false} OutputSize(items: seq<Part>, i: nat, syn: Syntax)
    requires i < |items| && CleanItems(items)
    ensures |Split(Emit(items, i, syn))| <= |items| - i
    decreases |items| - i
  {
    hide IsFence, TextOf;
    var line := TextOf(items[i]);
    if i == |items| - 1 {
      SplitOneLine(line);
    } else {
      var rest := Emit(items, i + 1, syn);
      OutputSize(items, i + 1, syn);
      SplitHead(line, rest);
      SplitBehind(line + Br, rest);
    }
  }

  lemma {:induction false} SourcesSize(items: seq<Part>)
    ensures |items| <= |AllSources(items)|
    ensures |items| == |AllSources(items)| ==> AllSources(items) == AllTexts(items)
  {
    if items != [] {
      SourcesSize(items[..|items| - 1]);
      var item := items[|items| - 1];
      assert |Sources(item)| == 1 ==> Sources(item) == [TextOf(item)];
    }
  }

  /** Touching quotes are read as one run. */
  lemma {:induction false} TouchingRun(items: seq<Part>)
    requires Grammatical(items) && QuotesTouch(AllSources(items), false)
    ensures |items| < |AllSources(items)|
  {
    SourcesSize(items);
    if |items| == |AllSources(items)| {
      var i := TouchPlace(AllTexts(items), false);
      TextsAt(items, i);
      TextsAt(items, i + 1);
      StatusAt(items, i);
      QuoteIsNoFence(TextOf(items[i]));
      QuoteIsNoFence(TextOf(items[i + 1]));
      StatusNextItem(items, i);
      GrammaticalPrefix(items, i + 1);
    }
  }

  lemma {:induction false} TouchPlace(lines: seq<string>, inCode: bool) returns (i: nat)
    requires QuotesTouch(lines, inCode)
    ensures i + 1 < |lines| && IsQuote(lines[i]) && IsQuote(lines[i + 1]) && !InCode(inCode, lines[..i])
    decreases |lines|
  {
    if !inCode && IsQuote(lines[0]) && IsQuote(lines[1]) {
      i := 0;
      assert lines[..0] == [];
    } else {
      var j := TouchPlace(lines[1..], Toggle(inCode, lines[0]));
      i := j + 1;
      assert lines[..i][1..] == lines[1..][..j];
    }
  }

  /** A second pass changes nothing exactly when no two lines of the first pass's output, outside
      code, are quotes that follow each other. `first` reads a text, `second` what the first pass
      made of it. */
  lemma SecondPassExactly(lines: seq<string>, first: seq<Part>, second: seq<Part>, syn: Syntax)
    requires Clean(lines) && Reads(first, lines) && PrefixOnly(syn)
    requires first != [] && Reads(second, Split(Emit(first, 0, syn))) && second != []
    ensures Emit(second, 0, syn) == Emit(first, 0, syn) <==> !QuotesTouch(Split(Emit(first, 0, syn)), false)
  {
    var text := Emit(first, 0, syn);
    var out := Split(text);
    hide Emit, QuotesTouch, Grammatical, PrefixOnly, AllSources, Split;
    ItemsClean(first, lines);
    JoinOfSplit(text);
    if QuotesTouch(out, false) {
      TouchingRun(second);
      SplitLines(text);
      ItemsClean(second, out);
      OutputSize(second, 0, syn);
    } else {
      StatusAtFirst(first);
      OutputKept(first, 0, syn);
      OneLineEach(second);
      EmitsLines(second, 0, syn);
      assert AllTexts(second)[0..] == out;
    }
  }

  lemma StatusAtFirst(items: seq<Part>)
    requires Grammatical(items) && items != []
    ensures !(items[0].Inside? || items[0].Closing?)
  {
    StatusAt(items, 0);
    assert AllTexts(items)[..0] == [];
  }

  // ---------- when that happens ----------

  /** As the expression stands, a line of a quote may start a block: then a quote, a line of text and
      that quote touch in the output, and the second pass merges what the first kept apart. */
  lemma QuotesCanTouch(a: string, b: string, c: string, syn: Syntax) returns (items: seq<Part>)
    requires Clean([a, b, c]) && IsQuote(a) && IsQuote(c) && !IsQuote(b) && !IsFence(b) && b != ""
    requires syn.blockStart(c) && !syn.blockStart(b)
    ensures items != [] && Reads(items, Split(Unix(Join([a, b, c], "\n"))))
    ensures Emit(items, 0, syn) == a + Br + b + "\n" + c
    ensures QuotesTouch(Split(Emit(items, 0, syn)), false)
  {
    LinesOfThree(a, b, c);
    hide IsQuote, IsFence, Split, Unix, Join, Emit, QuotesTouch, Grammatical, AllSources, Clean;
    items := ReadThree(a, b, c);
    EmitThree(items[0], items[1], items[2], syn);
    assert items == [items[0], items[1], items[2]];
    TouchInOutput(a, b, c);
  }

  lemma LinesOfThree(a: string, b: string, c: string)
    requires Clean([a, b, c])
    ensures Split(Unix(Join([a, b, c], "\n"))) == [a, b, c] && IsLine(a) && IsLine(b) && IsLine(c)
  {
    hide Split, Unix, Join;
    JoinedLines([a, b, c]);
    assert a in [a, b, c] && b in [a, b, c] && c in [a, b, c];
  }

  lemma ReadThree(a: string, b: string, c: string) returns (items: seq<Part>)
    requires IsQuote(a) && IsQuote(c) && !IsQuote(b) && !IsFence(b)
    ensures |items| == 3 && Grammatical(items) && AllSources(items) == [a, b, c]
    ensures items[0].Quote? && items[1].Plain? && items[2].Quote?
    ensures TextOf(items[0]) == a && TextOf(items[1]) == b && TextOf(items[2]) == c
  {
    hide IsQuote, IsFence, Grammatical, AllSources;
    var x: Part, y: Part, z: Part := Quote([a]), Plain(b), Quote([c]);
    items := ThreeItems(x, y, z);
    assert [a] + [b] + [c] == [a, b, c];
  }

  lemma EmitThree(x: Part, y: Part, z: Part, syn: Syntax)
    requires x.Quote? && y.Plain? && z.Quote? && IsQuote(TextOf(x)) && TextOf(y) != ""
    requires syn.blockStart(TextOf(z)) && !syn.blockStart(TextOf(y))
    ensures Emit([x, y, z], 0, syn) == TextOf(x) + Br + TextOf(y) + "\n" + TextOf(z)
  {
    var items := [x, y, z];
    EmptyIsNoQuote();
    hide IsQuote, IsFence, TextOf;
    assert Emit(items, 2, syn) == TextOf(z);
    assert Emit(items, 1, syn) == TextOf(y) + "\n" + TextOf(z);
    TextNotFence(y);
    assert !KeepsNewline(x, y, syn);
    assert TextOf(x) + Br + (TextOf(y) + "\n" + TextOf(z)) == TextOf(x) + Br + TextOf(y) + "\n" + TextOf(z);
  }

  lemma TextNotFence(y: Part)
    requires y.Plain?
    ensures !IsFence(TextOf(y))
  {
  }

  lemma TouchInOutput(a: string, b: string, c: string)
    requires IsLine(a) && IsLine(b) && IsLine(c) && IsQuote(a) && IsQuote(c)
    ensures QuotesTouch(Split(a + Br + b + "\n" + c), false)
  {
    hide IsQuote, IsFence;
    SplitHead(a + Br + b, c);
    SplitOneLine(c);
    QuoteStays(a, b);
    var out := [a + Br + b] + [c];
    assert out[0] == a + Br + b && out[1] == c;
  }

  lemma ThreeItems(x: Part, y: Part, z: Part) returns (items: seq<Part>)
    requires x.Quote? && y.Plain? && z.Quote?
    ensures items == [x, y, z] && Grammatical(items) && AllSources(items) == Sources(x) + Sources(y) + Sources(z)
  {
    hide Sources;
    GrowItems([], x);
    assert [] + [x] == [x] && [] + Sources(x) == Sources(x);
    GrowItems([x], y);
    assert [x] + [y] == [x, y];
    GrowItems([x, y], z);
    items := [x, y] + [z];
  }

  lemma NoMark()
    ensures !IsQuote("b") && !IsFence("b")
  {
    if k :| 0 <= k <= 3 && IndentedBy("b", k, ">") {
      MarkStarts("b", k, ">");
      assert false;
    }
    if k :| 0 <= k <= 3 && IndentedBy("b", k, "```") {
      MarkStarts("b", k, "```");
      assert false;
    }
  }

  /** So for this text, say. */
  lemma {:induction false} QuotesTouchHere(syn: Syntax) returns (items: seq<Part>)
    requires syn.blockStart("> c|d") && !syn.blockStart("b")
    ensures items != [] && Reads(items, Split(Unix(Join(["> a", "b", "> c|d"], "\n"))))
    ensures QuotesTouch(Split(Emit(items, 0, syn)), false)
  {
    assert IndentedBy("> a", 0, ">") && IndentedBy("> c|d", 0, ">");
    NoMark();
    items := QuotesCanTouch("> a", "b", "> c|d", syn);
  }

  // ---------- with an anchored expression ----------

  lemma QuoteStays(line: string, more: string)
    ensures IsQuote(line + Br + more) == IsQuote(line)
  {
    if IsQuote(line) {
      MarkStays(line, Br + more, ">");
      assert line + Br + more == line + (Br + more);
    }
    var long := line + Br + more;
    if k :| 0 <= k <= 3 && IndentedBy(long, k, ">") {
      BrBreaksQuote(line, more, k);
      assert line[k..k + 1] == long[k..k + 1];
      assert forall i :: 0 <= i < k ==> line[i] == long[i];
      assert IndentedBy(line, k, ">");
    }
  }

  lemma BrBreaksQuote(line: string, more: string, k: nat)
    requires IndentedBy(line + Br + more, k, ">")
    ensures k + 1 <= |line|
  {
    var long := line + Br + more;
    assert long[|line|] == '<';
    assert long[k..k + 1][0] == long[k];
  }

  /** No line of a quote starts a block, as if the expression were anchored throughout. */
  ghost predicate Anchored(syn: Syntax) {
    forall line :: IsQuote(line) ==> !syn.blockStart(line)
  }

  /** What begins like an item is a quote only if the item is one. */
  lemma QuoteFirst(line: string, first: string)
    requires first == line || exists more :: first == line + Br + more
    ensures IsQuote(first) == IsQuote(line) && IsFence(first) == IsFence(line)
  {
    if first != line {
      var more :| first == line + Br + more;
      QuoteStays(line, more);
      FenceStays(line, more);
    }
  }

  /** A line that begins with text outside code is not followed by a quote. */
  lemma {:induction false} NoQuoteNext(items: seq<Part>, i: nat, syn: Syntax)
    requires Grammatical(items) && i < |items| && CleanItems(items) && Anchored(syn)
    requires TextOf(items[i]) != "" && !LeadsToCode(items[i])
    ensures var out := Split(Emit(items, i, syn)); |out| > 1 ==> !IsQuote(out[1])
    decreases |items| - i
  {
    hide Grammatical, IsFence, IsQuote, TextOf;
    var line := TextOf(items[i]);
    if i == |items| - 1 {
      SplitOneLine(line);
    } else {
      var next, rest := TextOf(items[i + 1]), Emit(items, i + 1, syn);
      FirstLine(items, i + 1, syn);
      QuoteFirst(next, Split(rest)[0]);
      if KeepsNewline(items[i], items[i + 1], syn) {
        SplitHead(line, rest);
        QuoteIsNoFence(next);
        EmptyIsNoQuote();
      } else {
        SplitBehind(line + Br, rest);
        StatusNextItem(items, i);
        StatusHere(items, i + 1);
        NoQuoteNext(items, i + 1, syn);
      }
    }
  }

  lemma EmptyIsNoQuote()
    ensures !IsQuote("")
  {
  }

  lemma {:induction false} OutputApart(items: seq<Part>, i: nat, syn: Syntax)
    requires Grammatical(items) && i < |items| && CleanItems(items) && Anchored(syn)
    ensures !QuotesTouch(Split(Emit(items, i, syn)), items[i].Inside? || items[i].Closing?)
    decreases |items| - i
  {
    hide Grammatical, IsFence, IsQuote, TextOf, Anchored;
    var line := TextOf(items[i]);
    var inCode := items[i].Inside? || items[i].Closing?;
    StatusHere(items, i);
    FirstApart(items, i, syn);
    if i == |items| - 1 {
      SplitOneLine(line);
    } else {
      var rest := Emit(items, i + 1, syn);
      OutputApart(items, i + 1, syn);
      StatusNextItem(items, i);
      if KeepsNewline(items[i], items[i + 1], syn) {
        SplitHead(line, rest);
        assert ([line] + Split(rest))[1..] == Split(rest);
      } else {
        SplitBehind(line + Br, rest);
        FirstNoFence(items, i, syn);
        FenceStays(line, Split(rest)[0]);
        assert ([line + Br + Split(rest)[0]] + Split(rest)[1..])[1..] == Split(rest)[1..];
      }
    }
  }

  lemma {:induction false} FirstApart(items: seq<Part>, i: nat, syn: Syntax)
    requires Grammatical(items) && i < |items| && CleanItems(items) && Anchored(syn)
    ensures var out := Split(Emit(items, i, syn));
      |out| > 1 && !(items[i].Inside? || items[i].Closing?) ==> !(IsQuote(out[0]) && IsQuote(out[1]))
  {
    hide Grammatical, IsQuote, TextOf, Anchored, Emit;
    var out, line := Split(Emit(items, i, syn)), TextOf(items[i]);
    FirstLine(items, i, syn);
    QuoteFirst(line, out[0]);
    EmptyIsNoQuote();
    QuoteIsNoFence(line);
    StatusHere(items, i);
    if IsQuote(line) && !(items[i].Inside? || items[i].Closing?) {
      NoQuoteNext(items, i, syn);
    }
  }

  /** With an anchored expression a second pass would never change anything. */
  lemma AnchoredIsStable(lines: seq<string>, first: seq<Part>, second: seq<Part>, syn: Syntax)
    requires Clean(lines) && Reads(first, lines) && PrefixOnly(syn) && Anchored(syn)
    requires first != [] && Reads(second, Split(Emit(first, 0, syn))) && second != []
    ensures Emit(second, 0, syn) == Emit(first, 0, syn)
  {
    ItemsClean(first, lines);
    StatusAtFirst(first);
    hide Emit, Grammatical, AllSources, PrefixOnly, Anchored;
    OutputApart(first, 0, syn);
    SecondPassExactly(lines, first, second, syn);
  }
}
