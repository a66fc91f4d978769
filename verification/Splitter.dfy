/** Splitting a long Markdown text into chunks that each read correctly on their own. */
module Splitter {
  import opened Options
  import opened Text

  const Ticks := "```"

  predicate IsWordChar(c: char) {
    'a' <= c <= 'z' || 'A' <= c <= 'Z' || '0' <= c <= '9' || c == '_'
  }

  /** Three backticks and a language of word characters, nothing else. */
  predicate IsFence(line: string) {
    |line| >= 3 && line[..3] == Ticks && forall i :: 3 <= i < |line| ==> IsWordChar(line[i])
  }

  predicate IsBlank(c: char) {
    c == ' ' || c == '\t' || c == '\n' || c == '\r' || c == 12 as char
  }

  /** One to six '#' and a blank. */
  predicate IsHeading(line: string) {
    exists n :: 1 <= n <= 6 && HeadingOf(line, n)
  }

  predicate HeadingOf(line: string, n: nat) {
    n < |line| && (forall i :: 0 <= i < n ==> line[i] == '#') && IsBlank(line[n])
  }

  // ---------- reading: which lines are code, and in which language ----------

  /** Outside code is None; inside, the language the fence named. */
  type Reading = Option<string>

  function Toggle(r: Reading, line: string): Reading {
    if !IsFence(line) then r else if r == None then Some(line[3..]) else None
  }

  function After(r: Reading, lines: seq<string>): Reading
    decreases |lines|
  {
    if lines == [] then r else After(Toggle(r, lines[0]), lines[1..])
  }

  function Fences(lines: seq<string>): nat {
    if lines == [] then 0 else (if IsFence(lines[0]) then 1 else 0) + Fences(lines[1..])
  }

  /** How a reader of the whole text reads at line i. */
  function At(lines: seq<string>, i: nat): Reading
    requires i <= |lines|
  {
    After(None, lines[..i])
  }

  lemma {:induction false} AfterAppend(r: Reading, a: seq<string>, b: seq<string>)
    ensures After(r, a + b) == After(After(r, a), b)
    decreases |a|
  {
    AppendUnfolds(a, b);
    if a != [] {
      AfterAppend(Toggle(r, a[0]), a[1..], b);
    }
  }

  lemma AtNext(lines: seq<string>, i: nat)
    requires i < |lines|
    ensures At(lines, i + 1) == Toggle(At(lines, i), lines[i])
  {
    assert lines[..i + 1] == lines[..i] + [lines[i]];
    AfterAppend(None, lines[..i], [lines[i]]);
  }

  /** A text ends outside code exactly when it has an even number of fences. */
  lemma {:induction false} EvenFences(r: Reading, lines: seq<string>)
    ensures After(r, lines) == None <==> (Fences(lines) % 2 == 0) == (r == None)
    decreases |lines|
  {
    if lines != [] {
      EvenFences(Toggle(r, lines[0]), lines[1..]);
    }
  }

  lemma {:induction false} LangIsWord(r: Reading, lines: seq<string>)
    requires r.Some? ==> forall c :: c in r.value ==> IsWordChar(c)
    ensures var r' := After(r, lines); r'.Some? ==> forall c :: c in r'.value ==> IsWordChar(c)
    decreases |lines|
  {
    if lines != [] {
      LangIsWord(Toggle(r, lines[0]), lines[1..]);
    }
  }

  // ---------- what the chunks are ----------

  function Reopen(r: Reading): seq<string> {
    if r == None then [] else [Ticks + r.value]
  }

  function Close(r: Reading): seq<string> {
    if r == None then [] else [Ticks]
  }

  /** The lines of a chunk made from lines a to b: itself, plus a fence reopened and one closed when
      the cut falls inside code. */
  function Piece(lines: seq<string>, a: nat, b: nat): seq<string>
    requires a <= b <= |lines|
  {
    Reopen(At(lines, a)) + lines[a..b] + Close(At(lines, b))
  }

  predicate Increasing(cuts: seq<nat>, n: nat) {
    && (forall j :: 0 <= j < |cuts| ==> cuts[j] <= n)
    && forall j :: 0 < j < |cuts| ==> cuts[j - 1] < cuts[j]
  }

  function Chunks(lines: seq<string>, cuts: seq<nat>): (out: seq<string>)
    requires |cuts| > 0 && Increasing(cuts, |lines|)
    ensures |out| == |cuts| - 1
  {
    seq(|cuts| - 1, j requires 0 <= j < |cuts| - 1 => Join(Piece(lines, cuts[j], cuts[j + 1]), "\n"))
  }

  /** Total length of lines with the newline after each. */
  function Weight(lines: seq<string>): nat {
    if lines == [] then 0 else |lines[0]| + 1 + Weight(lines[1..])
  }

  /** What the splitter counts as buffered from line a to line i. A chunk that opens outside code
      is counted one too long, except the first: the newline is counted before the flush. */
  function Held(lines: seq<string>, a: nat, i: nat): int
    requires a <= i <= |lines|
  {
    if At(lines, a).Some? then |Reopen(At(lines, a))[0]| + Weight(lines[a..i])
    else Weight(lines[a..i]) - if a == 0 && i > 0 then 1 else 0
  }

  /** Whether the chunk begun at line a ends before line i. */
  predicate CutBefore(lines: seq<string>, limit: int, a: nat, i: nat)
    requires a < i < |lines|
  {
    || Held(lines, a, i) + |lines[i]| + 1 > limit
    || (IsHeading(lines[i]) && 4 * Held(lines, a, i) > 3 * limit)
  }

  /** Between two cuts nothing asks for one, and there is one wherever one is asked for. */
  ghost predicate Greedy(lines: seq<string>, limit: int, cuts: seq<nat>)
    requires Increasing(cuts, |lines|)
  {
    forall j :: 0 < j < |cuts| ==> GreedyAt(lines, limit, cuts[j - 1], cuts[j])
  }

  ghost predicate GreedyAt(lines: seq<string>, limit: int, a: nat, b: nat)
    requires a < b <= |lines|
  {
    && Uncut(lines, limit, a, b)
    && (b < |lines| ==> CutBefore(lines, limit, a, b))
  }

  ghost predicate Cutting(lines: seq<string>, limit: int, cuts: seq<nat>) {
    && |cuts| >= 2 && cuts[0] == 0 && cuts[|cuts| - 1] == |lines|
    && Increasing(cuts, |lines|) && Greedy(lines, limit, cuts)
  }

  /** The variables of the loop: chunks made, lines buffered, their counted length, and the reading
      at the next line. */
  datatype Progress = Progress(out: seq<string>, buf: seq<string>, bufLen: int, fenceLang: Reading)

  method SplitWithCodeFences(text: string, limit: int) returns (out: seq<string>, ghost cuts: seq<nat>)
    ensures limit <= 0 || |text| <= limit ==> out == [text]
    ensures limit > 0 && |text| > limit ==>
      Cutting(Split(text), limit, cuts) && out == Chunks(Split(text), cuts)
  {
    if limit <= 0 || |text| <= limit {
      return [text], [0];
    }
    out, cuts := SplitLongText(Split(text), limit);
  }

  method SplitLongText(lines: seq<string>, limit: int) returns (out: seq<string>, ghost cuts: seq<nat>)
    requires lines != []
    ensures Cutting(lines, limit, cuts) && out == Chunks(lines, cuts)
  {
    hide *;
    var p := Progress([], [], 0, None);
    cuts := [0];
    NothingCut(lines, limit);
    for i := 0 to |lines|
      invariant CutUpTo(lines, limit, cuts, i, p)
    {
      p, cuts := AddLine(lines[i], limit, p, lines, cuts, i);
    }
    LastLine(lines, limit, cuts, p);
    p := Flush(p);
    out, cuts := p.out, cuts + [|lines|];
  }

  /** The loop's body, and the record of where chunks begin. */
  method AddLine(line: string, limit: int, p: Progress, ghost lines: seq<string>, ghost cuts: seq<nat>, ghost i: nat)
    returns (p': Progress, ghost cuts': seq<nat>)
    requires CutUpTo(lines, limit, cuts, i, p) && i < |lines| && line == lines[i]
    ensures CutUpTo(lines, limit, cuts', i + 1, p')
  {
    hide CutUpTo, Flushed, IsHeading, IsFence;
    cuts' := cuts;
    var lineLen := if |p.buf| > 0 then |line| + 1 else |line|;
    var nearFull := 4 * p.bufLen > 3 * limit;
    p' := p;
    NextLine(lines, limit, cuts, i, p);
    if p.bufLen + lineLen > limit || (IsHeading(line) && nearFull && |p.buf| > 0) {
      p' := Flush(p);
      if |p.buf| > 0 {
        cuts' := cuts + [i];
      }
    }
    p' := p'.(buf := p'.buf + [line], bufLen := p'.bufLen + lineLen);
    if IsFence(line) {
      p' := p'.(fenceLang := Toggle(p'.fenceLang, line));
    }
  }

  method Flush(p: Progress) returns (p': Progress)
    ensures p' == Flushed(p)
  {
    hide IsFence;
    if |p.buf| == 0 {
      return p;
    }
    var chunk := Join(p.buf, "\n");
    if p.fenceLang != None {
      chunk := chunk + "\n" + Ticks;
      JoinAppend(p.buf, [Ticks], "\n");
    }
    assert p.buf + [] == p.buf;
    p' := p.(out := p.out + [chunk], buf := [], bufLen := 0);
    if p.fenceLang != None {
      var reopen := Ticks + p.fenceLang.value;
      p' := p'.(buf := p'.buf + [reopen], bufLen := |reopen|);
    }
  }

  /** A flush closes the chunk's code, if any, and opens it again in the next; an empty buffer
      stays as it is. */
  function Flushed(p: Progress): Progress {
    if p.buf == [] then p
    else p.(out := p.out + [Join(p.buf + Close(p.fenceLang), "\n")], buf := Reopen(p.fenceLang), bufLen := ReopenLength(p.fenceLang))
  }

  function Taken(p: Progress, line: string, lineLen: nat): Progress {
    Progress(p.out, p.buf + [line], p.bufLen + lineLen, Toggle(p.fenceLang, line))
  }

  function ReopenLength(r: Reading): nat {
    if r == None then 0 else |Reopen(r)[0]|
  }

  ghost predicate Uncut(lines: seq<string>, limit: int, a: nat, b: nat)
    requires b <= |lines|
  {
    forall i :: a < i < b ==> !CutBefore(lines, limit, a, i)
  }

  /** By the time line i is reached, `cuts` are the lines where chunks begin, the last of them still
      open, and the loop's variables are what the cuts say. */
  ghost predicate CutUpTo(lines: seq<string>, limit: int, cuts: seq<nat>, i: nat, p: Progress) {
    |cuts| > 0 && OpenAt(lines, limit, cuts, cuts[|cuts| - 1], i, p) && (cuts[|cuts| - 1] < i || i == 0)
  }

  ghost predicate OpenAt(lines: seq<string>, limit: int, cuts: seq<nat>, a: nat, i: nat, p: Progress) {
    && a <= i <= |lines| && |cuts| > 0 && cuts[0] == 0 && cuts[|cuts| - 1] == a
    && Increasing(cuts, |lines|) && Greedy(lines, limit, cuts) && Uncut(lines, limit, a, i)
    && p == Progress(Chunks(lines, cuts), Reopen(At(lines, a)) + lines[a..i], Held(lines, a, i), At(lines, i))
  }

  lemma NothingCut(lines: seq<string>, limit: int)
    ensures CutUpTo(lines, limit, [0], 0, Progress([], [], 0, None))
  {
  }

  lemma NextLine(lines: seq<string>, limit: int, cuts: seq<nat>, i: nat, p: Progress)
    requires CutUpTo(lines, limit, cuts, i, p) && i < |lines|
    ensures var line := lines[i];
      var lineLen := if |p.buf| > 0 then |line| + 1 else |line|;
      var cut := p.bufLen + lineLen > limit || (IsHeading(line) && 4 * p.bufLen > 3 * limit && |p.buf| > 0);
      if cut then CutUpTo(lines, limit, if |p.buf| > 0 then cuts + [i] else cuts, i + 1, Taken(Flushed(p), line, lineLen))
      else CutUpTo(lines, limit, cuts, i + 1, Taken(p, line, lineLen))
  {
    var a := cuts[|cuts| - 1];
    BufferOpen(lines, limit, cuts, i, p);
    hide CutBefore, Held, At, IsHeading, Close, Chunks, Greedy, Increasing, Reopen, Toggle, ReopenLength;
    if i > 0 && CutBefore(lines, limit, a, i) {
      CutHere(lines, limit, cuts, i, p);
      TakeLine(lines, limit, cuts + [i], i, i, Flushed(p));
    } else {
      TakeLine(lines, limit, cuts, a, i, p);
    }
  }

  /** Only before the first line is the buffer empty. */
  lemma {:induction false} BufferOpen(lines: seq<string>, limit: int, cuts: seq<nat>, i: nat, p: Progress)
    requires CutUpTo(lines, limit, cuts, i, p)
    ensures p.buf == [] <==> i == 0
    ensures 0 < i < |lines| ==>
      (CutBefore(lines, limit, cuts[|cuts| - 1], i) <==>
         p.bufLen + |lines[i]| + 1 > limit || (IsHeading(lines[i]) && 4 * p.bufLen > 3 * limit))
  {
    assert At(lines, 0) == None;
  }

  lemma {:induction false} CutHere(lines: seq<string>, limit: int, cuts: seq<nat>, i: nat, p: Progress)
    requires CutUpTo(lines, limit, cuts, i, p) && p.buf != []
    requires 0 < i < |lines| && CutBefore(lines, limit, cuts[|cuts| - 1], i)
    ensures OpenAt(lines, limit, cuts + [i], i, i, Flushed(p))
  {
    hide CutBefore, Close, Held, At;
    AddChunk(lines, limit, cuts, i);
    HeldNext(lines, i, i);
    assert lines[i..i] == [];
  }

  lemma {:induction false} TakeLine(lines: seq<string>, limit: int, cuts: seq<nat>, a: nat, i: nat, p: Progress)
    requires OpenAt(lines, limit, cuts, a, i, p)
    requires i < |lines| && (a < i ==> !CutBefore(lines, limit, a, i))
    ensures OpenAt(lines, limit, cuts, a, i + 1, Taken(p, lines[i], if i == 0 then |lines[i]| else |lines[i]| + 1))
  {
    hide CutBefore, Held, At, Chunks, Greedy, Increasing;
    HeldNext(lines, a, i);
    AtNext(lines, i);
  }

  lemma {:induction false} LastLine(lines: seq<string>, limit: int, cuts: seq<nat>, p: Progress)
    requires CutUpTo(lines, limit, cuts, |lines|, p) && lines != []
    ensures Cutting(lines, limit, cuts + [|lines|])
    ensures Flushed(p).out == Chunks(lines, cuts + [|lines|])
  {
    BufferOpen(lines, limit, cuts, |lines|, p);
    hide CutBefore, Close, Held, At;
    AddChunk(lines, limit, cuts, |lines|);
  }

  lemma {:induction false} AddChunk(lines: seq<string>, limit: int, cuts: seq<nat>, b: nat)
    requires |cuts| > 0 && Increasing(cuts, |lines|) && Greedy(lines, limit, cuts)
    requires cuts[|cuts| - 1] < b <= |lines| && GreedyAt(lines, limit, cuts[|cuts| - 1], b)
    ensures Increasing(cuts + [b], |lines|) && Greedy(lines, limit, cuts + [b])
    ensures Chunks(lines, cuts + [b]) == Chunks(lines, cuts) + [Join(Piece(lines, cuts[|cuts| - 1], b), "\n")]
  {
    hide Piece, GreedyAt;
  }

  lemma HeldNext(lines: seq<string>, a: nat, i: nat)
    requires a <= i < |lines|
    ensures lines[a..i + 1] == lines[a..i] + [lines[i]]
    ensures Held(lines, a, i + 1) == Held(lines, a, i) + |lines[i]| + if i == 0 && a == 0 then 0 else 1
    ensures Held(lines, a, a) == ReopenLength(At(lines, a))
  {
    assert lines[a..i + 1] == lines[a..i] + [lines[i]];
    WeightAppend(lines[a..i], [lines[i]]);
    assert At(lines, 0) == None;
    assert lines[a..a] == [];
    assert Weight([lines[i]]) == |lines[i]| + 1;
  }

  lemma {:induction false} WeightAppend(a: seq<string>, b: seq<string>)
    ensures Weight(a + b) == Weight(a) + Weight(b)
  {
    AppendUnfolds(a, b);
    if a != [] {
      WeightAppend(a[1..], b);
    }
  }

  // ---------- meaning ----------

  lemma PieceLines(lines: seq<string>, a: nat, b: nat)
    requires a < b <= |lines| && forall line :: line in lines ==> IsLine(line)
    ensures Split(Join(Piece(lines, a, b), "\n")) == Piece(lines, a, b)
  {
    LangIsWord(None, lines[..a]);
    SplitOfJoin(Piece(lines, a, b));
  }

  lemma ReopenRestores(r: Reading)
    requires r.Some? ==> forall c :: c in r.value ==> IsWordChar(c)
    ensures After(None, Reopen(r)) == r && After(r, Close(r)) == None
  {
    if r.Some? {
      var fence := Ticks + r.value;
      assert fence[..3] == Ticks && fence[3..] == r.value;
      AfterAppend(None, [], [fence]);
      assert IsFence(fence) && IsFence(Ticks);
      assert Ticks[..3] == Ticks;
    }
  }

  /** A chunk read on its own: it ends outside code, with an even number of fences, and each of its
      lines of the text, from a to b, is read in it as it is read in the whole text: inside or
      outside code, and in the same language. */
  ghost predicate ReadsAlone(lines: seq<string>, chunk: seq<string>, a: nat, b: nat)
    requires a <= b <= |lines|
  {
    var shift := |Reopen(At(lines, a))|;
    && At(chunk, |chunk|) == None && Fences(chunk) % 2 == 0
    && |chunk| >= shift + b - a
    && forall i :: a <= i < b ==>
         chunk[shift + i - a] == lines[i] && At(chunk, shift + i - a) == At(lines, i)
  }

  lemma ChunkReadsAlone(lines: seq<string>, a: nat, b: nat)
    requires a < b <= |lines| && forall line :: line in lines ==> IsLine(line)
    ensures ReadsAlone(lines, Split(Join(Piece(lines, a, b), "\n")), a, b)
  {
    hide After, IsFence, Split, Join, Fences;
    var chunk := Piece(lines, a, b);
    PieceLines(lines, a, b);
    forall i | a <= i < b
      ensures At(chunk, |Reopen(At(lines, a))| + i - a) == At(lines, i)
    {
      LineReadsAlone(lines, a, b, i);
    }
    EndsOutside(lines, a, b);
    EvenFences(None, chunk);
  }

  lemma LineReadsAlone(lines: seq<string>, a: nat, b: nat, i: nat)
    requires a <= i <= b <= |lines|
    ensures At(Piece(lines, a, b), |Reopen(At(lines, a))| + i - a) == At(lines, i)
  {
    var r, chunk := At(lines, a), Piece(lines, a, b);
    LangIsWord(None, lines[..a]);
    ReopenRestores(r);
    hide After, Reopen, Close;
    PrefixOfPiece(Reopen(r), lines, a, b, Close(At(lines, b)), i);
    AfterAppend(None, Reopen(r), lines[a..i]);
    assert lines[..i] == lines[..a] + lines[a..i];
    AfterAppend(None, lines[..a], lines[a..i]);
  }

  lemma PrefixOfPiece(front: seq<string>, lines: seq<string>, a: nat, b: nat, back: seq<string>, i: nat)
    requires a <= i <= b <= |lines|
    ensures (front + lines[a..b] + back)[..|front| + i - a] == front + lines[a..i]
  {
    var n := |front| + i - a;
    assert (front + lines[a..b] + back)[..n] == (front + lines[a..b])[..n];
    assert lines[a..b][..i - a] == lines[a..i];
  }

  lemma EndsOutside(lines: seq<string>, a: nat, b: nat)
    requires a <= b <= |lines|
    ensures At(Piece(lines, a, b), |Piece(lines, a, b)|) == None == After(None, Piece(lines, a, b))
  {
    var r, chunk := At(lines, a), Piece(lines, a, b);
    LineReadsAlone(lines, a, b, b);
    LangIsWord(None, lines[..b]);
    ReopenRestores(At(lines, b));
    hide After, Reopen, Close;
    var body := Reopen(r) + lines[a..b];
    assert chunk == body + Close(At(lines, b));
    assert chunk[..|body|] == body;
    AfterAppend(None, body, Close(At(lines, b)));
    assert chunk[..|chunk|] == chunk;
  }

  /** A chunk's lines without the ones the splitter added. */
  function Unwrapped(chunk: string, reopened: bool, closed: bool): seq<string> {
    var lines := Split(chunk);
    var a, b := if reopened then 1 else 0, |lines| - if closed then 1 else 0;
    if a <= b then lines[a..b] else []
  }

  /** The lines held by the first n chunks; `inCode[j]` says whether chunk j begins inside code, and
      chunk j - 1 ends there. */
  function Recover(chunks: seq<string>, inCode: seq<bool>, n: nat): seq<string>
    requires n <= |chunks| && |inCode| == |chunks| + 1
  {
    if n == 0 then [] else Recover(chunks, inCode, n - 1) + Unwrapped(chunks[n - 1], inCode[n - 1], inCode[n])
  }

  function CutsInCode(lines: seq<string>, cuts: seq<nat>): (inCode: seq<bool>)
    requires Increasing(cuts, |lines|)
    ensures |inCode| == |cuts|
  {
    seq(|cuts|, j requires 0 <= j < |cuts| => At(lines, cuts[j]).Some?)
  }

  lemma UnwrappedPiece(lines: seq<string>, a: nat, b: nat)
    requires a < b <= |lines| && forall line :: line in lines ==> IsLine(line)
    ensures Unwrapped(Join(Piece(lines, a, b), "\n"), At(lines, a).Some?, At(lines, b).Some?) == lines[a..b]
  {
    PieceLines(lines, a, b);
  }

  lemma ChunkUnwraps(lines: seq<string>, cuts: seq<nat>, j: nat)
    requires j + 1 < |cuts| && Increasing(cuts, |lines|) && forall line :: line in lines ==> IsLine(line)
    ensures cuts[j] < cuts[j + 1] <= |lines|
    ensures Unwrapped(Chunks(lines, cuts)[j], CutsInCode(lines, cuts)[j], CutsInCode(lines, cuts)[j + 1])
         == lines[cuts[j]..cuts[j + 1]]
  {
    assert cuts[j + 1 - 1] < cuts[j + 1];
    UnwrappedPiece(lines, cuts[j], cuts[j + 1]);
    hide Unwrapped, Piece, At, Join;
  }

  lemma {:induction false} RecoverPrefix(lines: seq<string>, cuts: seq<nat>, j: nat)
    requires j < |cuts| && Increasing(cuts, |lines|) && cuts[0] == 0
    requires forall line :: line in lines ==> IsLine(line)
    ensures cuts[j] <= |lines|
    ensures Recover(Chunks(lines, cuts), CutsInCode(lines, cuts), j) == lines[..cuts[j]]
  {
    hide Unwrapped, Chunks, CutsInCode, IsLine;
    if j > 0 {
      RecoverPrefix(lines, cuts, j - 1);
      ChunkUnwraps(lines, cuts, j - 1);
      hide Increasing;
      var a, b := cuts[j - 1], cuts[j];
      assert lines[..b] == lines[..a] + lines[a..b];
    }
  }

  lemma ChunksReadAlone(lines: seq<string>, cuts: seq<nat>)
    requires |cuts| > 0 && Increasing(cuts, |lines|) && forall line :: line in lines ==> IsLine(line)
    ensures forall j :: 0 <= j < |cuts| - 1 ==>
      cuts[j] < cuts[j + 1] && ReadsAlone(lines, Split(Chunks(lines, cuts)[j]), cuts[j], cuts[j + 1])
  {
    hide ReadsAlone, Piece;
    forall j | 0 <= j < |cuts| - 1
      ensures cuts[j] < cuts[j + 1] && ReadsAlone(lines, Split(Chunks(lines, cuts)[j]), cuts[j], cuts[j + 1])
    {
      ChunkReadsAlone(lines, cuts[j], cuts[j + 1]);
    }
  }

  /** When the text is split: no chunk holds only added lines, every chunk reads alone as it does in
      the whole text, and dropping the added fences from the chunks and joining the rest gives the
      text back. */
  lemma {:induction false} SplitKeepsMeaning(text: string, limit: int, cuts: seq<nat>)
    requires Cutting(Split(text), limit, cuts)
    ensures var lines := Split(text);
      && Join(Recover(Chunks(lines, cuts), CutsInCode(lines, cuts), |cuts| - 1), "\n") == text
      && forall j :: 0 <= j < |cuts| - 1 ==>
           cuts[j] < cuts[j + 1] && ReadsAlone(lines, Split(Chunks(lines, cuts)[j]), cuts[j], cuts[j + 1])
  {
    var lines := Split(text);
    hide ReadsAlone, Recover, CutsInCode, Split, Join, Greedy;
    SplitLines(text);
    JoinOfSplit(text);
    RecoverPrefix(lines, cuts, |cuts| - 1);
    assert lines[..|lines|] == lines;
    ChunksReadAlone(lines, cuts);
  }

  // ---------- what a fence and a heading are ----------

  lemma FenceMeaning(line: string)
    ensures IsFence(line) <==> exists lang ::
      line == "```" + lang && forall c :: c in lang ==> 'a' <= c <= 'z' || 'A' <= c <= 'Z' || '0' <= c <= '9' || c == '_'
  {
    if IsFence(line) {
      var lang := line[3..];
      assert line == "```" + lang;
      assert forall c :: c in lang ==> exists i :: 3 <= i < |line| && line[i] == c;
    }
    if lang :| line == "```" + lang && forall c :: c in lang ==> 'a' <= c <= 'z' || 'A' <= c <= 'Z' || '0' <= c <= '9' || c == '_' {
      assert forall i :: 3 <= i < |line| ==> line[i] in lang;
    }
  }

  ghost predicate Heading(line: string, marks: string, gap: char, title: string) {
    && 1 <= |marks| <= 6 && (forall c :: c in marks ==> c == '#') && gap in [' ', '\t', '\n', '\r', 12 as char]
    && line == marks + [gap] + title
  }

  lemma HeadingMeaning(line: string)
    ensures IsHeading(line) <==> exists marks, gap, title :: Heading(line, marks, gap, title)
  {
    if IsHeading(line) {
      var n :| 1 <= n <= 6 && HeadingOf(line, n);
      assert line == line[..n] + [line[n]] + line[n + 1..];
      assert Heading(line, line[..n], line[n], line[n + 1..]);
    }
    if marks, gap, title :| Heading(line, marks, gap, title) {
      assert forall i :: 0 <= i < |marks| ==> line[i] == marks[i] && marks[i] in marks;
      assert line[|marks|] == gap;
      assert HeadingOf(line, |marks|);
    }
  }

  // ---------- where the text is cut ----------

  /** A chunk begun at line a, as far as line i. */
  function Begun(lines: seq<string>, a: nat, i: nat): string
    requires a <= i <= |lines|
  {
    Join(Reopen(At(lines, a)) + lines[a..i], "\n")
  }

  lemma BegunSize(lines: seq<string>, a: nat, i: nat)
    requires a < i <= |lines|
    ensures Held(lines, a, i) - 1 <= |Begun(lines, a, i)| <= Held(lines, a, i)
    ensures |Begun(lines, a, i)| < Held(lines, a, i) <==> At(lines, a) == None && a > 0
  {
    var r := Reopen(At(lines, a));
    JoinWeight(r + lines[a..i]);
    WeightAppend(r, lines[a..i]);
    assert At(lines, 0) == None;
    assert r != [] ==> Weight(r) == |r[0]| + 1;
  }

  /** Line i may stay in the chunk begun at line a: with it the chunk is within the limit, and it is no
      heading after three quarters of it. */
  ghost predicate MayStay(lines: seq<string>, limit: int, a: nat, i: nat)
    requires a < i < |lines|
  {
    |Begun(lines, a, i + 1)| <= limit && (IsHeading(lines[i]) ==> 4 * |Begun(lines, a, i)| <= 3 * limit)
  }

  /** Line i may begin the next chunk: it would have filled this one, or it is a heading after three
      quarters. */
  ghost predicate MayLeave(lines: seq<string>, limit: int, a: nat, i: nat)
    requires a < i < |lines|
  {
    |Begun(lines, a, i + 1)| >= limit || (IsHeading(lines[i]) && 4 * (|Begun(lines, a, i)| + 1) > 3 * limit)
  }

  lemma CutOrStay(lines: seq<string>, limit: int, a: nat, i: nat)
    requires a < i < |lines|
    ensures if CutBefore(lines, limit, a, i) then MayLeave(lines, limit, a, i) else MayStay(lines, limit, a, i)
  {
    BegunSize(lines, a, i);
    BegunSize(lines, a, i + 1);
    HeldNext(lines, a, i);
    hide Begun, Held, At, IsHeading;
  }

  /** Every cut has its reason, and no line stays in a chunk against one. */
  lemma {:induction false} CutReasons(lines: seq<string>, limit: int, cuts: seq<nat>, j: nat)
    requires Cutting(lines, limit, cuts) && j + 1 < |cuts|
    ensures cuts[j] < cuts[j + 1] <= |lines|
    ensures forall i :: cuts[j] < i < cuts[j + 1] ==> MayStay(lines, limit, cuts[j], i)
    ensures cuts[j + 1] < |lines| ==> MayLeave(lines, limit, cuts[j], cuts[j + 1])
  {
    var a, b := cuts[j], cuts[j + 1];
    assert cuts[j + 1 - 1] < cuts[j + 1];
    assert GreedyAt(lines, limit, cuts[j + 1 - 1], b);
    hide MayStay, MayLeave, CutBefore;
    forall i | a < i < b
      ensures MayStay(lines, limit, a, i)
    {
      CutOrStay(lines, limit, a, i);
    }
    if b < |lines| {
      CutOrStay(lines, limit, a, b);
    }
  }

  // ---------- size ----------

  lemma {:induction false} JoinWeight(lines: seq<string>)
    requires lines != []
    ensures |Join(lines, "\n")| == Weight(lines) - 1
  {
    if |lines| > 1 {
      JoinWeight(lines[1..]);
    }
  }

  /** A chunk exceeds the limit only by the fence closed after it, unless it holds one line. */
  lemma ChunkSize(lines: seq<string>, limit: int, a: nat, b: nat)
    requires a < b <= |lines| && Uncut(lines, limit, a, b)
    ensures var size := |Join(Piece(lines, a, b), "\n")|;
      var closing := if At(lines, b) == None then 0 else 4;
      var reopening := if At(lines, a) == None then 0 else |At(lines, a).value| + 4;
      && (b > a + 1 ==> size <= limit + closing)
      && (b == a + 1 ==> size == reopening + |lines[a]| + closing)
  {
    var r, e := Reopen(At(lines, a)), Close(At(lines, b));
    JoinWeight(Piece(lines, a, b));
    WeightAppend(r + lines[a..b], e);
    WeightAppend(r, lines[a..b]);
    HeldNext(lines, a, b - 1);
    if b == a + 1 {
      WeightAppend([], [lines[a]]);
      assert lines[a..b] == [lines[a]];
    } else {
      assert !CutBefore(lines, limit, a, b - 1);
    }
    assert e != [] ==> Weight(e) == 4;
    assert r != [] ==> Weight(r) == |r[0]| + 1;
  }

  /** So every chunk stays within the limit, or the longest line with the longest fence reopened
      before it, and four characters. */
  lemma SplitSize(text: string, limit: int, cuts: seq<nat>, longestLine: nat, longestLang: nat)
    requires Cutting(Split(text), limit, cuts)
    requires forall line :: line in Split(text) ==> |line| <= longestLine && (IsFence(line) ==> |line| - 3 <= longestLang)
    ensures forall j :: 0 <= j < |cuts| - 1 ==>
      var most := 3 + longestLang + 1 + longestLine;
      |Chunks(Split(text), cuts)[j]| <= (if limit > most then limit else most) + 4
  {
    var lines := Split(text);
    forall j | 0 <= j < |cuts| - 1
      ensures |Chunks(lines, cuts)[j]| <= (if limit > 3 + longestLang + 1 + longestLine then limit else 3 + longestLang + 1 + longestLine) + 4
    {
      var a, b := cuts[j], cuts[j + 1];
      assert GreedyAt(lines, limit, a, b);
      ChunkSize(lines, limit, a, b);
      LangBound(None, lines[..a], longestLang);
      assert lines[a] in lines;
    }
  }

  lemma {:induction false} LangBound(r: Reading, lines: seq<string>, most: nat)
    requires r.Some? ==> |r.value| <= most
    requires forall line :: line in lines ==> IsFence(line) ==> |line| - 3 <= most
    ensures var r' := After(r, lines); r'.Some? ==> |r'.value| <= most
    decreases |lines|
  {
    if lines != [] {
      LangBound(Toggle(r, lines[0]), lines[1..], most);
    }
  }
}
