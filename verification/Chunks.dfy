/** Sending a long text: the first runes go into the card, the rest follows in chunks. One char is
    one rune here. */
module Chunks {
  import opened Options
  import opened Text
  import Splitter

  const MaxContent := 20000

  function Concat(parts: seq<string>): string {
    if parts == [] then "" else parts[0] + Concat(parts[1..])
  }

  predicate HasFence(s: string) {
    exists i :: 0 <= i <= |s| - 3 && FenceAt(s, i)
  }

  predicate FenceAt(s: string, i: nat) {
    i + 3 <= |s| && s[i..i + 3] == Splitter.Ticks
  }

  lemma FenceMeaning(s: string)
    ensures HasFence(s) <==> exists before, after :: s == before + "```" + after
  {
    if HasFence(s) {
      var i :| 0 <= i <= |s| - 3 && FenceAt(s, i);
      assert s == s[..i] + "```" + s[i + 3..];
    }
    if before, after :| s == before + "```" + after {
      assert s[|before|..|before| + 3] == "```";
      assert FenceAt(s, |before|);
    }
  }

  /** Where the newline search stops: after the last newline from limit/2 to limit, or at the limit. */
  predicate CutsAt(s: string, limit: nat, cut: nat)
    requires 0 < limit < |s|
  {
    if exists i :: limit / 2 <= i <= limit && s[i] == '\n' then
      && limit / 2 < cut <= limit + 1 && s[cut - 1] == '\n'
      && forall i :: cut <= i <= limit ==> s[i] != '\n'
    else cut == limit
  }

  /** A text cut into chunks, each cut where CutsAt says, the last one no longer than the limit. */
  ghost predicate Cut(s: string, limit: nat, chunks: seq<string>)
    requires limit > 0
    decreases |chunks|
  {
    if s == "" then chunks == []
    else if |s| <= limit then chunks == [s]
    else
      && chunks != [] && |chunks[0]| > 0 && chunks[0] <= s
      && CutsAt(s, limit, |chunks[0]|)
      && Cut(s[|chunks[0]|..], limit, chunks[1..])
  }

  method ChunkText(s: string, limit: int) returns (chunks: seq<string>, ghost cuts: seq<nat>)
    ensures limit <= 0 || |s| <= limit ==> chunks == [s]
    ensures 0 < limit < |s| && !HasFence(s) ==> Cut(s, limit, chunks)
    ensures 0 < limit < |s| && HasFence(s) ==>
      Splitter.Cutting(Split(s), limit, cuts) && chunks == Splitter.Chunks(Split(s), cuts)
  {
    cuts := [0];
    if limit <= 0 || |s| <= limit {
      return [s], cuts;
    }
    if HasFence(s) {
      chunks, cuts := Splitter.SplitWithCodeFences(s, limit);
    } else {
      chunks := ChunkRunes(s, limit);
    }
  }

  method ChunkRunes(s: string, limit: nat) returns (chunks: seq<string>)
    requires limit > 0
    ensures Cut(s, limit, chunks)
  {
    hide Cut, CutSoFar, CutsAt;
    var runes := s;
    chunks := [];
    NothingCut(s, limit);
    while |runes| > 0
      invariant CutSoFar(s, limit, chunks, runes)
      decreases |runes|
    {
      if |runes| <= limit {
        CutShort(s, limit, chunks, runes);
        chunks := chunks + [runes];
        return;
      }
      var cut := FindCut(runes, limit);
      CutNext(s, limit, chunks, runes, cut);
      chunks := chunks + [runes[..cut]];
      runes := runes[cut..];
    }
    AllCut(s, limit, chunks, runes);
  }

  /** Whatever way the runes left are cut, the chunks so far and those are a cut of the text. */
  ghost predicate CutSoFar(s: string, limit: nat, chunks: seq<string>, runes: string)
    requires limit > 0
  {
    forall rest :: Cut(runes, limit, rest) ==> Cut(s, limit, chunks + rest)
  }

  lemma NothingCut(s: string, limit: nat)
    requires limit > 0
    ensures CutSoFar(s, limit, [], s)
  {
    forall rest | Cut(s, limit, rest)
      ensures Cut(s, limit, [] + rest)
    {
      assert [] + rest == rest;
    }
  }

  lemma CutNext(s: string, limit: nat, chunks: seq<string>, runes: string, cut: nat)
    requires 0 < limit < |runes| && 0 < cut <= |runes| && CutsAt(runes, limit, cut)
    requires CutSoFar(s, limit, chunks, runes)
    ensures CutSoFar(s, limit, chunks + [runes[..cut]], runes[cut..])
  {
    hide CutsAt;
    forall rest | Cut(runes[cut..], limit, rest)
      ensures Cut(s, limit, chunks + [runes[..cut]] + rest)
    {
      CutFront(runes, limit, cut, rest);
      assert chunks + ([runes[..cut]] + rest) == chunks + [runes[..cut]] + rest;
    }
  }

  lemma CutShort(s: string, limit: nat, chunks: seq<string>, runes: string)
    requires 0 < |runes| <= limit && CutSoFar(s, limit, chunks, runes)
    ensures Cut(s, limit, chunks + [runes])
  {
    assert Cut(runes, limit, [runes]);
  }

  lemma AllCut(s: string, limit: nat, chunks: seq<string>, runes: string)
    requires limit > 0 && runes == "" && CutSoFar(s, limit, chunks, runes)
    ensures Cut(s, limit, chunks)
  {
    assert Cut(runes, limit, []);
    assert chunks + [] == chunks;
  }

  lemma CutFront(s: string, limit: nat, cut: nat, rest: seq<string>)
    requires 0 < limit < |s| && 0 < cut <= |s| && CutsAt(s, limit, cut) && Cut(s[cut..], limit, rest)
    ensures Cut(s, limit, [s[..cut]] + rest)
  {
    assert ([s[..cut]] + rest)[1..] == rest;
  }

  method FindCut(runes: string, limit: nat) returns (cut: int)
    requires 0 < limit < |runes|
    ensures 0 < cut <= |runes| && CutsAt(runes, limit, cut)
  {
    cut := -1;
    var i := limit;
    while i >= limit / 2
      invariant limit / 2 - 1 <= i <= limit && cut == -1
      invariant forall k :: i < k <= limit ==> runes[k] != '\n'
    {
      if runes[i] == '\n' {
        cut := i + 1;
        break;
      }
      i := i - 1;
    }
    if cut <= 0 {
      cut := limit;
    }
  }

  /** The first chunk of a text over the limit ends behind the last newline there is from half the
      limit on, or, if there is none, at the limit. */
  lemma PrefersNewline(s: string, limit: nat, chunks: seq<string>)
    requires 0 < limit < |s| && Cut(s, limit, chunks)
    ensures 0 < |chunks[0]| <= |s| && chunks[0] == s[..|chunks[0]|]
    ensures '\n' in s[limit / 2..limit + 1] ==> s[|chunks[0]| - 1] == '\n' && '\n' !in s[|chunks[0]|..limit + 1]
    ensures '\n' !in s[limit / 2..limit + 1] ==> |chunks[0]| == limit
  {
    var low := limit / 2;
    if '\n' in s[low..limit + 1] {
      var k :| 0 <= k < |s[low..limit + 1]| && s[low..limit + 1][k] == '\n';
      assert s[low + k] == '\n';
      assert |chunks[0]| <= limit + 1;
      assert '\n' !in s[|chunks[0]|..limit + 1];
    } else {
      assert forall i :: low <= i <= limit ==> s[i] == s[low..limit + 1][i - low];
    }
  }

  /** Nothing is lost and nothing is empty. */
  lemma {:induction false} CutKeepsAll(s: string, limit: nat, chunks: seq<string>)
    requires limit > 0 && Cut(s, limit, chunks)
    ensures Concat(chunks) == s
    ensures "" !in chunks
    decreases |chunks|
  {
    if |s| > limit {
      var rest := s[|chunks[0]|..];
      CutKeepsAll(rest, limit, chunks[1..]);
      assert s == chunks[0] + rest;
    } else if s != "" {
      assert chunks[1..] == [];
    }
  }

  /** All chunks but the last hold more than half the limit. */
  lemma {:induction false} ChunkCount(s: string, limit: nat, chunks: seq<string>)
    requires limit > 0 && Cut(s, limit, chunks)
    ensures forall j :: 0 <= j < |chunks| - 1 ==> |chunks[j]| > limit / 2
    ensures |chunks| <= 1 || |s| > (|chunks| - 1) * (limit / 2)
    decreases |chunks|
  {
    if |s| > limit {
      var rest, h := s[|chunks[0]|..], limit / 2;
      ChunkCount(rest, limit, chunks[1..]);
      if |chunks| > 1 {
        var n := |chunks| - 2;
        assert (n + 1) * h == n * h + h;
      }
    }
  }

  /** A chunk is one rune too long exactly when the rune at index `limit`, the first that does not
      fit, is a newline; no chunk is longer than that. */
  lemma FirstChunkOverLimit(s: string, limit: nat, chunks: seq<string>)
    requires 0 < limit < |s| && Cut(s, limit, chunks)
    ensures |chunks[0]| <= limit + 1
    ensures |chunks[0]| == limit + 1 <==> s[limit] == '\n'
  {
  }

  /** The last newline in s[low..i], or low - 1 when there is none. */
  function LastNewline(s: string, low: nat, i: int): (n: int)
    requires low - 1 <= i < |s|
    ensures low - 1 <= n <= i && (n >= low ==> s[n] == '\n')
    ensures forall k :: n < k <= i ==> s[k] != '\n'
    decreases i + 1
  {
    if i < low || s[i] == '\n' then i else LastNewline(s, low, i - 1)
  }

  /** Where the text is first cut. */
  function NextCut(s: string, limit: nat): (cut: nat)
    requires 0 < limit < |s|
    ensures 0 < cut <= |s| && CutsAt(s, limit, cut)
    ensures forall other: nat :: other <= |s| && CutsAt(s, limit, other) ==> other == cut
  {
    var n := LastNewline(s, limit / 2, limit);
    if n >= limit / 2 then n + 1 else limit
  }

  /** Where chunk j begins, from the text alone. */
  function ChunkStart(s: string, limit: nat, j: nat): nat
    requires limit > 0
    decreases j
  {
    if j == 0 then 0
    else if |s| <= limit then |s|
    else NextCut(s, limit) + ChunkStart(s[NextCut(s, limit)..], limit, j - 1)
  }

  /** At chunk j the first rune that does not fit is a newline. */
  predicate NewlineAtLimit(s: string, limit: nat, j: nat)
    requires limit > 0
  {
    var i := ChunkStart(s, limit, j) + limit;
    i < |s| && s[i] == '\n'
  }

  lemma CutRest(s: string, limit: nat, chunks: seq<string>)
    requires limit > 0 && Cut(s, limit, chunks) && chunks != []
    ensures |s| <= limit ==> |chunks| == 1 && |chunks[0]| <= limit
    ensures |s| > limit ==> |chunks[0]| == NextCut(s, limit) && Cut(s[NextCut(s, limit)..], limit, chunks[1..])
  {
  }

  lemma {:induction false} ChunkStartsThere(s: string, limit: nat, chunks: seq<string>, j: nat)
    requires limit > 0 && Cut(s, limit, chunks) && j < |chunks|
    ensures |Concat(chunks[..j])| == ChunkStart(s, limit, j)
    decreases j
  {
    hide Cut, NextCut;
    CutRest(s, limit, chunks);
    if j == 0 {
      assert chunks[..0] == [];
    } else {
      ChunkStartsThere(s[NextCut(s, limit)..], limit, chunks[1..], j - 1);
      assert chunks[..j] == [chunks[0]] + chunks[1..][..j - 1];
    }
  }

  /** Chunk j is over the limit exactly when the rune at index `limit` from where it begins is a
      newline; then it is one rune too long. */
  lemma {:induction false} ChunkOverLimit(s: string, limit: nat, chunks: seq<string>, j: nat)
    requires limit > 0 && Cut(s, limit, chunks) && j < |chunks|
    ensures |chunks[j]| <= limit + 1
    ensures |chunks[j]| > limit <==> NewlineAtLimit(s, limit, j)
    decreases j
  {
    hide Cut, NextCut, NewlineAtLimit;
    CutRest(s, limit, chunks);
    if j == 0 {
      FirstOverLimit(s, limit, chunks);
    } else {
      LaterStart(s, limit, j);
      ChunkOverLimit(s[NextCut(s, limit)..], limit, chunks[1..], j - 1);
    }
  }

  lemma FirstOverLimit(s: string, limit: nat, chunks: seq<string>)
    requires limit > 0 && Cut(s, limit, chunks) && chunks != []
    ensures |chunks[0]| <= limit + 1
    ensures |chunks[0]| > limit <==> NewlineAtLimit(s, limit, 0)
  {
    if |s| > limit {
      FirstChunkOverLimit(s, limit, chunks);
    }
  }

  lemma LaterStart(s: string, limit: nat, j: nat)
    requires 0 < limit < |s| && j > 0
    ensures var rest := s[NextCut(s, limit)..];
      && ChunkStart(s, limit, j) == NextCut(s, limit) + ChunkStart(rest, limit, j - 1)
      && NewlineAtLimit(s, limit, j) == NewlineAtLimit(rest, limit, j - 1)
  {
    hide NextCut, CutsAt;
    var rest := s[NextCut(s, limit)..];
    var i := ChunkStart(rest, limit, j - 1) + limit;
    assert i < |rest| ==> rest[i] == s[NextCut(s, limit) + i];
  }

  /** The limit is not a bound: ten characters allowed, eleven sent. */
  lemma LimitExceeded()
    ensures Cut("0123456789\nx", 10, ["0123456789\n", "x"])
    ensures forall chunks :: Cut("0123456789\nx", 10, chunks) ==> |chunks[0]| == 11
  {
    var s := "0123456789\nx";
    assert s[10] == '\n';
    assert s[11..] == "x";
    assert ["0123456789\n", "x"][1..] == ["x"];
    assert "0123456789\n" == s[..11];
    forall chunks | Cut(s, 10, chunks)
      ensures |chunks[0]| == 11
    {
      FirstChunkOverLimit(s, 10, chunks);
    }
  }

  // ---------- a finished card and what follows it ----------

  /** What one card frame can show. */
  function Frame(content: string): string {
    if |content| > MaxContent then content[..MaxContent] else content
  }

  function OverflowRemainder(content: string): string {
    if |content| > MaxContent then content[MaxContent..] else ""
  }

  /** Deliveries of a text through the webhook: chunk by chunk until one fails. `fails(i)` says
      whether delivery i does. */
  method Webhook(content: string, limit: int, fails: nat -> bool) returns (sent: seq<string>, ok: bool, ghost chunks: seq<string>, ghost cuts: seq<nat>)
    ensures sent <= chunks
    ensures ok <==> forall i: nat :: i < |chunks| ==> !fails(i)
    ensures ok ==> sent == chunks
    ensures !ok ==> fails(|sent|)
    ensures limit <= 0 || |content| <= limit ==> chunks == [content]
    ensures 0 < limit < |content| && !HasFence(content) ==> Cut(content, limit, chunks)
    ensures 0 < limit < |content| && HasFence(content) ==>
      Splitter.Cutting(Split(content), limit, cuts) && chunks == Splitter.Chunks(Split(content), cuts)
  {
    sent, ok, cuts := [], true, [0];
    if limit <= 0 {
      chunks := [content];
      if fails(0) {
        return [], false, chunks, cuts;
      }
      return [content], true, chunks, cuts;
    }
    var parts;
    parts, cuts := ChunkText(content, limit);
    chunks := parts;
    for i := 0 to |parts|
      invariant sent == parts[..i]
      invariant forall k: nat :: k < i ==> !fails(k)
    {
      if fails(i) {
        return sent, false, chunks, cuts;
      }
      sent := sent + [parts[i]];
    }
  }

  /** Whether the remainder goes through the splitter, which adds fences of its own. */
  predicate Fenced(content: string, limit: int) {
    0 < limit < |OverflowRemainder(content)| && HasFence(OverflowRemainder(content))
  }

  /** Finish, with card updates succeeding: the final frame, then the remainder if there is one.
      The reader gets the whole content; where the splitter added fences, once they are dropped and
      the lines joined. */
  method Finish(content: string, limit: int, fails: nat -> bool) returns (frame: string, sent: seq<string>, ok: bool, ghost cuts: seq<nat>)
    ensures frame == Frame(content) && |frame| <= MaxContent
    ensures if |content| <= 20000 then frame == content && sent == [] else frame == content[..20000]
    ensures !Fenced(content, limit) ==>
      (ok ==> frame + Concat(sent) == content) && frame + Concat(sent) <= content
    ensures Fenced(content, limit) && ok ==>
      var lines := Split(OverflowRemainder(content));
      && Splitter.Cutting(lines, limit, cuts) && sent == Splitter.Chunks(lines, cuts)
      && frame + Join(Splitter.Recover(sent, Splitter.CutsInCode(lines, cuts), |sent|), "\n") == content
  {
    hide Splitter.Cutting, Splitter.Chunks, Splitter.Recover, Splitter.CutsInCode, HasFence, Cut, Split, Join;
    frame, sent, ok, cuts := Frame(content), [], true, [0];
    var rest := OverflowRemainder(content);
    if rest != "" {
      ghost var chunks;
      sent, ok, chunks, cuts := Webhook(rest, limit, fails);
      if Fenced(content, limit) {
        if ok {
          Splitter.SplitKeepsMeaning(rest, limit, cuts);
        }
      } else {
        if 0 < limit < |rest| {
          CutKeepsAll(rest, limit, chunks);
        } else {
          OnePart(rest);
        }
        ConcatPrefix(sent, chunks);
      }
    }
  }

  lemma OnePart(s: string)
    ensures Concat([s]) == s
  {
    assert [s][1..] == [];
  }

  lemma {:induction false} ConcatPrefix(a: seq<string>, b: seq<string>)
    requires a <= b
    ensures Concat(a) <= Concat(b)
  {
    if a != [] {
      ConcatPrefix(a[1..], b[1..]);
    }
  }
}
