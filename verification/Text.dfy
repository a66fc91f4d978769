/** Joining and splitting text. Strings are Go byte strings: one char stands for one byte, except
    in Chunks.dfy, where one char is one rune. */
module Text {
  function Join(parts: seq<string>, sep: string): string {
    if parts == [] then ""
    else if |parts| == 1 then parts[0]
    else parts[0] + sep + Join(parts[1..], sep)
  }

  /** Split at newlines; there is always at least one line. */
  function Split(s: string): (lines: seq<string>)
    ensures lines != []
  {
    if s == "" then [""]
    else if s[0] == '\n' then [""] + Split(s[1..])
    else
      var rest := Split(s[1..]);
      [[s[0]] + rest[0]] + rest[1..]
  }

  ghost predicate IsLine(s: string) {
    '\n' !in s
  }

  lemma {:induction false} JoinCons(line: string, lines: seq<string>, sep: string)
    requires lines != []
    ensures Join([line] + lines, sep) == line + sep + Join(lines, sep)
  {
    assert ([line] + lines)[1..] == lines;
  }

  lemma {:induction false} JoinOfSplit(s: string)
    ensures Join(Split(s), "\n") == s
  {
    if s != "" {
      JoinOfSplit(s[1..]);
      var rest := Split(s[1..]);
      if s[0] == '\n' {
        JoinCons("", rest, "\n");
      } else {
        assert Split(s) == [[s[0]] + rest[0]] + rest[1..];
        JoinHead([s[0]], rest, "\n");
      }
    }
  }

  lemma {:induction false} JoinHead(head: string, lines: seq<string>, sep: string)
    requires lines != []
    ensures Join([head + lines[0]] + lines[1..], sep) == head + Join(lines, sep)
  {
    if |lines| > 1 {
      JoinCons(head + lines[0], lines[1..], sep);
      assert head + lines[0] + sep + Join(lines[1..], sep) == head + (lines[0] + sep + Join(lines[1..], sep));
    }
  }

  lemma {:induction false} SplitLines(s: string)
    ensures forall line :: line in Split(s) ==> IsLine(line)
  {
    if s != "" {
      SplitLines(s[1..]);
      var rest := Split(s[1..]);
      assert rest[0] in rest;
    }
  }

  lemma {:induction false} SplitOfJoin(lines: seq<string>)
    requires lines != [] && forall line :: line in lines ==> IsLine(line)
    ensures Split(Join(lines, "\n")) == lines
    decreases |lines|
  {
    if |lines| == 1 {
      SplitOneLine(lines[0]);
    } else {
      SplitOfJoin(lines[1..]);
      assert lines[0] in lines;
      SplitHead(lines[0], Join(lines[1..], "\n"));
      assert Join(lines, "\n") == lines[0] + "\n" + Join(lines[1..], "\n");
    }
  }

  lemma {:induction false} SplitOneLine(line: string)
    requires IsLine(line)
    ensures Split(line) == [line]
  {
    if line != "" {
      SplitOneLine(line[1..]);
      assert line == [line[0]] + line[1..];
    }
  }

  lemma {:induction false} SplitHead(line: string, rest: string)
    requires IsLine(line)
    ensures Split(line + "\n" + rest) == [line] + Split(rest)
  {
    var s := line + "\n" + rest;
    if line == "" {
      assert s[0] == '\n' && s[1..] == rest;
    } else {
      assert s[0] == line[0];
      assert s[1..] == line[1..] + "\n" + rest;
      SplitHead(line[1..], rest);
      assert line == [line[0]] + line[1..];
    }
  }

  /** Joining two non-empty groups separately, then together, is joining them all. */
  lemma {:induction false} JoinAppend(a: seq<string>, b: seq<string>, sep: string)
    requires a != [] && b != []
    ensures Join(a + b, sep) == Join(a, sep) + sep + Join(b, sep)
    decreases |a|
  {
    if |a| == 1 {
      assert (a + b)[1..] == b;
    } else {
      JoinAppend(a[1..], b, sep);
      assert (a + b)[1..] == a[1..] + b;
      assert a[0] + sep + (Join(a[1..], sep) + sep + Join(b, sep))
          == (a[0] + sep + Join(a[1..], sep)) + sep + Join(b, sep);
    }
  }
}
