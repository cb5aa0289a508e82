/** Lines of a text as Python's str.splitlines finds them. */
module TextLines {
  predicate IsBreak(c: char) {
    var n := c as int;
    0x0a <= n <= 0x0d || 0x1c <= n <= 0x1e || n == 0x85 || n == 0x2028 || n == 0x2029
  }

  predicate OneLine(s: string) { forall c :: c in s ==> !IsBreak(c) }

  /** Up to the first line break. */
  function Cut(s: string): (r: string)
    ensures r <= s && OneLine(r) && (|r| < |s| ==> IsBreak(s[|r|]))
  {
    if s == [] || IsBreak(s[0]) then [] else [s[0]] + Cut(s[1..])
  }

  /** Where the text goes on after the break it begins with: a carriage return with a line feed is one break. */
  function Skip(s: string): (n: nat)
    requires s != []
    ensures 1 <= n <= |s|
  {
    if |s| >= 2 && s[0] == '\r' && s[1] == '\n' then 2 else 1
  }

  /** The lines of a text, of whose first line a part is already read. */
  function LinesFrom(s: string, line: string): seq<string>
    decreases |s|
  {
    if s == [] then (if line == [] then [] else [line])
    else if IsBreak(s[0]) then [line] + LinesFrom(s[Skip(s)..], [])
    else LinesFrom(s[1..], line + [s[0]])
  }

  function SplitLines(s: string): seq<string> { LinesFrom(s, []) }

  /** The lines, each with a line feed after it. */
  function Terminated(lines: seq<string>): string {
    if lines == [] then [] else lines[0] + ['\n'] + Terminated(lines[1..])
  }

  /** Python's "\n".join. */
  function Join(lines: seq<string>): string {
    if lines == [] then []
    else if |lines| == 1 then lines[0]
    else lines[0] + ['\n'] + Join(lines[1..])
  }

  lemma {:induction false} JoinTerminates(lines: seq<string>)
    ensures Join(lines + [""]) == Terminated(lines)
    decreases |lines|
  {
    if lines != [] {
      JoinTerminates(lines[1..]);
      assert (lines + [""])[1..] == lines[1..] + [""];
    }
  }

  /** A text up to a line feed is split on its own. */
  lemma {:induction false} SplitAtLineFeed(a: string, b: string, line: string)
    ensures LinesFrom(a + ['\n'] + b, line) == LinesFrom(a + ['\n'], line) + SplitLines(b)
    decreases |a|
  {
    var s, t := a + ['\n'], a + ['\n'] + b;
    if a == [] {
      assert t[1..] == b && s[1..] == [];
    } else if !IsBreak(a[0]) {
      SplitAtLineFeed(a[1..], b, line + [a[0]]);
      assert s[1..] == a[1..] + ['\n'] && t[1..] == a[1..] + ['\n'] + b;
    } else if Skip(s) == |s| {
      assert t[Skip(s)..] == b && s[Skip(s)..] == [];
    } else {
      var k := Skip(s);
      SplitAtLineFeed(a[k..], b, []);
      assert s[k..] == a[k..] + ['\n'] && t[k..] == a[k..] + ['\n'] + b;
      assert [line] + (LinesFrom(s[k..], []) + SplitLines(b)) == [line] + LinesFrom(s[k..], []) + SplitLines(b);
    }
  }

  lemma {:induction false} HeadOfLines(a: string, line: string)
    ensures LinesFrom(a + ['\n'], line) != [] && LinesFrom(a + ['\n'], line)[0] == line + Cut(a)
    decreases |a|
  {
    var s := a + ['\n'];
    if a != [] && !IsBreak(a[0]) {
      var c := [a[0]];
      HeadOfLines(a[1..], line + c);
      assert s[1..] == a[1..] + ['\n'] && s[0] == a[0];
      var cut := Cut(a[1..]);
      assert line + c + cut == line + (c + cut);
    } else {
      assert IsBreak(s[0]) && Cut(a) == [];
      assert line + [] == line;
    }
  }

  lemma {:induction false} OneLinerAlone(a: string, line: string)
    requires OneLine(a)
    ensures LinesFrom(a + ['\n'], line) == [line + a]
    decreases |a|
  {
    var s := a + ['\n'];
    if a == [] {
      assert s[1..] == [] && line + a == line;
    } else {
      OneLinerAlone(a[1..], line + [a[0]]);
      assert s[1..] == a[1..] + ['\n'];
      assert line + [a[0]] + a[1..] == line + a;
    }
  }

  /** The pieces of one line, the first of which is the line up to its first break. */
  function Pieces(a: string): (r: seq<string>)
    ensures r != [] && r[0] == Cut(a) && (OneLine(a) ==> r == [a])
  {
    HeadOfLines(a, []);
    assert [] + Cut(a) == Cut(a) && [] + a == a;
    assert OneLine(a) ==> SplitLines(a + ['\n']) == [a] by {
      if OneLine(a) {
        OneLinerAlone(a, []);
      }
    }
    SplitLines(a + ['\n'])
  }

  function AllPieces(lines: seq<string>): seq<string> {
    if lines == [] then [] else Pieces(lines[0]) + AllPieces(lines[1..])
  }

  lemma {:induction false} SplitTerminated(lines: seq<string>)
    ensures SplitLines(Terminated(lines)) == AllPieces(lines)
    decreases |lines|
  {
    if lines != [] {
      SplitAtLineFeed(lines[0], Terminated(lines[1..]), []);
      SplitTerminated(lines[1..]);
    }
  }

  lemma {:induction false} PiecesOfOneLiners(lines: seq<string>)
    requires forall l :: l in lines ==> OneLine(l)
    ensures AllPieces(lines) == lines
    decreases |lines|
  {
    if lines != [] {
      PiecesOfOneLiners(lines[1..]);
      assert lines == [lines[0]] + lines[1..];
    }
  }

  /** However its lines break, a text keeps the head of each of them as a line. */
  lemma {:induction false} HeadsKept(lines: seq<string>, i: nat)
    requires i < |lines|
    ensures Cut(lines[i]) in AllPieces(lines)
    decreases |lines|
  {
    if i > 0 {
      HeadsKept(lines[1..], i - 1);
    } else {
      assert Pieces(lines[0])[0] == Cut(lines[0]);
    }
  }
}
