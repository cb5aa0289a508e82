/** The text side of the TOML-subset parser (agent_collab/config.py): comments, quotes, headers, keys and values. */
module TomlSyntax {
  import opened Common
  import opened Decimals
  import opened Events
  import opened TextLines
  import opened TomlTables

  // ----- quotes

  /** Inside which quote a scanner is, and whether a backslash came just before. */
  datatype Scan = Scan(quote: Option<char>, escaped: bool)

  const OUTSIDE := Scan(None, false)

  predicate IsQuote(c: char) { c == '\'' || c == '"' }

  function Next(s: Scan, c: char): Scan {
    if s.quote.Some? then
      if s.escaped then Scan(s.quote, false)
      else if c == '\\' then Scan(s.quote, true)
      else if c == s.quote.value then OUTSIDE
      else s
    else if IsQuote(c) then Scan(Some(c), false)
    else s
  }

  /** The scanner after the first k characters. */
  function ScanAt(line: string, k: nat): Scan
    requires k <= |line|
  {
    if k == 0 then OUTSIDE else Next(ScanAt(line, k - 1), line[k - 1])
  }

  /** A hash sign outside quotes. */
  predicate StartsComment(line: string, k: nat)
    requires k < |line|
  {
    line[k] == '#' && ScanAt(line, k).quote.None?
  }

  function BeforeComment(line: string, s: Scan): string {
    if line == [] || (s.quote.None? && line[0] == '#') then []
    else [line[0]] + BeforeComment(line[1..], Next(s, line[0]))
  }

  lemma CommentStep(line: string, i: nat, s: Scan)
    requires i < |line|
    ensures line[..i] + BeforeComment(line[i..], s) ==
            if s.quote.None? && line[i] == '#' then line[..i] else line[..i + 1] + BeforeComment(line[i + 1..], Next(s, line[i]))
  {
    hide Next;
    var rest := line[i..];
    assert rest[0] == line[i] && rest[1..] == line[i + 1..] && line[..i + 1] == line[..i] + [line[i]];
  }

  lemma NoComment(s: Scan)
    ensures BeforeComment([], s) == []
  {}

  /** What is kept is the longest beginning of the line that holds no hash sign outside quotes. */
  method StripComment(line: string) returns (r: string)
    ensures r == BeforeComment(line, OUTSIDE)
    ensures r <= line && forall k :: 0 <= k < |r| ==> !StartsComment(line, k)
    ensures r == line || StartsComment(line, |r|)
  {
    hide BeforeComment, Next;
    var scan := OUTSIDE;
    for i := 0 to |line|
      invariant scan == ScanAt(line, i)
      invariant forall k :: 0 <= k < i ==> !StartsComment(line, k)
      invariant BeforeComment(line, OUTSIDE) == line[..i] + BeforeComment(line[i..], scan)
    {
      CommentStep(line, i, scan);
      if scan.quote.None? && line[i] == '#' {
        return line[..i];
      }
      scan := Next(scan, line[i]);
    }
    NoComment(scan);
    r := line;
    assert line[..|line|] == line && line[|line|..] == [] && line + [] == line;
  }

  /** The text between delimiters that stand outside quotes; the first piece has begun already. */
  function PiecesFrom(s: string, d: char, scan: Scan, piece: string): (r: seq<string>)
    ensures r != [] && forall i :: 0 <= i < |r| ==> |r[i]| <= |piece| + |s|
    decreases |s|
  {
    if s == [] then [piece]
    else if scan.quote.None? && !IsQuote(s[0]) && s[0] == d then [piece] + PiecesFrom(s[1..], d, OUTSIDE, [])
    else PiecesFrom(s[1..], d, Next(scan, s[0]), piece + [s[0]])
  }

  /** Pieces without outer blanks, and none that is blank. */
  function Items(pieces: seq<string>): (r: seq<string>)
    ensures forall i :: 0 <= i < |r| ==> r[i] != ""
  {
    if pieces == [] then []
    else
      var last := Stripped(pieces[|pieces| - 1]);
      Items(pieces[..|pieces| - 1]) + (if last == "" then [] else [last])
  }

  function TopLevelItems(s: string, d: char): (r: seq<string>)
    ensures forall i :: 0 <= i < |r| ==> r[i] != "" && |r[i]| <= |s|
  {
    ItemsNoLonger(PiecesFrom(s, d, OUTSIDE, []), |s|);
    Items(PiecesFrom(s, d, OUTSIDE, []))
  }

  lemma {:induction false} ItemsNoLonger(pieces: seq<string>, bound: nat)
    requires forall i :: 0 <= i < |pieces| ==> |pieces[i]| <= bound
    ensures forall i :: 0 <= i < |Items(pieces)| ==> |Items(pieces)[i]| <= bound
  {
    if pieces != [] {
      ItemsNoLonger(pieces[..|pieces| - 1], bound);
    }
  }

  lemma {:induction false} PiecesStep(s: string, d: char, scan: Scan, start: nat, i: nat)
    requires start <= i < |s| && (scan.quote.None? ==> scan == OUTSIDE)
    ensures PiecesFrom(s[i..], d, scan, s[start..i]) ==
            if scan.quote.None? && !IsQuote(s[i]) && s[i] == d
            then [s[start..i]] + PiecesFrom(s[i + 1..], d, Next(scan, s[i]), s[i + 1..i + 1])
            else PiecesFrom(s[i + 1..], d, Next(scan, s[i]), s[start..i + 1])
  {
    var here := s[i..];
    assert here[1..] == s[i + 1..] && here[0] == s[i];
    assert s[start..i + 1] == s[start..i] + [s[i]] && s[i + 1..i + 1] == [];
  }

  lemma LastPiece(d: char, scan: Scan, piece: string)
    ensures PiecesFrom([], d, scan, piece) == [piece]
  {}

  lemma NextOutside(scan: Scan, c: char)
    requires scan.quote.None? ==> scan == OUTSIDE
    ensures Next(scan, c).quote.None? ==> Next(scan, c) == OUTSIDE
    ensures scan.quote.None? && !IsQuote(c) ==> Next(scan, c) == OUTSIDE
  {}

  method CutPieces(s: string, d: char) returns (pieces: seq<string>)
    ensures pieces == PiecesFrom(s, d, OUTSIDE, [])
  {
    hide PiecesFrom, Next;
    pieces := [];
    var scan := OUTSIDE;
    var start := 0;
    assert s[0..] == s && s[..0] == [];
    for i := 0 to |s|
      invariant 0 <= start <= i
      invariant scan.quote.None? ==> scan == OUTSIDE
      invariant PiecesFrom(s, d, OUTSIDE, []) == pieces + PiecesFrom(s[i..], d, scan, s[start..i])
    {
      PiecesStep(s, d, scan, start, i);
      if scan.quote.None? && !IsQuote(s[i]) && s[i] == d {
        ghost var rest, piece := PiecesFrom(s[i + 1..], d, Next(scan, s[i]), s[i + 1..i + 1]), s[start..i];
        assert pieces + ([piece] + rest) == (pieces + [piece]) + rest;
        pieces := pieces + [s[start..i]];
        start := i + 1;
      }
      NextOutside(scan, s[i]);
      scan := Next(scan, s[i]);
    }
    assert s[|s|..] == [] && s[start..|s|] == s[start..];
    LastPiece(d, scan, s[start..]);
    pieces := pieces + [s[start..]];
  }

  method SplitTopLevel(s: string, d: char) returns (r: seq<string>)
    ensures r == TopLevelItems(s, d)
  {
    var pieces := CutPieces(s, d);
    r := [];
    for k := 0 to |pieces|
      invariant r == Items(pieces[..k])
    {
      assert pieces[..k + 1][..k] == pieces[..k];
      var item := Stripped(pieces[k]);
      if item != "" {
        r := r + [item];
      }
    }
    assert pieces[..|pieces|] == pieces;
  }

  // ----- keys and headers

  function SplitOn(s: string, d: char, piece: string): seq<string>
    decreases |s|
  {
    if s == [] then [piece]
    else if s[0] == d then [piece] + SplitOn(s[1..], d, [])
    else SplitOn(s[1..], d, piece + [s[0]])
  }

  function DottedParts(key: string): Option<Path> {
    var parts := Trimmed(SplitOn(key, '.', []));
    if "" in parts then None else Some(parts)
  }

  predicate InQuotes(item: string) { |item| >= 2 && item[0] == item[|item| - 1] && IsQuote(item[0]) }

  function Unquoted(item: string): string { if InQuotes(item) then item[1..|item| - 1] else item }

  function UnquotedAll(items: seq<string>): (r: Path)
    ensures |r| == |items| && forall i :: 0 <= i < |r| ==> r[i] == Unquoted(items[i])
  {
    seq(|items|, i requires 0 <= i < |items| => Unquoted(items[i]))
  }

  function SectionParts(section: string): Option<Path> {
    var parts := UnquotedAll(TopLevelItems(section, '.'));
    if parts == [] || "" in parts then None else Some(parts)
  }

  // ----- quoted header parts

  predicate Plain(part: string) { part != "" && '"' !in part && '\\' !in part }

  function QuotedPart(part: string): string { ['"'] + part + ['"'] }

  function QuotedHeader(parts: Path): string {
    if parts == [] then []
    else if |parts| == 1 then QuotedPart(parts[0])
    else QuotedPart(parts[0]) + ['.'] + QuotedHeader(parts[1..])
  }

  lemma {:induction false} ThroughQuote(part: string, tail: string, piece: string)
    requires '"' !in part && '\\' !in part
    ensures PiecesFrom(part + (['"'] + tail), '.', Scan(Some('"'), false), piece)
            == PiecesFrom(tail, '.', OUTSIDE, piece + part + ['"'])
    decreases |part|
  {
    var s := part + (['"'] + tail);
    if part == [] {
      assert s[1..] == tail && piece + [] + ['"'] == piece + ['"'];
    } else {
      ThroughQuote(part[1..], tail, piece + [part[0]]);
      assert s[1..] == part[1..] + (['"'] + tail);
      assert piece + [part[0]] + part[1..] == piece + part;
    }
  }

  lemma {:induction false} HeaderPieces(parts: Path)
    requires parts != [] && forall i :: 0 <= i < |parts| ==> Plain(parts[i])
    ensures var r := PiecesFrom(QuotedHeader(parts), '.', OUTSIDE, []);
            |r| == |parts| && forall i :: 0 <= i < |r| ==> r[i] == QuotedPart(parts[i])
    decreases |parts|
  {
    var text := QuotedHeader(parts);
    var tail := if |parts| == 1 then [] else ['.'] + QuotedHeader(parts[1..]);
    assert text == QuotedPart(parts[0]) + tail;
    assert text[1..] == parts[0] + (['"'] + tail);
    ThroughQuote(parts[0], tail, ['"']);
    var none: string := [];
    assert none + ['"'] == ['"'] && text[0] == '"';
    assert PiecesFrom(text, '.', OUTSIDE, none) == PiecesFrom(tail, '.', OUTSIDE, QuotedPart(parts[0]));
    if |parts| > 1 {
      assert tail[1..] == QuotedHeader(parts[1..]);
      HeaderPieces(parts[1..]);
    }
  }

  lemma {:induction false} ItemsKept(pieces: seq<string>)
    requires forall i :: 0 <= i < |pieces| ==> pieces[i] != "" && Stripped(pieces[i]) == pieces[i]
    ensures Items(pieces) == pieces
  {
    if pieces != [] {
      var front, last := pieces[..|pieces| - 1], pieces[|pieces| - 1];
      ItemsKept(front);
      assert Stripped(last) == last;
      assert Items(pieces) == front + [last] == pieces;
    }
  }

  /** A header of quoted parts is split between them and never inside one, whatever dots a part holds. */
  lemma {:induction false} QuotedHeaderReadBack(parts: Path)
    requires parts != [] && forall i :: 0 <= i < |parts| ==> Plain(parts[i])
    ensures SectionParts(QuotedHeader(parts)) == Some(parts)
  {
    hide PiecesFrom, Stripped, Items, QuotedHeader;
    HeaderPieces(parts);
    var pieces := PiecesFrom(QuotedHeader(parts), '.', OUTSIDE, []);
    forall i | 0 <= i < |pieces| ensures pieces[i] != "" && Stripped(pieces[i]) == pieces[i] && Unquoted(pieces[i]) == parts[i] {
      StrippedKeeps(pieces[i]);
      assert pieces[i][1..|pieces[i]| - 1] == parts[i];
    }
    ItemsKept(pieces);
    assert UnquotedAll(pieces) == parts;
  }

  // ----- values

  function FirstIndex(s: string, c: char): (n: nat)
    ensures n <= |s| && c !in s[..n] && (n < |s| ==> s[n] == c)
  {
    if s == [] || s[0] == c then 0 else 1 + FirstIndex(s[1..], c)
  }

  /** How Python's str.isdigit and int see a character; a superscript is a digit only to the first. */
  datatype Digit = Decimal(worth: nat) | Superscript | NoDigit

  /** What the parser leaves to Python: quoted literals, digits, and how many of them int reads. */
  datatype Python = Python(literal: string -> Option<string>, digit: char -> Digit, maxDigits: nat)

  /** A value, a configuration error, or an error that nobody catches. */
  datatype Reading<+T> = Value(value: T) | Invalid | Crashed

  /** Python's lstrip of minus signs. */
  function WithoutMinus(s: string): (r: string)
    ensures |r| <= |s|
  {
    if s != [] && s[0] == '-' then WithoutMinus(s[1..]) else s
  }

  predicate AllDigits(s: string, py: Python) { s != [] && forall c :: c in s ==> !py.digit(c).NoDigit? }

  function Magnitude(s: string, py: Python): nat {
    if s == [] then 0
    else 10 * Magnitude(s[..|s| - 1], py) + (if py.digit(s[|s| - 1]).Decimal? then py.digit(s[|s| - 1]).worth else 0)
  }

  predicate AllDecimal(s: string, py: Python) { forall c :: c in s ==> py.digit(c).Decimal? }

  /** Python's int, where the text has no blank, plus sign or underscore. */
  function IntOf(s: string, py: Python): Option<int> {
    var digits := if s != [] && s[0] == '-' then s[1..] else s;
    if digits == [] || |digits| > py.maxDigits || !AllDecimal(digits, py) then None
    else
      var n: int := Magnitude(digits, py);
      Some(if digits == s then n else -n)
  }

  function NumberOf(s: string, py: Python): Reading<Val> {
    if !AllDigits(WithoutMinus(s), py) then Invalid
    else
      var n := IntOf(s, py);
      if n.None? then Crashed else Value(Int(n.value))
  }

  lemma {:induction false} WithoutMinusMeaning(s: string)
    ensures var r := WithoutMinus(s);
            && r == s[|s| - |r|..] && (r != [] ==> r[0] != '-') && forall k :: 0 <= k < |s| - |r| ==> s[k] == '-'
  {
    if s != [] && s[0] == '-' {
      WithoutMinusMeaning(s[1..]);
    }
  }

  /**
   * Reading a number crashes exactly on digits, after any minus signs, that int refuses:
   * because of a second minus sign, a superscript, or too many of them.
   */
  lemma {:induction false} NumberCrashesExactlyWhen(s: string, py: Python)
    requires py.digit('-').NoDigit?
    ensures NumberOf(s, py).Crashed? <==>
              var digits := WithoutMinus(s);
              AllDigits(digits, py) && (|s| - |digits| >= 2 || |digits| > py.maxDigits || !AllDecimal(digits, py))
  {
    var digits := WithoutMinus(s);
    WithoutMinusMeaning(s);
    var rest := if s != [] && s[0] == '-' then s[1..] else s;
    if |s| - |digits| >= 2 {
      assert s[0] == '-' && s[1] == '-';
      assert rest[0] == '-' && rest[0] in rest && !AllDecimal(rest, py);
    } else {
      assert rest == digits;
    }
  }

  function ValueOf(s: string, py: Python): Reading<Val>
    decreases |s|, 1, 0
  {
    if s == "true" || s == "false" then Value(Bool(s == "true"))
    else if |s| >= 2 && s[0] == '[' && s[|s| - 1] == ']' then
      match ValuesOf(TopLevelItems(Stripped(s[1..|s| - 1]), ','), py, |s| - 1)
      case Value(values) => Value(List(values))
      case Invalid => Invalid
      case Crashed => Crashed
    else if |s| >= 2 && s[0] == '{' && s[|s| - 1] == '}' then
      match EntriesOf(TopLevelItems(s[1..|s| - 1], ','), py, |s| - 1)
      case Value(entries) => Value(Table(entries))
      case Invalid => Invalid
      case Crashed => Crashed
    else if s != "" && IsQuote(s[0]) && IsQuote(s[|s| - 1]) then
      var text := py.literal(s);
      if text.None? then Invalid else Value(Text(text.value))
    else NumberOf(s, py)
  }

  function ValuesOf(items: seq<string>, py: Python, bound: nat): Reading<seq<Val>>
    requires forall i :: 0 <= i < |items| ==> |items[i]| <= bound
    decreases bound, 2, |items|
  {
    if items == [] then Value([])
    else
      var before := ValuesOf(items[..|items| - 1], py, bound);
      if !before.Value? then before
      else
        match ValueOf(items[|items| - 1], py)
        case Value(last) => Value(before.value + [last])
        case Invalid => Invalid
        case Crashed => Crashed
  }

  /** Items of an inline table: keys as written, none twice. */
  function EntriesOf(items: seq<string>, py: Python, bound: nat): Reading<map<string, Val>>
    requires forall i :: 0 <= i < |items| ==> |items[i]| <= bound
    decreases bound, 2, |items|
  {
    if items == [] then Value(map[])
    else
      var before := EntriesOf(items[..|items| - 1], py, bound);
      var item := items[|items| - 1];
      var n := FirstIndex(item, '=');
      if !before.Value? then before
      else if n == |item| then Invalid
      else
        var key := Stripped(item[..n]);
        if key == "" || key in before.value then Invalid
        else
          match ValueOf(Stripped(item[n + 1..]), py)
          case Value(value) => Value(before.value[key := value])
          case Invalid => Invalid
          case Crashed => Crashed
  }

  // ----- lines and documents

  function LineOf(raw: string, py: Python): Line {
    var line := Stripped(BeforeComment(raw, OUTSIDE));
    if line == "" then Empty
    else if |line| >= 2 && line[0] == '[' && line[|line| - 1] == ']' then
      var parts := SectionParts(Stripped(line[1..|line| - 1]));
      if parts.None? then Broken else Header(parts.value)
    else
      var n := FirstIndex(line, '=');
      var key := Stripped(line[..n]);
      if n == |line| || key == "" then Broken
      else
        match ValueOf(Stripped(line[n + 1..]), py)
        case Value(value) =>
          var parts := DottedParts(key);
          if parts.None? then Broken else Assign(parts.value, value)
        case Invalid => Broken
        case Crashed => Crash
  }

  function LinesOf(raws: seq<string>, py: Python): (r: seq<Line>)
    ensures |r| == |raws| && forall i :: 0 <= i < |r| ==> r[i] == LineOf(raws[i], py)
  {
    seq(|raws|, i requires 0 <= i < |raws| => LineOf(raws[i], py))
  }

  /** The parser on a text: what it returns holds every line's own value, unless a line reaches into an inline table. */
  method ParseTomlSubsetData(text: string, py: Python) returns (r: Result<Val, Raised>)
    ensures r == Outcome(LinesOf(SplitLines(text), py))
    ensures r.Ok? ==> var lines := LinesOf(SplitLines(text), py); AllHold(r.value, Assignments(lines)) <==> !Intrudes(lines)
  {
    var lines := LinesOf(SplitLines(text), py);
    r := FillTables(lines);
    if r.Ok? {
      DocumentHoldsExactlyWhen(lines);
    }
  }

  /** The parser's loop: it keeps the tables, the header it is under, and the three sets of its checks. */
  method FillTables(lines: seq<Line>) returns (r: Result<Val, Raised>)
    ensures r == Outcome(lines)
  {
    var root := Table(map[]);
    var current: Path, entered: Path := [], [];
    var declared: set<Path>, implicit: set<Path>, inlines: set<Path> := {}, {}, {};
    for i := 0 to |lines|
      invariant root.Table?
      invariant Run(lines[..i]) == Some(State(root, current, entered, declared, implicit, inlines))
    {
      assert lines[..i + 1][..i] == lines[..i];
      var line := lines[i];
      ghost var before := State(root, current, entered, declared, implicit, inlines);
      assert Run(lines[..i + 1]) == AfterLine(before, line);
      var accepted := true;
      match line {
        case Empty =>
        case Broken =>
          accepted := false;
        case Crash =>
          accepted := false;
        case Header(parts) =>
          assert AfterLine(before, line) == HeaderLine(before, parts);
          if parts in declared || parts in implicit || UnderInline(inlines, parts) || "" in Trimmed(parts) {
            accepted := false;
          } else {
            var inside := OpenTables(root, Trimmed(parts));
            accepted := inside.Some?;
            if accepted {
              declared := declared + {parts};
              current, entered, root := parts, Trimmed(parts), inside.value;
            }
          }
        case Assign(parts, value) =>
          assert AfterLine(before, line) == KeyLine(before, parts, value);
          if parts == [] || DottedConflict(State(root, current, entered, declared, implicit, inlines), parts) {
            accepted := false;
          } else {
            implicit := implicit + DottedTables(current, parts);
            if value.Table? {
              inlines := inlines + {current + parts};
            }
            var filled := SetDotted(root, entered + parts, value);
            accepted := filled.Some?;
            if accepted {
              root := filled.value;
            }
          }
      }
      if !accepted {
        assert AfterLine(before, line).None?;
        RefusedStays(lines, i + 1);
        return Err(if line.Crash? then ValueError else ConfigError);
      }
      assert AfterLine(before, line) == Some(State(root, current, entered, declared, implicit, inlines));
    }
    assert lines[..|lines|] == lines;
    r := Ok(root);
  }
}
