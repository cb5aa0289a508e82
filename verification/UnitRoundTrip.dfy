/** Parsing a rendered unit gives back what it was rendered from, exactly when no value holds a line break. */
module UnitRoundTrip {
  import opened Common
  import opened Decimals
  import opened Events
  import opened ShellWords
  import opened TextLines
  import opened UnitCodec

  // ----- the command line

  lemma {:induction false} FlagsOfCommand(x: UnitSpec)
    ensures Flags(Argv(x), 5, map[]) ==
            Good(var v := map[Manager := SYSTEMD, Host := x.host, Port := Show(x.port)];
                 if x.workdir.Some? then v[Workdir := x.workdir.value] else v)
  {
    var a := Argv(x);
    assert FlagOf("--manager") == Some(Manager) && FlagOf("--host") == Some(Host);
    assert FlagOf("--port") == Some(Port) && FlagOf("--workdir") == Some(Workdir);
    var v1 := map[Manager := SYSTEMD];
    var v2 := v1[Host := x.host];
    var v3 := v2[Port := Show(x.port)];
    assert Flags(a, 9, v2) == Flags(a, 11, v3);
    assert Flags(a, 7, v1) == Flags(a, 9, v2);
    assert Flags(a, 5, map[]) == Flags(a, 7, v1);
    if x.workdir.Some? {
      assert Flags(a, 11, v3) == Flags(a, 13, v3[Workdir := x.workdir.value]);
    }
  }

  lemma {:induction false} UngroupedKeeps(s: string)
    requires '_' !in s
    ensures Ungrouped(s) == Some(s)
    decreases |s|
  {
    if s != [] {
      UngroupedKeeps(s[1..]);
      assert s == [s[0]] + s[1..];
    }
  }

  lemma {:induction false} ReadPortShow(port: nat)
    requires 1 <= port <= 65535
    ensures ReadPort(Show(port)) == Some(port)
  {
    var s := Show(port);
    assert forall c :: c in DIGITS ==> IsDigit(c);
    assert s[0] in s && s[|s| - 1] in s;
    StrippedKeeps(s);
    UngroupedKeeps(s);
    ReadShow(port);
  }

  /** The specification's endpoint is one: a host, a port in range, and no empty path. */
  predicate ValidSpec(x: UnitSpec) {
    x.host != "" && 1 <= x.port <= 65535 && x.home != "" && x.workdir != Some("")
  }

  function IdentityOf(x: UnitSpec): UnitIdentity {
    UnitIdentity(ManagedCommand(x.interpreter, SYSTEMD, x.host, x.port, x.workdir), Some(x.home))
  }

  lemma {:induction false} CommandReadBack(x: UnitSpec)
    requires ValidSpec(x)
    ensures CommandOf(Argv(x), SYSTEMD, true) == Good(IdentityOf(x).command)
  {
    FlagsOfCommand(x);
    ReadPortShow(x.port);
    assert Argv(x)[1..5] == ["-m", "agent_collab.cli", "daemon", "run"];
  }

  lemma {:induction false} ArgumentsReadBack(words: seq<string>)
    ensures Split(QuotedWords(words, true)).Some?
    ensures Arguments(Split(QuotedWords(words, true)).value) == words
  {
    SplitQuotedWords(words, true);
    forall i | 0 <= i < |words| ensures Arguments(SpecifiedAll(words, true))[i] == words[i] {
      SpecifiersUndone(words[i]);
    }
  }

  // ----- the lines

  lemma {:induction false} NoDirectives(lines: seq<string>, prefix: string)
    requires forall i :: 0 <= i < |lines| ==> !(prefix <= lines[i])
    ensures Directives(lines, prefix) == []
  {
    if lines != [] {
      NoDirectives(lines[..|lines| - 1], prefix);
    }
  }

  predicate Keyword(prefix: string) { prefix == EXEC || prefix == ENVIRONMENT || prefix == HOME_MARKER }

  lemma {:induction false} SectionsHoldNone(prefix: string)
    requires Keyword(prefix)
    ensures Directives(UNIT_SECTION, prefix) == [] && Directives(CLOSING_SECTIONS, prefix) == []
  {
    assert prefix[0] == 'E' || prefix[0] == '#';
    assert UNIT_SECTION[0][0] == '[' && UNIT_SECTION[1][0] == 'D' && UNIT_SECTION[2][0] == 'S' && UNIT_SECTION[3][0] == 'S';
    assert UNIT_SECTION[4] == "" && UNIT_SECTION[5][0] == '[' && UNIT_SECTION[6][0] == 'T';
    forall i | 0 <= i < |UNIT_SECTION| ensures !(prefix <= UNIT_SECTION[i]) {
      assert UNIT_SECTION[i] != "" ==> UNIT_SECTION[i][0] != 'E' && UNIT_SECTION[i][0] != '#';
    }
    forall i | 0 <= i < |CLOSING_SECTIONS| ensures !(prefix <= CLOSING_SECTIONS[i]) {
      assert CLOSING_SECTIONS[i] != "" ==> CLOSING_SECTIONS[i][0] != 'E' && CLOSING_SECTIONS[i][0] != '#';
    }
    NoDirectives(UNIT_SECTION, prefix);
    NoDirectives(CLOSING_SECTIONS, prefix);
  }

  lemma {:induction false} Three(a: string, b: string, c: string, prefix: string)
    ensures Directives([a, b, c], prefix) == Directives([a], prefix) + Directives([b], prefix) + Directives([c], prefix)
  {
    assert [a, b, c] == [a, b] + [c] && [a, b] == [a] + [b];
    DirectivesJoin([a, b], [c], prefix);
    DirectivesJoin([a], [b], prefix);
  }

  lemma {:induction false} One(prefix: string, w: string)
    ensures Directives([prefix + w], prefix) == [w]
  {
    assert [prefix + w][..0] == [] && (prefix + w)[|prefix|..] == w;
  }

  lemma {:induction false} Differs(l: string, prefix: string, k: nat)
    requires k < |l| && k < |prefix| && l[k] != prefix[k]
    ensures Directives([l], prefix) == []
  {
    assert [l][..0] == [];
  }

  lemma {:induction false} MarkersHoldNoSetting(x: UnitSpec, prefix: string)
    requires prefix == EXEC || prefix == ENVIRONMENT
    ensures Directives(Markers(x), prefix) == []
  {
    var i, h := INTERPRETER_MARKER + x.interpreter, HOME_MARKER + x.home;
    Three(UNIT_MARKER, i, h, prefix);
    Differs(UNIT_MARKER, prefix, 0);
    Differs(i, prefix, 0);
    Differs(h, prefix, 0);
  }

  lemma {:induction false} MarkerPositions()
    ensures |UNIT_MARKER| > 2 && UNIT_MARKER[2] == 'M'
    ensures |INTERPRETER_MARKER| > 15 && INTERPRETER_MARKER[15] == 'I'
    ensures |HOME_MARKER| > 15 && HOME_MARKER[2] == 'A' && HOME_MARKER[15] == 'H'
  {
  }

  lemma {:induction false} MarkersHoldHome(x: UnitSpec)
    ensures Directives(Markers(x), HOME_MARKER) == [x.home]
  {
    var i, h := INTERPRETER_MARKER + x.interpreter, HOME_MARKER + x.home;
    MarkerPositions();
    Three(UNIT_MARKER, i, h, HOME_MARKER);
    Differs(UNIT_MARKER, HOME_MARKER, 2);
    Differs(i, HOME_MARKER, 15);
    One(HOME_MARKER, x.home);
  }

  lemma {:induction false} SettingsDirectives(x: UnitSpec)
    ensures Directives(Settings(x), EXEC) == [QuotedWords(Argv(x), true)]
    ensures Directives(Settings(x), ENVIRONMENT) == [Quoted("PATH=" + x.path, false), Quoted(HOME_KEY + "=" + x.home, false)]
    ensures Directives(Settings(x), HOME_MARKER) == []
  {
    var words, path, home := QuotedWords(Argv(x), true), Quoted("PATH=" + x.path, false), Quoted(HOME_KEY + "=" + x.home, false);
    var e, p, h := EXEC + words, ENVIRONMENT + path, ENVIRONMENT + home;
    Three(e, p, h, EXEC);
    One(EXEC, words);
    Differs(p, EXEC, 1);
    Differs(h, EXEC, 1);
    Three(e, p, h, ENVIRONMENT);
    Differs(e, ENVIRONMENT, 1);
    One(ENVIRONMENT, path);
    One(ENVIRONMENT, home);
    Three(e, p, h, HOME_MARKER);
    Differs(e, HOME_MARKER, 0);
    Differs(p, HOME_MARKER, 0);
    Differs(h, HOME_MARKER, 0);
  }

  lemma {:induction false} JoinedFour(a: seq<string>, b: seq<string>, c: seq<string>, d: seq<string>, prefix: string)
    requires Directives(b, prefix) == [] && Directives(d, prefix) == []
    ensures Directives(a + b + c + d, prefix) == Directives(a, prefix) + Directives(c, prefix)
  {
    DirectivesJoin(a + b + c, d, prefix);
    DirectivesJoin(a + b, c, prefix);
    DirectivesJoin(a, b, prefix);
  }

  lemma {:induction false} LinesDirectives(x: UnitSpec, prefix: string)
    requires Keyword(prefix)
    ensures Directives(Lines(x), prefix) == Directives(Markers(x), prefix) + Directives(Settings(x), prefix)
  {
    var a, b, c, d := Markers(x), UNIT_SECTION, Settings(x), CLOSING_SECTIONS;
    SectionsHoldNone(prefix);
    JoinedFour(a, b, c, d, prefix);
  }

  // ----- the home

  lemma {:induction false} KeyLengthIs(key: string, value: string)
    requires '=' !in key
    ensures KeyLength(key + ['='] + value) == |key|
  {
    var entry := key + ['='] + value;
    if key != [] {
      KeyLengthIs(key[1..], value);
      assert entry[1..] == key[1..] + ['='] + value;
    }
  }

  lemma {:induction false} EntrySpecified(key: string, value: string)
    requires '%' !in key
    ensures Specified(key + "=" + value, false) == key + ['='] + Doubled(value, '%')
  {
    var mark: string := ['='];
    assert key + "=" + value == key + (mark + value);
    DoubledJoins(key, mark + value, '%');
    DoubledJoins(mark, value, '%');
    DoubledNothing(key, '%');
    DoubledNothing(mark, '%');
    assert key + (mark + Doubled(value, '%')) == key + mark + Doubled(value, '%');
  }

  lemma {:induction false} OneWord(whole: string)
    ensures Split(Quoted(whole, false)) == Some([Specified(whole, false)])
  {
    SplitQuotedWords([whole], false);
    assert SpecifiedAll([whole], false) == [Specified(whole, false)];
  }

  lemma {:induction false} OneEntry(key: string, value: string)
    requires '=' !in key && value != ""
    ensures HomesOfEntries([key + ['='] + value]) == Good(if key == HOME_KEY then [Undoubled(value, '%')] else [])
  {
    var entry := key + ['='] + value;
    KeyLengthIs(key, value);
    assert entry[..|key|] == key && entry[|key| + 1..] == value;
    var entries: seq<string> := [entry];
    var none: seq<string> := [];
    assert entries[..0] == none && HomesOfEntries(none) == Good(none);
    assert none + [Undoubled(value, '%')] == [Undoubled(value, '%')];
  }

  lemma {:induction false} EnvironmentReadBack(key: string, value: string)
    requires '=' !in key && '%' !in key && value != ""
    ensures Split(Quoted(key + "=" + value, false)).Some?
    ensures HomesOfEntries(Split(Quoted(key + "=" + value, false)).value) == Good(if key == HOME_KEY then [value] else [])
  {
    OneWord(key + "=" + value);
    EntrySpecified(key, value);
    OneEntry(key, Doubled(value, '%'));
    UndoubledDoubled(value, '%');
  }

  lemma {:induction false} DoubledNothing(s: string, c: char)
    requires c !in s
    ensures Doubled(s, c) == s
    decreases |s|
  {
    if s != [] {
      DoubledNothing(s[1..], c);
      assert s == [s[0]] + s[1..];
    }
  }

  /** The search path, which may be empty, names no home. */
  lemma {:induction false} PathNamesNoHome(path: string)
    ensures Split(Quoted("PATH=" + path, false)).Some?
    ensures HomesOfEntries(Split(Quoted("PATH=" + path, false)).value) == Good([])
  {
    OneWord("PATH=" + path);
    assert "PATH=" + path == "PATH" + "=" + path;
    EntrySpecified("PATH", path);
    var value := Doubled(path, '%');
    var entry := "PATH" + ['='] + value;
    KeyLengthIs("PATH", value);
    assert entry[..4] == "PATH";
    var entries: seq<string> := [entry];
    var none: seq<string> := [];
    assert entries[..0] == none && HomesOfEntries(none) == Good(none);
  }

  lemma {:induction false} HomesOfTwo(p: string, h: string, home: string)
    requires Split(p).Some? && HomesOfEntries(Split(p).value) == Good([])
    requires Split(h).Some? && HomesOfEntries(Split(h).value) == Good([home])
    ensures Homes([p, h]) == Good([home])
  {
    var one: seq<string> := [p];
    var two: seq<string> := [p, h];
    assert one[..0] == [] && two[..1] == one;
    var none: seq<string> := [];
    assert Homes(none) == Good(none) && none + none == none && none + [home] == [home];
    assert one[|one| - 1] == p && two[|two| - 1] == h;
    assert Homes(one) == Good(none);
  }

  lemma {:induction false} HomesReadBack(x: UnitSpec)
    requires x.home != ""
    ensures Homes(Directives(Lines(x), ENVIRONMENT)) == Good([x.home])
  {
    hide OneLine, Quoted, Split, Homes, HomesOfEntries, Directives, Lines;
    var p, h := Quoted("PATH=" + x.path, false), Quoted(HOME_KEY + "=" + x.home, false);
    assert Directives(Lines(x), ENVIRONMENT) == [p, h] by {
      LinesDirectives(x, ENVIRONMENT);
      MarkersHoldNoSetting(x, ENVIRONMENT);
      SettingsDirectives(x);
    }
    assert Split(p).Some? && HomesOfEntries(Split(p).value) == Good([]) by {
      PathNamesNoHome(x.path);
    }
    assert Split(h).Some? && HomesOfEntries(Split(h).value) == Good([x.home]) by {
      EnvironmentReadBack(HOME_KEY, x.home);
    }
    hide *;
    HomesOfTwo(p, h, x.home);
  }

  lemma {:induction false} CommandInLines(x: UnitSpec)
    requires ValidSpec(x)
    ensures CommandIn(Lines(x)) == Good(IdentityOf(x).command)
  {
    LinesDirectives(x, EXEC);
    MarkersHoldNoSetting(x, EXEC);
    SettingsDirectives(x);
    ArgumentsReadBack(Argv(x));
    CommandReadBack(x);
  }

  /** All lines of the unit read as its own identity. */
  lemma {:induction false} LinesReadBack(x: UnitSpec)
    requires ValidSpec(x)
    ensures ParseLines(Lines(x)) == Good(IdentityOf(x))
  {
    CommandInLines(x);
    HomesReadBack(x);
    assert Directives(Lines(x), HOME_MARKER) == [x.home] by {
      LinesDirectives(x, HOME_MARKER);
      MarkersHoldHome(x);
      SettingsDirectives(x);
    }
    EffectiveIs(x.home);
  }

  lemma {:induction false} EffectiveIs(home: string)
    requires home != ""
    ensures EffectiveHome([home], [home]) == Good(Some(home))
  {
  }

  // ----- values with line breaks

  lemma CutAtFirst(c: char, s: string)
    ensures Cut([c] + s) == if IsBreak(c) then [] else [c] + Cut(s)
  {
    assert ([c] + s)[1..] == s;
  }

  lemma SameOnceBegun(c: char, s: string, t: string, u: string)
    ensures [c] + s == [c] + t <==> s == t
    ensures [c] + (s + u) == [c] + s + u
  {
    assert ([c] + s)[1..] == s && ([c] + t)[1..] == t;
  }

  lemma {:induction false} CutOfJoined(a: string, b: string)
    ensures Cut(a + b) == if Cut(a) == a then a + Cut(b) else Cut(a)
    decreases |a|
  {
    if a == [] {
      assert a + b == b && a + Cut(b) == Cut(b);
    } else {
      hide Cut, IsBreak, OneLine;
      var c, rest := a[0], a[1..];
      CutOfJoined(rest, b);
      CutAtFirst(c, rest);
      CutAtFirst(c, rest + b);
      SameOnceBegun(c, rest, Cut(rest), b);
      SameOnceBegun(c, rest, Cut(rest), Cut(b));
      assert a == [c] + rest;
    }
  }

  lemma {:induction false} CutsNothing(a: string)
    ensures OneLine(a) <==> Cut(a) == a
    decreases |a|
  {
    if a != [] {
      CutsNothing(a[1..]);
      assert a == [a[0]] + a[1..];
    }
  }

  lemma {:induction false} CutPiece(piece: string, rest: string)
    requires OneLine(piece)
    ensures Cut(piece + rest) == piece + Cut(rest)
  {
    CutsNothing(piece);
    CutOfJoined(piece, rest);
  }

  lemma {:induction false} CutDoubled(s: string, c: char)
    requires !IsBreak(c)
    ensures Cut(Doubled(s, c)) == Doubled(Cut(s), c)
    decreases |s|
  {
    if s != [] && !IsBreak(s[0]) {
      CutDoubled(s[1..], c);
      CutPiece(if s[0] == c then [c, c] else [s[0]], Doubled(s[1..], c));
      assert ([s[0]] + Cut(s[1..]))[1..] == Cut(s[1..]);
    }
  }

  lemma {:induction false} DoubledOneLine(s: string, c: char)
    requires !IsBreak(c)
    ensures OneLine(Doubled(s, c)) <==> OneLine(s)
    decreases |s|
  {
    if s != [] {
      DoubledOneLine(s[1..], c);
      assert s == [s[0]] + s[1..] && s[0] in Doubled(s, c);
    }
  }

  lemma {:induction false} CutQuotes(s: string)
    ensures Cut(QuotesEscaped(s)) == QuotesEscaped(Cut(s))
    decreases |s|
  {
    if s != [] && !IsBreak(s[0]) {
      CutQuotes(s[1..]);
      CutPiece(if s[0] == '"' then ['\\', '"'] else [s[0]], QuotesEscaped(s[1..]));
      assert ([s[0]] + Cut(s[1..]))[1..] == Cut(s[1..]);
    }
  }

  lemma {:induction false} QuotesOneLine(s: string)
    ensures OneLine(QuotesEscaped(s)) <==> OneLine(s)
    decreases |s|
  {
    if s != [] {
      QuotesOneLine(s[1..]);
      assert s == [s[0]] + s[1..] && s[0] in QuotesEscaped(s);
    }
  }

  lemma {:induction false} CutEscaped(s: string)
    ensures Cut(Escape(s)) == Escape(Cut(s))
    ensures OneLine(Escape(s)) <==> OneLine(s)
  {
    CutDoubled(s, '\\');
    CutQuotes(Doubled(s, '\\'));
    DoubledOneLine(s, '\\');
    QuotesOneLine(Doubled(s, '\\'));
  }

  lemma {:induction false} OneLineSpecified(value: string, escapeDollar: bool)
    ensures OneLine(Specified(value, escapeDollar)) <==> OneLine(value)
  {
    DoubledOneLine(value, '%');
    DoubledOneLine(Doubled(value, '%'), '$');
  }

  lemma {:induction false} CutInQuotes(e: string)
    ensures Cut(['"'] + e + ['"']) == if OneLine(e) then ['"'] + e + ['"'] else ['"'] + Cut(e)
  {
    var mark: string := ['"'];
    assert mark[1..] == [] && Cut(mark) == mark;
    CutsNothing(e);
    CutOfJoined(mark, e + mark);
    CutOfJoined(e, mark);
    assert mark + e + mark == mark + (e + mark);
  }

  lemma {:induction false} CutQuoted(value: string, escapeDollar: bool)
    ensures OneLine(Quoted(value, escapeDollar)) <==> OneLine(value)
    ensures !OneLine(value) ==> Split(Cut(Quoted(value, escapeDollar))) == None
  {
    var s := Specified(value, escapeDollar);
    OneLineSpecified(value, escapeDollar);
    CutEscaped(s);
    CutInQuotes(Escape(s));
    CutsNothing(Quoted(value, escapeDollar));
    CutsNothing(Escape(s));
    OpenQuoteFails(Cut(s));
    if !OneLine(value) {
      assert |Cut(Escape(s))| < |Escape(s)|;
    }
  }

  lemma {:induction false} CutAfterSpace(rest: string)
    ensures Cut([' '] + rest) == [' '] + Cut(rest)
  {
    assert ([' '] + rest)[1..] == rest;
  }

  lemma {:induction false} LexAfterWord(value: string, cut: string)
    requires Split(cut) == None
    ensures Split(Quoted(value, true) + ([' '] + cut)) == None
  {
    hide Quoted, Specified;
    QuotedThen(value, true, [' '] + cut);
    assert ([' '] + cut)[1..] == cut;
  }

  lemma {:induction false} WordsUnfold(words: seq<string>)
    requires words != []
    ensures QuotedWords(words, true) ==
            if |words| == 1 then Quoted(words[0], true) else Quoted(words[0], true) + ([' '] + QuotedWords(words[1..], true))
  {
    hide Quoted;
  }

  lemma {:induction false} CutInFirst(words: seq<string>)
    requires words != [] && !OneLine(words[0])
    ensures Split(Cut(QuotedWords(words, true))) == None
  {
    hide Quoted, OneLine, Split, Cut, QuotedWords;
    var first := Quoted(words[0], true);
    WordsUnfold(words);
    CutQuoted(words[0], true);
    CutsNothing(first);
    if |words| > 1 {
      CutOfJoined(first, [' '] + QuotedWords(words[1..], true));
    }
  }

  lemma {:induction false} CutInRest(words: seq<string>)
    requires |words| > 1 && OneLine(words[0]) && Split(Cut(QuotedWords(words[1..], true))) == None
    ensures Split(Cut(QuotedWords(words, true))) == None
  {
    hide Quoted, OneLine, Split, Cut, QuotedWords;
    var first, rest := Quoted(words[0], true), QuotedWords(words[1..], true);
    WordsUnfold(words);
    CutQuoted(words[0], true);
    CutsNothing(first);
    CutOfJoined(first, [' '] + rest);
    CutAfterSpace(rest);
    LexAfterWord(words[0], Cut(rest));
  }

  /** A list of quoted words one of which holds a line break is cut inside an open quotation. */
  lemma {:induction false} CutWordsFail(words: seq<string>, k: nat)
    requires k < |words| && !OneLine(words[k])
    ensures Split(Cut(QuotedWords(words, true))) == None
    decreases |words|
  {
    hide Quoted, OneLine, Split, Cut, QuotedWords;
    if OneLine(words[0]) {
      CutWordsFail(words[1..], k - 1);
      CutInRest(words);
    } else {
      CutInFirst(words);
    }
  }

  lemma {:induction false} DirectiveKept(lines: seq<string>, prefix: string, rest: string)
    requires prefix + rest in lines
    ensures rest in Directives(lines, prefix)
  {
    var last := lines[|lines| - 1];
    if last == prefix + rest {
      assert last[|prefix|..] == rest;
    } else {
      DirectiveKept(lines[..|lines| - 1], prefix, rest);
    }
  }

  lemma {:induction false} BadDirective(directives: seq<string>, d: string)
    requires d in directives && Split(d) == None
    ensures Homes(directives).Bad?
  {
    if d != directives[|directives| - 1] {
      BadDirective(directives[..|directives| - 1], d);
    }
  }

  /** The head of a broken line remains a line, with its directive. */
  lemma {:induction false} HeadDirective(lines: seq<string>, i: nat, prefix: string, rest: string)
    requires i < |lines| && lines[i] == prefix + rest && OneLine(prefix)
    ensures Cut(rest) in Directives(AllPieces(lines), prefix)
  {
    HeadsKept(lines, i);
    CutsNothing(prefix);
    CutOfJoined(prefix, rest);
    DirectiveKept(AllPieces(lines), prefix, Cut(rest));
  }

  lemma {:induction false} KeysOneLine()
    ensures OneLine(EXEC) && OneLine(ENVIRONMENT) && OneLine(HOME_KEY)
  {
  }

  lemma {:induction false} UnitMarkerOneLine()
    ensures OneLine(UNIT_MARKER)
  {
  }

  lemma {:induction false} InterpreterMarkerOneLine()
    ensures OneLine(INTERPRETER_MARKER)
  {
  }

  lemma {:induction false} HomeMarkerOneLine()
    ensures OneLine(HOME_MARKER)
  {
  }

  lemma {:induction false} MarkersOneLine(x: UnitSpec, i: nat)
    requires i < 3 && OneLine(x.interpreter) && OneLine(x.home)
    ensures OneLine(Markers(x)[i])
  {
    UnitMarkerOneLine();
    InterpreterMarkerOneLine();
    HomeMarkerOneLine();
    JoinedOneLine(INTERPRETER_MARKER, x.interpreter);
    JoinedOneLine(HOME_MARKER, x.home);
    hide OneLine;
  }

  lemma {:induction false} JoinedOneLine(a: string, b: string)
    requires OneLine(a) && OneLine(b)
    ensures OneLine(a + b)
  {
  }

  lemma {:induction false} DescriptionOneLine()
    ensures OneLine(DESCRIPTION)
  {
  }

  lemma {:induction false} StartLimitsOneLine()
    ensures OneLine(UNIT_SECTION[2]) && OneLine(UNIT_SECTION[3])
  {
  }

  lemma {:induction false} UnitSectionOneLine(i: nat)
    requires i < |UNIT_SECTION|
    ensures OneLine(UNIT_SECTION[i])
  {
    DescriptionOneLine();
    StartLimitsOneLine();
    if i != 1 && i != 2 && i != 3 {
      assert OneLine(UNIT_SECTION[i]);
    }
  }

  lemma {:induction false} ServiceEndOneLine()
    ensures OneLine(CLOSING_SECTIONS[0]) && OneLine(CLOSING_SECTIONS[1]) && OneLine(CLOSING_SECTIONS[2])
  {
  }

  lemma {:induction false} ClosingOneLine(i: nat)
    requires i < |CLOSING_SECTIONS|
    ensures OneLine(CLOSING_SECTIONS[i])
  {
    ServiceEndOneLine();
    if i >= 3 {
      assert OneLine(CLOSING_SECTIONS[i]);
    }
  }

  lemma {:induction false} FlagsOneLine()
    ensures OneLine("-m") && OneLine("daemon") && OneLine("run") && OneLine("--manager") && OneLine(SYSTEMD)
    ensures OneLine("agent_collab.cli") && OneLine("--host") && OneLine("--port") && OneLine("--workdir")
  {
  }

  lemma {:induction false} PortOneLine(n: nat)
    ensures OneLine(Show(n))
  {
    assert forall c :: c in DIGITS ==> !IsBreak(c);
  }

  lemma {:induction false} ArgvOneLine(x: UnitSpec, i: nat)
    requires i < |Argv(x)| && AllValues(x, OneLine)
    ensures OneLine(Argv(x)[i])
  {
    FlagsOneLine();
    PortOneLine(x.port);
  }

  lemma {:induction false} ArgvBreaks(x: UnitSpec) returns (i: nat)
    requires !(OneLine(x.interpreter) && OneLine(x.host) && (x.workdir.Some? ==> OneLine(x.workdir.value)))
    ensures i < |Argv(x)| && !OneLine(Argv(x)[i])
  {
    i := if !OneLine(x.interpreter) then 0 else if !OneLine(x.host) then 8 else 12;
  }

  lemma {:induction false} WordsOneLine(words: seq<string>)
    requires forall i :: 0 <= i < |words| ==> OneLine(words[i])
    ensures OneLine(QuotedWords(words, true))
    decreases |words|
  {
    if words != [] {
      CutQuoted(words[0], true);
      WordsOneLine(words[1..]);
    }
  }

  lemma {:induction false} AllLinesOneLine(x: UnitSpec, i: nat)
    requires i < |Lines(x)| && AllValues(x, OneLine)
    ensures OneLine(Lines(x)[i])
  {
    hide OneLine;
    if i < 3 {
      MarkersOneLine(x, i);
    } else if i < 10 {
      UnitSectionOneLine(i - 3);
    } else if i < 13 {
      SettingsOneLine(x, i - 10);
    } else {
      ClosingOneLine(i - 13);
    }
  }

  lemma {:induction false} SettingsOneLine(x: UnitSpec, i: nat)
    requires i < 3 && AllValues(x, OneLine)
    ensures OneLine(Settings(x)[i])
  {
    KeysOneLine();
    if i == 0 {
      forall k | 0 <= k < |Argv(x)| ensures OneLine(Argv(x)[k]) {
        ArgvOneLine(x, k);
      }
      WordsOneLine(Argv(x));
    } else if i == 1 {
      CutQuoted("PATH=" + x.path, false);
    } else {
      CutQuoted(HOME_KEY + "=" + x.home, false);
    }
  }

  lemma {:induction false} BadExec(lines: seq<string>, cut: string)
    requires cut in Directives(lines, EXEC) && Split(cut) == None
    ensures CommandIn(lines).Bad?
  {
  }

  lemma {:induction false} BrokenCommand(x: UnitSpec)
    requires !(OneLine(x.interpreter) && OneLine(x.host) && (x.workdir.Some? ==> OneLine(x.workdir.value)))
    ensures CommandIn(AllPieces(Lines(x))).Bad?
  {
    hide Cut, Split, CommandIn, Directives, AllPieces, Argv, QuotedWords;
    var k := ArgvBreaks(x);
    var words := QuotedWords(Argv(x), true);
    CutWordsFail(Argv(x), k);
    assert Cut(words) in Directives(AllPieces(Lines(x)), EXEC) by {
      KeysOneLine();
      assert Lines(x)[10] == Settings(x)[0];
      HeadDirective(Lines(x), 10, EXEC, words);
    }
    hide *;
    BadExec(AllPieces(Lines(x)), Cut(words));
  }

  lemma {:induction false} BrokenEnvironment(x: UnitSpec, i: nat, value: string)
    requires 11 <= i <= 12 && Lines(x)[i] == ENVIRONMENT + Quoted(value, false) && !OneLine(value)
    ensures Homes(Directives(AllPieces(Lines(x)), ENVIRONMENT)).Bad?
  {
    CutQuoted(value, false);
    KeysOneLine();
    HeadDirective(Lines(x), i, ENVIRONMENT, Quoted(value, false));
    BadDirective(Directives(AllPieces(Lines(x)), ENVIRONMENT), Cut(Quoted(value, false)));
  }

  lemma {:induction false} BrokenValues(x: UnitSpec)
    requires !AllValues(x, OneLine)
    ensures ParseLines(AllPieces(Lines(x))).Bad?
  {
    if !OneLine(x.path) {
      assert Lines(x)[11] == Settings(x)[1];
      BrokenEnvironment(x, 11, "PATH=" + x.path);
    } else if !OneLine(x.home) {
      assert Lines(x)[12] == Settings(x)[2];
      BrokenEnvironment(x, 12, HOME_KEY + "=" + x.home);
    } else {
      BrokenCommand(x);
    }
  }

  lemma {:induction false} TextSplits(x: UnitSpec)
    requires RenderSystemdUnit(x).Some?
    ensures ParseUnit(RenderSystemdUnit(x).value) == ParseLines(AllPieces(Lines(x)))
  {
    JoinTerminates(Lines(x));
    SplitTerminated(Lines(x));
    assert Lines(x)[0] == UNIT_MARKER;
  }

  lemma {:induction false} UnbrokenValues(x: UnitSpec)
    requires AllValues(x, OneLine)
    ensures AllPieces(Lines(x)) == Lines(x)
  {
    forall l | l in Lines(x) ensures OneLine(l) {
      var i :| 0 <= i < |Lines(x)| && Lines(x)[i] == l;
      AllLinesOneLine(x, i);
    }
    PiecesOfOneLiners(Lines(x));
  }

  /**
   * A unit that renders reads back as exactly its interpreter, manager, host, port, working
   * directory and home, through percent and dollar doubling, backslashes and quotes, if no
   * value holds a line break; if one does, the unit does not parse at all.
   */
  lemma {:induction false} RoundTrip(x: UnitSpec)
    requires ValidSpec(x) && RenderSystemdUnit(x).Some?
    ensures ParseUnit(RenderSystemdUnit(x).value) == Good(IdentityOf(x)) <==> AllValues(x, OneLine)
    ensures ParseUnit(RenderSystemdUnit(x).value).Bad? <==> !AllValues(x, OneLine)
  {
    TextSplits(x);
    if AllValues(x, OneLine) {
      UnbrokenValues(x);
      LinesReadBack(x);
    } else {
      BrokenValues(x);
    }
  }
}
