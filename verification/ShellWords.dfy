/**
 * Quoting of words for a unit file and their reading by POSIX shell lexing (section 2.2.3
 * of the POSIX.1-2017 Shell Command Language), as Python's shlex.split does it.
 */
module ShellWords {
  import opened Common

  /** `Escaped` remembers whether a backslash came inside double quotes. */
  datatype Mode = Blank | Word | Single | Double | Escaped(inQuotes: bool)

  predicate IsBlankChar(c: char) { c == ' ' || c == '\t' || c == '\r' || c == '\n' }

  /**
   * Read words from a place in the text: the mode, the characters of the word so far, and
   * whether any of it was quoted. None for an open quotation or a final backslash.
   */
  function Lex(s: string, mode: Mode, word: string): Option<seq<string>>
    decreases |s|
  {
    if s == [] then
      match mode
      case Blank => Some([])
      case Word => Some([word])
      case _ => None
    else
      var c := s[0];
      match mode
      case Blank =>
        if IsBlankChar(c) then Lex(s[1..], Blank, [])
        else if c == '\\' then Lex(s[1..], Escaped(false), [])
        else if c == '\'' then Lex(s[1..], Single, [])
        else if c == '"' then Lex(s[1..], Double, [])
        else Lex(s[1..], Word, [c])
      case Word =>
        if IsBlankChar(c) then
          var rest := Lex(s[1..], Blank, []);
          if rest.None? then None else Some([word] + rest.value)
        else if c == '\\' then Lex(s[1..], Escaped(false), word)
        else if c == '\'' then Lex(s[1..], Single, word)
        else if c == '"' then Lex(s[1..], Double, word)
        else Lex(s[1..], Word, word + [c])
      case Single => if c == '\'' then Lex(s[1..], Word, word) else Lex(s[1..], Single, word + [c])
      case Double =>
        if c == '"' then Lex(s[1..], Word, word)
        else if c == '\\' then Lex(s[1..], Escaped(true), word)
        else Lex(s[1..], Double, word + [c])
      case Escaped(inQuotes) =>
        if !inQuotes then Lex(s[1..], Word, word + [c])
        else if c == '\\' || c == '"' then Lex(s[1..], Double, word + [c])
        else Lex(s[1..], Double, word + ['\\', c])
  }

  function Split(s: string): Option<seq<string>> { Lex(s, Blank, []) }

  // ----- quoting

  /** Every occurrence of a character twice. */
  function Doubled(s: string, c: char): string {
    if s == [] then [] else (if s[0] == c then [c, c] else [s[0]]) + Doubled(s[1..], c)
  }

  /** Each pair of the character, from the left, once. */
  function Undoubled(s: string, c: char): string
    decreases |s|
  {
    if |s| >= 2 && s[0] == c && s[1] == c then [c] + Undoubled(s[2..], c)
    else if s == [] then []
    else [s[0]] + Undoubled(s[1..], c)
  }

  function QuotesEscaped(s: string): string {
    if s == [] then [] else (if s[0] == '"' then ['\\', '"'] else [s[0]]) + QuotesEscaped(s[1..])
  }

  /** What stands for the value once the shell quoting is undone. */
  function Specified(s: string, escapeDollar: bool): string {
    var percent := Doubled(s, '%');
    if escapeDollar then Doubled(percent, '$') else percent
  }

  function Escape(s: string): string { QuotesEscaped(Doubled(s, '\\')) }

  predicate Quotable(s: string) { '\n' !in s && '\r' !in s && '\0' !in s }

  function Quoted(s: string, escapeDollar: bool): string { ['"'] + Escape(Specified(s, escapeDollar)) + ['"'] }

  function QuotedWords(words: seq<string>, escapeDollar: bool): string {
    if words == [] then []
    else if |words| == 1 then Quoted(words[0], escapeDollar)
    else Quoted(words[0], escapeDollar) + [' '] + QuotedWords(words[1..], escapeDollar)
  }

  function SpecifiedAll(words: seq<string>, escapeDollar: bool): (r: seq<string>)
    ensures |r| == |words| && forall i :: 0 <= i < |r| ==> r[i] == Specified(words[i], escapeDollar)
  {
    seq(|words|, i requires 0 <= i < |words| => Specified(words[i], escapeDollar))
  }

  // ----- reading undoes quoting

  lemma {:induction false} UndoubledDoubled(s: string, c: char)
    ensures Undoubled(Doubled(s, c), c) == s
    decreases |s|
  {
    if s != [] {
      var rest := Doubled(s[1..], c);
      UndoubledDoubled(s[1..], c);
      if s[0] == c {
        assert Doubled(s, c)[2..] == rest;
      } else {
        assert Doubled(s, c)[1..] == rest;
      }
    }
  }

  lemma {:induction false} DoublingsCommute(s: string, c: char, d: char)
    requires c != d
    ensures Doubled(Doubled(s, c), d) == Doubled(Doubled(s, d), c)
    decreases |s|
  {
    if s != [] {
      DoublingsCommute(s[1..], c, d);
      DoubledJoins(if s[0] == c then [c, c] else [s[0]], Doubled(s[1..], c), d);
      DoubledJoins(if s[0] == d then [d, d] else [s[0]], Doubled(s[1..], d), c);
      assert [s[0], s[0]][1..] == [s[0]] && [s[0]][1..] == [];
      assert Doubled([s[0]], c) == if s[0] == c then [c, c] else [s[0]];
      assert Doubled([s[0]], d) == if s[0] == d then [d, d] else [s[0]];
      assert Doubled([s[0], s[0]], c) == if s[0] == c then [c, c, c, c] else [s[0], s[0]];
      assert Doubled([s[0], s[0]], d) == if s[0] == d then [d, d, d, d] else [s[0], s[0]];
    }
  }

  lemma DoubledNothing(c: char)
    ensures Doubled([], c) == []
  {}

  lemma DoubledFirst(x: char, s: string, c: char)
    ensures Doubled([x] + s, c) == (if x == c then [c, c] else [x]) + Doubled(s, c)
  {
    assert ([x] + s)[1..] == s;
  }

  lemma {:induction false} DoubledJoins(s: string, t: string, c: char)
    ensures Doubled(s + t, c) == Doubled(s, c) + Doubled(t, c)
    decreases |s|
  {
    hide Doubled;
    if s == [] {
      DoubledNothing(c);
      assert s + t == t && [] + Doubled(t, c) == Doubled(t, c);
    } else {
      var rest := s[1..];
      DoubledJoins(rest, t, c);
      DoubledFirst(s[0], rest, c);
      DoubledFirst(s[0], rest + t, c);
      assert s == [s[0]] + rest && s + t == [s[0]] + (rest + t);
    }
  }

  /** The replacements of the unit parser undo the doublings, whatever dollars and percent signs a value mixes. */
  lemma SpecifiersUndone(s: string)
    ensures Undoubled(Undoubled(Specified(s, true), '%'), '$') == s
    ensures Undoubled(Specified(s, false), '%') == s
  {
    DoublingsCommute(s, '%', '$');
    UndoubledDoubled(Doubled(s, '$'), '%');
    UndoubledDoubled(s, '$');
    UndoubledDoubled(s, '%');
  }

  lemma QuotesEscapedCons(c: char, t: string)
    ensures QuotesEscaped([c] + t) == (if c == '"' then ['\\', '"'] else [c]) + QuotesEscaped(t)
  {
    assert ([c] + t)[1..] == t;
  }

  lemma EscapeUnfolds(s: string)
    requires s != []
    ensures Escape(s) == (if s[0] == '\\' || s[0] == '"' then ['\\', s[0]] else [s[0]]) + Escape(s[1..])
  {
    var c := s[0];
    var rest := Doubled(s[1..], '\\');
    var q := QuotesEscaped(rest);
    assert Escape(s[1..]) == q;
    if c == '\\' {
      var twice := [c] + ([c] + rest);
      assert Doubled(s, '\\') == twice by {
        assert [c, c] + rest == twice;
      }
      QuotesEscapedCons(c, rest);
      QuotesEscapedCons(c, [c] + rest);
      assert [c] + ([c] + q) == ['\\', c] + q;
    } else {
      QuotesEscapedCons(c, rest);
      assert Doubled(s, '\\') == [c] + rest;
    }
  }

  /** Inside double quotes the lexer reads escaped text back, up to whatever follows. */
  lemma {:induction false} LexEscaped(s: string, tail: string, word: string)
    ensures Lex(Escape(s) + tail, Double, word) == Lex(tail, Double, word + s)
    decreases |s|
  {
    var text := Escape(s) + tail;
    if s == [] {
      assert text == tail && word + s == word;
    } else {
      EscapeUnfolds(s);
      var after := Escape(s[1..]) + tail;
      LexEscaped(s[1..], tail, word + [s[0]]);
      assert word + [s[0]] + s[1..] == word + s;
      if s[0] == '\\' || s[0] == '"' {
        assert text[0] == '\\' && text[1..] == [s[0]] + after;
        assert text[1..][1..] == after;
      } else {
        assert text[1..] == after;
      }
    }
  }

  lemma {:induction false} SpecifiedMore(words: seq<string>, escapeDollar: bool)
    requires words != []
    ensures SpecifiedAll(words, escapeDollar) == [Specified(words[0], escapeDollar)] + SpecifiedAll(words[1..], escapeDollar)
  {
    hide Specified;
  }

  /** Reading quoted words gives the words, with specifiers still doubled. */
  lemma {:induction false} SplitQuotedWords(words: seq<string>, escapeDollar: bool)
    ensures Split(QuotedWords(words, escapeDollar)) == Some(SpecifiedAll(words, escapeDollar))
    decreases |words|
  {
    hide Quoted, Specified, SpecifiedAll;
    if words != [] {
      var first := Specified(words[0], escapeDollar);
      var rest := QuotedWords(words[1..], escapeDollar);
      SpecifiedMore(words, escapeDollar);
      if |words| == 1 {
        QuotedThen(words[0], escapeDollar, []);
        assert Quoted(words[0], escapeDollar) + [] == Quoted(words[0], escapeDollar);
        NoWords(escapeDollar);
        assert words[1..] == [] && [first] + [] == [first];
        assert QuotedWords(words, escapeDollar) == Quoted(words[0], escapeDollar);
        assert Lex([], Word, first) == Some([first]);
      } else {
        SplitQuotedWords(words[1..], escapeDollar);
        QuotedThen(words[0], escapeDollar, [' '] + rest);
        assert ([' '] + rest)[1..] == rest;
        assert Quoted(words[0], escapeDollar) + ([' '] + rest) == QuotedWords(words, escapeDollar);
      }
    } else {
      NoWords(escapeDollar);
    }
  }

  lemma NoWords(escapeDollar: bool)
    ensures SpecifiedAll([], escapeDollar) == []
  {}

  lemma QuotedThen(value: string, escapeDollar: bool, more: string)
    ensures Lex(Quoted(value, escapeDollar) + more, Blank, []) == Lex(more, Word, Specified(value, escapeDollar))
  {
    var s := Specified(value, escapeDollar);
    var text := Quoted(value, escapeDollar) + more;
    assert text[1..] == Escape(s) + (['"'] + more);
    LexEscaped(s, ['"'] + more, []);
    assert [] + s == s && (['"'] + more)[1..] == more;
  }

  /** Quoted text that ends before its closing quote is never read. */
  lemma OpenQuoteFails(s: string)
    ensures Split(['"'] + Escape(s)) == None
  {
    var text := ['"'] + Escape(s);
    assert text[1..] == Escape(s) + [];
    LexEscaped(s, [], []);
  }
}
