/**
 From the text of a program to the tokens the loader compiles.
 */
module SourceText {
  import opened Machine
  import opened Lexer
  import opened Layout
  import Compiler
  import Reading

  // `lex_code`: no delimiters, so parentheses are words like others.
  const CODE := Config(Some("//"), [], true)

  // Which words are integers is left open: it is what `string_is_xint` and `string_parse_xint` say.
  type Numbers = string -> Option<int>

  // `postprocess_int`
  function Classified(t: Lexeme, numbers: Numbers): Compiler.Token {
    if t.kind.Str? then Compiler.Token(Compiler.StringLiteral, t.text, 0)
    else if numbers(t.text).Some? then Compiler.Token(Compiler.Integer, t.text, numbers(t.text).value)
    else Compiler.Token(Compiler.Generic, t.text, 0)
  }

  function AllClassified(ts: seq<Lexeme>, numbers: Numbers): seq<Compiler.Token> {
    seq(|ts|, i requires 0 <= i < |ts| => Classified(ts[i], numbers))
  }

  // The tokens of a program; `None` when the lexer fails an assertion.
  function Code(text: string, numbers: Numbers): Option<seq<Compiler.Token>> {
    match Lex(CODE, text) case None => None case Some(ts) => Some(AllClassified(ts, numbers))
  }

  // ----- A program as one writes it -----

  datatype Item = WordItem(text: string) | StringItem(chars: seq<Written>)

  predicate Fine(item: Item, gap: seq<Filler>) {
    && (forall i :: 0 <= i < |gap| ==> Fills(gap[i]))
    && match item
       case WordItem(text) =>
         && 0 < |text| <= 1024 && text[0] != '"' && !Starts(text, "//")
         && (forall i :: 0 <= i < |text| ==> text[i] !in BLANKS)
         && gap != [] && gap[0].Blank?
       case StringItem(chars) => AllWrite(chars) && |chars| <= 1024
  }

  function ItemText(item: Item): string {
    match item case WordItem(text) => text case StringItem(chars) => "\"" + SourceOf(chars) + "\""
  }

  // Each item followed by blanks and comments; a word needs a blank behind it, a string does not.
  function Text(items: seq<Item>, gaps: seq<seq<Filler>>): string
    requires |items| == |gaps|
  {
    if items == [] then "" else ItemText(items[0]) + GapText("//", gaps[0]) + Text(items[1..], gaps[1..])
  }

  function TokenOf(item: Item, numbers: Numbers): Compiler.Token {
    match item
    case StringItem(chars) => Compiler.Token(Compiler.StringLiteral, CString(ValueOf(chars)), 0)
    case WordItem(text) =>
      match numbers(text)
      case Some(n) => Compiler.Token(Compiler.Integer, text, n)
      case None => Compiler.Token(Compiler.Generic, text, 0)
  }

  function Tokens(items: seq<Item>, numbers: Numbers): seq<Compiler.Token> {
    seq(|items|, i requires 0 <= i < |items| => TokenOf(items[i], numbers))
  }

  lemma CodeSensible()
    ensures Sensible(CODE) && Marks(CODE, "//") && forall s :: Match(CODE.delimiters, s) == None
  {
  }

  lemma ReadItem(item: Item, gap: seq<Filler>, rest: string)
    requires Fine(item, gap)
    ensures CODE.delimiters == [] && Lex(CODE, ItemText(item) + GapText("//", gap) + rest)
         == Prepend([LexemeOf(item)], Lex(CODE, rest))
  {
    hide Lex, Match;
    CodeSensible();
    var tail := GapText("//", gap) + rest;
    assert ItemText(item) + GapText("//", gap) + rest == ItemText(item) + tail;
    OverGap(CODE, "//", gap, rest);
    match item
    case WordItem(text) =>
      assert tail[0] == gap[0].c;
      var s := text + tail;
      assert s[0] == text[0];
      assert |text| >= 2 ==> s[..2] == text[..2];
      assert |text| == 1 ==> s[..2][1] == tail[0] != '/';
      ReadWord(CODE, text, tail);
    case StringItem(chars) =>
      assert ItemText(item) + tail == "\"" + SourceOf(chars) + "\"" + tail;
      ReadString(CODE, chars, tail);
  }

  // However a program is laid out and commented, the compiler is given its words in order, integers with their
  // values, and its strings with their escapes replaced.
  lemma {:induction false} ProgramFromText(items: seq<Item>, gaps: seq<seq<Filler>>, numbers: Numbers)
    requires |items| == |gaps| && forall i :: 0 <= i < |items| ==> Fine(items[i], gaps[i])
    ensures Code(Text(items, gaps), numbers) == Some(Tokens(items, numbers))
    decreases |items|
  {
    hide Lex;
    if items == [] {
      LexNothing(CODE);
      assert AllClassified([], numbers) == Tokens(items, numbers);
    } else {
      ProgramFromText(items[1..], gaps[1..], numbers);
      ReadItem(items[0], gaps[0], Text(items[1..], gaps[1..]));
      var rest := Lex(CODE, Text(items[1..], gaps[1..])).value;
      OneMore(items, numbers, rest);
    }
  }

  function LexemeOf(item: Item): Lexeme {
    if item.StringItem? then Lexeme(Str, CString(ValueOf(item.chars))) else Lexeme(Generic, item.text)
  }

  lemma OneMore(items: seq<Item>, numbers: Numbers, rest: seq<Lexeme>)
    requires items != [] && AllClassified(rest, numbers) == Tokens(items[1..], numbers)
    ensures AllClassified([LexemeOf(items[0])] + rest, numbers) == Tokens(items, numbers)
  {
    var all := [LexemeOf(items[0])] + rest;
    assert AllClassified(all, numbers) == [Classified(LexemeOf(items[0]), numbers)] + AllClassified(rest, numbers);
    assert Tokens(items, numbers) == [TokenOf(items[0], numbers)] + Tokens(items[1..], numbers);
  }

  // Also with blanks and comments before the first item.
  lemma LeadingGap(gap: seq<Filler>, items: seq<Item>, gaps: seq<seq<Filler>>, numbers: Numbers)
    requires |items| == |gaps| && forall i :: 0 <= i < |items| ==> Fine(items[i], gaps[i])
    requires forall i :: 0 <= i < |gap| ==> Fills(gap[i])
    ensures Code(GapText("//", gap) + Text(items, gaps), numbers) == Some(Tokens(items, numbers))
  {
    hide Lex;
    CodeSensible();
    OverGap(CODE, "//", gap, Text(items, gaps));
    ProgramFromText(items, gaps, numbers);
  }

  // A body of words none of which is an integer is compiled from exactly these words.
  lemma BodyFromText(words: seq<string>, gaps: seq<seq<Filler>>, numbers: Numbers)
    requires |words| == |gaps| && forall i :: 0 <= i < |words| ==> Fine(WordItem(words[i]), gaps[i])
    requires forall i :: 0 <= i < |words| ==> numbers(words[i]).None?
    ensures Code(Text(seq(|words|, i requires 0 <= i < |words| => WordItem(words[i])), gaps), numbers)
         == Some(Reading.Words(words))
  {
    hide Lex;
    var items := seq(|words|, i requires 0 <= i < |words| => WordItem(words[i]));
    ProgramFromText(items, gaps, numbers);
    assert Tokens(items, numbers) == Reading.Words(words);
  }
}
