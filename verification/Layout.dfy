/**
 What spaces, comments, delimiters, strings and words are to the lexer, spelled out character by character.
 */
module Layout {
  import opened Machine
  import opened Lexer

  // ----- Between tokens -----

  const BLANKS: set<char> := {' ', '\t', '\n', '\r', 11 as char, 12 as char}

  lemma BlankIsSpace(c: char)
    ensures Space(c) <==> c in BLANKS
  {
  }

  // A blank, or a comment to the end of its line.
  datatype Filler = Blank(c: char) | Comment(body: string)

  predicate Fills(f: Filler) {
    match f case Blank(c) => c in BLANKS case Comment(body) => '\n' !in body
  }

  function FillerText(mark: string, f: Filler): string {
    match f case Blank(c) => [c] case Comment(body) => mark + body + "\n"
  }

  function GapText(mark: string, gap: seq<Filler>): string {
    if gap == [] then "" else FillerText(mark, gap[0]) + GapText(mark, gap[1..])
  }

  // A mark that is not taken for a space.
  predicate Marks(c: Config, mark: string) {
    c.comment == Some(mark) && mark != "" && mark[0] !in BLANKS
  }

  lemma {:induction false} ToEndOfLine(body: string, rest: string)
    requires '\n' !in body
    ensures LineLength(body + "\n" + rest) == |body| + 1 && LineLength(body) == |body|
    decreases |body|
  {
    if body == "" {
      assert body + "\n" + rest == "\n" + rest;
    } else {
      assert (body + "\n" + rest)[1..] == body[1..] + "\n" + rest;
      ToEndOfLine(body[1..], rest);
    }
  }

  // A comment ends with its line, and what follows is read as if it were not there; without a line end it goes on to
  // the end of the text.
  lemma OverComment(c: Config, mark: string, body: string, rest: string)
    requires Sensible(c) && Marks(c, mark) && '\n' !in body
    ensures Lex(c, mark + body + "\n" + rest) == Lex(c, rest) && Lex(c, mark + body) == Some([])
  {
    ToEndOfLine(body, rest);
    BlankIsSpace(mark[0]);
    var s := mark + body + "\n" + rest;
    assert s[..|mark|] == mark && s[0] == mark[0] && s[|mark|..] == body + "\n" + rest;
    assert (body + "\n" + rest)[|body| + 1..] == rest;
    assert (mark + body)[..|mark|] == mark && (mark + body)[0] == mark[0] && (mark + body)[|mark|..] == body;
    assert body[|body|..] == "";
  }

  lemma OverBlank(c: Config, blank: char, rest: string)
    requires Sensible(c) && blank in BLANKS
    ensures Lex(c, [blank] + rest) == Lex(c, rest)
  {
    assert ([blank] + rest)[1..] == rest;
  }

  lemma {:induction false} OverGap(c: Config, mark: string, gap: seq<Filler>, rest: string)
    requires Sensible(c) && Marks(c, mark) && forall i :: 0 <= i < |gap| ==> Fills(gap[i])
    ensures Lex(c, GapText(mark, gap) + rest) == Lex(c, rest)
    decreases |gap|
  {
    hide Lex;
    if gap == [] {
      assert GapText(mark, gap) + rest == rest;
    } else {
      var more := GapText(mark, gap[1..]) + rest;
      assert GapText(mark, gap) + rest == FillerText(mark, gap[0]) + more;
      match gap[0] {
        case Blank(b) => OverBlank(c, b, more);
        case Comment(body) => OverComment(c, mark, body, more);
      }
      OverGap(c, mark, gap[1..], rest);
    }
  }

  // ----- Delimiters -----

  // The first delimiter of the list that the text starts with, not the longest.
  lemma {:induction false} FirstDelimiter(delimiters: seq<string>, s: string, k: nat)
    requires k < |delimiters| && Starts(s, delimiters[k])
    requires forall i :: 0 <= i < k ==> !Starts(s, delimiters[i])
    ensures Match(delimiters, s) == Some(delimiters[k])
    decreases |delimiters|
  {
    if k > 0 {
      FirstDelimiter(delimiters[1..], s, k - 1);
    }
  }

  lemma {:induction false} NoDelimiter(delimiters: seq<string>, s: string)
    requires forall i :: 0 <= i < |delimiters| ==> !Starts(s, delimiters[i])
    ensures Match(delimiters, s) == None
    decreases |delimiters|
  {
    if delimiters != [] {
      NoDelimiter(delimiters[1..], s);
    }
  }

  // ----- Strings -----

  // A character of a string as it is written: itself, or a backslash and a letter.
  datatype Written = Itself(c: char) | Escaped(letter: char)

  const ESCAPES: map<char, char> := map[
    'n' := '\n', 't' := '\t', 'r' := '\r', 'b' := 8 as char, 'f' := 12 as char, '0' := 0 as char,
    '"' := '"', '\\' := '\\']

  predicate Writes(w: Written) {
    match w case Itself(c) => c != '"' && c != '\\' case Escaped(letter) => letter in ESCAPES
  }

  predicate AllWrite(ws: seq<Written>) {
    forall i :: 0 <= i < |ws| ==> Writes(ws[i])
  }

  function ItsSource(w: Written): string {
    match w case Itself(c) => [c] case Escaped(letter) => ['\\', letter]
  }

  function SourceOf(ws: seq<Written>): string {
    if ws == [] then "" else ItsSource(ws[0]) + SourceOf(ws[1..])
  }

  function CharOf(w: Written): char {
    match w case Itself(c) => c case Escaped(letter) => if letter in ESCAPES then ESCAPES[letter] else letter
  }

  function ValueOf(ws: seq<Written>): string {
    if ws == [] then "" else [CharOf(ws[0])] + ValueOf(ws[1..])
  }

  lemma EscapeTable(letter: char)
    ensures Escape(letter) == if letter in ESCAPES then Some(ESCAPES[letter]) else None
  {
  }

  // Up to 1024 characters are read as what they are written for.
  lemma {:induction false} ScanWritten(ws: seq<Written>, buffer: string, tail: string)
    requires AllWrite(ws) && |buffer| + |ws| <= 1024
    ensures Scan(SourceOf(ws) + "\"" + tail, buffer) == Some((buffer + ValueOf(ws), |SourceOf(ws)|))
    decreases |ws|
  {
    hide Scan, ItsSource, CharOf;
    if ws == [] {
      assert SourceOf(ws) + "\"" + tail == "\"" + tail && buffer + ValueOf(ws) == buffer;
      QuoteScanned(tail, buffer);
    } else {
      var rest := SourceOf(ws[1..]) + "\"" + tail;
      ScanWritten(ws[1..], buffer + [CharOf(ws[0])], tail);
      assert buffer + [CharOf(ws[0])] + ValueOf(ws[1..]) == buffer + ValueOf(ws);
      OneScanned(ws[0], buffer, rest);
      assert SourceOf(ws) + "\"" + tail == ItsSource(ws[0]) + rest;
    }
  }

  lemma QuoteScanned(tail: string, buffer: string)
    ensures Scan("\"" + tail, buffer) == Some((buffer, 0))
  {
  }

  lemma OneScanned(w: Written, buffer: string, rest: string)
    requires Writes(w) && |buffer| < 1024
    ensures Scan(ItsSource(w) + rest, buffer)
         == Further(Scan(rest, buffer + [CharOf(w)]), |ItsSource(w)|)
  {
    hide Scan, Escape, Further;
    var s := ItsSource(w) + rest;
    match w
    case Itself(c) =>
      assert s[1..] == rest;
      CharScanned(s, buffer);
    case Escaped(letter) =>
      EscapeTable(letter);
      assert s[2..] == rest;
      EscapeScanned(s, buffer);
  }

  // A 1025th character, an unknown escape, a text that ends: no string.
  lemma {:induction false} ScanFails(ws: seq<Written>, buffer: string, tail: string)
    requires AllWrite(ws) && |buffer| <= 1024
    requires |buffer| + |ws| > 1024 || tail == "" || tail == "\\"
             || (|tail| > 1 && tail[0] == '\\' && tail[1] !in ESCAPES)
    ensures Scan(SourceOf(ws) + tail, buffer) == None
    decreases |ws|
  {
    var s := SourceOf(ws) + tail;
    if ws == [] {
      assert s == tail;
      if |tail| > 1 {
        EscapeTable(tail[1]);
      }
    } else {
      var rest := SourceOf(ws[1..]) + tail;
      match ws[0]
      case Itself(c) =>
        assert s == [c] + rest && s[1..] == rest;
        if |buffer| < 1024 {
          ScanFails(ws[1..], buffer + [c], tail);
        }
      case Escaped(letter) =>
        EscapeTable(letter);
        assert s == ['\\', letter] + rest && s[2..] == rest;
        if |buffer| < 1024 {
          ScanFails(ws[1..], buffer + [ESCAPES[letter]], tail);
        }
    }
  }

  // A token is a C string: it ends before the first null character.
  lemma {:induction false} CStringEnds(a: string, b: string)
    requires 0 as char !in a
    ensures CString(a) == a && CString(a + [0 as char] + b) == a
    decreases |a|
  {
    if a == "" {
      assert a + [0 as char] + b == [0 as char] + b;
    } else {
      assert (a + [0 as char] + b)[1..] == a[1..] + [0 as char] + b;
      CStringEnds(a[1..], b);
    }
  }

  predicate StringsHere(c: Config, s: string) {
    && Sensible(c) && c.strings && (c.comment.Some? ==> !Starts(s, c.comment.value))
    && Match(c.delimiters, s).None?
  }

  lemma ReadString(c: Config, ws: seq<Written>, tail: string)
    requires AllWrite(ws) && |ws| <= 1024 && StringsHere(c, "\"" + SourceOf(ws) + "\"" + tail)
    ensures Lex(c, "\"" + SourceOf(ws) + "\"" + tail)
         == Prepend([Lexeme(Str, CString(ValueOf(ws)))], Lex(c, tail))
  {
    hide Lex, Scan, Match;
    var s := "\"" + SourceOf(ws) + "\"" + tail;
    ScanWritten(ws, "", tail);
    assert s[1..] == SourceOf(ws) + "\"" + tail;
    assert "" + ValueOf(ws) == ValueOf(ws);
    LexString(c, s);
    assert s[|SourceOf(ws)| + 2..] == tail;
  }

  lemma StringFails(c: Config, ws: seq<Written>, tail: string)
    requires AllWrite(ws) && StringsHere(c, "\"" + SourceOf(ws) + tail)
    requires |ws| > 1024 || tail == "" || tail == "\\" || (|tail| > 1 && tail[0] == '\\' && tail[1] !in ESCAPES)
    ensures Lex(c, "\"" + SourceOf(ws) + tail) == None
  {
    hide Lex, Scan, Match;
    var s := "\"" + SourceOf(ws) + tail;
    ScanFails(ws, "", tail);
    assert s[1..] == SourceOf(ws) + tail;
    LexString(c, s);
  }

  // ----- Words -----

  // Up to the next blank or delimiter, or the end of the text.
  predicate Ends(c: Config, tail: string) {
    tail == "" || tail[0] in BLANKS || Match(c.delimiters, tail).Some?
  }

  predicate Word(c: Config, text: string, tail: string) {
    && text != "" && (c.strings ==> text[0] != '"') && (c.comment.Some? ==> !Starts(text + tail, c.comment.value))
    && Ends(c, tail)
    && forall i :: 0 <= i < |text| ==> text[i] !in BLANKS && Match(c.delimiters, text[i..] + tail).None?
  }

  lemma {:induction false} LengthOfWord(c: Config, text: string, tail: string)
    requires Ends(c, tail)
    requires forall i :: 0 <= i < |text| ==> text[i] !in BLANKS && Match(c.delimiters, text[i..] + tail).None?
    ensures WordLength(c, text + tail) == |text|
    decreases |text|
  {
    hide Match;
    if text == "" {
      assert text + tail == tail;
      if tail != "" { BlankIsSpace(tail[0]); }
    } else {
      assert text[0..] == text && (text + tail)[1..] == text[1..] + tail;
      BlankIsSpace(text[0]);
      forall i | 0 <= i < |text[1..]|
        ensures text[1..][i] !in BLANKS && Match(c.delimiters, text[1..][i..] + tail).None?
      {
        assert text[1..][i..] == text[i + 1..];
      }
      LengthOfWord(c, text[1..], tail);
    }
  }

  // A word is read as it stands, unless it has more than 1024 characters.
  lemma ReadWord(c: Config, text: string, tail: string)
    requires Sensible(c) && Word(c, text, tail)
    ensures Lex(c, text + tail)
         == if |text| > 1024 then None else Prepend([Lexeme(Generic, text)], Lex(c, tail))
  {
    hide Lex, Match;
    LengthOfWord(c, text, tail);
    BlankIsSpace(text[0]);
    assert text[0..] == text;
    LexWord(c, text + tail);
    assert (text + tail)[..|text|] == text && (text + tail)[|text|..] == tail;
  }

  // ----- Positions -----

  // Lines and columns are counted from 1; a line feed begins a line, any other character is one column.
  lemma Positions(s: string, c: char)
    ensures Line("") == Column("") == 1
    ensures Line(s + [c]) == if c == '\n' then Line(s) + 1 else Line(s)
    ensures Column(s + [c]) == if c == '\n' then 1 else Column(s) + 1
  {
    assert (s + [c])[..|s|] == s;
  }
}
