/**
 S-expressions: parsing undoes printing.
 */
module Sexps {
  import opened Machine
  import opened Lexer

  // Integers and floats are words here: which of them a word is depends on its text alone.
  datatype Sexp = Atom(kind: Kind, text: string) | List(items: seq<Sexp>)

  const CONFIG := Config(Some(";"), ["(", ")"], true)

  // ----- Printing -----

  function Print(x: Sexp): string
    decreases x
  {
    match x
    case Atom(Str, text) => "\"" + text + "\""
    case Atom(_, text) => text
    case List(items) => "(" + PrintItems(items) + ")"
  }

  function PrintItems(items: seq<Sexp>): string
    decreases items
  {
    if items == [] then ""
    else if |items| == 1 then Print(items[0])
    else Print(items[0]) + " " + PrintItems(items[1..])
  }

  // ----- Parsing -----

  // `parse_sexp`; at the end of the tokens `list_shift` gives null, so a list need not be closed.
  function ParseOne(tokens: seq<Lexeme>): (r: (Sexp, seq<Lexeme>))
    requires tokens != []
    ensures |r.1| < |tokens|
    decreases |tokens|, 0
  {
    if tokens[0].text == "(" then
      var (items, rest) := ParseMany(tokens[1..]);
      (List(items), if rest == [] then [] else rest[1..])
    else (Atom(tokens[0].kind, tokens[0].text), tokens[1..])
  }

  // `parse_list`
  function ParseMany(tokens: seq<Lexeme>): (r: (seq<Sexp>, seq<Lexeme>))
    ensures |r.1| <= |tokens|
    decreases |tokens|, 1
  {
    if tokens == [] || tokens[0].text == ")" then ([], tokens)
    else
      var (first, rest) := ParseOne(tokens);
      var (more, last) := ParseMany(rest);
      ([first] + more, last)
  }

  // `sexp_parse_list`; `None` when an assertion of the program fails.
  function Parse(s: string): Option<seq<Sexp>> {
    match Lex(CONFIG, s)
    case None => None
    case Some(tokens) => if ParseMany(tokens).1 == [] then Some(ParseMany(tokens).0) else None
  }

  // ----- Which trees survive -----

  predicate WordChar(c: char) {
    !Space(c) && c != '(' && c != ')'
  }

  predicate LegalWord(text: string) {
    && 0 < |text| <= LONGEST && text[0] != ';' && text[0] != '"'
    && forall i :: 0 <= i < |text| ==> WordChar(text[i])
  }

  ghost predicate Legal(x: Sexp)
    decreases x
  {
    match x
    case Atom(Generic, text) => LegalWord(text)
    case Atom(Str, text) => |text| <= LONGEST && text != "(" && text != ")"
    case Atom(Delimiter, _) => false
    case List(items) => forall i :: 0 <= i < |items| ==> Legal(items[i])
  }

  // A string that needs no escapes.
  predicate PlainText(text: string) {
    forall i :: 0 <= i < |text| ==> text[i] != '"' && text[i] != '\\' && text[i] != 0 as char
  }

  ghost predicate Plain(x: Sexp)
    decreases x
  {
    match x
    case Atom(Str, text) => PlainText(text)
    case Atom(_, _) => true
    case List(items) => forall i :: 0 <= i < |items| ==> Plain(items[i])
  }

  // ----- Reading back one token -----

  lemma MatchParens(s: string)
    ensures Match(CONFIG.delimiters, s)
         == if s != "" && s[0] == '(' then Some("(") else if s != "" && s[0] == ')' then Some(")") else None
    ensures Starts(s, ";") <==> s != "" && s[0] == ';'
  {
    assert Starts(s, "(") <==> s != "" && s[0] == '(';
    assert Starts(s, ")") <==> s != "" && s[0] == ')';
    assert CONFIG.delimiters[1..] == [")"] && CONFIG.delimiters[1..][1..] == [];
  }

  // What may follow a word.
  predicate Boundary(tail: string) {
    tail == "" || tail[0] == ' ' || tail[0] == ')'
  }

  lemma {:induction false} WordLengthIs(text: string, tail: string)
    requires Boundary(tail) && forall i :: 0 <= i < |text| ==> WordChar(text[i])
    ensures WordLength(CONFIG, text + tail) == |text|
    decreases |text|
  {
    MatchParens(text + tail);
    if text == "" {
      assert text + tail == tail;
    } else {
      assert (text + tail)[1..] == text[1..] + tail;
      WordLengthIs(text[1..], tail);
    }
  }

  lemma ReadWord(text: string, tail: string)
    requires LegalWord(text) && Boundary(tail)
    ensures Lex(CONFIG, text + tail) == Prepend([Lexeme(Generic, text)], Lex(CONFIG, tail))
  {
    hide Lex;
    var s := text + tail;
    MatchParens(s);
    WordLengthIs(text, tail);
    assert WordChar(text[0]) && s[0] == text[0];
    LexWord(CONFIG, s);
    assert s[..|text|] == text && s[|text|..] == tail;
  }

  lemma {:induction false} ScanPlain(text: string, buffer: string, tail: string)
    requires PlainText(text) && |buffer| + |text| <= LONGEST
    ensures Scan(text + "\"" + tail, buffer) == Some((buffer + text, |text|))
    decreases |text|
  {
    var s := text + "\"" + tail;
    if text == "" {
      assert s[0] == '"' && buffer + text == buffer;
    } else {
      assert s[0] == text[0] && s[1..] == text[1..] + "\"" + tail;
      ScanPlain(text[1..], buffer + [text[0]], tail);
      assert buffer + [text[0]] + text[1..] == buffer + text;
    }
  }

  lemma {:induction false} CStringPlain(text: string)
    requires PlainText(text)
    ensures CString(text) == text
    decreases |text|
  {
    if text != "" {
      CStringPlain(text[1..]);
    }
  }

  lemma ReadString(text: string, tail: string)
    requires PlainText(text) && |text| <= LONGEST
    ensures Lex(CONFIG, "\"" + text + "\"" + tail) == Prepend([Lexeme(Str, text)], Lex(CONFIG, tail))
  {
    hide Lex, Scan, CString;
    var s := "\"" + text + "\"" + tail;
    MatchParens(s);
    assert s[0] == '"' && s[1..] == text + "\"" + tail;
    ScanPlain(text, "", tail);
    CStringPlain(text);
    LexString(CONFIG, s);
    assert "" + text == text && s[|text| + 2..] == tail;
  }

  lemma ReadParen(paren: string, tail: string)
    requires paren == "(" || paren == ")"
    ensures Lex(CONFIG, paren + tail) == Prepend([Lexeme(Delimiter, paren)], Lex(CONFIG, tail))
  {
    hide Lex;
    var s := paren + tail;
    MatchParens(s);
    LexDelimiter(CONFIG, s);
    assert s[1..] == tail;
  }

  lemma ReadSpace(tail: string)
    ensures Lex(CONFIG, " " + tail) == Lex(CONFIG, tail)
  {
    assert (" " + tail)[1..] == tail;
  }

  // ----- Reading back a tree as tokens -----

  function Tokens(x: Sexp): seq<Lexeme>
    decreases x
  {
    match x
    case Atom(kind, text) => [Lexeme(kind, text)]
    case List(items) => [Lexeme(Delimiter, "(")] + TokensOf(items) + [Lexeme(Delimiter, ")")]
  }

  function TokensOf(items: seq<Sexp>): seq<Lexeme>
    decreases items
  {
    if items == [] then [] else Tokens(items[0]) + TokensOf(items[1..])
  }

  lemma PrependAppend(a: seq<Lexeme>, b: seq<Lexeme>, more: Option<seq<Lexeme>>)
    ensures Prepend(a, Prepend(b, more)) == Prepend(a + b, more)
  {
    if more.Some? {
      assert a + (b + more.value) == a + b + more.value;
    }
  }

  lemma {:induction false} LexPrinted(x: Sexp, tail: string)
    requires Legal(x) && Plain(x) && Boundary(tail)
    ensures Lex(CONFIG, Print(x) + tail) == Prepend(Tokens(x), Lex(CONFIG, tail))
    decreases x
  {
    hide Lex;
    match x
    case Atom(Str, text) => ReadString(text, tail);
    case Atom(_, text) => ReadWord(text, tail);
    case List(items) =>
      var inside := PrintItems(items) + (")" + tail);
      assert Print(x) + tail == "(" + inside;
      ReadParen("(", inside);
      LexPrintedItems(items, tail);
      PrependAppend([Lexeme(Delimiter, "(")], TokensOf(items) + [Lexeme(Delimiter, ")")], Lex(CONFIG, tail));
      assert [Lexeme(Delimiter, "(")] + (TokensOf(items) + [Lexeme(Delimiter, ")")]) == Tokens(x);
  }

  lemma {:induction false} LexPrintedItems(items: seq<Sexp>, tail: string)
    requires forall i :: 0 <= i < |items| ==> Legal(items[i]) && Plain(items[i])
    ensures Lex(CONFIG, PrintItems(items) + (")" + tail))
         == Prepend(TokensOf(items) + [Lexeme(Delimiter, ")")], Lex(CONFIG, tail))
    decreases items
  {
    hide Lex;
    var close := ")" + tail;
    ReadParen(")", tail);
    if items == [] {
      assert PrintItems(items) + close == close;
      assert TokensOf(items) + [Lexeme(Delimiter, ")")] == [Lexeme(Delimiter, ")")];
    } else if |items| == 1 {
      LexPrinted(items[0], close);
      PrependAppend(Tokens(items[0]), [Lexeme(Delimiter, ")")], Lex(CONFIG, tail));
      assert TokensOf(items) == Tokens(items[0]) + [] == Tokens(items[0]);
    } else {
      var rest := PrintItems(items[1..]) + close;
      assert PrintItems(items) + close == Print(items[0]) + (" " + rest);
      LexPrinted(items[0], " " + rest);
      ReadSpace(rest);
      LexPrintedItems(items[1..], tail);
      PrependAppend(Tokens(items[0]), TokensOf(items[1..]) + [Lexeme(Delimiter, ")")], Lex(CONFIG, tail));
      assert Tokens(items[0]) + (TokensOf(items[1..]) + [Lexeme(Delimiter, ")")])
          == TokensOf(items) + [Lexeme(Delimiter, ")")];
    }
  }

  // ----- Parsing the tokens of a tree -----

  lemma {:induction false} ParseTokens(x: Sexp, rest: seq<Lexeme>)
    requires Legal(x)
    ensures Tokens(x) + rest != [] && (Tokens(x) + rest)[0].text != ")"
    ensures ParseOne(Tokens(x) + rest) == (x, rest)
    decreases x
  {
    var tokens := Tokens(x) + rest;
    match x
    case Atom(kind, text) =>
      assert tokens[1..] == rest;
      assert kind.Generic? ==> WordChar(text[0]);
    case List(items) =>
      var close := [Lexeme(Delimiter, ")")] + rest;
      assert tokens[1..] == TokensOf(items) + close;
      ParseTokensOf(items, close);
      assert close[1..] == rest;
  }

  lemma {:induction false} ParseTokensOf(items: seq<Sexp>, rest: seq<Lexeme>)
    requires forall i :: 0 <= i < |items| ==> Legal(items[i])
    requires rest == [] || rest[0].text == ")"
    ensures ParseMany(TokensOf(items) + rest) == (items, rest)
    decreases items
  {
    var tokens := TokensOf(items) + rest;
    if items == [] {
      assert tokens == rest;
    } else {
      assert tokens == Tokens(items[0]) + (TokensOf(items[1..]) + rest);
      ParseTokens(items[0], TokensOf(items[1..]) + rest);
      ParseTokensOf(items[1..], rest);
      assert [items[0]] + items[1..] == items;
    }
  }

  // ----- What parsing can give at all -----

  predicate Fit(t: Lexeme) {
    match t.kind
    case Generic => LegalWord(t.text)
    case Str => |t.text| <= LONGEST
    case Delimiter => t.text == "(" || t.text == ")"
  }

  lemma {:induction false} WordFits(s: string, k: nat)
    requires k < WordLength(CONFIG, s)
    ensures WordChar(s[k])
    decreases k
  {
    MatchParens(s);
    if k > 0 {
      WordFits(s[1..], k - 1);
    }
  }

  lemma {:induction false} ScanFits(s: string, buffer: string)
    requires |buffer| <= LONGEST
    ensures Scan(s, buffer).Some? ==> |Scan(s, buffer).value.0| <= LONGEST
    decreases |s|
  {
    if s != "" && s[0] != '"' && |buffer| < LONGEST {
      if s[0] == '\\' {
        if |s| > 1 && Escape(s[1]).Some? {
          ScanFits(s[2..], buffer + [Escape(s[1]).value]);
        }
      } else {
        ScanFits(s[1..], buffer + [s[0]]);
      }
    }
  }

  lemma {:induction false} CStringShort(s: string)
    ensures |CString(s)| <= |s|
    decreases |s|
  {
    if s != "" && s[0] != 0 as char {
      CStringShort(s[1..]);
    }
  }

  lemma {:induction false} LexFits(s: string)
    requires Lex(CONFIG, s).Some?
    ensures forall t :: t in Lex(CONFIG, s).value ==> Fit(t)
    decreases |s|
  {
    MatchParens(s);
    if s == "" {
    } else if Space(s[0]) {
      LexFits(s[1..]);
    } else if s[0] == ';' {
      var rest := s[1..];
      LexFits(rest[LineLength(rest)..]);
    } else if s[0] == '(' || s[0] == ')' {
      LexFits(s[1..]);
    } else if s[0] == '"' {
      var (text, n) := Scan(s[1..], "").value;
      ScanFits(s[1..], "");
      CStringShort(text);
      LexFits(s[n + 2..]);
    } else {
      WordLexFits(s);
    }
  }

  lemma {:induction false} WordLexFits(s: string)
    requires s != "" && !Space(s[0]) && s[0] != ';' && s[0] != '(' && s[0] != ')' && s[0] != '"'
    requires Lex(CONFIG, s).Some?
    ensures forall t :: t in Lex(CONFIG, s).value ==> Fit(t)
    decreases |s|, 0
  {
    hide Lex, Scan;
    MatchParens(s);
    LexWord(CONFIG, s);
    var n := WordLength(CONFIG, s);
    forall k | 0 <= k < n
      ensures WordChar(s[k])
    {
      WordFits(s, k);
    }
    assert LegalWord(s[..n]);
    LexFits(s[n..]);
  }

  lemma {:induction false} ParseOneLegal(tokens: seq<Lexeme>)
    requires tokens != [] && tokens[0].text != ")" && forall t :: t in tokens ==> Fit(t)
    ensures Legal(ParseOne(tokens).0) && forall t :: t in ParseOne(tokens).1 ==> t in tokens
    decreases |tokens|, 0
  {
    assert Fit(tokens[0]);
    if tokens[0].text == "(" {
      ParseManyLegal(tokens[1..]);
      var rest := ParseMany(tokens[1..]).1;
      forall t | rest != [] && t in rest[1..]
        ensures t in tokens
      {
        assert t in rest;
      }
    }
  }

  lemma {:induction false} ParseManyLegal(tokens: seq<Lexeme>)
    requires forall t :: t in tokens ==> Fit(t)
    ensures forall x :: x in ParseMany(tokens).0 ==> Legal(x)
    ensures forall t :: t in ParseMany(tokens).1 ==> t in tokens
    decreases |tokens|, 1
  {
    if tokens != [] && tokens[0].text != ")" {
      ParseOneLegal(tokens);
      ParseManyLegal(ParseOne(tokens).1);
    }
  }

  // Whatever is parsed, the trees are legal.
  lemma ParsedLegal(s: string)
    requires Parse(s).Some?
    ensures forall x :: x in Parse(s).value ==> Legal(x)
  {
    LexFits(s);
    ParseManyLegal(Lex(CONFIG, s).value);
  }

  // ----- What is lost -----

  predicate Prefix(a: string, b: string) {
    |a| <= |b| && b[..|a|] == a
  }

  lemma {:induction false} ScanExtends(s: string, buffer: string)
    ensures Scan(s, buffer).Some? ==> Prefix(buffer, Scan(s, buffer).value.0)
    decreases |s|
  {
    hide Escape;
    if s != "" && s[0] != '"' && |buffer| < LONGEST {
      if s[0] == '\\' {
        if |s| > 1 && Escape(s[1]).Some? {
          ScanExtends(s[2..], buffer + [Escape(s[1]).value]);
        }
      } else {
        ScanExtends(s[1..], buffer + [s[0]]);
      }
    }
  }

  lemma {:induction false} CStringPrefix(s: string)
    ensures Prefix(CString(s), s) && forall i :: 0 <= i < |CString(s)| ==> CString(s)[i] != 0 as char
    decreases |s|
  {
    if s != "" && s[0] != 0 as char {
      CStringPrefix(s[1..]);
    }
  }

  lemma PrefixAt(text: string, b: string, c: char, r: string)
    requires |b| < |text| && Prefix(b + [c], r) && Prefix(text, r)
    ensures text[|b|] == c
  {
    assert (b + [c])[|b|] == c;
    assert r[..|b| + 1][|b|] == r[|b|] && r[..|text|][|b|] == r[|b|];
  }

  // Once escapes have made the buffer lag behind the text, with nothing but backslashes in between, it never catches
  // up: the next character to come out has to be a backslash, for which two are needed.
  lemma {:induction false} NeverCatchesUp(text: string, rest: string, c: nat, buffer: string)
    requires rest != "" && rest[0] == '"' && |buffer| < c <= |text|
    requires forall i :: |buffer| <= i < c ==> text[i] == '\\'
    ensures Scan(text[c..] + rest, buffer).Some? ==> !Prefix(text, Scan(text[c..] + rest, buffer).value.0)
    decreases |text| - c
  {
    var s := text[c..] + rest;
    if c < |text| && Scan(s, buffer).Some? && Prefix(text, Scan(s, buffer).value.0) {
      var r := Scan(s, buffer).value.0;
      assert s[0] == text[c];
      if text[c] == '\\' {
        var e := Escape(s[1]).value;
        ScanExtends(s[2..], buffer + [e]);
        PrefixAt(text, buffer, e, r);
        assert s[1] == '\\';
        assert c + 1 < |text| && s[1] == text[c + 1] && s[2..] == text[c + 2..] + rest;
        NeverCatchesUp(text, rest, c + 2, buffer + [e]);
      } else if text[c] != '"' {
        ScanExtends(s[1..], buffer + [s[0]]);
        PrefixAt(text, buffer, s[0], r);
      }
    }
  }

  // A string that is not plain is not read back as itself.
  lemma {:induction false} StringLost(done: string, more: string, rest: string)
    requires PlainText(done) && !PlainText(more) && rest != "" && rest[0] == '"'
    ensures Scan(more + rest, done).Some? ==> CString(Scan(more + rest, done).value.0) != done + more
    decreases |more|
  {
    var s, text := more + rest, done + more;
    if Scan(s, done).Some? && CString(Scan(s, done).value.0) == text {
      var r := Scan(s, done).value.0;
      CStringPrefix(r);
      var c := more[0];
      assert s[0] == c == text[|done|];
      if c == '\\' {
        var e := Escape(s[1]).value;
        ScanExtends(s[2..], done + [e]);
        PrefixAt(text, done, e, r);
        assert s[1] == '\\' && |more| > 1 && s[1] == more[1] == text[|done| + 1];
        assert s[2..] == text[|done| + 2..] + rest;
        NeverCatchesUp(text, rest, |done| + 2, done + [e]);
      } else if c != '"' {
        assert s[1..] == more[1..] + rest && done + [c] + more[1..] == text;
        StringLost(done + [c], more[1..], rest);
      }
    }
  }

  lemma ReadLost(text: string, tail: string)
    requires !PlainText(text)
    ensures var s := "\"" + text + "\"" + tail;
            Lex(CONFIG, s).Some? ==>
              var tokens := Lex(CONFIG, s).value; tokens != [] && ParseOne(tokens).0 != Atom(Str, text)
  {
    hide Lex, Scan, CString;
    var s := "\"" + text + "\"" + tail;
    MatchParens(s);
    assert s[0] == '"' && s[1..] == text + ("\"" + tail);
    LexString(CONFIG, s);
    StringLost("", text, "\"" + tail);
    assert "" + text == text;
  }

  // A tree that is legal but not plain is read back as another one, ...
  lemma {:induction false} TreeLost(x: Sexp, tail: string)
    requires Legal(x) && !Plain(x) && Lex(CONFIG, Print(x) + tail).Some?
    ensures var tokens := Lex(CONFIG, Print(x) + tail).value; tokens != [] && ParseOne(tokens).0 != x
    decreases x
  {
    hide Lex;
    match x
    case Atom(_, text) => ReadLost(text, tail);
    case List(items) =>
      var inside := PrintItems(items) + (")" + tail);
      assert Print(x) + tail == "(" + inside;
      ReadParen("(", inside);
      ItemsLost(items, tail);
      var tokens := Lex(CONFIG, Print(x) + tail).value;
      assert tokens[1..] == Lex(CONFIG, inside).value;
  }

  // ... at the first atom that is not plain.
  lemma {:induction false} ItemsLost(items: seq<Sexp>, tail: string)
    requires forall i :: 0 <= i < |items| ==> Legal(items[i])
    requires exists i :: 0 <= i < |items| && !Plain(items[i])
    requires Lex(CONFIG, PrintItems(items) + (")" + tail)).Some?
    ensures ParseMany(Lex(CONFIG, PrintItems(items) + (")" + tail)).value).0 != items
    decreases items
  {
    hide Lex;
    var close := ")" + tail;
    var after := if |items| == 1 then close else " " + (PrintItems(items[1..]) + close);
    assert PrintItems(items) + close == Print(items[0]) + after;
    var tokens := Lex(CONFIG, Print(items[0]) + after).value;
    if Plain(items[0]) {
      var rest := PrintItems(items[1..]) + close;
      LexPrinted(items[0], after);
      ReadSpace(rest);
      var more := Lex(CONFIG, rest).value;
      ParseTokens(items[0], more);
      ItemsLost(items[1..], tail);
    } else {
      TreeLost(items[0], after);
    }
  }

  // ----- The round trip -----

  // ----- What is parsed at all -----

  // The tokens from the first closing parenthesis on that closes more than `depth` lists.
  function Unmatched(tokens: seq<Lexeme>, depth: nat): seq<Lexeme> {
    if tokens == [] then []
    else if tokens[0].text == "(" then Unmatched(tokens[1..], depth + 1)
    else if tokens[0].text != ")" then Unmatched(tokens[1..], depth)
    else if depth == 0 then tokens
    else Unmatched(tokens[1..], depth - 1)
  }

  lemma {:induction false} OneDeeper(tokens: seq<Lexeme>, depth: nat)
    ensures |Unmatched(tokens, depth)| <= |tokens|
    ensures var r := Unmatched(tokens, depth);
            r != [] ==> r[0].text == ")"
    ensures var r := Unmatched(tokens, 0);
            Unmatched(tokens, depth + 1) == if r == [] then [] else Unmatched(r[1..], depth)
    decreases |tokens|
  {
    if tokens != [] {
      OneDeeper(tokens[1..], depth);
      OneDeeper(tokens[1..], depth + 1);
      if tokens[0].text == "(" {
        OneDeeper(tokens[1..], 0);
        var r := Unmatched(tokens[1..], 0);
        if r != [] {
          OneDeeper(r[1..], depth);
        }
      } else if depth > 0 {
        OneDeeper(tokens[1..], depth - 1);
      }
    }
  }

  lemma {:induction false} OneMatched(tokens: seq<Lexeme>)
    requires tokens != [] && tokens[0].text != ")"
    ensures Unmatched(tokens, 0) == Unmatched(ParseOne(tokens).1, 0)
    decreases |tokens|, 0
  {
    if tokens[0].text == "(" {
      ManyMatched(tokens[1..]);
      OneDeeper(tokens[1..], 0);
    }
  }

  // Parsing goes on until a closing parenthesis closes nothing.
  lemma {:induction false} ManyMatched(tokens: seq<Lexeme>)
    ensures ParseMany(tokens).1 == Unmatched(tokens, 0)
    decreases |tokens|, 1
  {
    if tokens != [] && tokens[0].text != ")" {
      OneMatched(tokens);
      ManyMatched(ParseOne(tokens).1);
    }
  }

  // A text is turned down exactly when the lexer turns it down or a closing parenthesis closes nothing; lists left
  // open are not.
  lemma ParsedWhen(s: string)
    ensures Parse(s).Some? <==> Lex(CONFIG, s).Some? && Unmatched(Lex(CONFIG, s).value, 0) == []
  {
    hide Lex;
    if Lex(CONFIG, s).Some? {
      ManyMatched(Lex(CONFIG, s).value);
    }
  }

  // A list left open at the end holds what follows.
  lemma LeftOpen(items: seq<Sexp>)
    requires forall i :: 0 <= i < |items| ==> Legal(items[i])
    ensures ParseMany([Lexeme(Delimiter, "(")] + TokensOf(items)) == ([List(items)], [])
  {
    hide Legal, TokensOf, ParseMany;
    ParseTokensOf(items, []);
    assert TokensOf(items) + [] == TokensOf(items);
    OpenedList(TokensOf(items), items);
  }

  lemma OpenedList(tokens: seq<Lexeme>, items: seq<Sexp>)
    requires ParseMany(tokens) == (items, [])
    ensures ParseMany([Lexeme(Delimiter, "(")] + tokens) == ([List(items)], [])
  {
    var all := [Lexeme(Delimiter, "(")] + tokens;
    assert all[0].text == "(" && all[1..] == tokens;
    assert ParseOne(all) == (List(items), []) by {
      hide ParseMany;
    }
    assert ParseMany([]) == ([], []);
    assert [List(items)] + [] == [List(items)];
  }

  // A tree is read back from what is printed for it exactly when its words could be written, no string is a lone
  // parenthesis or too long, and no string has a quote or backslash in it.
  lemma RoundTrip(x: Sexp)
    ensures Parse(Print(x)) == Some([x]) <==> Legal(x) && Plain(x)
  {
    hide Lex, Print, Tokens;
    if Legal(x) && Plain(x) {
      LexPrinted(x, "");
      LexNothing(CONFIG);
      assert Print(x) + "" == Print(x) && Tokens(x) + [] == Tokens(x);
      OneItem(x);
    }
    if Parse(Print(x)) == Some([x]) {
      ParsedLegal(Print(x));
      assert x in [x];
    }
    if Legal(x) && !Plain(x) && Lex(CONFIG, Print(x)).Some? {
      assert Print(x) + "" == Print(x);
      TreeLost(x, "");
      NotFirst(x, Lex(CONFIG, Print(x)).value);
    }
  }

  lemma NotFirst(x: Sexp, tokens: seq<Lexeme>)
    requires tokens != [] && ParseOne(tokens).0 != x
    ensures ParseMany(tokens).0 != [x]
  {
    if tokens[0].text != ")" {
      assert ParseMany(tokens).0[0] == ParseOne(tokens).0;
    }
  }

  lemma OneItem(x: Sexp)
    requires Legal(x)
    ensures ParseMany(Tokens(x)) == ([x], [])
  {
    assert TokensOf([x]) == Tokens(x) + TokensOf([x][1..]) && [x][1..] == [];
    assert TokensOf([x]) + [] == Tokens(x);
    ParseTokensOf([x], []);
  }

  // For instance, a string with a quote in it, which parsing can give, is printed as it is and read back as two atoms.
  lemma QuoteLost()
    ensures Parse("\"a\\\"b\"") == Some([Atom(Str, "a\"b")])
    ensures Print(Atom(Str, "a\"b")) == "\"a\"b\"" && Parse("\"a\"b\"") == Some([Atom(Str, "a"), Atom(Generic, "b\"")])
  {
    Quoted();
    Unquoted();
  }

  lemma Quoted()
    ensures Parse("\"a\\\"b\"") == Some([Atom(Str, "a\"b")])
  {
    hide Lex, CString;
    var s := "\"a\\\"b\"";
    MatchParens(s);
    assert s[0] == '"' && s[1..] == "a\\\"b\"" && s[1..][1..] == "\\\"b\"" && s[1..][1..][2..] == "b\"";
    assert Scan("\"", "a\"b") == Some(("a\"b", 0));
    assert "b\""[1..] == "\"" && "a\"" + "b" == "a\"b" && "a" + "\"" == "a\"" && "" + "a" == "a";
    assert Scan("b\"", "a\"") == Some(("a\"b", 1));
    assert Scan("\\\"b\"", "a") == Some(("a\"b", 3));
    assert Scan(s[1..], "") == Some(("a\"b", 4));
    LexString(CONFIG, s);
    CStringOf("a\"b");
    LexNothing(CONFIG);
    assert s[6..] == "";
    var tokens := [Lexeme(Str, "a\"b")];
    assert tokens + [] == tokens && tokens[1..] == [];
    assert Lex(CONFIG, s) == Some(tokens);
    assert ParseOne(tokens) == (Atom(Str, "a\"b"), []);
    assert [Atom(Str, "a\"b")] + [] == [Atom(Str, "a\"b")];
  }

  lemma {:induction false} CStringOf(s: string)
    requires forall i :: 0 <= i < |s| ==> s[i] != 0 as char
    ensures CString(s) == s
    decreases |s|
  {
    if s != "" {
      CStringOf(s[1..]);
    }
  }

  lemma Unquoted()
    ensures Parse("\"a\"b\"") == Some([Atom(Str, "a"), Atom(Generic, "b\"")])
  {
    hide Lex, Scan, CString;
    var s := "\"a\"b\"";
    assert s == "\"" + "a" + "\"" + "b\"";
    ReadString("a", "b\"");
    assert "b\"" + "" == "b\"";
    ReadWord("b\"", "");
    LexNothing(CONFIG);
    var tokens := [Lexeme(Str, "a"), Lexeme(Generic, "b\"")];
    assert [Lexeme(Str, "a")] + ([Lexeme(Generic, "b\"")] + []) == tokens;
    assert Lex(CONFIG, s) == Some(tokens);
    assert tokens[1..] == [Lexeme(Generic, "b\"")] && tokens[1..][1..] == [];
    assert ParseOne(tokens) == (Atom(Str, "a"), tokens[1..]);
    assert ParseOne(tokens[1..]) == (Atom(Generic, "b\""), []);
    assert ParseMany(tokens[1..]) == ([Atom(Generic, "b\"")] + [], []);
    assert [Atom(Str, "a")] + ([Atom(Generic, "b\"")] + []) == [Atom(Str, "a"), Atom(Generic, "b\"")];
  }

  // ----- The program -----

  class TokenList {
    var tokens: seq<Lexeme>

    constructor (tokens: seq<Lexeme>)
      ensures this.tokens == tokens
    {
      this.tokens := tokens;
    }

    // `list_shift`
    method Shift() returns (token: Option<Lexeme>)
      modifies this
      ensures old(tokens) == [] ==> token.None? && tokens == []
      ensures old(tokens) != [] ==> token == Some(old(tokens)[0]) && tokens == old(tokens)[1..]
    {
      if tokens == [] {
        return None;
      }
      token := Some(tokens[0]);
      tokens := tokens[1..];
    }

    // `parse_sexp`
    method ParseSexp() returns (x: Sexp)
      requires tokens != []
      modifies this
      ensures (x, tokens) == ParseOne(old(tokens))
      decreases |tokens|, 0
    {
      var token := Shift();
      if token.value.text == "(" {
        var items := ParseList();
        var end := Shift();
        return List(items);
      } else {
        return Atom(token.value.kind, token.value.text);
      }
    }

    // `parse_list`
    method ParseList() returns (items: seq<Sexp>)
      modifies this
      ensures (items, tokens) == ParseMany(old(tokens))
      decreases |tokens|, 1
    {
      items := [];
      ghost var all := ParseMany(tokens);
      assert items + all.0 == all.0;
      while tokens != []
        invariant |tokens| <= |old(tokens)|
        invariant all == (items + ParseMany(tokens).0, ParseMany(tokens).1)
        decreases |tokens|
      {
        if tokens[0].text == ")" {
          assert items + [] == items;
          return;
        }
        ghost var more := ParseMany(ParseOne(tokens).1).0;
        var x := ParseSexp();
        assert items + ([x] + more) == items + [x] + more;
        items := items + [x];
      }
      assert items + [] == items;
    }
  }

  // `sexp_parse_list`: `ok` is false where an assertion of the program fails.
  method ParseText(s: string) returns (ok: bool, items: seq<Sexp>)
    ensures ok <==> Parse(s).Some?
    ensures ok ==> items == Parse(s).value
  {
    hide Lex, ParseMany;
    var lexer := new Lexer(CONFIG, s);
    ok := lexer.Run();
    if !ok {
      return false, [];
    }
    var list := new TokenList(Lexemes(lexer.tokens));
    items := list.ParseList();
    ok := list.tokens == [];
  }
}
