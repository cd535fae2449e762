/**
 The lexer: spaces, line comments, delimiters, strings with escapes, and everything else as words.
 */
module Lexer {
  import opened Machine

  datatype Kind = Generic | Delimiter | Str
  datatype Lexeme = Lexeme(kind: Kind, text: string)
  datatype Token = Token(text: string, kind: Kind, start: int, end: nat, lineno: nat, column: nat)

  datatype Config = Config(comment: Option<string>, delimiters: seq<string>, strings: bool)

  // `MAX_TOKEN_LENGTH`
  const LONGEST: nat := 1024

  // `isspace`
  predicate Space(c: char) {
    c == ' ' || '\t' <= c <= '\r'
  }

  predicate Starts(s: string, prefix: string) {
    |prefix| <= |s| && s[..|prefix|] == prefix
  }

  // The first delimiter that `s` starts with.
  function Match(delimiters: seq<string>, s: string): (d: Option<string>)
    ensures d.Some? ==> d.value in delimiters && Starts(s, d.value)
  {
    if delimiters == [] then None
    else if Starts(s, delimiters[0]) then Some(delimiters[0])
    else Match(delimiters[1..], s)
  }

  predicate EndsWord(c: Config, s: string) {
    s == "" || Space(s[0]) || Match(c.delimiters, s).Some?
  }

  function WordLength(c: Config, s: string): (n: nat)
    ensures n <= |s|
  {
    if EndsWord(c, s) then 0 else 1 + WordLength(c, s[1..])
  }

  // How much of `s` is left of a comment, up to the end of the line.
  function LineLength(s: string): (n: nat)
    ensures n <= |s| && (s != "" ==> n > 0)
  {
    if s == "" then 0 else if s[0] == '\n' then 1 else 1 + LineLength(s[1..])
  }

  function Escape(c: char): Option<char> {
    if c == 'n' then Some('\n')
    else if c == 't' then Some('\t')
    else if c == 'b' then Some(8 as char)
    else if c == 'f' then Some(12 as char)
    else if c == 'r' then Some('\r')
    else if c == '0' then Some(0 as char)
    else if c == '"' then Some('"')
    else if c == '\\' then Some('\\')
    else None
  }

  // The characters of a string up to its closing quote, and how much of `s` that was, the quote not counted.
  function Scan(s: string, buffer: string): (r: Option<(string, nat)>)
    ensures r.Some? ==> r.value.1 < |s| && s[r.value.1] == '"'
  {
    if s == "" then None
    else if s[0] == '"' then Some((buffer, 0))
    else if |buffer| >= LONGEST then None
    else if s[0] == '\\' then
      if |s| == 1 || Escape(s[1]).None? then None
      else
        match Scan(s[2..], buffer + [Escape(s[1]).value])
        case None => None
        case Some(r) => Some((r.0, r.1 + 2))
    else
      match Scan(s[1..], buffer + [s[0]])
      case None => None
      case Some(r) => Some((r.0, r.1 + 1))
  }

  // A C string ends at the first null character.
  function CString(s: string): string {
    if s == "" || s[0] == 0 as char then "" else [s[0]] + CString(s[1..])
  }

  function Prepend(first: seq<Lexeme>, more: Option<seq<Lexeme>>): Option<seq<Lexeme>> {
    match more case None => None case Some(rest) => Some(first + rest)
  }

  predicate Sensible(c: Config) {
    forall i :: 0 <= i < |c.delimiters| ==> c.delimiters[i] != ""
  }

  // What the lexer makes of `s`; `None` when an assertion of the program fails.
  function Lex(c: Config, s: string): Option<seq<Lexeme>>
    requires Sensible(c)
    decreases |s|
  {
    if s == "" then Some([])
    else if Space(s[0]) then Lex(c, s[1..])
    else if c.comment.Some? && Starts(s, c.comment.value) then
      var rest := s[|c.comment.value|..];
      Lex(c, rest[LineLength(rest)..])
    else if Match(c.delimiters, s).Some? then
      var d := Match(c.delimiters, s).value;
      Prepend([Lexeme(Delimiter, d)], Lex(c, s[|d|..]))
    else if c.strings && s[0] == '"' then
      match Scan(s[1..], "")
      case None => None
      case Some((text, n)) => Prepend([Lexeme(Str, CString(text))], Lex(c, s[n + 2..]))
    else
      var n := WordLength(c, s);
      if n > LONGEST then None else Prepend([Lexeme(Generic, s[..n])], Lex(c, s[n..]))
  }

  function Lexemes(tokens: seq<Token>): (r: seq<Lexeme>)
    ensures |r| == |tokens|
  {
    seq(|tokens|, i requires 0 <= i < |tokens| => Lexeme(tokens[i].kind, tokens[i].text))
  }

  // ----- Where the tokens are -----

  function Line(s: string): nat {
    if s == "" then 1 else Line(s[..|s| - 1]) + if s[|s| - 1] == '\n' then 1 else 0
  }

  function Column(s: string): nat {
    if s == "" || s[|s| - 1] == '\n' then 1 else Column(s[..|s| - 1]) + 1
  }

  // A token says where it ends, on which line and in which column; what is not a string says where it begins.
  ghost predicate Placed(source: string, t: Token) {
    && t.end <= |source| && t.lineno == Line(source[..t.end]) && t.column == Column(source[..t.end])
    && t.start == t.end - |t.text|
    && (!t.kind.Str? ==> 0 <= t.start && source[t.start..t.end] == t.text)
  }

  // ----- The program -----

  class Lexer {
    const config: Config
    const source: string
    var cursor: nat
    var lineno: nat
    var column: nat
    var tokens: seq<Token>

    constructor (config: Config, source: string)
      ensures Valid() && this.config == config && this.source == source && cursor == 0 && tokens == []
    {
      this.config, this.source := config, source;
      cursor, lineno, column, tokens := 0, 1, 1, [];
    }

    ghost predicate Valid()
      reads this
    {
      && cursor <= |source| && lineno == Line(source[..cursor]) && column == Column(source[..cursor])
      && forall i :: 0 <= i < |tokens| ==> Placed(source, tokens[i])
    }

    function Ahead(): string
      requires cursor <= |source|
      reads this
    {
      source[cursor..]
    }

    // `step`
    method StepOver()
      requires Valid() && cursor < |source|
      modifies this`cursor, this`lineno, this`column
      ensures Valid() && cursor == old(cursor) + 1 && Ahead() == old(Ahead())[1..]
    {
      assert source[..cursor + 1][..cursor] == source[..cursor];
      if source[cursor] == '\n' {
        lineno := lineno + 1;
        column := 1;
      } else {
        column := column + 1;
      }
      cursor := cursor + 1;
    }

    // `forward`
    method Forward(length: nat)
      requires Valid() && cursor + length <= |source|
      modifies this`cursor, this`lineno, this`column
      ensures Valid() && cursor == old(cursor) + length && Ahead() == old(Ahead())[length..]
    {
      var left := length;
      while left > 0
        invariant Valid() && cursor == old(cursor) + (length - left) && 0 <= left <= length
        invariant Ahead() == old(Ahead())[length - left..]
      {
        StepOver();
        left := left - 1;
      }
    }

    // `ignore_space`
    method IgnoreSpace() returns (yes: bool)
      requires Valid() && Sensible(config) && cursor < |source|
      modifies this`cursor, this`lineno, this`column
      ensures Valid() && (yes <==> Space(old(Ahead())[0])) && (yes <==> cursor > old(cursor))
      ensures !yes ==> cursor == old(cursor)
      ensures Lex(config, Ahead()) == Lex(config, old(Ahead()))
    {
      hide Match, Line, Column;
      if !Space(source[cursor]) {
        return false;
      }
      while cursor < |source|
        invariant Valid() && cursor >= old(cursor) && (cursor == old(cursor) ==> Space(source[cursor]))
        invariant Lex(config, Ahead()) == Lex(config, old(Ahead()))
      {
        if Space(source[cursor]) {
          StepOver();
        } else {
          break;
        }
      }
      return true;
    }

    // `ignore_comment`
    method IgnoreComment() returns (yes: bool)
      requires Valid() && Sensible(config) && cursor < |source| && !Space(source[cursor])
      modifies this`cursor, this`lineno, this`column
      ensures Valid() && (yes <==> config.comment.Some? && Starts(old(Ahead()), config.comment.value))
      ensures if yes then cursor > old(cursor) else cursor == old(cursor)
      ensures Lex(config, Ahead()) == Lex(config, old(Ahead()))
    {
      hide Line, Column;
      if config.comment.None? || !Starts(Ahead(), config.comment.value) {
        return false;
      }
      ghost var before := Ahead();
      Forward(|config.comment.value|);
      ghost var rest := Ahead();
      while cursor < |source|
        invariant Valid() && cursor >= old(cursor) + |config.comment.value|
        invariant rest[LineLength(rest)..] == Ahead()[LineLength(Ahead())..]
        invariant cursor == |source| ==> rest == "" || cursor > old(cursor)
        invariant cursor == old(cursor) ==> Ahead() == rest
      {
        var c := source[cursor];
        StepOver();
        if c == '\n' {
          CommentOver(config, before, rest, Ahead());
          return true;
        }
      }
      assert Ahead() == "";
      CommentOver(config, before, rest, "");
      return true;
    }

    // `collect_delimiter`
    method CollectDelimiter() returns (yes: bool)
      requires Valid() && Sensible(config) && cursor < |source| && !Space(source[cursor])
      requires config.comment.Some? ==> !Starts(Ahead(), config.comment.value)
      modifies this`cursor, this`lineno, this`column, this`tokens
      ensures Valid() && (yes <==> Match(config.delimiters, old(Ahead())).Some?)
      ensures if yes then cursor > old(cursor) && |tokens| == |old(tokens)| + 1 && old(tokens) <= tokens
              else cursor == old(cursor) && tokens == old(tokens)
      ensures Lex(config, old(Ahead()))
           == Prepend(Lexemes(tokens[|old(tokens)|..]), Lex(config, Ahead()))
    {
      hide Line, Column, Match, Lex;
      NothingFirst(config, Ahead());
      var delimiter := Match(config.delimiters, Ahead());
      if delimiter.None? {
        assert tokens[|old(tokens)|..] == [];
        return false;
      }
      LexDelimiter(config, Ahead());
      var start, end := cursor, cursor + |delimiter.value|;
      assert source[start..end] == Ahead()[..|delimiter.value|];
      Forward(|delimiter.value|);
      var token := Token(delimiter.value, Delimiter, start, end, lineno, column);
      tokens := tokens + [token];
      assert tokens[|old(tokens)|..] == [token];
      assert Lexemes([token]) == [Lexeme(Delimiter, delimiter.value)];
      return true;
    }

    // `collect_string`: `ok` is false where an assertion of the program fails.
    method CollectString() returns (yes: bool, ok: bool)
      requires Valid() && Sensible(config) && cursor < |source| && !Space(source[cursor])
      requires config.comment.Some? ==> !Starts(Ahead(), config.comment.value)
      requires Match(config.delimiters, Ahead()).None? && config.strings
      modifies this`cursor, this`lineno, this`column, this`tokens
      ensures Valid() && (yes <==> old(Ahead())[0] == '"')
      ensures !yes ==> ok && cursor == old(cursor) && tokens == old(tokens)
      ensures yes && !ok ==> Lex(config, old(Ahead())) == None
      ensures yes && ok ==>
                && cursor > old(cursor) && |tokens| == |old(tokens)| + 1 && old(tokens) <= tokens
                && Lex(config, old(Ahead())) == Prepend(Lexemes(tokens[|old(tokens)|..]), Lex(config, Ahead()))
    {
      hide Line, Column, Match, Lex, Scan, Further, CString, Escape, Prepend;
      if source[cursor] != '"' {
        return false, true;
      }
      var buffer := "";
      ghost var before := Ahead();
      StepOver();
      ghost var first := cursor;
      LexString(config, before);
      FurtherNothing(Scan(before[1..], ""));
      while true
        invariant Valid() && cursor >= first && tokens == old(tokens)
        invariant Further(Scan(before[1..], ""), 0) == Further(Scan(Ahead(), buffer), cursor - first)
        decreases |source| - cursor
      {
        ScanEnd(Ahead(), buffer, cursor - first);
        if cursor == |source| {
          return true, false;
        }
        var c := source[cursor];
        ghost var here := Ahead();
        assert here[0] == c;
        if c == '"' {
          var end := cursor;
          var text := CString(buffer);
          var token := Token(text, Str, end - |text|, end, lineno, column);
          tokens := tokens + [token];
          StepOver();
          assert tokens[|old(tokens)|..] == [token];
          assert Lexemes([token]) == [Lexeme(Str, text)];
          assert Ahead() == before[cursor - first + 1..];
          return true, true;
        }
        if |buffer| >= LONGEST {
          return true, false;
        }
        if c == '\\' {
          ScanEscape(here, buffer, cursor - first);
          StepOver();
          if cursor == |source| {
            return true, false;
          }
          var e := Escape(source[cursor]);
          assert here[1] == here[1..][0] == Ahead()[0] == source[cursor];
          if e.None? {
            return true, false;
          }
          buffer := buffer + [e.value];
          StepOver();
          assert Ahead() == here[2..];
        } else {
          ScanChar(here, buffer, cursor - first);
          buffer := buffer + [c];
          StepOver();
        }
      }
    }

    // `collect_generic`
    method CollectGeneric() returns (ok: bool)
      requires Valid() && Sensible(config) && cursor < |source| && !Space(source[cursor])
      requires config.comment.Some? ==> !Starts(Ahead(), config.comment.value)
      requires Match(config.delimiters, Ahead()).None? && (config.strings ==> source[cursor] != '"')
      modifies this`cursor, this`lineno, this`column, this`tokens
      ensures Valid()
      ensures !ok ==> Lex(config, old(Ahead())) == None
      ensures ok ==>
                && cursor > old(cursor) && |tokens| == |old(tokens)| + 1 && old(tokens) <= tokens
                && Lex(config, old(Ahead())) == Prepend(Lexemes(tokens[|old(tokens)|..]), Lex(config, Ahead()))
    {
      hide Line, Column, Match, Lex;
      var buffer := "";
      ghost var before := Ahead();
      LexWord(config, before);
      while true
        invariant Valid() && cursor >= old(cursor) && tokens == old(tokens)
        invariant buffer == source[old(cursor)..cursor] && |buffer| <= LONGEST
        invariant WordLength(config, before) == |buffer| + WordLength(config, Ahead())
        decreases |source| - cursor
      {
        if cursor == |source| || Space(source[cursor]) || Match(config.delimiters, Ahead()).Some? {
          var token := Token(buffer, Generic, cursor - |buffer|, cursor, lineno, column);
          tokens := tokens + [token];
          assert tokens[|old(tokens)|..] == [token];
          assert buffer == before[..|buffer|] && Ahead() == before[|buffer|..];
          assert Lexemes([token]) == [Lexeme(Generic, buffer)];
          return true;
        }
        if |buffer| == LONGEST {
          return false;
        }
        buffer := buffer + [source[cursor]];
        StepOver();
      }
    }

    // `lexer_step`: it always moves forward.
    method Step() returns (ok: bool)
      requires Valid() && Sensible(config) && cursor < |source|
      modifies this`cursor, this`lineno, this`column, this`tokens
      ensures Valid()
      ensures !ok ==> Lex(config, old(Ahead())) == None
      ensures ok ==>
                && cursor > old(cursor) && old(tokens) <= tokens
                && Lex(config, old(Ahead())) == Prepend(Lexemes(tokens[|old(tokens)|..]), Lex(config, Ahead()))
    {
      hide Line, Column, Match, Lex;
      assert tokens[|tokens|..] == [];
      NothingFirst(config, Ahead());
      var done := IgnoreSpace();
      if done {
        NothingFirst(config, Ahead());
        return true;
      }
      done := IgnoreComment();
      if done {
        NothingFirst(config, Ahead());
        return true;
      }
      done := CollectDelimiter();
      if done {
        return true;
      }
      if config.strings {
        done, ok := CollectString();
        if done {
          return ok;
        }
      }
      ok := CollectGeneric();
    }

    // `lexer_run`
    method Run() returns (ok: bool)
      requires Valid() && Sensible(config) && cursor == 0 && tokens == []
      modifies this`cursor, this`lineno, this`column, this`tokens
      ensures Valid()
      ensures ok <==> Lex(config, source).Some?
      ensures ok ==> Lexemes(tokens) == Lex(config, source).value
    {
      hide Line, Column, Match, Lex;
      assert source[0..] == source;
      LexNothing(config);
      NothingFirst(config, source);
      while cursor < |source|
        invariant Valid() && Lex(config, source) == Prepend(Lexemes(tokens), Lex(config, Ahead()))
        decreases |source| - cursor
      {
        ghost var before := tokens;
        ok := Step();
        if !ok {
          return false;
        }
        assert tokens == before + tokens[|before|..];
        PrependTwice(before, tokens[|before|..], Lex(config, Ahead()));
      }
      assert Ahead() == "";
      return true;
    }
  }

  function Further(r: Option<(string, nat)>, n: nat): Option<(string, nat)> {
    match r case None => None case Some(found) => Some((found.0, found.1 + n))
  }

  lemma FurtherNothing(r: Option<(string, nat)>)
    ensures Further(r, 0) == r
  {
  }

  lemma NothingFirst(c: Config, s: string)
    requires Sensible(c)
    ensures Lex(c, s) == Prepend(Lexemes([]), Lex(c, s))
  {
    assert Lexemes([]) == [];
    if Lex(c, s).Some? {
      assert [] + Lex(c, s).value == Lex(c, s).value;
    }
  }

  lemma LexNothing(c: Config)
    requires Sensible(c)
    ensures Lex(c, "") == Some([])
  {
  }

  lemma PrependTwice(a: seq<Token>, b: seq<Token>, more: Option<seq<Lexeme>>)
    ensures Prepend(Lexemes(a + b), more) == Prepend(Lexemes(a), Prepend(Lexemes(b), more))
  {
    assert Lexemes(a + b) == Lexemes(a) + Lexemes(b);
    if more.Some? {
      assert Lexemes(a) + Lexemes(b) + more.value == Lexemes(a) + (Lexemes(b) + more.value);
    }
  }

  lemma CommentOver(c: Config, s: string, rest: string, ahead: string)
    requires Sensible(c) && s != "" && !Space(s[0]) && c.comment.Some? && Starts(s, c.comment.value)
    requires rest == s[|c.comment.value|..] && ahead == rest[LineLength(rest)..]
    ensures Lex(c, s) == Lex(c, ahead)
  {
  }

  lemma LexDelimiter(c: Config, s: string)
    requires Sensible(c) && s != "" && !Space(s[0]) && Match(c.delimiters, s).Some?
    requires c.comment.Some? ==> !Starts(s, c.comment.value)
    ensures var d := Match(c.delimiters, s).value;
            d != "" && |d| <= |s| && s[..|d|] == d && Lex(c, s) == Prepend([Lexeme(Delimiter, d)], Lex(c, s[|d|..]))
  {
  }

  // One turn of the loop over the characters of a string: the end, a character, an escape.
  lemma ScanEnd(s: string, buffer: string, n: nat)
    ensures s == "" ==> Further(Scan(s, buffer), n) == None
    ensures s != "" && s[0] == '"' ==> Further(Scan(s, buffer), n) == Some((buffer, n))
    ensures s != "" && s[0] != '"' && |buffer| >= LONGEST ==> Further(Scan(s, buffer), n) == None
  {
    hide Escape;
  }

  lemma ScanChar(s: string, buffer: string, n: nat)
    requires s != "" && s[0] != '"' && s[0] != '\\' && |buffer| < LONGEST
    ensures Further(Scan(s, buffer), n) == Further(Scan(s[1..], buffer + [s[0]]), n + 1)
  {
    hide Scan, Further;
    CharScanned(s, buffer);
    FurtherTwice(Scan(s[1..], buffer + [s[0]]), 1, n);
  }

  lemma CharScanned(s: string, buffer: string)
    requires s != "" && s[0] != '"' && s[0] != '\\' && |buffer| < LONGEST
    ensures Scan(s, buffer) == Further(Scan(s[1..], buffer + [s[0]]), 1)
  {
    hide Escape;
  }

  lemma ScanEscape(s: string, buffer: string, n: nat)
    requires s != "" && s[0] == '\\' && |buffer| < LONGEST
    ensures |s| == 1 || Escape(s[1]).None? ==> Further(Scan(s, buffer), n) == None
    ensures |s| > 1 && Escape(s[1]).Some? ==>
              Further(Scan(s, buffer), n) == Further(Scan(s[2..], buffer + [Escape(s[1]).value]), n + 2)
  {
    hide Scan, Further, Escape;
    EscapeScanned(s, buffer);
    FurtherTwice(None, 0, n);
    if |s| > 1 && Escape(s[1]).Some? {
      FurtherTwice(Scan(s[2..], buffer + [Escape(s[1]).value]), 2, n);
    }
  }

  lemma EscapeScanned(s: string, buffer: string)
    requires s != "" && s[0] == '\\' && |buffer| < LONGEST
    ensures Scan(s, buffer)
         == if |s| == 1 || Escape(s[1]).None? then None
            else Further(Scan(s[2..], buffer + [Escape(s[1]).value]), 2)
  {
    hide Escape;
  }

  lemma FurtherTwice(r: Option<(string, nat)>, a: nat, b: nat)
    ensures Further(Further(r, a), b) == Further(r, a + b)
    ensures r.None? ==> Further(r, b) == None
  {
  }

  lemma LexString(c: Config, s: string)
    requires Sensible(c) && s != "" && s[0] == '"' && c.strings
    requires (c.comment.Some? ==> !Starts(s, c.comment.value)) && Match(c.delimiters, s).None?
    ensures Scan(s[1..], "") == None ==> Lex(c, s) == None
    ensures Scan(s[1..], "").Some? ==>
              var (text, n) := Scan(s[1..], "").value;
              Lex(c, s) == Prepend([Lexeme(Str, CString(text))], Lex(c, s[n + 2..]))
  {
    hide Match, Scan, CString;
  }

  lemma LexWord(c: Config, s: string)
    requires Sensible(c) && s != "" && !Space(s[0]) && (c.strings ==> s[0] != '"')
    requires (c.comment.Some? ==> !Starts(s, c.comment.value)) && Match(c.delimiters, s).None?
    ensures 0 < WordLength(c, s)
    ensures WordLength(c, s) > LONGEST ==> Lex(c, s) == None
    ensures WordLength(c, s) <= LONGEST ==>
              Lex(c, s) == Prepend([Lexeme(Generic, s[..WordLength(c, s)])], Lex(c, s[WordLength(c, s)..]))
  {
    hide Match;
  }
}
