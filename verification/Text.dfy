/**
 Code points and bytes: encoding, decoding, the iterator over a string, and texts.
 */
module Text {
  import opened Machine

  type Byte = bv8
  type CodePoint = bv32

  const LARGEST: CodePoint := 0x10_FFFF

  // ----- One code point -----

  // `utf8_char_length`; 0 stands for the exit on a byte that starts nothing.
  function CharLength(c: Byte): nat {
    if c >> 7 == 0x00 then 1
    else if c >> 5 == 0x06 then 2
    else if c >> 4 == 0x0E then 3
    else if c >> 3 == 0x1E then 4
    else 0
  }

  // `pattern_r | ((uint8_t) x << 2 >> 2)`: the shifts are made on a 32-bit integer, so they do not clear anything;
  // the result is cut to one byte.
  function Rest(x: CodePoint): Byte {
    ((0x80 | (((x & 0xFF) << 2) >> 2)) & 0xFF) as Byte
  }

  function Head(pattern: CodePoint, x: CodePoint): Byte {
    ((pattern | x) & 0xFF) as Byte
  }

  // What `utf8_encode_into` writes; nothing when it exits.
  function Encode(x: CodePoint): seq<Byte> {
    if x <= 0x7F then [Head(0, x)]
    else if x <= 0x7FF then [Head(0xC0, x >> 6), Rest(x)]
    else if x <= 0xFFFF then [Head(0xE0, x >> 12), Rest(x >> 6), Rest(x)]
    else if x <= LARGEST then [Head(0xF0, x >> 18), Rest(x >> 12), Rest(x >> 6), Rest(x)]
    else []
  }

  function Masked(mask: Byte, c: Byte): CodePoint {
    (mask & c) as CodePoint
  }

  // The sums of the pieces, each six bits above the next.
  function Two(a: CodePoint, b: CodePoint): CodePoint {
    (a << 6) + b
  }

  function Three(a: CodePoint, b: CodePoint, c: CodePoint): CodePoint {
    (a << 12) + (b << 6) + c
  }

  function Four(a: CodePoint, b: CodePoint, c: CodePoint, d: CodePoint): CodePoint {
    (a << 18) + (b << 12) + (c << 6) + d
  }

  function Low(x: CodePoint): CodePoint {
    x & 0x3F
  }

  // `utf8_decode`, given as many bytes as the first one asks for.
  function Decode(s: seq<Byte>): CodePoint
    requires s != [] && 0 < CharLength(s[0]) <= |s|
  {
    match CharLength(s[0])
    case 1 => s[0] as CodePoint
    case 2 => Two(Masked(0x1F, s[0]), Masked(0x3F, s[1]))
    case 3 => Three(Masked(0x0F, s[0]), Masked(0x3F, s[1]), Masked(0x3F, s[2]))
    case _ => Four(Masked(0x07, s[0]), Masked(0x3F, s[1]), Masked(0x3F, s[2]), Masked(0x3F, s[3]))
  }

  // The first byte tells how many there are, and only the code point 0 has a zero byte.
  lemma EncodeShape(x: CodePoint)
    requires x <= LARGEST
    ensures Encode(x) != [] && CharLength(Encode(x)[0]) == |Encode(x)| <= 4
    ensures 0 in Encode(x) <==> x == 0
  {
    if 0x7F < x {
      RestShape(x);
      RestShape(x >> 6);
      RestShape(x >> 12);
    }
  }

  lemma RestShape(x: CodePoint)
    ensures Rest(x) != 0 && Masked(0x3F, Rest(x)) == Low(x)
    ensures Rest(x) == Continuation(x) <==> x & 0x40 == 0
  {
  }

  // The first byte keeps the highest bits; the pieces cut out of a code point make it up again.
  lemma Pieces(x: CodePoint)
    requires x <= LARGEST
    ensures x <= 0x7F ==> Head(0, x) as CodePoint == x && CharLength(Head(0, x)) == 1
    ensures x <= 0x7FF ==> Masked(0x1F, Head(0xC0, x >> 6)) == x >> 6 && CharLength(Head(0xC0, x >> 6)) == 2
    ensures x <= 0xFFFF ==> Masked(0x0F, Head(0xE0, x >> 12)) == x >> 12 && CharLength(Head(0xE0, x >> 12)) == 3
    ensures Masked(0x07, Head(0xF0, x >> 18)) == x >> 18 && CharLength(Head(0xF0, x >> 18)) == 4
  {
  }

  lemma TwoTogether(x: CodePoint)
    ensures Two(x >> 6, Low(x)) == x
  {
  }

  lemma ThreeTogether(x: CodePoint)
    ensures Three(x >> 12, Low(x >> 6), Low(x)) == x
  {
    hide Low;
    LowestPiece(x);
    MiddlePiece(x);
  }

  lemma FourTogether(x: CodePoint)
    ensures Four(x >> 18, Low(x >> 12), Low(x >> 6), Low(x)) == x
  {
    hide Low;
    LowestPiece(x);
    MiddlePiece(x);
    HighPiece(x);
  }

  lemma LowestPiece(x: CodePoint)
    ensures ((x >> 6) << 6) + Low(x) == x
  {
  }

  lemma MiddlePiece(x: CodePoint)
    ensures ((x >> 12) << 12) + (Low(x >> 6) << 6) == (x >> 6) << 6
  {
  }

  lemma HighPiece(x: CodePoint)
    ensures ((x >> 18) << 18) + (Low(x >> 12) << 12) == (x >> 12) << 12
  {
  }

  // Decoding what was encoded, whatever follows, gives back the code point.
  lemma DecodeEncode(x: CodePoint, more: seq<Byte>)
    requires x <= LARGEST
    ensures Encode(x) != [] && 0 < CharLength((Encode(x) + more)[0]) <= |Encode(x) + more|
    ensures Decode(Encode(x) + more) == x
  {
    hide Head, Rest, CharLength, Masked, Two, Three, Four, Low;
    Pieces(x);
    TwoTogether(x);
    ThreeTogether(x);
    FourTogether(x);
    RestShape(x);
    RestShape(x >> 6);
    RestShape(x >> 12);
  }

  // The byte layout of section 3 of RFC 3629.
  function Continuation(x: CodePoint): Byte {
    0x80 | ((x & 0x3F) as Byte)
  }

  function Standard(x: CodePoint): seq<Byte>
    requires x <= LARGEST
  {
    if x <= 0x7F then [Head(0, x)]
    else if x <= 0x7FF then [Head(0xC0, x >> 6), Continuation(x)]
    else if x <= 0xFFFF then [Head(0xE0, x >> 12), Continuation(x >> 6), Continuation(x)]
    else [Head(0xF0, x >> 18), Continuation(x >> 12), Continuation(x >> 6), Continuation(x)]
  }

  // The examples of section 7 of RFC 3629.
  lemma StandardExamples()
    ensures Standard(0x41) == [0x41] && Standard(0x391) == [0xCE, 0x91]
    ensures Standard(0x2262) == [0xE2, 0x89, 0xA2] && Standard(0xD55C) == [0xED, 0x95, 0x9C]
    ensures Standard(0x8A9E) == [0xE8, 0xAA, 0x9E] && Standard(0x233B4) == [0xF0, 0xA3, 0x8E, 0xB4]
  {
  }

  // Every code point of Unicode is encoded, and nothing beyond.
  lemma LastCodePoint(x: CodePoint)
    ensures Encode(x) == [] <==> x > 0x10_FFFF
  {
  }

  lemma ContinuationShape(x: CodePoint)
    ensures Continuation(x) != 0 && Masked(0x3F, Continuation(x)) == Low(x)
  {
  }

  lemma StandardShape(x: CodePoint)
    requires x <= LARGEST
    ensures Standard(x) != [] && CharLength(Standard(x)[0]) == |Standard(x)| <= 4
    ensures 0 in Standard(x) <==> x == 0
  {
    if 0x7F < x {
      hide Continuation;
      ContinuationShape(x);
      ContinuationShape(x >> 6);
      ContinuationShape(x >> 12);
    }
  }

  // Whatever other programs write in the standard encoding is decoded rightly.
  lemma DecodeStandard(x: CodePoint, more: seq<Byte>)
    requires x <= LARGEST
    ensures Standard(x) != [] && 0 < CharLength((Standard(x) + more)[0]) <= |Standard(x) + more|
    ensures Decode(Standard(x) + more) == x
  {
    hide Head, Continuation, CharLength, Masked, Two, Three, Four, Low;
    Pieces(x);
    TwoTogether(x);
    ThreeTogether(x);
    FourTogether(x);
    ContinuationShape(x);
    ContinuationShape(x >> 6);
    ContinuationShape(x >> 12);
  }

  // The bits that end up in the place of the second marker bit of a continuation byte.
  function Stray(x: CodePoint): CodePoint {
    if x <= 0x7F then 0 else if x <= 0x7FF then 0x40 else if x <= 0xFFFF then 0x1040 else 0x4_1040
  }

  // What is written is the standard encoding exactly when none of those bits is set.
  lemma StandardExactly(x: CodePoint)
    requires x <= LARGEST
    ensures Encode(x) == Standard(x) <==> x & Stray(x) == 0
  {
    hide Head, Rest, Continuation;
    RestShape(x);
    RestShape(x >> 6);
    RestShape(x >> 12);
    StrayBits(x);
    if x <= 0x7F {
    } else if x <= 0x7FF {
      assert Encode(x) == Standard(x) <==> Encode(x)[1] == Standard(x)[1];
    } else if x <= 0xFFFF {
      assert Encode(x) == Standard(x) <==> Encode(x)[1] == Standard(x)[1] && Encode(x)[2] == Standard(x)[2];
    } else {
      assert Encode(x) == Standard(x) <==>
        Encode(x)[1] == Standard(x)[1] && Encode(x)[2] == Standard(x)[2] && Encode(x)[3] == Standard(x)[3];
    }
  }

  lemma StrayBits(x: CodePoint)
    ensures x & 0x1040 == 0 <==> x & 0x40 == 0 && (x >> 6) & 0x40 == 0
    ensures x & 0x4_1040 == 0 <==> x & 0x40 == 0 && (x >> 6) & 0x40 == 0 && (x >> 12) & 0x40 == 0
  {
  }

  // LATIN SMALL LETTER E WITH ACUTE is written with a byte that starts a three-byte sequence.
  lemma NotStandard()
    ensures Encode(0xE9) == [0xC3, 0xE9] && Standard(0xE9) == [0xC3, 0xA9]
  {
  }

  // ----- Texts -----

  predicate Encodable(t: seq<CodePoint>) {
    forall i :: 0 <= i < |t| ==> t[i] <= LARGEST
  }

  function Bytes(t: seq<CodePoint>): seq<Byte> {
    if t == [] then [] else Bytes(t[..|t| - 1]) + Encode(t[|t| - 1])
  }

  // A string ends at the first zero byte.
  function Cut(s: seq<Byte>): seq<Byte> {
    if s == [] || s[0] == 0 then [] else [s[0]] + Cut(s[1..])
  }

  // What an iteration over the string yields before it stops; `None` when the program exits on a byte that starts
  // nothing, or a sequence is cut short by the end of the string.
  function Points(s: seq<Byte>): Option<seq<CodePoint>> {
    if s == [] || s[0] == 0 then Some([])
    else if CharLength(s[0]) == 0 || CharLength(s[0]) > |s| then None
    else if Decode(s) == 0 then Some([])
    else
      match Points(s[CharLength(s[0])..])
      case None => None
      case Some(rest) => Some([Decode(s)] + rest)
  }

  function BeforeZero(t: seq<CodePoint>): seq<CodePoint> {
    if t == [] || t[0] == 0 then [] else [t[0]] + BeforeZero(t[1..])
  }

  lemma {:induction false} BytesFront(t: seq<CodePoint>)
    requires t != []
    ensures Bytes(t) == Encode(t[0]) + Bytes(t[1..])
    decreases |t|
  {
    hide Encode;
    if |t| > 1 {
      var front := t[..|t| - 1];
      BytesFront(front);
      assert front[1..] == t[1..][..|t| - 2] && t[1..][|t| - 2] == t[|t| - 1];
    }
  }

  lemma {:induction false} CutAppend(s: seq<Byte>, more: seq<Byte>)
    ensures Cut(s + more) == if 0 in s then Cut(s) else s + Cut(more)
    decreases |s|
  {
    if s == [] {
      assert s + more == more;
    } else {
      assert (s + more)[1..] == s[1..] + more;
      CutAppend(s[1..], more);
    }
  }

  // Reading back what was written gives the text up to its first zero.
  lemma {:induction false} ReadBack(t: seq<CodePoint>)
    requires Encodable(t)
    ensures Points(Cut(Bytes(t))) == Some(BeforeZero(t))
    decreases |t|
  {
    if t != [] {
      BytesFront(t);
      EncodeShape(t[0]);
      CutAppend(Encode(t[0]), Bytes(t[1..]));
      if t[0] == 0 {
        assert Encode(0) == [0];
      } else {
        ReadBack(t[1..]);
        var more := Cut(Bytes(t[1..]));
        DecodeEncode(t[0], more);
        var s := Encode(t[0]) + more;
        assert s[|Encode(t[0])|..] == more && s[0] == Encode(t[0])[0];
      }
    }
  }

  function StandardBytes(t: seq<CodePoint>): seq<Byte>
    requires Encodable(t)
  {
    if t == [] then [] else Standard(t[0]) + StandardBytes(t[1..])
  }

  // A text in the standard encoding is read as what it says, up to its first zero.
  lemma {:induction false} ReadStandard(t: seq<CodePoint>)
    requires Encodable(t)
    ensures Points(Cut(StandardBytes(t))) == Some(BeforeZero(t))
    decreases |t|
  {
    hide Standard, Decode, CharLength;
    if t != [] {
      StandardShape(t[0]);
      CutAppend(Standard(t[0]), StandardBytes(t[1..]));
      if t[0] == 0 {
        ZeroFirst();
      } else {
        ReadStandard(t[1..]);
        var more := Cut(StandardBytes(t[1..]));
        DecodeStandard(t[0], more);
        var s := Standard(t[0]) + more;
        assert s[|Standard(t[0])|..] == more && s[0] == Standard(t[0])[0];
      }
    }
  }

  lemma ZeroFirst()
    ensures Standard(0) == [0]
  {
  }

  lemma {:induction false} BeforeZeroAll(t: seq<CodePoint>)
    ensures BeforeZero(t) == t <==> 0 !in t
    ensures 0 !in BeforeZero(t)
    decreases |t|
  {
    if t != [] && t[0] != 0 {
      BeforeZeroAll(t[1..]);
      assert t == [t[0]] + t[1..];
      assert BeforeZero(t)[1..] == BeforeZero(t[1..]);
    }
  }

  // A text survives exactly when the code point 0 is not in it.
  lemma TextRoundTrip(t: seq<CodePoint>)
    requires Encodable(t)
    ensures Points(Cut(Bytes(t))) == Some(t) <==> 0 !in t
  {
    ReadBack(t);
    BeforeZeroAll(t);
  }

  // ----- The program -----

  // `utf8_encode_into`
  method EncodeInto(x: CodePoint, dest: array<Byte>, at: nat)
    requires x <= LARGEST && at + |Encode(x)| <= dest.Length
    modifies dest
    ensures dest[..] == old(dest[..at]) + Encode(x) + old(dest[at + |Encode(x)|..])
  {
    hide Head, Rest;
    ghost var before := dest[..];
    if x <= 0x7F {
      dest[at] := Head(0, x);
    } else if x <= 0x7FF {
      dest[at] := Head(0xC0, x >> 6);
      dest[at + 1] := Rest(x);
    } else if x <= 0xFFFF {
      dest[at] := Head(0xE0, x >> 12);
      dest[at + 1] := Rest(x >> 6);
      dest[at + 2] := Rest(x);
    } else {
      dest[at] := Head(0xF0, x >> 18);
      dest[at + 1] := Rest(x >> 12);
      dest[at + 2] := Rest(x >> 6);
      dest[at + 3] := Rest(x);
    }
    Spliced(before, dest[..], at, Encode(x));
  }

  lemma Spliced(before: seq<Byte>, after: seq<Byte>, at: nat, piece: seq<Byte>)
    requires |before| == |after| && at + |piece| <= |before|
    requires forall i :: 0 <= i < |piece| ==> after[at + i] == piece[i]
    requires forall i :: 0 <= i < |before| && !(at <= i < at + |piece|) ==> after[i] == before[i]
    ensures after == before[..at] + piece + before[at + |piece|..]
  {
  }

  // `text_to_string`: the buffer of four bytes for each code point, and one more, is never overrun.
  method TextToString(t: seq<CodePoint>) returns (s: seq<Byte>)
    requires Encodable(t)
    ensures s == Cut(Bytes(t))
  {
    hide Encode, CharLength, Cut;
    var dest := new Byte[4 * |t| + 1](_ => 0);
    var cursor := 0;
    for i := 0 to |t|
      invariant cursor <= 4 * i && cursor == |Bytes(t[..i])|
      invariant dest[..cursor] == Bytes(t[..i])
      invariant forall k :: cursor <= k < dest.Length ==> dest[k] == 0
    {
      assert t[..i + 1][..i] == t[..i];
      EncodeShape(t[i]);
      EncodeInto(t[i], dest, cursor);
      cursor := cursor + CharLength(dest[cursor]);
    }
    assert t[..|t|] == t;
    ghost var tail := dest[cursor..];
    assert dest[..] == Bytes(t) + tail && tail[0] == 0;
    CutPadded(Bytes(t), tail);
    s := CopyString(dest);
  }

  lemma CutPadded(s: seq<Byte>, tail: seq<Byte>)
    requires tail != [] && tail[0] == 0
    ensures Cut(s + tail) == Cut(s) && 0 in s + tail
  {
    CutAppend(s, tail);
    CutAppend(s, []);
    assert s + [] == s;
    assert (s + tail)[|s|] == 0;
  }

  // `string_copy`
  method CopyString(a: array<Byte>) returns (s: seq<Byte>)
    requires 0 in a[..]
    ensures s == Cut(a[..])
  {
    var n := 0;
    while a[n] != 0
      invariant n < a.Length && 0 !in a[..n] && 0 in a[n..]
      decreases a.Length - n
    {
      assert a[n..] == [a[n]] + a[n + 1..];
      n := n + 1;
    }
    CutAppend(a[..n], a[n..]);
    assert a[..] == a[..n] + a[n..];
    return a[..n];
  }

  class Iter {
    const bytes: seq<Byte>
    var cursor: nat

    // `utf8_iter_new`
    constructor (bytes: seq<Byte>)
      ensures this.bytes == bytes && cursor == 0
    {
      this.bytes := bytes;
      cursor := 0;
    }

    function Ahead(): seq<Byte>
      requires cursor <= |bytes|
      reads this
    {
      bytes[cursor..]
    }

    // `x` is the code point at the cursor, 0 at the end.
    ghost predicate Shows(x: CodePoint)
      reads this
    {
      && cursor <= |bytes| && Points(Ahead()).Some?
      && (x == 0 <==> Points(Ahead()).value == [])
      && (x != 0 ==> Points(Ahead()).value != [] && Points(Ahead()).value[0] == x)
    }

    // The code point at the cursor, 0 at the end of the string.
    method Current() returns (x: CodePoint)
      requires cursor <= |bytes| && Points(Ahead()).Some?
      ensures Shows(x)
    {
      if cursor == |bytes| || bytes[cursor] == 0 {
        return 0;
      }
      x := Decode(Ahead());
    }

    // `utf8_iter_first`
    method First() returns (x: CodePoint)
      requires Points(bytes).Some?
      modifies this
      ensures cursor == 0
      ensures Shows(x)
    {
      cursor := 0;
      assert Ahead() == bytes;
      x := Current();
    }

    // `utf8_iter_next`
    method Next() returns (x: CodePoint)
      requires cursor <= |bytes| && Points(Ahead()).Some? && Points(Ahead()).value != []
      modifies this
      ensures old(cursor) < cursor <= |bytes|
      ensures Points(Ahead()) == Some(old(Points(Ahead())).value[1..])
      ensures Shows(x)
    {
      ghost var s := Ahead();
      cursor := cursor + CharLength(bytes[cursor]);
      assert Ahead() == s[CharLength(s[0])..];
      assert Points(s).value[1..] == Points(Ahead()).value;
      x := Current();
    }
  }

  // `utf8_string_length`
  method StringLength(s: seq<Byte>) returns (length: nat)
    requires Points(s).Some?
    ensures length == |Points(s).value|
  {
    var iter := new Iter(s);
    var x := iter.First();
    assert s[0..] == s;
    length := 0;
    while x != 0
      invariant iter.bytes == s && iter.Shows(x)
      invariant length + |Points(iter.Ahead()).value| == |Points(s).value|
      decreases |s| - iter.cursor
    {
      length := length + 1;
      x := iter.Next();
    }
  }

  lemma Moved(done: seq<CodePoint>, rest: seq<CodePoint>, x: CodePoint, all: seq<CodePoint>)
    requires rest != [] && rest[0] == x && done + rest == all
    ensures |done| < |all| && done + [x] + rest[1..] == all
  {
  }

  // `text_from_string`
  method TextFromString(s: seq<Byte>) returns (text: array<CodePoint>)
    requires Points(s).Some?
    ensures text[..] == Points(s).value
  {
    hide Points, Decode, CharLength;
    var length := StringLength(s);
    text := new CodePoint[length](_ => 0);
    var iter := new Iter(s);
    var x := iter.First();
    assert s[0..] == s;
    var index := 0;
    while x != 0
      invariant iter.bytes == s && iter.Shows(x)
      invariant index <= length && text[..index] + Points(iter.Ahead()).value == Points(s).value
      decreases |s| - iter.cursor
    {
      Moved(text[..index], Points(iter.Ahead()).value, x, Points(s).value);
      text[index] := x;
      index := index + 1;
      x := iter.Next();
    }
    assert text[..index] == text[..];
  }
}
