/**
 JSON texts decorated with white space, comments and one extra comma before a closing
 bracket, and what `Normalize` makes of them. Tokens follow sections 2 and 7 of RFC 8259;
 the lexer is an independent account of where tokens begin and end.
 */
module JsoncDecorated {
  import opened Base
  import opened JsoncSpec

  datatype Token = Scalar(text: Bytes) | Quoted(body: Bytes) | Punct(b: byte)

  /** The bytes of numbers and of the literal names. */
  predicate IsScalarByte(b: byte) {
    48 <= b <= 57 || 65 <= b <= 90 || 97 <= b <= 122 || b == 43 || b == 45 || b == 46
  }

  predicate IsPunct(b: byte) {
    b == OPEN_BRACE || b == CLOSE_BRACE || b == OPEN_BRACKET || b == CLOSE_BRACKET || b == COLON || b == COMMA
  }

  /** A string body: every quotation mark is escaped and no escape is cut off. */
  predicate IsBody(s: Bytes) {
    s == [] || (if s[0] == BACKSLASH then |s| > 1 && IsBody(s[2..]) else s[0] != QUOTE && IsBody(s[1..]))
  }

  predicate TokenOk(t: Token) {
    match t
    case Scalar(text) => text != [] && forall i :: 0 <= i < |text| ==> IsScalarByte(text[i])
    case Quoted(body) => IsBody(body)
    case Punct(b) => IsPunct(b)
  }

  function TokenBytes(t: Token): Bytes {
    match t
    case Scalar(text) => text
    case Quoted(body) => [QUOTE] + body + [QUOTE]
    case Punct(b) => [b]
  }

  // ---- The lexer ----

  function ScalarLength(s: Bytes): (n: nat)
    ensures n <= |s|
  {
    if s != [] && IsScalarByte(s[0]) then 1 + ScalarLength(s[1..]) else 0
  }

  /** The length of the string body at the head of `s`, or -1 when its closing mark is missing. */
  function BodyLength(s: Bytes): (n: int)
    ensures -1 <= n < |s| || n == -1
  {
    if s == [] then -1
    else if s[0] == QUOTE then 0
    else
      var k := if s[0] == BACKSLASH then 2 else 1;
      if |s| < k then -1
      else
        var n := BodyLength(s[k..]);
        if n < 0 then -1 else n + k
  }

  function Prepend(t: Token, rest: Option<seq<Token>>): Option<seq<Token>> {
    if rest.None? then None else Some([t] + rest.value)
  }

  function Lex(s: Bytes): Option<seq<Token>>
    decreases |s|
  {
    if s == [] then Some([])
    else if IsJSONWhitespace(s[0]) then Lex(s[1..])
    else if IsPunct(s[0]) then Prepend(Punct(s[0]), Lex(s[1..]))
    else if s[0] == QUOTE then
      var n := BodyLength(s[1..]);
      if n < 0 then None else Prepend(Quoted(s[1..1 + n]), Lex(s[n + 2..]))
    else if IsScalarByte(s[0]) then
      var n := ScalarLength(s);
      Prepend(Scalar(s[..n]), Lex(s[n..]))
    else None
  }

  // ---- Decorated texts ----

  datatype Piece =
    | Tok(t: Token)
    | Blank(b: byte)
    | LineComment(body: Bytes)
    | BlockComment(body: Bytes)
    | ExtraComma

  predicate Closes(body: Bytes) {
    exists i :: 0 <= i < |body| - 1 && body[i] == STAR && body[i + 1] == SLASH
  }

  predicate PieceOk(p: Piece) {
    match p
    case Tok(t) => TokenOk(t)
    case Blank(b) => IsJSONWhitespace(b)
    case LineComment(body) => NL !in body
    case BlockComment(body) => !Closes(body)
    case ExtraComma => true
  }

  function PieceBytes(p: Piece): Bytes {
    match p
    case Tok(t) => TokenBytes(t)
    case Blank(b) => [b]
    case LineComment(body) => [SLASH, SLASH] + body + [NL]
    case BlockComment(body) => [SLASH, STAR] + body + [STAR, SLASH]
    case ExtraComma => [COMMA]
  }

  function Render(ps: seq<Piece>): Bytes {
    if ps == [] then [] else PieceBytes(ps[0]) + Render(ps[1..])
  }

  function OnlyNewlines(s: Bytes): Bytes {
    if s == [] then [] else (if s[0] == NL then [NL] else []) + OnlyNewlines(s[1..])
  }

  /** A piece after the comment pass: a comment leaves its newlines. */
  function Uncommented(p: Piece): Bytes {
    match p
    case LineComment(_) => [NL]
    case BlockComment(body) => OnlyNewlines(body)
    case _ => PieceBytes(p)
  }

  function RenderUncommented(ps: seq<Piece>): Bytes {
    if ps == [] then [] else Uncommented(ps[0]) + RenderUncommented(ps[1..])
  }

  /** The text without comments and without extra commas. */
  function RenderPlain(ps: seq<Piece>): Bytes {
    if ps == [] then [] else (if ps[0].ExtraComma? then [] else Uncommented(ps[0])) + RenderPlain(ps[1..])
  }

  function TokensOf(ps: seq<Piece>): seq<Token> {
    if ps == [] then [] else (if ps[0].Tok? then [ps[0].t] else []) + TokensOf(ps[1..])
  }

  /** The first piece that is neither white space nor a comment. */
  function NextSolid(ps: seq<Piece>): Option<Piece> {
    if ps == [] then None else if ps[0].Tok? || ps[0].ExtraComma? then Some(ps[0]) else NextSolid(ps[1..])
  }

  predicate IsCloserPiece(p: Option<Piece>) {
    p.Some? && p.value.Tok? && p.value.t.Punct? && IsCloser(p.value.t.b)
  }

  /** An extra comma stands right before a closing bracket, and a real one never does. */
  predicate CommasOk(ps: seq<Piece>) {
    ps == [] ||
    (&& (ps[0].ExtraComma? ==> IsCloserPiece(NextSolid(ps[1..])))
     && (ps[0] == Tok(Punct(COMMA)) ==> !IsCloserPiece(NextSolid(ps[1..])))
     && CommasOk(ps[1..]))
  }

  predicate PiecesOk(ps: seq<Piece>) {
    forall i :: 0 <= i < |ps| ==> PieceOk(ps[i])
  }

  // ---- The comment pass ----

  function Emit(o: Bytes, r: (Bytes, Mode)): (Bytes, Mode) {
    (o + r.0, r.1)
  }

  lemma EmitEmit(a: Bytes, b: Bytes, r: (Bytes, Mode))
    ensures Emit(a, Emit(b, r)) == Emit(a + b, r)
    ensures Emit([], r) == r
  {
    assert a + (b + r.0) == (a + b) + r.0;
    assert [] + r.0 == r.0;
  }

  lemma {:induction false} StripPlain(s: Bytes, rest: Bytes)
    requires forall i :: 0 <= i < |s| ==> s[i] != SLASH && s[i] != QUOTE
    ensures Strip(Code, s + rest) == Emit(s, Strip(Code, rest))
  {
    var r := Strip(Code, rest);
    if s == [] {
      assert s + rest == rest;
      EmitEmit([], [], r);
    } else {
      StripPlain(s[1..], rest);
      assert (s + rest)[1..] == s[1..] + rest;
      assert Strip(Code, s + rest) == Emit([s[0]], Strip(Code, s[1..] + rest));
      EmitEmit([s[0]], s[1..], r);
      assert [s[0]] + s[1..] == s;
    }
  }

  /** One byte of a string literal. */
  lemma StripTextByte(m: Mode, b: byte, rest: Bytes)
    requires m.Text? || m.Escape?
    ensures Strip(m, [b] + rest) == Emit([b], Strip(TextMode(m, b), rest))
  {
    assert ([b] + rest)[1..] == rest;
  }

  /** One byte of a string, and what follows it. */
  lemma StripBodyByte(b: byte, m: Mode, tail: Bytes, kept: Bytes, r: (Bytes, Mode))
    requires (m.Text? && b != QUOTE && b != BACKSLASH) || m.Escape?
    requires Strip(Text, tail) == Emit(kept, r)
    ensures Strip(m, [b] + tail) == Emit([b] + kept, r)
  {
    StripTextByte(m, b, tail);
    EmitEmit([b], kept, r);
  }

  lemma StripBodyEscape(b: byte, tail: Bytes, kept: Bytes, r: (Bytes, Mode))
    requires Strip(Text, tail) == Emit(kept, r)
    ensures Strip(Text, [BACKSLASH] + ([b] + tail)) == Emit([BACKSLASH] + ([b] + kept), r)
  {
    StripBodyByte(b, Escape, tail, kept, r);
    StripTextByte(Text, BACKSLASH, [b] + tail);
    EmitEmit([BACKSLASH], [b] + kept, r);
  }

  lemma SplitFirst(body: Bytes, rest: Bytes)
    requires body != []
    ensures body + rest == [body[0]] + (body[1..] + rest)
  {
  }

  lemma SplitTwo(body: Bytes, rest: Bytes)
    requires |body| >= 2
    ensures body + rest == [body[0]] + ([body[1]] + (body[2..] + rest))
  {
  }

  lemma {:induction false} StripBody(body: Bytes, rest: Bytes)
    requires IsBody(body)
    ensures Strip(Text, body + ([QUOTE] + rest)) == Emit(body + [QUOTE], Strip(Code, rest))
    decreases |body|
  {
    var r := Strip(Code, rest);
    if body == [] {
      assert body + ([QUOTE] + rest) == [QUOTE] + rest && body + [QUOTE] == [QUOTE];
      StripTextByte(Text, QUOTE, rest);
    } else if body[0] == BACKSLASH {
      StripBody(body[2..], rest);
      StripBodyEscape(body[1], body[2..] + ([QUOTE] + rest), body[2..] + [QUOTE], r);
      SplitTwo(body, [QUOTE] + rest);
      SplitTwo(body, [QUOTE]);
    } else {
      StripBody(body[1..], rest);
      StripBodyByte(body[0], Text, body[1..] + ([QUOTE] + rest), body[1..] + [QUOTE], r);
      SplitFirst(body, [QUOTE] + rest);
      SplitFirst(body, [QUOTE]);
    }
  }

  lemma {:induction false} StripLine(body: Bytes, rest: Bytes)
    requires NL !in body
    ensures Strip(Line, body + [NL] + rest) == Emit([NL], Strip(Code, rest))
  {
    var all := body + [NL] + rest;
    if body == [] {
      assert all[1..] == rest;
    } else {
      StripLine(body[1..], rest);
      assert all[1..] == body[1..] + [NL] + rest;
    }
  }

  lemma {:induction false} StripBlock(body: Bytes, rest: Bytes)
    requires !Closes(body)
    ensures Strip(Block, body + [STAR, SLASH] + rest) == Emit(OnlyNewlines(body), Strip(Code, rest))
  {
    var all := body + [STAR, SLASH] + rest;
    var r := Strip(Code, rest);
    if body == [] {
      assert all[2..] == rest;
      EmitEmit([], [], r);
    } else {
      forall i | 0 <= i < |body[1..]| - 1 ensures !(body[1..][i] == STAR && body[1..][i + 1] == SLASH) {
        assert body[1..][i] == body[i + 1] && body[1..][i + 1] == body[i + 2];
      }
      StripBlock(body[1..], rest);
      var tail := body[1..] + [STAR, SLASH] + rest;
      assert all[1..] == tail;
      assert all[0] == body[0] && all[1] == (if |body| > 1 then body[1] else STAR);
      var head := if body[0] == NL then [NL] else [];
      assert Strip(Block, all) == Emit(head, Strip(Block, tail)) by {
        EmitEmit([], [], Strip(Block, tail));
      }
      EmitEmit(head, OnlyNewlines(body[1..]), r);
    }
  }

  lemma StripOpens(rest: Bytes)
    ensures Strip(Code, [SLASH, SLASH] + rest) == Strip(Line, rest)
    ensures Strip(Code, [SLASH, STAR] + rest) == Strip(Block, rest)
    ensures Strip(Code, [QUOTE] + rest) == Emit([QUOTE], Strip(Text, rest))
  {
    assert ([SLASH, SLASH] + rest)[2..] == rest;
    assert ([SLASH, STAR] + rest)[2..] == rest;
    assert ([QUOTE] + rest)[1..] == rest;
  }

  lemma StripQuoted(body: Bytes, rest: Bytes)
    requires IsBody(body)
    ensures Strip(Code, [QUOTE] + body + [QUOTE] + rest) == Emit([QUOTE] + body + [QUOTE], Strip(Code, rest))
  {
    StripBody(body, rest);
    StripOpens(body + ([QUOTE] + rest));
    EmitEmit([QUOTE], body + [QUOTE], Strip(Code, rest));
    ConcatAssociates([QUOTE] + body, [QUOTE], rest);
    ConcatAssociates([QUOTE], body, [QUOTE] + rest);
    ConcatAssociates([QUOTE], body, [QUOTE]);
  }

  lemma StripPiece(p: Piece, rest: Bytes)
    requires PieceOk(p)
    ensures Strip(Code, PieceBytes(p) + rest) == Emit(Uncommented(p), Strip(Code, rest))
  {
    if p.LineComment? {
      assert PieceBytes(p) + rest == [SLASH, SLASH] + (p.body + [NL] + rest);
      StripOpens(p.body + [NL] + rest);
      StripLine(p.body, rest);
    } else if p.BlockComment? {
      assert PieceBytes(p) + rest == [SLASH, STAR] + (p.body + [STAR, SLASH] + rest);
      StripOpens(p.body + [STAR, SLASH] + rest);
      StripBlock(p.body, rest);
    } else if p.Tok? && p.t.Quoted? {
      StripQuoted(p.t.body, rest);
    } else {
      StripPlain(PieceBytes(p), rest);
    }
  }

  lemma {:induction false} StripRender(ps: seq<Piece>)
    requires PiecesOk(ps)
    ensures Strip(Code, Render(ps)) == (RenderUncommented(ps), Code)
  {
    if ps != [] {
      StripRender(ps[1..]);
      StripPiece(ps[0], Render(ps[1..]));
      assert Strip(Code, Render(ps)) == Emit(Uncommented(ps[0]), (RenderUncommented(ps[1..]), Code));
    }
  }

  lemma {:induction false} StripRenderThen(ps: seq<Piece>, rest: Bytes)
    requires PiecesOk(ps)
    ensures Strip(Code, Render(ps) + rest) == Emit(RenderUncommented(ps), Strip(Code, rest))
  {
    var r := Strip(Code, rest);
    if ps == [] {
      assert Render(ps) + rest == rest;
      EmitEmit([], [], r);
    } else {
      StripRenderThen(ps[1..], rest);
      StripPiece(ps[0], Render(ps[1..]) + rest);
      ConcatAssociates(PieceBytes(ps[0]), Render(ps[1..]), rest);
      EmitEmit(Uncommented(ps[0]), RenderUncommented(ps[1..]), r);
    }
  }

  lemma {:induction false} OpenBlockStays(body: Bytes)
    requires !Closes(body)
    ensures Strip(Block, body).1 == Block
  {
    if body != [] {
      forall i | 0 <= i < |body[1..]| - 1 ensures !(body[1..][i] == STAR && body[1..][i + 1] == SLASH) {
        assert body[1..][i] == body[i + 1] && body[1..][i + 1] == body[i + 2];
      }
      OpenBlockStays(body[1..]);
    }
  }

  /** Decorated text is accepted; followed by a block comment that is not closed it is refused. */
  lemma RefusedWhenOpen(ps: seq<Piece>, body: Bytes)
    requires PiecesOk(ps) && !Closes(body)
    ensures StripComments(Render(ps)) == Some(RenderUncommented(ps))
    ensures StripComments(Render(ps) + ([SLASH, STAR] + body)).None?
  {
    StripRender(ps);
    StripRenderThen(ps, [SLASH, STAR] + body);
    StripOpens(body);
    OpenBlockStays(body);
  }

  // ---- The comma pass ----

  lemma {:induction false} CommasPlain(s: Bytes, rest: Bytes)
    requires forall i :: 0 <= i < |s| ==> s[i] != COMMA && s[i] != QUOTE
    ensures StripCommas(Code, s + rest) == s + StripCommas(Code, rest)
  {
    if s == [] {
      assert s + rest == rest;
    } else {
      CommasPlain(s[1..], rest);
      assert (s + rest)[1..] == s[1..] + rest;
    }
  }

  lemma {:induction false} CommasBody(body: Bytes, rest: Bytes)
    requires IsBody(body)
    ensures StripCommas(Text, body + [QUOTE] + rest) == body + [QUOTE] + StripCommas(Code, rest)
    decreases |body|
  {
    var all := body + [QUOTE] + rest;
    if body == [] {
      assert all[1..] == rest;
    } else if body[0] == BACKSLASH {
      CommasBody(body[2..], rest);
      assert all[1..][1..] == body[2..] + [QUOTE] + rest;
      assert all[1..][0] == body[1];
      assert StripCommas(Text, all) == [body[0]] + ([body[1]] + StripCommas(Text, body[2..] + [QUOTE] + rest));
    } else {
      CommasBody(body[1..], rest);
      assert all[1..] == body[1..] + [QUOTE] + rest;
    }
  }

  lemma {:induction false} OnlyNewlinesAre(s: Bytes)
    ensures forall i :: 0 <= i < |OnlyNewlines(s)| ==> OnlyNewlines(s)[i] == NL
  {
    if s != [] {
      OnlyNewlinesAre(s[1..]);
    }
  }

  lemma {:induction false} SkipBlanks(s: Bytes, rest: Bytes)
    requires forall i :: 0 <= i < |s| ==> IsJSONWhitespace(s[i])
    ensures SkipSpace(s + rest) == SkipSpace(rest)
  {
    if s == [] {
      assert s + rest == rest;
    } else {
      SkipBlanks(s[1..], rest);
      assert (s + rest)[1..] == s[1..] + rest;
    }
  }

  /** Past white space and comments the scanner sees the next solid piece. */
  lemma {:induction false} CloserAheadIff(ps: seq<Piece>)
    requires PiecesOk(ps)
    ensures CloserAhead(RenderUncommented(ps)) <==> IsCloserPiece(NextSolid(ps))
  {
    if ps != [] {
      var head := Uncommented(ps[0]);
      var rest := RenderUncommented(ps[1..]);
      if ps[0].Tok? || ps[0].ExtraComma? {
        assert (head + rest)[0] == head[0];
        if ps[0].Tok? && ps[0].t.Scalar? {
          assert IsScalarByte(ps[0].t.text[0]);
        }
      } else {
        if ps[0].BlockComment? {
          OnlyNewlinesAre(ps[0].body);
        }
        SkipBlanks(head, rest);
        CloserAheadIff(ps[1..]);
      }
    }
  }

  lemma CommasComma(rest: Bytes)
    ensures StripCommas(Code, [COMMA] + rest) ==
            (if CloserAhead(rest) then [] else [COMMA]) + StripCommas(Code, rest)
  {
    assert ([COMMA] + rest)[1..] == rest;
  }

  lemma CommasQuoted(body: Bytes, rest: Bytes)
    requires IsBody(body)
    ensures StripCommas(Code, [QUOTE] + body + [QUOTE] + rest) == [QUOTE] + body + [QUOTE] + StripCommas(Code, rest)
  {
    CommasBody(body, rest);
    assert ([QUOTE] + body + [QUOTE] + rest)[1..] == body + [QUOTE] + rest;
  }

  lemma CommasPiece(p: Piece, rest: Bytes)
    requires PieceOk(p)
    requires p.ExtraComma? ==> CloserAhead(rest)
    requires p == Tok(Punct(COMMA)) ==> !CloserAhead(rest)
    ensures StripCommas(Code, Uncommented(p) + rest) ==
            (if p.ExtraComma? then [] else Uncommented(p)) + StripCommas(Code, rest)
  {
    if p.ExtraComma? || p == Tok(Punct(COMMA)) {
      CommasComma(rest);
    } else if p.Tok? && p.t.Quoted? {
      CommasQuoted(p.t.body, rest);
    } else {
      if p.BlockComment? {
        OnlyNewlinesAre(p.body);
      }
      CommasPlain(Uncommented(p), rest);
    }
  }

  lemma {:induction false} CommasRender(ps: seq<Piece>)
    requires PiecesOk(ps) && CommasOk(ps)
    ensures StripCommas(Code, RenderUncommented(ps)) == RenderPlain(ps)
  {
    if ps != [] {
      CommasRender(ps[1..]);
      CloserAheadIff(ps[1..]);
      CommasPiece(ps[0], RenderUncommented(ps[1..]));
    }
  }

  lemma NoBOM(ps: seq<Piece>)
    requires PiecesOk(ps)
    ensures WithoutBOM(Render(ps)) == Render(ps)
  {
    var s := Render(ps);
    if ps != [] {
      assert PieceBytes(ps[0]) != [] && PieceBytes(ps[0])[0] != 0xEF;
      assert s[0] == PieceBytes(ps[0])[0];
      assert |s| >= 3 ==> s[..3][0] == s[0];
    }
  }

  /** Exactly the comments and the extra commas disappear; with or without a byte order mark. */
  lemma NormalizeDecorated(ps: seq<Piece>)
    requires PiecesOk(ps) && CommasOk(ps)
    ensures Normalize(Render(ps)) == Some(RenderPlain(ps))
    ensures Normalize(BOM + Render(ps)) == Some(RenderPlain(ps))
  {
    StripRender(ps);
    CommasRender(ps);
    NoBOM(ps);
    assert (BOM + Render(ps))[..3] == BOM && (BOM + Render(ps))[3..] == Render(ps);
  }

  // ---- The tokens are the same ----

  predicate Apart(tokens: seq<Token>) {
    forall i :: 0 <= i < |tokens| - 1 ==> !(tokens[i].Scalar? && tokens[i + 1].Scalar?)
  }

  lemma {:induction false} LexBlanks(s: Bytes, rest: Bytes)
    requires forall i :: 0 <= i < |s| ==> IsJSONWhitespace(s[i])
    ensures Lex(s + rest) == Lex(rest)
  {
    if s == [] {
      assert s + rest == rest;
    } else {
      LexBlanks(s[1..], rest);
      assert (s + rest)[1..] == s[1..] + rest;
    }
  }

  lemma {:induction false} BodyEnds(body: Bytes, rest: Bytes)
    requires IsBody(body)
    ensures BodyLength(body + [QUOTE] + rest) == |body|
    decreases |body|
  {
    var all := body + [QUOTE] + rest;
    if body != [] {
      var k := if body[0] == BACKSLASH then 2 else 1;
      BodyEnds(body[k..], rest);
      assert all[k..] == body[k..] + [QUOTE] + rest;
    }
  }

  lemma {:induction false} ScalarEnds(s: Bytes, rest: Bytes)
    requires forall i :: 0 <= i < |s| ==> IsScalarByte(s[i])
    requires rest == [] || !IsScalarByte(rest[0])
    ensures ScalarLength(s + rest) == |s|
  {
    if s == [] {
      assert s + rest == rest;
    } else {
      ScalarEnds(s[1..], rest);
      assert (s + rest)[1..] == s[1..] + rest;
    }
  }

  lemma LexScalar(text: Bytes, rest: Bytes)
    requires TokenOk(Scalar(text))
    requires rest == [] || !IsScalarByte(rest[0])
    ensures Lex(text + rest) == Prepend(Scalar(text), Lex(rest))
  {
    ScalarEnds(text, rest);
    var all := text + rest;
    assert all[0] == text[0] && IsScalarByte(all[0]);
    assert all[..|text|] == text && all[|text|..] == rest;
  }

  lemma LexQuoted(body: Bytes, rest: Bytes)
    requires IsBody(body)
    ensures Lex([QUOTE] + body + [QUOTE] + rest) == Prepend(Quoted(body), Lex(rest))
  {
    BodyEnds(body, rest);
    var all := [QUOTE] + body + [QUOTE] + rest;
    assert all[1..] == body + [QUOTE] + rest;
    assert all[1..1 + |body|] == body && all[|body| + 2..] == rest;
  }

  lemma LexToken(t: Token, rest: Bytes)
    requires TokenOk(t)
    requires t.Scalar? ==> rest == [] || !IsScalarByte(rest[0])
    ensures Lex(TokenBytes(t) + rest) == Prepend(t, Lex(rest))
  {
    match t
    case Scalar(text) => LexScalar(text, rest);
    case Quoted(body) => LexQuoted(body, rest);
    case Punct(b) => assert ([b] + rest)[1..] == rest;
  }

  /** After a scalar no scalar byte follows, as long as no two scalars are neighbours. */
  lemma {:induction false} HeadApart(ps: seq<Piece>)
    requires PiecesOk(ps)
    requires TokensOf(ps) == [] || !TokensOf(ps)[0].Scalar?
    ensures RenderPlain(ps) == [] || !IsScalarByte(RenderPlain(ps)[0])
  {
    if ps != [] {
      if !ps[0].Tok? {
        HeadApart(ps[1..]);
        if ps[0].BlockComment? {
          OnlyNewlinesAre(ps[0].body);
        }
      }
    }
  }

  lemma {:induction false} LexPlain(ps: seq<Piece>)
    requires PiecesOk(ps) && Apart(TokensOf(ps))
    ensures Lex(RenderPlain(ps)) == Some(TokensOf(ps))
  {
    if ps != [] {
      var rest := RenderPlain(ps[1..]);
      var tokens := TokensOf(ps[1..]);
      if ps[0].Tok? {
        assert TokensOf(ps) == [ps[0].t] + tokens;
        forall i | 0 <= i < |tokens| - 1 ensures !(tokens[i].Scalar? && tokens[i + 1].Scalar?) {
          assert tokens[i] == TokensOf(ps)[i + 1] && tokens[i + 1] == TokensOf(ps)[i + 2];
        }
        LexPlain(ps[1..]);
        if ps[0].t.Scalar? {
          assert tokens != [] ==> tokens[0] == TokensOf(ps)[1] && !(TokensOf(ps)[0].Scalar? && TokensOf(ps)[0 + 1].Scalar?);
          HeadApart(ps[1..]);
        }
        LexToken(ps[0].t, rest);
      } else {
        assert TokensOf(ps) == tokens;
        LexPlain(ps[1..]);
        if ps[0].BlockComment? {
          OnlyNewlinesAre(ps[0].body);
        }
        LexBlanks(if ps[0].ExtraComma? then [] else Uncommented(ps[0]), rest);
      }
    }
  }
}
