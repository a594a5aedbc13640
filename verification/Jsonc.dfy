/**
 The two scanning loops of internal/cursor/settings.go, and the result for complete
 JSON texts.
 */
module Jsonc {
  import opened Base
  import opened JsoncSpec
  import opened JsoncDecorated

  // ---- JSON texts ----

  datatype Json = Literal(text: Bytes) | Str(body: Bytes) | Arr(items: Items) | Obj(members: Members)
  datatype Items = Nil | Cons(head: Json, tail: Items)
  datatype Members = NoMembers | Member(key: Bytes, value: Json, rest: Members)

  function Tokens(j: Json): seq<Token> {
    match j
    case Literal(text) => [Scalar(text)]
    case Str(body) => [Quoted(body)]
    case Arr(items) => [Punct(OPEN_BRACKET)] + ItemTokens(items) + [Punct(CLOSE_BRACKET)]
    case Obj(members) => [Punct(OPEN_BRACE)] + MemberTokens(members) + [Punct(CLOSE_BRACE)]
  }

  function ItemTokens(items: Items): seq<Token> {
    match items
    case Nil => []
    case Cons(head, Nil) => Tokens(head)
    case Cons(head, tail) => Tokens(head) + [Punct(COMMA)] + ItemTokens(tail)
  }

  function MemberTokens(members: Members): seq<Token> {
    match members
    case NoMembers => []
    case Member(key, value, NoMembers) => [Quoted(key), Punct(COLON)] + Tokens(value)
    case Member(key, value, rest) => [Quoted(key), Punct(COLON)] + Tokens(value) + [Punct(COMMA)] + MemberTokens(rest)
  }

  predicate IsComma(t: Token) {
    t == Punct(COMMA)
  }

  predicate IsClosing(t: Token) {
    t.Punct? && IsCloser(t.b)
  }

  /** Two tokens that may stand next to each other in a JSON text. */
  predicate Neighbours(a: Token, b: Token) {
    !(a.Scalar? && b.Scalar?) && !(IsComma(a) && IsClosing(b))
  }

  predicate Flows(tokens: seq<Token>) {
    forall i :: 0 <= i < |tokens| - 1 ==> Neighbours(tokens[i], tokens[i + 1])
  }

  /** A token sequence that begins like a value and does not end with a comma. */
  predicate ValueLike(tokens: seq<Token>) {
    && Flows(tokens)
    && tokens != []
    && !IsClosing(tokens[0])
    && !IsComma(tokens[|tokens| - 1])
  }

  lemma FlowsTogether(a: seq<Token>, b: seq<Token>)
    requires Flows(a) && Flows(b)
    requires a != [] && b != [] ==> Neighbours(a[|a| - 1], b[0])
    ensures Flows(a + b)
  {
    var c := a + b;
    forall i | 0 <= i < |c| - 1 ensures Neighbours(c[i], c[i + 1]) {
      if i >= |a| {
        assert c[i] == b[i - |a|] && c[i + 1] == b[i - |a| + 1];
      }
    }
  }

  lemma Bracketed(open: byte, inner: seq<Token>, close: byte)
    requires inner == [] || ValueLike(inner)
    requires open == OPEN_BRACE || open == OPEN_BRACKET
    requires IsCloser(close)
    ensures ValueLike([Punct(open)] + inner + [Punct(close)])
  {
    FlowsTogether([Punct(open)], inner);
    FlowsTogether([Punct(open)] + inner, [Punct(close)]);
  }

  lemma Listed(a: seq<Token>, b: seq<Token>)
    requires ValueLike(a) && ValueLike(b)
    ensures ValueLike(a + [Punct(COMMA)] + b)
  {
    FlowsTogether(a, [Punct(COMMA)]);
    FlowsTogether(a + [Punct(COMMA)], b);
  }

  lemma Keyed(key: Bytes, a: seq<Token>)
    requires ValueLike(a)
    ensures ValueLike([Quoted(key), Punct(COLON)] + a)
  {
    FlowsTogether([Quoted(key), Punct(COLON)], a);
  }

  lemma {:induction false} TokensFlow(j: Json)
    ensures ValueLike(Tokens(j))
  {
    match j
    case Literal(_) =>
    case Str(_) =>
    case Arr(items) =>
      ItemsFlow(items);
      Bracketed(OPEN_BRACKET, ItemTokens(items), CLOSE_BRACKET);
    case Obj(members) =>
      MembersFlow(members);
      Bracketed(OPEN_BRACE, MemberTokens(members), CLOSE_BRACE);
  }

  lemma {:induction false} ItemsFlow(items: Items)
    ensures items.Nil? || ValueLike(ItemTokens(items))
  {
    if items.Cons? {
      TokensFlow(items.head);
      if items.tail.Cons? {
        ItemsFlow(items.tail);
        Listed(Tokens(items.head), ItemTokens(items.tail));
      }
    }
  }

  lemma {:induction false} MembersFlow(members: Members)
    ensures members.NoMembers? || ValueLike(MemberTokens(members))
  {
    if members.Member? {
      TokensFlow(members.value);
      Keyed(members.key, Tokens(members.value));
      if members.rest.Member? {
        MembersFlow(members.rest);
        var first := [Quoted(members.key), Punct(COLON)] + Tokens(members.value);
        Listed(first, MemberTokens(members.rest));
        assert MemberTokens(members) == first + [Punct(COMMA)] + MemberTokens(members.rest);
      }
    }
  }

  /** Each extra comma stands right before a closing bracket; so there is at most one before each. */
  predicate ExtrasOk(ps: seq<Piece>) {
    ps == [] || ((ps[0].ExtraComma? ==> IsCloserPiece(NextSolid(ps[1..]))) && ExtrasOk(ps[1..]))
  }

  lemma {:induction false} NextSolidToken(ps: seq<Piece>)
    ensures NextSolid(ps).Some? && NextSolid(ps).value.Tok? ==>
              TokensOf(ps) != [] && TokensOf(ps)[0] == NextSolid(ps).value.t
  {
    if ps != [] && !ps[0].Tok? && !ps[0].ExtraComma? {
      NextSolidToken(ps[1..]);
    }
  }

  lemma {:induction false} FlowMeansCommasOk(ps: seq<Piece>)
    requires Flows(TokensOf(ps)) && ExtrasOk(ps)
    ensures CommasOk(ps)
  {
    if ps != [] {
      var tokens := TokensOf(ps[1..]);
      if ps[0].Tok? {
        assert TokensOf(ps) == [ps[0].t] + tokens;
        forall i | 0 <= i < |tokens| - 1 ensures Neighbours(tokens[i], tokens[i + 1]) {
          assert tokens[i] == TokensOf(ps)[i + 1] && tokens[i + 1] == TokensOf(ps)[i + 1 + 1];
        }
        assert tokens != [] ==> Neighbours(TokensOf(ps)[0], TokensOf(ps)[0 + 1]) && TokensOf(ps)[0 + 1] == tokens[0];
        NextSolidToken(ps[1..]);
      } else {
        assert TokensOf(ps) == tokens;
      }
      FlowMeansCommasOk(ps[1..]);
    }
  }

  /**
   For every JSON text, however it is decorated with white space, closed comments and
   extra commas, and with or without a byte order mark, normalising succeeds and yields a
   text with exactly the tokens of the JSON text and the newlines of the input.
   */
  lemma NormalizeJson(j: Json, ps: seq<Piece>)
    requires PiecesOk(ps) && ExtrasOk(ps) && TokensOf(ps) == Tokens(j)
    ensures Normalize(Render(ps)) == Some(RenderPlain(ps)) == Normalize(BOM + Render(ps))
    ensures Lex(RenderPlain(ps)) == Some(Tokens(j))
    ensures Newlines(RenderPlain(ps)) == Newlines(Render(ps))
  {
    TokensFlow(j);
    FlowMeansCommasOk(ps);
    NormalizeDecorated(ps);
    assert Apart(TokensOf(ps)) by {
      forall i | 0 <= i < |TokensOf(ps)| - 1
        ensures !(TokensOf(ps)[i].Scalar? && TokensOf(ps)[i + 1].Scalar?)
      {
        assert Neighbours(TokensOf(ps)[i], TokensOf(ps)[i + 1]);
      }
    }
    LexPlain(ps);
    NormalizeKeepsNewlines(Render(ps));
  }

  // ---- The loops ----

  function ModeOf(inLine: bool, inBlock: bool, inString: bool, escaped: bool): Mode {
    if inLine then Line else if inBlock then Block else if inString then (if escaped then Escape else Text) else Code
  }

  method StripJSONCComments(data: Bytes) returns (r: Option<Bytes>)
    ensures r == StripComments(data)
    ensures r.Some? ==> StripComments(r.value) == r
  {
    var out: Bytes := [];
    var inLine, inBlock, inString, escaped := false, false, false, false;
    var i := 0;
    assert data[0..] == data;
    while i < |data|
      invariant 0 <= i <= |data|
      invariant escaped ==> inString
      invariant !(inLine && inBlock) && !(inLine && inString) && !(inBlock && inString)
      invariant Strip(Code, data).0 == out + Strip(ModeOf(inLine, inBlock, inString, escaped), data[i..]).0
      invariant Strip(Code, data).1 == Strip(ModeOf(inLine, inBlock, inString, escaped), data[i..]).1
    {
      var ch := data[i];
      ghost var rest := data[i..];
      assert rest[0] == ch && rest[1..] == data[i + 1..];
      assert |rest| > 1 ==> rest[1] == data[i + 1] && rest[2..] == data[i + 2..];
      if inLine {
        if ch == NL {
          inLine := false;
          out := out + [ch];
        }
      } else if inBlock {
        if ch == STAR && i + 1 < |data| && data[i + 1] == SLASH {
          inBlock := false;
          i := i + 1;
        } else if ch == NL {
          out := out + [ch];
        }
      } else if inString {
        out := out + [ch];
        if escaped {
          escaped := false;
        } else if ch == BACKSLASH {
          escaped := true;
        } else if ch == QUOTE {
          inString := false;
        }
      } else if ch == QUOTE {
        inString := true;
        out := out + [ch];
      } else if ch == SLASH && i + 1 < |data| && data[i + 1] == SLASH {
        inLine := true;
        i := i + 1;
      } else if ch == SLASH && i + 1 < |data| && data[i + 1] == STAR {
        inBlock := true;
        i := i + 1;
      } else {
        out := out + [ch];
      }
      i := i + 1;
    }
    assert data[i..] == [];
    assert Strip(Code, data).0 == out + [] == out;
    r := if inBlock then None else Some(out);
    if r.Some? {
      StripCommentsIdempotent(data);
    }
  }

  /** The look-ahead behind a comma: white space, then a closing bracket. */
  method ClosesNext(data: Bytes, from: nat) returns (closes: bool)
    requires from <= |data|
    ensures closes == CloserAhead(data[from..])
  {
    var j := from;
    while j < |data| && IsJSONWhitespace(data[j])
      invariant from <= j <= |data|
      invariant SkipSpace(data[from..]) == SkipSpace(data[j..])
    {
      assert data[j..][1..] == data[j + 1..];
      j := j + 1;
    }
    closes := j < |data| && IsCloser(data[j]);
  }

  /** What is written so far continues with the unread rest. */
  predicate Continues(out: Bytes, data: Bytes, i: nat, m: Mode) {
    i <= |data| && StripCommas(Code, data) == out + StripCommas(m, data[i..])
  }

  /** What one byte does in the mode its predecessors left. */
  lemma ContinuesStep(out: Bytes, data: Bytes, i: nat, m: Mode)
    requires i < |data| && Continues(out, data, i, m) && (m.Code? || m.Text? || m.Escape?)
    ensures m.Code? && data[i] == COMMA && CloserAhead(data[i + 1..]) ==> Continues(out, data, i + 1, Code)
    ensures m.Code? && !(data[i] == COMMA && CloserAhead(data[i + 1..])) ==>
              Continues(out + [data[i]], data, i + 1, if data[i] == QUOTE then Text else Code)
    ensures !m.Code? ==> Continues(out + [data[i]], data, i + 1, TextMode(m, data[i]))
  {
    assert data[i..][1..] == data[i + 1..];
  }

  method StripJSONCTrailingCommas(data: Bytes) returns (out: Bytes)
    ensures out == StripCommas(Code, data)
  {
    out := [];
    var inString, escaped := false, false;
    var i := 0;
    assert data[0..] == data;
    while i < |data|
      invariant 0 <= i <= |data|
      invariant escaped ==> inString
      invariant Continues(out, data, i, ModeOf(false, false, inString, escaped))
    {
      var ch := data[i];
      ContinuesStep(out, data, i, ModeOf(false, false, inString, escaped));
      var keep := true;
      if inString {
        if escaped {
          escaped := false;
        } else if ch == BACKSLASH {
          escaped := true;
        } else if ch == QUOTE {
          inString := false;
        }
      } else if ch == QUOTE {
        inString := true;
      } else if ch == COMMA {
        var closes := ClosesNext(data, i + 1);
        keep := !closes;
      }
      if keep {
        out := out + [ch];
      }
      i := i + 1;
    }
    assert data[i..] == [];
  }

  method NormalizeJSONC(data: Bytes) returns (r: Option<Bytes>)
    ensures r == Normalize(data)
    ensures r.Some? ==> Newlines(r.value) == Newlines(data)
  {
    var text := data;
    if |data| >= 3 && data[0] == 0xEF && data[1] == 0xBB && data[2] == 0xBF {
      text := data[3..];
      assert data[..3] == BOM;
    } else if |data| >= 3 {
      assert data[..3][0] == data[0] && data[..3][1] == data[1] && data[..3][2] == data[2];
    }
    var stripped := StripJSONCComments(text);
    if stripped.None? {
      return None;
    }
    var out := StripJSONCTrailingCommas(stripped.value);
    r := Some(out);
    NormalizeKeepsNewlines(data);
  }
}
