/**
 Reading JSON with comments (internal/cursor/settings.go, normalizeJSONC): a comment
 pass and a trailing-comma pass, both as functions of the bytes still to read and
 the mode the scanner is in.
 */
module JsoncSpec {
  import opened Base

  newtype byte = x: int | 0 <= x < 256

  type Bytes = seq<byte>

  const TAB: byte := 9
  const NL: byte := 10
  const CR: byte := 13
  const SPACE: byte := 32
  const QUOTE: byte := 34
  const STAR: byte := 42
  const COMMA: byte := 44
  const SLASH: byte := 47
  const COLON: byte := 58
  const OPEN_BRACKET: byte := 91
  const BACKSLASH: byte := 92
  const CLOSE_BRACKET: byte := 93
  const OPEN_BRACE: byte := 123
  const CLOSE_BRACE: byte := 125

  const BOM: Bytes := [0xEF, 0xBB, 0xBF]

  predicate IsJSONWhitespace(b: byte) {
    b == SPACE || b == TAB || b == CR || b == NL
  }

  predicate IsCloser(b: byte) {
    b == CLOSE_BRACE || b == CLOSE_BRACKET
  }

  datatype Mode = Code | Line | Block | Text | Escape

  /** The mode inside and after a string literal byte. */
  function TextMode(m: Mode, b: byte): Mode {
    if m.Escape? then Text else if b == BACKSLASH then Escape else if b == QUOTE then Code else Text
  }

  /** What the comment pass emits for the rest of the input, and the mode it ends in. */
  function Strip(m: Mode, s: Bytes): (Bytes, Mode)
    decreases |s|
  {
    if s == [] then ([], m)
    else match m
      case Line =>
        if s[0] == NL then var (o, e) := Strip(Code, s[1..]); ([NL] + o, e) else Strip(Line, s[1..])
      case Block =>
        if s[0] == STAR && |s| > 1 && s[1] == SLASH then Strip(Code, s[2..])
        else if s[0] == NL then var (o, e) := Strip(Block, s[1..]); ([NL] + o, e)
        else Strip(Block, s[1..])
      case Code =>
        if s[0] == SLASH && |s| > 1 && s[1] == SLASH then Strip(Line, s[2..])
        else if s[0] == SLASH && |s| > 1 && s[1] == STAR then Strip(Block, s[2..])
        else var (o, e) := Strip(if s[0] == QUOTE then Text else Code, s[1..]); ([s[0]] + o, e)
      case _ =>
        var (o, e) := Strip(TextMode(m, s[0]), s[1..]); ([s[0]] + o, e)
  }

  /** Fails exactly when a block comment is left open. */
  function StripComments(s: Bytes): Option<Bytes> {
    if Strip(Code, s).1.Block? then None else Some(Strip(Code, s).0)
  }

  function SkipSpace(s: Bytes): Bytes {
    if s != [] && IsJSONWhitespace(s[0]) then SkipSpace(s[1..]) else s
  }

  predicate CloserAhead(s: Bytes) {
    SkipSpace(s) != [] && IsCloser(SkipSpace(s)[0])
  }

  function StripCommas(m: Mode, s: Bytes): Bytes
    decreases |s|
  {
    if s == [] then []
    else match m
      case Code =>
        if s[0] == COMMA && CloserAhead(s[1..]) then StripCommas(Code, s[1..])
        else [s[0]] + StripCommas(if s[0] == QUOTE then Text else Code, s[1..])
      case _ => [s[0]] + StripCommas(TextMode(m, s[0]), s[1..])
  }

  function WithoutBOM(s: Bytes): Bytes {
    if |s| >= 3 && s[..3] == BOM then s[3..] else s
  }

  function Normalize(s: Bytes): Option<Bytes> {
    var o := StripComments(WithoutBOM(s));
    if o.None? then None else Some(StripCommas(Code, o.value))
  }

  // ---- Facts about every input ----

  function Newlines(s: Bytes): nat {
    if s == [] then 0 else (if s[0] == NL then 1 else 0) + Newlines(s[1..])
  }

  lemma {:induction false} StripKeepsNewlines(m: Mode, s: Bytes)
    ensures Newlines(Strip(m, s).0) == Newlines(s)
    decreases |s|
  {
    if s != [] {
      var comment := m.Code? && s[0] == SLASH && |s| > 1 && (s[1] == SLASH || s[1] == STAR);
      var close := m.Block? && s[0] == STAR && |s| > 1 && s[1] == SLASH;
      if comment || close {
        assert s[1..][1..] == s[2..];
        StripKeepsNewlines(if close then Code else if s[1] == SLASH then Line else Block, s[2..]);
      } else {
        var next := match m
          case Line => if s[0] == NL then Code else Line
          case Block => Block
          case Code => if s[0] == QUOTE then Text else Code
          case _ => TextMode(m, s[0]);
        StripKeepsNewlines(next, s[1..]);
        var o := Strip(next, s[1..]).0;
        assert ([s[0]] + o)[1..] == o;
      }
    }
  }

  lemma {:induction false} CommasKeepNewlines(m: Mode, s: Bytes)
    ensures Newlines(StripCommas(m, s)) == Newlines(s)
    decreases |s|
  {
    if s != [] {
      var next := if m.Code? then (if s[0] == QUOTE then Text else Code) else TextMode(m, s[0]);
      CommasKeepNewlines(next, s[1..]);
      var o := StripCommas(next, s[1..]);
      assert ([s[0]] + o)[1..] == o;
    }
  }

  /** Line numbers survive: every accepted input keeps its number of newlines. */
  lemma NormalizeKeepsNewlines(s: Bytes)
    requires Normalize(s).Some?
    ensures Newlines(Normalize(s).value) == Newlines(s)
  {
    var t := WithoutBOM(s);
    StripKeepsNewlines(Code, t);
    CommasKeepNewlines(Code, Strip(Code, t).0);
    if t != s {
      assert s[0] == 0xEF && s[1] == 0xBB && s[2] == 0xBF by {
        assert s[..3][0] == BOM[0] && s[..3][1] == BOM[1] && s[..3][2] == BOM[2];
      }
      assert s[1..][1..] == s[2..] && s[2..][1..] == s[3..];
      assert Newlines(s) == Newlines(s[1..]) == Newlines(s[2..]) == Newlines(s[3..]);
    }
  }

  /** No comment opens in `s` when it is scanned from mode `m`. */
  predicate CommentFree(m: Mode, s: Bytes)
    decreases |s|
  {
    s == [] ||
    match m
    case Code =>
      && !(s[0] == SLASH && |s| > 1 && (s[1] == SLASH || s[1] == STAR))
      && CommentFree(if s[0] == QUOTE then Text else Code, s[1..])
    case _ => CommentFree(TextMode(m, s[0]), s[1..])
  }

  /** Outside comments, a byte that opens none is emitted first. */
  lemma EmitsHead(s: Bytes)
    requires s != [] && s[0] != SLASH
    ensures Strip(Code, s).0 != [] && Strip(Code, s).0[0] == s[0]
  {
  }

  lemma {:induction false} StripIsCommentFree(m: Mode, s: Bytes)
    ensures CommentFree(if m.Line? || m.Block? then Code else m, Strip(m, s).0)
    decreases |s|
  {
    if s != [] {
      match m
      case Line =>
        StripIsCommentFree(if s[0] == NL then Code else Line, s[1..]);
        var o := Strip(Code, s[1..]).0;
        assert ([NL] + o)[1..] == o;
      case Block =>
        if s[0] == STAR && |s| > 1 && s[1] == SLASH {
          StripIsCommentFree(Code, s[2..]);
        } else {
          StripIsCommentFree(Block, s[1..]);
          var o := Strip(Block, s[1..]).0;
          assert ([NL] + o)[1..] == o;
        }
      case Code =>
        if s[0] == SLASH && |s| > 1 && (s[1] == SLASH || s[1] == STAR) {
          StripIsCommentFree(if s[1] == SLASH then Line else Block, s[2..]);
        } else {
          var next := if s[0] == QUOTE then Text else Code;
          StripIsCommentFree(next, s[1..]);
          var o := Strip(next, s[1..]).0;
          assert ([s[0]] + o)[1..] == o;
          if s[0] == SLASH && |s| > 1 {
            EmitsHead(s[1..]);
          }
        }
      case _ =>
        StripIsCommentFree(TextMode(m, s[0]), s[1..]);
        var o := Strip(TextMode(m, s[0]), s[1..]).0;
        assert ([s[0]] + o)[1..] == o;
    }
  }

  lemma {:induction false} CommentFreeIsFixed(m: Mode, s: Bytes)
    requires !m.Line? && !m.Block? && CommentFree(m, s)
    ensures Strip(m, s).0 == s && !Strip(m, s).1.Block?
    decreases |s|
  {
    if s != [] {
      var next := if m.Code? then (if s[0] == QUOTE then Text else Code) else TextMode(m, s[0]);
      CommentFreeIsFixed(next, s[1..]);
      assert s == [s[0]] + s[1..];
    }
  }

  /** Stripping comments once is stripping them for good. */
  lemma StripCommentsIdempotent(s: Bytes)
    requires StripComments(s).Some?
    ensures StripComments(StripComments(s).value) == StripComments(s)
  {
    StripIsCommentFree(Code, s);
    CommentFreeIsFixed(Code, Strip(Code, s).0);
  }

  /** A byte-order mark is dropped, once. */
  lemma MarkIsDropped(s: Bytes)
    ensures Normalize(BOM + s) == if StripComments(s).None? then None else Some(StripCommas(Code, StripComments(s).value))
    ensures !(|s| >= 3 && s[0] == 0xEF && s[1] == 0xBB && s[2] == 0xBF) ==> Normalize(BOM + s) == Normalize(s)
  {
    assert (BOM + s)[..3] == BOM && (BOM + s)[3..] == s;
    if |s| >= 3 && s[..3] == BOM {
      assert s[0] == s[..3][0] && s[1] == s[..3][1] && s[2] == s[..3][2];
    }
  }
}
