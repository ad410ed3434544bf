/**
 * Placeholder substitution: the global, case-insensitive replace of
 * `{digits}` and `{identifier}` tokens by the payload entry named by the
 * whole captured text. One left-to-right scan; replacements are not rescanned.
 */
module Interpolation {
  import opened Wrappers
  import opened DataValues

  predicate IsLetter(c: char)
  {
    'a' <= c <= 'z' || 'A' <= c <= 'Z'
  }

  /** A character that may start an identifier token: a letter, `$` or `_`. */
  predicate IsLeadChar(c: char)
  {
    IsLetter(c) || c == '$' || c == '_'
  }

  /** A character that may appear in a token after the first: also digits and `.`. */
  predicate IsBodyChar(c: char)
  {
    IsLeadChar(c) || IsDigit(c) || c == '.'
  }

  /**
   * The text between the braces of a token: one or more digits, or a lead
   * character followed by any body characters (so `a.b`, `a..b` and `a.` too).
   */
  predicate IsTokenBody(b: string)
  {
    && |b| > 0
    && (AllDigits(b) || (IsLeadChar(b[0]) && forall i :: 1 <= i < |b| ==> IsBodyChar(b[i])))
  }

  /** The length of the longest prefix of `s` made of body characters. */
  function BodyRun(s: string): (n: nat)
    ensures n <= |s|
    ensures forall i :: 0 <= i < n ==> IsBodyChar(s[i])
    ensures n < |s| ==> !IsBodyChar(s[n])
    decreases |s|
  {
    if |s| > 0 && IsBodyChar(s[0]) then 1 + BodyRun(s[1..]) else 0
  }

  /**
   * The token that starts `s`, if any: its body (the capture group), when
   * `s` begins with `{`, a token body and `}`.
   */
  function TokenAt(s: string): (t: Option<string>)
    ensures t.Some? ==> IsTokenBody(t.value) && "{" + t.value + "}" <= s
  {
    if |s| > 0 && s[0] == '{' then
      var n := BodyRun(s[1..]);
      if 1 + n < |s| && s[1 + n] == '}' && IsTokenBody(s[1..1 + n]) then
        assert "{" + s[1..1 + n] + "}" == s[..n + 2];
        Some(s[1..1 + n])
      else None
    else None
  }

  /** A run of body characters ended by another character is exactly the longest prefix. */
  lemma {:induction false} BodyRunExact(s: string, k: nat)
    requires k < |s| && !IsBodyChar(s[k])
    requires forall i :: 0 <= i < k ==> IsBodyChar(s[i])
    ensures BodyRun(s) == k
    decreases k
  {
    if k > 0 {
      BodyRunExact(s[1..], k - 1);
    }
  }

  /** A text that starts with a token, braces included, is matched as exactly that token. */
  lemma TokenAtMatches(s: string, b: string)
    requires IsTokenBody(b) && "{" + b + "}" <= s
    ensures TokenAt(s) == Some(b)
  {
    var t := "{" + b + "}";
    assert s[0] == t[0] == '{';
    assert forall i :: 0 <= i < |b| ==> IsBodyChar(b[i]);
    forall i | 0 <= i < |b| ensures s[1..][i] == b[i] {
      assert s[1..][i] == s[1 + i] == t[1 + i];
    }
    assert s[1..][|b|] == s[1 + |b|] == t[1 + |b|] == '}';
    BodyRunExact(s[1..], |b|);
    assert s[1..1 + |b|] == b;
  }

  /**
   * The global replace: scan left to right; at each token put the
   * substitution of the payload entry it names and resume after its `}`;
   * elsewhere copy one character and move on. A template in which the scan
   * finds no token comes back unchanged, whatever the data.
   */
  function Interpolate(s: string, data: Data): (r: string)
    ensures Tokens(s) == [] ==> r == s
    decreases |s|
  {
    if |s| == 0 then ""
    else match TokenAt(s)
      case Some(b) => Substitution(Get(data, b)) + Interpolate(s[|b| + 2..], data)
      case None =>
        assert [s[0]] + s[1..] == s;
        [s[0]] + Interpolate(s[1..], data)
  }

  /** The bodies of the tokens the scan replaces, in order. */
  function Tokens(s: string): (ts: seq<string>)
    ensures forall i :: 0 <= i < |ts| ==> IsTokenBody(ts[i])
    decreases |s|
  {
    if |s| == 0 then []
    else match TokenAt(s)
      case Some(b) => [b] + Tokens(s[|b| + 2..])
      case None => Tokens(s[1..])
  }

  /** A template without an opening brace has no token. */
  lemma {:induction false} NoBraceNoTokens(s: string)
    requires '{' !in s
    ensures Tokens(s) == []
    decreases |s|
  {
    if |s| > 0 {
      assert '{' !in s[1..] by {
        forall i | 0 <= i < |s[1..]| ensures s[1..][i] != '{' {
          assert s[1..][i] == s[i + 1];
        }
      }
      NoBraceNoTokens(s[1..]);
    }
  }

  /** Text before the first opening brace is copied through unchanged. */
  lemma {:induction false} InterpolateLiteralPrefix(u: string, v: string, data: Data)
    requires '{' !in u
    ensures Interpolate(u + v, data) == u + Interpolate(v, data)
    decreases |u|
  {
    if |u| > 0 {
      var s := u + v;
      assert s[0] == u[0] && u[0] != '{';
      assert '{' !in u[1..] by {
        forall i | 0 <= i < |u[1..]| ensures u[1..][i] != '{' {
          assert u[1..][i] == u[i + 1];
        }
      }
      assert s[1..] == u[1..] + v;
      assert TokenAt(s) == None;
      InterpolateLiteralPrefix(u[1..], v, data);
      calc {
        Interpolate(u + v, data);
        [u[0]] + Interpolate(u[1..] + v, data);
        [u[0]] + (u[1..] + Interpolate(v, data));
        { assert [u[0]] + u[1..] == u; }
        u + Interpolate(v, data);
      }
    } else {
      assert u + v == v;
    }
  }

  /**
   * A leading token is replaced by its substitution and scanning resumes
   * after its closing brace: the substituted text is never scanned again.
   */
  lemma InterpolateTokenPrefix(b: string, v: string, data: Data)
    requires IsTokenBody(b)
    ensures Interpolate("{" + b + "}" + v, data) == Substitution(Get(data, b)) + Interpolate(v, data)
  {
    var s := "{" + b + "}" + v;
    TokenAtMatches(s, b);
    assert s[|b| + 2..] == v;
  }

  /** An opening brace right before another one starts no token and is copied through. */
  lemma InterpolateOpenBrace(t: string, data: Data)
    requires |t| > 0 && t[0] == '{'
    ensures Interpolate("{" + t, data) == "{" + Interpolate(t, data)
  {
    var s := "{" + t;
    assert s[1..] == t;
    assert TokenAt(s) == None by {
      assert s[1..][0] == '{';
    }
  }

  /**
   * A doubled pair of braces is not a token: only the inner pair is
   * replaced and the outer braces stay in the text.
   */
  lemma InterpolateDoubleBraces(b: string, v: string, data: Data)
    requires IsTokenBody(b)
    ensures Interpolate("{{" + b + "}}" + v, data) == "{" + Substitution(Get(data, b)) + "}" + Interpolate(v, data)
  {
    var w := "}" + v;
    var inner := "{" + b + "}" + w;
    var sub := Substitution(Get(data, b));
    calc {
      Interpolate("{{" + b + "}}" + v, data);
      { assert "{{" + b + "}}" + v == "{" + inner; }
      Interpolate("{" + inner, data);
      { InterpolateOpenBrace(inner, data); }
      "{" + Interpolate(inner, data);
      { InterpolateTokenPrefix(b, w, data); }
      "{" + (sub + Interpolate(w, data));
      { InterpolateLiteralPrefix("}", v, data); }
      "{" + (sub + ("}" + Interpolate(v, data)));
      "{" + sub + "}" + Interpolate(v, data);
    }
  }

  /** A token found at the start of a text is followed by the rest of that text. */
  lemma TokenSplit(s: string, b: string)
    requires TokenAt(s) == Some(b)
    ensures s == "{" + b + "}" + s[|b| + 2..]
  {
    assert s[..|b| + 2] == "{" + b + "}";
  }

  /** The result depends on the data only through the entries its tokens name. */
  lemma {:induction false} InterpolateDependsOnTokens(s: string, d1: Data, d2: Data)
    requires forall b :: b in Tokens(s) ==> Get(d1, b) == Get(d2, b)
    ensures Interpolate(s, d1) == Interpolate(s, d2)
    decreases |s|, 1
  {
    if |s| > 0 {
      match TokenAt(s)
      case Some(b) => DependsAfterToken(s, b, d1, d2);
      case None => DependsAfterChar(s, d1, d2);
    }
  }

  /** The step of InterpolateDependsOnTokens at a token. */
  lemma {:induction false} DependsAfterToken(s: string, b: string, d1: Data, d2: Data)
    requires TokenAt(s) == Some(b)
    requires forall c :: c in Tokens(s) ==> Get(d1, c) == Get(d2, c)
    ensures Interpolate(s, d1) == Interpolate(s, d2)
    decreases |s|, 0
  {
    var rest := s[|b| + 2..];
    assert Tokens(s) == [b] + Tokens(rest);
    forall c | c in Tokens(rest) ensures Get(d1, c) == Get(d2, c) {
      assert c in Tokens(s);
    }
    InterpolateDependsOnTokens(rest, d1, d2);
    assert Get(d1, b) == Get(d2, b) by {
      assert b in Tokens(s);
    }
  }

  /** The step of InterpolateDependsOnTokens at a character that starts no token. */
  lemma {:induction false} DependsAfterChar(s: string, d1: Data, d2: Data)
    requires |s| > 0 && TokenAt(s) == None
    requires forall c :: c in Tokens(s) ==> Get(d1, c) == Get(d2, c)
    ensures Interpolate(s, d1) == Interpolate(s, d2)
    decreases |s|, 0
  {
    assert Tokens(s) == Tokens(s[1..]);
    InterpolateDependsOnTokens(s[1..], d1, d2);
  }

  /**
   * Replacement touches only what a token covers: when every token's entry
   * is the token's own text, the scan gives back the template.
   */
  lemma {:induction false} InterpolateEcho(s: string, data: Data)
    requires forall b :: b in Tokens(s) ==> Get(data, b) == Str("{" + b + "}")
    ensures Interpolate(s, data) == s
    decreases |s|, 1
  {
    if |s| > 0 {
      match TokenAt(s)
      case Some(b) => EchoAfterToken(s, b, data);
      case None => EchoAfterChar(s, data);
    }
  }

  /** The step of InterpolateEcho at a token. */
  lemma {:induction false} EchoAfterToken(s: string, b: string, data: Data)
    requires TokenAt(s) == Some(b)
    requires forall c :: c in Tokens(s) ==> Get(data, c) == Str("{" + c + "}")
    ensures Interpolate(s, data) == s
    decreases |s|, 0
  {
    var rest := s[|b| + 2..];
    assert Tokens(s) == [b] + Tokens(rest);
    forall c | c in Tokens(rest) ensures Get(data, c) == Str("{" + c + "}") {
      assert c in Tokens(s);
    }
    InterpolateEcho(rest, data);
    assert Get(data, b) == Str("{" + b + "}") by {
      assert b in Tokens(s);
    }
    TokenSplit(s, b);
    assert Interpolate(s, data) == Substitution(Get(data, b)) + Interpolate(rest, data);
  }

  /** The step of InterpolateEcho at a character that starts no token. */
  lemma {:induction false} EchoAfterChar(s: string, data: Data)
    requires |s| > 0 && TokenAt(s) == None
    requires forall c :: c in Tokens(s) ==> Get(data, c) == Str("{" + c + "}")
    ensures Interpolate(s, data) == s
    decreases |s|, 0
  {
    assert Tokens(s) == Tokens(s[1..]);
    InterpolateEcho(s[1..], data);
    assert [s[0]] + s[1..] == s;
  }

  /** A piece of a template as the scan sees it: plain text, or one placeholder. */
  datatype Piece = Text(t: string) | Placeholder(key: string)

  /** A text piece holds no opening brace; a placeholder piece holds a token body. */
  predicate PieceOk(p: Piece)
  {
    match p
    case Text(t) => '{' !in t
    case Placeholder(k) => IsTokenBody(k)
  }

  predicate WellFormed(pieces: seq<Piece>)
  {
    forall i :: 0 <= i < |pieces| ==> PieceOk(pieces[i])
  }

  /** How a piece is written in a template: a placeholder in single braces. */
  function SpellPiece(p: Piece): string
  {
    match p
    case Text(t) => t
    case Placeholder(k) => "{" + k + "}"
  }

  /** What a piece becomes: text as it is, a placeholder by its substitution. */
  function RenderPiece(p: Piece, data: Data): string
  {
    match p
    case Text(t) => t
    case Placeholder(k) => Substitution(Get(data, k))
  }

  /** The template the pieces spell. */
  function Source(pieces: seq<Piece>): string
    decreases |pieces|
  {
    if |pieces| == 0 then "" else SpellPiece(pieces[0]) + Source(pieces[1..])
  }

  /** The text wanted: the pieces rendered one by one. */
  function Render(pieces: seq<Piece>, data: Data): string
    decreases |pieces|
  {
    if |pieces| == 0 then "" else RenderPiece(pieces[0], data) + Render(pieces[1..], data)
  }

  /**
   * Interpolation renders any template built from brace-free text and
   * placeholders piece by piece: text is kept, each placeholder replaced.
   */
  lemma {:induction false} InterpolatePieces(pieces: seq<Piece>, data: Data)
    requires WellFormed(pieces)
    ensures Interpolate(Source(pieces), data) == Render(pieces, data)
    decreases |pieces|
  {
    if |pieces| == 0 {
      assert Source(pieces) == "";
    } else {
      InterpolatePieces(pieces[1..], data);
      match pieces[0]
      case Text(t) => InterpolateLiteralPrefix(t, Source(pieces[1..]), data);
      case Placeholder(k) => InterpolateTokenPrefix(k, Source(pieces[1..]), data);
    }
  }
}
