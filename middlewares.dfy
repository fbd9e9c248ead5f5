/**
 * The authorization middleware: the guard chain over the `authorization`
 * header (present, at least two whitespace-separated fields, a scheme equal
 * to "bearer" ignoring case, a token the verifier accepts) and what it does
 * to the request context at each exit.
 */
module Middleware {
  import opened Wrappers
  import Token

  const AuthorizationHeaderKey := "authorization"
  const AuthorizationTypeBearer := "bearer"
  const AuthorizationPayloadKey := "authorization_payload"

  /** HTTP 401 Unauthorized. */
  const StatusUnauthorized := 401

  // ---------------------------------------------------------------------------
  // strings.Fields and strings.ToLower
  // ---------------------------------------------------------------------------

  /** Go's `unicode.IsSpace`: the Latin-1 spaces and the other Unicode White_Space characters. */
  predicate IsSpace(c: char)
  {
    var x := c as int;
    || x == 0x20 || 0x09 <= x <= 0x0D || x == 0x85 || x == 0xA0
    || x == 0x1680 || 0x2000 <= x <= 0x200A || x == 0x2028 || x == 0x2029
    || x == 0x202F || x == 0x205F || x == 0x3000
  }

  predicate NoSpace(s: string)
  {
    forall i :: 0 <= i < |s| ==> !IsSpace(s[i])
  }

  /** `s` without its leading white space. */
  function TrimLeft(s: string): (r: string)
    ensures |r| <= |s| && r == s[|s| - |r|..]
    ensures r != [] ==> !IsSpace(r[0])
  {
    if s != [] && IsSpace(s[0]) then TrimLeft(s[1..]) else s
  }

  /** The longest prefix of `s` without white space. */
  function Word(s: string): (w: string)
    ensures |w| <= |s| && w == s[..|w|]
    ensures NoSpace(w)
    ensures |w| < |s| ==> IsSpace(s[|w|])
    ensures s != [] && !IsSpace(s[0]) ==> w != []
  {
    if s != [] && !IsSpace(s[0]) then [s[0]] + Word(s[1..]) else []
  }

  /** Every element is a non-empty run of non-space characters, as `Fields` returns them. */
  predicate AllWords(words: seq<string>)
  {
    words != [] ==> words[0] != [] && NoSpace(words[0]) && AllWords(words[1..])
  }

  /** Go's `strings.Fields`: the maximal runs of non-space characters, in order. */
  function Fields(s: string): (fields: seq<string>)
    ensures AllWords(fields)
    decreases |s|
  {
    var t := TrimLeft(s);
    if t == [] then []
    else
      var w := Word(t);
      var rest := t[|w|..];
      assert |rest| < |s|;
      var fields := [w] + Fields(rest);
      assert fields[1..] == Fields(rest);
      fields
  }

  /** Fields joined by single spaces. */
  function Join(fields: seq<string>): string
  {
    if fields == [] then ""
    else if |fields| == 1 then fields[0]
    else fields[0] + " " + Join(fields[1..])
  }

  lemma WordOf(w: string, rest: string)
    requires NoSpace(w)
    requires rest == [] || IsSpace(rest[0])
    ensures Word(w + rest) == w
  {
    if w != [] {
      assert (w + rest)[1..] == w[1..] + rest;
      WordOf(w[1..], rest);
    } else {
      assert w + rest == rest;
    }
  }

  lemma {:induction false} TrimLeftOf(s: string)
    requires s != [] ==> !IsSpace(s[0])
    ensures TrimLeft(s) == s
  {
  }

  predicate AllSpace(s: string)
  {
    forall i :: 0 <= i < |s| ==> IsSpace(s[i])
  }

  /** Leading white space, of any characters and length, is what `TrimLeft` removes. */
  lemma {:induction false} TrimLeftSkips(sp: string, s: string)
    requires AllSpace(sp)
    ensures TrimLeft(sp + s) == TrimLeft(s)
  {
    if sp == [] {
      assert sp + s == s;
    } else {
      assert (sp + s)[0] == sp[0];
      assert (sp + s)[1..] == sp[1..] + s;
      TrimLeftSkips(sp[1..], s);
    }
  }

  /** `Fields` looks at its input only past the leading white space. */
  lemma FieldsAfterTrim(a: string, b: string)
    requires TrimLeft(a) == TrimLeft(b)
    ensures Fields(a) == Fields(b)
  {
  }

  /** A leading white-space character is skipped: it neither starts nor ends a field. */
  lemma FieldsSkipsSpace(c: char, s: string)
    requires IsSpace(c)
    ensures Fields([c] + s) == Fields(s)
  {
    TrimLeftSkips([c], s);
    FieldsAfterTrim([c] + s, s);
  }

  /** Any run of leading white space is skipped, whatever its characters and length. */
  lemma FieldsSkipsSpaces(sp: string, s: string)
    requires AllSpace(sp)
    ensures Fields(sp + s) == Fields(s)
  {
    TrimLeftSkips(sp, s);
    FieldsAfterTrim(sp + s, s);
  }

  /** Text made only of white space (the empty text included) has no fields. */
  lemma FieldsOfSpace(sp: string)
    requires AllSpace(sp)
    ensures Fields(sp) == []
  {
    FieldsSkipsSpaces(sp, []);
    assert sp + [] == sp;
  }

  /**
   * A word that runs up to the end of the text or to a white-space
   * character is the first field, and the rest of the text is split on its own.
   */
  lemma FieldsOfWordThen(w: string, rest: string)
    requires w != [] && NoSpace(w)
    requires rest == [] || IsSpace(rest[0])
    ensures Fields(w + rest) == [w] + Fields(rest)
  {
    var s := w + rest;
    assert s[0] == w[0];
    TrimLeftOf(s);
    WordOf(w, rest);
    assert s[|w|..] == rest;
  }

  /** A word, a run of white space and more text: the word is the first field. */
  lemma FieldsOfWordSpaces(w: string, sep: string, rest: string)
    requires w != [] && NoSpace(w) && sep != [] && AllSpace(sep)
    ensures Fields(w + sep + rest) == [w] + Fields(rest)
  {
    var after := sep + rest;
    assert w + sep + rest == w + after;
    assert after[0] == sep[0];
    FieldsOfWordThen(w, after);
    FieldsSkipsSpaces(sep, rest);
  }

  /** A word, one white-space character and more text: the word is the first field. */
  lemma FieldsOfSpaced(w: string, c: char, rest: string)
    requires w != [] && NoSpace(w) && IsSpace(c)
    ensures Fields(w + [c] + rest) == [w] + Fields(rest)
  {
    assert w + [c] + rest == w + ([c] + rest);
    FieldsOfWordThen(w, [c] + rest);
    FieldsSkipsSpace(c, rest);
  }

  /**
   * Splitting a space-joined list of non-empty, space-free words gives the
   * words back: the header "Bearer <token>" splits into the scheme and the token.
   */
  lemma {:induction false} FieldsOfJoin(fields: seq<string>)
    requires AllWords(fields)
    ensures Fields(Join(fields)) == fields
  {
    if fields == [] {
      assert Join(fields) == "";
    } else if |fields| == 1 {
      FieldsOfWordThen(fields[0], []);
      assert fields[0] + [] == fields[0];
      FieldsOfSpace([]);
    } else {
      var first, rest := fields[0], fields[1..];
      assert fields == [first] + rest;
      var joined := Join(rest);
      assert Join(fields) == first + [' '] + joined;
      FieldsOfSpaced(first, ' ', joined);
      FieldsOfJoin(rest);
      calc {
        Fields(Join(fields));
        Fields(first + [' '] + joined);
        [first] + Fields(joined);
        [first] + rest;
        fields;
      }
    }
  }

  /** Lower-cases the ASCII letters A to Z. */
  function LowerChar(c: char): (l: char)
  {
    if 'A' <= c <= 'Z' then (c as int + 32) as char else c
  }

  /** Go's `strings.ToLower`, restricted to ASCII case mapping. */
  function ToLower(s: string): (r: string)
    ensures |r| == |s|
    ensures forall i :: 0 <= i < |s| ==> r[i] == LowerChar(s[i])
  {
    seq(|s|, i requires 0 <= i < |s| => LowerChar(s[i]))
  }

  /** "Bearer", "BEARER", "bEaReR", ... are exactly the schemes that lower-case to "bearer". */
  lemma BearerSchemes(scheme: string)
    ensures ToLower(scheme) == AuthorizationTypeBearer <==>
      |scheme| == 6 && forall i :: 0 <= i < 6 ==> scheme[i] == "bearer"[i] || scheme[i] == "BEARER"[i]
  {
    if |scheme| == 6 && forall i :: 0 <= i < 6 ==> scheme[i] == "bearer"[i] || scheme[i] == "BEARER"[i] {
      assert forall i :: 0 <= i < 6 ==> ToLower(scheme)[i] == "bearer"[i];
    }
    if ToLower(scheme) == AuthorizationTypeBearer {
      forall i | 0 <= i < 6
        ensures scheme[i] == "bearer"[i] || scheme[i] == "BEARER"[i]
      {
        assert LowerChar(scheme[i]) == "bearer"[i];
      }
    }
  }

  // ---------------------------------------------------------------------------
  // The middleware
  // ---------------------------------------------------------------------------

  /** The request context as the middleware sees it. */
  datatype Context = Context(
    values: map<string, Token.Payload>,   // ctx.Set / ctx.Get
    aborted: Option<(int, string)>,        // status and message of AbortWithStatusJSON
    nextRuns: nat)                         // how often the next handler ran

  function Abort(ctx: Context, message: string): Context
  {
    ctx.(aborted := Some((StatusUnauthorized, message)))
  }

  /**
   * `authMiddleware(tokenMaker)` on a request whose `authorization` header is
   * `header` (empty when absent); `verify` is the token maker's `VerifyToken`.
   */
  function AuthMiddleware(ctx: Context, header: string, verify: string -> Result<Token.Payload, string>): (r: Context)
    ensures r.nextRuns == ctx.nextRuns + 1 || r.nextRuns == ctx.nextRuns
    ensures r.nextRuns == ctx.nextRuns + 1 ==>
      && r.aborted == ctx.aborted
      && AuthorizationPayloadKey in r.values
      && r.values == ctx.values[AuthorizationPayloadKey := r.values[AuthorizationPayloadKey]]
    ensures r.nextRuns == ctx.nextRuns ==>
      r.values == ctx.values && r.aborted.Some? && r.aborted.value.0 == StatusUnauthorized
  {
    if |header| == 0 then
      Abort(ctx, "authorization header is not provided")
    else
      Guards(ctx, Fields(header), verify)
  }

  /** The guards that follow the split of a non-empty header into `fields`. */
  function Guards(ctx: Context, fields: seq<string>, verify: string -> Result<Token.Payload, string>): (r: Context)
    ensures r.nextRuns == ctx.nextRuns + 1 || r.nextRuns == ctx.nextRuns
    ensures r.nextRuns == ctx.nextRuns + 1 ==>
      && r.aborted == ctx.aborted
      && AuthorizationPayloadKey in r.values
      && r.values == ctx.values[AuthorizationPayloadKey := r.values[AuthorizationPayloadKey]]
    ensures r.nextRuns == ctx.nextRuns ==>
      r.values == ctx.values && r.aborted.Some? && r.aborted.value.0 == StatusUnauthorized
  {
    if |fields| < 2 then
      Abort(ctx, "invalid authorization header")
    else
      var authorizationType := ToLower(fields[0]);
      if authorizationType != AuthorizationTypeBearer then
        Abort(ctx, "unsupported authorization type " + authorizationType)
      else
        var accessToken := fields[1];
        match verify(accessToken)
        case Failure(err) => Abort(ctx, err)
        case Success(payload) =>
          ctx.(values := ctx.values[AuthorizationPayloadKey := payload], nextRuns := ctx.nextRuns + 1)
  }

  /** Past the header check: the request passes exactly when the scheme is bearer and the verifier accepts the token. */
  lemma GuardsPass(ctx: Context, fields: seq<string>, verify: string -> Result<Token.Payload, string>)
    requires ctx.aborted.None?
    ensures var r := Guards(ctx, fields, verify);
      && (r.aborted.None? <==>
           |fields| >= 2 && ToLower(fields[0]) == AuthorizationTypeBearer && verify(fields[1]).Success?)
      && (r.aborted.None? ==>
           r.values == ctx.values[AuthorizationPayloadKey := verify(fields[1]).value] && r.nextRuns == ctx.nextRuns + 1)
  {
  }

  /** The request passes exactly when the header has a bearer scheme and a token the verifier accepts. */
  lemma Passes(ctx: Context, header: string, verify: string -> Result<Token.Payload, string>)
    requires ctx.aborted.None?
    ensures var r := AuthMiddleware(ctx, header, verify);
      var fields := Fields(header);
      && (r.aborted.None? <==>
           |fields| >= 2 && ToLower(fields[0]) == AuthorizationTypeBearer && verify(fields[1]).Success?)
      && (r.aborted.None? ==>
           r.values == ctx.values[AuthorizationPayloadKey := verify(fields[1]).value] && r.nextRuns == ctx.nextRuns + 1)
  {
    if |header| == 0 {
      FieldsOfSpace(header);
    } else {
      GuardsPass(ctx, Fields(header), verify);
    }
  }

  /** Past the header check: each guard's own rejection message, in guard order. */
  lemma GuardsReject(ctx: Context, fields: seq<string>, verify: string -> Result<Token.Payload, string>)
    ensures var r := Guards(ctx, fields, verify);
      && (|fields| < 2 ==> r.aborted == Some((StatusUnauthorized, "invalid authorization header")))
      && (|fields| >= 2 && ToLower(fields[0]) != AuthorizationTypeBearer ==>
            r.aborted == Some((StatusUnauthorized, "unsupported authorization type " + ToLower(fields[0]))))
      && (|fields| >= 2 && ToLower(fields[0]) == AuthorizationTypeBearer && verify(fields[1]).Failure? ==>
            r.aborted == Some((StatusUnauthorized, verify(fields[1]).error)))
  {
  }

  /** Each guard's own rejection message, in guard order. */
  lemma RejectionMessages(ctx: Context, header: string, verify: string -> Result<Token.Payload, string>)
    ensures var r := AuthMiddleware(ctx, header, verify);
      var fields := Fields(header);
      && (header == "" ==> r.aborted == Some((StatusUnauthorized, "authorization header is not provided")))
      && (header != "" && |fields| < 2 ==> r.aborted == Some((StatusUnauthorized, "invalid authorization header")))
      && (|fields| >= 2 && ToLower(fields[0]) != AuthorizationTypeBearer ==>
            r.aborted == Some((StatusUnauthorized, "unsupported authorization type " + ToLower(fields[0]))))
      && (|fields| >= 2 && ToLower(fields[0]) == AuthorizationTypeBearer && verify(fields[1]).Failure? ==>
            r.aborted == Some((StatusUnauthorized, verify(fields[1]).error)))
  {
    if |header| == 0 {
      FieldsOfSpace(header);
    } else {
      GuardsReject(ctx, Fields(header), verify);
    }
  }

  /**
   * A header made of optional leading white space, the scheme, a non-empty
   * run of white space, the token and a tail that is empty or starts with
   * white space splits into the scheme, the token and the tail's own fields.
   */
  lemma FieldsOfHeader(lead: string, scheme: string, sep: string, token: string, tail: string)
    requires AllSpace(lead) && AllSpace(sep) && sep != []
    requires scheme != [] && NoSpace(scheme) && token != [] && NoSpace(token)
    requires tail == [] || IsSpace(tail[0])
    ensures lead + scheme + sep + token + tail != []
    ensures Fields(lead + scheme + sep + token + tail) == [scheme, token] + Fields(tail)
  {
    var last := token + tail;
    var body := scheme + sep + last;
    assert lead + scheme + sep + token + tail == lead + body by {
      assert lead + scheme + sep + token + tail == lead + scheme + sep + last;
    }
    assert |lead + body| >= |scheme| > 0;
    FieldsSkipsSpaces(lead, body);
    FieldsOfSchemeToken(scheme, sep, token, tail);
  }

  lemma FieldsOfSchemeToken(scheme: string, sep: string, token: string, tail: string)
    requires AllSpace(sep) && sep != []
    requires scheme != [] && NoSpace(scheme) && token != [] && NoSpace(token)
    requires tail == [] || IsSpace(tail[0])
    ensures Fields(scheme + sep + (token + tail)) == [scheme, token] + Fields(tail)
  {
    FieldsOfWordSpaces(scheme, sep, token + tail);
    FieldsOfWordThen(token, tail);
    ConsTwo(scheme, token, Fields(tail));
  }

  lemma ConsTwo<T>(a: T, b: T, rest: seq<T>)
    ensures [a] + ([b] + rest) == [a, b] + rest
  {
  }

  /**
   * For a header "<scheme> <token> <more>..." with any white space around
   * and between the parts, the verifier sees exactly `token` and the extra
   * fields play no part: a bearer scheme in any case yields the verifier's
   * verdict on `token`.
   */
  lemma TokenIsSecondField(ctx: Context, lead: string, scheme: string, sep: string, token: string, tail: string,
                           verify: string -> Result<Token.Payload, string>)
    requires AllSpace(lead) && AllSpace(sep) && sep != []
    requires scheme != [] && NoSpace(scheme) && token != [] && NoSpace(token)
    requires tail == [] || IsSpace(tail[0])
    requires ToLower(scheme) == AuthorizationTypeBearer
    ensures var r := AuthMiddleware(ctx, lead + scheme + sep + token + tail, verify);
      match verify(token)
      case Success(payload) =>
        r == ctx.(values := ctx.values[AuthorizationPayloadKey := payload], nextRuns := ctx.nextRuns + 1)
      case Failure(err) => r == ctx.(aborted := Some((StatusUnauthorized, err)))
  {
    FieldsOfHeader(lead, scheme, sep, token, tail);
    BearerVerdict(ctx, lead + scheme + sep + token + tail, verify);
  }

  /** Past the header and scheme guards, the outcome is the verifier's verdict on the second field. */
  lemma BearerVerdict(ctx: Context, header: string, verify: string -> Result<Token.Payload, string>)
    requires header != [] && |Fields(header)| >= 2 && ToLower(Fields(header)[0]) == AuthorizationTypeBearer
    ensures var r := AuthMiddleware(ctx, header, verify);
      match verify(Fields(header)[1])
      case Success(payload) =>
        r == ctx.(values := ctx.values[AuthorizationPayloadKey := payload], nextRuns := ctx.nextRuns + 1)
      case Failure(err) => r == ctx.(aborted := Some((StatusUnauthorized, err)))
  {
    var fields := Fields(header);
    assert AuthMiddleware(ctx, header, verify) == Guards(ctx, fields, verify);
  }
}
