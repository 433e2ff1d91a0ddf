/** The Express middleware of `server.js`: the CORS headers set on every
    response and the bearer-token guard in front of the protected routes. */
module Middleware {
  import opened Wrappers
  import opened Strings

  const AllowedOrigins: seq<string> := ["https://locals-v1.onrender.com"]

  const AllowOrigin: string := "Access-Control-Allow-Origin"
  const AllowMethods: string := "Access-Control-Allow-Methods"
  const AllowHeaders: string := "Access-Control-Allow-Headers"

  type Headers = map<string, string>

  /** The CORS middleware's `res.setHeader` calls on the response headers
      `res`, for a request whose `Origin` header is `origin`. */
  function Cors(res: Headers, origin: Option<string>): (out: Headers)
    ensures origin.Some? && origin.value in AllowedOrigins ==> AllowOrigin in out && out[AllowOrigin] == origin.value
    ensures !(origin.Some? && origin.value in AllowedOrigins) ==>
      (AllowOrigin in out <==> AllowOrigin in res) &&
      (AllowOrigin in res ==> out[AllowOrigin] == res[AllowOrigin])
    ensures AllowMethods in out && out[AllowMethods] == "GET, POST, PUT, DELETE"
    ensures AllowHeaders in out && out[AllowHeaders] == "Content-Type, Authorization"
    ensures forall h :: h in res && h != AllowOrigin && h != AllowMethods && h != AllowHeaders ==> h in out && out[h] == res[h]
    ensures forall h :: h in out ==> h in res || h == AllowOrigin || h == AllowMethods || h == AllowHeaders
  {
    var withOrigin := if origin.Some? && origin.value in AllowedOrigins then res[AllowOrigin := origin.value] else res;
    withOrigin[AllowMethods := "GET, POST, PUT, DELETE"][AllowHeaders := "Content-Type, Authorization"]
  }

  /** On a fresh response the only origin ever granted is the deployed client's. */
  lemma OnlyClientOriginGranted(origin: Option<string>)
    ensures AllowOrigin in Cors(map[], origin) ==> Cors(map[], origin)[AllowOrigin] == "https://locals-v1.onrender.com"
    ensures AllowOrigin in Cors(map[], origin) <==> origin == Some("https://locals-v1.onrender.com")
  {
  }

  /** `authHeader && authHeader.split(" ")[1]`, with a falsy result as `None`:
      no header, an empty header, no second field or an empty second field. */
  function ExtractToken(authorization: Option<string>): (token: Option<string>)
    ensures token.Some? ==> token.value != "" && ' ' !in token.value
  {
    if authorization.None? || authorization.value == "" then None
    else
      var fields := Split(authorization.value, ' ');
      if |fields| >= 2 && fields[1] != "" then Some(fields[1]) else None
  }

  /** A header `<scheme> <token>`, possibly followed by further space-led
      text, yields the token (the scheme is not checked). With
      `ExtractedIsSecondField` this says: a token is extracted exactly when
      the header has a non-empty second field, and it is that field. */
  lemma BearerRoundTrip(header: string, scheme: string, token: string, rest: string)
    requires HeaderShape(header, scheme, token, rest) && ' ' !in token && token != ""
    ensures ExtractToken(Some(header)) == Some(token)
  {
    if rest == "" {
      SplitField(token, ' ');
      assert header == scheme + [' '] + token;
      SplitAfterField(scheme, ' ', token);
    } else {
      var more := rest[1..];
      assert rest == [' '] + more;
      assert header == scheme + [' '] + (token + [' '] + more);
      SplitAfterField(scheme, ' ', token + [' '] + more);
      SplitAfterField(token, ' ', more);
      assert Split(header, ' ')[1] == token;
    }
  }

  /** `header` is `scheme`, a space, `token`, then nothing or a further space-led part. */
  predicate HeaderShape(header: string, scheme: string, token: string, rest: string)
  {
    ' ' !in scheme && (rest == "" || rest[0] == ' ') && header == scheme + " " + token + rest
  }

  /** An extracted token is the text between the header's first space and
      the next space or the end of the header. */
  lemma ExtractedIsSecondField(header: string, token: string)
    requires ExtractToken(Some(header)) == Some(token)
    ensures exists scheme, rest :: HeaderShape(header, scheme, token, rest)
  {
    var fields := Split(header, ' ');
    JoinSplit(header, ' ');
    assert fields[1] == token;
    var rest := if |fields| == 2 then "" else [' '] + Join(fields[2..], ' ');
    if |fields| > 2 {
      assert fields[1..][1..] == fields[2..];
    }
    assert Join(fields[1..], ' ') == token + rest;
    assert header == fields[0] + " " + token + rest;
    assert HeaderShape(header, fields[0], token, rest);
  }

  /** What `authenticateToken` decides: 401 without a token, 403 when
      `jwt.verify` (the parameter `verify`, giving the `id` claim) rejects it,
      and otherwise the next handler runs for that user. */
  datatype Auth = Unauthorized | Forbidden | Authenticated(userId: string)

  function AuthenticateToken(authorization: Option<string>, verify: string -> Option<string>): (a: Auth)
    ensures a.Unauthorized? <==> ExtractToken(authorization).None?
    ensures a.Authenticated? ==> verify(ExtractToken(authorization).value) == Some(a.userId)
    ensures a.Forbidden? ==> verify(ExtractToken(authorization).value).None?
  {
    match ExtractToken(authorization)
    case None => Unauthorized
    case Some(token) =>
      match verify(token)
      case None => Forbidden
      case Some(id) => Authenticated(id)
  }
}
