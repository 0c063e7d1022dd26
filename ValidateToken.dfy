/** The request guard `src/middlewares/validateToken.js`: the second word of
    the `Authorization` header must equal the stored access token. */
module ValidateToken {
  import opened Js
  import opened Text

  /** How the guard ends a request. */
  datatype Decision = Unauthorized401 | Forbidden403 | ServerError500 | Next

  /** `authHeader && authHeader.split(' ')[1]` when truthy: the second
      space-separated word, if there is one and it is not empty. */
  function ClientToken(header: Option<string>): (r: Option<string>)
    ensures r.Some? <==>
      header.Some? && |Split(header.value, ' ')| >= 2 && Split(header.value, ' ')[1] != ""
    ensures r.Some? ==> r.value != "" && ' ' !in r.value && r.value == Split(header.value, ' ')[1]
  {
    if header.None? || header.value == "" then None
    else
      var words := Split(header.value, ' ');
      if |words| < 2 || words[1] == "" then None else Some(words[1])
  }

  /** The token of a `<scheme> <token>` header is the token. */
  lemma BearerHeader(scheme: string, token: string)
    requires ' ' !in scheme && ' ' !in token && token != ""
    ensures ClientToken(Some(scheme + " " + token)) == Some(token)
  {
    SplitAfterPiece(scheme, ' ', token);
    SplitNoSeparator(token, ' ');
    assert scheme + " " + token == scheme + [' '] + token;
  }

  /** A header of one word carries no token. */
  lemma OneWordHeader(header: string)
    requires ' ' !in header
    ensures ClientToken(Some(header)).None?
  {
    SplitNoSeparator(header, ' ');
  }

  /** The guard given what reading the stored tokens yields: its error, or
      the stored record. Destructuring `access_token` out of a nullish
      record throws, which the `catch` turns into a 500. */
  function Decide(header: Option<string>, stored: Result<JsValue>): (d: Decision)
    ensures ClientToken(header).None? <==> d == Unauthorized401
    ensures d == ServerError500 <==> ClientToken(header).Some? && (stored.Err? || IsNullish(stored.value))
    ensures d == Next <==>
      ClientToken(header).Some? && stored.Ok? && Get(stored.value, "access_token") == Str(ClientToken(header).value)
  {
    var token := ClientToken(header);
    if token.None? then Unauthorized401
    else if stored.Err? || IsNullish(stored.value) then ServerError500
    else if Str(token.value) != Get(stored.value, "access_token") then Forbidden403
    else Next
  }

  /** The guard as written: `readTokens` is asynchronous and is not awaited,
      so `access_token` is read from a pending promise, an object without
      that property. */
  function DecideAsWritten(header: Option<string>): (d: Decision)
    ensures d == Unauthorized401 || d == Forbidden403
  {
    Decide(header, Ok(Obj(map[])))
  }

  /** As written, no request gets through: a request with a token is
      refused as invalid whatever token is stored. */
  lemma AsWrittenNeverPasses(header: Option<string>)
    ensures DecideAsWritten(header) != Next
    ensures ClientToken(header).Some? ==> DecideAsWritten(header) == Forbidden403
  {
  }

  /** The guard with the stored tokens awaited: `Bearer <access token>`
      passes, any other token is refused. */
  lemma AwaitedBearerPasses(access: string, other: string, record: map<string, JsValue>)
    requires ' ' !in access && access != "" && ' ' !in other && other != "" && other != access
    requires "access_token" in record && record["access_token"] == Str(access)
    ensures Decide(Some("Bearer " + access), Ok(Obj(record))) == Next
    ensures Decide(Some("Bearer " + other), Ok(Obj(record))) == Forbidden403
    ensures DecideAsWritten(Some("Bearer " + access)) == Forbidden403
  {
    assert ' ' !in "Bearer";
    assert "Bearer " + access == "Bearer" + " " + access;
    assert "Bearer " + other == "Bearer" + " " + other;
    BearerHeader("Bearer", access);
    BearerHeader("Bearer", other);
    assert Get(Obj(record), "access_token") == Str(access);
  }
}
