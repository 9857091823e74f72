/**
 * The client (src/client.rs): the pagination cursor and its text form, the
 * default request headers, the query pairs added to every endpoint URL, and
 * how a response is turned into a JSON value or an error.
 */
module Client {
  import opened Wrappers
  import opened Decimal
  import opened Errors
  import Json
  import Text

  /** The pause forced between two requests, in milliseconds. */
  const ReqCooldownMillis: nat := 600

  /** Where a paginated request starts returning results from. */
  datatype Cursor =
    | Page(n: u64)
    | Before(id: u64)
    | After(id: u64)

  /** `Display`: a page as its number, the others as a one-letter tag followed by the id. */
  function CursorText(c: Cursor): (s: string)
    ensures c.Page? ==> s == Dec(c.n)
    ensures c.Before? ==> s == "b" + Dec(c.id)
    ensures c.After? ==> s == "a" + Dec(c.id)
  {
    match c
    case Page(p) => Dec(p)
    case Before(p) => "b" + Dec(p)
    case After(p) => "a" + Dec(p)
  }

  /**
   * `FromStr`: a leading 'a' or 'b' selects After or Before and the rest is
   * the id; any other text, including the empty one, is a page number.
   */
  function ParseCursor(s: string): (r: Result<Cursor, IntErrorKind>)
    ensures |s| > 0 && s[0] == 'a' ==> r == (match ParseU64(s[1..]) case Ok(id) => Ok(After(id)) case Err(e) => Err(e))
    ensures |s| > 0 && s[0] == 'b' ==> r == (match ParseU64(s[1..]) case Ok(id) => Ok(Before(id)) case Err(e) => Err(e))
    ensures (|s| == 0 || (s[0] != 'a' && s[0] != 'b')) ==> r == (match ParseU64(s) case Ok(n) => Ok(Page(n)) case Err(e) => Err(e))
  {
    if |s| > 0 && s[0] == 'a' then
      match ParseU64(s[1..])
      case Ok(id) => Ok(After(id))
      case Err(e) => Err(e)
    else if |s| > 0 && s[0] == 'b' then
      match ParseU64(s[1..])
      case Ok(id) => Ok(Before(id))
      case Err(e) => Err(e)
    else
      match ParseU64(s)
      case Ok(n) => Ok(Page(n))
      case Err(e) => Err(e)
  }

  /** Round trip: the text of every cursor parses back to that cursor. */
  lemma CursorRoundTrip(c: Cursor)
    ensures ParseCursor(CursorText(c)) == Ok(c)
  {
    match c
    case Page(p) =>
      ParseDec(p, U64Max);
    case Before(p) =>
      ParseDec(p, U64Max);
      assert ("b" + Dec(p))[1..] == Dec(p);
    case After(p) =>
      ParseDec(p, U64Max);
      assert ("a" + Dec(p))[1..] == Dec(p);
  }

  /** Text with no digits after the tag is rejected: the empty text, a bare "a" and a bare "b" are all empty numbers. */
  lemma CursorParseEmpty()
    ensures ParseCursor("") == Err(Empty)
    ensures ParseCursor("a") == Err(Empty)
    ensures ParseCursor("b") == Err(Empty)
  {
    assert "a"[1..] == [];
    assert "b"[1..] == [];
  }

  /** A remainder with a character that is not a digit is rejected with InvalidDigit. */
  lemma CursorParseNonNumeric(tag: char, rest: string, i: nat)
    requires tag == 'a' || tag == 'b'
    requires i < |rest| && !IsDigit(rest[i]) && rest[i] != '+'
    ensures ParseCursor([tag] + rest).Err?
  {
    var s := [tag] + rest;
    assert s[1..] == rest;
    ParseUnsignedAccepts(rest, U64Max);
    if |rest| > 0 && rest[0] == '+' {
      assert rest[1..][i - 1] == rest[i];
    }
  }

  /**
   * Parsing is not injective: zeros after the tag are ignored, so printing a
   * parsed cursor does not give back the text that was parsed.
   */
  lemma CursorLeadingZeros(k: nat, id: u64)
    ensures ParseCursor("b" + Zeros(k) + Dec(id)) == Ok(Before(id))
    ensures ParseCursor("a" + Zeros(k) + Dec(id)) == Ok(After(id))
  {
    var d := Zeros(k) + Dec(id);
    ZerosDecParses(k, id);
    Text.Assoc("b", Zeros(k), Dec(id));
    Text.Assoc("a", Zeros(k), Dec(id));
    assert ("b" + d)[1..] == d && ("a" + d)[1..] == d;
  }

  /** An id's decimal text after any number of zeros is read as that id. */
  lemma ZerosDecParses(k: nat, id: u64)
    ensures ParseU64(Zeros(k) + Dec(id)) == Ok(id)
  {
    FoldZeros(k, Dec(id));
    FoldDec(id);
    var d := Zeros(k) + Dec(id);
    assert d[0] != '+' by {
      if k == 0 { assert d == Dec(id); } else { assert d[0] == '0'; }
    }
    ParseUnsignedAccepts(d, U64Max);
  }

  /** "b007" and "b7" are the same cursor, whose text is "b7". */
  lemma CursorNotInjective()
    ensures ParseCursor("b007") == ParseCursor("b7") == Ok(Before(7))
    ensures CursorText(Before(7)) == "b7"
  {
    CursorLeadingZeros(2, 7);
    CursorLeadingZeros(0, 7);
    assert "b" + Zeros(2) + Dec(7) == "b007";
    assert "b" + Zeros(0) + Dec(7) == "b7";
  }

  /** Request headers: name to value bytes. */
  type HeaderMap = map<string, seq<u8>>

  const UserAgent: string := "user-agent"

  /** What `HeaderValue::from_bytes` accepts: visible ASCII, any byte from 128 on, and horizontal tab. */
  predicate ValidHeaderByte(b: u8)
  {
    (b >= 32 && b != 127) || b == 9
  }

  predicate ValidHeaderValue(v: seq<u8>)
  {
    forall i :: 0 <= i < |v| ==> ValidHeaderByte(v[i])
  }

  /**
   * The default headers of a native client: an empty user agent is refused
   * before anything is built, and one with a forbidden byte is an invalid
   * header value; otherwise the only header is the user agent.
   */
  function CreateHeaderMap(ua: seq<u8>): (r: Result<HeaderMap, Error>)
    ensures ua == [] <==> r == Err(CannotCreateClient("User Agent mustn't be empty"))
    ensures r.Ok? <==> ua != [] && ValidHeaderValue(ua)
    ensures r.Ok? ==> r.value == map[UserAgent := ua]
    ensures ua != [] && !ValidHeaderValue(ua) ==> r == Err(InvalidHeaderValue("failed to parse header value"))
  {
    if ua == [] then Err(CannotCreateClient("User Agent mustn't be empty"))
    else if !ValidHeaderValue(ua) then Err(InvalidHeaderValue("failed to parse header value"))
    else Ok(map[UserAgent := ua])
  }

  /** A user agent of visible ASCII such as "rs621/unit_test" is accepted, and a lone newline is not. */
  lemma HeaderMapExamples(ua: seq<u8>)
    requires |ua| > 0 && forall i :: 0 <= i < |ua| ==> 33 <= ua[i] <= 126
    ensures CreateHeaderMap(ua) == Ok(map[UserAgent := ua])
    ensures CreateHeaderMap([10]).Err?
  {
    assert !ValidHeaderByte([10][0]);
  }

  /** A URL as far as the client touches it: everything before the query, and the query pairs in order. */
  datatype Url = Url(location: string, query: seq<(string, string)>)

  /** The credentials sent with every request of a logged-in client. */
  function LoginPairs(login: Option<(string, string)>): (r: seq<(string, string)>)
    ensures login.None? ==> r == []
    ensures login.Some? ==> r == [("login", login.value.0), ("api_key", login.value.1)]
  {
    match login
    case None => []
    case Some((name, key)) => [("login", name), ("api_key", key)]
  }

  class Client {
    var base: Url
    var headers: HeaderMap
    var extraQuery: seq<(string, string)>
    var login: Option<(string, string)>

    /**
     * `Client::new` on an already parsed base URL: the headers come from the
     * user agent, a native client adds no extra query pairs, and nobody is
     * logged in.
     */
    constructor (base: Url, headers: HeaderMap)
      ensures this.base == base && this.headers == headers
      ensures extraQuery == [] && login.None?
    {
      this.base := base;
      this.headers := headers;
      extraQuery := [];
      login := None;
    }

    /** Later requests carry these credentials, replacing any earlier ones. */
    method Login(username: string, apiKey: string)
      modifies this
      ensures login == Some((username, apiKey))
      ensures base == old(base) && headers == old(headers) && extraQuery == old(extraQuery)
    {
      login := Some((username, apiKey));
    }

    /** Later requests carry no credentials. */
    method Logout()
      modifies this
      ensures login.None?
      ensures base == old(base) && headers == old(headers) && extraQuery == old(extraQuery)
    {
      login := None;
    }

    /**
     * `Client::url`: the endpoint joined onto the base (the outcome of
     * `Url::join` is given), then the credentials, then every extra pair in
     * order, each appended after the pairs already there.
     */
    method EndpointUrl(joined: Result<Url, string>) returns (r: Result<Url, string>)
      ensures joined.Err? ==> r == joined
      ensures joined.Ok? ==> r.Ok? && r.value.location == joined.value.location
      ensures joined.Ok? ==> r.value.query == joined.value.query + LoginPairs(login) + extraQuery
    {
      if joined.Err? {
        return joined;
      }
      var url := joined.value;
      if login.Some? {
        url := url.(query := url.query + [("login", login.value.0)]);
        url := url.(query := url.query + [("api_key", login.value.1)]);
      }
      var i := 0;
      while i < |extraQuery|
        invariant 0 <= i <= |extraQuery|
        invariant url.location == joined.value.location
        invariant url.query == joined.value.query + LoginPairs(login) + extraQuery[..i]
      {
        url := url.(query := url.query + [extraQuery[i]]);
        i := i + 1;
      }
      assert extraQuery[..i] == extraQuery;
      return Ok(url);
    }
  }

  /** A received response: its status code and its body decoded as JSON (or why it could not be). */
  datatype Response = Response(status: u16, body: Result<Json.Value, string>)

  /** `StatusCode::is_success`. */
  predicate IsSuccess(status: u16)
  {
    200 <= status <= 299
  }

  /** The "reason" string of an error body, if the body decodes and has one. */
  function BodyReason(body: Result<Json.Value, string>): (r: Option<string>)
    ensures r.Some? <==> body.Ok? && Json.Index(body.value, "reason").String?
    ensures r.Some? ==> r.value == Json.Index(body.value, "reason").s
  {
    match body
    case Ok(v) => Json.AsStr(Json.Index(v, "reason"))
    case Err(_) => None
  }

  /**
   * `get_json_endpoint` after the request has been sent: a transport failure
   * is CannotSendRequest, a success status yields the decoded body or a
   * Serial error, and any other status is an HTTP error with the body's
   * reason.
   */
  function JsonResponse(sent: Result<Response, string>): (r: Result<Json.Value, Error>)
    ensures sent.Err? ==> r == Err(CannotSendRequest(sent.error))
    ensures sent.Ok? && IsSuccess(sent.value.status) ==>
              (r.Ok? <==> sent.value.body.Ok?) &&
              (r.Ok? ==> r.value == sent.value.body.value) &&
              (r.Err? ==> r.error == Serial(sent.value.body.error))
    ensures sent.Ok? && !IsSuccess(sent.value.status) ==>
              r == Err(Http(sent.value.status, BodyReason(sent.value.body)))
  {
    match sent
    case Err(desc) => Err(CannotSendRequest(desc))
    case Ok(res) =>
      if IsSuccess(res.status) then
        match res.body
        case Ok(v) => Ok(v)
        case Err(desc) => Err(Serial(desc))
      else Err(Http(res.status, BodyReason(res.body)))
  }

  /** A value comes back only for a success status: the result is an HTTP error exactly when the status is not a success. */
  lemma JsonResponseHttpIff(sent: Result<Response, string>)
    requires sent.Ok?
    ensures JsonResponse(sent).Err? && JsonResponse(sent).error.Http? <==> !IsSuccess(sent.value.status)
    ensures JsonResponse(sent).Ok? <==> IsSuccess(sent.value.status) && sent.value.body.Ok?
  {
  }

  /**
   * An error body such as {"success":false,"reason":"foo"} with status 500
   * becomes `Http{code: 500, reason: Some("foo")}`, which displays the
   * server's reason after the code.
   */
  lemma ServerReasonShown(code: u16, fields: map<string, Json.Value>, reason: string)
    requires !IsSuccess(code)
    requires "reason" in fields && fields["reason"] == Json.String(reason)
    ensures JsonResponse(Ok(Response(code, Ok(Json.Object(fields))))) == Err(Http(code, Some(reason)))
    ensures Message(Http(code, Some(reason))) == "HTTP error " + Dec(code) + ": " + reason
  {
  }

  /** A body that is not an object with a string "reason" falls back to the generic explanation of the code. */
  lemma GenericReasonShown(code: u16, body: Result<Json.Value, string>)
    requires !IsSuccess(code)
    requires body.Err? || !Json.Index(body.value, "reason").String?
    ensures JsonResponse(Ok(Response(code, body))) == Err(Http(code, None))
    ensures Message(Http(code, None)) == "HTTP error " + Dec(code) + GenericReason(code)
  {
  }
}
