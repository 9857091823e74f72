/** The client's error type (src/error.rs) and the text its `Display` writes. */
module Errors {
  import opened Wrappers
  import opened Decimal

  datatype Error =
    | AboveLimit(option: string, val: u64, max: u64)
    | Http(code: u16, reason: Option<string>)
    | Serial(desc: string)
    | Deserialization(desc: string)
    | CannotSendRequest(desc: string)
    | CannotCreateClient(desc: string)
    | InvalidHeaderValue(desc: string)

  /** The generic explanation of a status code, for the codes that have one; empty for every other code. */
  function Explanation(code: u16): string
  {
    match code
    case 200 => "OK: Request was successful"
    case 403 => "Forbidden: Access denied. May indicate that your request lacks a User-Agent header."
    case 404 => "Not Found"
    case 412 => "Precondition failed"
    case 420 => "Invalid Record: Record could not be saved"
    case 421 => "User Throttled: User is throttled, try again later"
    case 422 => "Locked: The resource is locked and cannot be modified"
    case 423 => "Already Exists: Resource already exists"
    case 424 => "Invalid Parameters: The given parameters were invalid"
    case 500 => "Internal Server Error: Some unknown error occurred on the server"
    case 502 => "Bad Gateway: A gateway server received an invalid response from the e621 servers"
    case 503 => "Service Unavailable: Server cannot currently handle the request or you have exceeded the request rate limit. Try again later or decrease your rate of requests."
    case 520 => "Unknown Error: Unexpected server response which violates protocol"
    case 522 => "Origin Connection Time-out: CloudFlare's attempt to connect to the e621 servers timed out"
    case 524 => "Origin Connection Time-out: A connection was established between CloudFlare and the e621 servers, but it timed out before an HTTP response was received"
    case 525 => "SSL Handshake Failed: The SSL handshake between CloudFlare and the e621 servers failed"
    case _ => ""
  }

  /**
   * What a reasonless HTTP error shows after its code: a space and the
   * generic explanation, or nothing for a code without one.
   */
  function GenericReason(code: u16): (t: string)
    ensures t == [] <==> Explanation(code) == []
    ensures t != [] ==> t[0] == ' ' && t[1..] == Explanation(code)
  {
    var e := Explanation(code);
    if e == [] then "" else " " + e
  }

  /** What follows the status code: the server's reason after ": ", or the generic explanation. */
  function ReasonSuffix(code: u16, reason: Option<string>): (t: string)
    ensures reason.Some? ==> |t| >= 2 && t[..2] == ": " && t[2..] == reason.value
    ensures reason.None? ==> t == GenericReason(code)
    ensures t == [] || t[0] == ':' || t[0] == ' '
  {
    match reason
    case Some(r) => ": " + r
    case None => GenericReason(code)
  }

  /** The `Display` text of every error. */
  function Message(e: Error): (s: string)
    ensures e.AboveLimit? ==>
      s == e.option + ":" + Dec(e.val) + " is above the maximum value allowed in this context (" + Dec(e.max) + ")"
    ensures e.Http? ==> s == "HTTP error " + Dec(e.code) + ReasonSuffix(e.code, e.reason)
    ensures e.InvalidHeaderValue? ==> s == "Invalid header value"
  {
    match e
    case AboveLimit(option, val, max) =>
      option + ":" + Dec(val) + " is above the maximum value allowed in this context (" + Dec(max) + ")"
    case Http(code, reason) =>
      "HTTP error " + Dec(code) + ReasonSuffix(code, reason)
    case Serial(desc) => "Serialization error: " + desc
    case Deserialization(desc) => "Deserialization error: " + desc
    case CannotSendRequest(desc) => "Couldn't send request: " + desc
    case CannotCreateClient(desc) => "Couldn't create client: " + desc
    case InvalidHeaderValue(_) => "Invalid header value"
  }

  /** A code without an explanation and no reason displays as the bare status line, and only such a code does. */
  lemma HttpMessageBare(code: u16)
    ensures Message(Http(code, None)) == "HTTP error " + Dec(code) <==> Explanation(code) == []
  {
    var m := Message(Http(code, None));
    assert |m| == |"HTTP error " + Dec(code)| + |GenericReason(code)|;
  }

  /** A tabulated code with no reason displays as, for example, "HTTP error 404 Not Found". */
  lemma HttpMessageNotFound()
    ensures Message(Http(404, None)) == "HTTP error 404 Not Found"
  {
    assert Dec(404) == "404" by {
      assert Dec(40) == "40";
    }
  }

  /** The reason part after a known code determines the reason. */
  lemma SuffixDeterminesReason(code: u16, r1: Option<string>, r2: Option<string>)
    requires ReasonSuffix(code, r1) == ReasonSuffix(code, r2)
    ensures r1 == r2
  {
    var t1, t2 := ReasonSuffix(code, r1), ReasonSuffix(code, r2);
    if r1.Some? && r2.Some? {
      assert r1.value == t1[2..] == t2[2..] == r2.value;
    }
  }

  /** An HTTP error's text is the fixed prefix followed by the code and its suffix. */
  lemma HttpMessageSplits(code: u16, reason: Option<string>)
    ensures Message(Http(code, reason)) == "HTTP error " + (Dec(code) + ReasonSuffix(code, reason))
  {
  }

  lemma CancelPrefix(p: string, a: string, b: string)
    requires p + a == p + b
    ensures a == b
  {
    assert a == (p + a)[|p|..];
    assert b == (p + b)[|p|..];
  }

  /**
   * The text of an HTTP error determines the error: code and reason can be
   * read back from the message, so two different HTTP errors never display
   * alike (the suffix after the code starts with ':' for a reason and with
   * ' ' or nothing otherwise).
   */
  lemma HttpMessageInjective(c1: u16, r1: Option<string>, c2: u16, r2: Option<string>)
    requires Message(Http(c1, r1)) == Message(Http(c2, r2))
    ensures c1 == c2 && r1 == r2
  {
    var t1, t2 := ReasonSuffix(c1, r1), ReasonSuffix(c2, r2);
    HttpMessageSplits(c1, r1);
    HttpMessageSplits(c2, r2);
    CancelPrefix("HTTP error ", Dec(c1) + t1, Dec(c2) + t2);
    DecPrefixUnique(c1, t1, c2, t2);
    SuffixDeterminesReason(c1, r1, r2);
  }
}
