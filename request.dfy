/** The Request-Line parser of src/request.rs (section 5.1 of RFC 2616): the line
    is split on whitespace into method, URI and version, and each part goes through
    a builder setter that validates it and updates a `Request` in place. */
module Requests {
  import opened Wrappers
  import opened Methods
  import Text

  /** The directory `validate_uri` resolves URIs under. */
  const Root := "/home/ongo/Programming/linda"

  /** The only protocol version the `version` setter accepts. */
  const SupportedVersion := "HTTP/1.1"

  /** `Path::exists`, an oracle over the filesystem. */
  type PathExists = string -> bool

  /** Which token of the Request-Line is missing. */
  datatype Field = MethodField | UriField | VersionField

  /** Every way `parse_request_line` can fail. */
  datatype ParseError =
    | NotSpecified(field: Field)
    | BadMethod(cause: InvalidMethod)
    | InvalidUri(uri: string)
    | UnsupportedVersion(version: string)
  {
    /** The text of the error, as the source builds it. */
    function Message(): (text: string)
      ensures UnsupportedVersion? ==> |text| > 13 + |version| && text[13..13 + |version|] == version
      ensures InvalidUri? ==> |text| >= 13 && text[13..] == uri
      ensures BadMethod? ==> |text| >= 21 && text[21..] == cause.token
      ensures NotSpecified? ==> |text| >= 13 && text[|text| - 13..] == "not specified"
    {
      match this
      case NotSpecified(MethodField) => "Method not specified"
      case NotSpecified(UriField) => "URI not specified"
      case NotSpecified(VersionField) => "HTTP version not specified"
      case BadMethod(InvalidMethod(token)) => "Invalid HTTP method: " + token
      case InvalidUri(uri) => "Invalid URI: " + uri
      case UnsupportedVersion(version) => "HTTP version " + version + " is not supported."
    }
  }

  /** `validate_uri`: a URI is accepted exactly when `Root` followed by it names
      an existing path, and it is then kept unchanged. */
  function ValidateUri(uri: string, pathExists: PathExists): (r: Result<string, ParseError>)
    ensures r.Success? <==> pathExists(Root + uri)
    ensures r.Success? ==> r.value == uri
    ensures r.Failure? ==> r.error == InvalidUri(uri)
  {
    if pathExists(Root + uri) then Success(uri) else Failure(InvalidUri(uri))
  }

  /** The value of a `Request`: its three fields. */
  datatype RequestValue = RequestValue(requestMethod: Method, uri: string, version: string)
  {
    /** What the `method` setter does: the token must be a known method; only
        the method changes. */
    function WithMethod(token: string): (r: Result<RequestValue, ParseError>)
      ensures r.Success? <==> FromStr(token).Success?
      ensures r.Success? ==> AsStr(r.value.requestMethod) == token
                             && r.value.uri == uri && r.value.version == version
      ensures r.Failure? ==> r.error == BadMethod(InvalidMethod(token))
    {
      match FromStr(token)
      case Success(m) => Success(this.(requestMethod := m))
      case Failure(e) => Failure(BadMethod(e))
    }

    /** What the `uri` setter does: the URI must pass `validate_uri`; only the URI
        changes. */
    function WithUri(token: string, pathExists: PathExists): (r: Result<RequestValue, ParseError>)
      ensures r.Success? <==> pathExists(Root + token)
      ensures r.Success? ==> r.value == this.(uri := token)
      ensures r.Failure? ==> r.error == InvalidUri(token)
    {
      var u :- ValidateUri(token, pathExists);
      Success(this.(uri := u))
    }

    /** What the `version` setter does: only "HTTP/1.1" is accepted; only the
        version changes. */
    function WithVersion(token: string): (r: Result<RequestValue, ParseError>)
      ensures r.Success? <==> token == SupportedVersion
      ensures r.Success? ==> r.value == this.(version := token)
      ensures r.Failure? ==> r.error == UnsupportedVersion(token)
    {
      if token != SupportedVersion then Failure(UnsupportedVersion(token))
      else Success(this.(version := token))
    }

    /** `Display for Request`: "method uri version" and CRLF. */
    function Display(): (text: string)
      ensures |text| >= 2 && text[|text| - 2..] == "\r\n"
    {
      AsStr(requestMethod) + " " + uri + " " + version + "\r\n"
    }
  }

  /** `Default for Request`, which `Request::new` returns. */
  function DefaultRequest(): (v: RequestValue)
    ensures AsStr(v.requestMethod) == "GET" && v.uri == "/" && v.version == SupportedVersion
  {
    RequestValue(Methods.Default(), "/", SupportedVersion)
  }

  /** What `parse_request_line` computes: three tokens are required, then the
      setters run on the default request in the order method, URI, version. */
  function Parse(line: string, pathExists: PathExists): (r: Result<RequestValue, ParseError>)
    ensures r.Success? ==> |Text.Words(line)| >= 3
    ensures r.Success? ==> r.value.uri == Text.Words(line)[1] && pathExists(Root + r.value.uri)
    ensures r.Success? ==> r.value.version == SupportedVersion
    ensures |Text.Words(line)| < 3 ==> r.Failure? && r.error.NotSpecified?
  {
    var parts := Text.Words(line);
    if |parts| < 1 then Failure(NotSpecified(MethodField))
    else if |parts| < 2 then Failure(NotSpecified(UriField))
    else if |parts| < 3 then Failure(NotSpecified(VersionField))
    else
      var withMethod :- DefaultRequest().WithMethod(parts[0]);
      var withUri :- withMethod.WithUri(parts[1], pathExists);
      withUri.WithVersion(parts[2])
  }

  /** A request being built; the setters are the source's chained builder calls. */
  class Request {
    var requestMethod: Method
    var uri: string
    var version: string

    function Value(): RequestValue
      reads this
    {
      RequestValue(requestMethod, uri, version)
    }

    /** `Request::new`. */
    constructor ()
      ensures Value() == DefaultRequest()
    {
      requestMethod := GET;
      uri := "/";
      version := SupportedVersion;
    }

    /** The `method` setter; on failure it returns before assigning. */
    method SetMethod(token: string) returns (r: Outcome<ParseError>)
      modifies this
      ensures var next := old(Value()).WithMethod(token);
        && (r.Pass? <==> next.Success?)
        && (next.Failure? ==> r == Fail(next.error))
        && Value() == (if next.Success? then next.value else old(Value()))
    {
      var m := FromStr(token);
      if m.Failure? {
        return Fail(BadMethod(m.error));
      }
      requestMethod := m.value;
      return Pass;
    }

    /** The `uri` setter; on failure it returns before assigning. */
    method SetUri(token: string, pathExists: PathExists) returns (r: Outcome<ParseError>)
      modifies this
      ensures var next := old(Value()).WithUri(token, pathExists);
        && (r.Pass? <==> next.Success?)
        && (next.Failure? ==> r == Fail(next.error))
        && Value() == (if next.Success? then next.value else old(Value()))
    {
      var u := ValidateUri(token, pathExists);
      if u.Failure? {
        return Fail(u.error);
      }
      uri := u.value;
      return Pass;
    }

    /** The `version` setter; on failure it returns before assigning. */
    method SetVersion(token: string) returns (r: Outcome<ParseError>)
      modifies this
      ensures var next := old(Value()).WithVersion(token);
        && (r.Pass? <==> next.Success?)
        && (next.Failure? ==> r == Fail(next.error))
        && Value() == (if next.Success? then next.value else old(Value()))
    {
      if token != SupportedVersion {
        return Fail(UnsupportedVersion(token));
      }
      version := token;
      return Pass;
    }
  }

  /** `parse_request_line`: split the line, take three tokens, build the request
      with the chained setters. */
  method ParseRequestLine(line: string, pathExists: PathExists) returns (r: Result<Request, ParseError>)
    ensures r.Failure? ==> Parse(line, pathExists) == Failure(r.error)
    ensures r.Success? ==> fresh(r.value) && Parse(line, pathExists) == Success(r.value.Value())
  {
    var parts := Text.Words(line);
    if |parts| < 1 {
      return Failure(NotSpecified(MethodField));
    }
    if |parts| < 2 {
      return Failure(NotSpecified(UriField));
    }
    if |parts| < 3 {
      return Failure(NotSpecified(VersionField));
    }
    var request := new Request();
    var outcome := request.SetMethod(parts[0]);
    if outcome.Fail? {
      return Failure(outcome.error);
    }
    outcome := request.SetUri(parts[1], pathExists);
    if outcome.Fail? {
      return Failure(outcome.error);
    }
    outcome := request.SetVersion(parts[2]);
    if outcome.Fail? {
      return Failure(outcome.error);
    }
    return Success(request);
  }

  /** A line with fewer than three tokens fails, naming the first missing one. */
  lemma MissingToken(line: string, pathExists: PathExists)
    requires |Text.Words(line)| < 3
    ensures Parse(line, pathExists) == Failure(NotSpecified(
      if |Text.Words(line)| == 0 then MethodField
      else if |Text.Words(line)| == 1 then UriField
      else VersionField))
  {
  }

  /** The outcome of parsing a line with three or more tokens: checks run in the
      order method, URI, version, the first failing one decides the error, and on
      success the fields are the three tokens. */
  lemma ParseOutcome(line: string, pathExists: PathExists)
    requires |Text.Words(line)| >= 3
    ensures var w := Text.Words(line);
      Parse(line, pathExists) ==
        if w[0] != "GET" && w[0] != "HEAD" then Failure(BadMethod(InvalidMethod(w[0])))
        else if !pathExists(Root + w[1]) then Failure(InvalidUri(w[1]))
        else if w[2] != SupportedVersion then Failure(UnsupportedVersion(w[2]))
        else Success(RequestValue(FromStr(w[0]).value, w[1], w[2]))
  {
  }

  /** Parsing succeeds exactly when the method is known, the URI exists under
      `Root` and the version is "HTTP/1.1"; the parsed fields are then the first
      three tokens. */
  lemma ParseSucceeds(line: string, pathExists: PathExists)
    ensures var w := Text.Words(line);
      Parse(line, pathExists).Success? <==>
        |w| >= 3 && (w[0] == "GET" || w[0] == "HEAD") && pathExists(Root + w[1])
        && w[2] == SupportedVersion
    ensures var w := Text.Words(line);
      Parse(line, pathExists).Success? ==>
        var v := Parse(line, pathExists).value;
        AsStr(v.requestMethod) == w[0] && v.uri == w[1] && v.version == w[2]
  {
    if |Text.Words(line)| >= 3 {
      ParseOutcome(line, pathExists);
    }
  }

  /** Tokens after the third do not matter. */
  lemma ExtraTokensIgnored(line1: string, line2: string, pathExists: PathExists)
    requires |Text.Words(line1)| >= 3 && |Text.Words(line2)| >= 3
    requires Text.Words(line1)[..3] == Text.Words(line2)[..3]
    ensures Parse(line1, pathExists) == Parse(line2, pathExists)
  {
    var w1, w2 := Text.Words(line1), Text.Words(line2);
    assert w1[0] == w1[..3][0] == w2[0];
    assert w1[1] == w1[..3][1] == w2[1];
    assert w1[2] == w1[..3][2] == w2[2];
  }

  /** Displaying a request and parsing the text back gives the same request,
      whenever the request could have come from a parse. */
  lemma DisplayRoundTrip(v: RequestValue, pathExists: PathExists)
    requires Text.IsWord(v.uri) && pathExists(Root + v.uri)
    requires v.version == SupportedVersion
    ensures Parse(v.Display(), pathExists) == Success(v)
  {
    assert Text.AllWhitespace("\r\n");
    Text.WordsOfLine(AsStr(v.requestMethod), v.uri, v.version, "\r\n");
    AsStrRoundTrip(v.requestMethod);
  }

  /** A parsed request displays as a line that parses to itself. */
  lemma ParsedRequestRedisplays(line: string, pathExists: PathExists)
    requires Parse(line, pathExists).Success?
    ensures Parse(Parse(line, pathExists).value.Display(), pathExists) == Parse(line, pathExists)
  {
    ParseSucceeds(line, pathExists);
    DisplayRoundTrip(Parse(line, pathExists).value, pathExists);
  }
}
