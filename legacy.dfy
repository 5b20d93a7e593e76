/** The older Request-Line parser of src/main.rs: GET only, the URI checked on
    disk before the version is read, and errors as plain messages. */
module LegacyParser {
  import opened Wrappers
  import Text
  import Methods
  import Requests

  /** The same root as src/request.rs uses. */
  const Root := "/home/ongo/Programming/linda"

  /** `Request` of src/main.rs: the three tokens as given. */
  datatype Request = Request(requestMethod: string, uri: string, httpVersion: string)
  {
    /** `Display for Request`: "method uri version" and CRLF. */
    function Display(): (text: string)
      ensures |text| >= 2 && text[|text| - 2..] == "\r\n"
    {
      requestMethod + " " + uri + " " + httpVersion + "\r\n"
    }
  }

  /** `parse_request_line` of src/main.rs: a chain of early returns over the
      whitespace-separated tokens. */
  function ParseRequestLine(line: string, pathExists: Requests.PathExists): (r: Result<Request, string>)
    ensures r.Success? ==> r.value.requestMethod == "GET" && r.value.httpVersion == "HTTP/1.1"
    ensures r.Success? ==> pathExists(Root + r.value.uri)
  {
    var parts := Text.Words(line);
    if |parts| < 1 then Failure("Method not specified")
    else if parts[0] != "GET" then Failure("Unsupported method")
    else if |parts| < 2 then Failure("URI not specified")
    else if !pathExists(Root + parts[1]) then Failure("Requested resource does not exist")
    else if |parts| < 3 then Failure("HTTP version not specified")
    else if parts[2] != "HTTP/1.1" then Failure("Unsupported HTTP version, use HTTP/1.1")
    else Success(Request(parts[0], parts[1], parts[2]))
  }

  /** A line with no token at all, such as the empty line, is rejected first. */
  lemma BlankLineRejected(line: string, pathExists: Requests.PathExists)
    requires Text.AllWhitespace(line)
    ensures ParseRequestLine(line, pathExists) == Failure("Method not specified")
  {
    Text.WordsOfBlank(line);
  }

  /** The outcome of parsing, as a function of the tokens: the method is checked
      first, then the URI is looked up on disk, and only then is the version read;
      each missing or rejected token gives its own message;
      on success the fields are the first three tokens. */
  lemma ParseOutcome(line: string, pathExists: Requests.PathExists)
    ensures var w := Text.Words(line);
      var r := ParseRequestLine(line, pathExists);
      && (|w| >= 1 && w[0] != "GET" ==> r == Failure("Unsupported method"))
      && (|w| == 1 && w[0] == "GET" ==> r == Failure("URI not specified"))
      && (|w| >= 2 && w[0] == "GET" && !pathExists(Root + w[1]) ==>
            r == Failure("Requested resource does not exist"))
      && (|w| == 2 && w[0] == "GET" && pathExists(Root + w[1]) ==>
            r == Failure("HTTP version not specified"))
      && (|w| >= 3 && w[0] == "GET" && pathExists(Root + w[1]) && w[2] != "HTTP/1.1" ==>
            r == Failure("Unsupported HTTP version, use HTTP/1.1"))
      && (r.Success? <==>
            |w| >= 3 && w[0] == "GET" && pathExists(Root + w[1]) && w[2] == "HTTP/1.1")
      && (r.Success? ==> r.value == Request(w[0], w[1], w[2]))
  {
  }

  /** The older parser accepts exactly the lines the builder parser of
      src/request.rs accepts with method GET, and both read the same fields. */
  lemma AgreesWithBuilderParser(line: string, pathExists: Requests.PathExists)
    ensures var legacy := ParseRequestLine(line, pathExists);
      var builder := Requests.Parse(line, pathExists);
      && (legacy.Success? <==> builder.Success? && builder.value.requestMethod == Methods.GET)
      && (legacy.Success? ==>
            && legacy.value.requestMethod == Methods.AsStr(builder.value.requestMethod)
            && legacy.value.uri == builder.value.uri
            && legacy.value.httpVersion == builder.value.version)
  {
    Requests.ParseSucceeds(line, pathExists);
  }

  /** Displaying a request this parser accepts and parsing the text back gives
      the same request. */
  lemma DisplayRoundTrip(r: Request, pathExists: Requests.PathExists)
    requires r.requestMethod == "GET" && r.httpVersion == "HTTP/1.1"
    requires Text.IsWord(r.uri) && pathExists(Root + r.uri)
    ensures ParseRequestLine(r.Display(), pathExists) == Success(r)
  {
    assert Text.AllWhitespace("\r\n");
    Text.WordsOfLine(r.requestMethod, r.uri, r.httpVersion, "\r\n");
  }
}
