/** The response side of src/response.rs: resolving a request against the
    filesystem into a `Response` (`add_file`, `response`) and writing the response
    out as bytes (`format_response`, section 6.1 of RFC 2616). */
module Responses {
  import opened Wrappers
  import opened Status
  import Text
  import Methods
  import Requests
  import Content

  type byte = Text.byte

  /** The file module's own copy of the content types: no ICO. */
  datatype ContentType = CSS | HTML | GIF | PNG | JPEG | TEXT | SVG | XML | PDF

  datatype InvalidContentType = InvalidContentType(ext: string)

  /** `ContentType::from_ext_str` of src/response.rs: eleven extensions. */
  function FromExtStr(ext: string): (r: Result<ContentType, InvalidContentType>)
    ensures r.Success? <==> ext in {"css", "gif", "htm", "html", "jpeg", "jpg",
                                    "png", "svg", "txt", "xml", "pdf"}
    ensures r.Success? ==> '/' !in ext
    ensures r.Failure? ==> r.error == InvalidContentType(ext)
  {
    match ext
    case "css" => Success(CSS)
    case "gif" => Success(GIF)
    case "htm" => Success(HTML)
    case "html" => Success(HTML)
    case "jpeg" => Success(JPEG)
    case "jpg" => Success(JPEG)
    case "png" => Success(PNG)
    case "svg" => Success(SVG)
    case "txt" => Success(TEXT)
    case "xml" => Success(XML)
    case "pdf" => Success(PDF)
    case _ => Failure(InvalidContentType(ext))
  }

  /** `ContentType::as_str` of src/response.rs: a one-line ASCII MIME type. */
  function AsStr(c: ContentType): (s: string)
    ensures '/' in s && Text.IsAscii(s) && Text.NoCrLf(s)
  {
    match c
    case CSS => "text/css"
    case GIF => "image/gif"
    case HTML => "text/html"
    case JPEG => "image/jpeg"
    case PNG => "image/png"
    case SVG => "image/svg+xml"
    case TEXT => "text/plain"
    case XML => "application/xml"
    case PDF => "application/pdf"
  }

  /** The two copies of the table agree: this one accepts the same extensions as
      src/content.rs except "ico", and gives the same MIME strings. */
  lemma AgreesWithContentTable(ext: string)
    ensures FromExtStr(ext).Success? <==> Content.FromExtStr(ext).Success? && ext != "ico"
    ensures FromExtStr(ext).Success? ==>
      AsStr(FromExtStr(ext).value) == Content.AsStr(Content.FromExtStr(ext).value)
  {
    if FromExtStr(ext).Success? {
      Content.MimeOfExtension(ext);
    }
  }

  datatype Headers = Headers(contentType: Option<ContentType>)

  /** The value of a `Response`. */
  datatype ResponseValue = ResponseValue(status: StatusCode, body: Option<seq<byte>>, headers: Headers)

  /** `Response::new`: 200, no body, no content type. */
  function Initial(): (v: ResponseValue)
    ensures Code(v.status) == 200 && v.body.None? && v.headers.contentType.None?
  {
    ResponseValue(OK, None, Headers(None))
  }

  /** The kinds of read failure the resolver tells apart. */
  datatype ErrorKind = NotFound | PermissionDenied | Other

  /** The outcome of `fs::read` on one path. */
  datatype ReadResult = Contents(bytes: seq<byte>) | ReadError(kind: ErrorKind)

  /** `fs::read`, as an oracle from path to outcome. */
  type FileSystem = string -> ReadResult

  const DefaultRoot := "/var/www"

  /** The document root: the `LINDA_ROOT` environment variable when it is set,
      otherwise "/var/www". */
  function DocumentRoot(env: Option<string>): (root: string)
    ensures env.Some? ==> root == env.value
    ensures env.None? ==> root == "/var/www"
  {
    match env
    case Some(r) => r
    case None => DefaultRoot
  }

  /** `path.split('.').last().unwrap_or("")`: the text after the last '.', or the
      whole path when it has no '.'. */
  function Extension(path: string): (ext: string)
    ensures '.' !in ext
    ensures |ext| <= |path| && ext == path[|path| - |ext|..]
    ensures |ext| < |path| ==> path[|path| - |ext| - 1] == '.'
    ensures '.' !in path ==> ext == path
  {
    if path == [] || path[|path| - 1] == '.' then []
    else
      var init := path[..|path| - 1];
      assert path == init + [path[|path| - 1]];
      Extension(init) + [path[|path| - 1]]
  }

  /** The body sent with a 404 under GET: the bytes of root/404.html, or nothing
      when that read fails. */
  function NotFoundBody(root: string, fs: FileSystem): (body: seq<byte>)
    ensures fs(root + "/404.html").Contents? ==> body == fs(root + "/404.html").bytes
    ensures fs(root + "/404.html").ReadError? ==> body == []
  {
    match fs(root + "/404.html")
    case Contents(bytes) => bytes
    case ReadError(_) => []
  }

  /** What `add_file` computes for `path` under the document root; `head` is true
      for a HEAD request. */
  function Resolved(path: string, head: bool, env: Option<string>, fs: FileSystem)
    : (r: Result<ResponseValue, InvalidContentType>)
    ensures r.Failure? ==>
      && fs(DocumentRoot(env) + path).Contents?
      && r.error == InvalidContentType(Extension(DocumentRoot(env) + path))
    ensures r.Success? && r.value.headers.contentType.Some? ==> r.value.status == OK
    ensures r.Success? && head ==> r.value.body.None?
  {
    var root := DocumentRoot(env);
    var full := root + path;
    match fs(full)
    case Contents(bytes) =>
      var contentType :- FromExtStr(Extension(full));
      Success(ResponseValue(OK, if head then None else Some(bytes), Headers(Some(contentType))))
    case ReadError(NotFound) =>
      Success(ResponseValue(NOT_FOUND, if head then None else Some(NotFoundBody(root, fs)), Headers(None)))
    case ReadError(PermissionDenied) =>
      Success(ResponseValue(FORBIDDEN, None, Headers(None)))
    case ReadError(Other) =>
      Success(ResponseValue(INTERNAL_SERVER_ERROR, None, Headers(None)))
  }

  /** What `response` computes for a request with method `m` and URI `uri`. */
  function Resolve(m: Methods.Method, uri: string, env: Option<string>, fs: FileSystem)
    : (r: Result<ResponseValue, InvalidContentType>)
    ensures r == Resolved(uri, m == Methods.HEAD, env, fs)
  {
    match m
    case GET => Resolved(uri, false, env, fs)
    case HEAD => Resolved(uri, true, env, fs)
  }

  /** The wildcard arm of `response`: 501, no body, no content type, and no file
      read. */
  function NotImplemented(): (v: ResponseValue)
    ensures Code(v.status) == 501 && v.body.None? && v.headers.contentType.None?
  {
    Initial().(status := NOT_IMPLEMENTED)
  }

  /** A successful read: the file's bytes are the body under GET and absent under
      HEAD; the content type comes from the extension of root + path, and an
      unknown extension fails the whole response, and so does a path without '.'
      (its whole text is then taken as the extension). */
  lemma ReadSucceeded(path: string, head: bool, env: Option<string>, fs: FileSystem)
    requires fs(DocumentRoot(env) + path).Contents?
    ensures var full := DocumentRoot(env) + path;
      var r := Resolved(path, head, env, fs);
      && (r.Success? <==> FromExtStr(Extension(full)).Success?)
      && (r.Success? ==>
            && r.value.status == OK
            && r.value.body == (if head then None else Some(fs(full).bytes))
            && r.value.headers.contentType == Some(FromExtStr(Extension(full)).value))
      && ('.' !in full && '/' in full ==> r == Failure(InvalidContentType(full)))
  {
  }

  /** A failed read: NotFound gives 404, PermissionDenied 403, any other kind
      500; no content type is set; only a 404 under GET has a body, the fallback
      document or nothing. */
  lemma ReadFailed(path: string, head: bool, env: Option<string>, fs: FileSystem)
    requires fs(DocumentRoot(env) + path).ReadError?
    ensures var kind := fs(DocumentRoot(env) + path).kind;
      var r := Resolved(path, head, env, fs);
      && r.Success?
      && r.value.status == (match kind
                            case NotFound => NOT_FOUND
                            case PermissionDenied => FORBIDDEN
                            case Other => INTERNAL_SERVER_ERROR)
      && r.value.headers.contentType.None?
      && r.value.body == (if kind == NotFound && !head
                          then Some(NotFoundBody(DocumentRoot(env), fs)) else None)
  {
  }

  /** HEAD gets exactly the response GET gets, without the body. */
  lemma HeadIsGetWithoutBody(path: string, env: Option<string>, fs: FileSystem)
    ensures Resolved(path, true, env, fs).Success? <==> Resolved(path, false, env, fs).Success?
    ensures Resolved(path, false, env, fs).Success? ==>
      Resolved(path, true, env, fs).value == Resolved(path, false, env, fs).value.(body := None)
  {
  }

  /** The Status-Line: "HTTP/1.1 ", three digits that read back as the status
      code, and CRLF. */
  function StatusLine(s: StatusCode): (line: string)
    ensures |line| == 14 && Text.IsAscii(line)
    ensures line[..9] == "HTTP/1.1 " && line[12..] == "\r\n"
    ensures Text.AllDigits(line[9..12]) && Text.DecimalValue(line[9..12]) == Code(s)
  {
    "HTTP/1.1 " + Display(s) + "\r\n"
  }

  /** The Content-type header line, followed by the blank line ending the
      headers. */
  function ContentTypeHeader(c: ContentType): (header: string)
    ensures Text.IsAscii(header)
  {
    "Content-type: " + AsStr(c) + "\r\n\r\n"
  }

  /** Everything `format_response` writes before the body. */
  function HeadText(v: ResponseValue): (text: string)
    ensures Text.IsAscii(text)
  {
    match v.headers.contentType
    case Some(c) => StatusLine(v.status) + ContentTypeHeader(c)
    case None => StatusLine(v.status)
  }

  function BodyBytes(v: ResponseValue): seq<byte>
  {
    match v.body
    case Some(b) => b
    case None => []
  }

  /** The bytes `format_response` returns for a response with value `v`. */
  function Format(v: ResponseValue): (bytes: seq<byte>)
    ensures |bytes| == |HeadText(v)| + |BodyBytes(v)|
  {
    Text.AsciiConcat(HeadText(v), "");
    Text.Ascii(HeadText(v)) + BodyBytes(v)
  }

  /** The response after `format_response`: a present body has been emptied by
      `Vec::append`. */
  function Drained(v: ResponseValue): (w: ResponseValue)
    ensures w.status == v.status && w.headers == v.headers
    ensures w.body.Some? <==> v.body.Some?
    ensures BodyBytes(w) == []
  {
    match v.body
    case Some(_) => v.(body := Some([]))
    case None => v
  }

  /** The output begins with the 14-byte Status-Line. */
  lemma StatusLineOnWire(v: ResponseValue)
    ensures |Format(v)| >= 14 && Format(v)[..14] == Text.Ascii(StatusLine(v.status))
  {
    var head := HeadText(v);
    assert head[..14] == StatusLine(v.status);
    Text.AsciiSlice(head, 0, 14);
    assert Format(v)[..14] == Text.Ascii(head)[..14];
  }

  /** After the Status-Line come the Content-type line and blank line exactly
      when a content type is set, then the body verbatim. */
  lemma HeadersThenBody(v: ResponseValue)
    ensures var out := Format(v);
      && (v.headers.contentType.None? ==> |HeadText(v)| == 14)
      && (v.headers.contentType.Some? ==>
            out[14..|HeadText(v)|] == Text.Ascii(ContentTypeHeader(v.headers.contentType.value)))
      && out[|HeadText(v)|..] == BodyBytes(v)
  {
    var head := HeadText(v);
    var out := Format(v);
    assert out[..|head|] == Text.Ascii(head);
    match v.headers.contentType {
      case Some(c) =>
        assert head[14..|head|] == ContentTypeHeader(c);
        Text.AsciiSlice(head, 14, |head|);
        assert out[14..|head|] == Text.Ascii(head)[14..|head|];
      case None =>
    }
  }

  /** Formatting a drained response emits no body: a second `format_response`
      writes only the Status-Line and headers. */
  lemma FormatAfterDrain(v: ResponseValue)
    ensures Format(Drained(v)) == Text.Ascii(HeadText(v))
    ensures Drained(Drained(v)) == Drained(v)
  {
  }

  /** A blank line (CRLF CRLF) starting at index i. */
  predicate BlankLineAt(s: string, i: int)
  {
    0 <= i && i + 4 <= |s| && s[i] == '\r' && s[i + 1] == '\n' && s[i + 2] == '\r' && s[i + 3] == '\n'
  }

  /** CR LF after a line without CR or LF makes no blank line. */
  lemma NoBlankLineAfterOneCrLf(p: string, i: int)
    requires Text.NoCrLf(p)
    ensures !BlankLineAt(p + "\r\n", i)
  {
    var s := p + "\r\n";
    if 0 <= i && i + 4 <= |s| {
      if i + 2 < |p| {
        assert p[i + 2] in p;
        assert s[i + 2] != '\r';
      } else {
        assert p[i] in p;
        assert s[i] != '\r';
      }
    }
  }

  /** In "p CRLF q CRLF CRLF", with no CR or LF inside p and q and q not empty,
      the only blank line is the final one. */
  lemma BlankLineOnlyAtEnd(p: string, q: string, i: int)
    requires Text.NoCrLf(p) && Text.NoCrLf(q) && q != []
    ensures BlankLineAt(p + "\r\n" + q + "\r\n\r\n", i) <==> i == |p| + |q| + 2
  {
    var s := p + "\r\n" + q + "\r\n\r\n";
    assert |s| == |p| + |q| + 6;
    if 0 <= i && i + 4 <= |s| {
      if i + 2 < |p| {
        assert p[i + 2] in p;
        assert s[i + 2] != '\r';
      } else if i < |p| {
        assert p[i] in p;
        assert s[i] != '\r';
      } else if i == |p| {
        assert q[0] in q;
        assert s[i + 2] == q[0] && s[i + 2] != '\r';
      } else if i == |p| + 1 {
        assert s[i] == '\n';
      } else if i < |p| + 2 + |q| {
        assert q[i - |p| - 2] in q;
        assert s[i] == q[i - |p| - 2] && s[i] != '\r';
      } else {
        assert i == |p| + |q| + 2;
        assert s[i..] == "\r\n\r\n";
      }
    }
  }

  /** A blank line appears before the body only together with a Content-type
      line, and then exactly once, at the end of the headers. */
  lemma BlankLineOnlyWithContentType(v: ResponseValue, i: int)
    ensures BlankLineAt(HeadText(v), i) <==>
      v.headers.contentType.Some? && i == |HeadText(v)| - 4
  {
    var prefix := "HTTP/1.1 " + Display(v.status);
    assert Text.NoCrLf(prefix) by {
      forall c | c in prefix ensures c != '\r' && c != '\n' {
        if c in Display(v.status) {
          assert Text.IsDigit(c);
        }
      }
    }
    match v.headers.contentType {
      case Some(c) =>
        var line := "Content-type: " + AsStr(c);
        assert Text.NoCrLf(line);
        assert HeadText(v) == prefix + "\r\n" + line + "\r\n\r\n";
        BlankLineOnlyAtEnd(prefix, line, i);
      case None =>
        assert HeadText(v) == prefix + "\r\n";
        NoBlankLineAfterOneCrLf(prefix, i);
    }
  }

  /** A response being built and written out. */
  class Response {
    var status: StatusCode
    var body: Option<seq<byte>>
    var headers: Headers

    function Value(): ResponseValue
      reads this
    {
      ResponseValue(status, body, headers)
    }

    /** `Response::new`. */
    constructor ()
      ensures Value() == Initial()
    {
      status := OK;
      body := None;
      headers := Headers(None);
    }

    /** `format_response`: the Status-Line, the Content-type header if a content
        type is set, then the body, which `append` moves out of the response. */
    method FormatResponse() returns (bytes: seq<byte>)
      modifies this
      ensures bytes == Format(old(Value()))
      ensures Value() == Drained(old(Value()))
    {
      ghost var before := Value();
      var result := StatusLine(status);
      if headers.contentType.Some? {
        result := result + ContentTypeHeader(headers.contentType.value);
      }
      assert result == HeadText(before);
      bytes := Text.Ascii(result);
      if body.Some? {
        bytes := bytes + body.value;
        body := Some([]);
      }
      assert bytes == Text.Ascii(HeadText(before)) + BodyBytes(before);
    }
  }

  /** `add_file`: read root + path once and fill in a new response. */
  method AddFile(path: string, head: bool, env: Option<string>, fs: FileSystem)
    returns (r: Result<Response, InvalidContentType>)
    ensures r.Failure? ==> Resolved(path, head, env, fs) == Failure(r.error)
    ensures r.Success? ==> fresh(r.value) && Resolved(path, head, env, fs) == Success(r.value.Value())
  {
    var root := DefaultRoot;
    if env.Some? {
      root := env.value;
    }
    assert root == DocumentRoot(env);
    var full := root + path;
    var contents := fs(full);
    var response := new Response();
    match contents {
      case Contents(bytes) =>
        if !head {
          response.body := Some(bytes);
        }
        var ext := Extension(full);
        var contentType := FromExtStr(ext);
        if contentType.Failure? {
          return Failure(contentType.error);
        }
        response.headers := response.headers.(contentType := Some(contentType.value));
        return Success(response);
      case ReadError(kind) =>
        match kind {
          case NotFound =>
            if !head {
              response.body := Some(NotFoundBody(root, fs));
            }
            response.status := NOT_FOUND;
          case PermissionDenied =>
            response.status := FORBIDDEN;
          case Other =>
            response.status := INTERNAL_SERVER_ERROR;
        }
        return Success(response);
    }
  }

  /** `response`: GET and HEAD go to `add_file` with the request's URI. */
  method Respond(request: Requests.Request, env: Option<string>, fs: FileSystem)
    returns (r: Result<Response, InvalidContentType>)
    ensures r.Failure? ==> Resolve(request.requestMethod, request.uri, env, fs) == Failure(r.error)
    ensures r.Success? ==>
      && fresh(r.value)
      && Resolve(request.requestMethod, request.uri, env, fs) == Success(r.value.Value())
  {
    match request.requestMethod {
      case GET => r := AddFile(request.uri, false, env, fs);
      case HEAD => r := AddFile(request.uri, true, env, fs);
    }
  }

  /** The wildcard arm of `response`, which builds a 501 response without
      touching the filesystem. */
  method RespondNotImplemented() returns (r: Response)
    ensures fresh(r) && r.Value() == NotImplemented()
  {
    r := new Response();
    r.status := NOT_IMPLEMENTED;
  }
}
