# Linda: request/response pipeline, modelled in Dafny

Linda is a small static-file HTTP/1.1 server written in Rust. This project models
the sequential core of its request/response pipeline and proves properties of it:

- the method vocabulary (`src/method.rs`): the `GET`/`HEAD` tokens, both lookup
  directions and the default (module `Methods`, file `method.dfy`);
- the content-type vocabulary (`src/content.rs`): the extension table and the MIME
  table, both as maps like the source's `HashMap`s (module `Content`, `content.dfy`);
- the status-code vocabulary (`src/status.rs`): the 40 statuses, the numeric table
  and its decimal rendering (module `Status`, `status.dfy`);
- the builder parser of the Request-Line (`src/request.rs`): a `Request` class whose
  setters validate a token and update one field in place, and the parse method that
  chains them (module `Requests`, `request.dfy`);
- resolution and serialisation (`src/response.rs`): a `Response` class, `AddFile`
  and `Respond`, which read the requested file (and, for a 404 under GET,
  root/404.html) and fill in status, body and content type, and
  `FormatResponse`, which writes the Status-Line, the optional `Content-type` header
  and the body, and drains the body (module `Responses`, `response.dfy`);
- the older GET-only parser of `src/main.rs` and its `Display` (module
  `LegacyParser`, `legacy.dfy`).

`text.dfy` (module `Text`) holds what those share: `split_whitespace` (over the
Unicode White_Space characters), decimal rendering of integers, and the bytes of
ASCII text. `wrappers.dfy` holds `Option`, `Result` and `Outcome`.

Each state-changing method is proved against a pure function of the same module
(`Requests.Parse`, the setters' `RequestValue.With…` functions, `Responses.Resolved`,
`Responses.Format`, `Responses.Drained`), and the properties are proved about those
functions.

The outside world enters as parameters. `fs::read` is a function from path to
`Contents(bytes)` or `ReadError(NotFound | PermissionDenied | Other)`. `Path::exists`
is a function from path to `bool`. The `LINDA_ROOT` environment variable is an
`Option<string>`, and when it is absent the root is "/var/www".

The model keeps these behaviours of the code as written:

- no index document is appended to "/";
- the 404 fallback body is sent without a content type;
- `format_response` writes no blank line when no content type is set, even when a
  body follows (a 404 under GET). `BlankLineOnlyWithContentType` states this
  behaviour as the code has it;
- `Method` has only GET and HEAD (`src/method.rs`), not eight methods. So the
  wildcard arm of `response` (501 Not Implemented) cannot be reached from a parsed
  request. It is modelled on its own (`NotImplemented`, `RespondNotImplemented`).

## Model

| member | source | states |
|---|---|---|
| `Methods.FromStr` | src/method.rs:43-49 | succeeds exactly for "GET" and "HEAD", and `AsStr` of the result is the input; every other token, "get" and "POST" included, fails with `InvalidMethod` carrying that token |
| `Methods.AsStr` | src/method.rs:52-57 | every method has a non-empty, whitespace-free token |
| `Methods.AsStrRoundTrip` | src/method.rs:43-57 | `FromStr(AsStr(m))` gives back `m` for every method |
| `Methods.AsStrInjective` | src/method.rs:52-57 | distinct methods have distinct tokens |
| `Methods.Default` | src/method.rs:60-64 | the default method is the one whose token is "GET" |
| `Content.FromExtStr` | src/content.rs:38-61 | succeeds exactly for the twelve lower-case extensions of the table, giving the type of that row ("htm" and "html" give HTML, "jpg" and "jpeg" give JPEG, …); anything else, "HTML" included, fails with `InvalidContentType` carrying the extension |
| `Content.MimeTableTotal` | src/content.rs:63-82 | every content type has a row in the MIME table, so the `unwrap` cannot fail |
| `Content.AsStr` | src/content.rs:63-82 | the MIME string of each type, row by row (CSS gives "text/css", ICO gives "image/x-icon", …) |
| `Content.CanonicalExtension` | src/content.rs:24-52 | every content type is reached from some extension of the table |
| `Content.Synonyms` | src/content.rs:42-45 | "htm" and "html" both give HTML; "jpg" and "jpeg" both give JPEG |
| `Content.MimeOfExtension` | src/content.rs:39-77 | the MIME string of each extension, row by row ("html" gives "text/html", "ico" gives "image/x-icon", …) |
| `Content.AsStrInjective` | src/content.rs:64-77 | no two content types share a MIME string |
| `Status.Default` | src/status.rs:49-53 | the default status is the one whose code is 200 |
| `Status.CodeTableTotal` | src/status.rs:57-102 | every status has a row in the table, so the `unwrap` in `Display` cannot fail; each code is in 100..505 and its hundreds digit is the class the status belongs to by name; the code determines the status |
| `Status.Code` | src/status.rs:57-102 | the code lies in 100..505 and its first digit matches the status class |
| `Status.ResolverCodes` | src/status.rs:58-97 | OK is 200, FORBIDDEN 403, NOT_FOUND 404, INTERNAL_SERVER_ERROR 500, NOT_IMPLEMENTED 501 |
| `Status.CodeRoundTrip` | src/status.rs:58-97 | reading a code back through the inverse table gives the status |
| `Status.CodeInjective` | src/status.rs:58-97 | no two statuses share a code |
| `Status.Display` | src/status.rs:55-103 | renders exactly three decimal digits that read back as the code |
| `Text.WordLength` | src/request.rs:27 | the length of the leading run of non-whitespace characters |
| `Text.Words` | src/request.rs:27 | every token of `split_whitespace` is non-empty and free of whitespace |
| `Text.WordsOfBlank` | src/main.rs:32-34 | a line has no tokens exactly when it is made of whitespace only |
| `Text.WordsOfConcat` | src/request.rs:27 | a token followed by whitespace is split off whole |
| `Text.WordsOfLine` | src/request.rs:27-31 | the tokens of "a b c" followed by any whitespace are exactly a, b and c |
| `Text.Decimal` | src/status.rs:102 | renders a number as digits, one digit exactly for numbers below 10 |
| `Text.DecimalRoundTrip` | src/status.rs:102 | reading the rendered digits back gives the number |
| `Text.ThreeDigits` | src/status.rs:58-97 | numbers from 100 to 999 render as three digits |
| `Text.Ascii` | src/response.rs:172 | one byte per character, equal to the character's code |
| `Requests.ParseError.Message` | src/request.rs:12-66 | the texts of request.rs:14 (URI), :29-31 ("… not specified") and :65 (version), and of the `InvalidMethod` display at src/method.rs:10: the version error's text contains the rejected version, the URI error's the URI, the method error's the token, and the missing-token errors end in "not specified" |
| `Requests.ValidateUri` | src/request.rs:71-79 | accepts a URI exactly when ROOT followed by it exists, and then returns it unchanged; otherwise `InvalidUri` with that URI |
| `Requests.RequestValue.WithMethod` | src/request.rs:51-54 | succeeds exactly for a known method token, which becomes the method; URI and version stay |
| `Requests.RequestValue.WithUri` | src/request.rs:57-60 | succeeds exactly when the URI exists under ROOT; only the URI changes |
| `Requests.RequestValue.WithVersion` | src/request.rs:63-69 | succeeds exactly for "HTTP/1.1"; only the version changes; otherwise the error carries the version |
| `Requests.RequestValue.Display` | src/request.rs:91-101 | the rendering ends with CRLF |
| `Requests.DefaultRequest` | src/request.rs:103-110 | the default request is GET, "/", "HTTP/1.1" |
| `Requests.Request.constructor` | src/request.rs:86-88 | a new request holds the default values |
| `Requests.Request.SetMethod` | src/request.rs:51-54 | applies `WithMethod`; on failure returns the error and leaves the request unchanged |
| `Requests.Request.SetUri` | src/request.rs:57-60 | applies `WithUri`; on failure returns the error and leaves the request unchanged |
| `Requests.Request.SetVersion` | src/request.rs:63-69 | applies `WithVersion`; on failure returns the error and leaves the request unchanged |
| `Requests.Parse` | src/request.rs:26-37 | a parsed request needs at least three tokens; its URI is the second token and exists under ROOT, and its version is "HTTP/1.1"; fewer than three tokens fail with "not specified" |
| `Requests.ParseRequestLine` | src/request.rs:26-37 | returns a fresh request whose fields are `Parse`'s result, or `Parse`'s error |
| `Requests.MissingToken` | src/request.rs:29-31 | fewer than three tokens fail with "not specified" for the first missing one |
| `Requests.ParseOutcome` | src/request.rs:26-37 | with three tokens, method then URI then version are checked and the first failure decides the error |
| `Requests.ParseSucceeds` | src/request.rs:29-36 | parsing succeeds exactly for a known method, an existing URI and "HTTP/1.1"; the fields are then the first three tokens |
| `Requests.ExtraTokensIgnored` | src/request.rs:27-31 | two lines with the same first three tokens parse alike |
| `Requests.DisplayRoundTrip` | src/request.rs:91-101 | parsing the display of a request that could have been parsed gives the request back |
| `Requests.ParsedRequestRedisplays` | src/request.rs:26-37 | a parsed request redisplays as a line that parses to the same request |
| `Responses.FromExtStr` | src/response.rs:40-55 | succeeds exactly for the eleven extensions of this copy of the table, none of which holds '/'; anything else fails naming the extension |
| `Responses.AsStr` | src/response.rs:57-69 | every MIME string is ASCII, holds '/', and holds no CR or LF |
| `Responses.AgreesWithContentTable` | src/response.rs:40-69 | this copy accepts the extensions of src/content.rs except "ico", with the same MIME strings |
| `Responses.Initial` | src/response.rs:153-159 | a new response has code 200, no body and no content type |
| `Responses.DocumentRoot` | src/response.rs:86-90 | the root is `LINDA_ROOT` when set, else "/var/www" |
| `Responses.Extension` | src/response.rs:105 | the result is the longest suffix without '.', preceded by '.' unless it is the whole path |
| `Responses.NotFoundBody` | src/response.rs:116-117 | the bytes of root/404.html, or nothing when that read fails |
| `Responses.Resolved` | src/response.rs:85-127 | it fails only after a successful read, naming the extension; a content type is set only on 200; under HEAD there is never a body |
| `Responses.Resolve` | src/response.rs:129-142 | dispatches GET to `Resolved` with head false and HEAD with head true |
| `Responses.NotImplemented` | src/response.rs:136-140 | code 501, no body, no content type, and no file read |
| `Responses.ReadSucceeded` | src/response.rs:98-108 | after a good read: 200, the file as body under GET and none under HEAD, and the content type of the extension of root+path; an unknown extension, or a path without '.' (and holding '/'), fails the whole response |
| `Responses.ReadFailed` | src/response.rs:110-124 | NotFound gives 404, PermissionDenied 403, any other kind 500; no content type; only a 404 under GET has a body, the fallback document or empty |
| `Responses.HeadIsGetWithoutBody` | src/response.rs:97-126 | HEAD gets exactly the GET response without its body |
| `Responses.StatusLine` | src/response.rs:164 | 14 ASCII characters: "HTTP/1.1 ", three digits that read back as the status code, CRLF |
| `Responses.ContentTypeHeader` | src/response.rs:167-169 | the header text is ASCII |
| `Responses.HeadText` | src/response.rs:164-169 | the text before the body is ASCII |
| `Responses.Format` | src/response.rs:161-180 | the output is as long as the head text and the body together |
| `Responses.Drained` | src/response.rs:173-176 | draining keeps status and headers and whether a body is present, and leaves it empty |
| `Responses.StatusLineOnWire` | src/response.rs:164 | the output begins with the 14-byte Status-Line |
| `Responses.HeadersThenBody` | src/response.rs:166-177 | the Content-type line and blank line follow exactly when a content type is set, then the body verbatim |
| `Responses.FormatAfterDrain` | src/response.rs:173-176 | a second format after draining emits no body, and draining twice is draining once |
| `Responses.BlankLineOnlyWithContentType` | src/response.rs:164-169 | before the body, CRLF CRLF appears exactly when a content type is set, and only at the end of the headers |
| `Responses.Response.constructor` | src/response.rs:153-159 | a new response holds the `Initial` value |
| `Responses.Response.FormatResponse` | src/response.rs:161-180 | returns `Format` of the response as it was and leaves it `Drained` |
| `Responses.AddFile` | src/response.rs:85-127 | returns a fresh response holding `Resolved`'s value, or `Resolved`'s error |
| `Responses.Respond` | src/response.rs:129-142 | dispatches GET and HEAD to `AddFile` with the request's URI, matching `Resolve` |
| `Responses.RespondNotImplemented` | src/response.rs:136-140 | returns a fresh response holding the `NotImplemented` value |
| `LegacyParser.Request.Display` | src/main.rs:19-29 | the rendering ends with CRLF |
| `LegacyParser.ParseRequestLine` | src/main.rs:31-59 | a parsed request always has method "GET", version "HTTP/1.1" and an existing URI |
| `LegacyParser.BlankLineRejected` | src/main.rs:32-34 | an empty or blank line fails with "Method not specified" |
| `LegacyParser.ParseOutcome` | src/main.rs:31-59 | a method other than "GET" gives "Unsupported method"; a lone "GET" gives "URI not specified"; a URI that does not exist is reported before the version is read; a missing version gives "HTTP version not specified" and a version other than "HTTP/1.1" gives "Unsupported HTTP version, use HTTP/1.1"; success exactly for GET, an existing URI and "HTTP/1.1", with the fields the first three tokens |
| `LegacyParser.AgreesWithBuilderParser` | src/main.rs:31-59 | this parser accepts exactly the lines the builder parser accepts with method GET, and reads the same fields |
| `LegacyParser.DisplayRoundTrip` | src/main.rs:19-59 | parsing the display of an acceptable request gives the request back |

## Left out

- The worker pool (`src/threadpool.rs`): threads, a channel behind a mutex, and joining on drop are concurrency. Its one sequential check, `size > 0`, is trivial.
- `handle_connection` (src/lib.rs and src/main.rs) and `main`: socket reads and writes, flushing, fixed buffers, logging. src/lib.rs imports a `get_request_line` that src/request.rs does not define, so it is not part of this model.
- The `Display` implementations of `InvalidContentType` and of `Response`. They only format log messages.
- `Responses.StatusLine`: renders the status with the numeric table of src/status.rs. The response module formats the external `http::StatusCode`, whose `Display` also appends a reason phrase (such as "404 Not Found"). That foreign call is not modelled.
- The panics on non-UTF-8 URIs (`to_str().expect`, src/response.rs:132 and :135), and the lossy decoding of the request buffer. URIs are strings here. The `expect` at src/main.rs:41 cannot fire, since that path was built from a `&str`.
- `Responses.Respond`: src/response.rs:130-135 calls the getters `request.method()` and `request.uri()`, which src/request.rs does not define (its `method` and `uri` are the builder setters). The model reads the `Request` fields directly, assuming those getters return them unchanged. This is the same revision gap as `get_request_line`.
- `fs::read` failures other than NotFound and PermissionDenied are one kind, `Other`. The source's `io::ErrorKind` has many more kinds, and they all take the same branch. An unset `LINDA_ROOT` and one that is not valid Unicode are both `None`.
- `Text.Ascii`: header text becomes bytes one byte per ASCII character. `as_bytes` gives UTF-8, which is the same for the ASCII text the headers consist of (`HeadText` is proved ASCII).
- Lifetimes and borrowing: `Request` in the source borrows its fields from the input line. In the model it holds copies.
