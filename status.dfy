/** The status-code vocabulary of src/status.rs: the standard status values and
    the table `Display` uses to render each as its numeric code (section 6.1.1 of
    RFC 2616). */
module Status {
  import opened Wrappers
  import Text

  datatype StatusCode =
    | CONTINUE
    | SWITCHING_PROTOCOLS
    | OK
    | CREATED
    | ACCEPTED
    | NON_AUTHORITATIVE_INFORMATION
    | NO_CONTENT
    | RESET_CONTENT
    | PARTIAL_CONTENT
    | MULTIPLE_CHOICES
    | MOVED_PERMANENTLY
    | FOUND
    | SEE_OTHER
    | NOT_MODIFIED
    | USE_PROXY
    | TEMPORARY_REDIRECT
    | BAD_REQUEST
    | UNAUTHORIZED
    | PAYMENT_REQUIRED
    | FORBIDDEN
    | NOT_FOUND
    | METHOD_NOT_ALLOWED
    | NOT_ACCEPTABLE
    | PROXY_AUTHENTICATION_REQUIRED
    | REQUEST_TIME_OUT
    | CONFLICT
    | GONE
    | LENGTH_REQUIRED
    | PRECONDITION_FAILED
    | REQUEST_ENTITY_TOO_LARGE
    | REQUEST_URI_TOO_LARGE
    | UNSUPPORTED_MEDIA_TYPE
    | REQUEST_RANGE_NOT_SATISFIABLE
    | EXPECTATION_FAILED
    | INTERNAL_SERVER_ERROR
    | NOT_IMPLEMENTED
    | BAD_GATEWAY
    | SERVICE_UNAVAILABLE
    | GATEWAY_TIME_OUT
    | HTTP_VERSION_NOT_SUPPORTED

  /** `Default for StatusCode`. */
  function Default(): (s: StatusCode)
    ensures Code(s) == 200
  {
    OK
  }

  /** The table `Display` builds. */
  const CodeTable: map<StatusCode, int> := map[
    CONTINUE := 100,
    SWITCHING_PROTOCOLS := 101,
    OK := 200,
    CREATED := 201,
    ACCEPTED := 202,
    NON_AUTHORITATIVE_INFORMATION := 203,
    NO_CONTENT := 204,
    RESET_CONTENT := 205,
    PARTIAL_CONTENT := 206,
    MULTIPLE_CHOICES := 300,
    MOVED_PERMANENTLY := 301,
    FOUND := 302,
    SEE_OTHER := 303,
    NOT_MODIFIED := 304,
    USE_PROXY := 305,
    TEMPORARY_REDIRECT := 307,
    BAD_REQUEST := 400,
    UNAUTHORIZED := 401,
    PAYMENT_REQUIRED := 402,
    FORBIDDEN := 403,
    NOT_FOUND := 404,
    METHOD_NOT_ALLOWED := 405,
    NOT_ACCEPTABLE := 406,
    PROXY_AUTHENTICATION_REQUIRED := 407,
    REQUEST_TIME_OUT := 408,
    CONFLICT := 409,
    GONE := 410,
    LENGTH_REQUIRED := 411,
    PRECONDITION_FAILED := 412,
    REQUEST_ENTITY_TOO_LARGE := 413,
    REQUEST_URI_TOO_LARGE := 414,
    UNSUPPORTED_MEDIA_TYPE := 415,
    REQUEST_RANGE_NOT_SATISFIABLE := 416,
    EXPECTATION_FAILED := 417,
    INTERNAL_SERVER_ERROR := 500,
    NOT_IMPLEMENTED := 501,
    BAD_GATEWAY := 502,
    SERVICE_UNAVAILABLE := 503,
    GATEWAY_TIME_OUT := 504,
    HTTP_VERSION_NOT_SUPPORTED := 505
  ]

  /** The five classes of status named in section 6.1.1 of RFC 2616. */
  datatype Class = Informational | Successful | Redirection | ClientError | ServerError

  /** The class each status belongs to by its name, independently of the table. */
  function ClassOf(s: StatusCode): Class
  {
    match s
    case CONTINUE | SWITCHING_PROTOCOLS => Informational
    case OK | CREATED | ACCEPTED | NON_AUTHORITATIVE_INFORMATION | NO_CONTENT
       | RESET_CONTENT | PARTIAL_CONTENT => Successful
    case MULTIPLE_CHOICES | MOVED_PERMANENTLY | FOUND | SEE_OTHER | NOT_MODIFIED
       | USE_PROXY | TEMPORARY_REDIRECT => Redirection
    case INTERNAL_SERVER_ERROR | NOT_IMPLEMENTED | BAD_GATEWAY | SERVICE_UNAVAILABLE
       | GATEWAY_TIME_OUT | HTTP_VERSION_NOT_SUPPORTED => ServerError
    case _ => ClientError
  }

  /** The first digit of a code in each class. */
  function ClassDigit(c: Class): (d: nat)
    ensures 1 <= d <= 5
  {
    match c
    case Informational => 1
    case Successful => 2
    case Redirection => 3
    case ClientError => 4
    case ServerError => 5
  }

  /** Every variant has a row in the table, so the `unwrap` in `Display` never
      fails; every code lies in 100..505, its first digit is its class, and the
      code determines the variant. */
  lemma CodeTableTotal(s: StatusCode)
    ensures s in CodeTable
    ensures 100 <= CodeTable[s] <= 505
    ensures CodeTable[s] / 100 == ClassDigit(ClassOf(s))
    ensures FromCode(CodeTable[s]) == Some(s)
  {
    Rows100To101(s);
    Rows200To206(s);
    Rows300To307(s);
    Rows400To406(s);
    Rows407To413(s);
    Rows414To417(s);
    Rows500To505(s);
  }

  lemma Rows100To101(s: StatusCode)
    ensures s in {CONTINUE, SWITCHING_PROTOCOLS} ==>
      && s in CodeTable && 100 <= CodeTable[s] <= 505
      && CodeTable[s] / 100 == ClassDigit(ClassOf(s))
      && FromCode(CodeTable[s]) == Some(s)
  {
  }

  lemma Rows200To206(s: StatusCode)
    ensures s in {OK, CREATED, ACCEPTED, NON_AUTHORITATIVE_INFORMATION, NO_CONTENT,
                  RESET_CONTENT, PARTIAL_CONTENT} ==>
      && s in CodeTable && 100 <= CodeTable[s] <= 505
      && CodeTable[s] / 100 == ClassDigit(ClassOf(s))
      && FromCode(CodeTable[s]) == Some(s)
  {
  }

  lemma Rows300To307(s: StatusCode)
    ensures s in {MULTIPLE_CHOICES, MOVED_PERMANENTLY, FOUND, SEE_OTHER, NOT_MODIFIED,
                  USE_PROXY, TEMPORARY_REDIRECT} ==>
      && s in CodeTable && 100 <= CodeTable[s] <= 505
      && CodeTable[s] / 100 == ClassDigit(ClassOf(s))
      && FromCode(CodeTable[s]) == Some(s)
  {
  }

  lemma Rows400To406(s: StatusCode)
    ensures s in {BAD_REQUEST, UNAUTHORIZED, PAYMENT_REQUIRED, FORBIDDEN, NOT_FOUND,
                  METHOD_NOT_ALLOWED, NOT_ACCEPTABLE} ==>
      && s in CodeTable && 100 <= CodeTable[s] <= 505
      && CodeTable[s] / 100 == ClassDigit(ClassOf(s))
      && FromCode(CodeTable[s]) == Some(s)
  {
  }

  lemma Rows407To413(s: StatusCode)
    ensures s in {PROXY_AUTHENTICATION_REQUIRED, REQUEST_TIME_OUT, CONFLICT, GONE,
                  LENGTH_REQUIRED, PRECONDITION_FAILED, REQUEST_ENTITY_TOO_LARGE} ==>
      && s in CodeTable && 100 <= CodeTable[s] <= 505
      && CodeTable[s] / 100 == ClassDigit(ClassOf(s))
      && FromCode(CodeTable[s]) == Some(s)
  {
  }

  lemma Rows414To417(s: StatusCode)
    ensures s in {REQUEST_URI_TOO_LARGE, UNSUPPORTED_MEDIA_TYPE,
                  REQUEST_RANGE_NOT_SATISFIABLE, EXPECTATION_FAILED} ==>
      && s in CodeTable && 100 <= CodeTable[s] <= 505
      && CodeTable[s] / 100 == ClassDigit(ClassOf(s))
      && FromCode(CodeTable[s]) == Some(s)
  {
  }

  lemma Rows500To505(s: StatusCode)
    ensures s in {INTERNAL_SERVER_ERROR, NOT_IMPLEMENTED, BAD_GATEWAY,
                  SERVICE_UNAVAILABLE, GATEWAY_TIME_OUT, HTTP_VERSION_NOT_SUPPORTED} ==>
      && s in CodeTable && 100 <= CodeTable[s] <= 505
      && CodeTable[s] / 100 == ClassDigit(ClassOf(s))
      && FromCode(CodeTable[s]) == Some(s)
  {
  }

  /** The numeric code of a status, as the table gives it. */
  function Code(s: StatusCode): (n: nat)
    ensures 100 <= n <= 505
    ensures n / 100 == ClassDigit(ClassOf(s))
  {
    CodeTableTotal(s);
    CodeTable[s]
  }

  /** The codes the resolver uses. */
  lemma ResolverCodes()
    ensures Code(OK) == 200
    ensures Code(FORBIDDEN) == 403
    ensures Code(NOT_FOUND) == 404
    ensures Code(INTERNAL_SERVER_ERROR) == 500
    ensures Code(NOT_IMPLEMENTED) == 501
  {
  }

  /** The status a numeric code stands for, if any: the inverse of the table. */
  function FromCode(n: int): (r: Option<StatusCode>)
  {
    match n
    case 100 => Some(CONTINUE)
    case 101 => Some(SWITCHING_PROTOCOLS)
    case 200 => Some(OK)
    case 201 => Some(CREATED)
    case 202 => Some(ACCEPTED)
    case 203 => Some(NON_AUTHORITATIVE_INFORMATION)
    case 204 => Some(NO_CONTENT)
    case 205 => Some(RESET_CONTENT)
    case 206 => Some(PARTIAL_CONTENT)
    case 300 => Some(MULTIPLE_CHOICES)
    case 301 => Some(MOVED_PERMANENTLY)
    case 302 => Some(FOUND)
    case 303 => Some(SEE_OTHER)
    case 304 => Some(NOT_MODIFIED)
    case 305 => Some(USE_PROXY)
    case 307 => Some(TEMPORARY_REDIRECT)
    case 400 => Some(BAD_REQUEST)
    case 401 => Some(UNAUTHORIZED)
    case 402 => Some(PAYMENT_REQUIRED)
    case 403 => Some(FORBIDDEN)
    case 404 => Some(NOT_FOUND)
    case 405 => Some(METHOD_NOT_ALLOWED)
    case 406 => Some(NOT_ACCEPTABLE)
    case 407 => Some(PROXY_AUTHENTICATION_REQUIRED)
    case 408 => Some(REQUEST_TIME_OUT)
    case 409 => Some(CONFLICT)
    case 410 => Some(GONE)
    case 411 => Some(LENGTH_REQUIRED)
    case 412 => Some(PRECONDITION_FAILED)
    case 413 => Some(REQUEST_ENTITY_TOO_LARGE)
    case 414 => Some(REQUEST_URI_TOO_LARGE)
    case 415 => Some(UNSUPPORTED_MEDIA_TYPE)
    case 416 => Some(REQUEST_RANGE_NOT_SATISFIABLE)
    case 417 => Some(EXPECTATION_FAILED)
    case 500 => Some(INTERNAL_SERVER_ERROR)
    case 501 => Some(NOT_IMPLEMENTED)
    case 502 => Some(BAD_GATEWAY)
    case 503 => Some(SERVICE_UNAVAILABLE)
    case 504 => Some(GATEWAY_TIME_OUT)
    case 505 => Some(HTTP_VERSION_NOT_SUPPORTED)
    case _ => None
  }

  /** The code of a status determines the status. */
  lemma CodeRoundTrip(s: StatusCode)
    ensures FromCode(Code(s)) == Some(s)
  {
    CodeTableTotal(s);
  }

  /** No two variants share a code. */
  lemma CodeInjective(a: StatusCode, b: StatusCode)
    requires Code(a) == Code(b)
    ensures a == b
  {
    CodeRoundTrip(a);
    CodeRoundTrip(b);
  }

  /** `Display for StatusCode`: the code written out in decimal. */
  function Display(s: StatusCode): (text: string)
    ensures |text| == 3 && Text.AllDigits(text)
    ensures Text.DecimalValue(text) == Code(s)
  {
    Text.ThreeDigits(Code(s));
    Text.DecimalRoundTrip(Code(s));
    Text.Decimal(Code(s))
  }
}
