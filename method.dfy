/** The request-method vocabulary of src/method.rs: the two methods the server
    implements, their tokens (section 5.1.1 of RFC 2616) and the default. */
module Methods {
  import opened Wrappers
  import Text

  /** `Method(Inner)`: GET and HEAD are the only methods src/method.rs defines. */
  datatype Method = GET | HEAD

  /** The error `from_str` returns; it carries the token it rejected. */
  datatype InvalidMethod = InvalidMethod(token: string)

  /** `Method::from_str`: only the exact upper-case tokens are accepted. */
  function FromStr(src: string): (r: Result<Method, InvalidMethod>)
    ensures r.Success? <==> src == "GET" || src == "HEAD"
    ensures r.Success? ==> AsStr(r.value) == src
    ensures r.Failure? ==> r.error == InvalidMethod(src)
  {
    match src
    case "GET" => Success(GET)
    case "HEAD" => Success(HEAD)
    case _ => Failure(InvalidMethod(src))
  }

  /** `Method::as_str`: the method's token. */
  function AsStr(m: Method): (s: string)
    ensures |s| >= 3 && Text.IsWord(s)
  {
    match m
    case GET => "GET"
    case HEAD => "HEAD"
  }

  /** Printing a method and parsing the token back gives the same method. */
  lemma AsStrRoundTrip(m: Method)
    ensures FromStr(AsStr(m)) == Success(m)
  {
  }

  /** Distinct methods have distinct tokens. */
  lemma AsStrInjective(a: Method, b: Method)
    requires AsStr(a) == AsStr(b)
    ensures a == b
  {
    AsStrRoundTrip(a);
    AsStrRoundTrip(b);
  }

  /** `Default for Method`. */
  function Default(): (m: Method)
    ensures AsStr(m) == "GET"
  {
    GET
  }
}
