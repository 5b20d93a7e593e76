/** The content-type vocabulary of src/content.rs: a lookup table from file
    extension to `ContentType` and one from `ContentType` to the MIME string of the
    `Content-Type` header (section 14.17 of RFC 2616). */
module Content {
  import opened Wrappers

  datatype ContentType = CSS | HTML | GIF | PNG | JPEG | TEXT | SVG | XML | PDF | ICO

  /** The error `from_ext_str` returns; it carries the extension it rejected. */
  datatype InvalidContentType = InvalidContentType(ext: string)

  /** The table `from_ext_str` builds: twelve lower-case extensions. */
  const ExtensionTable: map<string, ContentType> := map[
    "css" := CSS,
    "gif" := GIF,
    "htm" := HTML,
    "html" := HTML,
    "jpeg" := JPEG,
    "jpg" := JPEG,
    "png" := PNG,
    "svg" := SVG,
    "txt" := TEXT,
    "xml" := XML,
    "pdf" := PDF,
    "ico" := ICO
  ]

  /** The table `as_str` builds, with its repeated HTML and JPEG rows. */
  const MimeTable: map<ContentType, string> := map[
    CSS := "text/css",
    GIF := "image/gif",
    HTML := "text/html",
    HTML := "text/html",
    JPEG := "image/jpeg",
    JPEG := "image/jpeg",
    PNG := "image/png",
    SVG := "image/svg+xml",
    TEXT := "text/plain",
    XML := "application/xml",
    PDF := "application/pdf",
    ICO := "image/x-icon"
  ]

  /** `ContentType::from_ext_str`: a known extension gives its type, anything else
      (including upper-case spellings) an error naming the extension. */
  function FromExtStr(ext: string): (r: Result<ContentType, InvalidContentType>)
    ensures r.Success? <==> ext in {"css", "gif", "htm", "html", "jpeg", "jpg",
                                    "png", "svg", "txt", "xml", "pdf", "ico"}
    ensures r.Failure? ==> r.error == InvalidContentType(ext)
    ensures r.Success? ==> r.value == ExtensionOf(ext)
  {
    if ext in ExtensionTable then Success(ExtensionTable[ext])
    else Failure(InvalidContentType(ext))
  }

  /** The content type each extension of the table names, written out row by
      row as a reference for the map `ExtensionTable`. */
  function ExtensionOf(ext: string): ContentType
    requires ext in {"css", "gif", "htm", "html", "jpeg", "jpg",
                     "png", "svg", "txt", "xml", "pdf", "ico"}
  {
    match ext
    case "css" => CSS
    case "gif" => GIF
    case "htm" => HTML
    case "html" => HTML
    case "jpeg" => JPEG
    case "jpg" => JPEG
    case "png" => PNG
    case "svg" => SVG
    case "txt" => TEXT
    case "xml" => XML
    case "pdf" => PDF
    case "ico" => ICO
  }

  /** Every variant has a row in the MIME table, so the `unwrap` in `as_str`
      never fails. */
  lemma MimeTableTotal(c: ContentType)
    ensures c in MimeTable
  {
  }

  /** `ContentType::as_str`: the MIME string of a content type. */
  function AsStr(c: ContentType): (s: string)
    ensures s in MimeTable.Values
    ensures s ==
      match c
      case CSS => "text/css"
      case GIF => "image/gif"
      case HTML => "text/html"
      case JPEG => "image/jpeg"
      case PNG => "image/png"
      case SVG => "image/svg+xml"
      case TEXT => "text/plain"
      case XML => "application/xml"
      case PDF => "application/pdf"
      case ICO => "image/x-icon"
  {
    MimeTableTotal(c);
    MimeTable[c]
  }

  /** An extension that maps to `c`: every variant is reachable from the table. */
  function CanonicalExtension(c: ContentType): (ext: string)
    ensures FromExtStr(ext) == Success(c)
  {
    match c
    case CSS => "css"
    case HTML => "html"
    case GIF => "gif"
    case PNG => "png"
    case JPEG => "jpeg"
    case TEXT => "txt"
    case SVG => "svg"
    case XML => "xml"
    case PDF => "pdf"
    case ICO => "ico"
  }

  /** The two spellings of HTML and of JPEG map to the same type. */
  lemma Synonyms()
    ensures FromExtStr("htm") == FromExtStr("html") == Success(HTML)
    ensures FromExtStr("jpg") == FromExtStr("jpeg") == Success(JPEG)
  {
  }

  /** Looking up an extension and then its MIME string gives, row by row, the
      header value the server sends for a file with that extension. */
  lemma MimeOfExtension(ext: string)
    requires FromExtStr(ext).Success?
    ensures AsStr(FromExtStr(ext).value) ==
      match ext
      case "css" => "text/css"
      case "gif" => "image/gif"
      case "htm" => "text/html"
      case "html" => "text/html"
      case "jpeg" => "image/jpeg"
      case "jpg" => "image/jpeg"
      case "png" => "image/png"
      case "svg" => "image/svg+xml"
      case "txt" => "text/plain"
      case "xml" => "application/xml"
      case "pdf" => "application/pdf"
      case _ => "image/x-icon"
  {
  }

  /** No two content types share a MIME string. */
  lemma AsStrInjective(a: ContentType, b: ContentType)
    requires AsStr(a) == AsStr(b)
    ensures a == b
  {
  }
}
