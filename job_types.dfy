/** The values exchanged with the document-parsing service by the
    asynchronous parser (src/document_parse_async.py), with the
    `.get(key, default)` look-ups the parser applies to them. */
module JobTypes {
  import opened Wrappers

  type Url = string

  /** A JSON value read where the parser expects a string: the key may be
      missing, present with `null`, or present with a string. */
  datatype JsonText = Missing | Null | Str(s: string)

  /** One structural element of a parsed page, kept as its JSON text: the
      parser never looks inside it. */
  datatype Element = Element(json: string)

  /** The `content` object of a batch; each field is absent or a string. */
  datatype Content = Content(html: Option<string>, markdown: Option<string>, text: Option<string>)

  /** The `usage` object of a batch. */
  datatype Usage = Usage(pages: Option<int>)

  /** The JSON object one batch download decodes to. */
  datatype Part = Part(
    api: JsonText,
    model: JsonText,
    content: Option<Content>,
    elements: Option<seq<Element>>,
    usage: Option<Usage>)

  datatype Body = NotJson | Json(part: Part)

  /** What `requests.get(url)` on a batch URL gives: either it raises a
      transport exception, or a response with a status code and a body. */
  datatype Download = Unreachable | Response(statusCode: int, body: Body)

  /** One entry of the `batches` list of a completed job. */
  datatype Batch = Batch(downloadUrl: Option<Url>)

  /** The JSON object of a status query. */
  datatype StatusReply = StatusReply(
    status: Option<string>,
    completedPages: Option<int>,
    totalPages: Option<int>,
    batches: Option<seq<Batch>>)

  /** A status query either raises a `requests.RequestException` (transport
      failure, a non-2xx status through `raise_for_status`, or a body that is
      not JSON) or yields a status object. */
  datatype PollReply = PollUnreachable | PollOk(data: StatusReply)

  /** The submission request: it raises a `RequestException`, or yields a
      JSON object (its string-valued fields). */
  datatype SubmitReply = SubmitUnreachable | SubmitOk(body: map<string, string>)

  /** The merged result of a completed job. */
  datatype Document = Document(
    api: string,
    model: string,
    html: string,
    markdown: string,
    text: string,
    elements: seq<Element>,
    pages: int)

  /** One error kind per way the parser raises. */
  datatype Error =
    | MetadataUnavailable                       // _get_file_metadata raised
    | SubmitRequestFailed                       // "API request failed"
    | MissingRequestId(response: map<string, string>)
    | PollRequestFailed                         // "Polling request failed"
    | MissingProgress                           // KeyError on completed_pages / total_pages
    | MissingDownloadUrl                        // KeyError on download_url
    | ProcessingFailed                          // "Document processing failed."
    | TimedOut                                  // "Document processing timed out."
    | NoValidData                               // "No valid data retrieved ..."

  /** The three textual representations concatenated by the merge. */
  datatype TextField = Html | Markdown | Text

  /** `part.get("api", "")`: a missing key reads as "", a JSON null as None. */
  function HeaderValue(t: JsonText): Option<string>
  {
    match t
    case Missing => Some("")
    case Null => None
    case Str(s) => Some(s)
  }

  /** `part.get("content", {}).get(field, "")`. */
  function TextOf(p: Part, f: TextField): string
  {
    match p.content
    case None => ""
    case Some(c) =>
      match f
      case Html => c.html.GetOr("")
      case Markdown => c.markdown.GetOr("")
      case Text => c.text.GetOr("")
  }

  /** `part.get("elements", [])`. */
  function ElementsOf(p: Part): seq<Element>
  {
    p.elements.GetOr([])
  }

  /** `part.get("usage", {}).get("pages", 0)`. */
  function PagesOf(p: Part): int
  {
    match p.usage
    case None => 0
    case Some(u) => u.pages.GetOr(0)
  }

  /** The part a download contributes: only a 200 response whose body is JSON. */
  function Parsed(d: Download): Option<Part>
  {
    if d.Response? && d.statusCode == 200 && d.body.Json? then Some(d.body.part) else None
  }
}
