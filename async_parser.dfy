/** The asynchronous parser's entry point (`parse_document`): file
    metadata, job submission, then polling, with every failure re-raised
    under one wrapper. */
module AsyncParser {
  import opened Wrappers
  import opened JobTypes
  import opened BatchMerge
  import opened JobPolling

  /** The file's name and modification time, as `_get_file_metadata`
      reports them. */
  datatype FileMetadata = FileMetadata(fileName: string, fileTime: string)

  /** What `parse_document` returns. */
  datatype ParsedDocument = ParsedDocument(fileMetadata: FileMetadata, parsedContent: Document)

  /** The RuntimeError `parse_document` raises around whatever went wrong. */
  datatype ParseError = AsyncParseError(cause: Error)

  /** The job identifier out of the submission reply: a raised request
      exception, or a reply without `request_id` (reported with the whole
      reply), is an error. */
  function UploadFileAsync(reply: SubmitReply): (r: Result<string, Error>)
    ensures r.Success? <==> reply.SubmitOk? && "request_id" in reply.body
    ensures r.Success? ==> r.value == reply.body["request_id"]
    ensures reply.SubmitUnreachable? ==> r == Failure(SubmitRequestFailed)
    ensures reply.SubmitOk? && "request_id" !in reply.body ==> r == Failure(MissingRequestId(reply.body))
  {
    match reply
    case SubmitUnreachable => Failure(SubmitRequestFailed)
    case SubmitOk(body) =>
      if "request_id" !in body then Failure(MissingRequestId(body)) else Success(body["request_id"])
  }

  /** Metadata, submission, then polling with the default bound; the first
      failure is returned wrapped, and no later step runs. `metadata` is
      None when reading the file's metadata raised. */
  method ParseDocument(metadata: Option<FileMetadata>, submit: SubmitReply,
                       statusReply: (string, nat) -> PollReply, fetch: Url -> Download)
    returns (r: Result<ParsedDocument, ParseError>)
    ensures metadata.None? ==> r == Failure(AsyncParseError(MetadataUnavailable))
    ensures metadata.Some? && UploadFileAsync(submit).Failure? ==>
      r == Failure(AsyncParseError(UploadFileAsync(submit).error))
    ensures metadata.Some? && UploadFileAsync(submit).Success? ==>
      var run := PollSpec(UploadFileAsync(submit).value, statusReply, fetch, DefaultMaxAttempts);
      r == match run.result
           case Success(doc) => Success(ParsedDocument(metadata.value, doc))
           case Failure(e) => Failure(AsyncParseError(e))
  {
    if metadata.None? {
      return Failure(AsyncParseError(MetadataUnavailable));
    }
    var jobId := UploadFileAsync(submit);
    if jobId.Failure? {
      return Failure(AsyncParseError(jobId.error));
    }
    var result, _, _ := PollForResults(jobId.value, statusReply, fetch, DefaultMaxAttempts);
    match result
    case Success(doc) =>
      r := Success(ParsedDocument(metadata.value, doc));
    case Failure(e) =>
      r := Failure(AsyncParseError(e));
  }

  /** A two-batch job: the first status query says `running` (5 of 10
      pages), the second `completed` with two batch URLs, and both batches
      come back from "upstage" / "docparse-v1" with 5 pages each. The
      result has that header, 10 pages and every field in URL order; it
      took two queries and one sleep. */
  lemma TwoBatchJob(requestId: string, h1: string, h2: string, m1: string, m2: string,
                    t1: string, t2: string, e1: seq<Element>, e2: seq<Element>)
    ensures
      var running := PollOk(StatusReply(Some("running"), Some(5), Some(10), None));
      var completed := PollOk(StatusReply(Some("completed"), Some(10), Some(10),
                                          Some([Batch(Some("u1")), Batch(Some("u2"))])));
      var statusReply := (id: string, k: nat) => if k == 0 then running else completed;
      var part1 := Part(Str("upstage"), Str("docparse-v1"), Some(Content(Some(h1), Some(m1), Some(t1))),
                        Some(e1), Some(Usage(Some(5))));
      var part2 := Part(Str("upstage"), Str("docparse-v1"), Some(Content(Some(h2), Some(m2), Some(t2))),
                        Some(e2), Some(Usage(Some(5))));
      var fetch := (u: Url) => if u == "u1" then Response(200, Json(part1)) else Response(200, Json(part2));
      PollSpec(requestId, statusReply, fetch, DefaultMaxAttempts)
        == PollRun(Success(Document("upstage", "docparse-v1", h1 + h2, m1 + m2, t1 + t2, e1 + e2, 10)), 2, 1)
  {
    var running := PollOk(StatusReply(Some("running"), Some(5), Some(10), None));
    var completed := PollOk(StatusReply(Some("completed"), Some(10), Some(10),
                                        Some([Batch(Some("u1")), Batch(Some("u2"))])));
    var statusReply := (id: string, k: nat) => if k == 0 then running else completed;
    var part1 := Part(Str("upstage"), Str("docparse-v1"), Some(Content(Some(h1), Some(m1), Some(t1))),
                      Some(e1), Some(Usage(Some(5))));
    var part2 := Part(Str("upstage"), Str("docparse-v1"), Some(Content(Some(h2), Some(m2), Some(t2))),
                      Some(e2), Some(Usage(Some(5))));
    var fetch := (u: Url) => if u == "u1" then Response(200, Json(part1)) else Response(200, Json(part2));
    assert Classify(statusReply(requestId, 0), fetch).Continue?;
    var batches := [Batch(Some("u1")), Batch(Some("u2"))];
    assert forall i :: 0 <= i < |batches| ==> batches[i].downloadUrl.Some?;
    var urls := DownloadUrls(batches);
    assert urls.value[0] == "u1" && urls.value[1] == "u2" && |urls.value| == 2;
    assert urls.value == ["u1", "u2"];
    CompletedReturnsMerge(requestId, statusReply, fetch, 1, DefaultMaxAttempts);
    var ds := Downloads(["u1", "u2"], fetch);
    assert ds == [Response(200, Json(part1)), Response(200, Json(part2))];
    assert ds[1..][1..] == [];
    assert Successes(ds) == [part1, part2];
    assert !AnyUnreachable(ds);
    var parts := [part1, part2];
    assert parts[1..] == [part2] && parts[1..][1..] == [];
    assert JoinText(parts, Html) == h1 + h2;
    assert JoinText(parts, Markdown) == m1 + m2;
    assert JoinText(parts, Text) == t1 + t2;
    assert JoinElements(parts) == e1 + e2;
    assert SumPages(parts) == 10;
  }
}
