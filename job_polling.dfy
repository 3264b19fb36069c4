/** The bounded status-polling loop of a submitted job
    (`_poll_for_results`): up to `max_attempts` status queries, stopping at
    the first terminal status, sleeping after every other one. */
module JobPolling {
  import opened Wrappers
  import opened JobTypes
  import opened BatchMerge

  /** Status queries made at most when the caller gives no bound. */
  const DefaultMaxAttempts := 300

  /** `[batch["download_url"] for batch in batches]`: the URLs in batch
      order, or the KeyError of the first batch without one. */
  function DownloadUrls(batches: seq<Batch>): (r: Result<seq<Url>, Error>)
    ensures r.Success? <==> forall i :: 0 <= i < |batches| ==> batches[i].downloadUrl.Some?
    ensures r.Failure? ==> r.error == MissingDownloadUrl
    ensures r.Success? ==>
      && |r.value| == |batches|
      && forall i :: 0 <= i < |batches| ==> r.value[i] == batches[i].downloadUrl.value
  {
    if batches == [] then Success([])
    else match batches[0].downloadUrl
      case None => Failure(MissingDownloadUrl)
      case Some(url) =>
        match DownloadUrls(batches[1..])
        case Failure(e) => Failure(e)
        case Success(rest) => Success([url] + rest)
  }

  /** Both counters the progress line prints are present. */
  predicate HasProgress(s: StatusReply)
  {
    s.completedPages.Some? && s.totalPages.Some?
  }

  /** What one pass of the loop body does with a status reply: sleep and go
      on, or stop with a result. */
  datatype Step = Continue | Stop(result: Result<Document, Error>)

  /** One pass of the loop body. A transport failure and a `failed` status
      stop at once; `completed` prints the progress line, collects the
      batch URLs and returns the merge; any other or missing status prints
      the progress line and sleeps. Printing a counter that is absent
      raises a KeyError. */
  function Classify(reply: PollReply, fetch: Url -> Download): (s: Step)
    ensures s.Continue? <==>
      && reply.PollOk?
      && reply.data.status != Some("completed")
      && reply.data.status != Some("failed")
      && HasProgress(reply.data)
    ensures s.Stop? && s.result.Failure? ==> s.result.error != TimedOut
    ensures reply.PollOk? && reply.data.status == Some("failed") ==> s == Stop(Failure(ProcessingFailed))
    ensures reply.PollUnreachable? ==> s == Stop(Failure(PollRequestFailed))
  {
    match reply
    case PollUnreachable => Stop(Failure(PollRequestFailed))
    case PollOk(data) =>
      if data.status == Some("completed") then
        if !HasProgress(data) then Stop(Failure(MissingProgress))
        else
          match DownloadUrls(data.batches.GetOr([]))
          case Failure(e) => Stop(Failure(e))
          case Success(urls) => Stop(MergeSpec(Downloads(urls, fetch)))
      else if data.status == Some("failed") then Stop(Failure(ProcessingFailed))
      else if !HasProgress(data) then Stop(Failure(MissingProgress))
      else Continue
  }

  /** The outcome of the loop with the number of status queries made and
      the number of sleeps taken. */
  datatype PollRun = PollRun(result: Result<Document, Error>, queries: nat, sleeps: nat)

  /** The loop from attempt `attempt` on, every earlier attempt having
      slept. */
  function PollFrom(requestId: string, statusReply: (string, nat) -> PollReply, fetch: Url -> Download,
                    attempt: nat, maxAttempts: int): PollRun
    decreases maxAttempts - attempt
  {
    if attempt >= maxAttempts then PollRun(Failure(TimedOut), attempt, attempt)
    else match Classify(statusReply(requestId, attempt), fetch)
      case Stop(result) => PollRun(result, attempt + 1, attempt)
      case Continue => PollFrom(requestId, statusReply, fetch, attempt + 1, maxAttempts)
  }

  /** The whole loop, `for attempt in range(max_attempts)`. */
  function PollSpec(requestId: string, statusReply: (string, nat) -> PollReply, fetch: Url -> Download,
                    maxAttempts: int): PollRun
  {
    PollFrom(requestId, statusReply, fetch, 0, maxAttempts)
  }

  lemma {:induction false} PollFromBounded(requestId: string, statusReply: (string, nat) -> PollReply,
                                          fetch: Url -> Download, attempt: nat, maxAttempts: int)
    ensures var run := PollFrom(requestId, statusReply, fetch, attempt, maxAttempts);
      && attempt <= run.queries <= (if attempt < maxAttempts then maxAttempts else attempt)
      && (run.result == Failure(TimedOut) ==>
            run.sleeps == run.queries == (if attempt < maxAttempts then maxAttempts else attempt))
      && (run.result != Failure(TimedOut) ==> run.sleeps + 1 == run.queries)
    decreases maxAttempts - attempt
  {
    if attempt < maxAttempts && Classify(statusReply(requestId, attempt), fetch).Continue? {
      PollFromBounded(requestId, statusReply, fetch, attempt + 1, maxAttempts);
    }
  }

  /** At most `max_attempts` status queries (none when it is not
      positive); a sleep follows every query except the one that stops the
      loop, and a timeout comes after sleeping `max_attempts` times. */
  lemma PollBounded(requestId: string, statusReply: (string, nat) -> PollReply, fetch: Url -> Download,
                    maxAttempts: int)
    ensures var run := PollSpec(requestId, statusReply, fetch, maxAttempts);
      && run.queries <= (if maxAttempts < 0 then 0 else maxAttempts)
      && run.sleeps <= run.queries
      && (run.result == Failure(TimedOut) ==> run.sleeps == run.queries == (if maxAttempts < 0 then 0 else maxAttempts))
      && (run.result != Failure(TimedOut) ==> run.sleeps + 1 == run.queries)
  {
    PollFromBounded(requestId, statusReply, fetch, 0, maxAttempts);
  }

  /** With `max_attempts` not positive the loop times out without querying. */
  lemma NoAttemptsTimesOut(requestId: string, statusReply: (string, nat) -> PollReply, fetch: Url -> Download,
                           maxAttempts: int)
    requires maxAttempts <= 0
    ensures PollSpec(requestId, statusReply, fetch, maxAttempts) == PollRun(Failure(TimedOut), 0, 0)
  {
  }

  lemma {:induction false} PollFromTimesOutIff(requestId: string, statusReply: (string, nat) -> PollReply,
                                               fetch: Url -> Download, attempt: nat, maxAttempts: int)
    ensures PollFrom(requestId, statusReply, fetch, attempt, maxAttempts).result == Failure(TimedOut) <==>
      forall k :: attempt <= k < maxAttempts ==> Classify(statusReply(requestId, k), fetch).Continue?
    decreases maxAttempts - attempt
  {
    if attempt < maxAttempts && Classify(statusReply(requestId, attempt), fetch).Continue? {
      PollFromTimesOutIff(requestId, statusReply, fetch, attempt + 1, maxAttempts);
    }
  }

  /** The loop times out exactly when none of the first `max_attempts`
      replies stops it. */
  lemma PollTimesOutIff(requestId: string, statusReply: (string, nat) -> PollReply, fetch: Url -> Download,
                        maxAttempts: int)
    ensures PollSpec(requestId, statusReply, fetch, maxAttempts).result == Failure(TimedOut) <==>
      forall k :: 0 <= k < maxAttempts ==> Classify(statusReply(requestId, k), fetch).Continue?
  {
    PollFromTimesOutIff(requestId, statusReply, fetch, 0, maxAttempts);
  }

  lemma {:induction false} PollFromStopsAt(requestId: string, statusReply: (string, nat) -> PollReply,
                                           fetch: Url -> Download, attempt: nat, k: nat, maxAttempts: int)
    requires attempt <= k < maxAttempts
    requires forall j :: attempt <= j < k ==> Classify(statusReply(requestId, j), fetch).Continue?
    requires Classify(statusReply(requestId, k), fetch).Stop?
    ensures PollFrom(requestId, statusReply, fetch, attempt, maxAttempts)
      == PollRun(Classify(statusReply(requestId, k), fetch).result, k + 1, k)
    decreases k - attempt
  {
    if attempt < k {
      PollFromStopsAt(requestId, statusReply, fetch, attempt + 1, k, maxAttempts);
    }
  }

  /** The first reply that stops the loop decides the result; it is query
      number k + 1 and no sleep follows it. */
  lemma PollStopsAtFirstTerminal(requestId: string, statusReply: (string, nat) -> PollReply,
                                 fetch: Url -> Download, k: nat, maxAttempts: int)
    requires k < maxAttempts
    requires forall j :: 0 <= j < k ==> Classify(statusReply(requestId, j), fetch).Continue?
    requires Classify(statusReply(requestId, k), fetch).Stop?
    ensures PollSpec(requestId, statusReply, fetch, maxAttempts)
      == PollRun(Classify(statusReply(requestId, k), fetch).result, k + 1, k)
  {
    PollFromStopsAt(requestId, statusReply, fetch, 0, k, maxAttempts);
  }

  /** A `completed` status at attempt k returns the merge of its batches'
      download URLs in list order, after k sleeps and none after it. */
  lemma CompletedReturnsMerge(requestId: string, statusReply: (string, nat) -> PollReply,
                              fetch: Url -> Download, k: nat, maxAttempts: int)
    requires k < maxAttempts
    requires forall j :: 0 <= j < k ==> Classify(statusReply(requestId, j), fetch).Continue?
    requires statusReply(requestId, k).PollOk?
    requires var s := statusReply(requestId, k).data;
      s.status == Some("completed") && HasProgress(s) && DownloadUrls(s.batches.GetOr([])).Success?
    ensures var urls := DownloadUrls(statusReply(requestId, k).data.batches.GetOr([])).value;
      PollSpec(requestId, statusReply, fetch, maxAttempts) == PollRun(MergeSpec(Downloads(urls, fetch)), k + 1, k)
  {
    PollStopsAtFirstTerminal(requestId, statusReply, fetch, k, maxAttempts);
  }

  /** A `failed` status at attempt k raises at once: no further query and,
      whatever the batch downloads would give, no merge. */
  lemma FailedIsFatal(requestId: string, statusReply: (string, nat) -> PollReply,
                      fetch: Url -> Download, k: nat, maxAttempts: int)
    requires k < maxAttempts
    requires forall j :: 0 <= j < k ==> Classify(statusReply(requestId, j), fetch).Continue?
    requires statusReply(requestId, k).PollOk? && statusReply(requestId, k).data.status == Some("failed")
    ensures PollSpec(requestId, statusReply, fetch, maxAttempts) == PollRun(Failure(ProcessingFailed), k + 1, k)
  {
    PollStopsAtFirstTerminal(requestId, statusReply, fetch, k, maxAttempts);
  }

  /** A status query that raises is fatal: it is not retried. */
  lemma PollTransportErrorIsFatal(requestId: string, statusReply: (string, nat) -> PollReply,
                                  fetch: Url -> Download, k: nat, maxAttempts: int)
    requires k < maxAttempts
    requires forall j :: 0 <= j < k ==> Classify(statusReply(requestId, j), fetch).Continue?
    requires statusReply(requestId, k).PollUnreachable?
    ensures PollSpec(requestId, statusReply, fetch, maxAttempts) == PollRun(Failure(PollRequestFailed), k + 1, k)
  {
    PollStopsAtFirstTerminal(requestId, statusReply, fetch, k, maxAttempts);
  }

  /** The polling loop. `statusReply(requestId, k)` is the reply to the
      k-th status query of the job; the sleep of `poll_interval` seconds
      is counted in `sleeps`. */
  method PollForResults(requestId: string, statusReply: (string, nat) -> PollReply, fetch: Url -> Download,
                        maxAttempts: int)
    returns (result: Result<Document, Error>, queries: nat, sleeps: nat)
    ensures PollRun(result, queries, sleeps) == PollSpec(requestId, statusReply, fetch, maxAttempts)
  {
    queries, sleeps := 0, 0;
    var attempt: nat := 0;
    while attempt < maxAttempts
      invariant queries == attempt && sleeps == attempt
      invariant PollSpec(requestId, statusReply, fetch, maxAttempts)
        == PollFrom(requestId, statusReply, fetch, attempt, maxAttempts)
      decreases maxAttempts - attempt
    {
      var reply := statusReply(requestId, attempt);
      queries := queries + 1;
      match reply
      case PollUnreachable =>
        return Failure(PollRequestFailed), queries, sleeps;
      case PollOk(data) =>
        if data.status == Some("completed") {
          if !HasProgress(data) {
            return Failure(MissingProgress), queries, sleeps;
          }
          var urls := DownloadUrls(data.batches.GetOr([]));
          if urls.Failure? {
            return Failure(urls.error), queries, sleeps;
          }
          result := DownloadAndMergeResults(urls.value, fetch);
          return;
        } else if data.status == Some("failed") {
          return Failure(ProcessingFailed), queries, sleeps;
        } else {
          if !HasProgress(data) {
            return Failure(MissingProgress), queries, sleeps;
          }
          sleeps := sleeps + 1;
        }
      attempt := attempt + 1;
    }
    result := Failure(TimedOut);
  }
}
