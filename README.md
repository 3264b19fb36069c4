# Asynchronous document-parse job lifecycle

A Dafny model of the asynchronous parser of KoDocAI (`UpstageAsyncPDFParser` in
`src/document_parse_async.py`). The parser submits a document to a parsing service
and gets back a job identifier. It polls the job's status a bounded number of
times. When the job completes, it downloads the job's result batches and merges
them into one document record.

The network is abstracted away:
- the submission reply is a value;
- `statusReply(requestId, k)` is the reply to the k-th status query;
- `fetch(url)` is the outcome of the GET on a batch URL.

Sleeping is counted, not performed. Each way the parser raises is one
constructor of `JobTypes.Error`.

Modules:
- `Wrappers`: Option and Result.
- `JobTypes`: the JSON records the parser reads. Optional fields mirror its
  `.get(key, default)` calls.
- `BatchMerge`: the download-and-merge loop. `MergeSpec` is its specification,
  built from reference definitions: the contributing batches, the in-order
  concatenations and the page sum.
- `JobPolling`: the polling loop. `PollSpec` is its specification.
- `AsyncParser`: the `request_id` check of the submission and `parse_document`'s
  error wrapping.

Three points where the code's behaviour is easy to misread; the model follows the code:
- A batch GET that raises a transport exception is not skipped. The exception
  escapes the merge loop (src/document_parse_async.py:117). The poll's
  `except requests.RequestException` then reports it as a failed polling
  request (src/document_parse_async.py:93-94). Only a non-200 answer or a body
  that is not JSON is skipped.
- The progress line reads `completed_pages` and `total_pages` with `[]`. For a
  `completed` or non-terminal status without those keys, that is a KeyError
  (`MissingProgress`). A batch without `download_url` is a KeyError too
  (`MissingDownloadUrl`).
- A batch 0 whose `api` or `model` is JSON `null` leaves that field `None`, so
  the merge raises "No valid data retrieved". An absent key reads as `""` and
  does not raise.

## Model

| member | source | states |
|---|---|---|
| `BatchMerge.DownloadAndMergeResults` | src/document_parse_async.py:98-148 | the loop's result equals `MergeSpec` of the downloads in URL order: a raising GET aborts; otherwise `api`/`model` come from batch 0, the three texts and the elements are in-order concatenations over the 200+JSON batches, the pages are their sum, and a missing header is "No valid data" |
| `BatchMerge.AccumulatedSnoc` | src/document_parse_async.py:114-142 | one loop step: a skipped batch leaves the record unchanged; a contributing batch appends its html/markdown/text and elements, adds its pages (absent ones read as "", [] and 0), and sets the header only at index 0 |
| `BatchMerge.MergeSucceedsIff` | src/document_parse_async.py:117-145 | the merge succeeds exactly when no GET raised and batch 0 answered 200 with JSON whose `api` and `model` are not null; a failure is the transport error when a GET raised and "No valid data" otherwise |
| `BatchMerge.EmptyUrlListFails` | src/document_parse_async.py:100-145 | an empty URL list always raises "No valid data retrieved" |
| `BatchMerge.FirstBatchLostFails` | src/document_parse_async.py:119-145 | when batch 0 is non-200 or not JSON, the merge fails with "No valid data" whatever the later batches answer, as long as no GET raises |
| `BatchMerge.MissingHeaderKeysReadEmpty` | src/document_parse_async.py:123-145 | batch 0 without `api`/`model` keys yields a document with both set to "" instead of raising |
| `BatchMerge.MergePreservesBatchOrder` | src/document_parse_async.py:128-137 | for a batch list split in two, each merged text field and the elements are the first part's concatenation followed by the second's, and the pages add up |
| `BatchMerge.SkippedBatchChangesNothing` | src/document_parse_async.py:117-142 | inserting a non-200 or non-JSON batch after batch 0 leaves the merge result unchanged |
| `BatchMerge.OnlyFirstBatchContributes` | src/document_parse_async.py:114-148 | partial success: batch 0 with a usable header and every later batch skipped gives exactly batch 0's content, elements and pages |
| `JobPolling.DownloadUrls` | src/document_parse_async.py:86 | the URL list is the batches' `download_url`s in batch order, and fails with a KeyError exactly when some batch lacks one |
| `JobPolling.Classify` | src/document_parse_async.py:78-94 | one loop pass continues exactly on a reply whose status is neither `completed` nor `failed` and has both progress counters; `failed` stops with the processing error, a raising query with the polling error, and no pass ever yields the timeout |
| `JobPolling.PollForResults` | src/document_parse_async.py:74-96 | the loop's result, query count and sleep count equal `PollSpec` |
| `JobPolling.PollBounded` | src/document_parse_async.py:77-96 | at most `max_attempts` queries (none when it is not positive); a sleep follows every query except the stopping one; a timeout comes after exactly `max_attempts` queries and sleeps |
| `JobPolling.NoAttemptsTimesOut` | src/document_parse_async.py:77-96 | with `max_attempts <= 0` the loop times out with no query and no sleep |
| `JobPolling.PollTimesOutIff` | src/document_parse_async.py:77-96 | the loop times out if and only if none of the first `max_attempts` replies stops it |
| `JobPolling.PollStopsAtFirstTerminal` | src/document_parse_async.py:77-95 | the first stopping reply, at attempt k, decides the result, after k + 1 queries and k sleeps |
| `JobPolling.CompletedReturnsMerge` | src/document_parse_async.py:84-87 | a `completed` status at attempt k returns the merge of its batches' URLs in list order, with no sleep after it |
| `JobPolling.FailedIsFatal` | src/document_parse_async.py:88-89 | a `failed` status at attempt k raises the processing error at once: k + 1 queries, and no download affects the result |
| `JobPolling.PollTransportErrorIsFatal` | src/document_parse_async.py:78-94 | a status query that raises ends the loop with the polling error; it is not retried |
| `AsyncParser.UploadFileAsync` | src/document_parse_async.py:49-71 | returns `request_id` exactly when the reply has that key; otherwise the missing-identifier error carrying the full reply, or the request error when the request raised |
| `AsyncParser.ParseDocument` | src/document_parse_async.py:16-35 | metadata, then submission, then polling with 300 attempts; the first failing step's error comes back wrapped, and success pairs the metadata with the merged document |
| `AsyncParser.TwoBatchJob` | src/document_parse_async.py:74-148 | running (5/10) then completed with two batches of 5 pages from "upstage"/"docparse-v1" gives that header, 10 pages and URL-ordered content, after 2 queries and 1 sleep |

## Left out

- `_get_file_metadata` (os.stat and time formatting): its outcome is an input to `ParseDocument`. `None` stands for "it raised".
- The HTTP calls, `response.json()` and `time.sleep`: replaced by the reply values and functions above, and by a sleep counter.
- Authorization headers, endpoint URLs, the API key and the submission's form options: they only shape the requests.
- `poll_interval`: it only sets how long each counted sleep lasts.
- Logger calls and progress `print`s. The progress line is kept only for the KeyError it raises when a counter is missing.
- JSON values of other types than the model gives them: the model types these fields, and in the source some such values raise while others are carried along.
  - A null or non-string `html`, `markdown` or `text` raises TypeError on `+=`, and a status reply, batch part or `content` that is not an object raises AttributeError on `.get`.
  - A non-string `request_id` is returned unchanged (src/document_parse_async.py:69) and used in the status URL (src/document_parse_async.py:79).
  - A string `elements` is extended character by character (src/document_parse_async.py:134).
  - A float `pages` is added like an integer (src/document_parse_async.py:137).
  - A JSON-null `completed_pages` or `total_pages` in a `completed` reply prints "None", and the download and merge go ahead (src/document_parse_async.py:85-87). The model can express only a missing counter, which is `MissingProgress`.
  - A JSON-null `completed_pages` or `total_pages` in any other non-`failed` reply prints "None", and the loop sleeps and queries again (src/document_parse_async.py:91-92). The model can express only a missing counter, which is `MissingProgress`.
  - A submit body that is a JSON string without the substring `request_id` raises the missing-identifier error (src/document_parse_async.py:66-67). One that contains it raises TypeError at `response_json["request_id"]` (src/document_parse_async.py:69).
  - A submit body that is JSON `null` or a number raises TypeError at the `in` test (src/document_parse_async.py:66).
- Opening the file for upload (an OSError there) is not modelled. The metadata step has already found the file.
- Repeated GETs: `fetch` gives every GET of the same URL the same outcome. The source does not promise that when a URL occurs twice in `download_urls`; no merge lemma depends on it, as they are all stated over the list of download outcomes.
- The source uses double quotes inside double-quoted f-strings (src/document_parse_async.py:85, 91), which Python accepts only from version 3.12 on; the model assumes Python 3.12 or later.
- The exception messages: each error is its kind only, with the full reply carried for the missing `request_id`.
- src/document_parse.py (the synchronous parser) and src/main.py (prompt loop, HTML comparison page, JSON saving) are not part of this model.
