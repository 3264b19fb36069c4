/** Download-and-merge of the batches of a completed job
    (`_download_and_merge_results`): every batch URL is fetched in list
    order, and each batch that answers 200 with a JSON body is folded into
    one result record. */
module BatchMerge {
  import opened Wrappers
  import opened JobTypes

  /** The downloads the merge sees, one per URL, in list order. */
  function Downloads(urls: seq<Url>, fetch: Url -> Download): (ds: seq<Download>)
    ensures |ds| == |urls|
    ensures forall i :: 0 <= i < |urls| ==> ds[i] == fetch(urls[i])
  {
    seq(|urls|, i requires 0 <= i < |urls| => fetch(urls[i]))
  }

  /** The parts of the batches that contribute, in batch order: those that
      answered 200 and decoded as JSON. */
  function Successes(ds: seq<Download>): seq<Part>
  {
    if ds == [] then []
    else (match Parsed(ds[0]) case Some(p) => [p] case None => []) + Successes(ds[1..])
  }

  /** The in-order concatenation of one textual field over some parts. */
  function JoinText(parts: seq<Part>, f: TextField): string
  {
    if parts == [] then "" else TextOf(parts[0], f) + JoinText(parts[1..], f)
  }

  /** The in-order concatenation of the element lists of some parts. */
  function JoinElements(parts: seq<Part>): seq<Element>
  {
    if parts == [] then [] else ElementsOf(parts[0]) + JoinElements(parts[1..])
  }

  /** The sum of the page counts of some parts. */
  function SumPages(parts: seq<Part>): int
  {
    if parts == [] then 0 else PagesOf(parts[0]) + SumPages(parts[1..])
  }

  /** Some GET raised: the exception escapes the merge. */
  predicate AnyUnreachable(ds: seq<Download>)
  {
    exists i | 0 <= i < |ds| :: ds[i].Unreachable?
  }

  /** The record the merge builds (`merged_content`): `api` and `model`
      are None until batch 0 sets them. */
  datatype Merged = Merged(
    api: Option<string>,
    model: Option<string>,
    html: string,
    markdown: string,
    text: string,
    elements: seq<Element>,
    pages: int)

  /** The record before any batch is seen. */
  const Empty := Merged(None, None, "", "", "", [], 0)

  /** The `api` value the merge ends with: set only by batch 0, and only
      when batch 0 contributes. */
  function HeaderApi(ds: seq<Download>): Option<string>
  {
    if |ds| > 0 && Parsed(ds[0]).Some? then HeaderValue(Parsed(ds[0]).value.api) else None
  }

  /** The `model` value the merge ends with, by the same rule as `api`. */
  function HeaderModel(ds: seq<Download>): Option<string>
  {
    if |ds| > 0 && Parsed(ds[0]).Some? then HeaderValue(Parsed(ds[0]).value.model) else None
  }

  /** The record after a list of downloads none of which raised: the header
      of batch 0, the in-order concatenations and the page sum over the
      contributing batches. */
  function Accumulated(ds: seq<Download>): Merged
  {
    var parts := Successes(ds);
    Merged(HeaderApi(ds), HeaderModel(ds),
      JoinText(parts, Html), JoinText(parts, Markdown), JoinText(parts, Text),
      JoinElements(parts), SumPages(parts))
  }

  /** What the merge of a list of downloads yields. A raising GET aborts it
      (the caller reports it as a failed polling request); otherwise the
      result is refused when `api` or `model` was never set, and is else
      the accumulated record. */
  function MergeSpec(ds: seq<Download>): Result<Document, Error>
  {
    if AnyUnreachable(ds) then Failure(PollRequestFailed)
    else
      var m := Accumulated(ds);
      if m.api.None? || m.model.None? then Failure(NoValidData)
      else Success(Document(m.api.value, m.model.value, m.html, m.markdown, m.text, m.elements, m.pages))
  }

  lemma {:induction false} SuccessesAppend(a: seq<Download>, b: seq<Download>)
    ensures Successes(a + b) == Successes(a) + Successes(b)
  {
    if a == [] {
      assert a + b == b;
    } else {
      assert (a + b)[1..] == a[1..] + b;
      SuccessesAppend(a[1..], b);
    }
  }

  lemma {:induction false} JoinTextAppend(a: seq<Part>, b: seq<Part>, f: TextField)
    ensures JoinText(a + b, f) == JoinText(a, f) + JoinText(b, f)
  {
    if a == [] {
      assert a + b == b;
    } else {
      assert (a + b)[1..] == a[1..] + b;
      JoinTextAppend(a[1..], b, f);
    }
  }

  lemma {:induction false} JoinElementsAppend(a: seq<Part>, b: seq<Part>)
    ensures JoinElements(a + b) == JoinElements(a) + JoinElements(b)
  {
    if a == [] {
      assert a + b == b;
    } else {
      assert (a + b)[1..] == a[1..] + b;
      JoinElementsAppend(a[1..], b);
    }
  }

  lemma {:induction false} SumPagesAppend(a: seq<Part>, b: seq<Part>)
    ensures SumPages(a + b) == SumPages(a) + SumPages(b)
  {
    if a == [] {
      assert a + b == b;
    } else {
      assert (a + b)[1..] == a[1..] + b;
      SumPagesAppend(a[1..], b);
    }
  }

  /** One more batch at index |ds|: a skipped one leaves the record as it
      is; a contributing one appends its fields, adds its pages, and sets
      the header only when it is batch 0. */
  lemma AccumulatedSnoc(ds: seq<Download>, d: Download)
    ensures Parsed(d).None? ==> Accumulated(ds + [d]) == Accumulated(ds)
    ensures Parsed(d).Some? ==>
      var p, m := Parsed(d).value, Accumulated(ds);
      Accumulated(ds + [d]) == Merged(
        if |ds| == 0 then HeaderValue(p.api) else m.api,
        if |ds| == 0 then HeaderValue(p.model) else m.model,
        m.html + TextOf(p, Html), m.markdown + TextOf(p, Markdown), m.text + TextOf(p, Text),
        m.elements + ElementsOf(p), m.pages + PagesOf(p))
  {
    SuccessesAppend(ds, [d]);
    assert [d][1..] == [];
    var a, b := Successes(ds), Successes([d]);
    JoinTextAppend(a, b, Html);
    JoinTextAppend(a, b, Markdown);
    JoinTextAppend(a, b, Text);
    JoinElementsAppend(a, b);
    SumPagesAppend(a, b);
    if |ds| > 0 {
      assert (ds + [d])[0] == ds[0];
    }
  }

  lemma {:induction false} NothingContributes(ds: seq<Download>)
    requires forall i :: 0 <= i < |ds| ==> Parsed(ds[i]).None?
    ensures Successes(ds) == []
  {
    if ds != [] {
      NothingContributes(ds[1..]);
    }
  }

  /** The merge succeeds exactly when no GET raised and batch 0 answered
      200 with JSON whose `api` and `model` are not null; an absent key does
      not make it fail. */
  lemma MergeSucceedsIff(ds: seq<Download>)
    ensures MergeSpec(ds).Success? <==>
      && !AnyUnreachable(ds)
      && |ds| > 0
      && Parsed(ds[0]).Some?
      && !Parsed(ds[0]).value.api.Null?
      && !Parsed(ds[0]).value.model.Null?
    ensures MergeSpec(ds).Failure? ==>
      MergeSpec(ds).error == (if AnyUnreachable(ds) then PollRequestFailed else NoValidData)
  {
  }

  /** An empty URL list always ends in "No valid data retrieved". */
  lemma EmptyUrlListFails(fetch: Url -> Download)
    ensures MergeSpec(Downloads([], fetch)) == Failure(NoValidData)
  {
  }

  /** A lost batch 0 (non-200 or not JSON) makes the whole merge fail,
      however many later batches succeed. */
  lemma FirstBatchLostFails(ds: seq<Download>)
    requires |ds| > 0 && Parsed(ds[0]).None?
    requires !AnyUnreachable(ds)
    ensures MergeSpec(ds) == Failure(NoValidData)
  {
  }

  /** Batch 0 without `api` and `model` keys still yields a document, with
      both read as the empty string. */
  lemma MissingHeaderKeysReadEmpty(ds: seq<Download>)
    requires |ds| > 0 && Parsed(ds[0]).Some?
    requires Parsed(ds[0]).value.api.Missing? && Parsed(ds[0]).value.model.Missing?
    requires !AnyUnreachable(ds)
    ensures MergeSpec(ds).Success?
    ensures MergeSpec(ds).value.api == "" && MergeSpec(ds).value.model == ""
  {
  }

  /** Splitting the batch list splits every merged field in the same order:
      the fields of earlier batches come first, and the page counts add. */
  lemma MergePreservesBatchOrder(a: seq<Download>, b: seq<Download>)
    requires MergeSpec(a + b).Success?
    ensures var d, sa, sb := MergeSpec(a + b).value, Successes(a), Successes(b);
      && d.html == JoinText(sa, Html) + JoinText(sb, Html)
      && d.markdown == JoinText(sa, Markdown) + JoinText(sb, Markdown)
      && d.text == JoinText(sa, Text) + JoinText(sb, Text)
      && d.elements == JoinElements(sa) + JoinElements(sb)
      && d.pages == SumPages(sa) + SumPages(sb)
  {
    SuccessesAppend(a, b);
    var sa, sb := Successes(a), Successes(b);
    JoinTextAppend(sa, sb, Html);
    JoinTextAppend(sa, sb, Markdown);
    JoinTextAppend(sa, sb, Text);
    JoinElementsAppend(sa, sb);
    SumPagesAppend(sa, sb);
  }

  /** A batch after the first that fails to download or is not JSON
      changes nothing in the result: it adds no content and no pages. */
  lemma SkippedBatchChangesNothing(a: seq<Download>, d: Download, b: seq<Download>)
    requires |a| > 0
    requires !d.Unreachable? && Parsed(d).None?
    ensures MergeSpec(a + [d] + b) == MergeSpec(a + b)
  {
    var with, without := a + [d] + b, a + b;
    SuccessesAppend(a + [d], b);
    SuccessesAppend(a, [d]);
    SuccessesAppend(a, b);
    assert [d][1..] == [];
    assert Successes([d]) == [];
    assert a + [d] + b == (a + [d]) + b;
    assert Successes(with) == Successes(without);
    assert with[0] == without[0] == a[0];
    assert HeaderApi(with) == HeaderApi(without) && HeaderModel(with) == HeaderModel(without);
    if AnyUnreachable(with) {
      var i :| 0 <= i < |with| && with[i].Unreachable?;
      if i < |a| {
        assert without[i] == with[i];
      } else {
        assert i > |a| && without[i - 1] == with[i];
      }
    }
    if AnyUnreachable(without) {
      var i :| 0 <= i < |without| && without[i].Unreachable?;
      if i < |a| {
        assert with[i] == without[i];
      } else {
        assert with[i + 1] == without[i];
      }
    }
    assert AnyUnreachable(with) == AnyUnreachable(without);
    assert Accumulated(with) == Accumulated(without);
  }

  /** Partial success: when batch 0 yields a usable header and every later
      batch is skipped, the document is batch 0's content alone. */
  lemma OnlyFirstBatchContributes(ds: seq<Download>)
    requires |ds| > 0 && Parsed(ds[0]).Some?
    requires !Parsed(ds[0]).value.api.Null? && !Parsed(ds[0]).value.model.Null?
    requires forall i :: 1 <= i < |ds| ==> !ds[i].Unreachable? && Parsed(ds[i]).None?
    ensures var p := Parsed(ds[0]).value;
      MergeSpec(ds) == Success(Document(
        HeaderValue(p.api).value, HeaderValue(p.model).value,
        TextOf(p, Html), TextOf(p, Markdown), TextOf(p, Text),
        ElementsOf(p), PagesOf(p)))
  {
    var p := Parsed(ds[0]).value;
    forall i | 0 <= i < |ds[1..]|
      ensures Parsed(ds[1..][i]).None?
    {
      assert ds[1..][i] == ds[i + 1];
    }
    NothingContributes(ds[1..]);
    assert Successes(ds) == [p];
    assert !AnyUnreachable(ds) by {
      forall i | 0 <= i < |ds|
        ensures !ds[i].Unreachable?
      {
      }
    }
    assert [p][1..] == [];
    assert JoinText([p], Html) == TextOf(p, Html);
    assert JoinText([p], Markdown) == TextOf(p, Markdown);
    assert JoinText([p], Text) == TextOf(p, Text);
    assert JoinElements([p]) == ElementsOf(p);
    assert SumPages([p]) == PagesOf(p);
  }

  /** The merge loop: one GET per URL in list order, the record updated in
      place for every batch that answers 200 with JSON. */
  method DownloadAndMergeResults(urls: seq<Url>, fetch: Url -> Download) returns (r: Result<Document, Error>)
    ensures r == MergeSpec(Downloads(urls, fetch))
  {
    ghost var ds := Downloads(urls, fetch);
    var merged := Empty;
    var idx := 0;
    while idx < |urls|
      invariant 0 <= idx <= |urls|
      invariant !AnyUnreachable(ds[..idx])
      invariant merged == Accumulated(ds[..idx])
    {
      var response := fetch(urls[idx]);
      if response.Unreachable? {
        assert ds[idx].Unreachable?;
        return Failure(PollRequestFailed);
      }
      assert ds[..idx + 1] == ds[..idx] + [response];
      AccumulatedSnoc(ds[..idx], response);
      if response.statusCode == 200 {
        match response.body
        case Json(part) =>
          if idx == 0 {
            merged := merged.(api := HeaderValue(part.api), model := HeaderValue(part.model));
          }
          merged := merged.(
            html := merged.html + TextOf(part, Html),
            markdown := merged.markdown + TextOf(part, Markdown),
            text := merged.text + TextOf(part, Text),
            elements := merged.elements + ElementsOf(part),
            pages := merged.pages + PagesOf(part));
        case NotJson =>
      }
      idx := idx + 1;
    }
    assert ds[..idx] == ds;
    if merged.api.None? || merged.model.None? {
      return Failure(NoValidData);
    }
    r := Success(Document(merged.api.value, merged.model.value,
      merged.html, merged.markdown, merged.text, merged.elements, merged.pages));
  }
}
