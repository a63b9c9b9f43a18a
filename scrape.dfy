/** `webscrap` (app.py): one fetch-and-extract attempt per URL, each failure
    skipped on its own, the extracted texts joined with a fixed separator.
    The fetch and extraction library calls are not modelled; each URL's
    outcome is an input. */
module Scrape {
  import opened Common

  /** The separator placed between the texts of two pages. */
  const Separator := "\n\n---\n\n"

  /** What the attempt on one URL came to. */
  datatype ScrapeOutcome =
    | Raised                                 // fetching or extracting raised an exception
    | NotDownloaded                          // the fetch gave nothing (None or "")
    | Downloaded(extracted: Option<string>)  // the fetch gave a page; what extraction returned

  /** The attempt yields text to keep: a page was fetched and extraction
      returned a truthy (non-empty) string. */
  predicate Succeeded(o: ScrapeOutcome) {
    o.Downloaded? && o.extracted.Some? && o.extracted.value != ""
  }

  /** The text an attempt contributes, if any. */
  function TextOf(o: ScrapeOutcome): Option<string> {
    if Succeeded(o) then Some(o.extracted.value) else None
  }

  /** The texts of the successful attempts, in URL order. */
  function Successes(outcomes: seq<ScrapeOutcome>): (texts: seq<string>)
    ensures |texts| <= |outcomes|
    ensures forall k :: 0 <= k < |texts| ==> texts[k] != ""
  {
    KeptTextsNonEmpty(outcomes);
    FilterMap(outcomes, TextOf)
  }

  /** Only non-empty texts pass the truthiness test. */
  lemma KeptTextsNonEmpty(outcomes: seq<ScrapeOutcome>)
    ensures forall k :: 0 <= k < |FilterMap(outcomes, TextOf)| ==> FilterMap(outcomes, TextOf)[k] != ""
  {
    var idx := FilterMapIndices(outcomes, TextOf);
  }

  /** The aggregated context that `webscrap` returns for these outcomes. */
  function Aggregate(outcomes: seq<ScrapeOutcome>): (context: string)
    ensures context == "" <==> Successes(outcomes) == []
  {
    JoinEmpty(Successes(outcomes), Separator);
    Join(Successes(outcomes), Separator)
  }

  /** The appended texts are exactly those of the successful attempts, in
      URL order, each of them non-empty; every failed attempt is skipped. */
  lemma SuccessesExact(outcomes: seq<ScrapeOutcome>) returns (idx: seq<nat>)
    ensures |idx| == |Successes(outcomes)| <= |outcomes|
    ensures forall k :: 0 <= k < |idx| ==>
      idx[k] < |outcomes| && Succeeded(outcomes[idx[k]]) &&
      Successes(outcomes)[k] == outcomes[idx[k]].extracted.value
    ensures forall k :: 0 <= k < |idx| ==> Successes(outcomes)[k] != ""
    ensures forall k, l :: 0 <= k < l < |idx| ==> idx[k] < idx[l]
    ensures forall j :: 0 <= j < |outcomes| && Succeeded(outcomes[j]) ==> j in idx
  {
    idx := FilterMapIndices(outcomes, TextOf);
    forall j | 0 <= j < |outcomes| && Succeeded(outcomes[j]) ensures j in idx {
      assert TextOf(outcomes[j]).Some?;
    }
  }

  /** Failure isolation: a failed attempt anywhere in the list leaves the
      aggregated context exactly as if that URL had not been in the list. */
  lemma FailureIsolation(before: seq<ScrapeOutcome>, failed: ScrapeOutcome, after: seq<ScrapeOutcome>)
    requires !Succeeded(failed)
    ensures Aggregate(before + [failed] + after) == Aggregate(before + after)
  {
    FilterMapAppend(before + [failed], after, TextOf);
    FilterMapAppend(before, [failed], TextOf);
    FilterMapAppend(before, after, TextOf);
    FilterMapSingle(failed, TextOf);
    assert Successes(before + [failed]) == Successes(before);
  }

  /** Each success contributes independently: the context of two lists of
      attempts is the two contexts with one separator between them, or just
      one of them when the other has no success. */
  lemma AggregateAppend(a: seq<ScrapeOutcome>, b: seq<ScrapeOutcome>)
    ensures Aggregate(a + b) ==
      if Successes(a) == [] then Aggregate(b)
      else if Successes(b) == [] then Aggregate(a)
      else Aggregate(a) + Separator + Aggregate(b)
  {
    FilterMapAppend(a, b, TextOf);
    if Successes(a) == [] {
      assert Successes(a + b) == Successes(b);
    } else if Successes(b) == [] {
      assert Successes(a + b) == Successes(a);
    } else {
      JoinConcat(Successes(a), Successes(b), Separator);
    }
  }

  /** The context is empty exactly when every attempt failed, which
      includes the case of no URLs at all. */
  lemma AggregateEmpty(outcomes: seq<ScrapeOutcome>)
    ensures Aggregate(outcomes) == "" <==> forall j :: 0 <= j < |outcomes| ==> !Succeeded(outcomes[j])
  {
    var _ := SuccessesExact(outcomes);
    JoinEmpty(Successes(outcomes), Separator);
    FilterMapEmpty(outcomes, TextOf);
    assert forall j :: 0 <= j < |outcomes| ==> (TextOf(outcomes[j]).None? <==> !Succeeded(outcomes[j]));
  }

  /** Three URLs of which the middle one fails: the context is the first
      and the third text around one separator. */
  lemma MiddleFailure(a: string, failed: ScrapeOutcome, c: string)
    requires a != "" && c != "" && !Succeeded(failed)
    ensures Aggregate([Downloaded(Some(a)), failed, Downloaded(Some(c))]) == a + Separator + c
  {
    var first, last := Downloaded(Some(a)), Downloaded(Some(c));
    FailureIsolation([first], failed, [last]);
    assert [first] + [failed] + [last] == [first, failed, last];
    FilterMapAppend([first], [last], TextOf);
    FilterMapSingle(first, TextOf);
    FilterMapSingle(last, TextOf);
    assert Successes([first] + [last]) == [a, c];
    assert [a, c][1..] == [c];
    assert Join([a, c], Separator) == a + Separator + c;
  }

  /** The `for url in urls` loop of `webscrap`: `mainContents` collects the
      kept texts, `successfulScrapes` counts them. Returns the joined texts
      and the count, which the source only logs. */
  method Webscrap(urls: seq<string>, outcomes: seq<ScrapeOutcome>) returns (joined: string, successfulScrapes: nat)
    requires |outcomes| == |urls|
    ensures joined == Aggregate(outcomes)
    ensures successfulScrapes == |Successes(outcomes)| <= |urls|
  {
    var mainContents: seq<string> := [];
    successfulScrapes := 0;
    for i := 0 to |urls|
      invariant mainContents == Successes(outcomes[..i])
      invariant successfulScrapes == |mainContents|
    {
      assert outcomes[..i + 1][..i] == outcomes[..i];
      var outcome := outcomes[i];
      if outcome.Downloaded? {
        var extracted := outcome.extracted;
        if extracted.Some? && extracted.value != "" {
          mainContents := mainContents + [extracted.value];
          successfulScrapes := successfulScrapes + 1;
        }
      }
    }
    assert outcomes[..|urls|] == outcomes;
    joined := Join(mainContents, Separator);
  }
}
