/** `get_additional_data` (app.py): search, select the URLs, scrape them.
    Every failure on the way ends in the empty context, never in an error. */
module Gather {
  import opened Common
  import opened Search
  import opened Scrape

  /** The context `get_additional_data` returns for a search outcome and the
      per-URL outcomes of the pages it would scrape. */
  function AdditionalData(search: SearchOutcome, outcomes: seq<ScrapeOutcome>): (context: string)
    ensures context != "" ==>
      && search.SearchReturned?
      && SelectUrls(search.items) != []
      && exists j :: 0 <= j < |outcomes| && Succeeded(outcomes[j])
  {
    AggregateEmpty(outcomes);
    match search
    case SearchRaised => ""
    case SearchReturned(items) => if SelectUrls(items) == [] then "" else Aggregate(outcomes)
  }

  /** The per-URL outcomes line up with the URLs the search yields. */
  predicate OutcomesFit(search: SearchOutcome, outcomes: seq<ScrapeOutcome>) {
    search.SearchReturned? ==> |outcomes| == |SelectUrls(search.items)|
  }

  /** The search step followed by `webscrap` on the URLs it found; no URL
      means no scraping and the empty context. */
  method GetAdditionalData(search: SearchOutcome, outcomes: seq<ScrapeOutcome>) returns (context: string)
    requires OutcomesFit(search, outcomes)
    ensures context == AdditionalData(search, outcomes)
  {
    if search.SearchRaised? {
      return "";
    }
    var urls := SelectUrls(search.items);
    if urls == [] {
      return "";
    }
    var successfulScrapes;
    context, successfulScrapes := Webscrap(urls, outcomes);
  }

  /** The context is empty exactly when the search raised, no item had a
      URL, or every URL failed. */
  lemma AdditionalDataEmpty(search: SearchOutcome, outcomes: seq<ScrapeOutcome>)
    ensures AdditionalData(search, outcomes) == "" <==>
      || search.SearchRaised?
      || (forall j :: 0 <= j < |search.items| ==> !HasUrl(search.items[j]))
      || (forall j :: 0 <= j < |outcomes| ==> !Succeeded(outcomes[j]))
  {
    if search.SearchReturned? {
      SelectUrlsEmpty(search.items);
      AggregateEmpty(outcomes);
    }
  }

  /** A query whose search yields two URLs, the first page giving "T1" and
      the second failing: the context is "T1" alone. */
  lemma OneOfTwoScraped(u1: string, u2: string, failed: ScrapeOutcome)
    requires u1 != "" && u2 != "" && !Succeeded(failed)
    ensures AdditionalData(SearchReturned([ResultItem(Some(u1)), ResultItem(Some(u2))]),
                           [Downloaded(Some("T1")), failed]) == "T1"
  {
    var items := [ResultItem(Some(u1)), ResultItem(Some(u2))];
    var idx := SelectUrlsExact(items);
    assert 0 in idx;
    assert SelectUrls(items) != [];
    FailureIsolation([Downloaded(Some("T1"))], failed, []);
    assert [Downloaded(Some("T1"))] + [failed] + [] == [Downloaded(Some("T1")), failed];
    FilterMapSingle(Downloaded(Some("T1")), TextOf);
    assert [Downloaded(Some("T1"))] + [] == [Downloaded(Some("T1"))];
  }
}
