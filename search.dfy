/** The search step of `get_additional_data` (app.py): the provider's answer
    and the list of URLs taken from it. The provider call itself is not
    modelled; its outcome is an input. */
module Search {
  import opened Common

  /** One entry of the provider's "results" list. Only its "url" entry is
      read; `None` stands for a missing or null entry. */
  datatype ResultItem = ResultItem(url: Option<string>)

  /** What the search call produced: it raised, or it returned a list of
      items (a response without a "results" key reads as an empty list). */
  datatype SearchOutcome = SearchRaised | SearchReturned(items: seq<ResultItem>)

  /** `item.get("url")` is truthy: the entry is there and is not "". */
  predicate HasUrl(item: ResultItem) {
    item.url.Some? && item.url.value != ""
  }

  /** The URL an item contributes to the list, if any. */
  function UrlOf(item: ResultItem): Option<string> {
    if HasUrl(item) then Some(item.url.value) else None
  }

  /** `[item["url"] for item in results if item.get("url")]`. */
  function SelectUrls(items: seq<ResultItem>): (urls: seq<string>)
    ensures |urls| <= |items|
    ensures forall k :: 0 <= k < |urls| ==> urls[k] != ""
  {
    KeptUrlsNonEmpty(items);
    FilterMap(items, UrlOf)
  }

  /** Only non-empty URLs pass the truthiness test. */
  lemma KeptUrlsNonEmpty(items: seq<ResultItem>)
    ensures forall k :: 0 <= k < |FilterMap(items, UrlOf)| ==> FilterMap(items, UrlOf)[k] != ""
  {
    var idx := FilterMapIndices(items, UrlOf);
  }

  /** The URL list is exactly the URLs of the items that have one, in the
      provider's order; items without a URL are the only ones dropped, and
      no URL in the list is empty. */
  lemma SelectUrlsExact(items: seq<ResultItem>) returns (idx: seq<nat>)
    ensures |idx| == |SelectUrls(items)| <= |items|
    ensures forall k :: 0 <= k < |idx| ==>
      idx[k] < |items| && HasUrl(items[idx[k]]) && SelectUrls(items)[k] == items[idx[k]].url.value
    ensures forall k :: 0 <= k < |idx| ==> SelectUrls(items)[k] != ""
    ensures forall k, l :: 0 <= k < l < |idx| ==> idx[k] < idx[l]
    ensures forall j :: 0 <= j < |items| && HasUrl(items[j]) ==> j in idx
  {
    idx := FilterMapIndices(items, UrlOf);
    forall j | 0 <= j < |items| && HasUrl(items[j]) ensures j in idx {
      assert UrlOf(items[j]).Some?;
    }
  }

  /** Selection is order-preserving and item-local: the URLs of two result
      lists end to end are the URLs of each, end to end. */
  lemma SelectUrlsAppend(a: seq<ResultItem>, b: seq<ResultItem>)
    ensures SelectUrls(a + b) == SelectUrls(a) + SelectUrls(b)
  {
    FilterMapAppend(a, b, UrlOf);
  }

  /** The list is empty exactly when no item has a truthy URL. */
  lemma SelectUrlsEmpty(items: seq<ResultItem>)
    ensures SelectUrls(items) == [] <==> forall j :: 0 <= j < |items| ==> !HasUrl(items[j])
  {
    FilterMapEmpty(items, UrlOf);
    assert forall j :: 0 <= j < |items| ==> (UrlOf(items[j]).None? <==> !HasUrl(items[j]));
  }
}
