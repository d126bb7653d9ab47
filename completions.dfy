/**
 * The options of the select box: each `{label, uri}` completion the
 * autocomplete endpoint returns becomes a `{label, value}` option, and the
 * options are the empty list until the completions have arrived.
 */
module Completions {
  import opened Wrappers

  /** One entry of the endpoint's `completions` array (`labelText` is its `label`). */
  datatype Completion = Completion(labelText: string, uri: string)

  /** One option of the select box (`labelText` is its `label`). */
  datatype SelectOption = SelectOption(labelText: string, value: string)

  /** Each completion becomes the option with the same label and the completion's uri as its value. */
  function MapCompletions(cs: seq<Completion>): (r: seq<SelectOption>)
    ensures |r| == |cs|
    ensures forall i :: 0 <= i < |cs| ==> r[i].labelText == cs[i].labelText && r[i].value == cs[i].uri
  {
    if cs == [] then [] else [SelectOption(cs[0].labelText, cs[0].uri)] + MapCompletions(cs[1..])
  }

  /** Mapping distributes over concatenation: the completions keep their order. */
  lemma MapCompletionsAppend(a: seq<Completion>, b: seq<Completion>)
    ensures MapCompletions(a + b) == MapCompletions(a) + MapCompletions(b)
  {
  }

  /** Where the fetch of the autocomplete endpoint stands; the fetch itself is not modelled. */
  datatype Fetch = InFlight | Fetched(completions: seq<Completion>) | FetchFailed

  /** The query's `data`: undefined while it is disabled (no endpoint), in flight or failed. */
  function QueryData(endpoint: string, fetch: Fetch): (r: Option<seq<SelectOption>>)
    ensures r.Some? <==> endpoint != "" && fetch.Fetched?
    ensures r.Some? ==> r.value == MapCompletions(fetch.completions)
  {
    if endpoint != "" && fetch.Fetched? then Some(MapCompletions(fetch.completions)) else None
  }

  /** The query's `isLoading`: enabled and still in flight. */
  function QueryLoading(endpoint: string, fetch: Fetch): (r: bool)
    ensures r ==> endpoint != ""
    ensures r ==> QueryData(endpoint, fetch).None?
  {
    endpoint != "" && fetch.InFlight?
  }

  /** The options the select box shows: the query's data, or the empty list while it has none. */
  function ShownOptions(endpoint: string, fetch: Fetch): (r: seq<SelectOption>)
    ensures endpoint != "" && fetch.Fetched? ==> r == MapCompletions(fetch.completions)
    ensures !(endpoint != "" && fetch.Fetched?) ==> r == []
  {
    QueryData(endpoint, fetch).GetOr([])
  }
}
