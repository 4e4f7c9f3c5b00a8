/**
 * The multi-result web search of the multisearch service (`search_google_all`): after the
 * POST to the search provider, the organic results are cut to `max_results` and each is
 * projected to a `{title, snippet}` record. The POST itself is a parameter.
 */
module Search {
  import opened Common

  /** An organic result of the JSON payload, by its string-valued fields. */
  type Entry = map<string, string>

  /** The parsed JSON body; `organic` is None when the key is absent. */
  datatype Payload = Payload(organic: Option<seq<Entry>>)

  /** What `requests.post` returned: its HTTP status and its parsed body. */
  datatype HttpResponse = HttpResponse(status: int, body: Payload)

  /** The `HTTPError` `raise_for_status` raises. */
  datatype HttpError = HttpError(status: int)

  /** The default of `max_results`. */
  const DefaultMaxResults := 5

  /** `raise_for_status` raises for a client error (4xx) and for a server error (5xx) status. */
  predicate IsErrorStatus(status: int)
    ensures IsErrorStatus(status) <==> 400 <= status < 600
    ensures 200 <= status < 400 ==> !IsErrorStatus(status)
  {
    (400 <= status < 500) || (500 <= status < 600)
  }

  /** `results.get("organic", [])`. */
  function OrganicResults(body: Payload): (organic: seq<Entry>)
    ensures body.organic.None? ==> organic == []
    ensures body.organic.Some? ==> organic == body.organic.value
  {
    match body.organic
    case None => []
    case Some(entries) => entries
  }

  /** The length of the Python slice `xs[:stop]` of a list of length `n`. */
  function SliceLength(n: nat, stop: int): (len: nat)
    ensures len <= n
    ensures stop >= 0 ==> len == if stop < n then stop else n
    ensures stop < 0 ==> len == if n + stop > 0 then n + stop else 0
  {
    if stop >= 0 then (if stop < n then stop else n)
    else if n + stop > 0 then n + stop else 0
  }

  /** The record one organic result is projected to. */
  function Project(entry: Entry): (hit: map<string, string>)
    ensures hit.Keys == {"title", "snippet"}
    ensures hit["title"] == (if "title" in entry then entry["title"] else "")
    ensures hit["snippet"] == (if "snippet" in entry then entry["snippet"] else "")
  {
    map["title" := GetOr(entry, "title", ""), "snippet" := GetOr(entry, "snippet", "")]
  }

  /** The list comprehension over `organic[:stop]`. */
  function ProjectAll(organic: seq<Entry>, stop: int): (hits: seq<map<string, string>>)
    ensures |hits| == SliceLength(|organic|, stop)
    ensures forall i :: 0 <= i < |hits| ==> hits[i] == Project(organic[i])
  {
    var len := SliceLength(|organic|, stop);
    seq(len, i requires 0 <= i < len => Project(organic[i]))
  }

  /** `search_google_all` after the POST: the status check, then the projection. */
  function SearchAll(response: HttpResponse, maxResults: int): (r: Result<seq<map<string, string>>, HttpError>)
    ensures IsErrorStatus(response.status) <==> r.Failure?
    ensures r.Failure? ==> r.error == HttpError(response.status)
    ensures r.Success? ==> r.value == ProjectAll(OrganicResults(response.body), maxResults)
  {
    if IsErrorStatus(response.status) then Failure(HttpError(response.status))
    else Success(ProjectAll(OrganicResults(response.body), maxResults))
  }

  /** `search_google_all(query, max_results=5)`, where `post` stands for the request to the provider. */
  function SearchGoogleAll(query: string, post: string -> HttpResponse, maxResults: int := DefaultMaxResults): (r: Result<seq<map<string, string>>, HttpError>)
    ensures r.Success? && maxResults >= 0 ==> |r.value| <= maxResults
    ensures r.Success? ==> |r.value| <= |OrganicResults(post(query).body)|
  {
    SearchAll(post(query), maxResults)
  }

  /**
   * For a non-negative `max_results`: as many records as min(`max_results`, organic
   * results), record i built from organic result i, every record with exactly the keys
   * `title` and `snippet`, a missing field read as "" rather than dropping the result.
   */
  lemma SearchAllResults(response: HttpResponse, maxResults: int)
    requires !IsErrorStatus(response.status) && maxResults >= 0
    ensures var organic := OrganicResults(response.body);
      var hits := SearchAll(response, maxResults).value;
      && |hits| == (if maxResults < |organic| then maxResults else |organic|)
      && |hits| <= maxResults
      && forall i :: 0 <= i < |hits| ==>
           && hits[i].Keys == {"title", "snippet"}
           && hits[i]["title"] == GetOr(organic[i], "title", "")
           && hits[i]["snippet"] == GetOr(organic[i], "snippet", "")
  {
  }

  /** A payload without an `organic` key yields an empty list, not an error. */
  lemma NoOrganicKeyIsEmpty(status: int, maxResults: int)
    requires !IsErrorStatus(status)
    ensures SearchAll(HttpResponse(status, Payload(None)), maxResults) == Success([])
  {
  }

  /** An error status fails before the body is looked at: two bodies give the same failure. */
  lemma ErrorStatusIgnoresBody(status: int, body: Payload, body': Payload, maxResults: int)
    requires IsErrorStatus(status)
    ensures SearchAll(HttpResponse(status, body), maxResults) == SearchAll(HttpResponse(status, body'), maxResults)
    ensures SearchAll(HttpResponse(status, body), maxResults) == Failure(HttpError(status))
  {
  }

  /**
   * Truncation keeps a prefix: asking for fewer results gives a prefix of asking for
   * more.
   */
  lemma {:induction false} FewerResultsArePrefix(response: HttpResponse, m: nat, n: nat)
    requires !IsErrorStatus(response.status) && m <= n
    ensures SearchAll(response, m).value == SearchAll(response, n).value[..|SearchAll(response, m).value|]
  {
    var few, many := SearchAll(response, m).value, SearchAll(response, n).value;
    assert |few| <= |many|;
    forall i | 0 <= i < |few|
      ensures few[i] == many[..|few|][i]
    {
    }
  }
}
