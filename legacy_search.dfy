/**
 * The single-result web search of the plain MCP server (`search_google`): the snippet of
 * the first organic result, or "No results". Unlike the multi-result search it checks no
 * HTTP status and gives no default for a missing snippet.
 */
module LegacySearch {
  import opened Common
  import Search

  /** The `KeyError` an absent key raises. */
  datatype KeyError = KeyError(key: string)

  /** The text returned when there is no organic result. */
  const NoResults := "No results"

  /** The selection on the parsed body: `results["organic"][0]["snippet"] if results.get("organic") else "No results"`. */
  function FirstSnippet(body: Search.Payload): (r: Result<string, KeyError>)
    ensures body.organic.None? || body.organic.value == [] ==> r == Success(NoResults)
    ensures body.organic.Some? && body.organic.value != [] ==>
      var first := body.organic.value[0];
      && ("snippet" in first ==> r == Success(first["snippet"]))
      && ("snippet" !in first ==> r == Failure(KeyError("snippet")))
  {
    match body.organic
    case None => Success(NoResults)
    case Some(organic) =>
      if organic == [] then Success(NoResults)
      else if "snippet" in organic[0] then Success(organic[0]["snippet"])
      else Failure(KeyError("snippet"))
  }

  /** `search_google(query)`, where `post` stands for the request to the provider. */
  function SearchGoogle(query: string, post: string -> Search.HttpResponse): (r: Result<string, KeyError>)
    ensures var organic := post(query).body.organic;
      && (organic.None? || organic.value == [] ==> r == Success(NoResults))
      && (r.Failure? <==> organic.Some? && organic.value != [] && "snippet" !in organic.value[0])
      && (r.Failure? ==> r.error == KeyError("snippet"))
      && (r.Success? && organic.Some? && organic.value != [] ==> r.value == organic.value[0]["snippet"])
  {
    FirstSnippet(post(query).body)
  }

  /** Only the first organic result is consulted: whatever follows it never changes the outcome. */
  lemma OnlyFirstResultMatters(first: Search.Entry, rest: seq<Search.Entry>, rest': seq<Search.Entry>)
    ensures FirstSnippet(Search.Payload(Some([first] + rest))) == FirstSnippet(Search.Payload(Some([first] + rest')))
  {
  }

  /** The HTTP status is never checked: two responses with the same body give the same outcome. */
  lemma StatusIsIgnored(query: string, post: string -> Search.HttpResponse, post': string -> Search.HttpResponse)
    requires post(query).body == post'(query).body
    ensures SearchGoogle(query, post) == SearchGoogle(query, post')
  {
  }

  /**
   * A first result without a snippet is an error here, while the multi-result search
   * keeps it with an empty snippet.
   */
  lemma MissingSnippetContrast(first: Search.Entry, rest: seq<Search.Entry>, status: int)
    requires "snippet" !in first && !Search.IsErrorStatus(status)
    ensures FirstSnippet(Search.Payload(Some([first] + rest))) == Failure(KeyError("snippet"))
    ensures Search.SearchAll(Search.HttpResponse(status, Search.Payload(Some([first] + rest))), 1).value[0]["snippet"] == ""
  {
  }
}
