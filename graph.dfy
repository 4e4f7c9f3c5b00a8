/**
 * The two-node pipeline of the multisearch service: the search node turns the search
 * results into a summarised context, the chat node answers the query from it, and the
 * graph runs search, then chat, then stops. The search request and the chat completion
 * are parameters.
 */
module Graph {
  import opened Common
  import Search

  /** The pipeline state (`MCPState`): the query, and the context and answer once they are set. */
  datatype State = State(query: string, context: Option<string>, answer: Option<string>)

  /** Why a run of the graph stops. */
  datatype GraphError =
    | SearchFailed(status: int)  // HTTPError from `search_google_all`
    | ChatFailed(reason: string) // the exception `chat_completion` raised
    | MissingKey(key: string)    // KeyError from reading an unset state field

  /** `chat_completion`: the model's reply to a prompt, or the reason it failed. */
  type Chat = string -> Result<string, string>

  /** The number of results the search node asks for. */
  const SearchNodeMaxResults := 5

  /** The instruction the search node puts before the combined snippets. */
  const SummarizeInstruction := "다음 검색 결과를 종합해 요약해줘:\n\n"

  // ---------------------------------------------------------------- snippets and bullets

  /** `r.get("snippet")` is truthy: the key is present and its text is not empty. */
  predicate HasSnippet(r: map<string, string>)
  {
    "snippet" in r && r["snippet"] != ""
  }

  /** `[r["snippet"] for r in result_list if r.get("snippet")]`. */
  function Snippets(results: seq<map<string, string>>): (kept: seq<string>)
    ensures |kept| <= |results|
    ensures forall i :: 0 <= i < |kept| ==> kept[i] != ""
  {
    if results == [] then []
    else (if HasSnippet(results[0]) then [results[0]["snippet"]] else []) + Snippets(results[1..])
  }

  /** Filtering distributes over concatenation: the kept snippets stay in their original order. */
  lemma {:induction false} SnippetsAppend(a: seq<map<string, string>>, b: seq<map<string, string>>)
    ensures Snippets(a + b) == Snippets(a) + Snippets(b)
  {
    if a == [] {
      assert a + b == b;
    } else {
      assert (a + b)[1..] == a[1..] + b;
      SnippetsAppend(a[1..], b);
    }
  }

  /** A single result contributes its snippet exactly when the snippet is non-empty. */
  lemma SnippetsSingle(r: map<string, string>)
    ensures Snippets([r]) == if HasSnippet(r) then [r["snippet"]] else []
  {
    assert [r][1..] == [];
  }

  /** When every result has a non-empty snippet, nothing is dropped and the order is kept. */
  lemma {:induction false} SnippetsKeepAll(results: seq<map<string, string>>)
    requires forall i :: 0 <= i < |results| ==> HasSnippet(results[i])
    ensures |Snippets(results)| == |results|
    ensures forall i :: 0 <= i < |results| ==> Snippets(results)[i] == GetOr(results[i], "snippet", "")
  {
    if results != [] {
      SnippetsKeepAll(results[1..]);
    }
  }

  /** Results without a snippet contribute nothing. */
  lemma {:induction false} SnippetsNoneKept(results: seq<map<string, string>>)
    requires forall i :: 0 <= i < |results| ==> !HasSnippet(results[i])
    ensures Snippets(results) == []
  {
    if results != [] {
      SnippetsNoneKept(results[1..]);
    }
  }

  /** `"\n".join(lines)`. */
  function Join(lines: seq<string>): (text: string)
    ensures lines == [] ==> text == ""
    ensures |lines| >= 1 ==> |text| >= |lines[0]| && text[..|lines[0]|] == lines[0]
    ensures |lines| >= 2 ==> |text| > |lines[0]| && text[|lines[0]|] == '\n'
  {
    if |lines| == 0 then ""
    else if |lines| == 1 then lines[0]
    else lines[0] + "\n" + Join(lines[1..])
  }

  /** `f"- {s}"` for every snippet. */
  function Bullets(snippets: seq<string>): (lines: seq<string>)
    ensures |lines| == |snippets|
    ensures forall i :: 0 <= i < |snippets| ==> lines[i] == "- " + snippets[i]
  {
    if snippets == [] then [] else ["- " + snippets[0]] + Bullets(snippets[1..])
  }

  /** The combined text: one bullet line per kept snippet. */
  function Combined(snippets: seq<string>): (text: string)
    ensures text == "" <==> snippets == []
    ensures snippets != [] ==> |text| >= 2 + |snippets[0]| && text[..2 + |snippets[0]|] == "- " + snippets[0]
  {
    Join(Bullets(snippets))
  }

  /** The index of the first line break of a text that has one. */
  function FirstBreak(s: string): (i: nat)
    requires '\n' in s
    ensures i < |s| && s[i] == '\n' && '\n' !in s[..i]
  {
    if s[0] == '\n' then 0
    else
      assert '\n' in s[1..];
      var j := FirstBreak(s[1..]);
      assert s[..j + 1] == [s[0]] + s[1..][..j];
      j + 1
  }

  /** `s.split("\n")`. */
  function Lines(s: string): (parts: seq<string>)
    ensures |parts| >= 1
    decreases |s|
  {
    if '\n' !in s then [s]
    else
      var i := FirstBreak(s);
      [s[..i]] + Lines(s[i + 1..])
  }

  /** Splitting a line that carries no break, then a break, then the rest. */
  lemma LinesCons(x: string, rest: string)
    requires '\n' !in x
    ensures Lines(x + "\n" + rest) == [x] + Lines(rest)
  {
    var s := x + "\n" + rest;
    assert s[|x|] == '\n';
    var i := FirstBreak(s);
    assert s[..|x|] == x;
    assert i == |x|;
    assert s[|x| + 1..] == rest;
  }

  /** Joining with line breaks, then splitting at them, gives the lines back when no line contains a break. */
  lemma {:induction false} LinesOfJoin(lines: seq<string>)
    requires |lines| >= 1
    requires forall i :: 0 <= i < |lines| ==> '\n' !in lines[i]
    ensures Lines(Join(lines)) == lines
  {
    if |lines| == 1 {
      assert Lines(lines[0]) == [lines[0]];
    } else {
      LinesOfJoin(lines[1..]);
      LinesCons(lines[0], Join(lines[1..]));
      assert lines == [lines[0]] + lines[1..];
    }
  }

  /** A join ends with its last line: there is no trailing line break. */
  lemma {:induction false} JoinEndsWithLastLine(lines: seq<string>)
    requires |lines| >= 1
    ensures |Join(lines)| >= |lines[|lines| - 1]|
    ensures Join(lines)[|Join(lines)| - |lines[|lines| - 1]|..] == lines[|lines| - 1]
  {
    if |lines| > 1 {
      JoinEndsWithLastLine(lines[1..]);
      var tail := Join(lines[1..]);
      assert lines[1..][|lines[1..]| - 1] == lines[|lines| - 1];
      var prefix := lines[0] + "\n";
      assert Join(lines) == prefix + tail;
      assert Join(lines)[|Join(lines)| - |lines[|lines| - 1]|..] == tail[|tail| - |lines[|lines| - 1]|..];
    }
  }

  /**
   * The combined text is empty exactly when no snippet survives; otherwise splitting it at
   * line breaks gives back one "- " bullet per kept snippet, in order, provided no snippet
   * contains a line break itself, and it ends with the last bullet rather than a break.
   */
  lemma CombinedBullets(snippets: seq<string>)
    ensures Combined(snippets) == "" <==> snippets == []
    ensures snippets != [] ==>
      var last := "- " + snippets[|snippets| - 1];
      |Combined(snippets)| >= |last| && Combined(snippets)[|Combined(snippets)| - |last|..] == last
    ensures snippets != [] && (forall i :: 0 <= i < |snippets| ==> '\n' !in snippets[i]) ==>
      Lines(Combined(snippets)) == Bullets(snippets)
  {
    var lines := Bullets(snippets);
    if snippets != [] {
      JoinEndsWithLastLine(lines);
      assert |Combined(snippets)| >= 2;
      if forall i :: 0 <= i < |snippets| ==> '\n' !in snippets[i] {
        forall i | 0 <= i < |lines|
          ensures '\n' !in lines[i]
        {
          assert lines[i] == "- " + snippets[i];
        }
        LinesOfJoin(lines);
      }
    }
  }

  // ---------------------------------------------------------------- nodes

  /** The prompt of the chat node: the query in single quotes, a blank line, then the context. */
  function AnswerPrompt(query: string, context: string): (prompt: string)
    ensures Contains(prompt, "'" + query + "'")
    ensures exists i :: OccursAt(prompt, "'" + query + "'", i) && i + |query| + 2 <= |prompt| - |context| - 2
    ensures |prompt| >= |context| + 2 && prompt[|prompt| - |context| - 2..] == "\n\n" + context
  {
    var lead := "다음 검색 결과를 참고하여 질문 ";
    var prompt := lead + "'" + query + "'" + "에 답해주세요:\n\n" + context;
    assert prompt[|lead|..|lead| + |query| + 2] == "'" + query + "'";
    assert OccursAt(prompt, "'" + query + "'", |lead|);
    prompt
  }

  /** `search_node`: search, keep the non-empty snippets, have them summarised, store the summary as the context. */
  function SearchNode(state: State, post: string -> Search.HttpResponse, chat: Chat): (r: Result<State, GraphError>)
    ensures r.Success? ==> r.value == state.(context := r.value.context) && r.value.context.Some?
  {
    match Search.SearchGoogleAll(state.query, post, SearchNodeMaxResults)
    case Failure(e) => Failure(SearchFailed(e.status))
    case Success(results) =>
      match chat(SummarizeInstruction + Combined(Snippets(results)))
      case Failure(reason) => Failure(ChatFailed(reason))
      case Success(summary) => Success(state.(context := Some(summary)))
  }

  /** `chat_node`: answer the query from the context and store the answer. */
  function ChatNode(state: State, chat: Chat): (r: Result<State, GraphError>)
    ensures state.context.None? ==> r == Failure(MissingKey("context"))
    ensures r.Success? ==> r.value == state.(answer := r.value.answer) && r.value.answer.Some?
    ensures r.Success? ==> chat(AnswerPrompt(state.query, state.context.value)) == Success(r.value.answer.value)
  {
    match state.context
    case None => Failure(MissingKey("context"))
    case Some(context) =>
      match chat(AnswerPrompt(state.query, context))
      case Failure(reason) => Failure(ChatFailed(reason))
      case Success(answer) => Success(state.(answer := Some(answer)))
  }

  /** The search node asks for at most five results and so summarises at most five snippets. */
  lemma SearchNodeAtMostFive(query: string, post: string -> Search.HttpResponse)
    requires Search.SearchGoogleAll(query, post, SearchNodeMaxResults).Success?
    ensures |Search.SearchGoogleAll(query, post, SearchNodeMaxResults).value| <= 5
    ensures |Snippets(Search.SearchGoogleAll(query, post, SearchNodeMaxResults).value)| <= 5
  {
  }

  /** The stored context is the model's summary of the combined snippets, not the combined text itself. */
  lemma SearchNodeStoresSummary(state: State, post: string -> Search.HttpResponse, chat: Chat)
    requires SearchNode(state, post, chat).Success?
    ensures var results := Search.SearchGoogleAll(state.query, post, SearchNodeMaxResults).value;
      chat(SummarizeInstruction + Combined(Snippets(results))) == Success(SearchNode(state, post, chat).value.context.value)
  {
  }

  // ---------------------------------------------------------------- the graph

  /** The nodes of the graph. */
  datatype Node = SearchStep | ChatStep

  /** `set_entry_point("search")`. */
  const EntryPoint: Node := SearchStep

  /** The single outgoing edge of each node; None stands for END. */
  function Next(n: Node): (succ: Option<Node>)
    ensures succ.None? <==> n == ChatStep
    ensures succ.Some? ==> Remaining(succ.value) + 1 == Remaining(n)
  {
    match n
    case SearchStep => Some(ChatStep)
    case ChatStep => None
  }

  /** The number of nodes left to run from a node, counting itself. */
  function Remaining(n: Node): nat
  {
    match n
    case SearchStep => 2
    case ChatStep => 1
  }

  /** Running one node. */
  function Apply(n: Node, state: State, post: string -> Search.HttpResponse, chat: Chat): Result<State, GraphError>
  {
    match n
    case SearchStep => SearchNode(state, post, chat)
    case ChatStep => ChatNode(state, chat)
  }

  /** The nodes a run visits from `n`, when none of them fails. */
  function Trace(n: Node): (nodes: seq<Node>)
    ensures |nodes| == Remaining(n) && nodes[0] == n
    ensures Next(nodes[|nodes| - 1]).None?
    ensures forall i :: 0 <= i < |nodes| - 1 ==> Next(nodes[i]) == Some(nodes[i + 1])
    decreases Remaining(n)
  {
    match Next(n)
    case None => [n]
    case Some(m) => [n] + Trace(m)
  }

  /** Applying a path of nodes in order, stopping at the first failure. */
  function ApplyAll(nodes: seq<Node>, state: State, post: string -> Search.HttpResponse, chat: Chat): Result<State, GraphError>
  {
    if nodes == [] then Success(state)
    else
      match Apply(nodes[0], state, post, chat)
      case Failure(e) => Failure(e)
      case Success(next) => ApplyAll(nodes[1..], next, post, chat)
  }

  /**
   * Running the graph from `n`: apply the node, stop on failure, otherwise follow its edge
   * until END. It applies exactly the nodes of the path from `n`, in order.
   */
  function RunFrom(n: Node, state: State, post: string -> Search.HttpResponse, chat: Chat): (r: Result<State, GraphError>)
    ensures r == ApplyAll(Trace(n), state, post, chat)
    decreases Remaining(n)
  {
    match Apply(n, state, post, chat)
    case Failure(e) => Failure(e)
    case Success(next) =>
      match Next(n)
      case None => Success(next)
      case Some(m) => RunFrom(m, next, post, chat)
  }

  /** `build_graph().invoke(state)`. */
  function Invoke(state: State, post: string -> Search.HttpResponse, chat: Chat): (r: Result<State, GraphError>)
    ensures r == ApplyAll([SearchStep, ChatStep], state, post, chat)
    ensures r.Success? ==> r.value.query == state.query && r.value.context.Some? && r.value.answer.Some?
  {
    ExecutionOrder();
    RunFrom(EntryPoint, state, post, chat)
  }

  /** The path from the entry point is search, then chat, each once, ending after chat. */
  lemma ExecutionOrder()
    ensures Trace(EntryPoint) == [SearchStep, ChatStep]
  {
    var t := Trace(EntryPoint);
    assert Next(t[0]) == Some(t[1]);
  }

  /** Invoking the graph is the search node followed by the chat node, aborting on the first failure. */
  lemma InvokeIsSearchThenChat(state: State, post: string -> Search.HttpResponse, chat: Chat)
    ensures Invoke(state, post, chat) ==
      match SearchNode(state, post, chat)
      case Failure(e) => Failure(e)
      case Success(searched) => ChatNode(searched, chat)
  {
  }

  /**
   * From the request's initial state `{query}`: the run never fails for want of a context,
   * and when it succeeds the query is unchanged, the context is the summary the search
   * node stored, and the answer is the model's reply to the prompt built from that very
   * context.
   */
  lemma AnswerUsesSearchedContext(query: string, post: string -> Search.HttpResponse, chat: Chat)
    ensures Invoke(State(query, None, None), post, chat).Failure? ==>
      !Invoke(State(query, None, None), post, chat).error.MissingKey?
    ensures Invoke(State(query, None, None), post, chat).Success? ==>
      var final := Invoke(State(query, None, None), post, chat).value;
      && SearchNode(State(query, None, None), post, chat).Success?
      && final.query == query
      && final.context == SearchNode(State(query, None, None), post, chat).value.context
      && final.context.Some? && final.answer.Some?
      && chat(AnswerPrompt(query, final.context.value)) == Success(final.answer.value)
  {
    InvokeIsSearchThenChat(State(query, None, None), post, chat);
  }
}
