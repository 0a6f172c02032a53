/**
 * The `POST /query` handler of `backend/main.py`: it builds the initial pipeline state for
 * the question, runs the graph, and answers with the generated text, the first three
 * retrieved documents as sources, all the scores, and whether web results were used.
 * Any error raised by the pipeline becomes an HTTP 500.
 */
module QueryApi {
  import opened Wrappers
  import opened Graph

  datatype QueryResponse = QueryResponse(answer: string, sources: seq<string>,
                                         relevanceScores: seq<real>, usedWebSearch: bool)

  /** `HTTPException(status_code, detail)`. */
  datatype HttpError = HttpError(status: nat, detail: string)

  const MaxSources: nat := 3

  const ErrorPrefix: string := "Error processing query: "

  /** The response assembled from the final pipeline state. */
  function BuildResponse(answer: string, documents: seq<string>, relevanceScores: seq<real>,
                         needsWeb: bool, webResults: seq<string>): (r: QueryResponse)
    ensures r.answer == answer && r.relevanceScores == relevanceScores
    ensures r.sources <= documents
    ensures |r.sources| == if |documents| < MaxSources then |documents| else MaxSources
    ensures r.usedWebSearch <==> needsWeb && |webResults| > 0
  {
    QueryResponse(answer,
                  if |documents| <= MaxSources then documents else documents[..MaxSources],
                  relevanceScores,
                  needsWeb && |webResults| > 0)
  }

  function ServerError(error: string): HttpError {
    HttpError(500, ErrorPrefix + error)
  }

  /** What one query yields, node by node, given the pipeline's collaborators. */
  function Pipeline(question: string,
                    search: (string, nat) -> Result<seq<Document>, string>,
                    scorer: (string, string) -> Option<real>,
                    fetch: string -> Option<seq<string>>,
                    llm: (string, string) -> Result<string, string>,
                    fmt: real -> string): (r: Result<QueryResponse, HttpError>)
    ensures search(question, RetrieveCount).Failure? ==>
              r == Failure(ServerError(search(question, RetrieveCount).error))
    ensures r.Failure? ==> r.error.status == 500 && ErrorPrefix <= r.error.detail
  {
    match search(question, RetrieveCount)
    case Failure(e) => Failure(ServerError(e))
    case Success(found) =>
      var documents := Contents(found);
      var scores := ScoresFor(question, documents, scorer);
      var needsWeb := NeedsWeb(scores);
      var web := WebResultsFor(needsWeb, question, fetch);
      match llm(Context(documents, scores, web, fmt), question)
      case Failure(e) => Failure(ServerError(e))
      case Success(answer) => Success(BuildResponse(answer, documents, scores, needsWeb, web))
  }

  /**
   * Properties of every query outcome: failures are 500s; the sources are at most three
   * retrieved documents in retrieval order; web search is reported as used only when no
   * document scored 7.0 or more and the search gave at least one snippet.
   */
  lemma PipelineProperties(question: string,
                           search: (string, nat) -> Result<seq<Document>, string>,
                           scorer: (string, string) -> Option<real>,
                           fetch: string -> Option<seq<string>>,
                           llm: (string, string) -> Result<string, string>,
                           fmt: real -> string)
    ensures var r := Pipeline(question, search, scorer, fetch, llm, fmt);
            && (r.Failure? ==> r.error.status == 500)
            && (search(question, RetrieveCount).Failure? ==> r.Failure?)
            && (r.Success? ==>
                  var found := search(question, RetrieveCount).value;
                  && |r.value.sources| <= MaxSources
                  && r.value.sources <= Contents(found)
                  && |r.value.relevanceScores| == |found|
                  && (r.value.usedWebSearch ==>
                        (forall i :: 0 <= i < |r.value.relevanceScores| ==> r.value.relevanceScores[i] < WebThreshold)
                        && fetch(SearchUrl(question)).Some?))
  {
  }

  /**
   * `process_query(request)`: the initial state, `graph.invoke`, then the response, or
   * a 500 carrying the text of the error a node raised.
   */
  method ProcessQuery(question: string,
                      search: (string, nat) -> Result<seq<Document>, string>,
                      scorer: (string, string) -> Option<real>,
                      fetch: string -> Option<seq<string>>,
                      llm: (string, string) -> Result<string, string>,
                      fmt: real -> string) returns (r: Result<QueryResponse, HttpError>)
    ensures r == Pipeline(question, search, scorer, fetch, llm, fmt)
    ensures r.Failure? ==> r.error.status == 500
  {
    var state := new GraphState(question);
    var raised := state.Invoke(search, scorer, fetch, llm, fmt);
    if raised.Some? {
      return Failure(ServerError(raised.value));
    }
    return Success(BuildResponse(state.answer, state.documents, state.relevanceScores,
                                 state.needsWeb, state.webResults));
  }
}
