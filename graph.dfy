/**
 * The retrieval pipeline of `backend/graph.py`: four nodes run in a fixed order over one
 * shared state — retrieve documents, score each against the question, search the web when
 * no document scored high, and generate the answer from the well-scored documents and the
 * web snippets. The vector store, the language model, the web fetch and the float
 * formatting are parameters; only the control logic around them is modelled.
 */
module Graph {
  import opened Wrappers

  const RetrieveCount: nat := 4
  const ExcerptLength: nat := 500
  const DefaultScore: real := 5.0
  const WebThreshold: real := 7.0
  const ContextThreshold: real := 5.0
  const MaxWebResults: nat := 3
  const QuerySuffix: string := " Indian law case"
  const SearchUrlBase: string := "https://www.google.com/search?q="
  const NoContext: string := "No specific documents found."
  const PartSeparator: string := "\n\n---\n\n"
  const WebHeader: string := "\nWeb Search Results:\n"

  /** A retrieved chunk; only its text is kept in the state. */
  datatype Document = Document(pageContent: string)

  /** `[doc.page_content for doc in docs]`. */
  function Contents(found: seq<Document>): (r: seq<string>)
    ensures |r| == |found|
    ensures forall i :: 0 <= i < |found| ==> r[i] == found[i].pageContent
  {
    seq(|found|, i requires 0 <= i < |found| => found[i].pageContent)
  }

  // ---------------------------------------------------------------------------
  // The graph: nodes and edges of `create_watson_graph`

  datatype Node = Retrieve | Score | WebSearch | Generate | End

  const Entry: Node := Retrieve

  /** The single outgoing edge of each node. */
  function Successor(n: Node): Node {
    match n
    case Retrieve => Score
    case Score => WebSearch
    case WebSearch => Generate
    case Generate => End
    case End => End
  }

  function Rank(n: Node): nat {
    match n
    case Retrieve => 4
    case Score => 3
    case WebSearch => 2
    case Generate => 1
    case End => 0
  }

  /** The nodes visited from `n` by following edges until `END`. */
  function Run(n: Node): (r: seq<Node>)
    decreases Rank(n)
    ensures End !in r
    ensures |r| == Rank(n)
  {
    if n == End then [] else [n] + Run(Successor(n))
  }

  /**
   * A run starts at its node, each visited node is followed by its successor, and the last
   * one has the edge to `END`.
   */
  lemma {:induction false} RunFollowsEdges(n: Node)
    decreases Rank(n)
    ensures n != End ==> Run(n) != [] && Run(n)[0] == n && Successor(Run(n)[|Run(n)| - 1]) == End
    ensures forall i :: 0 <= i < |Run(n)| - 1 ==> Run(n)[i + 1] == Successor(Run(n)[i])
  {
    if n != End {
      var next := Successor(n);
      RunFollowsEdges(next);
      assert Run(n) == [n] + Run(next);
      if next != End {
        assert Run(n)[1] == next;
      }
      forall i | 1 <= i < |Run(n)| - 1
        ensures Run(n)[i + 1] == Successor(Run(n)[i])
      {
        assert Run(n)[i] == Run(next)[i - 1] && Run(n)[i + 1] == Run(next)[i];
      }
    }
  }

  /** The visit logs the node methods build up, against the runs of the graph. */
  lemma VisitLogs(v: seq<Node>)
    ensures v + [Score] + [WebSearch] + [Generate] == v + Run(Score)
    ensures v + [Retrieve] + Run(Score) == v + Run(Entry)
    ensures v + [Retrieve] == v + Run(Entry)[..1]
  {
    ExecutionOrder();
  }

  lemma ExecutionOrder()
    ensures Run(Entry) == [Retrieve, Score, WebSearch, Generate]
  {
  }

  // ---------------------------------------------------------------------------
  // Scoring

  /** `doc[:500]`. */
  function Excerpt(doc: string): (r: string)
    ensures r <= doc
    ensures |r| == if |doc| < ExcerptLength then |doc| else ExcerptLength
  {
    if |doc| <= ExcerptLength then doc else doc[..ExcerptLength]
  }

  /** A score the model could not produce or that did not parse becomes the default. */
  function ScoreOf(reply: Option<real>): (r: real)
    ensures reply.Some? ==> r == reply.value
    ensures reply.None? ==> r == DefaultScore
  {
    reply.GetOr(DefaultScore)
  }

  /**
   * The scores `score_documents` assigns: one per document, in document order.
   * `scorer(question, excerpt)` is the model's parsed reply, `None` when it raises.
   */
  function ScoresFor(question: string, docs: seq<string>, scorer: (string, string) -> Option<real>): (r: seq<real>)
    ensures |r| == |docs|
    ensures forall i :: 0 <= i < |docs| ==> r[i] == ScoreOf(scorer(question, Excerpt(docs[i])))
  {
    seq(|docs|, i requires 0 <= i < |docs| => ScoreOf(scorer(question, Excerpt(docs[i]))))
  }

  /** Python's `max` over a non-empty list. */
  function Max(s: seq<real>): (m: real)
    requires s != []
    ensures m in s
    ensures forall i :: 0 <= i < |s| ==> s[i] <= m
  {
    if |s| == 1 then s[0]
    else
      var rest := Max(s[1..]);
      if s[0] >= rest then s[0] else rest
  }

  /** `max(scores) < 7.0 if scores else True`: the web is needed unless some score reached 7. */
  function NeedsWeb(scores: seq<real>): (r: bool)
    ensures r <==> forall i :: 0 <= i < |scores| ==> scores[i] < WebThreshold
  {
    if scores == [] then true else Max(scores) < WebThreshold
  }

  // ---------------------------------------------------------------------------
  // Web search

  /** `f"https://www.google.com/search?q={query}"` with `query = question + " Indian law case"`. */
  function SearchUrl(question: string): (r: string)
    ensures SearchUrlBase <= r
    ensures |r| == |SearchUrlBase| + |question| + |QuerySuffix|
    ensures r[|SearchUrlBase|..|SearchUrlBase| + |question|] == question
    ensures r[|SearchUrlBase| + |question|..] == QuerySuffix
  {
    SearchUrlBase + question + QuerySuffix
  }

  /** Distinct questions are searched under distinct URLs. */
  lemma SearchUrlInjective(a: string, b: string)
    requires SearchUrl(a) == SearchUrl(b)
    ensures a == b
  {
    var ra, rb := SearchUrl(a), SearchUrl(b);
    assert |a| == |b|;
    assert a == ra[|SearchUrlBase|..|SearchUrlBase| + |a|] == rb[|SearchUrlBase|..|SearchUrlBase| + |b|] == b;
  }

  /**
   * The web results `web_search` stores. `fetch(url)` is the list of snippet texts the
   * page yields, `None` when the request or the parsing raises.
   */
  function WebResultsFor(needsWeb: bool, question: string, fetch: string -> Option<seq<string>>): (r: seq<string>)
    ensures |r| <= MaxWebResults
    ensures !needsWeb ==> r == []
    ensures needsWeb && fetch(SearchUrl(question)).None? ==> r == []
    ensures needsWeb && fetch(SearchUrl(question)).Some? ==>
              var snippets := fetch(SearchUrl(question)).value;
              r <= snippets && |r| == if |snippets| < MaxWebResults then |snippets| else MaxWebResults
  {
    if !needsWeb then []
    else match fetch(SearchUrl(question))
      case None => []
      case Some(snippets) => if |snippets| <= MaxWebResults then snippets else snippets[..MaxWebResults]
  }

  // ---------------------------------------------------------------------------
  // Context selection

  /** `zip(documents, relevance_scores)`: pairs up to the shorter list. */
  function Pairs(docs: seq<string>, scores: seq<real>): (r: seq<(string, real)>)
    ensures |r| == if |docs| < |scores| then |docs| else |scores|
    ensures forall i :: 0 <= i < |r| ==> r[i] == (docs[i], scores[i])
  {
    var n := if |docs| < |scores| then |docs| else |scores|;
    seq(n, i requires 0 <= i < n => (docs[i], scores[i]))
  }

  /** The pairs whose score is at least 5.0, in order. */
  function Relevant(pairs: seq<(string, real)>): (r: seq<(string, real)>)
    ensures |r| <= |pairs|
    ensures forall p :: p in r <==> p in pairs && p.1 >= ContextThreshold
  {
    if pairs == [] then []
    else
      var last := pairs[|pairs| - 1];
      Relevant(pairs[..|pairs| - 1]) + (if last.1 >= ContextThreshold then [last] else [])
  }

  /** Selection keeps order: selecting from a concatenation concatenates the selections. */
  lemma {:induction false} RelevantAppend(a: seq<(string, real)>, b: seq<(string, real)>)
    ensures Relevant(a + b) == Relevant(a) + Relevant(b)
  {
    if b != [] {
      var init := b[..|b| - 1];
      assert (a + b)[..|a + b| - 1] == a + init;
      RelevantAppend(a, init);
    } else {
      assert a + b == a;
    }
  }

  /** `f"[Relevance: {score}/10]\n{doc}"`; `fmt` is Python's float-to-string conversion. */
  function DocPart(pair: (string, real), fmt: real -> string): string {
    "[Relevance: " + fmt(pair.1) + "/10]\n" + pair.0
  }

  function RenderDocs(pairs: seq<(string, real)>, fmt: real -> string): (r: seq<string>)
    ensures |r| == |pairs|
    ensures forall i :: 0 <= i < |pairs| ==> r[i] == DocPart(pairs[i], fmt)
  {
    seq(|pairs|, i requires 0 <= i < |pairs| => DocPart(pairs[i], fmt))
  }

  /**
   * `sep.join(parts)`: empty for no parts, the part itself for one, and otherwise the
   * first part, the separator, then the join of the rest.
   */
  function Join(sep: string, parts: seq<string>): (r: string)
    ensures parts == [] ==> r == ""
    ensures |parts| == 1 ==> r == parts[0]
    ensures parts != [] ==> parts[0] <= r
  {
    if parts == [] then ""
    else if |parts| == 1 then parts[0]
    else parts[0] + sep + Join(sep, parts[1..])
  }

  /** The web part: present only when there are web results. */
  function WebPart(web: seq<string>): seq<string> {
    if web == [] then [] else [WebHeader + Join("\n", web)]
  }

  /** The context parts `generate_answer` collects: selected documents first, web results last. */
  function ContextParts(docs: seq<string>, scores: seq<real>, web: seq<string>, fmt: real -> string): seq<string> {
    RenderDocs(Relevant(Pairs(docs, scores)), fmt) + WebPart(web)
  }

  /** The context given to the model: the joined parts, or the fixed fallback when there are none. */
  function ContextText(parts: seq<string>): string {
    if parts == [] then NoContext else Join(PartSeparator, parts)
  }

  /** The context `generate_answer` hands the model; it is never empty. */
  function Context(docs: seq<string>, scores: seq<real>, web: seq<string>, fmt: real -> string): (r: string)
    ensures |r| > 0
  {
    var parts := ContextParts(docs, scores, web, fmt);
    assert parts != [] ==> |parts[0]| > 0;
    ContextText(parts)
  }

  /**
   * The context starts with the first selected document, or with the web header when no
   * document was selected, and is the fallback when there is neither.
   */
  lemma ContextStart(docs: seq<string>, scores: seq<real>, web: seq<string>, fmt: real -> string)
    ensures var selected, r := Relevant(Pairs(docs, scores)), Context(docs, scores, web, fmt);
            && (selected != [] ==> DocPart(selected[0], fmt) <= r)
            && (selected == [] && web != [] ==> WebHeader <= r)
            && (selected == [] && web == [] ==> r == NoContext)
  {
  }

  /**
   * The context is the fallback text exactly when no paired document scored 5.0 or more
   * and there are no web results.
   */
  lemma ContextFallbackIff(docs: seq<string>, scores: seq<real>, web: seq<string>, fmt: real -> string)
    ensures Context(docs, scores, web, fmt) == NoContext <==>
              (forall i :: 0 <= i < |docs| && i < |scores| ==> scores[i] < ContextThreshold) && web == []
  {
    var pairs := Pairs(docs, scores);
    var parts := ContextParts(docs, scores, web, fmt);
    var selected := Relevant(pairs);
    if selected != [] {
      var p := selected[0];
      assert p in pairs;
      var i :| 0 <= i < |pairs| && pairs[i] == p;
      assert i < |docs| && i < |scores| && scores[i] >= ContextThreshold;
    }
    if exists i :: 0 <= i < |docs| && i < |scores| && scores[i] >= ContextThreshold {
      var i :| 0 <= i < |docs| && i < |scores| && scores[i] >= ContextThreshold;
      assert pairs[i] in selected;
    }
    if parts != [] {
      if selected != [] {
        assert parts[0] == DocPart(selected[0], fmt);
        assert Join(PartSeparator, parts)[0] == '[';
      } else {
        assert parts[0] == WebHeader + Join("\n", web);
        assert Join(PartSeparator, parts)[0] == '\n';
      }
    }
  }

  /** One step of the selection loop: the next pair is rendered and kept iff its score is high enough. */
  lemma SelectStep(pairs: seq<(string, real)>, i: nat, fmt: real -> string)
    requires i < |pairs|
    ensures RenderDocs(Relevant(pairs[..i + 1]), fmt)
            == RenderDocs(Relevant(pairs[..i]), fmt)
               + (if pairs[i].1 >= ContextThreshold then [DocPart(pairs[i], fmt)] else [])
  {
    assert pairs[..i + 1][..i] == pairs[..i];
    var before := Relevant(pairs[..i]);
    if pairs[i].1 >= ContextThreshold {
      assert Relevant(pairs[..i + 1]) == before + [pairs[i]];
      assert RenderDocs(before + [pairs[i]], fmt) == RenderDocs(before, fmt) + [DocPart(pairs[i], fmt)];
    } else {
      assert Relevant(pairs[..i + 1]) == before;
    }
  }

  /** The selection loop of `generate_answer`: the well-scored documents, rendered, in order. */
  method SelectDocuments(docs: seq<string>, scores: seq<real>, fmt: real -> string)
    returns (parts: seq<string>)
    ensures parts == RenderDocs(Relevant(Pairs(docs, scores)), fmt)
  {
    ghost var pairs := Pairs(docs, scores);
    parts := [];
    var i := 0;
    while i < |docs| && i < |scores|
      invariant 0 <= i <= |pairs|
      invariant parts == RenderDocs(Relevant(pairs[..i]), fmt)
    {
      SelectStep(pairs, i, fmt);
      var doc, score := docs[i], scores[i];
      if score >= ContextThreshold {
        parts := parts + [DocPart((doc, score), fmt)];
      }
      i := i + 1;
    }
    assert pairs[..i] == pairs;
  }

  /**
   * The context-building part of `generate_answer`: the well-scored documents, then the
   * web part, then the join or the fallback.
   */
  method BuildContext(docs: seq<string>, scores: seq<real>, web: seq<string>, fmt: real -> string)
    returns (context: string)
    ensures context == Context(docs, scores, web, fmt)
  {
    var parts := SelectDocuments(docs, scores, fmt);
    if web != [] {
      parts := parts + [WebHeader + Join("\n", web)];
    }
    assert parts == ContextParts(docs, scores, web, fmt);
    context := if parts != [] then Join(PartSeparator, parts) else NoContext;
  }

  // ---------------------------------------------------------------------------
  // The shared state and the node functions

  /** `GraphState`: the dictionary every node reads and updates in place. */
  class GraphState {
    var question: string
    var documents: seq<string>
    var webResults: seq<string>
    var answer: string
    var needsWeb: bool
    var relevanceScores: seq<real>
    /** The nodes that have run on this state, in order. */
    ghost var visited: seq<Node>

    /** The initial state `process_query` builds for a question. */
    constructor (question: string)
      ensures this.question == question
      ensures documents == [] && webResults == [] && relevanceScores == []
      ensures answer == "" && !needsWeb && visited == []
    {
      this.question := question;
      documents := [];
      webResults := [];
      answer := "";
      needsWeb := false;
      relevanceScores := [];
      visited := [];
    }

    /**
     * `retrieve_documents`: the texts of the four chunks nearest to the question.
     * `search(question, k)` is the vector store's similarity search; an error it raises
     * is returned in `raised` and leaves the state unchanged.
     */
    method RetrieveDocuments(search: (string, nat) -> Result<seq<Document>, string>) returns (raised: Option<string>)
      modifies this`documents, this`visited
      ensures search(question, RetrieveCount).Failure? ==>
                raised == Some(search(question, RetrieveCount).error) && documents == old(documents)
      ensures search(question, RetrieveCount).Success? ==>
                raised == None && documents == Contents(search(question, RetrieveCount).value)
      ensures question == old(question) && webResults == old(webResults) && answer == old(answer)
      ensures needsWeb == old(needsWeb) && relevanceScores == old(relevanceScores)
      ensures visited == old(visited) + [Retrieve]
    {
      visited := visited + [Retrieve];
      match search(question, RetrieveCount)
      case Failure(e) =>
        return Some(e);
      case Success(found) =>
        documents := Contents(found);
        return None;
    }

    /**
     * `score_documents`: one score per document, the default for any failure, and the
     * decision whether the web is needed.
     */
    method ScoreDocuments(scorer: (string, string) -> Option<real>)
      modifies this`relevanceScores, this`needsWeb, this`visited
      ensures relevanceScores == ScoresFor(question, documents, scorer)
      ensures needsWeb == NeedsWeb(relevanceScores)
      ensures question == old(question) && documents == old(documents)
      ensures webResults == old(webResults) && answer == old(answer)
      ensures visited == old(visited) + [Score]
    {
      visited := visited + [Score];
      var scores: seq<real> := [];
      var i := 0;
      while i < |documents|
        invariant 0 <= i <= |documents|
        invariant |scores| == i
        invariant forall k :: 0 <= k < i ==> scores[k] == ScoreOf(scorer(question, Excerpt(documents[k])))
      {
        var reply := scorer(question, Excerpt(documents[i]));
        match reply {
          case Some(score) => scores := scores + [score];
          case None => scores := scores + [DefaultScore];
        }
        i := i + 1;
      }
      relevanceScores := scores;
      needsWeb := if scores != [] then Max(scores) < WebThreshold else true;
    }

    /**
     * `web_search`: nothing is fetched unless the web is needed; otherwise the first three
     * snippets of the result page, or none when the fetch or the parsing fails.
     */
    method WebSearch(fetch: string -> Option<seq<string>>)
      modifies this`webResults, this`visited
      ensures webResults == WebResultsFor(needsWeb, question, fetch)
      ensures question == old(question) && documents == old(documents) && answer == old(answer)
      ensures needsWeb == old(needsWeb) && relevanceScores == old(relevanceScores)
      ensures visited == old(visited) + [Node.WebSearch]
    {
      visited := visited + [Node.WebSearch];
      if !needsWeb {
        webResults := [];
        return;
      }
      var query := question + QuerySuffix;
      var searchUrl := SearchUrlBase + query;
      assert searchUrl == SearchUrl(question);
      match fetch(searchUrl)
      case None =>
        webResults := [];
      case Some(snippets) =>
        var top := if |snippets| <= MaxWebResults then snippets else snippets[..MaxWebResults];
        var results: seq<string> := [];
        var i := 0;
        while i < |top|
          invariant 0 <= i <= |top|
          invariant results == top[..i]
        {
          results := results + [top[i]];
          i := i + 1;
        }
        assert top[..|top|] == top;
        webResults := results;
    }

    /**
     * `generate_answer`: collect the context and ask the model. `llm(context, question)` is
     * the model's reply to the assistant prompt; an error it raises is returned in `raised`
     * and leaves the answer unchanged.
     */
    method GenerateAnswer(llm: (string, string) -> Result<string, string>, fmt: real -> string)
      returns (raised: Option<string>)
      modifies this`answer, this`visited
      ensures var reply := llm(Context(documents, relevanceScores, webResults, fmt), question);
              (reply.Success? ==> raised == None && answer == reply.value)
              && (reply.Failure? ==> raised == Some(reply.error) && answer == old(answer))
      ensures question == old(question) && documents == old(documents) && webResults == old(webResults)
      ensures needsWeb == old(needsWeb) && relevanceScores == old(relevanceScores)
      ensures visited == old(visited) + [Generate]
    {
      var context := BuildContext(documents, relevanceScores, webResults, fmt);
      visited := visited + [Generate];
      match llm(context, question)
      case Failure(e) =>
        raised := Some(e);
      case Success(reply) =>
        answer := reply;
        raised := None;
    }

    /**
     * The nodes after `retrieve`, in the order `Run(Score)` lists: score, web search and
     * generate, each reading what the previous one stored.
     */
    method RunFromScore(scorer: (string, string) -> Option<real>,
                        fetch: string -> Option<seq<string>>,
                        llm: (string, string) -> Result<string, string>,
                        fmt: real -> string) returns (raised: Option<string>)
      modifies this`relevanceScores, this`needsWeb, this`webResults, this`answer, this`visited
      ensures visited == old(visited) + Run(Score)
      ensures question == old(question) && documents == old(documents)
      ensures relevanceScores == ScoresFor(question, documents, scorer)
      ensures needsWeb == NeedsWeb(relevanceScores)
      ensures webResults == WebResultsFor(needsWeb, question, fetch)
      ensures var reply := llm(Context(documents, relevanceScores, webResults, fmt), question);
              (reply.Success? ==> raised == None && answer == reply.value)
              && (reply.Failure? ==> raised == Some(reply.error) && answer == old(answer))
    {
      VisitLogs(visited);
      ScoreDocuments(scorer);
      WebSearch(fetch);
      raised := GenerateAnswer(llm, fmt);
    }

    /**
     * `graph.invoke(state)`: the nodes in the order `Run(Entry)` lists. An error raised by
     * retrieval stops the run there: no later node runs and the state is as it was.
     */
    method Invoke(search: (string, nat) -> Result<seq<Document>, string>,
                  scorer: (string, string) -> Option<real>,
                  fetch: string -> Option<seq<string>>,
                  llm: (string, string) -> Result<string, string>,
                  fmt: real -> string) returns (raised: Option<string>)
      modifies this`documents, this`relevanceScores, this`needsWeb, this`webResults, this`answer, this`visited
      ensures question == old(question)
      ensures search(old(question), RetrieveCount).Failure? ==>
                && raised == Some(search(old(question), RetrieveCount).error)
                && visited == old(visited) + Run(Entry)[..1]
                && documents == old(documents) && relevanceScores == old(relevanceScores)
                && needsWeb == old(needsWeb) && webResults == old(webResults) && answer == old(answer)
      ensures search(old(question), RetrieveCount).Success? ==> visited == old(visited) + Run(Entry)
      ensures search(old(question), RetrieveCount).Success? ==>
                && documents == Contents(search(old(question), RetrieveCount).value)
                && relevanceScores == ScoresFor(question, documents, scorer)
                && needsWeb == NeedsWeb(relevanceScores)
                && webResults == WebResultsFor(needsWeb, question, fetch)
                && var reply := llm(Context(documents, relevanceScores, webResults, fmt), question);
                   (reply.Success? ==> raised == None && answer == reply.value)
                   && (reply.Failure? ==> raised == Some(reply.error) && answer == old(answer))
    {
      VisitLogs(visited);
      raised := RetrieveDocuments(search);
      if raised.Some? {
        return;
      }
      raised := RunFromScore(scorer, fetch, llm, fmt);
    }
  }
}
