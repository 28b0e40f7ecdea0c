/** `AgentWorkflow`: the RAG pipeline wrapped in a graph that grades the
    retrieved documents, rewrites the question and searches the web when
    none is relevant, and then generates. */
module Agents {
  import opened Wrappers
  import opened Schema
  import opened Text
  import opened Settings
  import opened Retrieval
  import opened Reranking
  import opened Services
  import opened Rag
  import opened Grading
  import opened AgentGraph

  const WorkflowNotSetUp: string := "Workflow not setup. Call setup() first."
  const NoAnswerGenerated: string := "No answer generated"

  /** Results per web query the tool is created with. */
  const WebResultsPerQuery: nat := 3

  /** `_setup_web_search`: a tool only when `TAVILY_API_KEY` is set to a
      non-empty value and the tool's module loads; otherwise web search is
      disabled. */
  function ConfiguredWebSearchTool(tavilyKey: Option<string>, toolLoads: bool): (t: Option<WebSearchTool>)
    ensures t.Some? <==> tavilyKey.Some? && tavilyKey.value != "" && toolLoads
    ensures t.Some? ==> t.value == TavilySearch(WebResultsPerQuery)
  {
    if tavilyKey.Some? && tavilyKey.value != "" && toolLoads then Some(TavilySearch(WebResultsPerQuery)) else None
  }

  class AgentWorkflow {
    const rag: RAGPipeline
    const webSearchTool: Option<WebSearchTool>
    var app: Option<Graph>

    /** The graph is compiled only after the pipeline's setup succeeded. */
    ghost predicate Valid()
      reads this, rag, rag.retrieverModule
    {
      rag.Valid()
      && (app.Some? ==> app.value == BuiltGraph() && rag.chain.Some? && rag.retriever.Some?)
    }

    /** `__init__`; the environment variable and the outcome of loading
        the search tool are parameters. */
    constructor (config: Config, tavilyKey: Option<string>, toolLoads: bool)
      ensures Valid() && fresh(rag) && fresh(rag.retrieverModule)
      ensures app == None && webSearchTool == ConfiguredWebSearchTool(tavilyKey, toolLoads)
      ensures rag.chain == None && rag.retriever == None
      ensures rag.retrieverModule.config == config
      ensures rag.retrieverModule.vectorstore == None && rag.retrieverModule.retriever == None
      ensures rag.reranker.topK == RerankerTopK(config)
    {
      rag := new RAGPipeline(config);
      webSearchTool := ConfiguredWebSearchTool(tavilyKey, toolLoads);
      app := None;
    }

    /** `setup`: the pipeline first, then the graph. A failure of the
        pipeline's setup propagates and leaves the graph as it was. */
    method Setup(prepared: Result<seq<Document>, Error>) returns (r: Result<(), Error>)
      requires Valid()
      modifies this, rag, rag.retrieverModule
      ensures Valid()
      ensures prepared.Failure? ==>
                && r == Failure(prepared.error)
                && app == old(app) && rag.chain == old(rag.chain) && rag.retriever == old(rag.retriever)
                && unchanged(rag.retrieverModule)
      ensures prepared.Success? ==>
                var store := VectorStore(prepared.value);
                var search := BaseSearch(rag.retrieverModule.config);
                && r == Success(())
                && app == Some(BuiltGraph()) && rag.chain == Some(RagChain)
                && rag.retrieverModule.vectorstore == Some(store)
                && rag.retriever == Some(VectorStoreRetriever(store, search.0, search.1))
                && rag.retrieverModule.retriever == rag.retriever
    {
      var res := rag.Setup(prepared);
      if res.Failure? {
        return res;
      }
      app := Some(BuiltGraph());
      r := Success(());
    }

    /** The `retrieve` node. */
    method RetrieveNode(s: GraphState, o: Oracles) returns (r: Result<Output, Error>)
      ensures r == RetrieveOutput(rag.retriever, o, s)
    {
      if rag.retriever.None? {
        return Failure(AttributeError);
      }
      var question := s.question;
      var documents := o.retrieve(rag.retriever.value, question);
      r := Success(Output(Some(question), Some(documents), None, None));
    }

    /** The `grade_documents` node: one grader call per document, keeping
        the relevant ones in order and raising the flag on any rejection. */
    method GradeDocumentsNode(s: GraphState, llm: Prompt -> string) returns (r: Result<Output, Error>)
      ensures r == GradeOutput(s, llm)
    {
      if s.documents.None? {
        return Failure(KeyError);
      }
      var question := s.question;
      var documents := s.documents.value;
      var filtered: seq<Document> := [];
      var webSearch := No;
      ghost var replies: seq<string> := [];
      for i := 0 to |documents|
        invariant replies == Replies(documents, question, llm)[..i]
        invariant filtered == Kept(documents[..i], replies)
        invariant webSearch == WebSearchFlag(replies)
      {
        var score := llm(GradePrompt(GraderInput(documents[i].pageContent), question));
        var grade := Lower(Strip(score));
        GradeStep(documents, question, llm, i, replies, filtered, webSearch);
        if Contains(grade, "yes") {
          filtered := filtered + [documents[i]];
        } else {
          webSearch := Yes;
        }
        replies := replies + [score];
      }
      assert documents[..|documents|] == documents;
      assert replies == Replies(documents, question, llm);
      r := Success(Output(Some(question), Some(filtered), None, Some(webSearch)));
    }

    /** The `transform_query` node. */
    method TransformQueryNode(s: GraphState, llm: Prompt -> string) returns (r: Result<Output, Error>)
      ensures r == RewriteOutput(s, llm)
    {
      if s.documents.None? {
        return Failure(KeyError);
      }
      var betterQuestion := llm(RewritePrompt(s.question));
      r := Success(Output(Some(betterQuestion), s.documents, None, None));
    }

    /** The `web_search` node: the documents come back unchanged when there
        is no tool, the call raises or the response is empty; otherwise one
        new document holding the joined contents is appended. */
    method WebSearchNode(s: GraphState, search: (WebSearchTool, string) -> SearchOutcome) returns (r: Result<Output, Error>)
      ensures s.documents.None? ==> r == Failure(KeyError)
      ensures s.documents.Some? ==>
                && r.Success? && r.value.question == Some(s.question)
                && r.value.generation.None? && r.value.webSearch.None? && r.value.documents.Some?
      ensures s.documents.Some? && WebContent(webSearchTool, search, s.question).None? ==>
                r.value.documents == s.documents
      ensures s.documents.Some? && WebContent(webSearchTool, search, s.question).Some? ==>
                var docs := r.value.documents.value;
                && |docs| == |s.documents.value| + 1
                && docs[..|docs| - 1] == s.documents.value
                && fresh(docs[|docs| - 1])
                && docs[|docs| - 1].pageContent == WebContent(webSearchTool, search, s.question).value
                && docs[|docs| - 1].metadata == map[]
    {
      if s.documents.None? {
        return Failure(KeyError);
      }
      var question := s.question;
      var documents := s.documents.value;
      if webSearchTool.None? {
        return Success(Output(Some(question), Some(documents), None, None));
      }
      var response := search(webSearchTool.value, question);
      match response {
        case Raised =>
        case Returned(results) =>
          if results == [] {
            return Success(Output(Some(question), Some(documents), None, None));
          }
          var webResults := Join("\n", ContentFields(results));
          var webDoc := new Document(webResults, map[]);
          documents := documents + [webDoc];
      }
      r := Success(Output(Some(question), Some(documents), None, None));
    }

    /** The `generate` node: the chain is invoked with the question alone;
        the documents in the state are passed through untouched. */
    method GenerateNode(s: GraphState, o: Oracles) returns (r: Result<Output, Error>)
      modifies RetrievedFor(rag.retriever, o, s.question)
      ensures r == GenerateOutput(s, rag.chain.Some?, rag.retriever, rag.reranker.topK, o)
      ensures forall d :: d in RetrievedFor(rag.retriever, o, s.question) && old(allocated(d)) ==>
                d.metadata == Scored(old(d.metadata),
                                     if s.documents.Some? && rag.chain.Some?
                                     then RerankScore(rag.retriever, rag.reranker.topK, o, s.question, d) else None)
    {
      if s.documents.None? {
        return Failure(KeyError);
      }
      var question := s.question;
      var documents := s.documents;
      var generation := rag.ChainInvoke(question, o);
      if generation.Failure? {
        return Failure(generation.error);
      }
      r := Success(Output(Some(question), documents, Some(generation.value), None));
    }

    /** The function `add_node` registered under `node`, applied to the
        state. Only `generate` writes to documents, through the reranker. */
    method InvokeNode(node: Node, s: GraphState, o: Oracles) returns (r: Result<Output, Error>)
      requires node != End
      modifies if node == Generate then RetrievedFor(rag.retriever, o, s.question) else []
      ensures node == Retrieve ==> r == RetrieveOutput(rag.retriever, o, s)
      ensures node == GradeDocuments ==> r == GradeOutput(s, o.llm)
      ensures node == TransformQuery ==> r == RewriteOutput(s, o.llm)
      ensures node == WebSearch && s.documents.Some? ==>
                && r.Success? && r.value.question == Some(s.question) && r.value.documents.Some?
      ensures node == Generate ==> r == GenerateOutput(s, rag.chain.Some?, rag.retriever, rag.reranker.topK, o)
    {
      match node {
        case Retrieve => r := RetrieveNode(s, o);
        case GradeDocuments => r := GradeDocumentsNode(s, o.llm);
        case TransformQuery => r := TransformQueryNode(s, o.llm);
        case WebSearch => r := WebSearchNode(s, o.search);
        case Generate => r := GenerateNode(s, o);
      }
    }

    /** `run`: raises before setup; otherwise walks the compiled graph from
        its entry to `End`, merging each node's output into the state, and
        returns the generation of the last node's output. The ghost `trace`
        is the list of nodes visited, `End` included. */
    method Run(question: string, o: Oracles) returns (r: Result<string, Error>, ghost trace: seq<Node>)
      requires Valid()
      modifies RetrievedFor(rag.retriever, o, question), RetrievedFor(rag.retriever, o, o.llm(RewritePrompt(question)))
      ensures app.None? ==> r == Failure(ValueError(WorkflowNotSetUp))
      ensures app.Some? ==> r == RunSpec(rag.retriever.value, rag.reranker.topK, o, question)
      ensures app.Some? && r.Success? ==> trace == RunPath(rag.retriever.value, o, question)
    {
      trace := [];
      if app.None? {
        return Failure(ValueError(WorkflowNotSetUp)), trace;
      }
      var graph := app.value;
      ghost var c := RunContext(rag.retriever.value, rag.reranker.topK, o, question);
      var state := Initial(question);
      var node := graph.entry;
      var value := Output(None, None, None, None);
      ReachedBounds(c, state, trace, value);
      while node != End
        invariant graph == BuiltGraph() && rag.chain.Some? && rag.retriever == Some(c.retriever)
        invariant Reached(c, node, state, trace, value)
        decreases Rank(node)
      {
        ReachedFailure(c, node, state, trace, value);
        var res := InvokeNode(node, state, o);
        if res.Failure? {
          return Failure(res.error), trace + [node];
        }
        var out := res.value;
        ReachedStep(c, node, state, trace, value, out);
        state := Merge(state, out);
        value := out;
        trace := trace + [node];
        node := Next(graph, node, state.documents);
      }
      ReachedBounds(c, state, trace, value);
      r := Success(value.generation.GetOr(NoAnswerGenerated));
      trace := trace + [End];
    }
  }
}
