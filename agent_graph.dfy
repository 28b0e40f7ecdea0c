/** The corrective-RAG control graph of `AgentWorkflow`: its nodes, the
    routing decision after grading, the compiled graph as a transition
    relation, the state the nodes pass along, and what each node returns.
    The end-to-end result of a run is `RunSpec`; `Agents.AgentWorkflow.Run`
    is proved to compute it by walking the graph. */
module AgentGraph {
  import opened Wrappers
  import opened Schema
  import opened Text
  import opened Seqs
  import opened Retrieval
  import opened Reranking
  import opened Services
  import opened Rag
  import opened Grading

  datatype Node = Retrieve | GradeDocuments | TransformQuery | WebSearch | Generate | End

  /** The two labels `decide_to_generate` returns. */
  datatype Decision = ToTransformQuery | ToGenerate

  /** `decide_to_generate`: `state.get("documents", [])`, then rewrite the
      question when that list is empty and generate otherwise. */
  function DecideToGenerate(documents: Option<seq<Document>>): (d: Decision)
    ensures d == ToTransformQuery <==> documents.None? || documents.value == []
    ensures d == ToGenerate <==> documents.Some? && |documents.value| > 0
  {
    if |documents.GetOr([])| == 0 then ToTransformQuery else ToGenerate
  }

  /** `add_edge` gives a fixed successor; `add_conditional_edges` maps the
      two decisions to two nodes. */
  datatype Edge = Fixed(to: Node) | Conditional(onTransformQuery: Node, onGenerate: Node)

  /** A compiled graph: where START leads, and the outgoing edge of each
      node. `End` has none. */
  datatype Graph = Graph(entry: Node, edges: map<Node, Edge>)

  /** `_build_graph` */
  function BuiltGraph(): Graph {
    Graph(Retrieve, map[
      Retrieve := Fixed(GradeDocuments),
      GradeDocuments := Conditional(TransformQuery, Generate),
      TransformQuery := Fixed(WebSearch),
      WebSearch := Fixed(Generate),
      Generate := Fixed(End)])
  }

  /** The nodes an edge out of `n` can lead to. */
  function Successors(g: Graph, n: Node): set<Node> {
    if n !in g.edges then {}
    else match g.edges[n]
      case Fixed(t) => {t}
      case Conditional(a, b) => {a, b}
  }

  /** The node a run moves to after `n`, given the documents in the state. */
  function Next(g: Graph, n: Node, documents: Option<seq<Document>>): (m: Node)
    requires n in g.edges
    ensures m in Successors(g, n)
  {
    match g.edges[n]
    case Fixed(t) => t
    case Conditional(a, b) => if DecideToGenerate(documents) == ToTransformQuery then a else b
  }

  /** `p` is a walk from START's node to `End` along the graph's edges. */
  predicate IsRun(g: Graph, p: seq<Node>) {
    |p| >= 1 && p[0] == g.entry && p[|p| - 1] == End
    && forall i :: 0 <= i < |p| - 1 ==> p[i + 1] in Successors(g, p[i])
  }

  function ShortPath(): seq<Node> {
    [Retrieve, GradeDocuments, Generate, End]
  }

  function FallbackPath(): seq<Node> {
    [Retrieve, GradeDocuments, TransformQuery, WebSearch, Generate, End]
  }

  /** The built graph admits exactly two runs: straight to generation, or
      through the question rewrite and the web search first. */
  lemma BuiltGraphRuns(p: seq<Node>)
    ensures IsRun(BuiltGraph(), p) <==> p == ShortPath() || p == FallbackPath()
  {
    var g := BuiltGraph();
    if IsRun(g, p) {
      assert p[0] == Retrieve;
      assert |p| > 1 && p[1] == GradeDocuments;
      assert |p| > 2 && p[1 + 1] in {TransformQuery, Generate};
      if p[2] == Generate {
        assert |p| > 3 && p[3] == End;
        if |p| > 4 {
          assert p[4] in Successors(g, p[3]);
        }
        assert p == ShortPath();
      } else {
        assert |p| > 3 && p[3] == WebSearch;
        assert |p| > 4 && p[4] == Generate;
        assert |p| > 5 && p[5] == End;
        if |p| > 6 {
          assert p[6] in Successors(g, p[5]);
        }
        assert p == FallbackPath();
      }
    }
  }

  /** Every run of the built graph visits `generate` exactly once, as its
      last step before `End`, and visits no node twice. */
  lemma EveryRunGeneratesOnce(p: seq<Node>)
    requires IsRun(BuiltGraph(), p)
    ensures |p| >= 2 && p[|p| - 2] == Generate
    ensures forall i :: 0 <= i < |p| && p[i] == Generate ==> i == |p| - 2
    ensures forall i, j :: 0 <= i < j < |p| ==> p[i] != p[j]
    ensures WebSearch in p ==> p == FallbackPath()
  {
    BuiltGraphRuns(p);
  }

  /** How far a node is from `End`. */
  function Rank(n: Node): nat {
    match n
    case Retrieve => 5
    case GradeDocuments => 4
    case TransformQuery => 3
    case WebSearch => 2
    case Generate => 1
    case End => 0
  }

  /** Every edge of the built graph moves strictly closer to `End`, so no
      run can cycle. */
  lemma BuiltGraphAcyclic(n: Node, m: Node)
    requires m in Successors(BuiltGraph(), n)
    ensures Rank(m) < Rank(n)
  {
  }

  /** The graph state: the question, and the keys the nodes have set so
      far (`None` for a key not yet in the dictionary). */
  datatype GraphState = GraphState(
    question: string,
    documents: Option<seq<Document>>,
    generation: Option<string>,
    webSearch: Option<YesNo>)

  /** What a node returns: the keys of its result dictionary. */
  datatype Output = Output(
    question: Option<string>,
    documents: Option<seq<Document>>,
    generation: Option<string>,
    webSearch: Option<YesNo>)

  /** `inputs = {"question": question}` */
  function Initial(question: string): GraphState {
    GraphState(question, None, None, None)
  }

  /** A node's output overwrites the keys it returns and leaves the others. */
  function Merge(s: GraphState, out: Output): GraphState {
    GraphState(
      out.question.GetOr(s.question),
      if out.documents.Some? then out.documents else s.documents,
      if out.generation.Some? then out.generation else s.generation,
      if out.webSearch.Some? then out.webSearch else s.webSearch)
  }

  /** `retrieve`: the base retriever's documents for the question; a
      pipeline without a retriever fails on the attribute access. */
  function RetrieveOutput(retriever: Option<Retriever>, o: Oracles, s: GraphState): Result<Output, Error> {
    if retriever.None? then Failure(AttributeError)
    else Success(Output(Some(s.question), Some(o.retrieve(retriever.value, s.question)), None, None))
  }

  /** `grade_documents`: the kept documents and the web-search flag. */
  function GradeOutput(s: GraphState, llm: Prompt -> string): Result<Output, Error> {
    if s.documents.None? then Failure(KeyError)
    else
      var replies := Replies(s.documents.value, s.question, llm);
      Success(Output(Some(s.question), Some(Kept(s.documents.value, replies)), None, Some(WebSearchFlag(replies))))
  }

  /** `transform_query`: the re-writer's reply replaces the question; the
      documents go through unchanged. */
  function RewriteOutput(s: GraphState, llm: Prompt -> string): Result<Output, Error> {
    if s.documents.None? then Failure(KeyError)
    else Success(Output(Some(llm(RewritePrompt(s.question))), s.documents, None, None))
  }

  /** `generate`: the chain's answer for the question. The documents in the
      state are read but only passed through. */
  function GenerateOutput(s: GraphState, chainBuilt: bool, retriever: Option<Retriever>, topK: int, o: Oracles)
    : Result<Output, Error>
  {
    if s.documents.None? then Failure(KeyError)
    else if !chainBuilt then Failure(AttributeError)
    else match ChainSpec(retriever, topK, o, s.question)
      case Failure(e) => Failure(e)
      case Success(answer) => Success(Output(Some(s.question), s.documents, Some(answer), None))
  }

  /** Which results carry a `content` field. */
  function HasContent(results: seq<map<string, string>>): (keep: seq<bool>)
    ensures |keep| == |results|
    ensures forall j :: 0 <= j < |results| ==> keep[j] == ("content" in results[j])
  {
    seq(|results|, j requires 0 <= j < |results| => "content" in results[j])
  }

  /** Each result's `content` field, or "" where it has none (those are
      never selected). */
  function ContentOrEmpty(results: seq<map<string, string>>): (cs: seq<string>)
    ensures |cs| == |results|
    ensures forall j :: 0 <= j < |results| && "content" in results[j] ==> cs[j] == results[j]["content"]
  {
    seq(|results|, j requires 0 <= j < |results| => if "content" in results[j] then results[j]["content"] else "")
  }

  /** `[d["content"] for d in response if "content" in d]`: the `content`
      field of each result that has one, in result order. */
  function ContentFields(results: seq<map<string, string>>): seq<string> {
    Select(ContentOrEmpty(results), HasContent(results))
  }

  /** Exactly the results with a `content` field contribute, each once and
      in result order: the kept strings are the contents at the increasing
      positions of those results. */
  lemma ContentFieldsExactly(results: seq<map<string, string>>)
    ensures var r, idx := ContentFields(results), SelectedIndices(HasContent(results));
            && |r| == |idx|
            && (forall j :: 0 <= j < |idx| ==>
                  idx[j] < |results| && "content" in results[idx[j]] && r[j] == results[idx[j]]["content"])
            && (forall j, k :: 0 <= j < k < |idx| ==> idx[j] < idx[k])
            && (forall j :: 0 <= j < |results| ==> ("content" in results[j] <==> j in idx))
  {
    SelectAtIndices(ContentOrEmpty(results), HasContent(results));
    SelectedIndicesIncreasing(HasContent(results));
    SelectedIndicesMembers(HasContent(results));
  }

  /** When every result has a `content` field, all of them are kept, in
      order. */
  lemma ContentFieldsAll(results: seq<map<string, string>>)
    requires forall j :: 0 <= j < |results| ==> "content" in results[j]
    ensures |ContentFields(results)| == |results|
    ensures forall j :: 0 <= j < |results| ==> ContentFields(results)[j] == results[j]["content"]
  {
    SelectAll(ContentOrEmpty(results), HasContent(results));
  }

  /** The text of the document `web_search` appends, if it appends one:
      none without a tool, when the call raises, or when the response is
      empty; otherwise the contents joined by newlines. */
  function WebContent(tool: Option<WebSearchTool>, search: (WebSearchTool, string) -> SearchOutcome, question: string)
    : (r: Option<string>)
    ensures r.Some? <==> tool.Some? && search(tool.value, question).Returned? && search(tool.value, question).results != []
  {
    if tool.None? then None
    else match search(tool.value, question)
      case Raised => None
      case Returned(results) =>
        if results == [] then None else Some(Join("\n", ContentFields(results)))
  }

  /** A single search result with a content field becomes the document's
      whole text. */
  lemma WebContentSingle(tool: WebSearchTool, search: (WebSearchTool, string) -> SearchOutcome, question: string, text: string)
    requires search(tool, question) == Returned([map["content" := text]])
    ensures WebContent(Some(tool), search, question) == Some(text)
  {
    ContentFieldsAll([map["content" := text]]);
  }

  /** What `grade_documents` keeps for the question. */
  function KeptFor(retriever: Retriever, o: Oracles, question: string): seq<Document> {
    var docs := o.retrieve(retriever, question);
    Kept(docs, Replies(docs, question, o.llm))
  }

  /** The question `generate` sees: the original one when something was
      kept, the re-writer's reply otherwise. */
  function FinalQuestion(retriever: Retriever, o: Oracles, question: string): string {
    if KeptFor(retriever, o, question) == [] then o.llm(RewritePrompt(question)) else question
  }

  /** The nodes a run visits, `End` included. */
  function RunPath(retriever: Retriever, o: Oracles, question: string): seq<Node> {
    if KeptFor(retriever, o, question) == [] then FallbackPath() else ShortPath()
  }

  /** What `run` returns on a built workflow: the generation of the last
      node, which is the chain's answer for the final question. */
  function RunSpec(retriever: Retriever, topK: int, o: Oracles, question: string): Result<string, Error> {
    ChainSpec(Some(retriever), topK, o, FinalQuestion(retriever, o, question))
  }

  /** The path a run takes is a run of the built graph, and it is the
      fallback exactly when the relevance grader rejected every retrieved document
      (in particular when nothing was retrieved). */
  lemma RunPathFollowsGrading(retriever: Retriever, o: Oracles, question: string)
    ensures IsRun(BuiltGraph(), RunPath(retriever, o, question))
    ensures var docs := o.retrieve(retriever, question);
            var replies := Replies(docs, question, o.llm);
            (RunPath(retriever, o, question) == FallbackPath()
             <==> forall i :: 0 <= i < |docs| ==> !IsRelevant(replies[i]))
  {
    var docs := o.retrieve(retriever, question);
    NothingKeptIffAllRejected(docs, Replies(docs, question, o.llm));
    BuiltGraphRuns(RunPath(retriever, o, question));
  }

  /** The route after grading is the one `decide_to_generate` picks for the
      kept documents. */
  lemma RouteAfterGrading(retriever: Retriever, o: Oracles, question: string)
    ensures var kept := KeptFor(retriever, o, question);
            RunPath(retriever, o, question)[2] == Next(BuiltGraph(), GradeDocuments, Some(kept))
  {
  }

  /** The web-search flag does not steer the run: one rejected document
      among kept ones sets it to "Yes", yet the run goes straight to
      generation. */
  lemma FlagDoesNotRoute(d1: Document, d2: Document, r1: string, r2: string)
    requires IsRelevant(r1) && !IsRelevant(r2)
    ensures WebSearchFlag([r1, r2]) == Yes
    ensures DecideToGenerate(Some(Kept([d1, d2], [r1, r2]))) == ToGenerate
  {
    var v := Verdicts([r1, r2]);
    var docs := [d1, d2];
    assert Select(docs[..1], v[..1]) == [d1] by {
      assert docs[..1][..0] == [] && v[..1][..0] == [];
    }
    assert docs[..|docs| - 1] == docs[..1] && v[..|docs| - 1] == v[..1];
    assert !IsRelevant([r1, r2][1]);
  }

  /** Which documents the relevance grader keeps does not change the answer: two
      runs that retrieve and rank alike, and whose model agrees on answer
      and rewrite prompts, give the same result as long as each keeps
      something, whatever the relevance grader said document by document. */
  lemma AnswerIgnoresKeptDocuments(retriever: Retriever, topK: int, o1: Oracles, o2: Oracles, question: string)
    requires o1.retrieve == o2.retrieve && o1.rank == o2.rank
    requires forall p: Prompt :: !p.GradePrompt? ==> o1.llm(p) == o2.llm(p)
    requires KeptFor(retriever, o1, question) != [] && KeptFor(retriever, o2, question) != []
    ensures RunSpec(retriever, topK, o1, question) == RunSpec(retriever, topK, o2, question)
  {
    var docs := RetrieveAndRerankSpec(Some(retriever), topK, o1, question);
    assert docs == RetrieveAndRerankSpec(Some(retriever), topK, o2, question);
    if docs.Success? {
      assert o1.llm(RagPrompt(FormatDocs(docs.value), question)) == o2.llm(RagPrompt(FormatDocs(docs.value), question));
    }
  }

  /** With something kept, `run` answers exactly what `RAGPipeline.invoke`
      answers for the same question: the graded documents never reach the
      prompt, whose context is re-retrieved and reranked. */
  lemma KeptRunIsPlainRag(retriever: Retriever, topK: int, o: Oracles, question: string)
    requires KeptFor(retriever, o, question) != []
    ensures RunSpec(retriever, topK, o, question) == ChainSpec(Some(retriever), topK, o, question)
    ensures RunPath(retriever, o, question) == ShortPath()
  {
  }

  /** Three retrieved chunks, the first two graded relevant and the third
      not: the relevance grader keeps the first two in order, the run skips the web
      search, and the answer's context is the reranked re-retrieval of all
      three chunks, not the two kept ones. */
  lemma ThreeChunkRun(retriever: Retriever, topK: int, o: Oracles, question: string,
                      c1: Document, c2: Document, c3: Document)
    requires o.retrieve(retriever, question) == [c1, c2, c3]
    requires var rs := Replies([c1, c2, c3], question, o.llm);
             IsRelevant(rs[0]) && IsRelevant(rs[1]) && !IsRelevant(rs[2])
    ensures KeptFor(retriever, o, question) == [c1, c2]
    ensures WebSearch !in RunPath(retriever, o, question)
    ensures RerankSpec(question, [c1, c2, c3], topK, o.rank).Success? ==>
              RunSpec(retriever, topK, o, question)
              == Success(o.llm(RagPrompt(FormatDocs(RerankSpec(question, [c1, c2, c3], topK, o.rank).value), question)))
  {
    TwoOfThreeKept(c1, c2, c3, Replies([c1, c2, c3], question, o.llm));
  }

  /** Every retrieved document rejected: the run goes through the rewrite
      and the web search, and the chain is asked the rewritten question. */
  lemma AllRejectedRun(retriever: Retriever, topK: int, o: Oracles, question: string)
    requires var docs := o.retrieve(retriever, question);
             forall i :: 0 <= i < |docs| ==> !IsRelevant(Replies(docs, question, o.llm)[i])
    ensures RunPath(retriever, o, question) == FallbackPath()
    ensures RunSpec(retriever, topK, o, question)
            == ChainSpec(Some(retriever), topK, o, o.llm(RewritePrompt(question)))
  {
    var docs := o.retrieve(retriever, question);
    NothingKeptIffAllRejected(docs, Replies(docs, question, o.llm));
  }

  /** One run of `run`: the pipeline's retriever and reranker `top_k`, the
      services, and the question asked. */
  datatype RunContext = RunContext(retriever: Retriever, topK: int, o: Oracles, question: string)

  /** The dictionaries the function registered under `node` can return for
      state `s` in context `c`. `web_search` may append a document it
      creates, so only the keys it sets are fixed here. */
  ghost predicate NodeReturns(c: RunContext, node: Node, s: GraphState, out: Output) {
    match node
    case Retrieve => RetrieveOutput(Some(c.retriever), c.o, s) == Success(out)
    case GradeDocuments => GradeOutput(s, c.o.llm) == Success(out)
    case TransformQuery => RewriteOutput(s, c.o.llm) == Success(out)
    case WebSearch => out.question == Some(s.question) && out.documents.Some?
    case Generate => GenerateOutput(s, true, Some(c.retriever), c.topK, c.o) == Success(out)
    case End => false
  }

  /** The nodes visited before `node`, on the path the grading decides. */
  function TraceBefore(c: RunContext, node: Node): seq<Node> {
    var fallback := KeptFor(c.retriever, c.o, c.question) == [];
    match node
    case Retrieve => []
    case GradeDocuments => [Retrieve]
    case TransformQuery => [Retrieve, GradeDocuments]
    case WebSearch => [Retrieve, GradeDocuments, TransformQuery]
    case Generate =>
      if fallback then [Retrieve, GradeDocuments, TransformQuery, WebSearch] else [Retrieve, GradeDocuments]
    case End =>
      if fallback then [Retrieve, GradeDocuments, TransformQuery, WebSearch, Generate]
      else [Retrieve, GradeDocuments, Generate]
  }

  /** The state of a run of the built graph when it is about to execute
      `node`, having visited `trace` and last received `value`. */
  ghost predicate Reached(c: RunContext, node: Node, s: GraphState, trace: seq<Node>, value: Output) {
    var fallback := KeptFor(c.retriever, c.o, c.question) == [];
    && trace == TraceBefore(c, node)
    && (node == Retrieve ==> s == Initial(c.question))
    && (node == GradeDocuments ==>
          s.question == c.question && s.documents == Some(c.o.retrieve(c.retriever, c.question)))
    && (node == TransformQuery ==> fallback && s.question == c.question && s.documents.Some?)
    && (node == WebSearch ==> fallback && s.question == c.o.llm(RewritePrompt(c.question)) && s.documents.Some?)
    && (node == Generate ==> s.question == FinalQuestion(c.retriever, c.o, c.question) && s.documents.Some?)
    && (node == End ==>
          value.generation.Some? && RunSpec(c.retriever, c.topK, c.o, c.question) == Success(value.generation.value))
  }

  /** Executing a reachable node, merging what it returns and following
      its edge reaches the next node of the same run; no node before
      `generate` can fail, and `generate` fails exactly as the run does. */
  lemma ReachedStep(c: RunContext, node: Node, s: GraphState, trace: seq<Node>, value: Output, out: Output)
    requires node != End && Reached(c, node, s, trace, value) && NodeReturns(c, node, s, out)
    ensures var t := Merge(s, out);
            Reached(c, Next(BuiltGraph(), node, t.documents), t, trace + [node], out)
  {
    var t := Merge(s, out);
    if node == GradeDocuments {
      assert t.documents == Some(KeptFor(c.retriever, c.o, c.question));
    }
  }

  /** The start of a run, and what a run that reached `End` returns and
      visited. */
  lemma ReachedBounds(c: RunContext, s: GraphState, trace: seq<Node>, value: Output)
    ensures Reached(c, BuiltGraph().entry, Initial(c.question), [], value)
    ensures Reached(c, End, s, trace, value) ==>
              && RunSpec(c.retriever, c.topK, c.o, c.question) == Success(value.generation.value)
              && trace + [End] == RunPath(c.retriever, c.o, c.question)
  {
  }

  /** The only node of a reachable step that can fail is `generate`, and
      then with the error the run reports. */
  lemma ReachedFailure(c: RunContext, node: Node, s: GraphState, trace: seq<Node>, value: Output)
    requires node != End && Reached(c, node, s, trace, value)
    ensures node == Retrieve ==> RetrieveOutput(Some(c.retriever), c.o, s).Success?
    ensures node == GradeDocuments ==> GradeOutput(s, c.o.llm).Success?
    ensures node == TransformQuery ==> RewriteOutput(s, c.o.llm).Success?
    ensures node == WebSearch ==> s.documents.Some?
    ensures node == Generate ==> s.question == c.question || s.question == c.o.llm(RewritePrompt(c.question))
    ensures node == Generate && GenerateOutput(s, true, Some(c.retriever), c.topK, c.o).Failure? ==>
              RunSpec(c.retriever, c.topK, c.o, c.question)
              == Failure(GenerateOutput(s, true, Some(c.retriever), c.topK, c.o).error)
  {
  }
}
