/** The hosted services the pipeline calls, as oracles: the language model,
    the vector-store retrievers, the ranker and the web-search tool. Their
    answers are arbitrary. */
module Services {
  import Retrieval
  import Reranking

  /** What the language model is asked. `RagPrompt` fills the answer
      template's context and question slots, `GradePrompt` the relevance
      grader's document and question slots, `RewritePrompt` the question
      re-writer's single slot. */
  datatype Prompt =
    | RagPrompt(context: string, question: string)
    | GradePrompt(document: string, question: string)
    | RewritePrompt(question: string)

  /** `TavilySearchResults(k=3)` */
  datatype WebSearchTool = TavilySearch(k: nat)

  /** A web-search call either raises or returns a list of result
      dictionaries (possibly empty). */
  datatype SearchOutcome = Raised | Returned(results: seq<map<string, string>>)

  datatype Oracles = Oracles(
    retrieve: Retrieval.RetrieveOracle,
    rank: Reranking.Ranker,
    llm: Prompt -> string,
    search: (WebSearchTool, string) -> SearchOutcome)
}
