# Corrective RAG pipeline — a Dafny model

This project models the core of a retrieval-augmented question-answering
demo. A PDF is split into chunks and indexed in a vector store. A question
is answered by retrieving chunks, reranking them, formatting them as
numbered context blocks and asking a language model. An agent graph wraps
that pipeline. It grades each retrieved chunk for relevance. When no chunk
is relevant it rewrites the question and runs a web search. In every case
it ends by generating an answer.

The model is organised by source module:

- `Text`, `Seqs`, `Wrappers` hold the Python semantics the code relies on:
  `str.strip`, `str.lower`, substring `in`, `str.join`, the decimal
  rendering of an `int`, an order-preserving filter, and `Option`/`Result`.
- `Schema` holds LangChain's `Document` as a class. Its text is constant.
  Its metadata dictionary is a field that the reranker writes in place.
- `Settings` holds the configuration sections and their defaults.
- `Retrieval` models `DocumentRetriever`, in `project/model/retriever.py`.
- `Reranking` models `DocumentReranker`, in `project/model/reranking.py`.
- `Services` holds the hosted services, which are parameters: the language
  model, the retrievers, the ranker and the web-search tool.
- `Rag` models `RAGPipeline`, in `project/pipeline/rag.py`.
- `Grading` and `AgentGraph` model the relevance rule, the routing
  decision, the compiled graph as a transition relation, the node outputs
  and the end-to-end result `RunSpec`.
- `Agents` models the `AgentWorkflow` class, in
  `project/pipeline/agents.py`. Its node methods are imperative. `Run`
  walks the compiled graph in a loop and is proved to return `RunSpec`.

Where the system's written description and the code disagree, the model
follows the code:

- The description says the final context consists of the documents graded
  relevant, plus the web-search document on the fallback path. In the code,
  `generate` calls the answer chain with the question alone
  (`project/pipeline/agents.py:119`). The chain retrieves and reranks again
  for that question (`project/pipeline/rag.py:54-55`). The graded documents
  and the web-search document are only carried along in the graph state.
  `AgentGraph.AnswerIgnoresKeptDocuments`, `AgentGraph.KeptRunIsPlainRag`
  and `AgentGraph.ThreeChunkRun` state this.
- The description promises that the reranker returns its documents in
  descending score order, with ties broken by the original retrieval
  order. The code does neither: it neither sorts nor breaks ties, and keeps
  the order in which the ranker reports its results
  (`project/model/reranking.py:49-58`). The model follows the code. It
  states the ranker's order (`Reranking.RerankSelectsRankerOrder`) and
  makes no claim about scores or ties.
- The `web_search` flag is computed but never consulted when routing. Only
  an empty list of kept documents sends the run to the rewrite and the web
  search (`AgentGraph.FlagDoesNotRoute`).

## Model

| member | source | states |
|---|---|---|
| Text.TrimStartSpec | project/pipeline/agents.py:103 | `lstrip` keeps a suffix of the reply, cuts only characters for which `str.isspace` holds, and stops at the first other character |
| Text.TrimEndSpec | project/pipeline/agents.py:103 | `rstrip` keeps a prefix, cuts only whitespace, and stops at the last character that is not whitespace |
| Text.StripSpec | project/pipeline/agents.py:103 | `strip` keeps a contiguous slice that neither starts nor ends with whitespace; everything cut on either side is whitespace |
| Text.Lower | project/pipeline/agents.py:103 | `lower` keeps the length and lowers each ASCII capital, leaving every other character |
| Text.ContainsIffOccurs | project/pipeline/agents.py:105 | the substring test `t in s` holds exactly when `t` occurs at some position of `s` |
| Text.StripKeepsWord | project/pipeline/agents.py:103-105 | stripping never changes whether a word with non-space ends occurs in the lower-cased reply |
| Text.JoinSnoc | project/pipeline/rag.py:46-49 | joining one more part appends the separator and the part |
| Text.JoinLength | project/pipeline/rag.py:46-49 | a join's length is the parts' total length plus one separator between each two neighbours |
| Text.NatToString | project/pipeline/rag.py:47 | the rendering of `i+1` is a non-empty string of digits with no leading zero |
| Text.ParseNatToString | project/pipeline/rag.py:47 | reading the rendered number back gives the number |
| Seqs.SelectIsSubsequence | project/pipeline/agents.py:94-107 | the filtered list is the input with elements deleted, in input order |
| Seqs.SelectAtIndices | project/pipeline/agents.py:94-107 | the filtered list holds, in order, exactly the elements at the selected positions |
| Seqs.SelectAll | project/pipeline/agents.py:94-110 | nothing is dropped exactly when every element is kept |
| Seqs.SelectNone | project/pipeline/agents.py:94-110 | the filtered list is empty exactly when no element is kept |
| Settings.ConfigDefaults | project/model/retriever.py:77-79 | a configured key is used as given; a missing key or section gives similarity search and a `top_k` of 3 |
| Retrieval.DefaultMetadataFieldInfo | project/model/retriever.py:35-47 | without metadata fields the self-query retriever is offered `source` (string) and `page` (integer) |
| Retrieval.BaseSearch | project/model/retriever.py:77-90 | MMR exactly when the search type is "mmr", with `k = top_k` and `fetch_k = 2 * top_k`; similarity otherwise, with `k = top_k` and no `fetch_k` |
| Retrieval.BaseSearchWithoutConfig | project/model/retriever.py:77-79 | with no `retriever` section the base retriever is similarity search with `k = 3` |
| Retrieval.BaseSearchUnknownType | project/model/retriever.py:81-90 | any search type other than the exact string "mmr", with no `top_k` given, gives similarity search with `k = 3` |
| Retrieval.DocumentRetriever.constructor | project/model/retriever.py:13-20 | a new retriever module has neither a vector store nor a retriever |
| Retrieval.DocumentRetriever.CreateVectorstore | project/model/retriever.py:22-25 | the store indexes exactly the given chunks and becomes the module's store; the retriever is untouched |
| Retrieval.DocumentRetriever.SetupSelfQueryRetriever | project/model/retriever.py:27-63 | raises `ValueError` with its message before a store exists; otherwise installs and returns a self-query retriever over the store with the given or default description and fields, `k` from the configuration and the limit enabled |
| Retrieval.DocumentRetriever.Retrieve | project/model/retriever.py:65-71 | raises `ValueError` before a retriever exists; otherwise returns what the retriever finds for the query |
| Retrieval.DocumentRetriever.GetBaseRetriever | project/model/retriever.py:73-93 | raises `ValueError` before a store exists; otherwise replaces the retriever by the configured base retriever over the store and returns it |
| Reranking.Passages | project/model/reranking.py:40-47 | passage `i` carries id `i` and the text of document `i` |
| Reranking.SliceEnd | project/model/reranking.py:54 | `results[:top_k]` keeps `min(top_k, n)` results for `top_k >= 0`, and for a negative `top_k` drops that many from the end |
| Reranking.ResolveIndex | project/model/reranking.py:55-56 | `documents[id]` resolves exactly for `-n <= id < n`, counting negative ids from the end; anything else is an `IndexError` |
| Reranking.ResultPositions | project/model/reranking.py:53-58 | every taken result resolves to a position, pointwise, or the loop raises `IndexError` |
| Reranking.RerankEmpty | project/model/reranking.py:36-38 | an empty input returns the empty list whatever `top_k` and the ranker |
| Reranking.RerankSelectsRankerOrder | project/model/reranking.py:49-58 | with valid ids and `top_k >= 0`, the result has `min(top_k, #results)` documents, each the input document the ranker named, in the ranker's order |
| Reranking.RerankDrawnFromInput | project/model/reranking.py:53-58 | a successful rerank returns only input documents |
| Reranking.RerankBounded | project/model/reranking.py:54-58 | a successful rerank never returns more than a non-negative `top_k` documents |
| Reranking.RerankNegativeTopK | project/model/reranking.py:54 | `top_k = -1` drops only the ranker's last result: the survivors are the documents the ranker's leading results name, in the ranker's order |
| Reranking.LastScoreIffNamed | project/model/reranking.py:54-57 | when every taken result resolves, a document receives a score exactly when some result names it |
| Reranking.RerankScoresExactlyReturned | project/model/reranking.py:53-61 | a successful rerank writes `rerank_score` on exactly the documents it returns; every other input document keeps its metadata |
| Reranking.DocumentReranker.constructor | project/model/reranking.py:12-17 | `top_k` is the configured value, 3 by default |
| Reranking.DocumentReranker.Rerank | project/model/reranking.py:26-61 | the loop returns `RerankSpec` for the caller's or the configured `top_k`; each document some processed result names ends with `rerank_score` equal to the last such score (`ScoreWritten`), and every other document keeps its metadata |
| Reranking.PositionsFailAt | project/model/reranking.py:55-56 | once one taken result's id fails to resolve, the whole rerank fails |
| Rag.FormatDocs | project/pipeline/rag.py:45-49 | the context is empty exactly when there are no documents; otherwise it opens with "Document 1:" and the first document's text |
| Rag.FormatDocsSnoc | project/pipeline/rag.py:45-49 | each further document adds a blank line and a block numbered with its 1-based position |
| Rag.FormatDocsSingle | project/pipeline/rag.py:45-49 | the context of one document is its single block, with no separator |
| Rag.FormatDocsLength | project/pipeline/rag.py:45-49 | the context's length is the blocks' total plus two characters between each two blocks |
| Rag.RetrieveAndRerankBounded | project/pipeline/rag.py:40-43 | the reranked context holds at most `top_k` documents, all retrieved for the query |
| Rag.ChainPromptFromQuestion | project/pipeline/rag.py:51-62 | the chain's prompt carries the question unchanged and a context made only of documents retrieved for that same question |
| Rag.RAGPipeline.constructor | project/pipeline/rag.py:17-26 | a new pipeline has no chain and no retriever; the reranker has the configured `top_k` |
| Rag.RAGPipeline.Setup | project/pipeline/rag.py:28-38 | a chunk-preparation failure propagates and changes nothing; otherwise the store indexes the chunks, the base retriever is installed in both the module and the pipeline, and the chain is built |
| Rag.RAGPipeline.BuildChain | project/pipeline/rag.py:51-63 | the chain is built and the retriever is untouched |
| Rag.RAGPipeline.RetrieveAndRerank | project/pipeline/rag.py:40-43 | returns the reranked documents retrieved for the query, or `AttributeError` with no retriever; each retrieved document gets the `rerank_score` the reranker writes, and no other metadata changes |
| Rag.RAGPipeline.ChainInvoke | project/pipeline/rag.py:51-62 | the chain answers the model's reply to the prompt built from the reranked re-retrieval and the question, and the retrieved documents carry the reranker's scores; `AttributeError`, with no metadata written, when no chain exists |
| Rag.RAGPipeline.Invoke | project/pipeline/rag.py:65-71 | raises `ValueError` with its message before setup and writes nothing; otherwise returns the chain's answer, with the reranker's scores written into the retrieved documents |
| Rag.RAGPipeline.GetRetrievedDocuments | project/pipeline/rag.py:73-77 | raises `ValueError` before setup; otherwise returns the reranked documents, with the reranker's scores written into the retrieved documents |
| Grading.GraderInput | project/pipeline/agents.py:98-99 | the relevance grader sees the first 500 characters of the document, or all of a shorter one |
| Grading.Replies | project/pipeline/agents.py:97-102 | one grader reply per document, in retrieval order, each for that document's window and the question |
| Grading.Verdicts | project/pipeline/agents.py:103-105 | one verdict per reply, relevant exactly when the rule holds |
| Grading.RelevantIffContainsYes | project/pipeline/agents.py:102-105 | a reply is relevant exactly when its lower-cased form contains "yes"; surrounding whitespace never matters |
| Grading.RelevantAt | project/pipeline/agents.py:102-105 | a reply is relevant as soon as "yes" occurs in it in any letter case |
| Grading.RejectedWithoutY | project/pipeline/agents.py:102-110 | a reply without the letter y is rejected |
| Grading.AcceptedReplies | project/pipeline/agents.py:102-107 | "yes", "Yes.", " YES\n", "yesterday" and "no, yes" are kept |
| Grading.RejectedReplies | project/pipeline/agents.py:102-110 | "no", "No." and the empty reply are rejected |
| Grading.MaybeRejected | project/pipeline/agents.py:102-110 | "maybe" is rejected |
| Grading.KeptIsSubsequence | project/pipeline/agents.py:94-107 | the kept documents are the input with the rejected ones deleted, in retrieval order |
| Grading.KeptExactly | project/pipeline/agents.py:94-107 | exactly the documents with a relevant reply are kept, each once, at increasing input positions |
| Grading.FlagIffSomethingDropped | project/pipeline/agents.py:95-110 | the flag is "No" exactly when every document is kept, including when there are none |
| Grading.NothingKeptIffAllRejected | project/pipeline/agents.py:97-110 | nothing is kept exactly when every reply is a rejection |
| Grading.KeptSnoc | project/pipeline/agents.py:105-107 | grading one more document appends it exactly when its reply is relevant |
| Grading.FlagSnoc | project/pipeline/agents.py:108-110 | one more rejection raises the flag; one more relevant reply leaves it |
| Grading.GradeStep | project/pipeline/agents.py:97-110 | one more graded document extends the replies, is appended to the kept list exactly when its reply is relevant, and raises the flag exactly when it is not |
| Grading.TwoOfThreeKept | project/pipeline/agents.py:94-112 | replies relevant, relevant, rejected keep the first two chunks in order and raise the flag |
| AgentGraph.DecideToGenerate | project/pipeline/agents.py:156-165 | "transform_query" exactly when the documents are absent or empty, "generate" otherwise |
| AgentGraph.Next | project/pipeline/agents.py:176-188 | the next node is always a successor along one of the graph's edges |
| AgentGraph.BuiltGraphRuns | project/pipeline/agents.py:167-191 | the compiled graph admits exactly two runs: retrieve, grade, generate; or retrieve, grade, transform_query, web_search, generate |
| AgentGraph.EveryRunGeneratesOnce | project/pipeline/agents.py:176-188 | every run visits `generate` exactly once, right before END, visits no node twice, and searches the web only on the fallback path |
| AgentGraph.BuiltGraphAcyclic | project/pipeline/agents.py:176-188 | every edge moves strictly closer to END, so no run cycles |
| AgentGraph.ContentFieldsExactly | project/pipeline/agents.py:148 | exactly the results with a `content` field contribute, each once, in result order |
| AgentGraph.ContentFieldsAll | project/pipeline/agents.py:148 | when every result has a `content` field, all are kept, in result order |
| AgentGraph.WebContent | project/pipeline/agents.py:137-149 | a document is added exactly when a tool exists, the call returns, and the response is non-empty |
| AgentGraph.WebContentSingle | project/pipeline/agents.py:148-149 | a single result with content gives a document holding exactly that text |
| AgentGraph.RunPathFollowsGrading | project/pipeline/agents.py:156-188 | the path of a run is a run of the compiled graph, and it is the fallback exactly when every retrieved document was rejected |
| AgentGraph.RouteAfterGrading | project/pipeline/agents.py:178-185 | the step after grading is the node `decide_to_generate` picks for the kept documents |
| AgentGraph.FlagDoesNotRoute | project/pipeline/agents.py:108-110 | one rejected document among kept ones sets the flag to "Yes", yet the run goes straight to `generate` |
| AgentGraph.AnswerIgnoresKeptDocuments | project/pipeline/agents.py:114-120 | which documents the relevance grader keeps does not change the answer, as long as some are kept |
| AgentGraph.KeptRunIsPlainRag | project/pipeline/agents.py:114-120 | with something kept, the run's answer is the plain chain's answer for the same question, reached without web search |
| AgentGraph.ThreeChunkRun | project/pipeline/agents.py:89-120 | with three chunks graded relevant, relevant, rejected: the first two are kept in order, no web search runs, and the answer's context is the reranked re-retrieval of all three chunks |
| AgentGraph.AllRejectedRun | project/pipeline/agents.py:122-130 | with every document rejected, the run takes the fallback path and the chain is asked the rewritten question |
| AgentGraph.ReachedStep | project/pipeline/agents.py:176-188 | executing a reachable node, merging its output into the state and following its edge reaches the next node of the same run |
| AgentGraph.ReachedBounds | project/pipeline/agents.py:207-213 | a run starts at `retrieve` with only the question; at END the last output's generation is the run's answer |
| AgentGraph.ReachedFailure | project/pipeline/agents.py:114-120 | no node before `generate` can fail on a reachable state; a failing `generate` fails with the run's error |
| Agents.ConfiguredWebSearchTool | project/pipeline/agents.py:41-52 | a tool with `k = 3` exactly when the API key is set to a non-empty value and the tool loads; otherwise web search is disabled |
| Agents.AgentWorkflow.constructor | project/pipeline/agents.py:29-39 | a new workflow has no compiled graph, and the configured web-search tool; its pipeline has no chain and no retriever, and its retriever module is built over the same configuration with no store and no retriever |
| Agents.AgentWorkflow.Setup | project/pipeline/agents.py:78-81 | the pipeline is set up first; a failure propagates and leaves the graph, the pipeline and the retriever module as they were; success indexes the chunks, installs the configured base retriever over them, builds the chain and compiles the graph |
| Agents.AgentWorkflow.RetrieveNode | project/pipeline/agents.py:83-87 | returns the base retriever's documents and the question, unreranked |
| Agents.AgentWorkflow.GradeDocumentsNode | project/pipeline/agents.py:89-112 | the loop returns the kept documents, the question and the flag, as `GradeOutput` specifies; `KeyError` without documents |
| Agents.AgentWorkflow.TransformQueryNode | project/pipeline/agents.py:122-130 | the rewriter's reply replaces the question; the documents go through unchanged |
| Agents.AgentWorkflow.WebSearchNode | project/pipeline/agents.py:132-154 | documents unchanged without a tool, on an exception or on an empty response; otherwise exactly one new document is appended, holding the newline-joined contents and empty metadata |
| Agents.AgentWorkflow.GenerateNode | project/pipeline/agents.py:114-120 | the answer is the chain's answer for the state's question; the documents and the question pass through; the re-retrieved documents carry the reranker's scores, and nothing is written when it fails first |
| Agents.AgentWorkflow.InvokeNode | project/pipeline/agents.py:170-174 | each node name runs the function registered under it |
| Agents.AgentWorkflow.Run | project/pipeline/agents.py:203-214 | raises `ValueError` with its message before setup; otherwise walks the graph and returns `RunSpec`: the chain's answer for the original question when something was kept, for the rewritten question otherwise. The visited nodes are the path the grading decides |

## Left out

- The language model, the embedding model, FAISS, FlashRank, the self-query retriever's query construction and the Tavily client are parameters of the model. Their outputs are arbitrary, but each is a function of its request: a repeated request gets the same answer, so sampling variation of the language model (two chunks with the same first 500 characters graded differently, say) is not modelled. Only the web-search tool may raise (`Services.SearchOutcome.Raised`); exceptions from the other services are not modelled.
- Document preparation (PDF loading and chunking) is not part of this model. Its outcome is the `prepared` argument of `setup`.
- Model loading, configuration loading from YAML, the web front-end, the command-line entry point, logging and the exception helper are not part of this model. The configuration is a value.
- The prompt template texts are left out. A prompt is the datatype of the values that fill its slots.
- `save_graph` draws a picture and is left out.
- The `meta` field of a reranking passage is not passed to the ranker parameter.
- `str.lower` is modelled on ASCII letters only.
- Agents.AgentWorkflow.WebSearchNode: the state's list is extended in place in the source. The model returns the extended sequence, so aliasing of that list is not captured. A response that is not a list of dictionaries is not modelled.
- Agents.AgentWorkflow.InvokeNode: for `web_search` it states only the keys it sets; the full effect is in `WebSearchNode`.
- Agents.AgentWorkflow.Setup: the model assumes that `_build_graph` always compiles (`project/pipeline/agents.py:167-191`). The name `web_search` is both a key of `GraphState` (`project/pipeline/agents.py:23`) and the name of a registered node (`project/pipeline/agents.py:174`). If the graph library refuses a node named after a state key, `setup` raises after the pipeline has been set up, `app` stays unset, and every `run` fails with "Workflow not setup". That library's behaviour is not part of this model.
- Agents.AgentWorkflow.Run: the visited-node trace is stated only for runs that succeed, and the rerank scores written during the run are framed but not restated.
- LangGraph's streaming, checkpointing and recursion limit are left out. `Run` walks the compiled graph directly.
- The "No answer generated" default is modelled, but it cannot occur in the compiled graph, because `generate` always sets a generation.
