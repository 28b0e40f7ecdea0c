/** `RAGPipeline`: indexes the chunks, builds the base retriever and the
    answer chain, and answers a question by retrieving, reranking,
    formatting the context and asking the language model. */
module Rag {
  import opened Wrappers
  import opened Schema
  import opened Text
  import opened Settings
  import opened Retrieval
  import opened Reranking
  import opened Services

  const PipelineNotSetUp: string := "Pipeline not setup. Call setup() first."

  /** The answer chain `{context, question} | RAG_PROMPT | llm | StrOutputParser()`;
      what it computes is `ChainSpec`. */
  datatype Chain = RagChain

  /** One block of the context: "Document {number}:\n{page_content}". */
  function Block(number: nat, content: string): string {
    "Document " + NatToString(number) + ":\n" + content
  }

  function Blocks(docs: seq<Document>): (bs: seq<string>)
    ensures |bs| == |docs|
    ensures forall i :: 0 <= i < |docs| ==> bs[i] == Block(i + 1, docs[i].pageContent)
  {
    seq(|docs|, i requires 0 <= i < |docs| => Block(i + 1, docs[i].pageContent))
  }

  /** `_format_docs`: the numbered blocks joined by a blank line. Empty
      exactly when there are no documents; otherwise it opens with the
      block of the first document, numbered 1. */
  function FormatDocs(docs: seq<Document>): (r: string)
    ensures docs == [] <==> r == ""
    ensures docs != [] ==> IsPrefix(Block(1, docs[0].pageContent), r)
  {
    var bs := Blocks(docs);
    if bs == [] then ""
    else JoinStartsWithFirst("\n\n", bs); Join("\n\n", bs)
  }

  /** Appending a document appends one blank line and one block numbered
      with the document's 1-based position: blocks are numbered 1..n in
      input order, one per document. */
  lemma FormatDocsSnoc(docs: seq<Document>, d: Document)
    requires docs != []
    ensures FormatDocs(docs + [d]) == FormatDocs(docs) + "\n\n" + Block(|docs| + 1, d.pageContent)
  {
    assert Blocks(docs + [d]) == Blocks(docs) + [Block(|docs| + 1, d.pageContent)];
    JoinSnoc("\n\n", Blocks(docs), Block(|docs| + 1, d.pageContent));
  }

  /** The context of one document is its block alone, with no separator. */
  lemma FormatDocsSingle(d: Document)
    ensures FormatDocs([d]) == "Document 1:\n" + d.pageContent
  {
    assert NatToString(1) == "1";
  }

  /** The context's length: every block plus two characters between each
      two neighbours. */
  lemma FormatDocsLength(docs: seq<Document>)
    requires docs != []
    ensures |FormatDocs(docs)| == TotalLength(Blocks(docs)) + 2 * (|docs| - 1)
  {
    JoinLength("\n\n", Blocks(docs));
  }

  /** The documents the retriever returns for `query` (none before setup). */
  function RetrievedFor(retriever: Option<Retriever>, o: Oracles, query: string): seq<Document> {
    if retriever.None? then [] else o.retrieve(retriever.value, query)
  }

  /** `_retrieve_and_rerank`: `rerank(query, retriever.invoke(query))`. */
  function RetrieveAndRerankSpec(retriever: Option<Retriever>, topK: int, o: Oracles, query: string)
    : Result<seq<Document>, Error>
  {
    if retriever.None? then Failure(AttributeError)
    else RerankSpec(query, o.retrieve(retriever.value, query), topK, o.rank)
  }

  /** The score the reranker records on `d` while answering `query`. */
  function RerankScore(retriever: Option<Retriever>, topK: int, o: Oracles, query: string, d: Document): Option<real> {
    if retriever.None? then None else ScoreWritten(d, query, o.retrieve(retriever.value, query), topK, o.rank)
  }

  /** The reranked context holds at most `top_k` documents, all of them
      retrieved for the query. */
  lemma RetrieveAndRerankBounded(retriever: Option<Retriever>, topK: int, o: Oracles, query: string)
    requires 0 <= topK
    requires RetrieveAndRerankSpec(retriever, topK, o, query).Success?
    ensures |RetrieveAndRerankSpec(retriever, topK, o, query).value| <= topK
    ensures forall d :: d in RetrieveAndRerankSpec(retriever, topK, o, query).value ==>
              d in RetrievedFor(retriever, o, query)
  {
    RerankBounded(query, o.retrieve(retriever.value, query), topK, o.rank);
  }

  /** What the answer chain returns for `question`: the model's answer to
      the template filled with the formatted reranked context and the
      question. Both slots are computed from `question` alone. */
  function ChainSpec(retriever: Option<Retriever>, topK: int, o: Oracles, question: string)
    : Result<string, Error>
  {
    match RetrieveAndRerankSpec(retriever, topK, o, question)
    case Failure(e) => Failure(e)
    case Success(docs) => Success(o.llm(RagPrompt(FormatDocs(docs), question)))
  }

  /** The chain's prompt, when it gets that far, carries the question
      unchanged and a context made only of documents retrieved for that
      same question. */
  lemma ChainPromptFromQuestion(retriever: Option<Retriever>, topK: int, o: Oracles, question: string)
    requires ChainSpec(retriever, topK, o, question).Success?
    ensures var docs := RetrieveAndRerankSpec(retriever, topK, o, question).value;
            && ChainSpec(retriever, topK, o, question).value == o.llm(RagPrompt(FormatDocs(docs), question))
            && forall d :: d in docs ==> d in RetrievedFor(retriever, o, question)
  {
    RerankDrawnFromInput(question, o.retrieve(retriever.value, question), topK, o.rank);
  }

  class RAGPipeline {
    const retrieverModule: DocumentRetriever
    const reranker: DocumentReranker
    var chain: Option<Chain>
    var retriever: Option<Retriever>

    /** Setup order: the chain is only built once the retriever is. */
    ghost predicate Valid()
      reads this, retrieverModule
    {
      retrieverModule.Valid() && (chain.Some? ==> retriever.Some?)
    }

    constructor (config: Config)
      ensures Valid() && fresh(retrieverModule) && fresh(reranker)
      ensures chain == None && retriever == None
      ensures retrieverModule.config == config
      ensures retrieverModule.vectorstore == None && retrieverModule.retriever == None
      ensures reranker.topK == RerankerTopK(config)
    {
      retrieverModule := new DocumentRetriever(config);
      reranker := new DocumentReranker(config);
      chain := None;
      retriever := None;
    }

    /** Chunks, then the vector store, then the base retriever, then the
        chain. A failure to prepare the chunks propagates and changes
        nothing. */
    method Setup(prepared: Result<seq<Document>, Error>) returns (r: Result<(), Error>)
      requires Valid()
      modifies this, retrieverModule
      ensures Valid()
      ensures prepared.Failure? ==>
                && r == Failure(prepared.error)
                && chain == old(chain) && retriever == old(retriever)
                && unchanged(retrieverModule)
      ensures prepared.Success? ==>
                var store := VectorStore(prepared.value);
                var search := BaseSearch(retrieverModule.config);
                && r == Success(())
                && retrieverModule.vectorstore == Some(store)
                && retriever == Some(VectorStoreRetriever(store, search.0, search.1))
                && retrieverModule.retriever == retriever
                && chain == Some(RagChain)
    {
      if prepared.Failure? {
        return Failure(prepared.error);
      }
      var _ := retrieverModule.CreateVectorstore(prepared.value);
      var base := retrieverModule.GetBaseRetriever();
      retriever := Some(base.value);
      BuildChain();
      r := Success(());
    }

    method BuildChain()
      modifies this
      ensures chain == Some(RagChain) && retriever == old(retriever)
    {
      chain := Some(RagChain);
    }

    /** `_retrieve_and_rerank`; the reranker writes scores into the
        retrieved documents. */
    method RetrieveAndRerank(query: string, o: Oracles) returns (r: Result<seq<Document>, Error>)
      modifies RetrievedFor(retriever, o, query)
      ensures r == RetrieveAndRerankSpec(retriever, reranker.topK, o, query)
      ensures forall d :: d in RetrievedFor(retriever, o, query) && old(allocated(d)) ==>
                d.metadata == Scored(old(d.metadata), RerankScore(retriever, reranker.topK, o, query, d))
    {
      if retriever.None? {
        return Failure(AttributeError);
      }
      var retrieved := o.retrieve(retriever.value, query);
      r := reranker.Rerank(query, retrieved, None, o.rank);
    }

    /** `self.chain.invoke({"question": question})`, unguarded. */
    method ChainInvoke(question: string, o: Oracles) returns (r: Result<string, Error>)
      modifies RetrievedFor(retriever, o, question)
      ensures chain.None? ==> r == Failure(AttributeError)
      ensures chain.Some? ==> r == ChainSpec(retriever, reranker.topK, o, question)
      ensures forall d :: d in RetrievedFor(retriever, o, question) && old(allocated(d)) ==>
                d.metadata == Scored(old(d.metadata), if chain.Some? then RerankScore(retriever, reranker.topK, o, question, d) else None)
    {
      if chain.None? {
        return Failure(AttributeError);
      }
      var docs := RetrieveAndRerank(question, o);
      if docs.Failure? {
        return Failure(docs.error);
      }
      r := Success(o.llm(RagPrompt(FormatDocs(docs.value), question)));
    }

    /** `invoke`: raises before setup, otherwise runs the chain. */
    method Invoke(query: string, o: Oracles) returns (r: Result<string, Error>)
      modifies RetrievedFor(retriever, o, query)
      ensures chain.None? ==> r == Failure(ValueError(PipelineNotSetUp))
      ensures chain.Some? ==> r == ChainSpec(retriever, reranker.topK, o, query)
      ensures forall d :: d in RetrievedFor(retriever, o, query) && old(allocated(d)) ==>
                d.metadata == Scored(old(d.metadata), if chain.Some? then RerankScore(retriever, reranker.topK, o, query, d) else None)
    {
      if chain.None? {
        return Failure(ValueError(PipelineNotSetUp));
      }
      r := ChainInvoke(query, o);
    }

    /** `get_retrieved_documents`: raises before setup, otherwise the
        reranked documents. */
    method GetRetrievedDocuments(query: string, o: Oracles) returns (r: Result<seq<Document>, Error>)
      modifies RetrievedFor(retriever, o, query)
      ensures retriever.None? ==> r == Failure(ValueError(PipelineNotSetUp))
      ensures retriever.Some? ==> r == RetrieveAndRerankSpec(retriever, reranker.topK, o, query)
      ensures forall d :: d in RetrievedFor(retriever, o, query) && old(allocated(d)) ==>
                d.metadata == Scored(old(d.metadata), RerankScore(retriever, reranker.topK, o, query, d))
    {
      if retriever.None? {
        return Failure(ValueError(PipelineNotSetUp));
      }
      r := RetrieveAndRerank(query, o);
    }
  }
}
