/** `DocumentRetriever`: builds the vector store over the chunks, then one of
    two retrievers over it. The store itself (embedding, FAISS) and the
    retrievers' search are external; a retriever is the configuration it was
    built with, and running it is the `RetrieveOracle`. */
module Retrieval {
  import opened Wrappers
  import opened Schema
  import opened Settings

  datatype SearchType = Similarity | Mmr

  /** The `search_kwargs` dictionary: `k`, and `fetch_k` for diversity search. */
  datatype SearchKwargs = SearchKwargs(k: int, fetchK: Option<int>)

  /** LangChain's `AttributeInfo`: a metadata field the self-query retriever may filter on. */
  datatype AttributeInfo = AttributeInfo(name: string, description: string, typeName: string)

  /** The FAISS index built from these chunks. */
  datatype VectorStore = VectorStore(documents: seq<Document>)

  datatype Retriever =
    | VectorStoreRetriever(store: VectorStore, searchType: SearchType, kwargs: SearchKwargs)
    | SelfQueryRetriever(store: VectorStore, documentContents: string,
                         metadataFieldInfo: seq<AttributeInfo>, kwargs: SearchKwargs, enableLimit: bool)

  /** `retriever.invoke(query)`, answered by the vector store. */
  type RetrieveOracle = (Retriever, string) -> seq<Document>

  const StoreNotInitialized: string := "Vector store not initialized."
  const StoreNotInitializedForSelfQuery: string := "Vector store not initialized. Call create_vectorstore first."
  const RetrieverNotInitialized: string := "Retriever not initialized. Call setup_self_query_retriever first."
  const DefaultDocumentContentDescription: string := "Research papers and technical documents"

  /** The metadata fields offered to the self-query retriever when the caller gives none. */
  function DefaultMetadataFieldInfo(): (fields: seq<AttributeInfo>)
    ensures |fields| == 2
    ensures fields[0].name == "source" && fields[0].typeName == "string"
    ensures fields[1].name == "page" && fields[1].typeName == "integer"
  {
    [ AttributeInfo("source", "The source file or document name", "string"),
      AttributeInfo("page", "The page number in the document", "integer") ]
  }

  /** The search the base retriever runs: diversity search exactly when the
      configured `search_type` is "mmr", fetching twice `top_k` candidates;
      similarity search for every other value. Both return `top_k` documents. */
  function BaseSearch(c: Config): (r: (SearchType, SearchKwargs))
    ensures r.0 == Mmr <==> RetrieverSearchType(c) == "mmr"
    ensures r.1.k == RetrieverTopK(c)
    ensures r.0 == Mmr ==> r.1.fetchK == Some(2 * RetrieverTopK(c))
    ensures r.0 == Similarity ==> r.1.fetchK == None
  {
    var topK := RetrieverTopK(c);
    if RetrieverSearchType(c) == "mmr" then (Mmr, SearchKwargs(topK, Some(topK * 2)))
    else (Similarity, SearchKwargs(topK, None))
  }

  /** Without a `retriever` section the base retriever is a similarity
      search for 3 documents. */
  lemma BaseSearchWithoutConfig(c: Config)
    requires c.retriever.None?
    ensures BaseSearch(c) == (Similarity, SearchKwargs(3, None))
  {
  }

  /** Only the exact string "mmr" selects diversity search: an unknown or
      differently cased value silently falls back to similarity. */
  lemma BaseSearchUnknownType(c: Config, t: string)
    requires c.retriever == Some(RetrieverSection(Some(t), None))
    requires t != "mmr"
    ensures BaseSearch(c) == (Similarity, SearchKwargs(3, None))
  {
  }

  class DocumentRetriever {
    const config: Config
    var vectorstore: Option<VectorStore>
    var retriever: Option<Retriever>

    /** Setup order: a retriever only ever exists over a vector store. */
    ghost predicate Valid()
      reads this
    {
      retriever.Some? ==> vectorstore.Some?
    }

    constructor (config: Config)
      ensures Valid()
      ensures this.config == config && vectorstore == None && retriever == None
    {
      this.config := config;
      vectorstore := None;
      retriever := None;
    }

    /** Indexes the chunks; an existing retriever is kept as it is. */
    method CreateVectorstore(documents: seq<Document>) returns (store: VectorStore)
      requires Valid()
      modifies this
      ensures Valid()
      ensures store == VectorStore(documents) && vectorstore == Some(store)
      ensures retriever == old(retriever)
    {
      store := VectorStore(documents);
      vectorstore := Some(store);
    }

    /** Raises before a store exists; otherwise replaces the retriever with
        a self-query retriever over the store, offering `source` and `page`
        when no metadata fields are given, and returning the `top_k` from the
        configuration. */
    method SetupSelfQueryRetriever(documentContentDescription: string := DefaultDocumentContentDescription,
                                   metadataFieldInfo: Option<seq<AttributeInfo>> := None)
      returns (r: Result<Retriever, Error>)
      requires Valid()
      modifies this
      ensures Valid() && vectorstore == old(vectorstore)
      ensures old(vectorstore).None? ==>
                r == Failure(ValueError(StoreNotInitializedForSelfQuery)) && retriever == old(retriever)
      ensures old(vectorstore).Some? ==>
                && r == Success(SelfQueryRetriever(vectorstore.value, documentContentDescription,
                                                   metadataFieldInfo.GetOr(DefaultMetadataFieldInfo()),
                                                   SearchKwargs(RetrieverTopK(config), None), true))
                && retriever == Some(r.value)
    {
      if vectorstore.None? {
        return Failure(ValueError(StoreNotInitializedForSelfQuery));
      }
      var fields := if metadataFieldInfo.None? then DefaultMetadataFieldInfo() else metadataFieldInfo.value;
      var built := SelfQueryRetriever(vectorstore.value, documentContentDescription, fields,
                                      SearchKwargs(RetrieverTopK(config), None), true);
      retriever := Some(built);
      r := Success(built);
    }

    /** Raises before a retriever exists; otherwise returns what it finds. */
    method Retrieve(query: string, invoke: RetrieveOracle) returns (r: Result<seq<Document>, Error>)
      ensures retriever.None? ==> r == Failure(ValueError(RetrieverNotInitialized))
      ensures retriever.Some? ==> r == Success(invoke(retriever.value, query))
    {
      if retriever.None? {
        return Failure(ValueError(RetrieverNotInitialized));
      }
      r := Success(invoke(retriever.value, query));
    }

    /** Raises before a store exists; otherwise replaces the retriever,
        whatever it was, by the configured base retriever over the store. */
    method GetBaseRetriever() returns (r: Result<Retriever, Error>)
      requires Valid()
      modifies this
      ensures Valid() && vectorstore == old(vectorstore)
      ensures old(vectorstore).None? ==>
                r == Failure(ValueError(StoreNotInitialized)) && retriever == old(retriever)
      ensures old(vectorstore).Some? ==>
                && r == Success(VectorStoreRetriever(vectorstore.value, BaseSearch(config).0, BaseSearch(config).1))
                && retriever == Some(r.value)
    {
      if vectorstore.None? {
        return Failure(ValueError(StoreNotInitialized));
      }
      var search := BaseSearch(config);
      var built := VectorStoreRetriever(vectorstore.value, search.0, search.1);
      retriever := Some(built);
      r := Success(built);
    }
  }
}
