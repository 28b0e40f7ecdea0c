/** The `retriever` and `reranker` sections of the YAML configuration, with
    the defaults the code falls back to when a section or key is missing. */
module Settings {
  import opened Wrappers

  const DefaultTopK: int := 3
  const DefaultSearchType: string := "similarity"

  datatype RetrieverSection = RetrieverSection(searchType: Option<string>, topK: Option<int>)
  datatype RerankerSection = RerankerSection(modelName: Option<string>, cacheDir: Option<string>, topK: Option<int>)

  /** A missing section behaves as the empty dictionary `{}`. */
  datatype Config = Config(retriever: Option<RetrieverSection>, reranker: Option<RerankerSection>)

  /** `config.get('retriever', {}).get('search_type', 'similarity')` */
  function RetrieverSearchType(c: Config): string {
    if c.retriever.Some? then c.retriever.value.searchType.GetOr(DefaultSearchType) else DefaultSearchType
  }

  /** `config.get('retriever', {}).get('top_k', 3)` */
  function RetrieverTopK(c: Config): int {
    if c.retriever.Some? then c.retriever.value.topK.GetOr(DefaultTopK) else DefaultTopK
  }

  /** `config.get('reranker', {}).get('top_k', 3)` */
  function RerankerTopK(c: Config): int {
    if c.reranker.Some? then c.reranker.value.topK.GetOr(DefaultTopK) else DefaultTopK
  }

  /** A key that is set is used as given; a key or section that is missing
      gives similarity search and a `top_k` of 3. */
  lemma ConfigDefaults(c: Config)
    ensures RetrieverSearchType(c) == (if c.retriever.Some? && c.retriever.value.searchType.Some?
                                       then c.retriever.value.searchType.value else "similarity")
    ensures RetrieverTopK(c) == (if c.retriever.Some? && c.retriever.value.topK.Some?
                                 then c.retriever.value.topK.value else 3)
    ensures RerankerTopK(c) == (if c.reranker.Some? && c.reranker.value.topK.Some?
                                then c.reranker.value.topK.value else 3)
  {
  }
}
