/** The shapes shared by every part of the pipeline: LangChain's `Document`
    and the Python exceptions the core raises or lets through. */
module Schema {

  /** A value stored in a document's metadata dictionary. */
  datatype MetaValue = Text(text: string) | Number(number: int) | Score(score: real)

  /** LangChain's `Document`. Its text is never rewritten by this code; its
      metadata dictionary is written in place by the reranker. */
  class Document {
    const pageContent: string
    var metadata: map<string, MetaValue>

    constructor (pageContent: string, metadata: map<string, MetaValue>)
      ensures this.pageContent == pageContent && this.metadata == metadata
    {
      this.pageContent := pageContent;
      this.metadata := metadata;
    }
  }

  /** Exceptions: `ValueError` carries the message of a setup guard;
      `AttributeError` is a call on a `None` field, `KeyError` a missing state
      key, `IndexError` a ranker id outside the input list, and `LoadError`
      a failure of document preparation, which is not part of this model. */
  datatype Error =
    | ValueError(message: string)
    | AttributeError
    | KeyError
    | IndexError
    | LoadError
}
