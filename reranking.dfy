/** `DocumentReranker.rerank`: the ranker (FlashRank) orders the passages,
    and this code keeps the first `top_k` of its results, maps each result's
    passage id back to the input document and records the score on that
    document in place. The ranker's order is external and taken as given. */
module Reranking {
  import opened Wrappers
  import opened Schema
  import opened Settings

  const RerankScoreKey: string := "rerank_score"

  /** A passage handed to the ranker. The `meta` entry is only echoed back
      by the ranker and is not part of the model. */
  datatype Passage = Passage(id: int, text: string)

  /** One ranker result: the id of a passage and its score. */
  datatype RankResult = RankResult(id: int, score: real)

  /** `ranker.rerank(RerankRequest(query, passages))` */
  type Ranker = (string, seq<Passage>) -> seq<RankResult>

  /** The passages: document `i` becomes passage `i`. */
  function Passages(docs: seq<Document>): (ps: seq<Passage>)
    ensures |ps| == |docs|
    ensures forall i :: 0 <= i < |docs| ==> ps[i].id == i && ps[i].text == docs[i].pageContent
  {
    seq(|docs|, i requires 0 <= i < |docs| => Passage(i, docs[i].pageContent))
  }

  /** How many elements Python's `xs[:k]` keeps of a list of length `len`:
      `k` of them, capped at `len`, for `k >= 0`; all but the last `-k` of
      them for `k < 0`. */
  function SliceEnd(len: nat, k: int): (e: nat)
    ensures e <= len
    ensures 0 <= k ==> e == (if k <= len then k else len)
    ensures k < 0 ==> e == (if -k <= len then len + k else 0)
  {
    if 0 <= k then (if k <= len then k else len)
    else if -k <= len then len + k else 0
  }

  /** Which element Python's `xs[id]` picks in a list of length `n`:
      negative ids count from the end; anything else raises. */
  function ResolveIndex(n: nat, id: int): (r: Option<nat>)
    ensures r.Some? <==> -(n as int) <= id < n
    ensures r.Some? ==> r.value < n && r.value as int == (if id < 0 then id + n else id)
  {
    if 0 <= id < n then Some(id) else if -(n as int) <= id < 0 then Some(id + n) else None
  }

  /** The input positions of the taken results, in the ranker's order, or
      `IndexError` as soon as one id names no input document. */
  function ResultPositions(n: nat, taken: seq<RankResult>): (r: Result<seq<nat>, Error>)
    ensures r.Success? <==> forall j :: 0 <= j < |taken| ==> ResolveIndex(n, taken[j].id).Some?
    ensures r.Failure? ==> r.error == IndexError
    ensures r.Success? ==> |r.value| == |taken|
    ensures r.Success? ==> forall j :: 0 <= j < |taken| ==> Some(r.value[j]) == ResolveIndex(n, taken[j].id)
    decreases |taken|
  {
    if taken == [] then Success([])
    else
      match ResultPositions(n, taken[..|taken| - 1])
      case Failure(e) => Failure(e)
      case Success(ps) =>
        match ResolveIndex(n, taken[|taken| - 1].id)
        case None => Failure(IndexError)
        case Some(p) => Success(ps + [p])
  }

  /** The value `rerank` returns, given the ranker. */
  function RerankSpec(query: string, docs: seq<Document>, topK: int, ranker: Ranker): (r: Result<seq<Document>, Error>)
  {
    if docs == [] then Success([])
    else
      var results := ranker(query, Passages(docs));
      var taken := results[..SliceEnd(|results|, topK)];
      match ResultPositions(|docs|, taken)
      case Failure(e) => Failure(e)
      case Success(ps) => Success(AtPositions(docs, ps))
  }

  /** The documents at the given positions, in that order. */
  function AtPositions(docs: seq<Document>, ps: seq<nat>): (r: seq<Document>)
    requires forall j :: 0 <= j < |ps| ==> ps[j] < |docs|
    ensures |r| == |ps|
    ensures forall j :: 0 <= j < |ps| ==> r[j] == docs[ps[j]]
  {
    seq(|ps|, j requires 0 <= j < |ps| => docs[ps[j]])
  }

  /** Empty input returns the empty list, whatever `top_k` and the ranker. */
  lemma RerankEmpty(query: string, topK: int, ranker: Ranker)
    ensures RerankSpec(query, [], topK, ranker) == Success([])
  {
  }

  /** For a non-negative `top_k` the reranker returns `min(top_k, #results)`
      documents, each the input document whose passage id the ranker
      reported, in the ranker's order. */
  lemma RerankSelectsRankerOrder(query: string, docs: seq<Document>, topK: int, ranker: Ranker)
    requires docs != [] && 0 <= topK
    requires forall j :: 0 <= j < |ranker(query, Passages(docs))| ==>
               0 <= ranker(query, Passages(docs))[j].id < |docs|
    ensures var results := ranker(query, Passages(docs));
            && RerankSpec(query, docs, topK, ranker).Success?
            && |RerankSpec(query, docs, topK, ranker).value| == (if topK < |results| then topK else |results|)
            && forall j :: 0 <= j < |RerankSpec(query, docs, topK, ranker).value| ==>
                 RerankSpec(query, docs, topK, ranker).value[j] == docs[results[j].id]
  {
    var results := ranker(query, Passages(docs));
    var taken := results[..SliceEnd(|results|, topK)];
    assert forall j :: 0 <= j < |taken| ==> taken[j] == results[j];
    var ps := ResultPositions(|docs|, taken);
    assert ps.Success?;
  }

  /** Whatever the ranker reports, a successful rerank returns only
      documents of its input. */
  lemma RerankDrawnFromInput(query: string, docs: seq<Document>, topK: int, ranker: Ranker)
    requires RerankSpec(query, docs, topK, ranker).Success?
    ensures forall d :: d in RerankSpec(query, docs, topK, ranker).value ==> d in docs
  {
  }

  /** Whatever the ranker reports, a successful rerank never returns more
      than a non-negative `top_k` documents, and only documents of its input. */
  lemma RerankBounded(query: string, docs: seq<Document>, topK: int, ranker: Ranker)
    requires 0 <= topK
    requires RerankSpec(query, docs, topK, ranker).Success?
    ensures |RerankSpec(query, docs, topK, ranker).value| <= topK
    ensures forall d :: d in RerankSpec(query, docs, topK, ranker).value ==> d in docs
  {
    RerankDrawnFromInput(query, docs, topK, ranker);
  }

  /** A negative `top_k` is a Python slice from the end: `top_k = -1` drops
      only the ranker's last result. */
  lemma RerankNegativeTopK(query: string, docs: seq<Document>, ranker: Ranker)
    requires docs != [] && |ranker(query, Passages(docs))| == |docs|
    requires forall j :: 0 <= j < |docs| ==> 0 <= ranker(query, Passages(docs))[j].id < |docs|
    ensures RerankSpec(query, docs, -1, ranker).Success?
    ensures |RerankSpec(query, docs, -1, ranker).value| == |docs| - 1
    ensures forall j :: 0 <= j < |docs| - 1 ==>
              RerankSpec(query, docs, -1, ranker).value[j] == docs[ranker(query, Passages(docs))[j].id]
  {
    var results := ranker(query, Passages(docs));
    var taken := results[..SliceEnd(|results|, -1)];
    assert forall j :: 0 <= j < |taken| ==> taken[j] == results[j];
  }

  /** The number of leading taken results whose id resolves: the loop has
      written a score for exactly these when it stops. */
  function ResolvedPrefix(n: nat, taken: seq<RankResult>): (k: nat)
    ensures k <= |taken|
    decreases |taken|
  {
    if taken == [] || ResolveIndex(n, taken[0].id).None? then 0 else 1 + ResolvedPrefix(n, taken[1..])
  }

  lemma {:induction false} ResolvedPrefixAt(n: nat, taken: seq<RankResult>, i: nat)
    requires i <= |taken|
    requires forall j :: 0 <= j < i ==> ResolveIndex(n, taken[j].id).Some?
    requires i < |taken| ==> ResolveIndex(n, taken[i].id).None?
    ensures ResolvedPrefix(n, taken) == i
    decreases i
  {
    if i > 0 {
      ResolvedPrefixAt(n, taken[1..], i - 1);
    }
  }

  /** The score of the last processed result that maps to `d`, if any. */
  function LastScore(d: Document, docs: seq<Document>, processed: seq<RankResult>): Option<real>
    decreases |processed|
  {
    if processed == [] then None
    else
      var last := processed[|processed| - 1];
      var p := ResolveIndex(|docs|, last.id);
      if p.Some? && docs[p.value] == d then Some(last.score)
      else LastScore(d, docs, processed[..|processed| - 1])
  }

  function Scored(m: map<string, MetaValue>, score: Option<real>): map<string, MetaValue> {
    if score.Some? then m[RerankScoreKey := Score(score.value)] else m
  }

  /** The score `rerank` records on `d`, if any: that of the last result,
      among those processed before the loop stops, whose id resolves to
      `d`. */
  function ScoreWritten(d: Document, query: string, docs: seq<Document>, topK: int, ranker: Ranker): Option<real> {
    if docs == [] then None
    else
      var results := ranker(query, Passages(docs));
      var taken := results[..SliceEnd(|results|, topK)];
      LastScore(d, docs, taken[..ResolvedPrefix(|docs|, taken)])
  }

  /** Over results that all resolve, a document gets a score exactly when
      one of the results names it. */
  lemma {:induction false} LastScoreIffNamed(d: Document, docs: seq<Document>, taken: seq<RankResult>)
    requires ResultPositions(|docs|, taken).Success?
    ensures var ps := ResultPositions(|docs|, taken).value;
            LastScore(d, docs, taken).Some? <==> exists j :: 0 <= j < |ps| && ps[j] < |docs| && docs[ps[j]] == d
    decreases |taken|
  {
    if taken != [] {
      var n := |taken| - 1;
      var ps := ResultPositions(|docs|, taken).value;
      var ps0 := ResultPositions(|docs|, taken[..n]).value;
      LastScoreIffNamed(d, docs, taken[..n]);
      assert taken[..n] == taken[..|taken| - 1];
      assert ps == ps0 + [ps[n]];
      assert forall j :: 0 <= j < n ==> ps[j] == ps0[j];
    }
  }

  /** A successful rerank writes a score on exactly the documents it
      returns; every other input document keeps its metadata. */
  lemma RerankScoresExactlyReturned(d: Document, query: string, docs: seq<Document>, topK: int, ranker: Ranker)
    requires RerankSpec(query, docs, topK, ranker).Success?
    ensures ScoreWritten(d, query, docs, topK, ranker).Some? <==> d in RerankSpec(query, docs, topK, ranker).value
  {
    if docs != [] {
      var results := ranker(query, Passages(docs));
      var taken := results[..SliceEnd(|results|, topK)];
      ResolvedPrefixAt(|docs|, taken, |taken|);
      assert taken[..|taken|] == taken;
      LastScoreIffNamed(d, docs, taken);
      var ps := ResultPositions(|docs|, taken).value;
      var value := RerankSpec(query, docs, topK, ranker).value;
      assert |value| == |ps|;
      assert forall j :: 0 <= j < |ps| ==> value[j] == docs[ps[j]];
    }
  }

  class DocumentReranker {
    const topK: int

    /** The configured `top_k`, 3 when the configuration has none. */
    constructor (config: Config)
      ensures topK == RerankerTopK(config)
    {
      topK := RerankerTopK(config);
    }

    /** Returns `RerankSpec` for `top_k` (the configured value when the
        caller gives `None`). Every input document that some processed
        result maps to ends with `rerank_score` set to the score of the last
        such result; every other document keeps its metadata. Results are
        processed in order until one raises `IndexError`. */
    method Rerank(query: string, documents: seq<Document>, topKArg: Option<int>, ranker: Ranker)
      returns (r: Result<seq<Document>, Error>)
      modifies documents
      ensures r == RerankSpec(query, documents, topKArg.GetOr(topK), ranker)
      ensures documents == [] ==> r == Success([])
      ensures forall d :: d in documents ==>
                d.metadata == Scored(old(d.metadata), ScoreWritten(d, query, documents, topKArg.GetOr(topK), ranker))
    {
      var k := if topKArg.None? then topK else topKArg.value;
      if documents == [] {
        return Success([]);
      }
      var n := |documents|;
      var passages := Passages(documents);
      var results := ranker(query, passages);
      var taken := results[..SliceEnd(|results|, k)];
      var reranked: seq<Document> := [];
      var positions: seq<nat> := [];
      var i := 0;
      while i < |taken|
        invariant 0 <= i <= |taken|
        invariant ResultPositions(n, taken[..i]) == Success(positions)
        invariant reranked == AtPositions(documents, positions)
        invariant forall d :: d in documents ==> d.metadata == Scored(old(d.metadata), LastScore(d, documents, taken[..i]))
      {
        var p := ResolveIndex(n, taken[i].id);
        if p.None? {
          assert forall j :: 0 <= j < i ==> taken[..i][j] == taken[j];
          ResolvedPrefixAt(n, taken, i);
          PositionsFailAt(n, taken, i);
          return Failure(IndexError);
        }
        var doc := documents[p.value];
        doc.metadata := doc.metadata[RerankScoreKey := Score(taken[i].score)];
        forall d | d in documents
          ensures d.metadata == Scored(old(d.metadata), LastScore(d, documents, taken[..i + 1]))
        {
          LastScoreStep(d, documents, taken, i, p.value);
          if d == doc {
            ScoredTwice(old(d.metadata), LastScore(d, documents, taken[..i]), taken[i].score);
          }
        }
        PositionsStep(n, taken, i, positions, p.value);
        positions := positions + [p.value];
        reranked := reranked + [doc];
        i := i + 1;
      }
      assert taken[..i] == taken;
      ResolvedPrefixAt(n, taken, i);
      r := Success(reranked);
    }
  }

  /** Processing one more resolved result: it names `docs[p]`. */
  lemma LastScoreStep(d: Document, docs: seq<Document>, taken: seq<RankResult>, i: nat, p: nat)
    requires i < |taken| && ResolveIndex(|docs|, taken[i].id) == Some(p)
    ensures LastScore(d, docs, taken[..i + 1])
            == (if docs[p] == d then Some(taken[i].score) else LastScore(d, docs, taken[..i]))
  {
    assert taken[..i + 1][..i] == taken[..i];
  }

  lemma PositionsStep(n: nat, taken: seq<RankResult>, i: nat, positions: seq<nat>, p: nat)
    requires i < |taken| && ResultPositions(n, taken[..i]) == Success(positions)
    requires ResolveIndex(n, taken[i].id) == Some(p)
    ensures ResultPositions(n, taken[..i + 1]) == Success(positions + [p])
  {
    assert taken[..i + 1][..i] == taken[..i];
  }

  /** A later score overwrites an earlier one. */
  lemma ScoredTwice(m: map<string, MetaValue>, earlier: Option<real>, score: real)
    ensures Scored(m, earlier)[RerankScoreKey := Score(score)] == Scored(m, Some(score))
  {
  }

  /** Once the result at `i` fails to resolve, so does every longer prefix. */
  lemma {:induction false} PositionsFailAt(n: nat, taken: seq<RankResult>, i: nat)
    requires i < |taken| && ResolveIndex(n, taken[i].id).None?
    ensures ResultPositions(n, taken).Failure?
  {
  }
}
