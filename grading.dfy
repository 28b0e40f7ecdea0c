/** The relevance grader's decision rule: the model is asked for "yes" or
    "no" about each retrieved document, and the document is kept only when
    the stripped, lower-cased reply contains "yes". Anything else, including
    an empty or malformed reply, rejects it (fail-closed). */
module Grading {
  import opened Schema
  import opened Text
  import opened Seqs
  import opened Services

  /** Only the first 500 characters of a document are shown to the relevance grader. */
  const GraderWindow: nat := 500

  /** `"yes" in score.strip().lower()` */
  predicate IsRelevant(reply: string) {
    Contains(Lower(Strip(reply)), "yes")
  }

  /** `page_content[:500]` */
  function GraderInput(content: string): (r: string)
    ensures |r| == (if |content| < GraderWindow then |content| else GraderWindow)
    ensures IsPrefix(r, content)
  {
    if |content| <= GraderWindow then content else content[..GraderWindow]
  }

  /** The relevance grader's reply for each document, in retrieval order. */
  function Replies(docs: seq<Document>, question: string, llm: Prompt -> string): (rs: seq<string>)
    ensures |rs| == |docs|
    ensures forall i :: 0 <= i < |docs| ==> rs[i] == llm(GradePrompt(GraderInput(docs[i].pageContent), question))
  {
    seq(|docs|, i requires 0 <= i < |docs| => llm(GradePrompt(GraderInput(docs[i].pageContent), question)))
  }

  function Verdicts(replies: seq<string>): (vs: seq<bool>)
    ensures |vs| == |replies|
    ensures forall i :: 0 <= i < |replies| ==> vs[i] == IsRelevant(replies[i])
  {
    seq(|replies|, i requires 0 <= i < |replies| => IsRelevant(replies[i]))
  }

  /** The documents the relevance grader keeps. */
  function Kept(docs: seq<Document>, replies: seq<string>): seq<Document>
    requires |replies| == |docs|
  {
    Select(docs, Verdicts(replies))
  }

  /** The `web_search` flag of the state: "Yes" or "No". */
  datatype YesNo = Yes | No

  /** "Yes" as soon as one document was rejected. */
  function WebSearchFlag(replies: seq<string>): YesNo {
    if exists i :: 0 <= i < |replies| && !IsRelevant(replies[i]) then Yes else No
  }

  /** The rule does not depend on surrounding whitespace: a reply is kept
      exactly when its lower-cased form contains "yes". */
  lemma RelevantIffContainsYes(reply: string)
    ensures IsRelevant(reply) <==> Contains(Lower(reply), "yes")
  {
    StripKeepsWord(reply, "yes");
  }

  /** A reply is kept as soon as "yes" occurs in its lower-cased form. */
  lemma RelevantAt(reply: string, i: nat)
    requires i + 3 <= |reply|
    requires LowerChar(reply[i]) == 'y' && LowerChar(reply[i + 1]) == 'e' && LowerChar(reply[i + 2]) == 's'
    ensures IsRelevant(reply)
  {
    var low := Lower(reply);
    assert low[i..i + 3] == "yes" by {
      assert low[i] == 'y' && low[i + 1] == 'e' && low[i + 2] == 's';
    }
    assert OccursAt(low, "yes", i);
    ContainsIffOccurs(low, "yes");
    RelevantIffContainsYes(reply);
  }

  /** A reply without the letter y (in either case) is rejected. */
  lemma RejectedWithoutY(reply: string)
    requires forall i :: 0 <= i < |reply| ==> LowerChar(reply[i]) != 'y'
    ensures !IsRelevant(reply)
  {
    var low := Lower(reply);
    forall i
      ensures !OccursAt(low, "yes", i)
    {
      if 0 <= i && i + 3 <= |low| {
        assert low[i..i + 3][0] == low[i] != 'y';
      }
    }
    ContainsIffOccurs(low, "yes");
    RelevantIffContainsYes(reply);
  }

  /** Canned replies that are kept: "yes", "Yes.", " YES\n", and, since
      containment is all that counts, "yesterday" and "no, yes". */
  lemma AcceptedReplies(reply: string)
    requires reply in ["yes", "Yes.", " YES\n", "yesterday", "no, yes"]
    ensures IsRelevant(reply)
  {
    if reply == " YES\n" {
      RelevantAt(reply, 1);
    } else if reply == "no, yes" {
      RelevantAt(reply, 4);
    } else {
      RelevantAt(reply, 0);
    }
  }

  /** Canned replies that are rejected: "no", "No." and the empty reply. */
  lemma RejectedReplies(reply: string)
    requires reply in ["no", "No.", ""]
    ensures !IsRelevant(reply)
  {
    RejectedWithoutY(reply);
  }

  /** "maybe" holds a y, but not followed by "es": rejected. */
  lemma MaybeRejected()
    ensures !IsRelevant("maybe")
  {
    var reply := "maybe";
    var low := Lower(reply);
    assert low == reply;
    forall i
      ensures !OccursAt(low, "yes", i)
    {
      if 0 <= i && i + 3 <= |low| {
        assert low[i..i + 3][0] == low[i];
        assert low[i..i + 3][1] == low[i + 1];
      }
    }
    ContainsIffOccurs(low, "yes");
    RelevantIffContainsYes(reply);
  }

  /** The kept documents are the input with the rejected ones deleted, in
      retrieval order. */
  lemma KeptIsSubsequence(docs: seq<Document>, replies: seq<string>)
    requires |replies| == |docs|
    ensures IsSubsequence(Kept(docs, replies), docs)
  {
    SelectIsSubsequence(docs, Verdicts(replies));
  }

  /** Exactly the documents whose reply is relevant are kept, each once, at
      increasing input positions. */
  lemma KeptExactly(docs: seq<Document>, replies: seq<string>)
    requires |replies| == |docs|
    ensures var kept, idx := Kept(docs, replies), SelectedIndices(Verdicts(replies));
            && |kept| == |idx|
            && (forall j :: 0 <= j < |idx| ==> idx[j] < |docs| && kept[j] == docs[idx[j]])
            && (forall j, k :: 0 <= j < k < |idx| ==> idx[j] < idx[k])
            && (forall i :: 0 <= i < |docs| ==> (IsRelevant(replies[i]) <==> i in idx))
  {
    SelectAtIndices(docs, Verdicts(replies));
    SelectedIndicesIncreasing(Verdicts(replies));
    SelectedIndicesMembers(Verdicts(replies));
  }

  /** The flag is "No" exactly when every document is kept, including when
      there were none; it is "Yes" exactly when at least one was dropped. */
  lemma FlagIffSomethingDropped(docs: seq<Document>, replies: seq<string>)
    requires |replies| == |docs|
    ensures WebSearchFlag(replies) == No <==> Kept(docs, replies) == docs
    ensures docs == [] ==> WebSearchFlag(replies) == No
  {
    SelectAll(docs, Verdicts(replies));
  }

  /** Nothing is kept exactly when every reply is a rejection. */
  lemma NothingKeptIffAllRejected(docs: seq<Document>, replies: seq<string>)
    requires |replies| == |docs|
    ensures Kept(docs, replies) == [] <==> forall i :: 0 <= i < |docs| ==> !IsRelevant(replies[i])
  {
    SelectNone(docs, Verdicts(replies));
  }

  /** Grading one more document appends it to the kept list exactly when
      its reply is relevant. */
  lemma KeptSnoc(docs: seq<Document>, replies: seq<string>, d: Document, reply: string)
    requires |replies| == |docs|
    ensures Kept(docs + [d], replies + [reply]) == Kept(docs, replies) + (if IsRelevant(reply) then [d] else [])
  {
    var v := Verdicts(replies + [reply]);
    assert (docs + [d])[..|docs|] == docs;
    assert v[..|docs|] == Verdicts(replies);
  }

  /** One more reply raises the flag when it is a rejection and leaves it
      otherwise. */
  lemma FlagSnoc(replies: seq<string>, reply: string)
    ensures WebSearchFlag(replies + [reply]) == (if IsRelevant(reply) then WebSearchFlag(replies) else Yes)
  {
    var rs := replies + [reply];
    if !IsRelevant(reply) {
      assert !IsRelevant(rs[|replies|]);
    } else if WebSearchFlag(replies) == Yes {
      var i :| 0 <= i < |replies| && !IsRelevant(replies[i]);
      assert rs[i] == replies[i];
    } else {
      forall i | 0 <= i < |rs|
        ensures IsRelevant(rs[i])
      {
        if i < |replies| {
          assert rs[i] == replies[i];
        }
      }
    }
  }

  /** One step of the grading loop: the next reply extends the replies,
      appends the document to the kept ones exactly when it is relevant, and
      raises the flag exactly when it is not. */
  lemma GradeStep(docs: seq<Document>, question: string, llm: Prompt -> string, i: nat,
                  replies: seq<string>, kept: seq<Document>, flag: YesNo)
    requires i < |docs|
    requires replies == Replies(docs, question, llm)[..i]
    requires kept == Kept(docs[..i], replies)
    requires flag == WebSearchFlag(replies)
    ensures var reply := llm(GradePrompt(GraderInput(docs[i].pageContent), question));
            && replies + [reply] == Replies(docs, question, llm)[..i + 1]
            && Kept(docs[..i + 1], replies + [reply]) == (if IsRelevant(reply) then kept + [docs[i]] else kept)
            && WebSearchFlag(replies + [reply]) == (if IsRelevant(reply) then flag else Yes)
  {
    var reply := llm(GradePrompt(GraderInput(docs[i].pageContent), question));
    KeptSnoc(docs[..i], replies, docs[i], reply);
    FlagSnoc(replies, reply);
    assert docs[..i + 1] == docs[..i] + [docs[i]];
  }

  /** Selecting with the verdicts yes, yes, no keeps the first two. */
  lemma SelectFirstTwo(c1: Document, c2: Document, c3: Document, v: seq<bool>)
    requires |v| == 3 && v[0] && v[1] && !v[2]
    ensures Select([c1, c2, c3], v) == [c1, c2]
  {
    var docs: seq<Document> := [c1, c2, c3];
    assert Select(docs[..1], v[..1]) == [c1] by {
      assert docs[..1][..0] == [] && v[..1][..0] == [];
    }
    assert Select(docs[..2], v[..2]) == [c1, c2] by {
      assert docs[..2][..1] == docs[..1] && v[..2][..1] == v[..1];
    }
    assert docs[..|docs| - 1] == docs[..2] && v[..|docs| - 1] == v[..2];
  }

  /** Three chunks, the first two graded relevant and the third not: the
      first two are kept in retrieval order and the flag is "Yes". */
  lemma TwoOfThreeKept(c1: Document, c2: Document, c3: Document, replies: seq<string>)
    requires |replies| == 3 && IsRelevant(replies[0]) && IsRelevant(replies[1]) && !IsRelevant(replies[2])
    ensures Kept([c1, c2, c3], replies) == [c1, c2]
    ensures WebSearchFlag(replies) == Yes
  {
    SelectFirstTwo(c1, c2, c3, Verdicts(replies));
  }
}
