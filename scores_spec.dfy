/**
 * What the similarity ranker computes from a query vector and the index:
 * the squared query norm, the set of documents reached through the posting
 * lists of the query terms, each reached document's accumulated dot product
 * and its cosine score, and what makes a list of scored documents a ranking.
 */
module ScoreSpec {
  import opened IndexTypes
  import opened SeqSums

  function SquaredWeight(e: QueryEntry): real
  {
    e.weight * e.weight
  }

  /** The squared Euclidean norm of the query vector. */
  function SumSq(qv: seq<QueryEntry>): real
  {
    SumOf(qv, SquaredWeight)
  }

  /** Every query term identifier has a posting list (the ranker dereferences it unchecked). */
  ghost predicate AllPostingsPresent(qv: seq<QueryEntry>, idx: Index)
  {
    forall i :: 0 <= i < |qv| ==> qv[i].termId in idx.invertedIndex
  }

  /** The posting list of a term identifier; only consulted when it is present. */
  function PostingsOf(idx: Index, termId: int): seq<Posting>
  {
    if termId in idx.invertedIndex then idx.invertedIndex[termId] else []
  }

  /** What one posting adds to document d's accumulator for query weight wq. */
  function PostingProduct(p: Posting, wq: real, d: int): real
  {
    if p.docId == d then p.weight * wq else 0.0
  }

  /** What a whole posting list adds to document d's accumulator. */
  function PostingDot(ps: seq<Posting>, wq: real, d: int): real
  {
    SumOf(ps, p => PostingProduct(p, wq, d))
  }

  function TermDot(idx: Index, e: QueryEntry, d: int): real
  {
    PostingDot(PostingsOf(idx, e.termId), e.weight, d)
  }

  /** Document d's accumulator after all query terms: the sum of every wq * wd over its postings. */
  function Dot(qv: seq<QueryEntry>, idx: Index, d: int): real
  {
    SumOf(qv, e => TermDot(idx, e, d))
  }

  /** The documents that occur in a posting list. */
  function PostingDocs(ps: seq<Posting>): set<int>
  {
    if ps == [] then {} else PostingDocs(ps[..|ps| - 1]) + {ps[|ps| - 1].docId}
  }

  /** The documents the ranker reaches: those in a posting list of some query term. */
  function Reached(qv: seq<QueryEntry>, idx: Index): set<int>
  {
    if qv == [] then {}
    else Reached(qv[..|qv| - 1], idx) + PostingDocs(PostingsOf(idx, qv[|qv| - 1].termId))
  }

  /** The real-valued division of every reached and known document is defined. */
  ghost predicate DenominatorsNonzero(qv: seq<QueryEntry>, idx: Index, sqrt: real -> real)
  {
    forall d :: d in Reached(qv, idx) && d in idx.documents ==> sqrt(SumSq(qv)) * idx.documents[d].norm != 0.0
  }

  /** Every posting list and every document entry the ranker looks up exists. */
  ghost predicate LookupsSucceed(qv: seq<QueryEntry>, idx: Index)
  {
    && AllPostingsPresent(qv, idx)
    && (forall d :: d in Reached(qv, idx) ==> d in idx.documents)
  }

  /** Every lookup the ranker makes succeeds and every division it makes is defined. */
  ghost predicate Scorable(qv: seq<QueryEntry>, idx: Index, sqrt: real -> real)
  {
    LookupsSucceed(qv, idx) && DenominatorsNonzero(qv, idx, sqrt)
  }

  /** A dot product normalised by the product of the two vectors' norms. */
  function CosineOf(dot: real, queryNorm: real, docNorm: real): real
    requires queryNorm * docNorm != 0.0
  {
    dot / (queryNorm * docNorm)
  }

  /** The cosine similarity of reached document d: its dot product over the product of the norms. */
  function Score(qv: seq<QueryEntry>, idx: Index, sqrt: real -> real, d: int): real
    requires Scorable(qv, idx, sqrt) && d in Reached(qv, idx)
  {
    CosineOf(Dot(qv, idx, d), sqrt(SumSq(qv)), idx.documents[d].norm)
  }

  /** rs holds each reached document exactly once, with its cosine score, in some order. */
  ghost predicate IsScoreList(rs: seq<Scored>, qv: seq<QueryEntry>, idx: Index, sqrt: real -> real)
    requires Scorable(qv, idx, sqrt)
  {
    && (forall i :: 0 <= i < |rs| ==>
          rs[i].docId in Reached(qv, idx) && rs[i].score == Score(qv, idx, sqrt, rs[i].docId))
    && (forall d :: d in Reached(qv, idx) ==> exists i :: 0 <= i < |rs| && rs[i].docId == d)
    && (forall i, j :: 0 <= i < j < |rs| ==> rs[i].docId != rs[j].docId)
  }

  /** The scores of rs, position by position. */
  function ScoresOf(rs: seq<Scored>): (r: seq<real>)
    ensures |r| == |rs|
    ensures forall i :: 0 <= i < |rs| ==> r[i] == rs[i].score
  {
    if rs == [] then [] else ScoresOf(rs[..|rs| - 1]) + [rs[|rs| - 1].score]
  }

  /** No element is below a later one. */
  predicate NonIncreasing(s: seq<real>)
  {
    forall i, j :: 0 <= i < j < |s| ==> s[i] >= s[j]
  }

  /** Scores never increase along rs. */
  predicate SortedByScore(rs: seq<Scored>)
  {
    NonIncreasing(ScoresOf(rs))
  }

  /** rs is a score list ordered by descending score; ties may come in any order. */
  ghost predicate IsRanking(rs: seq<Scored>, qv: seq<QueryEntry>, idx: Index, sqrt: real -> real)
    requires Scorable(qv, idx, sqrt)
  {
    IsScoreList(rs, qv, idx, sqrt) && SortedByScore(rs)
  }

  // ---------------------------------------------------------------------------
  // Sorting by descending score (the library sort the ranker calls)

  /** A head no lower than every score of a sorted tail gives a sorted list. */
  lemma SortedCons(h: Scored, t: seq<Scored>)
    requires SortedByScore(t)
    requires forall i :: 0 <= i < |t| ==> t[i].score <= h.score
    ensures SortedByScore([h] + t)
  {
    var r := [h] + t;
    forall i, j | 0 <= i < j < |r| ensures ScoresOf(r)[i] >= ScoresOf(r)[j] {
      assert r[j] == t[j - 1];
      if i > 0 {
        assert r[i] == t[i - 1];
        assert ScoresOf(t)[i - 1] >= ScoresOf(t)[j - 1];
      }
    }
  }

  /** The tail of a sorted list is sorted. */
  lemma SortedTail(s: seq<Scored>)
    requires SortedByScore(s) && s != []
    ensures SortedByScore(s[1..])
  {
    forall i, j | 0 <= i < j < |s[1..]| ensures ScoresOf(s[1..])[i] >= ScoresOf(s[1..])[j] {
      assert s[1..][i] == s[i + 1] && s[1..][j] == s[j + 1];
      assert ScoresOf(s)[i + 1] >= ScoresOf(s)[j + 1];
    }
  }

  /** Every score of rest, drawn from a sorted list's tail and an x below its head, is at most the head's. */
  lemma BelowHead(x: Scored, s: seq<Scored>, rest: seq<Scored>)
    requires SortedByScore(s) && s != [] && x.score < s[0].score
    requires multiset(rest) == multiset(s[1..]) + multiset{x}
    ensures forall i :: 0 <= i < |rest| ==> rest[i].score <= s[0].score
  {
    forall i | 0 <= i < |rest| ensures rest[i].score <= s[0].score {
      assert rest[i] in multiset(s[1..]) + multiset{x};
      if rest[i] != x {
        assert rest[i] in s[1..];
        var k :| 0 <= k < |s[1..]| && s[1..][k] == rest[i];
        assert s[k + 1] == rest[i];
        assert ScoresOf(s)[0] >= ScoresOf(s)[k + 1];
      }
    }
  }

  /** Inserts x into a list sorted by descending score, before the first entry it is not below. */
  function InsertByScore(x: Scored, s: seq<Scored>): (r: seq<Scored>)
    requires SortedByScore(s)
    ensures SortedByScore(r)
    ensures multiset(r) == multiset(s) + multiset{x}
  {
    if s == [] then [x]
    else if x.score >= s[0].score then
      assert forall i :: 0 <= i < |s| ==> ScoresOf(s)[0] >= ScoresOf(s)[i];
      SortedCons(x, s);
      [x] + s
    else
      SortedTail(s);
      var rest := InsertByScore(x, s[1..]);
      assert s == [s[0]] + s[1..];
      BelowHead(x, s, rest);
      SortedCons(s[0], rest);
      [s[0]] + rest
  }

  /** Insertion sort by descending score: sorted, and a permutation of its input. */
  function SortByScore(s: seq<Scored>): (r: seq<Scored>)
    ensures SortedByScore(r)
    ensures multiset(r) == multiset(s)
  {
    if s == [] then []
    else
      assert s == [s[0]] + s[1..];
      InsertByScore(s[0], SortByScore(s[1..]))
  }

  // ---------------------------------------------------------------------------
  // One more step of each accumulation

  lemma SumSqSnoc(qv: seq<QueryEntry>, e: QueryEntry)
    ensures SumSq(qv + [e]) == SumSq(qv) + e.weight * e.weight
  {
    SumOfSnoc(qv, e, SquaredWeight);
  }

  lemma PostingDotSnoc(ps: seq<Posting>, p: Posting, wq: real, d: int)
    ensures PostingDot(ps + [p], wq, d) == PostingDot(ps, wq, d) + PostingProduct(p, wq, d)
  {
    SumOfSnoc(ps, p, p => PostingProduct(p, wq, d));
  }

  lemma DotSnoc(qv: seq<QueryEntry>, e: QueryEntry, idx: Index, d: int)
    ensures Dot(qv + [e], idx, d) == Dot(qv, idx, d) + TermDot(idx, e, d)
  {
    SumOfSnoc(qv, e, e => TermDot(idx, e, d));
  }

  lemma PostingDocsSnoc(ps: seq<Posting>, p: Posting)
    ensures PostingDocs(ps + [p]) == PostingDocs(ps) + {p.docId}
  {
    assert (ps + [p])[..|ps|] == ps;
  }

  lemma ReachedSnoc(qv: seq<QueryEntry>, e: QueryEntry, idx: Index)
    ensures Reached(qv + [e], idx) == Reached(qv, idx) + PostingDocs(PostingsOf(idx, e.termId))
  {
    assert (qv + [e])[..|qv|] == qv;
  }

  // ---------------------------------------------------------------------------
  // Which documents are reached, and what the others would score

  lemma {:induction false} PostingDocsMembership(ps: seq<Posting>, d: int)
    ensures d in PostingDocs(ps) <==> exists j :: 0 <= j < |ps| && ps[j].docId == d
    decreases |ps|
  {
    if ps != [] {
      var ps' := ps[..|ps| - 1];
      PostingDocsMembership(ps', d);
      assert forall j :: 0 <= j < |ps'| ==> ps'[j] == ps[j];
    }
  }

  /**
   * A document is reached exactly when it occurs in the posting list of some
   * query term identifier.
   */
  lemma {:induction false} ReachedMembership(qv: seq<QueryEntry>, idx: Index, d: int)
    ensures d in Reached(qv, idx) <==>
      exists i, j :: 0 <= i < |qv| && 0 <= j < |PostingsOf(idx, qv[i].termId)| &&
                     PostingsOf(idx, qv[i].termId)[j].docId == d
    decreases |qv|
  {
    if qv != [] {
      var qv', e := qv[..|qv| - 1], qv[|qv| - 1];
      ReachedMembership(qv', idx, d);
      PostingDocsMembership(PostingsOf(idx, e.termId), d);
      assert forall i :: 0 <= i < |qv'| ==> qv'[i] == qv[i];
      if d in Reached(qv, idx) && d !in Reached(qv', idx) {
        var j :| 0 <= j < |PostingsOf(idx, e.termId)| && PostingsOf(idx, e.termId)[j].docId == d;
        assert qv[|qv| - 1] == e;
      }
    }
  }

  lemma {:induction false} PostingDotUnreached(ps: seq<Posting>, wq: real, d: int)
    requires d !in PostingDocs(ps)
    ensures PostingDot(ps, wq, d) == 0.0
    decreases |ps|
  {
    if ps != [] {
      var ps', p := ps[..|ps| - 1], ps[|ps| - 1];
      assert ps == ps' + [p];
      PostingDocsSnoc(ps', p);
      PostingDotUnreached(ps', wq, d);
      PostingDotSnoc(ps', p, wq, d);
    }
  }

  /**
   * A document the ranker never reaches has a dot product of exactly zero with
   * the query, so leaving it out of the ranking loses nothing.
   */
  lemma {:induction false} DotUnreached(qv: seq<QueryEntry>, idx: Index, d: int)
    requires d !in Reached(qv, idx)
    ensures Dot(qv, idx, d) == 0.0
    decreases |qv|
  {
    if qv != [] {
      var qv', e := qv[..|qv| - 1], qv[|qv| - 1];
      assert qv == qv' + [e];
      ReachedSnoc(qv', e, idx);
      DotUnreached(qv', idx, d);
      PostingDotUnreached(PostingsOf(idx, e.termId), e.weight, d);
      DotSnoc(qv', e, idx, d);
    }
  }

  // ---------------------------------------------------------------------------
  // The accumulator is the textbook dot product

  /** The weight of a term in document d: the sum of its postings' weights for d. */
  function DocTermWeight(ps: seq<Posting>, d: int): real
  {
    SumOf(ps, (p: Posting) => if p.docId == d then p.weight else 0.0)
  }

  lemma {:induction false} PostingDotFactor(ps: seq<Posting>, wq: real, d: int)
    ensures PostingDot(ps, wq, d) == wq * DocTermWeight(ps, d)
    decreases |ps|
  {
    if ps != [] {
      var ps', p := ps[..|ps| - 1], ps[|ps| - 1];
      assert ps == ps' + [p];
      PostingDotFactor(ps', wq, d);
      PostingDotSnoc(ps', p, wq, d);
      SumOfSnoc(ps', p, (p: Posting) => if p.docId == d then p.weight else 0.0);
    }
  }

  /**
   * Document d's accumulator equals the dot product of the query vector with
   * d's weight vector: the sum over query entries (t, wq) of wq times t's
   * weight in d.
   */
  lemma {:induction false} DotIsInnerProduct(qv: seq<QueryEntry>, idx: Index, d: int)
    ensures Dot(qv, idx, d) == SumOf(qv, (e: QueryEntry) => e.weight * DocTermWeight(PostingsOf(idx, e.termId), d))
    decreases |qv|
  {
    if qv != [] {
      var qv', e := qv[..|qv| - 1], qv[|qv| - 1];
      assert qv == qv' + [e];
      DotIsInnerProduct(qv', idx, d);
      DotSnoc(qv', e, idx, d);
      PostingDotFactor(PostingsOf(idx, e.termId), e.weight, d);
      SumOfSnoc(qv', e, (e: QueryEntry) => e.weight * DocTermWeight(PostingsOf(idx, e.termId), d));
    }
  }

  // ---------------------------------------------------------------------------
  // Score lists are determined up to order

  /** In a score list, equal document identifiers mean equal entries, so docIds are unique iff entries are. */
  lemma ScoreListNoDuplicates(rs: seq<Scored>, qv: seq<QueryEntry>, idx: Index, sqrt: real -> real)
    requires Scorable(qv, idx, sqrt) && IsScoreList(rs, qv, idx, sqrt)
    ensures NoDuplicates(rs)
  {
  }

  /** Reordering a score list leaves a score list. */
  lemma PermutationKeepsScoreList(a: seq<Scored>, b: seq<Scored>, qv: seq<QueryEntry>, idx: Index, sqrt: real -> real)
    requires Scorable(qv, idx, sqrt) && IsScoreList(a, qv, idx, sqrt)
    requires multiset(a) == multiset(b)
    ensures IsScoreList(b, qv, idx, sqrt)
  {
    forall i | 0 <= i < |b|
      ensures b[i].docId in Reached(qv, idx) && b[i].score == Score(qv, idx, sqrt, b[i].docId)
    {
      assert b[i] in multiset(a);
    }
    forall d | d in Reached(qv, idx) ensures exists i :: 0 <= i < |b| && b[i].docId == d {
      var i :| 0 <= i < |a| && a[i].docId == d;
      assert a[i] in multiset(b);
    }
    ScoreListNoDuplicates(a, qv, idx, sqrt);
    NoDuplicatesPermutation(a, b);
  }

  /** Sorting a score list by descending score gives a ranking. */
  lemma ScoreListSorted(rs: seq<Scored>, qv: seq<QueryEntry>, idx: Index, sqrt: real -> real)
    requires Scorable(qv, idx, sqrt) && IsScoreList(rs, qv, idx, sqrt)
    ensures IsRanking(SortByScore(rs), qv, idx, sqrt)
  {
    PermutationKeepsScoreList(rs, SortByScore(rs), qv, idx, sqrt);
  }

  /** Any two score lists of the same query are permutations of each other. */
  lemma ScoreListsArePermutations(a: seq<Scored>, b: seq<Scored>, qv: seq<QueryEntry>, idx: Index, sqrt: real -> real)
    requires Scorable(qv, idx, sqrt)
    requires IsScoreList(a, qv, idx, sqrt) && IsScoreList(b, qv, idx, sqrt)
    ensures multiset(a) == multiset(b)
  {
    ScoreListNoDuplicates(a, qv, idx, sqrt);
    ScoreListNoDuplicates(b, qv, idx, sqrt);
    forall x ensures x in a <==> x in b {
      if x in a {
        var i :| 0 <= i < |a| && a[i] == x;
        var j :| 0 <= j < |b| && b[j].docId == x.docId;
      }
      if x in b {
        var j :| 0 <= j < |b| && b[j] == x;
        var i :| 0 <= i < |a| && a[i].docId == x.docId;
      }
    }
    DistinctSameElements(a, b);
  }

  // ---------------------------------------------------------------------------
  // The ranker does not depend on the order of the query vector

  lemma ReachedPermutation(qv1: seq<QueryEntry>, qv2: seq<QueryEntry>, idx: Index)
    requires multiset(qv1) == multiset(qv2)
    ensures Reached(qv1, idx) == Reached(qv2, idx)
  {
    forall d ensures d in Reached(qv1, idx) ==> d in Reached(qv2, idx) {
      ReachedMembership(qv1, idx, d);
      ReachedMembership(qv2, idx, d);
      if d in Reached(qv1, idx) {
        var i, j :| 0 <= i < |qv1| && 0 <= j < |PostingsOf(idx, qv1[i].termId)| &&
                    PostingsOf(idx, qv1[i].termId)[j].docId == d;
        assert qv1[i] in multiset(qv2);
        var i' :| 0 <= i' < |qv2| && qv2[i'] == qv1[i];
      }
    }
    forall d ensures d in Reached(qv2, idx) ==> d in Reached(qv1, idx) {
      ReachedMembership(qv1, idx, d);
      ReachedMembership(qv2, idx, d);
      if d in Reached(qv2, idx) {
        var i, j :| 0 <= i < |qv2| && 0 <= j < |PostingsOf(idx, qv2[i].termId)| &&
                    PostingsOf(idx, qv2[i].termId)[j].docId == d;
        assert qv2[i] in multiset(qv1);
        var i' :| 0 <= i' < |qv1| && qv1[i'] == qv2[i];
      }
    }
  }

  /**
   * Reordering the query vector changes nothing the ranker computes: the
   * same lookups succeed, the same documents are reached, with the same
   * scores, so the same lists are score lists.
   */
  lemma ScoresPermutation(qv1: seq<QueryEntry>, qv2: seq<QueryEntry>, idx: Index, sqrt: real -> real)
    requires multiset(qv1) == multiset(qv2)
    ensures SumSq(qv1) == SumSq(qv2)
    ensures Reached(qv1, idx) == Reached(qv2, idx)
    ensures forall d :: Dot(qv1, idx, d) == Dot(qv2, idx, d)
    ensures Scorable(qv1, idx, sqrt) <==> Scorable(qv2, idx, sqrt)
    ensures Scorable(qv1, idx, sqrt) ==>
      forall rs :: IsScoreList(rs, qv1, idx, sqrt) <==> IsScoreList(rs, qv2, idx, sqrt)
  {
    SumOfPermutation(qv1, qv2, SquaredWeight);
    ReachedPermutation(qv1, qv2, idx);
    forall d ensures Dot(qv1, idx, d) == Dot(qv2, idx, d) {
      SumOfPermutation(qv1, qv2, e => TermDot(idx, e, d));
    }
    assert AllPostingsPresent(qv1, idx) <==> AllPostingsPresent(qv2, idx) by {
      forall i | 0 <= i < |qv1| ensures qv1[i] in qv2 {
        assert qv1[i] in multiset(qv2);
      }
      forall i | 0 <= i < |qv2| ensures qv2[i] in qv1 {
        assert qv2[i] in multiset(qv1);
      }
    }
  }

  // ---------------------------------------------------------------------------
  // Only the order among equal scores is left open

  lemma {:induction false} ScoresOfRemoveAt(rs: seq<Scored>, k: nat)
    requires k < |rs|
    ensures ScoresOf(rs[..k] + rs[k + 1..]) == ScoresOf(rs)[..k] + ScoresOf(rs)[k + 1..]
  {
    var a, b := ScoresOf(rs[..k] + rs[k + 1..]), ScoresOf(rs)[..k] + ScoresOf(rs)[k + 1..];
    assert |a| == |b|;
    forall i | 0 <= i < |a| ensures a[i] == b[i] {
      if i < k {
        assert (rs[..k] + rs[k + 1..])[i] == rs[i];
      } else {
        assert (rs[..k] + rs[k + 1..])[i] == rs[i + 1];
      }
    }
  }

  lemma {:induction false} ScoresOfPermutation(a: seq<Scored>, b: seq<Scored>)
    requires multiset(a) == multiset(b)
    ensures multiset(ScoresOf(a)) == multiset(ScoresOf(b))
    decreases |a|
  {
    if a == [] {
      assert |b| == |multiset(b)| == 0;
    } else {
      var a', x := a[..|a| - 1], a[|a| - 1];
      assert a == a' + [x];
      assert x in b by {
        assert x in multiset(b);
      }
      var k :| 0 <= k < |b| && b[k] == x;
      var b' := b[..k] + b[k + 1..];
      assert multiset(b') == multiset(a') by {
        RemoveAt(b, k);
        assert multiset(b') == multiset(b) - multiset{x};
        assert multiset(a) == multiset(a') + multiset{x};
      }
      ScoresOfPermutation(a', b');
      ScoresOfRemoveAt(b, k);
      RemoveAt(ScoresOf(b), k);
      assert ScoresOf(a) == ScoresOf(a') + [x.score];
    }
  }

  /** The head of a non-increasing sequence is its largest element. */
  lemma HeadIsLargest(a: seq<real>, x: real)
    requires NonIncreasing(a) && x in multiset(a)
    ensures a[0] >= x
  {
    var k :| 0 <= k < |a| && a[k] == x;
    if k > 0 {
      assert a[0] >= a[k];
    }
  }

  /** Dropping the head of a non-increasing sequence leaves it non-increasing. */
  lemma NonIncreasingTail(a: seq<real>)
    requires NonIncreasing(a) && a != []
    ensures NonIncreasing(a[1..])
  {
    forall i, j | 0 <= i < j < |a[1..]| ensures a[1..][i] >= a[1..][j] {
      assert a[1..][i] == a[i + 1] && a[1..][j] == a[j + 1];
    }
  }

  /** Two non-increasing sequences holding the same numbers are equal. */
  lemma {:induction false} NonIncreasingUnique(a: seq<real>, b: seq<real>)
    requires NonIncreasing(a) && NonIncreasing(b)
    requires multiset(a) == multiset(b)
    ensures a == b
    decreases |a|
  {
    assert |b| == |multiset(b)| == |multiset(a)| == |a|;
    if a != [] {
      assert a[0] in multiset(a) && b[0] in multiset(b);
      HeadIsLargest(a, b[0]);
      HeadIsLargest(b, a[0]);
      SameTails(a, b);
      NonIncreasingTail(a);
      NonIncreasingTail(b);
      NonIncreasingUnique(a[1..], b[1..]);
      assert a == [a[0]] + a[1..] && b == [b[0]] + b[1..];
    }
  }

  /**
   * Any two rankings of the same query have the same score at every
   * position: only documents with equal scores can trade places.
   */
  lemma RankingScoresDetermined(a: seq<Scored>, b: seq<Scored>, qv: seq<QueryEntry>, idx: Index, sqrt: real -> real)
    requires Scorable(qv, idx, sqrt)
    requires IsRanking(a, qv, idx, sqrt) && IsRanking(b, qv, idx, sqrt)
    ensures |a| == |b|
    ensures forall i :: 0 <= i < |a| ==> a[i].score == b[i].score
  {
    ScoreListsArePermutations(a, b, qv, idx, sqrt);
    ScoresOfPermutation(a, b);
    NonIncreasingUnique(ScoresOf(a), ScoresOf(b));
  }

  /** An empty query reaches no document, so its only ranking is the empty list. */
  lemma EmptyQueryRanking(qv: seq<QueryEntry>, idx: Index, sqrt: real -> real)
    requires qv == []
    ensures Scorable(qv, idx, sqrt)
    ensures forall rs :: IsRanking(rs, qv, idx, sqrt) <==> rs == []
  {
    forall rs: seq<Scored> | rs != [] ensures !IsRanking(rs, qv, idx, sqrt) {
      assert rs[0].docId !in Reached(qv, idx);
    }
  }
}
