/**
 * Retrieval in a vector space with the cosine similarity function and a
 * TF-IDF weighting: the query's distinct terms become a sparse weight
 * vector, the posting lists of its terms are accumulated into per-document
 * dot products, and the documents are ranked by cosine score.
 *
 * ln and sqrt are parameters (the library logarithm and square root), and so
 * is the tokenizer that turns query text into terms.
 */
module Cosine {
  import opened IndexTypes
  import opened SeqSums
  import opened QueryVectorSpec
  import opened ScoreSpec

  /** The accumulated value of d, with an absent key reading as zero. */
  function Acc(sims: map<int, real>, d: int): real
  {
    if d in sims then sims[d] else 0.0
  }

  /**
   * Builds the query vector: for each distinct term, in an unspecified order,
   * its vocabulary identifier and the weight (1 + ln(frequency)) * idf, where
   * the frequency is counted in the query. A term without a vocabulary entry
   * ends the computation.
   */
  method ComputeVector(terms: seq<Term>, idx: Index, ln: real -> real) returns (r: Result<seq<QueryEntry>>)
    ensures r.Ok? <==> InVocabulary(terms, idx.vocabulary)
    ensures r.Err? ==> r.error.UnknownTerm? && r.error.term in terms && r.error.term !in idx.vocabulary
    ensures r.Ok? ==> IsQueryVector(r.value, terms, idx.vocabulary, ln)
  {
    var vector: seq<QueryEntry> := [];
    var termSet := set t | t in terms;
    var pending := termSet;
    ghost var order: seq<Term> := [];
    while pending != {}
      invariant pending <= termSet
      invariant NoDuplicates(order)
      invariant forall t :: t in order <==> t in termSet && t !in pending
      invariant InVocabulary(order, idx.vocabulary)
      invariant vector == Weights(order, terms, idx.vocabulary, ln)
      decreases pending
    {
      var term :| term in pending;
      if term !in idx.vocabulary {
        return Err(UnknownTerm(term));
      }
      var indexTerm := idx.vocabulary[term];
      var termId := indexTerm.termId;
      var iDF := indexTerm.idf;
      var tf := 1.0 + ln(Frequency(terms, term) as real);
      var weight := tf * iDF;
      assert QueryEntry(termId, weight) == EntryFor(term, terms, idx.vocabulary, ln);
      vector := vector + [QueryEntry(termId, weight)];
      assert InVocabulary(order + [term], idx.vocabulary);
      assert (order + [term])[..|order|] == order;
      assert Weights(order + [term], terms, idx.vocabulary, ln)
          == Weights(order, terms, idx.vocabulary, ln) + [EntryFor(term, terms, idx.vocabulary, ln)];
      order := order + [term];
      pending := pending - {term};
    }
    assert IsEnumeration(order, terms);
    return Ok(vector);
  }

  /**
   * The first phase of the ranker: sums the squared query weights and, for
   * every posting of every query term, adds wq * wd into the accumulator of
   * the posting's document, inserting the document on its first posting.
   * A query term identifier without a posting list ends the computation.
   */
  method AccumulateSims(queryVector: seq<QueryEntry>, idx: Index)
    returns (r: Result<(real, map<int, real>)>)
    ensures r.Ok? <==> AllPostingsPresent(queryVector, idx)
    ensures r.Ok? ==> r.value.0 == SumSq(queryVector)
    ensures r.Ok? ==> r.value.1.Keys == Reached(queryVector, idx)
    ensures r.Ok? ==> forall d :: d in r.value.1 ==> r.value.1[d] == Dot(queryVector, idx, d)
    ensures r.Err? ==> r.error.NoPostings?
    ensures r.Err? && r.error.NoPostings? ==>
      exists v :: 0 <= v < |queryVector| && queryVector[v].termId == r.error.termId &&
                  r.error.termId !in idx.invertedIndex && AllPostingsPresent(queryVector[..v], idx)
  {
    var sumWeightQuery := 0.0;
    var sims: map<int, real> := map[];
    var v := 0;
    while v < |queryVector|
      invariant 0 <= v <= |queryVector|
      invariant AllPostingsPresent(queryVector[..v], idx)
      invariant sumWeightQuery == SumSq(queryVector[..v])
      invariant sims.Keys == Reached(queryVector[..v], idx)
      invariant forall d :: Acc(sims, d) == Dot(queryVector[..v], idx, d)
    {
      var term := queryVector[v];
      var termId := term.termId;
      var weightTermQuery := term.weight;
      sumWeightQuery := sumWeightQuery + weightTermQuery * weightTermQuery;
      if termId !in idx.invertedIndex {
        return Err(NoPostings(termId));
      }
      var termDocuments := idx.invertedIndex[termId];
      sims := AddPostings(sims, termDocuments, weightTermQuery);
      assert queryVector[..v + 1] == queryVector[..v] + [term];
      SumSqSnoc(queryVector[..v], term);
      ReachedSnoc(queryVector[..v], term, idx);
      forall d ensures Dot(queryVector[..v + 1], idx, d) == Dot(queryVector[..v], idx, d) + TermDot(idx, term, d) {
        DotSnoc(queryVector[..v], term, idx, d);
      }
      v := v + 1;
    }
    assert queryVector[..v] == queryVector;
    return Ok((sumWeightQuery, sims));
  }

  /**
   * The inner loop of the first phase: adds wq * wd into the accumulator of
   * the document of every posting (d, wd) of one posting list.
   */
  method AddPostings(sims: map<int, real>, termDocuments: seq<Posting>, weightTermQuery: real)
    returns (sims': map<int, real>)
    ensures sims'.Keys == sims.Keys + PostingDocs(termDocuments)
    ensures forall d :: Acc(sims', d) == Acc(sims, d) + PostingDot(termDocuments, weightTermQuery, d)
  {
    sims' := sims;
    var k := 0;
    while k < |termDocuments|
      invariant 0 <= k <= |termDocuments|
      invariant sims'.Keys == sims.Keys + PostingDocs(termDocuments[..k])
      invariant forall d :: Acc(sims', d) == Acc(sims, d) + PostingDot(termDocuments[..k], weightTermQuery, d)
    {
      var termInDoc := termDocuments[k];
      var docId := termInDoc.docId;
      var weightTermDoc := termInDoc.weight;
      var weight := weightTermDoc * weightTermQuery;
      ghost var previous := sims';
      if docId in sims' {
        var prevWeight := sims'[docId];
        var sumWeight := prevWeight + weight;
        sims' := sims'[docId := sumWeight];
      } else {
        sims' := sims'[docId := weight];
      }
      assert termDocuments[..k + 1] == termDocuments[..k] + [termInDoc];
      PostingDocsSnoc(termDocuments[..k], termInDoc);
      forall d
        ensures Acc(sims', d) == Acc(sims, d) + PostingDot(termDocuments[..k + 1], weightTermQuery, d)
      {
        assert Acc(sims', d) == Acc(previous, d) + PostingProduct(termInDoc, weightTermQuery, d);
        PostingDotSnoc(termDocuments[..k], termInDoc, weightTermQuery, d);
      }
      k := k + 1;
    }
    assert termDocuments[..k] == termDocuments;
  }

  /**
   * The second phase of the ranker: visits the accumulator's documents in an
   * unspecified order and divides each dot product by the product of the
   * query norm and the document norm. A document without a document entry
   * ends the computation; since the divisions have no effect that outlives
   * that failure, the model looks for such a document before dividing.
   */
  method NormaliseSims(queryVector: seq<QueryEntry>, idx: Index, sqrt: real -> real,
                       sumWeightQuery: real, sims: map<int, real>)
    returns (r: Result<seq<Scored>>)
    requires AllPostingsPresent(queryVector, idx)
    requires LookupsSucceed(queryVector, idx) ==> DenominatorsNonzero(queryVector, idx, sqrt)
    requires sumWeightQuery == SumSq(queryVector)
    requires sims.Keys == Reached(queryVector, idx)
    requires forall d :: d in sims ==> sims[d] == Dot(queryVector, idx, d)
    ensures r.Ok? <==> Scorable(queryVector, idx, sqrt)
    ensures r.Ok? ==> IsScoreList(r.value, queryVector, idx, sqrt)
    ensures r.Err? ==> r.error.UnknownDocument? && r.error.docId in Reached(queryVector, idx) && r.error.docId !in idx.documents
  {
    if exists sim :: sim in sims.Items && sim.0 !in idx.documents {
      var sim :| sim in sims.Items && sim.0 !in idx.documents;
      return Err(UnknownDocument(sim.0));
    }
    assert LookupsSucceed(queryVector, idx) by {
      forall d | d in Reached(queryVector, idx) ensures d in idx.documents {
        assert (d, sims[d]) in sims.Items;
      }
    }
    var normQue := sqrt(sumWeightQuery);
    var results: seq<Scored> := [];
    var pending := sims.Items;
    ghost var done: set<(int, real)> := {};
    while pending != {}
      invariant done !! pending && done + pending == sims.Items
      invariant forall e :: e in done ==> e.0 in idx.documents
      invariant forall i :: 0 <= i < |results| ==>
        results[i].docId in sims && (results[i].docId, sims[results[i].docId]) in done &&
        results[i].score == CosineOf(Dot(queryVector, idx, results[i].docId), normQue, idx.documents[results[i].docId].norm)
      invariant forall e :: e in done ==> exists i :: 0 <= i < |results| && results[i].docId == e.0
      invariant forall i, j :: 0 <= i < j < |results| ==> results[i].docId != results[j].docId
      decreases pending
    {
      var sim :| sim in pending;
      var docId := sim.0;
      var similarity := sim.1;
      var doc := idx.documents[docId];
      var docNorm := doc.norm;
      var finalSim := CosineOf(similarity, normQue, docNorm);
      ghost var previous := results;
      results := results + [Scored(docId, finalSim)];
      assert forall i :: 0 <= i < |previous| ==> results[i] == previous[i];
      assert results[|previous|].docId == docId;
      pending := pending - {sim};
      done := done + {sim};
    }
    forall d | d in Reached(queryVector, idx)
      ensures d in idx.documents && exists i :: 0 <= i < |results| && results[i].docId == d
    {
      assert (d, sims[d]) in sims.Items;
    }
    return Ok(results);
  }

  /**
   * Scores every document reached through the posting lists of the query
   * terms by cosine similarity and returns them by descending score.
   */
  method ComputeScores(queryVector: seq<QueryEntry>, idx: Index, sqrt: real -> real) returns (r: Result<seq<Scored>>)
    requires LookupsSucceed(queryVector, idx) ==> DenominatorsNonzero(queryVector, idx, sqrt)
    ensures r.Ok? <==> Scorable(queryVector, idx, sqrt)
    ensures r.Ok? ==> IsRanking(r.value, queryVector, idx, sqrt)
    ensures r.Err? <==> !LookupsSucceed(queryVector, idx)
    ensures queryVector == [] ==> r == Ok([])
    ensures r.Err? ==> r.error.NoPostings? || r.error.UnknownDocument?
    ensures r.Err? && r.error.NoPostings? ==>
      exists v :: 0 <= v < |queryVector| && queryVector[v].termId == r.error.termId &&
                  r.error.termId !in idx.invertedIndex && AllPostingsPresent(queryVector[..v], idx)
    ensures r.Err? && r.error.UnknownDocument? ==>
      AllPostingsPresent(queryVector, idx) &&
      r.error.docId in Reached(queryVector, idx) && r.error.docId !in idx.documents
  {
    var accumulated := AccumulateSims(queryVector, idx);
    if accumulated.Err? {
      return Err(accumulated.error);
    }
    var (sumWeightQuery, sims) := accumulated.value;
    var results := NormaliseSims(queryVector, idx, sqrt, sumWeightQuery, sims);
    if results.Err? {
      return Err(results.error);
    }
    ScoreListSorted(results.value, queryVector, idx, sqrt);
    if queryVector == [] {
      EmptyQueryRanking(queryVector, idx, sqrt);
    }
    return Ok(SortByScore(results.value));
  }

  /**
   * Evaluates a query: tokenizes it, builds its vector and ranks the
   * documents against it.
   */
  method RunQuery(queryText: string, idx: Index, processText: string -> seq<Term>, ln: real -> real, sqrt: real -> real)
    returns (r: Result<seq<Scored>>)
    requires forall qv :: IsQueryVector(qv, processText(queryText), idx.vocabulary, ln) && LookupsSucceed(qv, idx) ==>
      DenominatorsNonzero(qv, idx, sqrt)
    ensures (r.Err? && r.error.UnknownTerm?) <==> !InVocabulary(processText(queryText), idx.vocabulary)
    ensures r.Ok? ==>
      exists qv :: IsQueryVector(qv, processText(queryText), idx.vocabulary, ln) &&
                   Scorable(qv, idx, sqrt) && IsRanking(r.value, qv, idx, sqrt)
    ensures r.Err? && !r.error.UnknownTerm? ==>
      exists qv :: IsQueryVector(qv, processText(queryText), idx.vocabulary, ln) && !LookupsSucceed(qv, idx)
  {
    var terms := processText(queryText);
    var queryVector := ComputeVector(terms, idx, ln);
    if queryVector.Err? {
      return Err(queryVector.error);
    }
    var scores := ComputeScores(queryVector.value, idx, sqrt);
    return scores;
  }

  /**
   * The outcome of a query does not depend on the order in which its
   * distinct terms are visited: every visiting order succeeds or fails
   * alike, the rankings hold the same scored documents, and they agree on
   * the score at every position, so only documents with equal scores may
   * appear in a different order.
   */
  lemma RankingIndependentOfVisitOrder(terms: seq<Term>, idx: Index, ln: real -> real, sqrt: real -> real,
                                       v1: seq<QueryEntry>, v2: seq<QueryEntry>, rs1: seq<Scored>, rs2: seq<Scored>)
    requires IsQueryVector(v1, terms, idx.vocabulary, ln) && IsQueryVector(v2, terms, idx.vocabulary, ln)
    ensures Scorable(v1, idx, sqrt) <==> Scorable(v2, idx, sqrt)
    ensures Scorable(v1, idx, sqrt) && Scorable(v2, idx, sqrt) &&
            IsRanking(rs1, v1, idx, sqrt) && IsRanking(rs2, v2, idx, sqrt) ==>
              multiset(rs1) == multiset(rs2) && |rs1| == |rs2| &&
              forall i :: 0 <= i < |rs1| ==> rs1[i].score == rs2[i].score
  {
    QueryVectorsArePermutations(v1, v2, terms, idx.vocabulary, ln);
    ScoresPermutation(v1, v2, idx, sqrt);
    if Scorable(v1, idx, sqrt) && IsRanking(rs1, v1, idx, sqrt) && IsRanking(rs2, v2, idx, sqrt) {
      assert IsRanking(rs1, v2, idx, sqrt);
      ScoreListsArePermutations(rs1, rs2, v2, idx, sqrt);
      RankingScoresDetermined(rs1, rs2, v2, idx, sqrt);
    }
  }

  /**
   * A small index: "cat" (identifier 1, idf 0.5) is posted in documents 10
   * (weight 0.5) and 20 (weight 1.0), "dog" (identifier 2, idf 1.0) in
   * document 10 (weight 2.0); document 10 has norm 2.0 and document 20 norm 1.0.
   */
  function ExampleIndex(): Index
  {
    Index(
      map["cat" := VocabEntry(1, 0.5), "dog" := VocabEntry(2, 1.0)],
      map[1 := [Posting(10, 0.5), Posting(20, 1.0)], 2 := [Posting(10, 2.0)]],
      map[10 := DocEntry("A", 2.0), 20 := DocEntry("B", 1.0)])
  }

  /** The query ["cat"] has the single-entry vector [(1, 0.5)]. */
  lemma CatQueryVector(ln: real -> real)
    requires ln(1.0) == 0.0
    ensures IsQueryVector([QueryEntry(1, 0.5)], ["cat"], ExampleIndex().vocabulary, ln)
  {
    var vocabulary := ExampleIndex().vocabulary;
    assert Frequency(["cat"], "cat") == 1;
    assert IsEnumeration(["cat"], ["cat"]);
    assert Weights(["cat"], ["cat"], vocabulary, ln) == [QueryEntry(1, 0.5)] by {
      assert ["cat"][..0] == [];
    }
  }

  /** Against that vector, documents 10 and 20 are reached with dot products 0.25 and 0.5. */
  lemma CatQueryDots()
    ensures SumSq([QueryEntry(1, 0.5)]) == 0.25
    ensures Reached([QueryEntry(1, 0.5)], ExampleIndex()) == {10, 20}
    ensures Dot([QueryEntry(1, 0.5)], ExampleIndex(), 10) == 0.25
    ensures Dot([QueryEntry(1, 0.5)], ExampleIndex(), 20) == 0.5
  {
    var idx, qv := ExampleIndex(), [QueryEntry(1, 0.5)];
    var ps := idx.invertedIndex[1];
    SumOfSnoc([], qv[0], SquaredWeight);
    assert [] + [qv[0]] == qv;
    ReachedSnoc([], qv[0], idx);
    PostingDocsSnoc([], ps[0]);
    PostingDocsSnoc([ps[0]], ps[1]);
    assert [] + [ps[0]] == [ps[0]];
    assert [ps[0]] + [ps[1]] == ps;
    forall d ensures Dot(qv, idx, d) == PostingDot(ps, 0.5, d) {
      DotSnoc([], qv[0], idx, d);
    }
    forall d ensures PostingDot(ps, 0.5, d) == PostingProduct(ps[0], 0.5, d) + PostingProduct(ps[1], 0.5, d) {
      PostingDotSnoc([], ps[0], 0.5, d);
      PostingDotSnoc([ps[0]], ps[1], 0.5, d);
    }
  }

  /**
   * The query ["cat"] ranks document 20 first with score 1.0 and document
   * 10 second with score 0.25.
   */
  lemma CatQueryExample(ln: real -> real, sqrt: real -> real)
    requires ln(1.0) == 0.0 && sqrt(0.25) == 0.5
    ensures IsQueryVector([QueryEntry(1, 0.5)], ["cat"], ExampleIndex().vocabulary, ln)
    ensures Scorable([QueryEntry(1, 0.5)], ExampleIndex(), sqrt)
    ensures IsRanking([Scored(20, 1.0), Scored(10, 0.25)], [QueryEntry(1, 0.5)], ExampleIndex(), sqrt)
  {
    var idx, qv := ExampleIndex(), [QueryEntry(1, 0.5)];
    CatQueryVector(ln);
    CatQueryDots();
    assert idx.documents[10].norm == 2.0 && idx.documents[20].norm == 1.0;
    assert Scorable(qv, idx, sqrt);
    assert Score(qv, idx, sqrt, 20) == CosineOf(0.5, 0.5, 1.0) == 1.0;
    assert Score(qv, idx, sqrt, 10) == CosineOf(0.25, 0.5, 2.0) == 0.25;
    var rs := [Scored(20, 1.0), Scored(10, 0.25)];
    assert rs[1].docId == 10 && rs[0].docId == 20;
  }
}
