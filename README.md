# Cosine retrieval model

This project models `Cosine.java` in Dafny and proves properties of the model. `Cosine.java` is the vector-space retrieval model of a small search engine. It ranks indexed documents against a free-text query by cosine similarity under TF-IDF weighting. A query is evaluated against a read-only index with three tables:

- a vocabulary that maps a term to its identifier and idf;
- an inverted index that maps a term identifier to its postings `(docId, weight)`;
- a document table that maps a document identifier to its name and the Euclidean norm of its weight vector.

The evaluation has three steps:

1. **Tokenize.** The query text becomes a list of terms through the document processor.
2. **Build the query vector** (`computeVector`). There is one entry per distinct query term. The terms are visited in the iteration order of a hash set. Each entry is the term's identifier paired with `(1 + ln f) * idf`, where `f` counts the term's occurrences in the query.
3. **Score** (`computeScores`). This step:
   - sums the squared query weights;
   - walks the posting list of every query term, adding `wq * wd` into a per-document accumulator (get-or-insert);
   - divides each accumulated value by `sqrt(sum of squares) * docNorm`;
   - sorts the scored documents by descending score.

The model keeps the shape of the code:

- `computeVector` and `computeScores` are loops over a set or map and a list, so they become methods with `while` loops.
- The accumulator is a `map<int, real>` that the loop reassigns.
- `runQuery` is a composition.
- Each method is proved against specification functions. Separate lemmas establish what those functions mean.

The files:

- `index.dfy` (module `IndexTypes`): the index tables, query entries, scored documents and the evaluation's failures.
- `seq_sums.dfy` (module `SeqSums`): sums over sequences, their invariance under permutation, and facts about duplicate-free sequences.
- `query_vector.dfy` (module `QueryVectorSpec`): what a query vector is, for any visiting order of the distinct terms.
- `scores_spec.dfy` (module `ScoreSpec`): the squared query norm, the reached documents, dot products, cosine scores, the descending sort, and what makes a list a ranking.
- `cosine.dfy` (module `Cosine`): the three operations as methods, plus theorems about the whole evaluation.

How the source's behaviour is represented:

- **Lookups that can fail.** The code dereferences three lookups without checking for null:
  - the vocabulary entry of a query term (line 129);
  - the posting list of a term identifier (lines 60-61);
  - the document entry of a reached document (lines 91-92).

  Each missing entry ends the evaluation with a `NullPointerException`. The model returns the matching error instead: `UnknownTerm`, `NoPostings` or `UnknownDocument`. Unknown query terms are not skipped: the code dereferences the missing vocabulary entry (Cosine.java:129-131), and the model returns `UnknownTerm` there.

  Java throws at the first document without an entry, in the map's iteration order. Before that it divides for the documents visited earlier, and those results die with the exception. The model therefore checks for a document without an entry before it divides, and fails with `UnknownDocument` there.
- **Iteration order.** Hash-set and hash-map iteration order is not modelled. The loops pick the next element with `:|` from the set still to be visited. The specifications therefore hold for every order: a query vector is `Weights(order, …)` for some enumeration `order` of the distinct terms, and a ranking is specified by its set of entries and by being sorted.
- **Library functions.** `Math.log` and `Math.sqrt` become the parameters `ln` and `sqrt`, and the tokenizer becomes the parameter `processText`.

## Model

| member | source | states |
|---|---|---|
| Cosine.ComputeVector | Cosine.java:120-169 | Succeeds exactly when every query term has a vocabulary entry. On success, the result is the query vector for some visiting order of the distinct terms. On failure, it names a query term missing from the vocabulary. |
| Cosine.AddPostings | Cosine.java:60-77 | Afterwards the accumulator's keys are the old keys plus the documents of the posting list. Each document's accumulated value grows by that list's sum of `wd * wq` for the document, and an absent key reads as 0. |
| Cosine.AccumulateSims | Cosine.java:47-78 | Succeeds exactly when every query term identifier has a posting list. It then returns the sum of squared query weights and an accumulator whose keys are exactly the reached documents, with each value equal to that document's dot product. On failure, it names the first term identifier without a posting list. |
| Cosine.NormaliseSims | Cosine.java:83-98 | Succeeds exactly when every reached document has a document entry. A nonzero denominator is required only in that case. It then returns one entry per reached document, with no document repeated, each scored by dot / (sqrt(sumSq) * norm). On failure, it names a reached document without an entry. |
| Cosine.ComputeScores | Cosine.java:43-111 | Fails exactly when a posting list or a reached document's entry is missing; a nonzero denominator is required only when neither is. Otherwise it returns a ranking: every reached document once, with its cosine score, sorted non-increasing. An empty query vector gives an empty ranking. A failure is a missing posting list or a missing document entry, with its detail. |
| Cosine.RunQuery | Cosine.java:22-34 | Fails with UnknownTerm exactly when a token has no vocabulary entry. On success, the result is a ranking of some query vector of the tokens. Any other failure comes from a query vector with a missing posting list or a missing document entry. |
| Cosine.RankingIndependentOfVisitOrder | Cosine.java:22-34 | Two visiting orders of the distinct terms either both succeed or both fail. Their rankings hold the same scored documents and agree on the score at every position, so only tied documents can appear in a different order. |
| Cosine.CatQueryVector | Cosine.java:120-169 | With ln(1) = 0, the query ["cat"] over the example vocabulary has the vector [(1, 0.5)]. |
| Cosine.CatQueryDots | Cosine.java:47-78 | For that vector over the example index, the squared norm is 0.25, the reached documents are {10, 20}, and their dot products are 0.25 and 0.5. |
| Cosine.CatQueryExample | Cosine.java:22-34 | With ln(1) = 0 and sqrt(0.25) = 0.5, the query ["cat"] ranks document 20 (score 1.0) above document 10 (score 0.25). |
| QueryVectorSpec.EntryFor | Cosine.java:129-164 | Where the weight formula is written down: a term's entry is its vocabulary identifier and (1 + ln(its number of occurrences in the query)) * idf. It has no contract of its own; `WeightsAt` and `QueryVectorEntries` state it about the vector. |
| QueryVectorSpec.Weights | Cosine.java:127-166 | Where the loop's result is written down: the vector built by visiting the given order of terms, one `EntryFor` per visited term, appended in visiting order. `ComputeVector` is proved to produce it for the order it visits, and `WeightsAt` states its entries. |
| QueryVectorSpec.IsQueryVector | Cosine.java:120-169 | What an outcome of `computeVector` is: every query term is in the vocabulary, and the vector is `Weights` of some duplicate-free enumeration of the distinct query terms. `QueryVectorEntries` and `QueryVectorsArePermutations` say what that pins down. |
| QueryVectorSpec.WeightsAt | Cosine.java:127-166 | The vector built by visiting an order of terms has one entry per visited term. Entry i is (termId, (1 + ln(frequency in the query)) * idf) of the i-th visited term. |
| QueryVectorSpec.WeightsConcat | Cosine.java:127-166 | Visiting two runs of terms one after the other appends their vectors. |
| QueryVectorSpec.WeightsRemoveAt | Cosine.java:127-166 | Leaving one term out of the visiting order removes exactly that term's entry from the vector. |
| QueryVectorSpec.InVocabularyPermutation | Cosine.java:125-129 | Whether every term has a vocabulary entry does not depend on the order of the terms. |
| QueryVectorSpec.WeightsPermutation | Cosine.java:125-127 | Visiting the terms in a permuted order permutes the vector. |
| QueryVectorSpec.EnumerationLength | Cosine.java:125 | An enumeration of the distinct terms has as many elements as the set of query terms. |
| QueryVectorSpec.QueryVectorEntries | Cosine.java:125-166 | A query vector has exactly as many entries as there are distinct query terms. Every entry is the weighted entry of some query term, and every query term has its entry. |
| QueryVectorSpec.QueryVectorsArePermutations | Cosine.java:125-127 | Any two query vectors of the same query, for different visiting orders, are permutations of each other. |
| ScoreSpec.Dot | Cosine.java:52-77 | Where the accumulation is written down: the sum over query entries of wq times wd over the postings naming the document. `AccumulateSims` is proved equal to it, and `DotIsInnerProduct` ties it to the inner product. |
| ScoreSpec.Reached | Cosine.java:52-77 | Where the accumulator's key set is written down: the documents named in the posting lists of the query terms. `AccumulateSims` is proved equal to it, and `ReachedMembership` characterises it. |
| ScoreSpec.CosineOf | Cosine.java:94 | Where the division is written down: dot / (queryNorm * docNorm), defined when the denominator is nonzero. `Score` applies it, and `NormaliseSims` is proved to produce it. |
| ScoreSpec.SumSq | Cosine.java:58 | Where the query's squared norm is written down: the sum of the squared weights of the query entries. `AccumulateSims` is proved to return it, and `ScoresPermutation` shows it does not depend on the entries' order. |
| ScoreSpec.LookupsSucceed | Cosine.java:60-92 | When the ranker runs to the end: every query term identifier has a posting list (lines 60-61) and every reached document has a document entry (lines 91-92). `ComputeScores` fails exactly when it does not hold. |
| ScoreSpec.IsScoreList | Cosine.java:86-98 | What the list built by the map loop is: every reached document exactly once, each with its `Score`, in some order. `NormaliseSims` is proved to produce one, and `ScoreListsArePermutations` shows any two are permutations of each other. |
| ScoreSpec.IsRanking | Cosine.java:86-109 | What `computeScores` returns: a score list whose scores never increase (`SortedByScore`). `ComputeScores` is proved to return one, and `RankingScoresDetermined` shows only the order among ties is open. |
| ScoreSpec.SumSqSnoc | Cosine.java:58 | One more query entry adds the square of its weight to the sum of squares. |
| ScoreSpec.PostingDotSnoc | Cosine.java:61-76 | One more posting adds its product with the query weight, for its own document only. |
| ScoreSpec.DotSnoc | Cosine.java:52-77 | One more query entry adds that term's contribution to each document's dot product. |
| ScoreSpec.PostingDocsSnoc | Cosine.java:69-76 | One more posting adds its document to the documents of the list. |
| ScoreSpec.ReachedSnoc | Cosine.java:52-77 | One more query entry adds the documents of its posting list to the reached documents. |
| ScoreSpec.PostingDocsMembership | Cosine.java:61-76 | A document belongs to a posting list's documents exactly when some posting in the list names it. |
| ScoreSpec.ReachedMembership | Cosine.java:52-77 | A document is a key of the accumulator exactly when it occurs in the posting list of some query term. |
| ScoreSpec.PostingDotUnreached | Cosine.java:61-76 | A posting list that does not name a document contributes 0 to that document. |
| ScoreSpec.DotUnreached | Cosine.java:52-77 | A document that no query term's postings name has dot product 0, so leaving it out of the results loses no non-zero score. |
| ScoreSpec.PostingDotFactor | Cosine.java:61-76 | A posting list's contribution to a document is the query weight times the term's weight in that document. |
| ScoreSpec.DotIsInnerProduct | Cosine.java:52-77 | The accumulated value equals the inner product of the query vector and the document's weight vector: the sum over query entries of wq times the term's weight in the document. |
| ScoreSpec.InsertByScore | Cosine.java:102-109 | Inserting into a list sorted by descending score keeps it sorted and adds exactly the new entry. |
| ScoreSpec.SortByScore | Cosine.java:102-109 | The sorted list is non-increasing in score and is a permutation of the input. |
| ScoreSpec.SortedCons | Cosine.java:102-109 | A head no lower than every score of a sorted tail gives a sorted list. |
| ScoreSpec.SortedTail | Cosine.java:102-109 | The tail of a list sorted by descending score is sorted. Used by `InsertByScore`. |
| ScoreSpec.BelowHead | Cosine.java:102-109 | Inserting an entry that is below the head of a sorted list into its tail yields only scores at most the head's. Used by `InsertByScore`. |
| ScoreSpec.ScoreListNoDuplicates | Cosine.java:86-98 | A score list has no repeated entries. |
| ScoreSpec.PermutationKeepsScoreList | Cosine.java:86-109 | Reordering a score list leaves a score list. |
| ScoreSpec.ScoreListSorted | Cosine.java:102-110 | Sorting a score list by descending score gives a ranking. |
| ScoreSpec.ScoreListsArePermutations | Cosine.java:86-98 | Any two score lists of the same query are permutations of each other, whatever order the accumulator was visited in. |
| ScoreSpec.ReachedPermutation | Cosine.java:52-77 | The reached documents do not depend on the order of the query vector. |
| ScoreSpec.ScoresPermutation | Cosine.java:47-98 | Reordering the query vector changes neither the sum of squares, the reached documents, the dot products, whether scoring succeeds, nor which lists are score lists. |
| ScoreSpec.ScoresOf | Cosine.java:102-109 | The scores of a list, position by position. |
| ScoreSpec.ScoresOfRemoveAt | Cosine.java:102-109 | Removing an entry removes its score at the same position. |
| ScoreSpec.ScoresOfPermutation | Cosine.java:102-109 | Permuted lists have permuted scores. |
| ScoreSpec.HeadIsLargest | Cosine.java:102-109 | The head of a non-increasing sequence is at least every element of it. |
| ScoreSpec.NonIncreasingTail | Cosine.java:102-109 | The tail of a non-increasing sequence is non-increasing. |
| ScoreSpec.NonIncreasingUnique | Cosine.java:102-109 | Two non-increasing sequences holding the same numbers are equal. |
| ScoreSpec.RankingScoresDetermined | Cosine.java:102-109 | Any two rankings of the same query have the same length and the same score at every position. |
| ScoreSpec.EmptyQueryRanking | Cosine.java:43-111 | An empty query vector is scorable, and its only ranking is the empty list. |
| SeqSums.SumOfSnoc | Cosine.java:58 | Appending one element adds its value to the sum. |
| SeqSums.SumOfConcat | Cosine.java:52-58 | The sum over a concatenation is the sum of the two sums. |
| SeqSums.SumOfPermutation | Cosine.java:52-58 | A sum over the query vector does not depend on the order of its entries. |
| SeqSums.RemoveAt | Cosine.java:125-127 | General multiset fact: removing the element at a position removes one occurrence of it from the multiset. Used by `SumOfPermutation`, `WeightsPermutation` and `ScoresOfPermutation`. |
| SeqSums.SameTails | Cosine.java:102-109 | General multiset fact: sequences with the same elements and the same head have tails with the same elements. Used by `NonIncreasingUnique`. |
| SeqSums.DistinctMultiplicity | Cosine.java:125 | General fact: each element of a duplicate-free sequence occurs exactly once. Used by `NoDuplicatesPermutation` and `DistinctSameElements`. |
| SeqSums.TwoOccurrences | Cosine.java:125 | General fact: an element found at two positions occurs at least twice. Used by `NoDuplicatesPermutation`. |
| SeqSums.NoDuplicatesPermutation | Cosine.java:125 | General fact: a permutation of a duplicate-free sequence is duplicate-free. Used by `PermutationKeepsScoreList`. |
| SeqSums.DistinctSameElements | Cosine.java:125-127 | General fact: two duplicate-free sequences with the same elements are permutations of each other. Used by `QueryVectorsArePermutations` and `ScoreListsArePermutations`. |
| SeqSums.DistinctCardinality | Cosine.java:125 | General fact: a duplicate-free sequence has as many elements as the set of its elements. Used by `EnumerationLength`, and so by `QueryVectorEntries`. |

## Left out

- Tokenization: `DocumentProcessor.processText` is not part of this model. It is the parameter `processText`, and nothing is assumed about it.
- `Math.log` and `Math.sqrt` are the uninterpreted parameters `ln` and `sqrt`. No numeric fact about them is used, apart from the two values the worked example states as preconditions.
- Floating point: weights and scores are exact `real`s, not IEEE-754 doubles. Rounding, overflow, NaN and infinities are not modelled.
- Cosine.ComputeScores: a zero denominator `sqrt(sumSq) * norm` would give NaN or an infinity in Java. The model does not represent those values. When every lookup succeeds (`LookupsSucceed`), so that the division results are returned, it requires `DenominatorsNonzero` instead. Inputs where some lookup fails are always accepted, because Java throws there before any quotient reaches the caller.
- Cosine.NormaliseSims: the same conditional `DenominatorsNonzero` precondition, for the same reason.
- Cosine.RunQuery: the same precondition, for every query vector of the tokens whose lookups all succeed.
- Cosine.ComputeScores: `Double.compareTo` orders -0.0 below 0.0 and NaN above everything. The model sorts by the real order, and the comparison of equal scores is left open.
- Hash-set and hash-map iteration order: the model picks elements in an unspecified order and proves every result for all orders.
- Sort stability: `Collections.sort` is stable, but the order it keeps between tied scores is the accumulator's unspecified iteration order. The model's `SortByScore` is one insertion sort, and its contract states only sortedness and permutation. `RankingScoresDetermined` shows that nothing beyond the order of ties is left open.
- The `NullPointerException`s are modelled as the first failure reached, not as exceptions. Java's partial state at that point (a partially built vector or accumulator) is not observable, because the exception leaves the method.
- The commented-out alternatives for the term frequency and idf (Cosine.java:144-147 and 155-159) are dead code and are not modelled.
- The constructor of `Cosine` (empty), the `RetrievalModel` interface, and the construction of `Index` and `Tuple` objects are outside this model. The index is a value given to each call.
