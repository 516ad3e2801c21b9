/**
 * The read-only index snapshot a query is evaluated against, and the values
 * that flow between the two scoring steps: query-vector entries, scored
 * documents and the failures of an evaluation.
 */
module IndexTypes {

  /** A normalised query or document token. */
  type Term = string

  /** The vocabulary entry of a term: its identifier and its precomputed idf. */
  datatype VocabEntry = VocabEntry(termId: int, idf: real)

  /** One posting of a term: a document and the term's weight in it. */
  datatype Posting = Posting(docId: int, weight: real)

  /** The document table entry: a name and the Euclidean norm of its weight vector. */
  datatype DocEntry = DocEntry(name: string, norm: real)

  /** The three tables of the index, all keyed lookups into immutable maps. */
  datatype Index = Index(
    vocabulary: map<Term, VocabEntry>,
    invertedIndex: map<int, seq<Posting>>,
    documents: map<int, DocEntry>)

  /** One entry of the sparse query vector: a term identifier and its weight. */
  datatype QueryEntry = QueryEntry(termId: int, weight: real)

  /** One entry of the ranking: a document and its cosine similarity. */
  datatype Scored = Scored(docId: int, score: real)

  /**
   * The lookups that the evaluation dereferences without a check; each one
   * stands for the null dereference that ends the evaluation.
   */
  datatype Error =
    | UnknownTerm(term: Term)        // the term has no vocabulary entry
    | NoPostings(termId: int)        // the term identifier has no posting list
    | UnknownDocument(docId: int)    // a reached document has no document entry

  datatype Result<T> = Ok(value: T) | Err(error: Error)
}
