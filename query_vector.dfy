/**
 * What the query vectoriser computes: one entry per distinct query term,
 * keyed by the term's vocabulary identifier and weighted by
 * (1 + ln(frequency of the term in the query)) * idf.
 * The distinct terms are visited in an unspecified order, so a query
 * vector is specified up to that order by an enumeration of the terms.
 */
module QueryVectorSpec {
  import opened IndexTypes
  import opened SeqSums

  /** How many times t occurs in the query. */
  function Frequency(terms: seq<Term>, t: Term): nat
  {
    multiset(terms)[t]
  }

  /** The vector entry of query term t: log-scaled query frequency times the term's idf. */
  function EntryFor(t: Term, terms: seq<Term>, vocabulary: map<Term, VocabEntry>, ln: real -> real): QueryEntry
    requires t in vocabulary
  {
    QueryEntry(vocabulary[t].termId, (1.0 + ln(Frequency(terms, t) as real)) * vocabulary[t].idf)
  }

  /** Every term of order has a vocabulary entry. */
  ghost predicate InVocabulary(order: seq<Term>, vocabulary: map<Term, VocabEntry>)
  {
    forall t :: t in order ==> t in vocabulary
  }

  /** The vector built by visiting the distinct terms in the given order. */
  function Weights(order: seq<Term>, terms: seq<Term>, vocabulary: map<Term, VocabEntry>, ln: real -> real): seq<QueryEntry>
    requires InVocabulary(order, vocabulary)
  {
    if order == [] then []
    else Weights(order[..|order| - 1], terms, vocabulary, ln) + [EntryFor(order[|order| - 1], terms, vocabulary, ln)]
  }

  /** order lists every distinct term of the query exactly once. */
  ghost predicate IsEnumeration(order: seq<Term>, terms: seq<Term>)
  {
    NoDuplicates(order) && forall t :: t in order <==> t in terms
  }

  /** v is the query vector of terms for some visiting order of the distinct terms. */
  ghost predicate IsQueryVector(v: seq<QueryEntry>, terms: seq<Term>, vocabulary: map<Term, VocabEntry>, ln: real -> real)
  {
    && InVocabulary(terms, vocabulary)
    && exists order :: IsEnumeration(order, terms) && v == Weights(order, terms, vocabulary, ln)
  }

  lemma {:induction false} WeightsAt(order: seq<Term>, terms: seq<Term>, vocabulary: map<Term, VocabEntry>, ln: real -> real)
    requires InVocabulary(order, vocabulary)
    ensures |Weights(order, terms, vocabulary, ln)| == |order|
    ensures forall i :: 0 <= i < |order| ==>
      Weights(order, terms, vocabulary, ln)[i] == EntryFor(order[i], terms, vocabulary, ln)
    decreases |order|
  {
    if order != [] {
      var prefix := order[..|order| - 1];
      WeightsAt(prefix, terms, vocabulary, ln);
      forall i | 0 <= i < |order| - 1 ensures order[i] == prefix[i] { }
    }
  }

  lemma {:induction false} WeightsConcat(a: seq<Term>, b: seq<Term>, terms: seq<Term>, vocabulary: map<Term, VocabEntry>, ln: real -> real)
    requires InVocabulary(a, vocabulary)
    requires InVocabulary(b, vocabulary)
    ensures Weights(a + b, terms, vocabulary, ln) == Weights(a, terms, vocabulary, ln) + Weights(b, terms, vocabulary, ln)
    decreases |b|
  {
    if b == [] {
      assert a + b == a;
    } else {
      var b', x := b[..|b| - 1], b[|b| - 1];
      assert b == b' + [x];
      assert a + b == (a + b') + [x];
      assert (a + b)[..|a + b| - 1] == a + b';
      WeightsConcat(a, b', terms, vocabulary, ln);
    }
  }

  /** Leaving out the term at k leaves out exactly its entry. */
  lemma WeightsRemoveAt(b: seq<Term>, k: nat, terms: seq<Term>, vocabulary: map<Term, VocabEntry>, ln: real -> real)
    requires k < |b|
    requires InVocabulary(b, vocabulary)
    ensures multiset(Weights(b, terms, vocabulary, ln))
         == multiset(Weights(b[..k] + b[k + 1..], terms, vocabulary, ln)) + multiset{EntryFor(b[k], terms, vocabulary, ln)}
  {
    var x := b[k];
    assert b == b[..k] + [x] + b[k + 1..];
    assert Weights([x], terms, vocabulary, ln) == [EntryFor(x, terms, vocabulary, ln)] by {
      assert [x][..0] == [];
    }
    WeightsConcat(b[..k] + [x], b[k + 1..], terms, vocabulary, ln);
    WeightsConcat(b[..k], [x], terms, vocabulary, ln);
    WeightsConcat(b[..k], b[k + 1..], terms, vocabulary, ln);
  }

  lemma InVocabularyPermutation(a: seq<Term>, b: seq<Term>, vocabulary: map<Term, VocabEntry>)
    requires multiset(a) == multiset(b)
    requires InVocabulary(a, vocabulary)
    ensures InVocabulary(b, vocabulary)
  {
    forall t | t in b ensures t in vocabulary {
      assert t in multiset(a);
    }
  }

  /** Visiting the terms in a permuted order permutes the vector. */
  lemma {:induction false} WeightsPermutation(a: seq<Term>, b: seq<Term>, terms: seq<Term>, vocabulary: map<Term, VocabEntry>, ln: real -> real)
    requires multiset(a) == multiset(b)
    requires InVocabulary(a, vocabulary)
    ensures InVocabulary(b, vocabulary)
    ensures multiset(Weights(a, terms, vocabulary, ln)) == multiset(Weights(b, terms, vocabulary, ln))
    decreases |a|
  {
    InVocabularyPermutation(a, b, vocabulary);
    if a == [] {
      assert |b| == |multiset(b)| == 0;
    } else {
      var a', x := a[..|a| - 1], a[|a| - 1];
      assert a == a' + [x];
      assert x in b by {
        assert x in multiset(b);
      }
      var k :| 0 <= k < |b| && b[k] == x;
      var b' := b[..k] + b[k + 1..];
      assert multiset(b') == multiset(a') by {
        RemoveAt(b, k);
        assert multiset(b') == multiset(b) - multiset{x};
        assert multiset(a) == multiset(a') + multiset{x};
      }
      assert InVocabulary(a', vocabulary) by {
        forall t | t in a' ensures t in vocabulary {
          assert t in a;
        }
      }
      WeightsPermutation(a', b', terms, vocabulary, ln);
      WeightsRemoveAt(b, k, terms, vocabulary, ln);
      var e := EntryFor(x, terms, vocabulary, ln);
      assert Weights(a, terms, vocabulary, ln) == Weights(a', terms, vocabulary, ln) + [e];
    }
  }

  /** An enumeration of the distinct terms has one element per distinct term. */
  lemma EnumerationLength(order: seq<Term>, terms: seq<Term>)
    requires IsEnumeration(order, terms)
    ensures |order| == |set t | t in terms|
  {
    DistinctCardinality(order);
    assert (set t | t in terms) == (set t | t in order);
  }

  /**
   * The vector has exactly one entry per distinct query term: every entry is the
   * entry of some query term, every query term has its entry, and there are as
   * many entries as distinct terms.
   */
  lemma QueryVectorEntries(v: seq<QueryEntry>, terms: seq<Term>, vocabulary: map<Term, VocabEntry>, ln: real -> real)
    requires IsQueryVector(v, terms, vocabulary, ln)
    ensures |v| == |set t | t in terms|
    ensures forall i :: 0 <= i < |v| ==> exists t :: t in terms && v[i] == EntryFor(t, terms, vocabulary, ln)
    ensures forall t :: t in terms ==> exists i :: 0 <= i < |v| && v[i] == EntryFor(t, terms, vocabulary, ln)
  {
    var order :| IsEnumeration(order, terms) && v == Weights(order, terms, vocabulary, ln);
    WeightsAt(order, terms, vocabulary, ln);
    EnumerationLength(order, terms);
    forall i | 0 <= i < |v| ensures exists t :: t in terms && v[i] == EntryFor(t, terms, vocabulary, ln) {
      assert order[i] in order;
    }
    forall t | t in terms ensures exists i :: 0 <= i < |v| && v[i] == EntryFor(t, terms, vocabulary, ln) {
      assert t in order;
      var i :| 0 <= i < |order| && order[i] == t;
      assert v[i] == EntryFor(order[i], terms, vocabulary, ln);
    }
  }

  /** Any two query vectors of the same query are permutations of each other. */
  lemma QueryVectorsArePermutations(v1: seq<QueryEntry>, v2: seq<QueryEntry>, terms: seq<Term>, vocabulary: map<Term, VocabEntry>, ln: real -> real)
    requires IsQueryVector(v1, terms, vocabulary, ln)
    requires IsQueryVector(v2, terms, vocabulary, ln)
    ensures multiset(v1) == multiset(v2)
  {
    var o1 :| IsEnumeration(o1, terms) && v1 == Weights(o1, terms, vocabulary, ln);
    var o2 :| IsEnumeration(o2, terms) && v2 == Weights(o2, terms, vocabulary, ln);
    DistinctSameElements(o1, o2);
    WeightsPermutation(o1, o2, terms, vocabulary, ln);
  }
}
