/** The retrieval layer: one document store per ticket category, a search
    within a category that filters by a minimum similarity, ranks and
    truncates, and the merge of the primary category's results with those of
    related categories. TF-IDF vectorisation and cosine similarity are not
    modelled: the similarity of a query to the `idx`-th document of a
    category is supplied by the `similarity` function of a `Retriever`. */
module RagSystem {
  import opened Py
  import opened Text
  import opened State
  import Sorting
  import KnowledgeBase

  /** A document as held in a category store: its text and its `source` entry. */
  datatype IndexedDoc = IndexedDoc(content: string, source: Value)

  /** The name a result is cited by: the document's `source`, or
      `{category}_doc_{idx}` when it has none usable. */
  function SourceName(source: Value, category: string, idx: nat): string {
    if source.StrV? then source.s else category + "_doc_" + NatToString(idx)
  }

  function Score(d: ContextDocument): real {
    d.relevanceScore
  }

  /** The store `_initialize_indexes` keeps for a category with the given
      knowledge-base documents: empty when there are none or when fitting the
      vectorizer fails, which it does for a non-string content and, as
      `fits` reports, for texts that leave an empty vocabulary. */
  function StoreFor(docs: seq<KnowledgeBase.KbDoc>, fits: seq<string> -> bool): (store: seq<IndexedDoc>)
    ensures store != [] <==>
              docs != [] && KnowledgeBase.AllText(docs) && fits(seq(|docs|, i requires 0 <= i < |docs| => docs[i].content.s))
    ensures store != [] ==> (|store| == |docs| &&
              forall i :: 0 <= i < |docs| ==> store[i] == IndexedDoc(docs[i].content.s, docs[i].source))
  {
    if docs == [] || !KnowledgeBase.AllText(docs) then []
    else if !fits(seq(|docs|, i requires 0 <= i < |docs| => docs[i].content.s)) then []
    else seq(|docs|, i requires 0 <= i < |docs| => IndexedDoc(docs[i].content.s, docs[i].source))
  }

  /** The documents among the first `n` of `docs` whose similarity to the
      query is at least `minRelevance`, in store order, as context documents. */
  function Candidates(docs: seq<IndexedDoc>, query: string, category: string,
                      similarity: (string, string, nat) -> real, minRelevance: real, n: nat): (r: seq<ContextDocument>)
    requires n <= |docs|
    ensures |r| <= n
  {
    if n == 0 then []
    else
      var score := similarity(query, category, n - 1);
      Candidates(docs, query, category, similarity, minRelevance, n - 1) +
        (if score >= minRelevance
         then [ContextDocument(docs[n - 1].content, SourceName(docs[n - 1].source, category, n - 1), score, category)]
         else [])
  }

  /** Every candidate is a document of the store at some position, scored by
      the similarity at that position, at least `minRelevance`. */
  predicate Grounded(d: ContextDocument, docs: seq<IndexedDoc>, query: string, category: string,
                     similarity: (string, string, nat) -> real, minRelevance: real) {
    d.category == category && d.relevanceScore >= minRelevance &&
    exists idx :: 0 <= idx < |docs| && d.content == docs[idx].content &&
                  d.relevanceScore == similarity(query, category, idx)
  }

  lemma {:induction false} CandidatesGrounded(docs: seq<IndexedDoc>, query: string, category: string,
                                              similarity: (string, string, nat) -> real, minRelevance: real, n: nat)
    requires n <= |docs|
    ensures forall d :: d in Candidates(docs, query, category, similarity, minRelevance, n) ==>
              Grounded(d, docs, query, category, similarity, minRelevance)
  {
    if n > 0 {
      CandidatesGrounded(docs, query, category, similarity, minRelevance, n - 1);
    }
  }

  /** Every store document scoring at least `minRelevance` is a candidate. */
  lemma {:induction false} CandidatesComplete(docs: seq<IndexedDoc>, query: string, category: string,
                                              similarity: (string, string, nat) -> real, minRelevance: real, n: nat)
    requires n <= |docs|
    ensures forall idx :: 0 <= idx < n && similarity(query, category, idx) >= minRelevance ==>
              ContextDocument(docs[idx].content, SourceName(docs[idx].source, category, idx),
                              similarity(query, category, idx), category)
                in Candidates(docs, query, category, similarity, minRelevance, n)
  {
    if n > 0 {
      CandidatesComplete(docs, query, category, similarity, minRelevance, n - 1);
    }
  }

  function RelatedCategories(primary: string): (related: seq<string>)
    ensures |related| >= 1
    ensures forall c :: c in related ==> c in Categories && c != primary
    ensures forall i, j :: 0 <= i < j < |related| ==> related[i] != related[j]
    ensures primary != "General" ==> "General" in related
    ensures primary == "General" ==> forall c :: c in Categories && c != "General" ==> c in related
  {
    match primary
    case "Billing" => ["General"]
    case "Technical" => ["General", "Security"]
    case "Security" => ["Technical", "General"]
    case "General" => ["Billing", "Technical", "Security"]
    case _ => ["General"]
  }

  /** `enhance_query`: the subject twice, then the description, lower-cased
      and stripped. */
  function EnhanceQuery(subject: string, description: string): (query: string)
    ensures query != [] ==> !IsSpace(query[0]) && !IsSpace(query[|query| - 1])
  {
    Strip(Lower(subject + " " + subject + " " + description))
  }

  /** The enhanced query has no upper-case letter. */
  lemma EnhanceQueryLowered(subject: string, description: string)
    ensures forall i :: 0 <= i < |EnhanceQuery(subject, description)| ==>
              !('A' <= EnhanceQuery(subject, description)[i] <= 'Z')
  {
    var lowered := Lower(subject + " " + subject + " " + description);
    var a, b := StripIsSlice(lowered);
    var query := EnhanceQuery(subject, description);
    forall i | 0 <= i < |query| ensures !('A' <= query[i] <= 'Z') {
      assert query[i] == lowered[a + i];
    }
  }

  /** The enhanced query keeps the whole stripped, lower-cased subject and
      description. */
  lemma EnhanceQueryKeepsTicket(subject: string, description: string)
    ensures Contains(EnhanceQuery(subject, description), Strip(Lower(subject)))
    ensures Contains(EnhanceQuery(subject, description), Strip(Lower(description)))
  {
    var u := subject + " " + subject + " " + description;
    assert forall k :: 0 <= k < |subject| ==> u[|subject| + 1 + k] == subject[k];
    LoweredPieceKept(u, subject, |subject| + 1);
    assert forall k :: 0 <= k < |description| ==> u[2 * |subject| + 2 + k] == description[k];
    LoweredPieceKept(u, description, 2 * |subject| + 2);
  }

  /** The subject is weighted double: apart from whitespace, the enhanced
      query is the lower-cased subject, the subject again, then the
      description. */
  lemma EnhanceQueryWeightsSubject(subject: string, description: string)
    ensures DropSpace(EnhanceQuery(subject, description)) ==
            DropSpace(Lower(subject)) + DropSpace(Lower(subject)) + DropSpace(Lower(description))
  {
    var u := subject + " " + subject + " " + description;
    LowerQueryParts(subject, description);
    StripKeepsVisible(Lower(u));
    DropSpaceQueryParts(Lower(subject), Lower(description));
  }

  lemma LowerQueryParts(subject: string, description: string)
    ensures Lower(subject + " " + subject + " " + description) ==
            Lower(subject) + " " + Lower(subject) + " " + Lower(description)
  {
    LowerConcat(subject + " " + subject + " ", description);
    LowerConcat(subject + " " + subject, " ");
    LowerConcat(subject + " ", subject);
    LowerConcat(subject, " ");
    assert Lower(" ") == " ";
  }

  lemma DropSpaceQueryParts(a: string, b: string)
    ensures DropSpace(a + " " + a + " " + b) == DropSpace(a) + DropSpace(a) + DropSpace(b)
  {
    assert DropSpace(" ") == [];
    DropSpaceConcat(a + " " + a + " ", b);
    DropSpaceConcat(a + " " + a, " ");
    DropSpaceConcat(a + " ", a);
    DropSpaceConcat(a, " ");
  }

  lemma LoweredPieceKept(u: string, piece: string, offset: nat)
    requires offset + |piece| <= |u|
    requires forall k :: 0 <= k < |piece| ==> u[offset + k] == piece[k]
    ensures Contains(Strip(Lower(u)), Strip(Lower(piece)))
  {
    var t := Lower(u);
    var p := Lower(piece);
    assert forall k :: 0 <= k < |p| ==> t[offset + k] == p[k];
    KeptStretch(t, p, offset);
  }

  /** A piece placed at `offset` in `t` survives stripping `t`, stripped itself. */
  lemma KeptStretch(t: string, piece: string, offset: nat)
    requires offset + |piece| <= |t|
    requires forall k :: 0 <= k < |piece| ==> t[offset + k] == piece[k]
    ensures Contains(Strip(t), Strip(piece))
  {
    var core := Strip(piece);
    if core == [] {
      ContainsAt(Strip(t), core, 0);
    } else {
      var a, b := StripIsSlice(piece);
      assert t[offset + a..offset + b] == core by {
        forall k | 0 <= k < |core| ensures t[offset + a + k] == core[k] {
          assert core[k] == piece[a + k];
        }
      }
      KeptCore(t, core, offset + a);
    }
  }

  /** A stretch of `t` that starts and ends with non-space characters
      survives stripping `t`. */
  lemma KeptCore(t: string, core: string, i: nat)
    requires core != [] && !IsSpace(core[0]) && !IsSpace(core[|core| - 1])
    requires i + |core| <= |t| && t[i..i + |core|] == core
    ensures Contains(Strip(t), core)
  {
    assert t[i] == core[0] && t[i + |core| - 1] == core[|core| - 1];
    StripKeepsInterior(t, i, i + |core|);
  }

  /** A built retrieval system: the category stores and the similarity oracle. */
  datatype Retriever = Retriever(index: map<string, seq<IndexedDoc>>,
                                 similarity: (string, string, nat) -> real)
  {
    /** The category has a fitted vectorizer and at least one document. */
    predicate Indexed(category: string) {
      category in index && index[category] != []
    }

    /** The result of `_search_category`. */
    function CategoryResults(query: string, category: string, topK: nat, minRelevance: real): seq<ContextDocument> {
      if !Indexed(category) then []
      else
        var docs := index[category];
        Sorting.Take(Sorting.SortDesc(Candidates(docs, query, category, similarity, minRelevance, |docs|), Score), topK)
    }

    /** The primary search: the category itself, else `General`, else nothing. */
    function Primary(query: string, category: string, topK: nat, minRelevance: real): seq<ContextDocument> {
      if Indexed(category) then CategoryResults(query, category, topK, minRelevance)
      else if Indexed("General") then CategoryResults(query, "General", topK, minRelevance)
      else []
    }

    /** The related-category pass: each indexed category in turn adds its
        `remainingK` best, and the pass stops once `topK` are gathered. */
    function RelatedFrom(query: string, related: seq<string>, remainingK: nat, topK: nat,
                         minRelevance: real, gathered: seq<ContextDocument>): seq<ContextDocument>
      decreases |related|
    {
      if related == [] then gathered
      else if Indexed(related[0]) then
        var next := gathered + CategoryResults(query, related[0], remainingK, minRelevance);
        if |next| >= topK then next
        else RelatedFrom(query, related[1..], remainingK, topK, minRelevance, next)
      else RelatedFrom(query, related[1..], remainingK, topK, minRelevance, gathered)
    }

    /** Everything gathered before the final ranking. */
    function Merged(query: string, category: string, topK: nat, includeRelated: bool,
                    minRelevance: real): seq<ContextDocument> {
      var primary := Primary(query, category, topK, minRelevance);
      if includeRelated && |primary| < topK then
        RelatedFrom(query, RelatedCategories(category), topK - |primary|, topK, minRelevance, primary)
      else primary
    }

    /** The result of `retrieve_context`. */
    function Retrieved(query: string, category: string, topK: nat, includeRelated: bool,
                       minRelevance: real): seq<ContextDocument> {
      Sorting.Take(Sorting.SortDesc(Merged(query, category, topK, includeRelated, minRelevance), Score), topK)
    }
  }

  /** `_initialize_indexes`: a store for each of the four categories. */
  method InitializeIndexes(kb: KnowledgeBase.KnowledgeBase, fits: seq<string> -> bool,
                           similarity: (string, string, nat) -> real) returns (rv: Retriever)
    ensures rv.similarity == similarity
    ensures forall c :: c in rv.index <==> c in Categories
    ensures forall k :: 0 <= k < |Categories| ==>
              rv.index[Categories[k]] == StoreFor(kb.CategoryDocuments(Categories[k]), fits)
  {
    var stores: map<string, seq<IndexedDoc>> := map[];
    var k := 0;
    while k < |Categories|
      invariant 0 <= k <= |Categories|
      invariant forall c :: c in stores <==> c in Categories[..k]
      invariant forall m :: 0 <= m < k ==>
                  stores[Categories[m]] == StoreFor(kb.CategoryDocuments(Categories[m]), fits)
    {
      var category := Categories[k];
      var documents := kb.CategoryDocuments(category);
      stores := stores[category := StoreFor(documents, fits)];
      assert Categories[..k + 1] == Categories[..k] + [category];
      k := k + 1;
    }
    assert Categories[..k] == Categories;
    rv := Retriever(stores, similarity);
  }

  /** `_search_category`: keeps the documents scoring at least
      `minRelevance`, ranks them by descending score and keeps `topK`. */
  method SearchCategory(rv: Retriever, query: string, category: string, topK: nat, minRelevance: real)
    returns (results: seq<ContextDocument>)
    ensures results == rv.CategoryResults(query, category, topK, minRelevance)
  {
    if category !in rv.index || |rv.index[category]| == 0 {
      return [];
    }
    var documents := rv.index[category];
    var found: seq<ContextDocument> := [];
    var idx := 0;
    while idx < |documents|
      invariant 0 <= idx <= |documents|
      invariant found == Candidates(documents, query, category, rv.similarity, minRelevance, idx)
    {
      var similarity := rv.similarity(query, category, idx);
      if similarity >= minRelevance {
        var doc := documents[idx];
        found := found + [ContextDocument(doc.content, SourceName(doc.source, category, idx), similarity, category)];
      }
      idx := idx + 1;
    }
    results := Sorting.Take(Sorting.SortDesc(found, Score), topK);
  }

  /** `retrieve_context`: the primary search, topped up from the related
      categories when asked to and short of `topK`, then ranked and cut. */
  method RetrieveContext(rv: Retriever, query: string, category: string, topK: nat,
                         includeRelated: bool, minRelevance: real) returns (results: seq<ContextDocument>)
    ensures results == rv.Retrieved(query, category, topK, includeRelated, minRelevance)
  {
    var all: seq<ContextDocument> := [];
    if rv.Indexed(category) {
      var found := SearchCategory(rv, query, category, topK, minRelevance);
      all := all + found;
    } else if rv.Indexed("General") {
      var found := SearchCategory(rv, query, "General", topK, minRelevance);
      all := all + found;
    }
    assert all == rv.Primary(query, category, topK, minRelevance);
    if includeRelated && |all| < topK {
      all := SearchRelated(rv, query, RelatedCategories(category), topK - |all|, topK, minRelevance, all);
    }
    results := Sorting.Take(Sorting.SortDesc(all, Score), topK);
  }

  /** The related-category pass of `retrieve_context`, extending `gathered`
      with each indexed category's `remainingK` best until `topK` are held. */
  method SearchRelated(rv: Retriever, query: string, related: seq<string>, remainingK: nat, topK: nat,
                       minRelevance: real, gathered: seq<ContextDocument>) returns (all: seq<ContextDocument>)
    requires |gathered| < topK
    ensures all == rv.RelatedFrom(query, related, remainingK, topK, minRelevance, gathered)
  {
    all := gathered;
    var i := 0;
    while i < |related|
      invariant 0 <= i <= |related|
      invariant |all| < topK
      invariant rv.RelatedFrom(query, related[i..], remainingK, topK, minRelevance, all) ==
                  rv.RelatedFrom(query, related, remainingK, topK, minRelevance, gathered)
    {
      var relatedCategory := related[i];
      RelatedFromStep(rv, query, related, i, remainingK, topK, minRelevance, all);
      if rv.Indexed(relatedCategory) {
        var found := SearchCategory(rv, query, relatedCategory, remainingK, minRelevance);
        all := all + found;
        if |all| >= topK {
          return;
        }
      }
      i := i + 1;
    }
  }

  lemma RelatedFromStep(rv: Retriever, query: string, related: seq<string>, i: nat, remainingK: nat,
                        topK: nat, minRelevance: real, gathered: seq<ContextDocument>)
    requires i < |related|
    ensures rv.RelatedFrom(query, related[i..], remainingK, topK, minRelevance, gathered) ==
              if rv.Indexed(related[i]) then
                var next := gathered + rv.CategoryResults(query, related[i], remainingK, minRelevance);
                if |next| >= topK then next
                else rv.RelatedFrom(query, related[i + 1..], remainingK, topK, minRelevance, next)
              else rv.RelatedFrom(query, related[i + 1..], remainingK, topK, minRelevance, gathered)
  {
    assert related[i..][1..] == related[i + 1..];
  }

  /** `_search_category` returns at most `topK` documents of the category,
      each scoring at least `minRelevance`, in descending order of score, and
      nothing for a category without documents. */
  lemma CategoryResultsFacts(rv: Retriever, query: string, category: string, topK: nat, minRelevance: real)
    ensures var r := rv.CategoryResults(query, category, topK, minRelevance);
            |r| <= topK && Sorting.SortedDesc(r, Score) &&
            (!rv.Indexed(category) ==> r == []) &&
            forall d :: d in r ==> (rv.Indexed(category) &&
              Grounded(d, rv.index[category], query, category, rv.similarity, minRelevance))
  {
    if rv.Indexed(category) {
      var docs := rv.index[category];
      var found := Candidates(docs, query, category, rv.similarity, minRelevance, |docs|);
      Sorting.SortSorted(found, Score);
      Sorting.SortMembers(found, Score);
      CandidatesGrounded(docs, query, category, rv.similarity, minRelevance, |docs|);
      var sorted := Sorting.SortDesc(found, Score);
      var r := Sorting.Take(sorted, topK);
      forall d | d in r ensures d in sorted {
        assert r == sorted[..|r|];
      }
    }
  }

  /** The search keeps the best documents: a qualifying document left out
      scores no higher than any document kept, and when no more than `topK`
      qualify, all of them are kept. */
  lemma CategoryResultsBest(rv: Retriever, query: string, category: string, topK: nat, minRelevance: real)
    requires rv.Indexed(category)
    ensures var docs := rv.index[category];
            var found := Candidates(docs, query, category, rv.similarity, minRelevance, |docs|);
            var r := rv.CategoryResults(query, category, topK, minRelevance);
            (forall d :: d in found && d !in r ==> forall e :: e in r ==> e.relevanceScore >= d.relevanceScore) &&
            (|found| <= topK ==> forall d :: d in found ==> d in r)
  {
    var docs := rv.index[category];
    var found := Candidates(docs, query, category, rv.similarity, minRelevance, |docs|);
    var sorted := Sorting.SortDesc(found, Score);
    var r := Sorting.Take(sorted, topK);
    Sorting.SortSorted(found, Score);
    Sorting.SortMembers(found, Score);
    forall d, e | d in found && d !in r && e in r ensures e.relevanceScore >= d.relevanceScore {
      var j :| 0 <= j < |sorted| && sorted[j] == d;
      var i :| 0 <= i < |r| && r[i] == e;
      assert sorted[i] == e;
      assert forall k :: 0 <= k < |r| ==> r[k] == sorted[k];
      assert j >= |r|;
    }
  }

  /** Every document of the related-category pass was already gathered or
      comes from an indexed related category, grounded in its store. */
  lemma {:induction false} RelatedFromGrounded(rv: Retriever, query: string, related: seq<string>, remainingK: nat,
                                               topK: nat, minRelevance: real, gathered: seq<ContextDocument>)
    ensures gathered <= rv.RelatedFrom(query, related, remainingK, topK, minRelevance, gathered)
    ensures forall d :: d in rv.RelatedFrom(query, related, remainingK, topK, minRelevance, gathered) ==>
              d in gathered ||
              (d.category in related && rv.Indexed(d.category) &&
               Grounded(d, rv.index[d.category], query, d.category, rv.similarity, minRelevance))
  {
    if related != [] {
      var c := related[0];
      if rv.Indexed(c) {
        var next := gathered + rv.CategoryResults(query, c, remainingK, minRelevance);
        CategoryResultsFacts(rv, query, c, remainingK, minRelevance);
        if |next| < topK {
          RelatedFromGrounded(rv, query, related[1..], remainingK, topK, minRelevance, next);
        }
      } else {
        RelatedFromGrounded(rv, query, related[1..], remainingK, topK, minRelevance, gathered);
      }
    }
  }

  /** `retrieve_context` returns at most `topK` documents in descending order
      of score, each scoring at least `minRelevance` and each a document of
      the requested category, of `General` or of a related category. */
  lemma RetrievedFacts(rv: Retriever, query: string, category: string, topK: nat,
                       includeRelated: bool, minRelevance: real)
    ensures var r := rv.Retrieved(query, category, topK, includeRelated, minRelevance);
            |r| <= topK && Sorting.SortedDesc(r, Score) &&
            forall d :: d in r ==>
              (d.category == category || d.category == "General" || d.category in RelatedCategories(category)) &&
              rv.Indexed(d.category) &&
              Grounded(d, rv.index[d.category], query, d.category, rv.similarity, minRelevance)
  {
    var primary := rv.Primary(query, category, topK, minRelevance);
    var merged := rv.Merged(query, category, topK, includeRelated, minRelevance);
    CategoryResultsFacts(rv, query, category, topK, minRelevance);
    CategoryResultsFacts(rv, query, "General", topK, minRelevance);
    if includeRelated && |primary| < topK {
      RelatedFromGrounded(rv, query, RelatedCategories(category), topK - |primary|, topK, minRelevance, primary);
    }
    var sorted := Sorting.SortDesc(merged, Score);
    Sorting.SortSorted(merged, Score);
    Sorting.SortMembers(merged, Score);
    var r := Sorting.Take(sorted, topK);
    forall d | d in r ensures d in merged {
      assert r == sorted[..|r|];
    }
  }

  /** Without the related pass (not asked for, or the primary search already
      found `topK`), the result is the primary search's, unchanged: the
      category's own documents, or `General`'s when the category has none. */
  lemma RetrievedPrimaryOnly(rv: Retriever, query: string, category: string, topK: nat,
                             includeRelated: bool, minRelevance: real)
    requires !includeRelated || |rv.Primary(query, category, topK, minRelevance)| >= topK
    ensures rv.Retrieved(query, category, topK, includeRelated, minRelevance) ==
              rv.Primary(query, category, topK, minRelevance)
    ensures forall d :: d in rv.Retrieved(query, category, topK, includeRelated, minRelevance) ==>
              d.category == (if rv.Indexed(category) then category else "General")
  {
    var primary := rv.Primary(query, category, topK, minRelevance);
    CategoryResultsFacts(rv, query, category, topK, minRelevance);
    CategoryResultsFacts(rv, query, "General", topK, minRelevance);
    Sorting.SortKeepsSorted(primary, Score);
  }
}
