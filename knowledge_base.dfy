/** The in-memory store of support documents, keyed by category: loading and
    validation of the per-category document files, lookup, case-insensitive
    substring search ranked by match count, statistics, and additions. The
    files themselves are an input: `files(name)` is what reading and parsing
    `<name>_docs.json` produced. */
module KnowledgeBase {
  import opened Py
  import opened Text
  import Sorting

  /** What reading one category file produced. */
  datatype KbFile = Missing | Unreadable | Parsed(json: Value)

  /** A stored document. Loaded documents carry exactly the five named keys;
      `extra` holds the additional metadata of a document added later. */
  datatype KbDoc = KbDoc(content: Value, source: Value, category: string, tags: Value, priority: Value,
                         extra: map<string, Value>)

  /** The file names (without `_docs.json`) and the category each one fills. */
  const FileNames: seq<string> := ["billing", "technical", "security", "general"]
  const Titles: seq<string> := ["Billing", "Technical", "Security", "General"]

  const ReservedKeys: set<string> := {"content", "source", "category", "tags", "priority"}

  /** The dictionary a stored document is. */
  function DocRecord(d: KbDoc): map<string, Value> {
    d.extra + map["content" := d.content, "source" := d.source, "category" := StrV(d.category),
                  "tags" := d.tags, "priority" := d.priority]
  }

  /** The validation applied to one file entry: a dictionary with `content`
      is kept, with the missing fields defaulted; anything else is dropped. */
  function ValidateDocument(name: string, title: string, v: Value): (r: Option<KbDoc>)
    ensures r.Some? <==> v.DictV? && "content" in v.fields
    ensures r.Some? ==>
              r.value.content == v.fields["content"] &&
              r.value.source == (if "source" in v.fields then v.fields["source"] else StrV(name + "_doc")) &&
              r.value.category == title &&
              r.value.tags == (if "tags" in v.fields then v.fields["tags"] else ListV([])) &&
              r.value.priority == (if "priority" in v.fields then v.fields["priority"] else StrV("normal")) &&
              r.value.extra == map[]
  {
    if v.DictV? && "content" in v.fields then
      Some(KbDoc(v.fields["content"], Get(v.fields, "source", StrV(name + "_doc")), title,
                 Get(v.fields, "tags", ListV([])), Get(v.fields, "priority", StrV("normal")), map[]))
    else None
  }

  /** The validated documents of a file's entries, in file order. */
  function ValidatedDocs(name: string, title: string, entries: seq<Value>): (r: seq<KbDoc>)
    ensures |r| <= |entries|
  {
    if entries == [] then []
    else
      var last := entries[|entries| - 1];
      ValidatedDocs(name, title, entries[..|entries| - 1]) +
        (match ValidateDocument(name, title, last) case Some(d) => [d] case None => [])
  }

  /** Every kept document comes from a valid entry of the file, and every
      valid entry is kept. */
  lemma {:induction false} ValidatedDocsExact(name: string, title: string, entries: seq<Value>)
    ensures forall d :: d in ValidatedDocs(name, title, entries) ==>
              d.category == title && exists v :: v in entries && ValidateDocument(name, title, v) == Some(d)
    ensures forall v :: v in entries && v.DictV? && "content" in v.fields ==>
              ValidateDocument(name, title, v).value in ValidatedDocs(name, title, entries)
  {
    if entries != [] {
      var init := entries[..|entries| - 1];
      ValidatedDocsExact(name, title, init);
      assert entries == init + [entries[|entries| - 1]];
      assert forall v :: v in init ==> v in entries;
    }
  }

  /** The documents a category file yields: none for a missing or unreadable
      file, or for parsed content that is not a list. */
  function FileDocuments(name: string, title: string, file: KbFile): seq<KbDoc> {
    match file
    case Parsed(ListV(entries)) => ValidatedDocs(name, title, entries)
    case _ => []
  }

  /** The validation loop of `_load_documents` over one file's entries. */
  method ValidateDocuments(name: string, title: string, entries: seq<Value>) returns (validated: seq<KbDoc>)
    ensures validated == ValidatedDocs(name, title, entries)
    ensures forall d :: d in validated ==> d.category == title
  {
    validated := [];
    var i := 0;
    while i < |entries|
      invariant 0 <= i <= |entries|
      invariant validated == ValidatedDocs(name, title, entries[..i])
    {
      assert entries[..i + 1][..i] == entries[..i];
      var v := entries[i];
      if v.DictV? && "content" in v.fields {
        var doc := KbDoc(v.fields["content"], Get(v.fields, "source", StrV(name + "_doc")), title,
                         Get(v.fields, "tags", ListV([])), Get(v.fields, "priority", StrV("normal")), map[]);
        validated := validated + [doc];
      }
      i := i + 1;
    }
    assert entries[..i] == entries;
    ValidatedDocsExact(name, title, entries);
  }

  lemma TitlesDistinct()
    ensures forall i, j :: 0 <= i < j < |Titles| ==> Titles[i] != Titles[j]
  {
    assert Titles[0][0] == 'B' && Titles[1][0] == 'T' && Titles[2][0] == 'S' && Titles[3][0] == 'G';
  }

  /** One category's share of `_load_documents`: a missing or unreadable
      file, or a parsed value that is not a list, yields no documents. */
  method ReadCategory(name: string, title: string, file: KbFile) returns (docs: seq<KbDoc>)
    ensures docs == FileDocuments(name, title, file)
  {
    docs := [];
    match file {
      case Parsed(ListV(entries)) =>
        docs := ValidateDocuments(name, title, entries);
      case _ =>
    }
  }

  /** `order` lists the store's categories, each once. */
  ghost predicate ValidStore(documents: map<string, seq<KbDoc>>, order: seq<string>) {
    (forall c :: c in documents <==> c in order) &&
    (forall i, j :: 0 <= i < j < |order| ==> order[i] != order[j])
  }

  /** The store after loading the first `k` of the files `names` (filling
      the categories `titles`) into `start`. */
  function LoadedUpTo(start: map<string, seq<KbDoc>>, names: seq<string>, titles: seq<string>,
                      files: string -> KbFile, k: nat): map<string, seq<KbDoc>>
    requires k <= |names| == |titles|
  {
    if k == 0 then start
    else
      LoadedUpTo(start, names, titles, files, k - 1)[titles[k - 1] :=
        FileDocuments(names[k - 1], titles[k - 1], files(names[k - 1]))]
  }

  /** The category order after loading the first `k` files: a category new to
      the store goes last. */
  function OrderUpTo(startOrder: seq<string>, start: map<string, seq<KbDoc>>, names: seq<string>,
                     titles: seq<string>, files: string -> KbFile, k: nat): seq<string>
    requires k <= |names| == |titles|
  {
    if k == 0 then startOrder
    else
      var prev := OrderUpTo(startOrder, start, names, titles, files, k - 1);
      if titles[k - 1] in LoadedUpTo(start, names, titles, files, k - 1) then prev else prev + [titles[k - 1]]
  }

  /** The loaded store's categories: those it had and those loaded. */
  lemma {:induction false} LoadedKeys(start: map<string, seq<KbDoc>>, names: seq<string>, titles: seq<string>,
                                      files: string -> KbFile, k: nat)
    requires k <= |names| == |titles|
    ensures forall c :: c in LoadedUpTo(start, names, titles, files, k) <==> c in start || c in titles[..k]
  {
    if k > 0 {
      LoadedKeys(start, names, titles, files, k - 1);
      assert titles[..k] == titles[..k - 1] + [titles[k - 1]];
    }
  }

  /** Each loaded category holds what its file yields, the later file
      winning only if two files fill the same category. */
  lemma {:induction false} LoadedValues(start: map<string, seq<KbDoc>>, names: seq<string>, titles: seq<string>,
                                        files: string -> KbFile, k: nat)
    requires k <= |names| == |titles|
    requires forall i, j :: 0 <= i < j < |titles| ==> titles[i] != titles[j]
    ensures forall j :: 0 <= j < k ==>
              titles[j] in LoadedUpTo(start, names, titles, files, k) &&
              LoadedUpTo(start, names, titles, files, k)[titles[j]] == FileDocuments(names[j], titles[j], files(names[j]))
  {
    if k > 0 {
      LoadedValues(start, names, titles, files, k - 1);
    }
  }

  /** Categories no file fills keep their documents. */
  lemma {:induction false} LoadedOthers(start: map<string, seq<KbDoc>>, names: seq<string>, titles: seq<string>,
                                        files: string -> KbFile, k: nat)
    requires k <= |names| == |titles|
    ensures forall c :: c in start && c !in titles[..k] ==>
              c in LoadedUpTo(start, names, titles, files, k) && LoadedUpTo(start, names, titles, files, k)[c] == start[c]
  {
    if k > 0 {
      LoadedOthers(start, names, titles, files, k - 1);
      LoadedKeys(start, names, titles, files, k - 1);
      assert titles[..k] == titles[..k - 1] + [titles[k - 1]];
    }
  }

  /** Loading keeps the order a duplicate-free listing of the categories. */
  lemma {:induction false} LoadedValid(startOrder: seq<string>, start: map<string, seq<KbDoc>>,
                                       names: seq<string>, titles: seq<string>,
                                       files: string -> KbFile, k: nat)
    requires k <= |names| == |titles| && ValidStore(start, startOrder)
    ensures ValidStore(LoadedUpTo(start, names, titles, files, k), OrderUpTo(startOrder, start, names, titles, files, k))
  {
    if k > 0 {
      LoadedValid(startOrder, start, names, titles, files, k - 1);
    }
  }

  /** Loading into an empty store lists the categories in file order. */
  lemma {:induction false} LoadedOrderFromEmpty(names: seq<string>, titles: seq<string>,
                                                files: string -> KbFile, k: nat)
    requires k <= |names| == |titles|
    requires forall i, j :: 0 <= i < j < |titles| ==> titles[i] != titles[j]
    ensures OrderUpTo([], map[], names, titles, files, k) == titles[..k]
  {
    if k > 0 {
      LoadedOrderFromEmpty(names, titles, files, k - 1);
      LoadedKeys(map[], names, titles, files, k - 1);
      assert titles[k - 1] !in titles[..k - 1] by {
        var earlier := titles[..k - 1];
        forall i | 0 <= i < |earlier| ensures earlier[i] != titles[k - 1] {
          assert earlier[i] == titles[i];
        }
      }
      assert titles[k - 1] !in LoadedUpTo(map[], names, titles, files, k - 1);
      assert titles[..k] == titles[..k - 1] + [titles[k - 1]];
    }
  }

  /** One search hit: the document with its `text_relevance`. */
  datatype SearchHit = SearchHit(doc: KbDoc, textRelevance: nat)

  function HitKey(h: SearchHit): real {
    h.textRelevance as real
  }

  /** The text of a document whose content is a string. */
  function ContentText(d: KbDoc): string {
    if d.content.StrV? then d.content.s else ""
  }

  predicate Matches(q: string, d: KbDoc) {
    Contains(Lower(ContentText(d)), q)
  }

  /** The hits among `docs` for the lower-cased query `q`, in order. */
  function HitsIn(q: string, docs: seq<KbDoc>): (r: seq<SearchHit>)
    ensures |r| <= |docs|
  {
    if docs == [] then []
    else
      var d := docs[|docs| - 1];
      HitsIn(q, docs[..|docs| - 1]) +
        (if Matches(q, d) then [SearchHit(d, Count(Lower(ContentText(d)), q))] else [])
  }

  /** The hits in `docs` are exactly its matching documents, each counted. */
  lemma {:induction false} HitsInExact(q: string, docs: seq<KbDoc>)
    ensures forall h :: h in HitsIn(q, docs) ==>
              h.doc in docs && Matches(q, h.doc) && h.textRelevance == Count(Lower(ContentText(h.doc)), q)
    ensures forall d :: d in docs && Matches(q, d) ==>
              SearchHit(d, Count(Lower(ContentText(d)), q)) in HitsIn(q, docs)
  {
    if docs != [] {
      var init := docs[..|docs| - 1];
      HitsInExact(q, init);
      assert docs == init + [docs[|docs| - 1]];
      assert forall d :: d in init ==> d in docs;
    }
  }

  /** Every document's content is a string, so lower-casing it cannot raise. */
  predicate AllText(docs: seq<KbDoc>) {
    forall i :: 0 <= i < |docs| ==> docs[i].content.StrV?
  }

  lemma AllTextExtend(docs: seq<KbDoc>, i: nat)
    requires i < |docs| && AllText(docs[..i]) && docs[i].content.StrV?
    ensures AllText(docs[..i + 1])
  {
    assert forall m :: 0 <= m < i ==> docs[..i + 1][m] == docs[..i][m];
  }

  lemma HitsInStep(q: string, docs: seq<KbDoc>, i: nat)
    requires i < |docs|
    ensures HitsIn(q, docs[..i + 1]) ==
              HitsIn(q, docs[..i]) +
                (if Matches(q, docs[i]) then [SearchHit(docs[i], Count(Lower(ContentText(docs[i])), q))] else [])
  {
    assert docs[..i + 1][..i] == docs[..i];
  }

  /** The inner loop of `search_documents` over one category's documents:
      `None` where lower-casing a non-string content raises. */
  method ScanDocuments(q: string, docs: seq<KbDoc>) returns (found: Option<seq<SearchHit>>)
    ensures found.None? <==> !AllText(docs)
    ensures found.Some? ==> found.value == HitsIn(q, docs)
  {
    var hits: seq<SearchHit> := [];
    var i := 0;
    while i < |docs|
      invariant 0 <= i <= |docs|
      invariant hits == HitsIn(q, docs[..i])
      invariant AllText(docs[..i])
    {
      var doc := docs[i];
      if !doc.content.StrV? {
        return None;
      }
      AllTextExtend(docs, i);
      HitsInStep(q, docs, i);
      var content := Lower(doc.content.s);
      if Contains(content, q) {
        hits := hits + [SearchHit(doc, Count(content, q))];
      }
      i := i + 1;
    }
    assert docs[..i] == docs;
    found := Some(hits);
  }

  class KnowledgeBase {
    /** Category name to its documents. */
    var documents: map<string, seq<KbDoc>>
    /** The categories in insertion order, the order a dictionary iterates in. */
    var order: seq<string>

    ghost predicate Valid()
      reads this
    {
      ValidStore(documents, order)
    }

    /** The store holds exactly the four categories, each with the
        documents its file yields. */
    ghost predicate IsLoaded(files: string -> KbFile)
      reads this
    {
      (forall c :: c in documents <==> c in Titles) &&
      forall k :: 0 <= k < |Titles| ==> documents[Titles[k]] == FileDocuments(FileNames[k], Titles[k], files(FileNames[k]))
    }

    /** `KnowledgeBase(data_dir)`: loads every category file. */
    constructor (files: string -> KbFile)
      ensures Valid()
      ensures IsLoaded(files) && order == Titles
    {
      documents := map[];
      order := [];
      new;
      LoadDocuments(files);
    }

    /** `_load_documents`: each category's validated documents replace
        whatever the store held for it; other categories are unchanged. */
    method LoadDocuments(files: string -> KbFile)
      requires Valid()
      modifies this
      ensures Valid()
      ensures forall k :: 0 <= k < |Titles| ==>
                Titles[k] in documents && documents[Titles[k]] == FileDocuments(FileNames[k], Titles[k], files(FileNames[k]))
      ensures forall c :: c in documents <==> c in old(documents) || c in Titles
      ensures forall c :: c in old(documents) && c !in Titles ==> documents[c] == old(documents)[c]
      ensures old(order) == [] ==> order == Titles
    {
      var k := 0;
      while k < |FileNames|
        invariant 0 <= k <= |FileNames|
        invariant documents == LoadedUpTo(old(documents), FileNames, Titles, files, k)
        invariant order == OrderUpTo(old(order), old(documents), FileNames, Titles, files, k)
      {
        var name := FileNames[k];
        var title := Titles[k];
        var loaded := ReadCategory(name, title, files(name));
        if title !in documents {
          order := order + [title];
        }
        documents := documents[title := loaded];
        k := k + 1;
      }
      assert Titles[..k] == Titles;
      TitlesDistinct();
      LoadedKeys(old(documents), FileNames, Titles, files, k);
      LoadedValues(old(documents), FileNames, Titles, files, k);
      LoadedOthers(old(documents), FileNames, Titles, files, k);
      LoadedValid(old(order), old(documents), FileNames, Titles, files, k);
      if old(order) == [] {
        assert forall c :: c in old(documents) ==> c in old(order);
        assert old(documents) == map[];
        LoadedOrderFromEmpty(FileNames, Titles, files, k);
      }
    }

    /** `get_category_documents`: an unknown category has no documents. */
    function CategoryDocuments(category: string): (docs: seq<KbDoc>)
      reads this
      ensures category in documents ==> docs == documents[category]
      ensures category !in documents ==> docs == []
    {
      if category in documents then documents[category] else []
    }

    /** The categories a search looks in: the given one, or every category
        when none (or the empty name) is given. */
    function SearchCategories(category: Option<string>): seq<string>
      reads this
    {
      if category.Some? && category.value != "" then [category.value] else order
    }

    /** Every searched document has string content; otherwise lower-casing
        the content raises. */
    predicate Searchable(cats: seq<string>)
      reads this
    {
      forall k :: 0 <= k < |cats| ==> AllText(CategoryDocuments(cats[k]))
    }

    function HitsAcross(q: string, cats: seq<string>): seq<SearchHit>
      reads this
    {
      if cats == [] then []
      else HitsAcross(q, cats[..|cats| - 1]) + HitsIn(q, CategoryDocuments(cats[|cats| - 1]))
    }

    /** The result of `search_documents`, or `None` where it raises. */
    function Search(query: string, category: Option<string>): Option<seq<SearchHit>>
      reads this
    {
      var cats := SearchCategories(category);
      if Searchable(cats) then Some(Sorting.SortDesc(HitsAcross(Lower(query), cats), HitKey))
      else None
    }

    /** `search_documents`: scans the chosen categories, keeps the documents
        whose lower-cased content contains the lower-cased query, and ranks
        them by descending match count (stable for equal counts). */
    method SearchDocuments(query: string, category: Option<string>) returns (r: Option<seq<SearchHit>>)
      ensures r == Search(query, category)
    {
      var q := Lower(query);
      var cats := if category.Some? && category.value != "" then [category.value] else order;
      assert cats == SearchCategories(category);
      var found := ScanCategories(q, cats);
      if found.None? {
        return None;
      }
      r := Some(Sorting.SortDesc(found.value, HitKey));
    }

    /** The scan over the chosen categories, in order; `None` where a
        document's content is not text. */
    method ScanCategories(q: string, cats: seq<string>) returns (found: Option<seq<SearchHit>>)
      ensures found.None? <==> !Searchable(cats)
      ensures found.Some? ==> found.value == HitsAcross(q, cats)
    {
      var results: seq<SearchHit> := [];
      var j := 0;
      while j < |cats|
        invariant 0 <= j <= |cats|
        invariant results == HitsAcross(q, cats[..j])
        invariant Searchable(cats[..j])
      {
        var hits := ScanDocuments(q, CategoryDocuments(cats[j]));
        if hits.None? {
          // `doc['content'].lower()` raised.
          NotSearchable(cats, j);
          return None;
        }
        SearchableExtend(cats, j);
        HitsAcrossExtend(q, cats, j);
        results := results + hits.value;
        j := j + 1;
      }
      assert cats[..j] == cats;
      found := Some(results);
    }

    lemma HitsAcrossExtend(q: string, cats: seq<string>, j: nat)
      requires j < |cats|
      ensures HitsAcross(q, cats[..j + 1]) == HitsAcross(q, cats[..j]) + HitsIn(q, CategoryDocuments(cats[j]))
    {
      assert cats[..j + 1][..j] == cats[..j];
    }

    lemma NotSearchable(cats: seq<string>, j: nat)
      requires j < |cats| && !AllText(CategoryDocuments(cats[j]))
      ensures !Searchable(cats)
    {
    }

    lemma SearchableExtend(cats: seq<string>, j: nat)
      requires j < |cats| && Searchable(cats[..j]) && AllText(CategoryDocuments(cats[j]))
      ensures Searchable(cats[..j + 1])
    {
      var prefix := cats[..j + 1];
      forall k | 0 <= k < |prefix| ensures AllText(CategoryDocuments(prefix[k])) {
        if k < j {
          assert prefix[k] == cats[..j][k];
        }
      }
    }

    /** Every hit contains the query case-insensitively, with its match count
        (at least 1) as `text_relevance`, and the hits are in descending order
        of that count. */
    lemma SearchHitsMatch(query: string, category: Option<string>)
      requires Search(query, category).Some?
      ensures var hits := Search(query, category).value;
              Sorting.SortedDesc(hits, HitKey) &&
              forall h :: h in hits ==>
                Contains(Lower(ContentText(h.doc)), Lower(query)) &&
                h.textRelevance == Count(Lower(ContentText(h.doc)), Lower(query)) &&
                h.textRelevance >= 1
    {
      var q := Lower(query);
      var cats := SearchCategories(category);
      var found := HitsAcross(q, cats);
      Sorting.SortSorted(found, HitKey);
      Sorting.SortMembers(found, HitKey);
      forall h | h in found
        ensures Matches(q, h.doc) && h.textRelevance == Count(Lower(ContentText(h.doc)), q)
      {
        HitsAcrossMatch(q, cats, h);
      }
      forall h | h in found ensures h.textRelevance >= 1 {
        CountPositiveIffContains(Lower(ContentText(h.doc)), q);
      }
    }

    lemma {:induction false} HitsAcrossMatch(q: string, cats: seq<string>, h: SearchHit)
      requires h in HitsAcross(q, cats)
      ensures Matches(q, h.doc) && h.textRelevance == Count(Lower(ContentText(h.doc)), q)
      ensures exists k :: 0 <= k < |cats| && h.doc in CategoryDocuments(cats[k])
    {
      var init := cats[..|cats| - 1];
      if h in HitsAcross(q, init) {
        HitsAcrossMatch(q, init, h);
        var k :| 0 <= k < |init| && h.doc in CategoryDocuments(init[k]);
        assert cats[k] == init[k];
      } else {
        HitsInExact(q, CategoryDocuments(cats[|cats| - 1]));
      }
    }

    /** A search given a category looks only in that category, and finds
        nothing in a category the store does not have. */
    lemma SearchWithinCategory(query: string, c: string)
      requires c != "" && Search(query, Some(c)).Some?
      ensures forall h :: h in Search(query, Some(c)).value ==> h.doc in CategoryDocuments(c)
      ensures c !in documents ==> Search(query, Some(c)) == Some([])
    {
      var q := Lower(query);
      var found := HitsAcross(q, [c]);
      Sorting.SortMembers(found, HitKey);
      forall h | h in found ensures h.doc in CategoryDocuments(c) {
        HitsAcrossMatch(q, [c], h);
      }
      assert [c][..0] == [];
      if c !in documents {
        assert HitsIn(q, CategoryDocuments(c)) == [];
        assert [c][|[c]| - 1] == c && HitsAcross(q, [c][..0]) == [];
        assert found == HitsAcross(q, [c][..0]) + HitsIn(q, CategoryDocuments(c));
        assert found == [];
        assert Sorting.SortDesc(found, HitKey) == [];
      }
    }

    /** Every document of a searched category whose content contains the
        query is among the hits. */
    lemma SearchComplete(query: string, category: Option<string>, k: nat, d: KbDoc)
      requires Search(query, category).Some?
      requires k < |SearchCategories(category)|
      requires d in CategoryDocuments(SearchCategories(category)[k]) && Matches(Lower(query), d)
      ensures SearchHit(d, Count(Lower(ContentText(d)), Lower(query))) in Search(query, category).value
    {
      var q := Lower(query);
      var cats := SearchCategories(category);
      HitsAcrossComplete(q, cats, k, d);
      Sorting.SortMembers(HitsAcross(q, cats), HitKey);
    }

    lemma {:induction false} HitsAcrossComplete(q: string, cats: seq<string>, k: nat, d: KbDoc)
      requires k < |cats| && d in CategoryDocuments(cats[k]) && Matches(q, d)
      ensures SearchHit(d, Count(Lower(ContentText(d)), q)) in HitsAcross(q, cats)
    {
      var init := cats[..|cats| - 1];
      if k < |cats| - 1 {
        assert init[k] == cats[k];
        HitsAcrossComplete(q, init, k, d);
      } else {
        HitsInExact(q, CategoryDocuments(cats[k]));
      }
    }

    /** `add_document`: appends one document to the category, creating the
        category when it is new; other categories are unchanged. */
    method AddDocument(category: string, content: string, source: string, metadata: map<string, Value>)
      returns (added: bool)
      requires Valid()
      modifies this
      ensures Valid()
      ensures added
      ensures documents == old(documents)[category := old(CategoryDocuments(category)) +
                                           [NewDocument(category, content, source, metadata)]]
      ensures order == if category in old(documents) then old(order) else old(order) + [category]
    {
      if category !in documents {
        documents := documents[category := []];
        order := order + [category];
      }
      var doc := NewDocument(category, content, source, metadata);
      documents := documents[category := documents[category] + [doc]];
      added := true;
    }

    /** `reload_documents`: clears the store, then loads every category
        file, so nothing added since survives. */
    method ReloadDocuments(files: string -> KbFile)
      modifies this
      ensures Valid()
      ensures IsLoaded(files) && order == Titles
    {
      documents := map[];
      order := [];
      LoadDocuments(files);
    }

    /** `get_document_stats`, or `None` where taking the length of a
        document's content raises. */
    method GetDocumentStats() returns (r: Option<DocumentStats>)
      requires Valid()
      ensures r == DocumentStatsOf(order, documents)
    {
      var categories: map<string, CategoryStats> := map[];
      var total: nat := 0;
      var totalLength: nat := 0;
      var k := 0;
      while k < |order|
        invariant 0 <= k <= |order|
        invariant DocumentStatsOf(order[..k], documents) == Some(DocumentStats(total, categories, totalLength))
      {
        var cat := order[k];
        var docs := documents[cat];
        var length := ContentLength(docs);
        if length.None? {
          // `len(doc['content'])` raises.
          DocumentStatsNone(order, documents, k);
          return None;
        }
        var count := |docs|;
        StatsPrefixStep(order, documents, k);
        categories := categories[cat := CategoryEntry(count, length.value)];
        total := total + count;
        totalLength := totalLength + length.value;
        k := k + 1;
      }
      assert order[..k] == order;
      r := Some(DocumentStats(total, categories, totalLength));
    }
  }

  /** The document `add_document` builds: the five fields from the arguments
      (tags and priority defaulted), then the remaining metadata. */
  function NewDocument(category: string, content: string, source: string, metadata: map<string, Value>): (d: KbDoc)
    ensures d.extra.Keys !! ReservedKeys
    ensures forall k :: k in metadata && k !in ReservedKeys ==> k in d.extra && d.extra[k] == metadata[k]
  {
    KbDoc(StrV(content), StrV(source), category, Get(metadata, "tags", ListV([])),
          Get(metadata, "priority", StrV("normal")), metadata - ReservedKeys)
  }

  /** Extra metadata never overwrites the content, source or category, and
      supplies tags and priority only through their own keys. */
  lemma NewDocumentRecord(category: string, content: string, source: string, metadata: map<string, Value>)
    ensures var r := DocRecord(NewDocument(category, content, source, metadata));
            r["content"] == StrV(content) && r["source"] == StrV(source) && r["category"] == StrV(category) &&
            r["tags"] == Get(metadata, "tags", ListV([])) &&
            r["priority"] == Get(metadata, "priority", StrV("normal")) &&
            (forall k :: k in metadata && k !in ReservedKeys ==> k in r && r[k] == metadata[k]) &&
            r.Keys == metadata.Keys + ReservedKeys
  {
  }

  datatype CategoryStats = CategoryStats(documentCount: nat, totalContentLength: nat, averageDocumentLength: nat)
  datatype DocumentStats = DocumentStats(totalDocuments: nat, categories: map<string, CategoryStats>, totalContentLength: nat)

  /** A category's entry: `content_length // max(doc_count, 1)` as the average. */
  function CategoryEntry(count: nat, length: nat): CategoryStats {
    CategoryStats(count, length, length / (if count > 1 then count else 1))
  }

  /** `sum(len(doc['content']) for doc in docs)`, or `None` where a content
      has no length. */
  function ContentLength(docs: seq<KbDoc>): Option<nat> {
    if docs == [] then Some(0)
    else
      match (ContentLength(docs[..|docs| - 1]), Len(docs[|docs| - 1].content))
      case (Some(a), Some(b)) => Some(a + b)
      case _ => None
  }

  /** The statistics of the categories `cats`, visited in order. */
  function DocumentStatsOf(cats: seq<string>, documents: map<string, seq<KbDoc>>): Option<DocumentStats>
    requires forall c :: c in cats ==> c in documents
  {
    if cats == [] then Some(DocumentStats(0, map[], 0))
    else
      var c := cats[|cats| - 1];
      var docs := documents[c];
      match (DocumentStatsOf(cats[..|cats| - 1], documents), ContentLength(docs))
      case (Some(s), Some(len)) =>
        var count := |docs|;
        Some(DocumentStats(s.totalDocuments + count,
                           s.categories[c := CategoryEntry(count, len)],
                           s.totalContentLength + len))
      case _ => None
  }

  lemma StatsPrefixStep(cats: seq<string>, documents: map<string, seq<KbDoc>>, k: nat)
    requires k < |cats| && forall c :: c in cats ==> c in documents
    requires DocumentStatsOf(cats[..k], documents).Some? && ContentLength(documents[cats[k]]).Some?
    ensures forall c :: c in cats[..k + 1] ==> c in documents
    ensures var c := cats[k];
            var count := |documents[c]|;
            var len := ContentLength(documents[c]).value;
            var s0 := DocumentStatsOf(cats[..k], documents).value;
            DocumentStatsOf(cats[..k + 1], documents) ==
              Some(DocumentStats(s0.totalDocuments + count,
                                 s0.categories[c := CategoryEntry(count, len)],
                                 s0.totalContentLength + len))
  {
    assert cats[..k + 1][..k] == cats[..k];
  }

  lemma {:induction false} DocumentStatsNone(cats: seq<string>, documents: map<string, seq<KbDoc>>, k: nat)
    requires forall c :: c in cats ==> c in documents
    requires k < |cats| && ContentLength(documents[cats[k]]).None?
    ensures DocumentStatsOf(cats, documents).None?
  {
    if k < |cats| - 1 {
      assert cats[..|cats| - 1][k] == cats[k];
      DocumentStatsNone(cats[..|cats| - 1], documents, k);
    }
  }

  function SumCounts(cats: seq<string>, stats: map<string, CategoryStats>): int
    requires forall c :: c in cats ==> c in stats
  {
    if cats == [] then 0 else SumCounts(cats[..|cats| - 1], stats) + stats[cats[|cats| - 1]].documentCount
  }

  function SumLengths(cats: seq<string>, stats: map<string, CategoryStats>): int
    requires forall c :: c in cats ==> c in stats
  {
    if cats == [] then 0 else SumLengths(cats[..|cats| - 1], stats) + stats[cats[|cats| - 1]].totalContentLength
  }

  /** One step of the statistics: the last category's entry and totals
      added to those of the categories before it. */
  lemma DocumentStatsStep(cats: seq<string>, documents: map<string, seq<KbDoc>>)
    requires cats != [] && forall c :: c in cats ==> c in documents
    requires DocumentStatsOf(cats, documents).Some?
    ensures forall c :: c in cats[..|cats| - 1] ==> c in cats
    ensures DocumentStatsOf(cats[..|cats| - 1], documents).Some?
    ensures ContentLength(documents[cats[|cats| - 1]]).Some?
    ensures var c := cats[|cats| - 1];
            var count := |documents[c]|;
            var len := ContentLength(documents[c]).value;
            var s0 := DocumentStatsOf(cats[..|cats| - 1], documents).value;
            DocumentStatsOf(cats, documents).value ==
              DocumentStats(s0.totalDocuments + count,
                            s0.categories[c := CategoryEntry(count, len)],
                            s0.totalContentLength + len)
  {
    assert forall c :: c in cats[..|cats| - 1] ==> c in cats;
  }

  /** There is one entry per category. */
  lemma {:induction false} DocumentStatsKeys(cats: seq<string>, documents: map<string, seq<KbDoc>>)
    requires forall c :: c in cats ==> c in documents
    requires DocumentStatsOf(cats, documents).Some?
    ensures forall c :: c in DocumentStatsOf(cats, documents).value.categories <==> c in cats
  {
    if cats != [] {
      DocumentStatsStep(cats, documents);
      DocumentStatsKeys(cats[..|cats| - 1], documents);
      assert cats == cats[..|cats| - 1] + [cats[|cats| - 1]];
    }
  }

  /** Each category's entry holds its document count, its content length,
      and an average that is the length floor-divided by `max(count, 1)`. */
  lemma {:induction false} DocumentStatsEntries(cats: seq<string>, documents: map<string, seq<KbDoc>>)
    requires forall c :: c in cats ==> c in documents
    requires DocumentStatsOf(cats, documents).Some?
    ensures var s := DocumentStatsOf(cats, documents).value;
            forall c :: c in cats ==> (c in s.categories &&
              s.categories[c].documentCount == |documents[c]| &&
              ContentLength(documents[c]) == Some(s.categories[c].totalContentLength) &&
              s.categories[c].averageDocumentLength ==
                s.categories[c].totalContentLength / (if |documents[c]| > 1 then |documents[c]| else 1))
  {
    if cats != [] {
      DocumentStatsStep(cats, documents);
      DocumentStatsEntries(cats[..|cats| - 1], documents);
      assert cats == cats[..|cats| - 1] + [cats[|cats| - 1]];
    }
  }

  /** The totals are the sums of the per-category figures. */
  lemma {:induction false} DocumentStatsTotals(cats: seq<string>, documents: map<string, seq<KbDoc>>)
    requires forall c :: c in cats ==> c in documents
    requires forall i, j :: 0 <= i < j < |cats| ==> cats[i] != cats[j]
    requires DocumentStatsOf(cats, documents).Some?
    ensures var s := DocumentStatsOf(cats, documents).value;
            (forall c :: c in cats ==> c in s.categories) &&
            s.totalDocuments == SumCounts(cats, s.categories) &&
            s.totalContentLength == SumLengths(cats, s.categories)
  {
    DocumentStatsKeys(cats, documents);
    if cats != [] {
      var init := cats[..|cats| - 1];
      var c := cats[|cats| - 1];
      DocumentStatsStep(cats, documents);
      DocumentStatsTotals(init, documents);
      DocumentStatsKeys(init, documents);
      var s0 := DocumentStatsOf(init, documents).value;
      var s := DocumentStatsOf(cats, documents).value;
      assert c !in init;
      SumUnchanged(init, s0.categories, s.categories);
    }
  }

  /** Sums over categories whose entries are unchanged are unchanged. */
  lemma {:induction false} SumUnchanged(cats: seq<string>, a: map<string, CategoryStats>, b: map<string, CategoryStats>)
    requires forall c :: c in cats ==> c in a && c in b && a[c] == b[c]
    ensures SumCounts(cats, a) == SumCounts(cats, b)
    ensures SumLengths(cats, a) == SumLengths(cats, b)
  {
    if cats != [] {
      SumUnchanged(cats[..|cats| - 1], a, b);
    }
  }
}
