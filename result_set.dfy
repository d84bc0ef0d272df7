/**
 * Decoding an Elasticsearch response into result rows, turning each row into a
 * document, and the ResultSet that iterates over those documents.
 */
module ResultSets {
  import opened Wrappers
  import opened PhpArrays
  import opened PhpValues
  import opened Framework
  import opened Documents

  /** `$v->a->b->... ?? null`: a chain of property reads, null as soon as one is missing. */
  function Path(v: Value, names: seq<string>): Value
    decreases |names|
  {
    if names == [] then v else Path(Prop(v, names[0]), names[1..])
  }

  lemma {:induction false} PathFromNull(names: seq<string>)
    ensures Path(Null, names) == Null
    decreases |names|
  {
    if names != [] {
      PathFromNull(names[1..]);
    }
  }

  /** A missing step anywhere on the path makes the whole read null. */
  lemma {:induction false} PathMissingStep(v: Value, names: seq<string>, k: nat)
    requires k < |names| && Path(v, names[..k]).Obj?
    requires names[k] !in KeysOf(Path(v, names[..k]).props)
    ensures Path(v, names) == Null
    decreases k
  {
    if k == 0 {
      assert names[..0] == [];
      PathFromNull(names[1..]);
    } else {
      assert names[1..][..k - 1] == names[..k][1..];
      PathMissingStep(Prop(v, names[0]), names[1..], k - 1);
    }
  }

  // ---- getResults ----------------------------------------------------------

  /** The rows of an `array`-typed result: the values of a PHP array, in order. */
  function RowsOf(v: Value): (r: Result<seq<Value>, Failure>)
  {
    if v.Arr? then Ok(ValuesOf(v.entries)) else Err(NotAnArray)
  }

  /**
   * `getResults()`: a bulk acknowledgement gives its `items`; failing that, a
   * single-document response gives one row, the whole response; failing that, a
   * search response gives `hits.hits`; otherwise there are no rows. Each test is
   * PHP truthiness, so an empty `items` list or an `_id` of `"0"` falls through.
   */
  function Results(response: Value): Result<seq<Value>, Failure>
  {
    var items := Prop(response, "items");
    if Truthy(items) then RowsOf(items)
    else if Truthy(Prop(response, "_id")) then Ok([response])
    else
      var hits := Prop(response, "hits");
      if Truthy(hits) then RowsOf(Prop(hits, "hits")) else Ok([])
  }

  /** Bulk items win whatever else the response carries. */
  lemma BulkItemsFirst(response: Value, items: seq<(Key, Value)>)
    requires Prop(response, "items") == Arr(items) && items != []
    ensures Results(response) == Ok(ValuesOf(items))
    ensures |Results(response).value| == |items|
  {
  }

  /** Without truthy items, a truthy `_id` yields exactly one row: the response itself. */
  lemma SingleDocumentSecond(response: Value)
    requires !Truthy(Prop(response, "items")) && Truthy(Prop(response, "_id"))
    ensures Results(response) == Ok([response]) && response.Obj?
  {
  }

  /** Only when neither bulk nor single-document shape applies are `hits.hits` used. */
  lemma SearchHitsThird(response: Value, hits: seq<(Key, Value)>)
    requires !Truthy(Prop(response, "items")) && !Truthy(Prop(response, "_id"))
    requires Path(response, ["hits", "hits"]) == Arr(hits)
    ensures Results(response) == Ok(ValuesOf(hits))
  {
    assert Path(response, ["hits", "hits"]) == Prop(Prop(response, "hits"), "hits");
  }

  /** A response of none of the three shapes decodes to no rows, never to an error. */
  lemma NoShapeNoRows(response: Value)
    requires !Truthy(Prop(response, "items")) && !Truthy(Prop(response, "_id")) && !Truthy(Prop(response, "hits"))
    ensures Results(response) == Ok([])
  {
  }

  /** Decoding fails only when the selected `items` or `hits.hits` is not an array. */
  lemma ResultsFailure(response: Value)
    ensures Results(response).Err? <==>
      (Truthy(Prop(response, "items")) && !Prop(response, "items").Arr?) ||
      (!Truthy(Prop(response, "items")) && !Truthy(Prop(response, "_id")) &&
       Truthy(Prop(response, "hits")) && !Path(response, ["hits", "hits"]).Arr?)
  {
    assert Path(response, ["hits", "hits"]) == Prop(Prop(response, "hits"), "hits");
  }

  // ---- current(): one row to a document ------------------------------------

  function Metadata(id: Value, score: Value): seq<(Key, Value)>
  {
    [(Name("id"), id), (Name("score"), score)]
  }

  /**
   * The field map `current()` builds for a row: `id`/`score` start null; a row
   * with a truthy `_source` takes its `_id` and `_score` and then `+=` the source;
   * otherwise a row with a truthy `index` (a bulk item) takes `index._id`.
   */
  function RowData(row: Value): seq<(Key, Value)>
  {
    if Truthy(Prop(row, "_source")) then
      Union(Metadata(Prop(row, "_id"), Prop(row, "_score")), ToArray(Prop(row, "_source")))
    else if Truthy(Prop(row, "index")) then
      Metadata(Path(row, ["index", "_id"]), Null)
    else
      Metadata(Null, Null)
  }

  /** The errors `current()` attaches: a bulk item's truthy `index.error`, alone. */
  function RowErrors(row: Value): seq<Value>
  {
    if !Truthy(Prop(row, "_source")) && Truthy(Prop(row, "index")) && Truthy(Path(row, ["index", "error"])) then
      [Path(row, ["index", "error"])]
    else
      []
  }

  /**
   * For a search or single-document row, the hit metadata wins over the source:
   * `id` and `score` are the row's `_id` and `_score` even when `_source` has keys
   * of those names, and every other key reads as it does in `_source`.
   */
  lemma {:induction false} SourceNeverOverridesMetadata(row: Value, k: Key)
    requires Truthy(Prop(row, "_source"))
    ensures Lookup(RowData(row), Name("id")) == Some(Prop(row, "_id"))
    ensures Lookup(RowData(row), Name("score")) == Some(Prop(row, "_score"))
    ensures k != Name("id") && k != Name("score") ==>
      Lookup(RowData(row), k) == Lookup(ToArray(Prop(row, "_source")), k)
  {
    var meta := Metadata(Prop(row, "_id"), Prop(row, "_score"));
    var source := ToArray(Prop(row, "_source"));
    assert KeysOf(meta) == [Name("id"), Name("score")];
    LookupUnion(meta, source, Name("id"));
    LookupUnion(meta, source, Name("score"));
    LookupUnion(meta, source, k);
  }

  /** Every document's field map starts with `id` then `score`, and has no repeated key. */
  lemma {:induction false} RowDataShape(row: Value)
    ensures |RowData(row)| >= 2
    ensures KeysOf(RowData(row))[..2] == [Name("id"), Name("score")]
    ensures Distinct(RowData(row))
  {
    var meta := Metadata(Prop(row, "_id"), Prop(row, "_score"));
    if Truthy(Prop(row, "_source")) {
      UnionKeepsLeft(meta, ToArray(Prop(row, "_source")));
      UnionDistinct(meta, ToArray(Prop(row, "_source")));
      assert RowData(row)[..2] == meta;
      assert KeysOf(RowData(row))[..2] == KeysOf(RowData(row)[..2]);
    } else {
      assert KeysOf(RowData(row)) == [Name("id"), Name("score")];
    }
  }

  /** A bulk item gives `{id: index._id, score: null}`, with its error listed only when truthy. */
  lemma BulkRowDocument(row: Value)
    requires !Truthy(Prop(row, "_source")) && Truthy(Prop(row, "index"))
    ensures RowData(row) == [(Name("id"), Path(row, ["index", "_id"])), (Name("score"), Null)]
    ensures RowErrors(row) == if Truthy(Path(row, ["index", "error"])) then [Path(row, ["index", "error"])] else []
  {
  }

  /** A row with neither `_source` nor `index` gives `{id: null, score: null}` and no errors. */
  lemma BareRowDocument(row: Value)
    requires !Truthy(Prop(row, "_source")) && !Truthy(Prop(row, "index"))
    ensures RowData(row) == [(Name("id"), Null), (Name("score"), Null)] && RowErrors(row) == []
  {
  }

  /** The options every document is built with. */
  function RowOptions(indexName: string): (o: DocumentOptions)
    ensures AssignsRaw(o) && o.source == Some(indexName)
  {
    DocumentOptions(Some(false), Some(true), None, Some(indexName))
  }

  // ---- document class resolution --------------------------------------------

  /** `if (!$this->documentClass)`: a memo of null, `""` or `"0"` counts as unset. */
  predicate MemoSet(c: Option<string>)
  {
    c.Some? && Truthy(Str(c.value))
  }

  /**
   * The document class for an index: its singular, classified name looked up
   * under `Model/Document`, or the generic document class when that lookup
   * gives nothing, a falsy name, or a class that does not exist.
   */
  function ResolveDocumentClass(env: Env, indexName: string): (c: string)
    ensures MemoSet(Some(c))
    ensures c == DocumentClass ||
      (env.appClassName(env.classify(env.singularize(indexName)), "Model/Document", "") == Some(c) && env.classExists(c))
    ensures var f := env.appClassName(env.classify(env.singularize(indexName)), "Model/Document", "");
      f.Some? && Truthy(Str(f.value)) && env.classExists(f.value) ==> c == f.value
  {
    var found := env.appClassName(env.classify(env.singularize(indexName)), "Model/Document", "");
    if found.None? || !Truthy(Str(found.value)) || !env.classExists(found.value) then DocumentClass
    else found.value
  }

  // ---- envelope accessors ---------------------------------------------------

  /** `getTook()`. */
  function Took(response: Value): (v: Value)
    ensures v != Null ==> response.Obj? && Lookup(response.props, "took") == Some(v)
    ensures !response.Obj? || "took" !in KeysOf(response.props) ==> v == Null
  {
    Path(response, ["took"])
  }

  /** `getMaxScore()`. */
  function MaxScore(response: Value): (v: Value)
    ensures v != Null ==> response.Obj? && "hits" in KeysOf(response.props)
  {
    Path(response, ["hits", "max_score"])
  }

  /** `getShards()`. */
  function Shards(response: Value): (v: Value)
    ensures v != Null ==> response.Obj? && Lookup(response.props, "_shards") == Some(v)
  {
    Prop(response, "_shards")
  }

  /** `getHitsTotal()`. */
  function HitsTotal(response: Value): (v: Value)
    ensures v != Null ==> response.Obj? && "hits" in KeysOf(response.props)
  {
    Path(response, ["hits", "total", "value"])
  }

  /** `hasErrors()`: the response's `errors` flag, false when absent. */
  function HasErrors(response: Value): (v: Value)
    ensures Prop(response, "errors") == Null ==> v == Bool(false)
    ensures Prop(response, "errors") != Null ==> v == Prop(response, "errors")
  {
    var flag := Prop(response, "errors");
    if flag == Null then Bool(false) else flag
  }

  /**
   * `array_walk_recursive` with the callback of `getAggregations()`, from entry
   * `i` on: nested arrays are walked, and an object leaf is cast to an array
   * (one level: objects inside it stay objects).
   */
  function WalkFrom(entries: seq<(Key, Value)>, i: nat): seq<(Key, Value)>
    requires i <= |entries|
    decreases Arr(entries), |entries| - i
  {
    if i == |entries| then []
    else
      var v := entries[i].1;
      assert entries[i] in entries;
      var v' := match v
        case Arr(inner) => Arr(WalkFrom(inner, 0))
        case Obj(_) => Arr(ToArray(v))
        case _ => v;
      [(entries[i].0, v')] + WalkFrom(entries, i + 1)
  }

  /** `hasErrors()` never reads null, and reports errors exactly when the response's flag is truthy. */
  lemma ErrorsFlag(response: Value)
    ensures HasErrors(response) != Null
    ensures Truthy(HasErrors(response)) <==> Truthy(Prop(response, "errors"))
    ensures !response.Obj? || "errors" !in KeysOf(response.props) ==> HasErrors(response) == Bool(false)
  {
  }

  /** `getAggregations()`. */
  function Aggregations(response: Value): seq<(Key, Value)>
  {
    WalkFrom(ToArray(Prop(response, "aggregations")), 0)
  }

  /** The walk keeps every key, in order; it only rewrites leaf values. */
  lemma {:induction false} WalkKeepsKeys(entries: seq<(Key, Value)>, i: nat)
    requires i <= |entries|
    ensures KeysOf(WalkFrom(entries, i)) == KeysOf(entries[i..])
    decreases |entries| - i
  {
    if i < |entries| {
      WalkKeepsKeys(entries, i + 1);
      assert KeysOf(entries[i..]) == [entries[i].0] + KeysOf(entries[i + 1..]);
    }
  }

  /** The accessors read absent envelope fields as null, `false` or an empty array. */
  lemma {:induction false} AbsentEnvelope(response: Value)
    requires response.Obj?
    ensures "took" !in KeysOf(response.props) ==> Took(response) == Null
    ensures "hits" !in KeysOf(response.props) ==> MaxScore(response) == Null && HitsTotal(response) == Null
    ensures "_shards" !in KeysOf(response.props) ==> Shards(response) == Null
    ensures "aggregations" !in KeysOf(response.props) ==> Aggregations(response) == []
  {
    if "hits" !in KeysOf(response.props) {
      assert ["hits", "max_score"][..0] == [];
      PathMissingStep(response, ["hits", "max_score"], 0);
      assert ["hits", "total", "value"][..0] == [];
      PathMissingStep(response, ["hits", "total", "value"], 0);
    }
  }

  // ---- the ResultSet --------------------------------------------------------

  /** The fields and errors `current()` gives each row of `rs`, in order. */
  function Expectations(rs: seq<Value>): (r: seq<(seq<(Key, Value)>, seq<Value>)>)
    ensures |r| == |rs|
    decreases |rs|
  {
    if rs == [] then [] else Expectations(rs[..|rs| - 1]) + [(RowData(rs[|rs| - 1]), RowErrors(rs[|rs| - 1]))]
  }

  /** Row `i`'s entry is exactly the fields and errors built from row `i`. */
  lemma {:induction false} ExpectationsEach(rs: seq<Value>)
    ensures forall i :: 0 <= i < |rs| ==> Expectations(rs)[i] == (RowData(rs[i]), RowErrors(rs[i]))
    decreases |rs|
  {
    if rs != [] {
      ExpectationsEach(rs[..|rs| - 1]);
    }
  }

  lemma ExpectationAt(rs: seq<Value>, k: nat)
    requires k < |rs|
    ensures Expectations(rs)[k] == (RowData(rs[k]), RowErrors(rs[k]))
  {
    ExpectationsEach(rs);
  }

  class ResultSet {
    const response: Value
    const indexName: string
    /** The decoded rows, computed once by the constructor (`new ArrayIterator($this->getResults())`). */
    const rows: seq<Value>
    /** The inner `ArrayIterator`'s cursor. */
    var position: nat
    /**
     * Whether the `IteratorIterator` has fetched an element from its inner
     * iterator: nothing is fetched until the first `rewind()` or `next()`.
     */
    var fetched: bool
    var documentClass: Option<string>

    constructor (response: Value, indexName: string)
      requires Results(response).Ok?
      ensures this.response == response && this.indexName == indexName
      ensures rows == Results(response).value
      ensures position == 0 && !fetched && documentClass == None
      ensures !HasCurrent() && Row() == Null
    {
      this.response := response;
      this.indexName := indexName;
      rows := Results(response).value;
      position := 0;
      fetched := false;
      documentClass := None;
    }

    function Count(): (n: nat)
    {
      |rows|
    }

    /** `valid()`: a row has been fetched and the cursor is on it. */
    function HasCurrent(): bool
      reads this
    {
      fetched && position < |rows|
    }

    /** `parent::current()`: the fetched row; null before the first fetch and past the end. */
    function Row(): Value
      reads this
    {
      if fetched && position < |rows| then rows[position] else Null
    }

    method Rewind()
      modifies this`position, this`fetched
      ensures position == 0 && fetched
    {
      position := 0;
      fetched := true;
    }

    method Next()
      modifies this`position, this`fetched
      ensures position == old(position) + 1 && fetched
    {
      position := position + 1;
      fetched := true;
    }

    method SetDocumentClass(className: string)
      modifies this`documentClass
      ensures documentClass == Some(className)
    {
      documentClass := Some(className);
    }

    /** `getDocumentClass()`: resolves at most once, unless the memo holds a falsy name. */
    method GetDocumentClass(env: Env) returns (c: string)
      modifies this`documentClass
      ensures MemoSet(old(documentClass)) ==> documentClass == old(documentClass)
      ensures !MemoSet(old(documentClass)) ==> documentClass == Some(ResolveDocumentClass(env, indexName))
      ensures documentClass == Some(c) && MemoSet(documentClass)
    {
      if !MemoSet(documentClass) {
        documentClass := Some(ResolveDocumentClass(env, indexName));
      }
      c := documentClass.value;
    }

    /** `current()`: the document for the row under the cursor. */
    method Current(env: Env) returns (d: Document)
      modifies this`documentClass
      ensures fresh(d)
      ensures MemoSet(old(documentClass)) ==> documentClass == old(documentClass)
      ensures !MemoSet(old(documentClass)) ==> documentClass == Some(ResolveDocumentClass(env, indexName))
      ensures documentClass == Some(d.className) && MemoSet(documentClass)
      ensures BuiltFrom(d, Row()) && d.originalFields == KeysOf(d.fields)
      ensures d.documentId == Null && d.score == Null
    {
      var row := Row();
      var className := GetDocumentClass(env);
      var errors := RowErrors(row);
      RowDataShape(row);
      d := new Document(className, RowData(row), RowOptions(indexName));
      if errors != [] {
        d.SetErrors(errors);
      }
    }

    /** `first()`: rewinds and materialises the first row's document, or null when there are no rows. */
    method First(env: Env) returns (d: Document?)
      modifies this`position, this`fetched, this`documentClass
      ensures position == 0 && fetched
      ensures rows == [] ==> d == null
      ensures rows != [] ==> (d != null && fresh(d) && d.fields == RowData(rows[0]) &&
        d.errors == RowErrors(rows[0]) && d.source == Some(indexName) && documentClass == Some(d.className) &&
        d.documentId == Null && d.score == Null)
    {
      Rewind();
      if HasCurrent() {
        d := Current(env);
      } else {
        d := null;
      }
    }

    /** `d` is the document `current()` builds for `row` in this result set. */
    predicate BuiltFrom(d: Document, row: Value)
      reads d
    {
      d.fields == RowData(row) && d.errors == RowErrors(row) && d.source == Some(indexName)
    }

    /**
     * After `foreach` has yielded `docs`: the cursor is past them, each is the
     * document `current()` builds for its row, and the class memo is their class.
     */
    predicate Iterated(docs: seq<Document>)
      reads this, docs
    {
      fetched && position == |docs| <= |rows| &&
      (forall i :: 0 <= i < |docs| ==>
        docs[i].source == Some(indexName) && (docs[i].fields, docs[i].errors) == Expectations(rows)[i]) &&
      (docs != [] ==> MemoSet(documentClass)) &&
      (forall i :: 0 <= i < |docs| ==> documentClass == Some(docs[i].className))
    }

    /** One round of `foreach`: `current()` on the next row, then `next()`. */
    method Step(env: Env, ghost docs: seq<Document>) returns (d: Document)
      requires Iterated(docs) && position < |rows|
      modifies this`position, this`fetched, this`documentClass
      ensures fresh(d) && Iterated(docs + [d])
    {
      d := CurrentAt(env, |docs|);
      Next();
      assert forall i :: 0 <= i < |docs| ==> (docs + [d])[i] == docs[i];
    }

    /** `current()` on row `k`, stated against the expected fields and errors of that row. */
    method CurrentAt(env: Env, ghost k: nat) returns (d: Document)
      requires fetched && position == k < |rows|
      modifies this`documentClass
      ensures fresh(d) && d.source == Some(indexName) && (d.fields, d.errors) == Expectations(rows)[k]
      ensures MemoSet(old(documentClass)) ==> documentClass == old(documentClass)
      ensures documentClass == Some(d.className) && MemoSet(documentClass)
    {
      assert Row() == rows[k];
      d := Current(env);
      ExpectationAt(rows, k);
    }

    /** `foreach ($resultSet as $document)`: one fresh document per row, in row order. */
    method Documents(env: Env) returns (docs: seq<Document>)
      modifies this`position, this`fetched, this`documentClass
      ensures |docs| == Count() && position == |rows|
      ensures forall i :: 0 <= i < |docs| ==> fresh(docs[i]) && docs[i].source == Some(indexName)
      ensures forall i :: 0 <= i < |docs| ==> (docs[i].fields, docs[i].errors) == Expectations(rows)[i]
      ensures forall i :: 0 <= i < |docs| ==> documentClass == Some(docs[i].className)
    {
      Rewind();
      docs := [];
      while HasCurrent()
        invariant Iterated(docs)
        invariant forall i :: 0 <= i < |docs| ==> fresh(docs[i])
        decreases |rows| - position
      {
        var d := Step(env, docs);
        docs := docs + [d];
      }
    }
  }

  /** `new ResultSet($response, $indexName)`, with the TypeError a non-array result raises. */
  method Open(response: Value, indexName: string) returns (r: Result<ResultSet, Failure>)
    ensures Results(response).Err? ==> r == Err(Results(response).error)
    ensures Results(response).Ok? ==> (r.Ok? && fresh(r.value) &&
      r.value.response == response && r.value.indexName == indexName &&
      r.value.rows == Results(response).value && r.value.position == 0 && !r.value.fetched &&
      r.value.documentClass == None)
  {
    if Results(response).Err? {
      return Err(Results(response).error);
    }
    var rs := new ResultSet(response, indexName);
    r := Ok(rs);
  }
}
