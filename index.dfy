/**
 * The index handle: its configuration, its memoised index name, the request
 * payloads of the index lifecycle calls, and the ResultSet it wraps responses in.
 */
module Indices {
  import opened Wrappers
  import opened PhpArrays
  import opened PhpValues
  import opened Framework
  import opened Documents
  import opened ResultSets

  /** The instance configuration (`InstanceConfigTrait`), a string-keyed PHP array. */
  type Config = seq<(string, Value)>

  const DefaultConfig: Config := [("connection_name", Null), ("settings", Arr([])), ("mappings", Arr([]))]

  /** `getConfig($key, $default)`: the stored value, or `default` when it is missing or null. */
  function ConfigRead(config: Config, key: string, default: Value): (v: Value)
    ensures key in KeysOf(config) && Lookup(config, key).value != Null ==> v == Lookup(config, key).value
    ensures key !in KeysOf(config) || Lookup(config, key).value == Null ==> v == default
  {
    match Lookup(config, key)
    case Some(v) => if v == Null then default else v
    case None => default
  }

  /** The connection name the constructor asks `ConnectionManager` for. */
  function ConnectionName(config: Config): Value
  {
    ConfigRead(config, "connection_name", Str(DefaultConnectionName))
  }

  /** The constructor's connection check: the named connection must be an ElasticKit one. */
  function ConnectionCheck(env: Env, config: Config): (r: Result<string, Failure>)
    ensures r.Ok? <==> ConnectionName(config).Str? && env.datasources(ConnectionName(config).s) == ElasticKitConnection
    ensures r.Ok? ==> ConnectionName(config) == Str(r.value)
  {
    match ConnectionName(config)
    case Str(name) =>
      (match env.datasources(name)
       case Unconfigured => Err(MissingDatasource(name))
       case OtherConnection => Err(ConnectionMisconfigured)
       case ElasticKitConnection => Ok(name))
    case _ => Err(WrongArgumentType)
  }

  /** With no `connection_name` given, the handle connects to `elasticsearch`. */
  lemma {:induction false} DefaultConnection(given: Config)
    requires Distinct(given) && "connection_name" !in KeysOf(given)
    ensures ConnectionName(Merge(DefaultConfig, given)) == Str(DefaultConnectionName)
  {
    LookupMerge(DefaultConfig, given, "connection_name");
  }

  // ---- index name -----------------------------------------------------------

  /** `substr($s, 0, -5)`: all but the last five characters; empty when there are no more than five. */
  function DropLastFive(s: string): (r: string)
    ensures |s| > 5 ==> s == r + s[|s| - 5..]
    ensures |s| <= 5 ==> r == ""
  {
    if |s| > 5 then s[..|s| - 5] else ""
  }

  /** A short class name `XIndex` yields `X`. */
  lemma DropIndexSuffix(x: string)
    requires x != ""
    ensures DropLastFive(x + "Index") == x
  {
    assert (x + "Index")[..|x|] == x;
  }

  /** The index name derived from the class: the short class name minus its suffix, underscored. */
  function DerivedIndexName(env: Env, className: string): (r: Result<string, Failure>)
    ensures r.Err? <==> DropLastFive(env.namespaceSplit(className).1) in {"", "0"}
    ensures r.Err? ==> r.error == IndexNameUnresolvable
  {
    var base := DropLastFive(env.namespaceSplit(className).1);
    if base == "" || base == "0" then Err(IndexNameUnresolvable) else Ok(env.underscore(base))
  }

  /** What `getIndexName()` returns given the memo: an explicit or memoised name wins. */
  function IndexNameOutcome(env: Env, className: string, memo: Option<string>): (r: Result<string, Failure>)
    ensures memo.Some? ==> r == Ok(memo.value)
    ensures r.Err? ==> memo.None? && r == Err(IndexNameUnresolvable)
  {
    if memo.Some? then Ok(memo.value) else DerivedIndexName(env, className)
  }

  /** `TestItemsIndex` is named `test_items`, given the inflection the framework performs. */
  lemma TestItemsIndexName(env: Env, className: string)
    requires env.namespaceSplit(className).1 == "TestItemsIndex"
    requires env.underscore("TestItems") == "test_items"
    ensures DerivedIndexName(env, className) == Ok("test_items")
  {
    DropIndexSuffix("TestItems");
    assert "TestItems" + "Index" == "TestItemsIndex";
  }

  /** A class named just `Index`, or `0Index`, has no derivable name. */
  lemma BareSuffixUnresolvable(env: Env, className: string)
    requires env.namespaceSplit(className).1 in {"Index", "0Index"}
    ensures DerivedIndexName(env, className) == Err(IndexNameUnresolvable)
  {
    var short := env.namespaceSplit(className).1;
    if short == "Index" {
      assert DropLastFive(short) == "";
    } else {
      assert DropLastFive(short) == "0" by {
        assert short == "0Index" && |short| == 6;
        assert short[..1] == "0";
      }
    }
  }

  // ---- requests -------------------------------------------------------------

  datatype Endpoint =
    | IndicesCreate       // indices()->create
    | IndicesPutMapping   // indices()->putMapping
    | IndicesDelete       // indices()->delete
    | IndicesExists       // indices()->exists
    | IndicesGetSettings  // indices()->getSettings
    | IndicesGetMapping   // indices()->getMapping
    | GetDocument         // get

  /** A call on the client: the endpoint and its parameter array. */
  datatype Request = Request(endpoint: Endpoint, params: seq<(Key, Value)>)

  function CreateIndexRequest(name: string, config: Config): Request
  {
    Request(IndicesCreate, [
      (Name("index"), Str(name)),
      (Name("body"), Arr([
        (Name("settings"), ConfigRead(config, "settings", Arr([]))),
        (Name("mappings"), ConfigRead(config, "mappings", Arr([])))]))])
  }

  function UpdateIndexRequest(name: string, config: Config): Request
  {
    Request(IndicesPutMapping, [(Name("index"), Str(name)), (Name("body"), ConfigRead(config, "mappings", Arr([])))])
  }

  function DeleteIndexRequest(name: string): Request
  {
    Request(IndicesDelete, [(Name("index"), Str(name))])
  }

  function IndexExistsRequest(name: string): Request
  {
    Request(IndicesExists, [(Name("index"), Str(name))])
  }

  function GetDocumentRequest(name: string, documentId: Value): Request
  {
    Request(GetDocument, [(Name("index"), Str(name)), (Name("id"), documentId)])
  }

  /** Settings and mappings written by `setSettings`/`setMappings` are what `createIndex` sends. */
  lemma {:induction false} ConfigReachesCreateRequest(config: Config, name: string, settings: seq<(Key, Value)>, mappings: seq<(Key, Value)>)
    ensures var c := Assign(Assign(config, "settings", Arr(settings)), "mappings", Arr(mappings));
      CreateIndexRequest(name, c).params ==
        [(Name("index"), Str(name)), (Name("body"), Arr([(Name("settings"), Arr(settings)), (Name("mappings"), Arr(mappings))]))]
    ensures UpdateIndexRequest(name, Assign(config, "mappings", Arr(mappings))).params ==
      [(Name("index"), Str(name)), (Name("body"), Arr(mappings))]
  {
    var c1 := Assign(config, "settings", Arr(settings));
    var c := Assign(c1, "mappings", Arr(mappings));
    LookupAssign(config, "settings", Arr(settings), "settings");
    LookupAssign(c1, "mappings", Arr(mappings), "settings");
    LookupAssign(c1, "mappings", Arr(mappings), "mappings");
    LookupAssign(config, "mappings", Arr(mappings), "mappings");
  }

  // ---- the handle -----------------------------------------------------------

  class Index {
    /** `static::class`. */
    const className: string
    /** Name of the ElasticKit connection the handle holds. */
    const connection: string
    var config: Config
    var indexName: Option<string>

    constructor (env: Env, className: string, given: Config)
      requires Distinct(given)
      requires ConnectionCheck(env, Merge(DefaultConfig, given)).Ok?
      ensures this.className == className
      ensures config == Merge(DefaultConfig, given)
      ensures connection == ConnectionCheck(env, config).value
      ensures indexName == None
    {
      this.className := className;
      config := Merge(DefaultConfig, given);
      connection := ConnectionCheck(env, Merge(DefaultConfig, given)).value;
      indexName := None;
    }

    method SetIndexName(name: string) returns (self: Index)
      modifies this`indexName
      ensures self == this && indexName == Some(name)
    {
      indexName := Some(name);
      self := this;
    }

    /** `getIndexName()`: the explicit or memoised name, else the derived one, memoised on success. */
    method GetIndexName(env: Env) returns (r: Result<string, Failure>)
      modifies this`indexName
      ensures r == IndexNameOutcome(env, className, old(indexName))
      ensures indexName == if r.Ok? then Some(r.value) else old(indexName)
    {
      if indexName == None {
        var derived := DerivedIndexName(env, className);
        if derived.Err? {
          return derived;
        }
        indexName := Some(derived.value);
      }
      r := Ok(indexName.value);
    }

    method SetSettings(settings: seq<(Key, Value)>) returns (self: Index)
      modifies this`config
      ensures self == this && config == Assign(old(config), "settings", Arr(settings))
    {
      config := Assign(config, "settings", Arr(settings));
      self := this;
    }

    method SetMappings(mappings: seq<(Key, Value)>) returns (self: Index)
      modifies this`config
      ensures self == this && config == Assign(old(config), "mappings", Arr(mappings))
    {
      config := Assign(config, "mappings", Arr(mappings));
      self := this;
    }

    /** `createIndex()`: the request it sends (the transport's answer is not modelled). */
    method CreateIndex(env: Env) returns (r: Result<Request, Failure>)
      modifies this`indexName
      ensures var n := IndexNameOutcome(env, className, old(indexName));
        r == if n.Ok? then Ok(CreateIndexRequest(n.value, config)) else Err(n.error)
      ensures indexName == if r.Ok? then Some(IndexNameOutcome(env, className, old(indexName)).value) else old(indexName)
    {
      var name := GetIndexName(env);
      if name.Err? {
        return Err(name.error);
      }
      r := Ok(CreateIndexRequest(name.value, config));
    }

    method UpdateIndex(env: Env) returns (r: Result<Request, Failure>)
      modifies this`indexName
      ensures var n := IndexNameOutcome(env, className, old(indexName));
        r == if n.Ok? then Ok(UpdateIndexRequest(n.value, config)) else Err(n.error)
      ensures indexName == if r.Ok? then Some(IndexNameOutcome(env, className, old(indexName)).value) else old(indexName)
    {
      var name := GetIndexName(env);
      if name.Err? {
        return Err(name.error);
      }
      r := Ok(UpdateIndexRequest(name.value, config));
    }

    method DeleteIndex(env: Env) returns (r: Result<Request, Failure>)
      modifies this`indexName
      ensures var n := IndexNameOutcome(env, className, old(indexName));
        r == if n.Ok? then Ok(DeleteIndexRequest(n.value)) else Err(n.error)
      ensures indexName == if r.Ok? then Some(IndexNameOutcome(env, className, old(indexName)).value) else old(indexName)
    {
      var name := GetIndexName(env);
      if name.Err? {
        return Err(name.error);
      }
      r := Ok(DeleteIndexRequest(name.value));
    }

    method IndexExists(env: Env) returns (r: Result<Request, Failure>)
      modifies this`indexName
      ensures var n := IndexNameOutcome(env, className, old(indexName));
        r == if n.Ok? then Ok(IndexExistsRequest(n.value)) else Err(n.error)
      ensures indexName == if r.Ok? then Some(IndexNameOutcome(env, className, old(indexName)).value) else old(indexName)
    {
      var name := GetIndexName(env);
      if name.Err? {
        return Err(name.error);
      }
      r := Ok(IndexExistsRequest(name.value));
    }

    /** `resultSet($response)`: the response wrapped together with the index name. */
    method ResultSetFor(env: Env, response: Value) returns (r: Result<ResultSet, Failure>)
      modifies this`indexName
      ensures var n := IndexNameOutcome(env, className, old(indexName));
        && (n.Err? ==> r == Err(n.error))
        && (n.Ok? && Results(response).Err? ==> r == Err(Results(response).error))
        && (n.Ok? && Results(response).Ok? ==>
              r.Ok? && fresh(r.value) && r.value.response == response && r.value.indexName == n.value &&
              r.value.rows == Results(response).value && !r.value.fetched && r.value.documentClass == None)
      ensures indexName == (var n := IndexNameOutcome(env, className, old(indexName)); if n.Ok? then Some(n.value) else old(indexName))
    {
      var name := GetIndexName(env);
      if name.Err? {
        return Err(name.error);
      }
      r := Open(response, name.value);
    }

    /**
     * `get($documentId)`: the request sent and the first document of the
     * `response` the client returns for it, or null when it has none.
     */
    method Get(env: Env, documentId: Value, response: Value) returns (request: Result<Request, Failure>, d: Result<Document?, Failure>)
      modifies this`indexName
      ensures var n := IndexNameOutcome(env, className, old(indexName));
        && (n.Err? ==> request == Err(n.error) && d == Err(n.error))
        && (n.Ok? ==> request == Ok(GetDocumentRequest(n.value, documentId)))
        && (n.Ok? && Results(response).Err? ==> d == Err(Results(response).error))
        && (n.Ok? && Results(response).Ok? ==>
              var rows := Results(response).value;
              d.Ok? && (rows == [] <==> d.value == null) &&
              (rows != [] ==>
                 fresh(d.value) && d.value.fields == RowData(rows[0]) && d.value.errors == RowErrors(rows[0]) &&
                 d.value.source == Some(n.value) && d.value.documentId == Null && d.value.score == Null))
      ensures indexName == (var n := IndexNameOutcome(env, className, old(indexName)); if n.Ok? then Some(n.value) else old(indexName))
    {
      var name := GetIndexName(env);
      if name.Err? {
        return Err(name.error), Err(name.error);
      }
      request := Ok(GetDocumentRequest(name.value, documentId));
      var rs := Open(response, name.value);
      if rs.Err? {
        return request, Err(rs.error);
      }
      var first := rs.value.First(env);
      d := Ok(first);
    }
  }

  /** `new $class($config)`: the handle, or the exception its connection check raises. */
  method NewIndex(env: Env, className: string, given: Config) returns (r: Result<Index, Failure>)
    requires Distinct(given)
    ensures var check := ConnectionCheck(env, Merge(DefaultConfig, given));
      && (check.Err? ==> r == Err(check.error))
      && (check.Ok? ==>
            r.Ok? && fresh(r.value) && r.value.className == className &&
            r.value.config == Merge(DefaultConfig, given) && r.value.connection == check.value &&
            r.value.indexName == None)
  {
    var check := ConnectionCheck(env, Merge(DefaultConfig, given));
    if check.Err? {
      return Err(check.error);
    }
    var index := new Index(env, className, given);
    r := Ok(index);
  }
}
