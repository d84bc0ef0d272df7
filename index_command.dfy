/**
 * The `elasticsearch index <name>` console command: resolves the index class
 * from its argument, fetches the handle through the registry, and creates,
 * updates, deletes or inspects the index.
 */
module Commands {
  import opened Wrappers
  import opened PhpValues
  import opened Framework
  import opened Indices
  import opened Locators

  const CodeSuccess: int := 0
  const CodeError: int := 1

  /** The boolean options `--delete`, `--update`, `--create` and the framework's `--verbose`. */
  datatype Flags = Flags(delete: bool, update: bool, create: bool, verbose: bool)

  /** What the command does, in order: lines on the console and calls on the client. */
  datatype Action =
    | ErrorLine(text: string)
    | SuccessLine(text: string)
    | WarningLine(text: string)
    | OutLine(text: string)
    | Rule                        // $io->hr()
    | PrintResponse(of: Endpoint) // print_r of a response body, which the model does not hold
    | Send(request: Request)

  // ---- the class name -------------------------------------------------------

  /** `strpos($s, '.')`: the position of the first dot, if any. */
  function FirstDot(s: string): (r: Option<nat>)
    ensures r.None? <==> '.' !in s
    ensures r.Some? ==> r.value < |s| && s[r.value] == '.' && '.' !in s[..r.value]
  {
    if s == [] then None
    else if s[0] == '.' then Some(0)
    else
      match FirstDot(s[1..])
      case None => None
      case Some(p) =>
        assert s[..p + 1] == [s[0]] + s[1..][..p];
        Some(p + 1)
  }

  /** `strpos($name, '.')` is truthy: a dot that is not the first character. */
  predicate HasPluginPrefix(name: string)
  {
    var dot := FirstDot(name);
    dot.Some? && dot.value > 0
  }

  /** `indexClassName`: the fully qualified class of the named index, in the application or in a plugin. */
  function IndexClassName(env: Env, name: string): string
  {
    var base := if HasPluginPrefix(name) then env.pluginSplit(name).0.GetOr("") else env.appNamespace;
    var short := if HasPluginPrefix(name) then env.pluginSplit(name).1 else name;
    base + "\\Model\\Index\\" + env.camelize(short) + "Index"
  }

  /** A name with no dot, or whose only dots come after a leading one, stays in the application namespace. */
  lemma {:induction false} AppIndexClassName(env: Env, name: string)
    requires '.' !in name || name[0] == '.'
    ensures IndexClassName(env, name) == env.appNamespace + "\\Model\\Index\\" + env.camelize(name) + "Index"
  {
    if name != [] && name[0] == '.' {
      assert FirstDot(name) == Some(0);
    }
  }

  /** `strpos` finds a dot with none before it. */
  lemma {:induction false} FirstDotAt(s: string, i: nat)
    requires i < |s| && s[i] == '.' && '.' !in s[..i]
    ensures FirstDot(s) == Some(i)
  {
    if i > 0 {
      assert s[0] == s[..i][0];
      assert s[1..][..i - 1] == s[..i][1..];
      FirstDotAt(s[1..], i - 1);
    }
  }

  /** A dot after the first character selects the plugin before it. */
  lemma PluginIndexClassName(env: Env, name: string, i: nat)
    requires 0 < i < |name| && name[i] == '.' && '.' !in name[..i]
    ensures IndexClassName(env, name) ==
      env.pluginSplit(name).0.GetOr("") + "\\Model\\Index\\" + env.camelize(env.pluginSplit(name).1) + "Index"
  {
    FirstDotAt(name, i);
  }

  /** `elasticsearch index invalid_index` looks for `TestApp\Model\Index\InvalidIndexIndex`. */
  lemma ApplicationLookup(env: Env)
    requires env.appNamespace == "TestApp" && env.camelize("invalid_index") == "InvalidIndex"
    ensures IndexClassName(env, "invalid_index") == "TestApp\\Model\\Index\\InvalidIndexIndex"
  {
    var name := "invalid_index";
    assert !HasPluginPrefix(name) by {
      assert '.' !in name;
    }
    assert IndexClassName(env, name) == env.appNamespace + "\\Model\\Index\\" + env.camelize(name) + "Index";
    AppClassSpelling(env.appNamespace, env.camelize(name));
  }

  /** The class `indexClassName` spells for the application example, kept apart so the concatenation is checked on its own. */
  lemma AppClassSpelling(base: string, short: string)
    requires base == "TestApp" && short == "InvalidIndex"
    ensures base + "\\Model\\Index\\" + short + "Index" == "TestApp\\Model\\Index\\InvalidIndexIndex"
  {
  }

  /** `elasticsearch index MyPlugin.invalid_index` looks for `MyPlugin\Model\Index\InvalidIndexIndex`. */
  lemma PluginLookup(env: Env)
    requires env.pluginSplit("MyPlugin.invalid_index") == (Some("MyPlugin"), "invalid_index")
    requires env.camelize("invalid_index") == "InvalidIndex"
    ensures IndexClassName(env, "MyPlugin.invalid_index") == "MyPlugin\\Model\\Index\\InvalidIndexIndex"
  {
    var name := "MyPlugin.invalid_index";
    assert HasPluginPrefix(name) by {
      assert name[..8] == "MyPlugin";
      FirstDotAt(name, 8);
    }
    var base, short := env.pluginSplit(name).0.GetOr(""), env.pluginSplit(name).1;
    assert IndexClassName(env, name) == base + "\\Model\\Index\\" + env.camelize(short) + "Index";
    PluginClassSpelling(base, env.camelize(short));
  }

  /** The class `indexClassName` spells for the plugin example, kept apart so the concatenation is checked on its own. */
  lemma PluginClassSpelling(base: string, short: string)
    requires base == "MyPlugin" && short == "InvalidIndex"
    ensures base + "\\Model\\Index\\" + short + "Index" == "MyPlugin\\Model\\Index\\InvalidIndexIndex"
  {
  }

  // ---- what execute does ----------------------------------------------------

  /** What the command sees of the fetched handle: its name (or why it has none) and its configuration. */
  datatype Handle = Handle(name: Result<string, Failure>, config: Config)

  /** The `getSettings`/`getMapping` calls of the verbose listing. */
  function InspectRequest(endpoint: Endpoint, name: string): Request
  {
    Request(endpoint, [(Name("index"), Str(name)), (Name("ignore_unavailable"), Bool(true))])
  }

  function Inspection(name: string): seq<Action>
  {
    [Send(InspectRequest(IndicesGetSettings, name)), Send(InspectRequest(IndicesGetMapping, name)),
     OutLine("Index Settings:"), PrintResponse(IndicesGetSettings), Rule,
     OutLine("Index Mappings:"), PrintResponse(IndicesGetMapping)]
  }

  predicate AnyFlag(flags: Flags)
  {
    flags.delete || flags.update || flags.create || flags.verbose
  }

  /** `--delete`: ask whether the index exists, then delete it or warn. */
  function DeleteTrace(n: string, found: bool): seq<Action>
  {
    [Send(IndexExistsRequest(n))] +
    if found then [SuccessLine("Deleting index on index \"" + n + "\""), Send(DeleteIndexRequest(n))]
    else [WarningLine("Index does not exist. Nothing to delete.")]
  }

  /** `--update`: ask whether the index exists, then put the mappings or warn. */
  function UpdateTrace(n: string, config: Config, found: bool): seq<Action>
  {
    [Send(IndexExistsRequest(n))] +
    if found then [SuccessLine("Updating index schema on index \"" + n + "\"."), Send(UpdateIndexRequest(n, config))]
    else [WarningLine("Index does not exist. Nothing to update.")]
  }

  /** `--create` and `--verbose`: create a missing index, then list settings and mappings when asked. */
  function CreateTrace(create: bool, verbose: bool, n: string, config: Config, found: bool): seq<Action>
  {
    if create && found then [Send(IndexExistsRequest(n)), WarningLine("Index already exists. Nothing to create.")]
    else
      (if create then [Send(IndexExistsRequest(n)), SuccessLine("Creating new index \"" + n + "\"."), Send(CreateIndexRequest(n, config))] else []) +
      (if verbose then Inspection(n) else [])
  }

  /**
   * The exit code (or the exception that escapes) and the actions of `execute`
   * once the handle is fetched; `found` is the cluster's answer to the
   * existence check. Delete takes precedence over update over create; the
   * verbose listing follows a creation, or runs alone.
   */
  function Session(flags: Flags, handle: Handle, found: bool): (Result<int, Failure>, seq<Action>)
  {
    if !AnyFlag(flags) then (Ok(CodeSuccess), [])
    else if handle.name.Err? then (Err(handle.name.error), [])
    else if flags.delete then (Ok(CodeSuccess), DeleteTrace(handle.name.value, found))
    else if flags.update then (Ok(CodeSuccess), UpdateTrace(handle.name.value, handle.config, found))
    else (Ok(CodeSuccess), CreateTrace(flags.create, flags.verbose, handle.name.value, handle.config, found))
  }

  /** The whole of `execute`: a class that is not found is reported and ends with the error code. */
  function Expected(flags: Flags, className: string, fetched: Result<Handle, Failure>, found: bool): (Result<int, Failure>, seq<Action>)
  {
    match fetched
    case Err(MissingIndexClass(_)) => (Ok(CodeError), [ErrorLine("Index class \"" + className + "\" not found.")])
    case Err(e) => (Err(e), [])
    case Ok(handle) => Session(flags, handle, found)
  }

  /** A request that changes the index: create, put-mapping or delete. */
  predicate Mutates(a: Action)
  {
    a.Send? && a.request.endpoint in {IndicesCreate, IndicesPutMapping, IndicesDelete}
  }

  /** At most one action of `trace` changes the index, and only after the trace opened with an existence check. */
  predicate ChangesOnceAfterCheck(trace: seq<Action>)
  {
    (forall i, j :: 0 <= i < j < |trace| && Mutates(trace[i]) ==> !Mutates(trace[j])) &&
    (forall i :: 0 <= i < |trace| && Mutates(trace[i]) ==> i > 0 && trace[0].Send? && trace[0].request.endpoint == IndicesExists)
  }

  lemma DeleteChangesOnce(n: string, found: bool)
    ensures ChangesOnceAfterCheck(DeleteTrace(n, found))
  {
  }

  lemma UpdateChangesOnce(n: string, config: Config, found: bool)
    ensures ChangesOnceAfterCheck(UpdateTrace(n, config, found))
  {
  }

  lemma CreateChangesOnce(create: bool, verbose: bool, n: string, config: Config, found: bool)
    ensures ChangesOnceAfterCheck(CreateTrace(create, verbose, n, config, found))
  {
    var trace := CreateTrace(create, verbose, n, config, found);
    assert !Mutates(Send(IndexExistsRequest(n)));
    assert forall a :: a in Inspection(n) ==> !Mutates(a);
    if !(create && found) && create {
      var created := [Send(IndexExistsRequest(n)), SuccessLine("Creating new index \"" + n + "\"."), Send(CreateIndexRequest(n, config))];
      assert trace == created + if verbose then Inspection(n) else [];
      assert forall i :: 0 <= i < |trace| && i != 2 ==> !Mutates(trace[i]);
    }
  }

  /** One run changes the index at most once, and only after asking whether it exists. */
  lemma {:induction false} AtMostOneChange(flags: Flags, className: string, fetched: Result<Handle, Failure>, found: bool)
    ensures ChangesOnceAfterCheck(Expected(flags, className, fetched, found).1)
  {
    var trace := Expected(flags, className, fetched, found).1;
    if fetched.Ok? && AnyFlag(flags) && fetched.value.name.Ok? {
      var h := fetched.value;
      if flags.delete {
        assert trace == DeleteTrace(h.name.value, found);
        DeleteChangesOnce(h.name.value, found);
      } else if flags.update {
        assert trace == UpdateTrace(h.name.value, h.config, found);
        UpdateChangesOnce(h.name.value, h.config, found);
      } else {
        assert trace == CreateTrace(flags.create, flags.verbose, h.name.value, h.config, found);
        CreateChangesOnce(flags.create, flags.verbose, h.name.value, h.config, found);
      }
    } else {
      assert |trace| <= 1 && forall a :: a in trace ==> !a.Send?;
    }
  }

  /** Which of the three changing requests `trace` sends for index `n` with schema `config`. */
  predicate Sends(trace: seq<Action>, n: string, config: Config, delete: bool, update: bool, create: bool)
  {
    && (Send(DeleteIndexRequest(n)) in trace <==> delete)
    && (Send(UpdateIndexRequest(n, config)) in trace <==> update)
    && (Send(CreateIndexRequest(n, config)) in trace <==> create)
  }

  lemma DeleteSends(n: string, config: Config, found: bool)
    ensures Sends(DeleteTrace(n, found), n, config, found, false, false)
  {
  }

  lemma UpdateSends(n: string, config: Config, found: bool)
    ensures Sends(UpdateTrace(n, config, found), n, config, false, found, false)
  {
  }

  lemma CreateSends(create: bool, verbose: bool, n: string, config: Config, found: bool)
    ensures Sends(CreateTrace(create, verbose, n, config, found), n, config, false, false, create && !found)
  {
    var trace := CreateTrace(create, verbose, n, config, found);
    assert forall a :: a in Inspection(n) ==> a.Send? ==> a.request.endpoint in {IndicesGetSettings, IndicesGetMapping};
    if !(create && found) {
      var created := if create then [Send(IndexExistsRequest(n)), SuccessLine("Creating new index \"" + n + "\"."), Send(CreateIndexRequest(n, config))] else [];
      assert trace == created + if verbose then Inspection(n) else [];
      if create {
        assert trace[2] == Send(CreateIndexRequest(n, config));
      }
    }
  }

  /** The index is deleted, updated or created exactly when the flag that wins asks for it and the existence check allows it. */
  lemma ChangeMatchesFlags(flags: Flags, className: string, handle: Handle, found: bool, n: string)
    requires handle.name == Ok(n)
    ensures var trace := Expected(flags, className, Ok(handle), found).1;
      && (Send(DeleteIndexRequest(n)) in trace <==> flags.delete && found)
      && (Send(UpdateIndexRequest(n, handle.config)) in trace <==> !flags.delete && flags.update && found)
      && (Send(CreateIndexRequest(n, handle.config)) in trace <==> !flags.delete && !flags.update && flags.create && !found)
  {
    var trace := Expected(flags, className, Ok(handle), found).1;
    if !AnyFlag(flags) {
      assert trace == [];
    } else if flags.delete {
      assert trace == DeleteTrace(n, found);
      DeleteSends(n, handle.config, found);
    } else if flags.update {
      assert trace == UpdateTrace(n, handle.config, found);
      UpdateSends(n, handle.config, found);
    } else {
      assert trace == CreateTrace(flags.create, flags.verbose, n, handle.config, found);
      CreateSends(flags.create, flags.verbose, n, handle.config, found);
    }
  }

  /** The settings and mappings are listed exactly when verbose is asked for and no earlier branch returned. */
  lemma InspectionWhenVerbose(flags: Flags, className: string, handle: Handle, found: bool, n: string)
    requires handle.name == Ok(n)
    ensures var trace := Expected(flags, className, Ok(handle), found).1;
      OutLine("Index Settings:") in trace <==>
        flags.verbose && !flags.delete && !flags.update && !(flags.create && found)
  {
    var trace := Expected(flags, className, Ok(handle), found).1;
    if flags.verbose && !flags.delete && !flags.update && !(flags.create && found) {
      var created := if flags.create then [Send(IndexExistsRequest(n)), SuccessLine("Creating new index \"" + n + "\"."), Send(CreateIndexRequest(n, handle.config))] else [];
      assert trace == created + Inspection(n);
      assert trace[|created| + 2] == OutLine("Index Settings:");
    }
  }

  /** The error code is reserved for a missing class; every completed run otherwise succeeds. */
  lemma ExitCodes(flags: Flags, className: string, fetched: Result<Handle, Failure>, found: bool)
    ensures var code := Expected(flags, className, fetched, found).0;
      && (code == Ok(CodeError) <==> fetched.Err? && fetched.error.MissingIndexClass?)
      && (code.Ok? && code.value != CodeError ==> code.value == CodeSuccess)
      && (code.Err? ==> (fetched.Err? && code.error == fetched.error) || (fetched.Ok? && fetched.value.name == Err(code.error)))
    ensures fetched.Err? ==> forall a :: a in Expected(flags, className, fetched, found).1 ==> !a.Send?
    ensures fetched.Ok? && fetched.value.name.Err? ==> Expected(flags, className, fetched, found).1 == []
  {
  }

  /** With no flag the command does nothing at all, even for a handle with no derivable name. */
  lemma NoFlagsNoRequests(className: string, handle: Handle, found: bool)
    ensures Expected(Flags(false, false, false, false), className, Ok(handle), found) == (Ok(CodeSuccess), [])
  {
  }

  // ---- the command object ---------------------------------------------------

  class IndexCommand {
    /** The state of `IndexLocatorAwareTrait`, which the command uses. */
    const locatorAware: IndexLocatorAware

    constructor ()
      ensures fresh(locatorAware) && locatorAware.indexLocator == null
    {
      locatorAware := new IndexLocatorAware();
    }

    /** The handles already in the registry, which a run may touch. */
    function Registered(): set<Index>
      reads locatorAware, locatorAware.indexLocator
    {
      if locatorAware.indexLocator == null then {} else locatorAware.indexLocator.instances.Values
    }

    /**
     * `execute`: `found` stands for the cluster's answer to `indexExists()`.
     * The ghost outputs name the registry's answer and the fetched handle's
     * name memo, so that the run is stated as `Expected` of them.
     */
    method Execute(env: Env, name: Option<string>, flags: Flags, found: bool)
      returns (code: Result<int, Failure>, trace: seq<Action>, ghost fetched: Result<Index, Failure>, ghost handle: Result<Handle, Failure>)
      modifies locatorAware, locatorAware.indexLocator, Registered()
      ensures locatorAware.indexLocator != null
      ensures GetOutcome(env, old(locatorAware.Before()), locatorAware.indexLocator.State(), IndexClassName(env, name.GetOr("")), [], fetched)
      ensures fetched.Err? ==> handle == Err(fetched.error)
      ensures fetched.Ok? && fresh(fetched.value) ==>
        handle == Ok(Handle(IndexNameOutcome(env, fetched.value.className, None), fetched.value.config))
      ensures fetched.Ok? && !fresh(fetched.value) ==>
        handle == Ok(Handle(IndexNameOutcome(env, fetched.value.className, old(fetched.value.indexName)), old(fetched.value.config)))
      ensures (code, trace) == Expected(flags, IndexClassName(env, name.GetOr("")), handle, found)
    {
      var className := IndexClassName(env, name.GetOr(""));
      var result := locatorAware.FetchIndex(env, className, []);
      fetched := result;
      if result.Err? {
        handle := Err(result.error);
        if result.error.MissingIndexClass? {
          code, trace := Ok(CodeError), [ErrorLine("Index class \"" + className + "\" not found.")];
          return;
        }
        code, trace := Err(result.error), [];
        return;
      }
      var index := result.value;
      handle := Ok(Handle(IndexNameOutcome(env, index.className, index.indexName), index.config));
      code, trace := Dispatch(env, index, flags, found);
    }

    /** `execute` once the handle is fetched: the flags in order of precedence. */
    method Dispatch(env: Env, index: Index, flags: Flags, found: bool) returns (code: Result<int, Failure>, trace: seq<Action>)
      modifies index`indexName
      ensures (code, trace) == Session(flags, Handle(IndexNameOutcome(env, index.className, old(index.indexName)), index.config), found)
    {
      if !AnyFlag(flags) {
        code, trace := Ok(CodeSuccess), [];
      } else if flags.delete {
        code, trace := DeleteIfExists(env, index, found);
      } else if flags.update {
        code, trace := UpdateIfExists(env, index, found);
      } else {
        code, trace := CreateAndList(env, index, flags.create, flags.verbose, found);
      }
    }

    /** The `--delete` branch of `execute`. */
    method DeleteIfExists(env: Env, index: Index, found: bool) returns (code: Result<int, Failure>, trace: seq<Action>)
      modifies index`indexName
      ensures var n := IndexNameOutcome(env, index.className, old(index.indexName));
        (code, trace) == if n.Err? then (Err(n.error), []) else (Ok(CodeSuccess), DeleteTrace(n.value, found))
    {
      ghost var outcome := IndexNameOutcome(env, index.className, index.indexName);
      var probe := index.IndexExists(env);
      if probe.Err? {
        return Err(probe.error), [];
      }
      trace := [Send(probe.value)];
      if found {
        var n := index.GetIndexName(env);
        trace := trace + [SuccessLine("Deleting index on index \"" + n.value + "\"")];
        var request := index.DeleteIndex(env);
        trace := trace + [Send(request.value)];
        assert trace == DeleteTrace(outcome.value, found);
      } else {
        trace := trace + [WarningLine("Index does not exist. Nothing to delete.")];
      }
      code := Ok(CodeSuccess);
    }

    /** The `--update` branch of `execute`. */
    method UpdateIfExists(env: Env, index: Index, found: bool) returns (code: Result<int, Failure>, trace: seq<Action>)
      modifies index`indexName
      ensures var n := IndexNameOutcome(env, index.className, old(index.indexName));
        (code, trace) == if n.Err? then (Err(n.error), []) else (Ok(CodeSuccess), UpdateTrace(n.value, index.config, found))
    {
      ghost var outcome := IndexNameOutcome(env, index.className, index.indexName);
      var probe := index.IndexExists(env);
      if probe.Err? {
        return Err(probe.error), [];
      }
      trace := [Send(probe.value)];
      if found {
        var n := index.GetIndexName(env);
        trace := trace + [SuccessLine("Updating index schema on index \"" + n.value + "\".")];
        var request := index.UpdateIndex(env);
        trace := trace + [Send(request.value)];
        assert trace == UpdateTrace(outcome.value, index.config, found);
      } else {
        trace := trace + [WarningLine("Index does not exist. Nothing to update.")];
      }
      code := Ok(CodeSuccess);
    }

    /** The `--create` and `--verbose` part of `execute`, reached when neither delete nor update is asked for. */
    method CreateAndList(env: Env, index: Index, create: bool, verbose: bool, found: bool) returns (code: Result<int, Failure>, trace: seq<Action>)
      requires create || verbose
      modifies index`indexName
      ensures var n := IndexNameOutcome(env, index.className, old(index.indexName));
        (code, trace) == if n.Err? then (Err(n.error), []) else (Ok(CodeSuccess), CreateTrace(create, verbose, n.value, index.config, found))
    {
      ghost var outcome := IndexNameOutcome(env, index.className, index.indexName);
      trace := [];
      if create {
        var probe := index.IndexExists(env);
        if probe.Err? {
          return Err(probe.error), [];
        }
        trace := [Send(probe.value)];
        if found {
          trace := trace + [WarningLine("Index already exists. Nothing to create.")];
          assert trace == CreateTrace(create, verbose, outcome.value, index.config, found);
          return Ok(CodeSuccess), trace;
        }
        var n := index.GetIndexName(env);
        trace := trace + [SuccessLine("Creating new index \"" + n.value + "\".")];
        var request := index.CreateIndex(env);
        trace := trace + [Send(request.value)];
        assert trace == CreateTrace(true, false, outcome.value, index.config, found);
      }
      if verbose {
        var settingsName := index.GetIndexName(env);
        if settingsName.Err? {
          return Err(settingsName.error), [];
        }
        var mappingName := index.GetIndexName(env);
        trace := trace + [Send(InspectRequest(IndicesGetSettings, settingsName.value)), Send(InspectRequest(IndicesGetMapping, mappingName.value))];
        trace := trace + [OutLine("Index Settings:"), PrintResponse(IndicesGetSettings), Rule,
                          OutLine("Index Mappings:"), PrintResponse(IndicesGetMapping)];
        assert trace == CreateTrace(create, false, outcome.value, index.config, found) + Inspection(outcome.value);
      }
      assert trace == CreateTrace(create, verbose, outcome.value, index.config, found);
      code := Ok(CodeSuccess);
    }
  }
}
