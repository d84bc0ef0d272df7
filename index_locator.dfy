/**
 * The index registry: a cache of index handles by alias, with the options each
 * alias was first fetched with, and the lazily created registry a class using
 * `IndexLocatorAwareTrait` holds.
 */
module Locators {
  import opened Wrappers
  import opened PhpArrays
  import opened PhpValues
  import opened Framework
  import opened Indices

  /** The registry's two arrays as values. */
  datatype Registry = Registry(instances: map<string, Index>, options: map<string, Config>)

  const EmptyRegistry: Registry := Registry(map[], map[])

  /** The connection object `ConnectionManager::get($name)` returns, as a value carrying its name. */
  function ConnectionObject(name: string): Value
  {
    Obj([("name", Str(name))])
  }

  /** `empty($options['connection'])`: missing or falsy. */
  predicate NoConnectionGiven(options: Config)
  {
    var c := Lookup(options, "connection");
    c.None? || !Truthy(c.value)
  }

  /** The entries `createInstance` adds with `+=`: the underscored name and the camelized alias. */
  function Defaults(env: Env, alias: string): Config
  {
    [("name", Str(env.underscore(env.pluginSplit(alias).1))), ("className", Str(env.camelize(alias)))]
  }

  /** The last steps of `createInstance`: the default connection when none is given, then `registryAlias`. */
  function Connect(env: Env, alias: string, resolved: Config): Result<Config, Failure>
  {
    if NoConnectionGiven(resolved) then
      if env.datasources(DefaultConnectionName) == Unconfigured then Err(MissingDatasource(DefaultConnectionName))
      else Ok(Assign(Assign(resolved, "connection", ConnectionObject(DefaultConnectionName)), "registryAlias", Str(alias)))
    else
      Ok(Assign(resolved, "registryAlias", Str(alias)))
  }

  /**
   * `createInstance`'s first steps: `name` and `className` are filled in only
   * when absent, and the class must resolve under `Model/Index`.
   */
  function Resolved(env: Env, alias: string, options: Config): Result<Config, Failure>
  {
    var defaulted := Union(options, Defaults(env, alias));
    var requested := Lookup(defaulted, "className").GetOr(Null);
    if !requested.Str? then Err(WrongArgumentType)
    else
      var found := env.appClassName(requested.s, "Model/Index", "Index");
      if found.None? || !Truthy(Str(found.value)) then Err(MissingIndexClass(alias))
      else Ok(Assign(defaulted, "className", Str(found.value)))
  }

  /** `createInstance`'s options, up to the handle's construction. */
  function InstanceOptions(env: Env, alias: string, options: Config): Result<Config, Failure>
  {
    match Resolved(env, alias, options)
    case Err(e) => Err(e)
    case Ok(resolved) => Connect(env, alias, resolved)
  }

  /** Everything creation needs: the instance options and the handle's own connection check. */
  function Creation(env: Env, alias: string, options: Config): Result<Config, Failure>
  {
    var built := InstanceOptions(env, alias, options);
    if built.Err? then built
    else
      var check := ConnectionCheck(env, Merge(DefaultConfig, built.value));
      if check.Err? then Err(check.error) else built
  }

  /** `+=` keeps the caller's entries and adds a default only for a missing key. */
  lemma DefaultsLookup(env: Env, alias: string, options: Config, j: string)
    ensures Lookup(Union(options, Defaults(env, alias)), j) ==
      if j in KeysOf(options) then Lookup(options, j)
      else if j == "name" then Some(Str(env.underscore(env.pluginSplit(alias).1)))
      else if j == "className" then Some(Str(env.camelize(alias)))
      else None
  {
    LookupUnion(options, Defaults(env, alias), j);
  }

  /** The last steps touch only `connection` and `registryAlias`. */
  lemma {:induction false} ConnectLookup(env: Env, alias: string, resolved: Config, j: string)
    requires Connect(env, alias, resolved).Ok?
    ensures var built := Connect(env, alias, resolved).value;
      && (j == "registryAlias" ==> Lookup(built, j) == Some(Str(alias)))
      && (j == "connection" ==>
            Lookup(built, j) == if NoConnectionGiven(resolved) then Some(ConnectionObject(DefaultConnectionName)) else Lookup(resolved, j))
      && (j != "registryAlias" && j != "connection" ==> Lookup(built, j) == Lookup(resolved, j))
  {
    if NoConnectionGiven(resolved) {
      var connected := Assign(resolved, "connection", ConnectionObject(DefaultConnectionName));
      LookupAssign(resolved, "connection", ConnectionObject(DefaultConnectionName), j);
      LookupAssign(connected, "registryAlias", Str(alias), j);
    } else {
      LookupAssign(resolved, "registryAlias", Str(alias), j);
    }
  }

  /** The first steps keep the caller's `name` and connection, default the name, and resolve the class. */
  lemma {:induction false} ResolvedLookup(env: Env, alias: string, options: Config)
    requires Resolved(env, alias, options).Ok?
    ensures var resolved := Resolved(env, alias, options).value;
      && Lookup(resolved, "name") == (if "name" in KeysOf(options) then Lookup(options, "name")
                                      else Some(Str(env.underscore(env.pluginSplit(alias).1))))
      && Lookup(resolved, "className").Some? && Lookup(resolved, "className").value.Str?
      && (var requested := if "className" in KeysOf(options) then Lookup(options, "className").value
                           else Str(env.camelize(alias));
          requested.Str? && env.appClassName(requested.s, "Model/Index", "Index") == Some(Lookup(resolved, "className").value.s))
      && Lookup(resolved, "connection") == Lookup(options, "connection")
  {
    var defaulted := Union(options, Defaults(env, alias));
    var requested := Lookup(defaulted, "className").GetOr(Null);
    var found := env.appClassName(requested.s, "Model/Index", "Index").value;
    DefaultsLookup(env, alias, options, "className");
    DefaultsLookup(env, alias, options, "name");
    DefaultsLookup(env, alias, options, "connection");
    LookupAssign(defaulted, "className", Str(found), "className");
    LookupAssign(defaulted, "className", Str(found), "name");
    LookupAssign(defaulted, "className", Str(found), "connection");
  }

  /** `createInstance` keeps what the caller gave and fills in only what is missing. */
  lemma InstanceOptionsDefaults(env: Env, alias: string, options: Config)
    requires InstanceOptions(env, alias, options).Ok?
    ensures var built := InstanceOptions(env, alias, options).value;
      && Lookup(built, "registryAlias") == Some(Str(alias))
      && Lookup(built, "name") == (if "name" in KeysOf(options) then Lookup(options, "name")
                                   else Some(Str(env.underscore(env.pluginSplit(alias).1))))
      && Lookup(built, "className").Some? && Lookup(built, "className").value.Str?
      && (var requested := if "className" in KeysOf(options) then Lookup(options, "className").value
                           else Str(env.camelize(alias));
          requested.Str? && env.appClassName(requested.s, "Model/Index", "Index") == Some(Lookup(built, "className").value.s))
      && (!NoConnectionGiven(options) ==> Lookup(built, "connection") == Lookup(options, "connection"))
      && (NoConnectionGiven(options) ==> Lookup(built, "connection") == Some(ConnectionObject(DefaultConnectionName)))
  {
    var resolved := Resolved(env, alias, options).value;
    ResolvedLookup(env, alias, options);
    ConnectLookup(env, alias, resolved, "registryAlias");
    ConnectLookup(env, alias, resolved, "name");
    ConnectLookup(env, alias, resolved, "className");
    ConnectLookup(env, alias, resolved, "connection");
  }

  /** A class that does not resolve is a MissingIndexClassException naming the alias. */
  lemma MissingClassFails(env: Env, alias: string, options: Config)
    requires "className" !in KeysOf(options)
    requires env.appClassName(env.camelize(alias), "Model/Index", "Index") == None
    ensures InstanceOptions(env, alias, options) == Err(MissingIndexClass(alias))
    ensures Creation(env, alias, options) == Err(MissingIndexClass(alias))
  {
    DefaultsLookup(env, alias, options, "className");
  }

  /** `get` on a registered alias with non-empty options recorded differently refuses to reconfigure. */
  predicate Conflicts(registry: Registry, alias: string, options: Config)
  {
    options != [] && alias in registry.options && registry.options[alias] != options
  }

  /**
   * What `get($alias, $options)` does to the registry and returns: a registered
   * alias gives its instance unless the options conflict, and changes nothing;
   * an unregistered alias records the options first and then stores the created
   * handle, or, when creation throws, leaves the instances as they were.
   */
  predicate GetOutcome(env: Env, before: Registry, after: Registry, alias: string, options: Config, r: Result<Index, Failure>)
  {
    if alias in before.instances then
      after == before &&
      r == (if Conflicts(before, alias, options) then Err(AlreadyConfigured(alias)) else Ok(before.instances[alias]))
    else
      after.options == before.options[alias := options] &&
      match Creation(env, alias, options)
      case Err(e) => r == Err(e) && after.instances == before.instances
      case Ok(_) => r.Ok? && after.instances == before.instances[alias := r.value]
  }

  /** A successful `get` leaves the alias registered (`exists` holds) with the options it was first fetched with, unless it was already registered. */
  lemma GetRegisters(env: Env, before: Registry, after: Registry, alias: string, options: Config, x: Index)
    requires GetOutcome(env, before, after, alias, options, Ok(x))
    ensures alias in after.instances && after.instances[alias] == x
    ensures alias !in before.instances ==> after.options[alias] == options
    ensures forall other :: other != alias ==> (other in after.instances <==> other in before.instances)
  {
  }

  /** An unresolvable class: `get` throws MissingIndexClassException, keeps the instances, and has already recorded the options. */
  lemma MissingClassKeepsInstances(env: Env, before: Registry, after: Registry, alias: string, options: Config, r: Result<Index, Failure>)
    requires alias !in before.instances
    requires "className" !in KeysOf(options)
    requires env.appClassName(env.camelize(alias), "Model/Index", "Index") == None
    requires GetOutcome(env, before, after, alias, options, r)
    ensures r == Err(MissingIndexClass(alias))
    ensures after.instances == before.instances && after.options[alias] == options
  {
    MissingClassFails(env, alias, options);
  }

  /** A registered alias: `get` throws exactly on conflicting options, and never creates. */
  lemma CachedGet(env: Env, before: Registry, after: Registry, alias: string, options: Config, r: Result<Index, Failure>)
    requires alias in before.instances && GetOutcome(env, before, after, alias, options, r)
    ensures after == before
    ensures r.Err? <==> options != [] && alias in before.options && before.options[alias] != options
    ensures r.Ok? ==> r.value == before.instances[alias]
  {
  }

  /** A successful `get` registers the alias; any `get` of it with no options or the same options then returns the same handle. */
  lemma {:induction false} GetIsIdempotent(env: Env, s0: Registry, s1: Registry, s2: Registry, alias: string,
                                           options: Config, again: Config, x: Index, r: Result<Index, Failure>)
    requires GetOutcome(env, s0, s1, alias, options, Ok(x))
    requires again == [] || again == options
    requires GetOutcome(env, s1, s2, alias, again, r)
    ensures alias in s1.instances && s1.instances[alias] == x
    ensures r == Ok(x) && s2 == s1
  {
    if alias in s0.instances {
      assert !Conflicts(s0, alias, options);
      assert s1 == s0;
    } else {
      match Creation(env, alias, options)
      case Err(e) =>
      case Ok(_) =>
        assert s1.options[alias] == options;
    }
  }

  /** `get` with options that differ from those a handle was created with fails and changes nothing. */
  lemma ReconfigureFails(env: Env, s0: Registry, s1: Registry, s2: Registry, alias: string,
                         options: Config, other: Config, x: Index, r: Result<Index, Failure>)
    requires alias !in s0.instances
    requires GetOutcome(env, s0, s1, alias, options, Ok(x))
    requires other != [] && other != options
    requires GetOutcome(env, s1, s2, alias, other, r)
    ensures r == Err(AlreadyConfigured(alias)) && s2 == s1
  {
    assert s1.options[alias] == options;
  }

  /** `set` writes the instance unconditionally and records no options. */
  function SetAlias(registry: Registry, alias: string, index: Index): Registry
  {
    Registry(registry.instances[alias := index], registry.options)
  }

  /** `remove` drops the alias from both arrays. */
  function RemoveAlias(registry: Registry, alias: string): Registry
  {
    Registry(registry.instances - {alias}, registry.options - {alias})
  }

  /** `set` registers the alias; `remove` unregisters it and no other. */
  lemma RegistrationTracksUpdates(registry: Registry, alias: string, other: string, index: Index)
    ensures alias in SetAlias(registry, alias, index).instances
    ensures alias !in RemoveAlias(registry, alias).instances
    ensures other != alias ==> (other in RemoveAlias(registry, alias).instances <==> other in registry.instances)
    ensures other != alias ==> (other in SetAlias(registry, alias, index).instances <==> other in registry.instances)
  {
  }

  /** An alias registered only by `set` is returned by `get`, whatever options come with it. */
  lemma SetBypassesConflicts(env: Env, s0: Registry, s1: Registry, alias: string, index: Index,
                             options: Config, r: Result<Index, Failure>)
    requires alias !in s0.options
    requires GetOutcome(env, SetAlias(s0, alias, index), s1, alias, options, r)
    ensures r == Ok(index) && s1 == SetAlias(s0, alias, index)
  {
  }

  /** After `remove`, `get` runs creation again and records the new options. */
  lemma RemoveThenGetRecreates(env: Env, s0: Registry, s1: Registry, alias: string, options: Config, r: Result<Index, Failure>)
    requires GetOutcome(env, RemoveAlias(s0, alias), s1, alias, options, r)
    ensures s1.options == (s0.options - {alias})[alias := options]
    ensures r.Ok? <==> Creation(env, alias, options).Ok?
    ensures r.Err? ==> r.error == Creation(env, alias, options).error && s1.instances == s0.instances - {alias}
  {
  }

  class IndexLocator {
    var instances: map<string, Index>
    var options: map<string, Config>

    function State(): Registry
      reads this
    {
      Registry(instances, options)
    }

    constructor ()
      ensures State() == EmptyRegistry
    {
      instances := map[];
      options := map[];
    }

    method Set(alias: string, index: Index) returns (r: Index)
      modifies this
      ensures r == index && State() == SetAlias(old(State()), alias, index)
    {
      instances := instances[alias := index];
      r := index;
    }

    /** `exists()`: whether an instance is registered, whatever registered it. */
    function Exists(alias: string): (b: bool)
      reads this
      ensures b <==> alias in State().instances
    {
      alias in instances
    }

    method Remove(alias: string)
      modifies this
      ensures State() == RemoveAlias(old(State()), alias)
    {
      instances := instances - {alias};
      options := options - {alias};
    }

    method Clear()
      modifies this
      ensures State() == EmptyRegistry
    {
      instances := map[];
      options := map[];
    }

    method Get(env: Env, alias: string, opts: Config) returns (r: Result<Index, Failure>)
      requires Distinct(opts)
      modifies this
      ensures GetOutcome(env, old(State()), State(), alias, opts, r)
      ensures alias !in old(instances) && r.Ok? ==>
        fresh(r.value) && r.value.config == Merge(DefaultConfig, Creation(env, alias, opts).value) &&
        Lookup(Creation(env, alias, opts).value, "className") == Some(Str(r.value.className)) &&
        r.value.indexName == None
    {
      if alias in instances {
        if opts != [] && alias in options && options[alias] != opts {
          return Err(AlreadyConfigured(alias));
        }
        return Ok(instances[alias]);
      }
      options := options[alias := opts];
      r := CreateInstance(env, alias, opts);
      if r.Ok? {
        instances := instances[alias := r.value];
      }
    }

    /** `createInstance` and `create`: builds the options step by step, then the handle. */
    method CreateInstance(env: Env, alias: string, opts: Config) returns (r: Result<Index, Failure>)
      requires Distinct(opts)
      ensures var c := Creation(env, alias, opts);
        && (c.Err? ==> r == Err(c.error))
        && (c.Ok? ==>
              r.Ok? && fresh(r.value) && r.value.config == Merge(DefaultConfig, c.value) &&
              Lookup(c.value, "className") == Some(Str(r.value.className)) && r.value.indexName == None)
    {
      var built := Union(opts, Defaults(env, alias));
      UnionDistinct(opts, Defaults(env, alias));
      var requested := Lookup(built, "className").GetOr(Null);
      if !requested.Str? {
        return Err(WrongArgumentType);
      }
      var found := env.appClassName(requested.s, "Model/Index", "Index");
      if found.None? || !Truthy(Str(found.value)) {
        return Err(MissingIndexClass(alias));
      }
      AssignDistinct(built, "className", Str(found.value));
      LookupAssign(built, "className", Str(found.value), "className");
      var resolved := Assign(built, "className", Str(found.value));
      built := resolved;
      if NoConnectionGiven(built) {
        if env.datasources(DefaultConnectionName) == Unconfigured {
          return Err(MissingDatasource(DefaultConnectionName));
        }
        AssignDistinct(built, "connection", ConnectionObject(DefaultConnectionName));
        built := Assign(built, "connection", ConnectionObject(DefaultConnectionName));
      }
      AssignDistinct(built, "registryAlias", Str(alias));
      built := Assign(built, "registryAlias", Str(alias));
      assert Connect(env, alias, resolved) == Ok(built);
      ConnectLookup(env, alias, resolved, "className");
      r := NewIndex(env, found.value, built);
    }
  }

  /** `IndexLocatorAwareTrait`: a registry created on first use, then reused. */
  class IndexLocatorAware {
    var indexLocator: IndexLocator?

    constructor ()
      ensures indexLocator == null
    {
      indexLocator := null;
    }

    /** The registry state a `fetchIndex` starts from: empty when none exists yet. */
    function Before(): Registry
      reads this, indexLocator
    {
      if indexLocator == null then EmptyRegistry else indexLocator.State()
    }

    method GetIndexLocator() returns (l: IndexLocator)
      modifies this`indexLocator
      ensures old(indexLocator) != null ==> l == old(indexLocator)
      ensures old(indexLocator) == null ==> fresh(l) && l.State() == EmptyRegistry
      ensures indexLocator == l
    {
      if indexLocator == null {
        indexLocator := new IndexLocator();
      }
      l := indexLocator;
    }

    method FetchIndex(env: Env, alias: string, opts: Config) returns (r: Result<Index, Failure>)
      requires Distinct(opts)
      modifies this`indexLocator, indexLocator
      ensures indexLocator != null
      ensures old(indexLocator) != null ==> indexLocator == old(indexLocator)
      ensures old(indexLocator) == null ==> fresh(indexLocator)
      ensures GetOutcome(env, old(Before()), indexLocator.State(), alias, opts, r)
      ensures alias !in old(Before()).instances && r.Ok? ==>
        fresh(r.value) && r.value.config == Merge(DefaultConfig, Creation(env, alias, opts).value) &&
        Lookup(Creation(env, alias, opts).value, "className") == Some(Str(r.value.className)) &&
        r.value.indexName == None
    {
      var locator := GetIndexLocator();
      r := locator.Get(env, alias, opts);
    }
  }
}
