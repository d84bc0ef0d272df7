# ElasticKit core, modelled in Dafny

ElasticKit is a CakePHP plugin for Elasticsearch. This project models the parts of it that carry logic:

- **Decoding a response.** `ResultSet` sorts a decoded Elasticsearch response into rows: bulk `items`, a single document, or search `hits.hits`. It turns each row into a `Document` whose field map starts with `id`/`score` and takes the hit's `_source` without letting it override that metadata. It resolves the document class once per result set and reads the envelope fields (`took`, `max_score`, `_shards`, `hits.total.value`, `errors`, `aggregations`).
- **The document.** `Document` stores its field map, its original-field keys, its source alias, its errors, and two reserved slots (`document_id`, `score`) kept apart from the fields.
- **The index registry.** `IndexLocator` caches one index handle per alias, together with the options the alias was first fetched with. It refuses to reconfigure a cached alias. It creates handles by filling in `name`, `className`, a default connection and `registryAlias`. `IndexLocatorAwareTrait` creates the registry on first use.
- **The index handle.** `Index` derives its name from its class name and memoises it. It checks its connection when it is constructed, keeps its settings and mappings in its configuration, and builds the requests for create, put-mapping, delete, exists and get.
- **The console command.** `elasticsearch index <name> [-d|-u|-c] [-v]` builds the index class name, in the application or in a plugin, and dispatches on its flags: delete wins over update, which wins over create. It lists settings and mappings only after a creation, or when verbose is the only flag.

How the model is built:

- Decoded JSON is a `PhpValues.Value`. Objects are `Obj`; lists and PHP arrays are `Arr`, an ordered association list. PHP truthiness, `(array)` casts, `+=` (`PhpArrays.Union`: the left operand wins) and `$a[$k] = $v` (`PhpArrays.Assign`) are written out.
- The host framework's lookups are fields of `Framework.Env`, and the model fixes none of them: the inflector, `App::className`, `class_exists`, `pluginSplit`, `namespaceSplit`, the `App.namespace` setting and `ConnectionManager`. A lemma that needs a particular answer, such as `TestItemsIndex` → `test_items`, says so in its `requires`.
- Exceptions are `Err` values of a `Result`.
- State the source updates in place is kept in classes: `ResultSets.ResultSet`, `Documents.Document`, `Indices.Index`, `Locators.IndexLocator`, `Locators.IndexLocatorAware` and `Commands.IndexCommand`. Each method's `ensures` states its new state in terms of pure specification functions (`Results`, `RowData`, `IndexNameOutcome`, `GetOutcome`, `Expected`), and lemmas prove the source's promises about those functions.
- `getResponse()` is the constant field `ResultSet.response`, so the wrapped response cannot change.
- The command cannot see the cluster. `Commands.IndexCommand.Execute` therefore takes the answer to `indexExists()` as its parameter `found`, and returns the console lines and client requests in order as a trace.

Where the code and its tests disagree, the model follows the code:

- `current()` puts `id` and `score` into the field map and never calls `setDocumentId`/`setScore`, so a document built from a row keeps both reserved slots null (`ResultSets.ResultSet.Current`). The tests that expect `getDocumentId()`/`getScore()` to return hit metadata do not hold of the code as written.
- `find()` ignores what its callback returns, so no check of that return value is modelled.

## Model

| member | source | states |
|---|---|---|
| PhpArrays.Lookup | src/Index.php:54 | a key reads a value exactly when it is one of the array's keys, and the value read is stored under that key |
| PhpArrays.LookupAssign | src/Locator/IndexLocator.php:116-124 | after `$a[$k] = $v`, `$k` reads `$v` and every other key reads as before |
| PhpArrays.KeysAssign | src/Locator/IndexLocator.php:116-124 | assignment keeps the key order and appends a new key at the end |
| PhpArrays.AssignAbsent | src/Locator/IndexLocator.php:124 | assigning an absent key appends the entry |
| PhpArrays.AssignDistinct | src/Locator/IndexLocator.php:116-124 | assignment never creates a duplicate key |
| PhpArrays.LookupAppend | src/ResultSet.php:121 | appending an entry with a new key leaves old keys' values alone |
| PhpArrays.LookupUnion | src/ResultSet.php:121 | `$a += $b`: keys of `$a` keep their values; other keys read from `$b` |
| PhpArrays.UnionKeepsLeft | src/ResultSet.php:112-121 | `$a += $b` keeps `$a` unchanged as a prefix |
| PhpArrays.UnionDistinct | src/Locator/IndexLocator.php:110-113 | `+=` never creates a duplicate key |
| PhpArrays.LookupMerge | src/Index.php:52 | `setConfig($config)`: a key given in the update reads the given value; the others keep their default |
| PhpValues.Prop | src/ResultSet.php:43 | `$v->name ?? null`: an object's property when present, otherwise null |
| PhpValues.NamedDistinct | src/ResultSet.php:121 | casting an object yields no duplicate key |
| PhpValues.LookupNamed | src/ResultSet.php:121 | a key of the cast object reads the property's value |
| ResultSets.PathFromNull | src/ResultSet.php:51 | reading any property chain from null gives null |
| ResultSets.PathMissingStep | src/ResultSet.php:51-67 | a missing property anywhere on a `?? null` chain makes the whole read null |
| ResultSets.Results | src/ResultSet.php:88-101 | `getResults()`: bulk `items`, else the single document, else `hits.hits`, else no rows, each test by PHP truthiness; its order of precedence is what BulkItemsFirst, SingleDocumentSecond, SearchHitsThird, NoShapeNoRows and ResultsFailure prove |
| ResultSets.BulkItemsFirst | src/ResultSet.php:92-93 | non-empty `items` are the rows, one per item, whatever else the response holds |
| ResultSets.SingleDocumentSecond | src/ResultSet.php:94-95 | without truthy `items`, a truthy `_id` gives exactly one row, the response itself |
| ResultSets.SearchHitsThird | src/ResultSet.php:96-97 | only without truthy `items` and `_id` are the rows `hits.hits` |
| ResultSets.NoShapeNoRows | src/ResultSet.php:88-100 | a response of none of the three shapes has no rows and no error |
| ResultSets.ResultsFailure | src/ResultSet.php:88-101 | decoding fails (a `TypeError` on the `array` return type) exactly when the selected `items` or `hits.hits` is not an array |
| ResultSets.SourceNeverOverridesMetadata | src/ResultSet.php:118-121 | for a row with `_source`, `id` and `score` are the hit's `_id` and `_score` even when the source has those keys; every other key reads as in the source |
| ResultSets.RowDataShape | src/ResultSet.php:112-121 | every field map starts with `id` then `score` and has no duplicate key |
| ResultSets.RowData | src/ResultSet.php:112-128 | the field map `current()` gives a row: `id`/`score` metadata, then the `_source` properties that do not collide, or the bulk item's `_id`; SourceNeverOverridesMetadata, RowDataShape, BulkRowDocument and BareRowDocument are its properties |
| ResultSets.RowErrors | src/ResultSet.php:110-128 | the error list `current()` gives a row: the bulk item's error when truthy, otherwise none (BulkRowDocument, BareRowDocument) |
| ResultSets.BulkRowDocument | src/ResultSet.php:123-128 | a bulk item gives `{id: index._id, score: null}`, plus its error exactly when that error is truthy |
| ResultSets.BareRowDocument | src/ResultSet.php:112-115 | a row with neither `_source` nor `index` gives `{id: null, score: null}` and no errors |
| ResultSets.RowOptions | src/ResultSet.php:132-136 | every document is built with raw assignment (markClean, no setters) and the result set's index name as its source |
| ResultSets.ResolveDocumentClass | src/ResultSet.php:151-158 | the looked-up `Model/Document` class exactly when the lookup gives a truthy name of an existing class, else the generic document class; never a falsy name |
| ResultSets.Took | src/ResultSet.php:41-44 | a non-null result is the response's `took`; when that field is absent the result is null |
| ResultSets.Shards | src/ResultSet.php:57-60 | a non-null result is the response's `_shards` |
| ResultSets.MaxScore | src/ResultSet.php:49-52 | a non-null result comes from a response that has `hits` |
| ResultSets.HitsTotal | src/ResultSet.php:65-68 | a non-null result comes from a response that has `hits` |
| ResultSets.ErrorsFlag | src/ResultSet.php:177-180 | `hasErrors()` is never null, is truthy exactly when the response's `errors` is, and is `false` when the field is absent |
| ResultSets.Aggregations | src/ResultSet.php:73-83 | the walked `aggregations` array, `[]` when absent (AbsentEnvelope); the walk keeps every key in order (WalkKeepsKeys) |
| ResultSets.WalkKeepsKeys | src/ResultSet.php:75-80 | `array_walk_recursive` keeps every aggregation key in order; it only rewrites leaf values |
| ResultSets.AbsentEnvelope | src/ResultSet.php:41-83 | absent `took`, `hits`, `_shards` and `aggregations` read as null, null, null and `[]` |
| ResultSets.ResultSet.constructor | src/ResultSet.php:29-36 | the rows are decoded once, when the result set is constructed; the inner cursor is at row 0 but nothing is fetched yet, so `valid()` is false and `parent::current()` is null until the first `rewind()` or `next()` |
| ResultSets.ResultSet.Count | src/ResultSet.php:29-36 | `count()`: the number of decoded rows, which Documents proves is the number of documents iteration yields |
| ResultSets.ResultSet.HasCurrent | src/ResultSet.php:29-36 | `valid()`: a row has been fetched and the cursor is on it, so false on a new result set; the loop in Documents stops exactly when it fails |
| ResultSets.ResultSet.Row | src/ResultSet.php:106-108 | `parent::current()`: the fetched row under the cursor; null before the first fetch and past the end, so `current()` on a new result set builds `{id: null, score: null}` |
| ResultSets.ResultSet.Rewind | src/ResultSet.php:29-36 | the cursor goes back to the first row, which is fetched |
| ResultSets.ResultSet.Next | src/ResultSet.php:29-36 | the cursor advances by one row, which is fetched |
| ResultSets.ResultSet.SetDocumentClass | src/ResultSet.php:169-172 | stores the given class; a truthy name is used by every later document, a falsy one is re-resolved by `getDocumentClass()` |
| ResultSets.ResultSet.GetDocumentClass | src/ResultSet.php:148-164 | a memoised class is kept; otherwise the class is resolved once and memoised |
| ResultSets.ResultSet.Current | src/ResultSet.php:106-143 | a fresh document with the row's field map, original keys, errors and source, built with the memoised class; both reserved slots stay null |
| ResultSets.ResultSet.First | src/ResultSet.php:106-143 | rewinds; null when there are no rows, otherwise a fresh document with the first row's fields, errors and source, and both reserved slots null |
| ResultSets.ResultSet.CurrentAt | src/ResultSet.php:106-143 | the document built at cursor `k` carries entry `k` of `Expectations(rows)`, the source alias and the memoised class |
| ResultSets.ResultSet.Step | src/ResultSet.php:106-143 | one `current()` then `next()` extends the documents iterated so far by exactly the next row's document |
| ResultSets.Expectations | src/ResultSet.php:106-143 | one expected (fields, errors) pair per row, in row order |
| ResultSets.ResultSet.Documents | src/ResultSet.php:29-143 | iteration yields exactly one fresh document per row, in row order, whose fields and errors are entry `i` of `Expectations(rows)`, all of the same class |
| ResultSets.ExpectationsEach | src/ResultSet.php:106-143 | entry `i` of `Expectations(rows)` is exactly the field map and error list `current()` builds from row `i` |
| ResultSets.Open | src/ResultSet.php:29-36 | `new ResultSet(...)`: the result set, or the `TypeError` a non-array result raises |
| Documents.Document.constructor | src/Document.php:31-59 | fields are the properties; their keys are registered as original fields; the source is set only when given; reserved slots null; the raw path is taken exactly when markClean and not useSetters |
| Documents.Document.Patch | src/Document.php:54-58 | patching every property into an empty document leaves exactly those properties |
| Documents.Document.Get | src/Document.php:54-58 | a field reads its stored value, and null when the document lacks it |
| Documents.Document.SetDocumentId | src/Document.php:65-70 | stores the id in its reserved slot only, and returns the same document |
| Documents.Document.SetScore | src/Document.php:75-80 | stores the score (an integer widened to a float) in its reserved slot only, and returns the same document |
| Documents.Document.GetDocumentId | src/Document.php:85-88 | the reserved id slot, which only SetDocumentId writes and which documents built by `current()` leave null |
| Documents.Document.GetScore | src/Document.php:93-96 | the reserved score slot, which only SetScore writes and which documents built by `current()` leave null |
| Documents.Document.SetErrors | src/ResultSet.php:138-140 | the document's errors become the given list |
| Indices.ConfigRead | src/Index.php:196-213 | `getConfig($key, $default)`: the stored value unless it is absent or null, in which case the default |
| Indices.ConnectionCheck | src/Index.php:54-58 | construction succeeds exactly when the configured connection name is a string naming an ElasticKit connection |
| Indices.DefaultConnection | src/Index.php:39-81 | with no `connection_name` given, the connection used is `elasticsearch` |
| Indices.DropLastFive | src/Index.php:171 | `substr($s, 0, -5)`: the string minus its last five characters; empty when it has no more than five |
| Indices.DropIndexSuffix | src/Index.php:171 | the base of a class named `XIndex` is `X` |
| Indices.DerivedIndexName | src/Index.php:170-178 | name derivation fails exactly when the base is `""` or `"0"` |
| Indices.TestItemsIndexName | src/Index.php:170-178 | `TestItemsIndex` is named `test_items` |
| Indices.BareSuffixUnresolvable | src/Index.php:172-176 | a class named just `Index` (or `0Index`) has no derivable name |
| Indices.IndexNameOutcome | src/Index.php:167-182 | a stored name is returned as is; a failure happens only without one, and is IndexNameUnresolvable |
| Indices.CreateIndexRequest | src/Index.php:189-200 | the create call: `{index, body: {settings, mappings}}`, empty arrays when unset (ConfigReachesCreateRequest) |
| Indices.UpdateIndexRequest | src/Index.php:207-216 | the put-mapping call: `{index, body: mappings}` (ConfigReachesCreateRequest) |
| Indices.DeleteIndexRequest | src/Index.php:221-227 | the delete call: `{index}` |
| Indices.IndexExistsRequest | src/Index.php:232-238 | the exists call: `{index}` |
| Indices.GetDocumentRequest | src/Index.php:111-119 | the get call: `{index, id}` |
| Indices.ConfigReachesCreateRequest | src/Index.php:189-262 | settings and mappings written through the setters are exactly what the create and put-mapping requests carry |
| Indices.Index.constructor | src/Index.php:50-62 | the configuration is the defaults merged with the given config; the handle holds the checked connection; no name is set |
| Indices.Index.SetIndexName | src/Index.php:153-158 | an explicit name is stored, and returned by every later `getIndexName` |
| Indices.Index.GetIndexName | src/Index.php:167-182 | the stored name if any, else the derived one; a derived name is memoised; a failure changes nothing |
| Indices.Index.SetSettings | src/Index.php:245-250 | replaces the `settings` entry and returns the same handle |
| Indices.Index.SetMappings | src/Index.php:257-262 | replaces the `mappings` entry and returns the same handle |
| Indices.Index.CreateIndex | src/Index.php:189-200 | sends `{index: name, body: {settings, mappings}}` from the configuration |
| Indices.Index.UpdateIndex | src/Index.php:207-216 | sends `{index: name, body: mappings}` |
| Indices.Index.DeleteIndex | src/Index.php:221-227 | sends `{index: name}` to the delete endpoint |
| Indices.Index.IndexExists | src/Index.php:232-238 | sends `{index: name}` to the exists endpoint |
| Indices.Index.ResultSetFor | src/Index.php:269-275 | wraps the response together with the current index name |
| Indices.Index.Get | src/Index.php:111-119 | requests `{index: name, id}`; gives null for a response without rows, otherwise a fresh document with the first row's fields and errors, the index name as source, and both reserved slots null |
| Indices.NewIndex | src/Index.php:50-62 | `new $class($config)`: the handle, or the exception the connection check raises |
| Locators.DefaultsLookup | src/Locator/IndexLocator.php:110-113 | the caller's `name` and `className` win; the underscored name and camelized alias fill in only missing keys |
| Locators.Defaults | src/Locator/IndexLocator.php:108-112 | the entries `+=` may add: the underscored plugin-less alias as `name` and the camelized alias as `className` (DefaultsLookup) |
| Locators.Resolved | src/Locator/IndexLocator.php:106-118 | defaulting and class resolution, or WrongArgumentType / MissingIndexClassException (ResolvedLookup, MissingClassFails) |
| Locators.Connect | src/Locator/IndexLocator.php:120-125 | the default connection when none is given, or the missing-datasource failure, then `registryAlias` (ConnectLookup) |
| Locators.InstanceOptions | src/Locator/IndexLocator.php:106-125 | `createInstance`'s options, the composition of Resolved and Connect (InstanceOptionsDefaults) |
| Locators.Creation | src/Locator/IndexLocator.php:106-127 | the instance options, or the first exception on the way, including the handle's connection check (MissingClassFails) |
| Locators.GetOutcome | src/Locator/IndexLocator.php:65-83 | the relation between the registry before and after `get` and its result; GetRegisters, CachedGet, GetIsIdempotent, ReconfigureFails, MissingClassKeepsInstances, SetBypassesConflicts and RemoveThenGetRecreates are its properties |
| Locators.RegistrationTracksUpdates | src/Locator/IndexLocator.php:29-51 | `set` registers the alias, `remove` unregisters it, and no other alias changes |
| Locators.ResolvedLookup | src/Locator/IndexLocator.php:109-119 | after `+=` and class resolution, the caller's name and connection are kept, the name is defaulted, and `className` is what `App::className` resolved the requested class to |
| Locators.ConnectLookup | src/Locator/IndexLocator.php:120-125 | the last steps set a connection only when none is given, and always set `registryAlias` |
| Locators.InstanceOptionsDefaults | src/Locator/IndexLocator.php:108-125 | the created handle's options keep the caller's name and connection, carry the resolved class, default the connection to `elasticsearch`, and record the alias |
| Locators.MissingClassFails | src/Locator/IndexLocator.php:114-118 | an unresolvable class throws MissingIndexClassException naming the alias |
| Locators.GetRegisters | src/Locator/IndexLocator.php:80-82 | after a successful `get` the alias exists and holds the returned handle; no other alias is added or removed |
| Locators.MissingClassKeepsInstances | src/Locator/IndexLocator.php:80-118 | a failed creation leaves the instances unchanged, but the options are already recorded |
| Locators.CachedGet | src/Locator/IndexLocator.php:69-77 | a cached alias returns its handle and changes nothing; it throws exactly when the new options are non-empty, recorded options exist, and they differ |
| Locators.GetIsIdempotent | src/Locator/IndexLocator.php:69-82 | once `get` succeeds, a `get` with no options or with the same options returns the same handle and changes nothing |
| Locators.ReconfigureFails | src/Locator/IndexLocator.php:70-75 | fetching a created alias with different non-empty options throws and changes nothing |
| Locators.SetBypassesConflicts | src/Locator/IndexLocator.php:29-77 | an alias registered by `set` alone is returned by `get` whatever options come with it |
| Locators.RemoveThenGetRecreates | src/Locator/IndexLocator.php:45-82 | after `remove`, `get` runs creation again and records the new options |
| Locators.IndexLocator.constructor | src/Locator/IndexLocator.php:22-24 | a new registry holds no instances and no options |
| Locators.IndexLocator.Set | src/Locator/IndexLocator.php:29-32 | overwrites the instance, leaves the options alone, and returns the handle |
| Locators.IndexLocator.Exists | src/Locator/IndexLocator.php:37-40 | `exists()` holds exactly when an instance is registered under the alias |
| Locators.IndexLocator.Remove | src/Locator/IndexLocator.php:45-51 | drops the alias from both arrays and nothing else |
| Locators.IndexLocator.Clear | src/Locator/IndexLocator.php:56-60 | empties both arrays |
| Locators.IndexLocator.Get | src/Locator/IndexLocator.php:65-83 | the registry changes and the result are those `GetOutcome` prescribes; a newly created handle is fresh and configured from the built options |
| Locators.IndexLocator.CreateInstance | src/Locator/IndexLocator.php:91-127 | builds the options step by step and constructs the handle, or throws as `Creation` prescribes |
| Locators.IndexLocatorAware.constructor | src/Locator/IndexLocatorAwareTrait.php:10 | no registry exists until one is asked for |
| Locators.IndexLocatorAware.GetIndexLocator | src/Locator/IndexLocatorAwareTrait.php:15-22 | creates an empty registry only when none exists; every later call returns that same registry |
| Locators.IndexLocatorAware.FetchIndex | src/Locator/IndexLocatorAwareTrait.php:30-33 | `getIndexLocator()->get(...)`, with the same effect, result and exceptions |
| Commands.FirstDot | src/Command/IndexCommand.php:146 | `strpos($name, '.')`: the position of the first dot, and none exactly when the name has no dot |
| Commands.IndexClassName | src/Command/IndexCommand.php:143-152 | `indexClassName()`: application or plugin namespace, then `\Model\Index\`, the camelized short name and `Index` (AppIndexClassName, PluginIndexClassName, ApplicationLookup, PluginLookup) |
| Commands.AppIndexClassName | src/Command/IndexCommand.php:145-151 | a name without a dot, or with a leading dot, uses the application namespace |
| Commands.FirstDotAt | src/Command/IndexCommand.php:146 | a dot with no dot before it is the one `strpos` finds |
| Commands.PluginIndexClassName | src/Command/IndexCommand.php:146-151 | a dot after the first character makes the plugin before it the base |
| Commands.ApplicationLookup | src/Command/IndexCommand.php:145-151 | `invalid_index` resolves to `TestApp\Model\Index\InvalidIndexIndex` |
| Commands.PluginLookup | src/Command/IndexCommand.php:145-151 | `MyPlugin.invalid_index` resolves to `MyPlugin\Model\Index\InvalidIndexIndex` |
| Commands.AppClassSpelling | src/Command/IndexCommand.php:151 | the application example's class name, spelled out from its namespace and short name |
| Commands.PluginClassSpelling | src/Command/IndexCommand.php:151 | the plugin example's class name, spelled out from its plugin and short name |
| Commands.AtMostOneChange | src/Command/IndexCommand.php:82-134 | a run changes the index at most once, and only after asking whether it exists |
| Commands.ChangeMatchesFlags | src/Command/IndexCommand.php:82-113 | delete runs exactly when `-d` is given and the index exists; update exactly when `-u` wins and it exists; create exactly when `-c` wins and it does not exist |
| Commands.InspectionWhenVerbose | src/Command/IndexCommand.php:104-132 | settings and mappings are listed exactly when `-v` is given and neither delete, update nor create-on-existing returned first |
| Commands.ExitCodes | src/Command/IndexCommand.php:74-135 | the error code is returned exactly for a missing class; every other completed run succeeds; anything else is an exception escaping; a failed fetch sends no request, and a handle without a derivable name does nothing at all |
| Commands.NoFlagsNoRequests | src/Command/IndexCommand.php:82-134 | with no flag the command sends nothing and succeeds, even for an index with no derivable name |
| Commands.Session | src/Command/IndexCommand.php:82-135 | the exit code and trace of a run with a fetched index: delete, else update, else create and verbose, else nothing (ChangeMatchesFlags, InspectionWhenVerbose) |
| Commands.Expected | src/Command/IndexCommand.php:69-135 | a whole run: the error code for a missing class, an exception escaping otherwise, else the Session (AtMostOneChange, ExitCodes, NoFlagsNoRequests) |
| Commands.IndexCommand.constructor | src/Command/IndexCommand.php:19-21 | a new command has no registry yet |
| Commands.IndexCommand.Execute | src/Command/IndexCommand.php:69-135 | the registry is updated as a `get` of the class name with no options, and the exit code and trace are `Expected` of what the registry returned |
| Commands.IndexCommand.Dispatch | src/Command/IndexCommand.php:82-135 | with a fetched index, the exit code and trace are the `Session` of the flags, taken in order delete, update, then create and verbose |
| Commands.IndexCommand.DeleteIfExists | src/Command/IndexCommand.php:82-91 | asks whether the index exists, then deletes it or warns |
| Commands.IndexCommand.UpdateIfExists | src/Command/IndexCommand.php:93-102 | asks whether the index exists, then puts the mappings or warns |
| Commands.IndexCommand.CreateAndList | src/Command/IndexCommand.php:104-134 | creates a missing index (or warns and stops), then lists settings and mappings when verbose |

## Left out

- The HTTP transport, `asBool()` and the response bodies: a request is a value; a response is a decoded `Value` passed in; the command's `print_r` output is a `PrintResponse` action.
- `Index::find` and the query builder it drives: an external package. `find` ignores its callback's return value, so no check of it exists to model.
- `Index::__call`, which forwards any other method to the client: a foreign call.
- `Index::getConnection`/`getClient`: the handle keeps only the name of its checked connection.
- `initialize()` and `defaultConnectionName()` overrides in subclasses: the base versions (a no-op, and `elasticsearch`) are modelled.
- `Hash::merge` and `Hash::expand`, behind `setConfig($config)` (Indices.Index.constructor, Locators.Creation): modelled as a top-level merge of the given keys over the defaults. A dotted key such as `settings.number_of_shards` therefore stays one flat key, where the source expands it into a nested array. Integer keys would be renumbered only on a collision, which the defaults never cause.
- PHP's normalisation of numeric-string array keys (`"1"` becoming `1`): keys are kept as given.
- `substr` works on bytes: the model's strings are sequences of characters.
- EntityTrait: dirty tracking, `markNew`, mutators and accessors of subclasses, guarded fields, and the per-field merging of `setErrors`. The generic document's `patch` sets every property as given, which is what is modelled.
- Documents.Document.SetScore: the source rejects a non-numeric score with a `TypeError`; the model requires a number or null instead.
- ResultSets.Took, ResultSets.MaxScore, ResultSets.HitsTotal, ResultSets.Shards, ResultSets.HasErrors: the source's return types (`?int`, `?float`, `?array`, `bool`) raise a `TypeError` for a value of another type; the model returns the raw value.
- ResultSets.Aggregations: `array_walk_recursive` is modelled as walking nested arrays and casting object leaves one level deep; only the empty result for an absent field and the preserved keys are proved.
- ResultSets.ResultSet.Count: `count()` comes from the framework's `CollectionTrait` (src/ResultSet.php:19), which counts a non-array iterator with `iterator_count`; that runs the iterator to its end and so moves the cursor. The model's count is pure and leaves the cursor alone.
- Scores are carried as opaque floats; no arithmetic is done on them.
- Locators.GetOutcome: the source compares recorded and new options with `!==` (src/Locator/IndexLocator.php:70), under which two option arrays holding distinct but equal objects (a connection object, say) differ; `Conflicts` compares values structurally, so such options do not conflict in the model. Object identity is not modelled.
- Locators.IndexLocator.Get: options are ordered key/value sequences without duplicate keys (what a PHP array is), hence its `requires Distinct(opts)`.
- The connection classes, the HTTP client listener, the DebugKit log and panel, and the plugin bootstrap: plumbing around the core.
- The command's option parser and its description text: framework configuration, with no logic of its own.
