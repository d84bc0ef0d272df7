/**
 * What the core takes from the host framework, as values: the string
 * inflections, class lookup, plugin and namespace splitting, the application
 * namespace setting and the connection registry. The model fixes none of
 * them; a lemma that needs a particular answer says so in its `requires`.
 */
module Framework {
  import opened Wrappers

  /** What `ConnectionManager::get($name)` finds under a connection name. */
  datatype Datasource =
    | Unconfigured         // no configuration under that name: the lookup throws
    | ElasticKitConnection // an ElasticKit connection
    | OtherConnection      // some other kind of datasource (a database connection, say)

  datatype Env = Env(
    singularize: string -> string,                        // Inflector::singularize
    classify: string -> string,                           // Inflector::classify
    camelize: string -> string,                           // Inflector::camelize
    underscore: string -> string,                         // Inflector::underscore
    appClassName: (string, string, string) -> Option<string>, // App::className($name, $type, $suffix)
    classExists: string -> bool,                          // class_exists
    pluginSplit: string -> (Option<string>, string),      // pluginSplit: [plugin or null, name]
    namespaceSplit: string -> (string, string),           // namespaceSplit: [namespace, short class name]
    appNamespace: string,                                 // Configure::read('App.namespace')
    datasources: string -> Datasource                     // ConnectionManager::get
  )

  /** The exceptions the core raises. */
  datatype Failure =
    | NotAnArray                      // TypeError: a value declared `array` is not one
    | WrongArgumentType               // TypeError: an option of the wrong PHP type reaches a typed parameter
    | MissingIndexClass(alias: string) // MissingIndexClassException
    | AlreadyConfigured(alias: string) // CakeException: re-configuring a registered alias
    | IndexNameUnresolvable           // CakeException: no index name can be derived
    | ConnectionMisconfigured         // RuntimeException: the connection is not an ElasticKit one
    | MissingDatasource(name: string) // ConnectionManager: nothing configured under that name

  /** `Index::defaultConnectionName()`. */
  const DefaultConnectionName: string := "elasticsearch"

  /** Fully qualified name of the generic document class. */
  const DocumentClass: string := "ElasticKit\\Document"
}
