/** The flexible builder: setters that also record data-source properties,
    caller-supplied adjustments of the pool configuration and of the
    properties, an optimisation switch and an in-memory switch, and a build
    that fills in the driver class and JDBC URL only where the caller left
    them unset. */
module Builders {
  import opened Optional
  import opened JavaText
  import opened Jdbc
  import opened StorageTypes
  import opened Hikari
  import ConnectionBuilders

  /** `engine.driver()` and `engine.realName()`: a driver class name and the
      JDBC sub-protocol name for each engine. Their values are not part of
      this model, so they are supplied by the caller. */
  datatype EngineNames = EngineNames(driver: StorageType -> string, realName: StorageType -> string)

  /** The builder's state: the pool configuration and property table it
      owns, and the connection fields. `path` is `None` until set. */
  datatype Builder = Builder(
    engine: StorageType,
    config: PoolConfig,
    properties: Properties,
    path: Option<string>,
    host: string,
    database: string,
    port: Int32,
    optimize: bool,
    memory: bool)

  /** The one failure `build` raises rather than returns: a local engine
      without a path. */
  datatype BuildError = PathMissing

  /** The handle `build` returns: the engine and the configured pool. */
  datatype StorageDataSource = StorageDataSource(engine: StorageType, config: PoolConfig)

  /** `StorageDataSource.builder(engine)`: host "localhost", empty database,
      port 0, no path, nothing configured, not in memory; optimisation is on
      for MySQL only. */
  function New(engine: StorageType): (b: Builder)
    ensures b.engine == engine && b.host == "localhost" && b.database == "" && b.port == 0
    ensures b.path.None? && b.config == EmptyConfig && b.properties == map[] && !b.memory
    ensures b.optimize <==> engine == MySQL
  {
    Builder(engine, EmptyConfig, map[], None, "localhost", "", 0, engine == MySQL, false)
  }

  /** `path`: sets the file path and nothing else. */
  function WithPath(b: Builder, path: string): (r: Builder)
    ensures r.path == Some(path) && r.(path := b.path) == b
  {
    b.(path := Some(path))
  }

  /** `host`: sets the host and records it as "serverName". */
  function WithHost(b: Builder, host: string): (r: Builder)
    ensures r.host == host && "serverName" in r.properties && r.properties["serverName"] == Text(host)
    ensures forall k :: k != "serverName" ==> (k in r.properties <==> k in b.properties)
    ensures forall k :: k != "serverName" && k in b.properties ==> r.properties[k] == b.properties[k]
    ensures r.(host := b.host, properties := b.properties) == b
  {
    b.(host := host, properties := b.properties["serverName" := Text(host)])
  }

  /** `database`: sets the database and records it as "databaseName". */
  function WithDatabase(b: Builder, database: string): (r: Builder)
    ensures r.database == database && "databaseName" in r.properties && r.properties["databaseName"] == Text(database)
    ensures forall k :: k != "databaseName" ==> (k in r.properties <==> k in b.properties)
    ensures forall k :: k != "databaseName" && k in b.properties ==> r.properties[k] == b.properties[k]
    ensures r.(database := b.database, properties := b.properties) == b
  {
    b.(database := database, properties := b.properties["databaseName" := Text(database)])
  }

  /** `port`: sets the port, and records under "portNumber" the current
      host, not the port. */
  function WithPort(b: Builder, port: Int32): (r: Builder)
    ensures r.port == port && "portNumber" in r.properties && r.properties["portNumber"] == Text(b.host)
    ensures forall k :: k != "portNumber" ==> (k in r.properties <==> k in b.properties)
    ensures forall k :: k != "portNumber" && k in b.properties ==> r.properties[k] == b.properties[k]
    ensures r.(port := b.port, properties := b.properties) == b
  {
    b.(port := port, properties := b.properties["portNumber" := Text(b.host)])
  }

  /** `username`: goes straight into the pool configuration; `None` clears it. */
  function WithUsername(b: Builder, username: Option<string>): (r: Builder)
    ensures r.config.username == username
    ensures r.(config := b.config) == b && r.config.(username := b.config.username) == b.config
  {
    b.(config := b.config.(username := username))
  }

  /** `password`: goes straight into the pool configuration; `None` clears it. */
  function WithPassword(b: Builder, password: Option<string>): (r: Builder)
    ensures r.config.password == password
    ensures r.(config := b.config) == b && r.config.(password := b.config.password) == b.config
  {
    b.(config := b.config.(password := password))
  }

  /** `configure`: the caller's adjustment of the pool configuration. */
  function Configure(b: Builder, adjust: PoolConfig -> PoolConfig): (r: Builder)
    ensures r.config == adjust(b.config) && r.(config := b.config) == b
  {
    b.(config := adjust(b.config))
  }

  /** `properties`: the caller's adjustment of the property table. */
  function WithProperties(b: Builder, adjust: Properties -> Properties): (r: Builder)
    ensures r.properties == adjust(b.properties) && r.(properties := b.properties) == b
  {
    b.(properties := adjust(b.properties))
  }

  /** `noOptimization`: switches the optimisation table off. */
  function NoOptimization(b: Builder): (r: Builder)
    ensures !r.optimize && r.(optimize := b.optimize) == b
  {
    b.(optimize := false)
  }

  /** `memory`: asks for an in-memory database (local engines only). */
  function Memory(b: Builder, memory: bool): (r: Builder)
    ensures r.memory == memory && r.(memory := b.memory) == b
  {
    b.(memory := memory)
  }

  // ---------------------------------------------------------------------
  // URL synthesis
  // ---------------------------------------------------------------------

  /** The marker `formatUrl` puts between "jdbc:<name>:" and the rest. */
  function LocalMarker(engine: StorageType, memory: bool): (m: string)
    ensures !IsLocal(engine) ==> m == ""
    ensures IsLocal(engine) && memory ==> m == (if engine == SQLite then ":memory:" else "mem:")
    ensures IsLocal(engine) && !memory ==> m == (if engine == HSQL then "file:" else "")
  {
    if IsLocal(engine) then
      if memory then (if engine == SQLite then ":memory:" else "mem:")
      else if engine == HSQL then "file:"
      else ""
    else ""
  }

  /** `formatUrl`: "jdbc:" and the engine's name and ':', then the local
      marker, then `extra` unchanged. */
  function FormatUrl(engine: StorageType, memory: bool, realName: string, extra: string): (r: string)
    ensures |r| == |"jdbc:" + realName + ":"| + |LocalMarker(engine, memory)| + |extra|
    ensures StartsWith(r, "jdbc:" + realName + ":")
    ensures EndsWith(r, extra)
    ensures r[|"jdbc:" + realName + ":"|..|r| - |extra|] == LocalMarker(engine, memory)
  {
    var prefix := "jdbc:" + realName + ":";
    var r := prefix + LocalMarker(engine, memory) + extra;
    assert r[..|prefix|] == prefix;
    assert r[|prefix|..|r| - |extra|] == LocalMarker(engine, memory);
    r
  }

  /** What `build` passes to `formatUrl`: the path for a local engine, the
      server address otherwise. */
  function UrlTail(b: Builder): (r: string)
    requires IsLocal(b.engine) ==> b.path.Some?
    ensures IsLocal(b.engine) ==> r == b.path.value
    ensures !IsLocal(b.engine) && ':' !in b.host ==> ParseRemoteAddress(r) == Some(Address(b.host, b.port, b.database))
  {
    if IsLocal(b.engine) then b.path.value
    else
      assert ':' !in b.host ==> ParseRemoteAddress(RemoteAddress(b.host, b.port, b.database)) == Some(Address(b.host, b.port, b.database)) by {
        if ':' !in b.host {
          RemoteAddressRoundTrip(b.host, b.port, b.database);
        }
      }
      RemoteAddress(b.host, b.port, b.database)
  }

  // ---------------------------------------------------------------------
  // Driver class and URL
  // ---------------------------------------------------------------------

  /** `nullOrEmpty`. */
  predicate NullOrEmpty(value: Option<string>)
    ensures NullOrEmpty(value) <==> value in {None, Some("")}
  {
    value.None? || value.value == ""
  }

  /** `setDriverClassAndUrl`: each of the two values is filled in only when
      the configuration has none or an empty one; a value the caller set
      stays. */
  function SetDriverClassAndUrl(c: PoolConfig, driverClassName: string, jdbcUrl: string): (r: PoolConfig)
    ensures !NullOrEmpty(c.driverClassName) ==> r.driverClassName == c.driverClassName
    ensures NullOrEmpty(c.driverClassName) ==> r.driverClassName == Some(driverClassName)
    ensures !NullOrEmpty(c.jdbcUrl) ==> r.jdbcUrl == c.jdbcUrl
    ensures NullOrEmpty(c.jdbcUrl) ==> r.jdbcUrl == Some(jdbcUrl)
    ensures r.(driverClassName := c.driverClassName, jdbcUrl := c.jdbcUrl) == c
  {
    var c1 := if NullOrEmpty(c.driverClassName) then c.(driverClassName := Some(driverClassName)) else c;
    if NullOrEmpty(c1.jdbcUrl) then c1.(jdbcUrl := Some(jdbcUrl)) else c1
  }

  /** Filling in is final: once non-empty values are in place, a second
      call changes nothing. */
  lemma SetDriverClassAndUrlIdempotent(c: PoolConfig, d1: string, u1: string, d2: string, u2: string)
    requires d1 != "" && u1 != ""
    ensures var once := SetDriverClassAndUrl(c, d1, u1);
            SetDriverClassAndUrl(once, d2, u2) == once
  {
  }

  // ---------------------------------------------------------------------
  // build
  // ---------------------------------------------------------------------

  /** The performance settings this builder adds when optimisation is on. */
  const OptimizedProperties: Properties := map[
    "cachePrepStmts" := Flag(true),
    "prepStmtCacheSize" := Number(250),
    "prepStmtCacheSqlLimit" := Number(2048),
    "useServerPrepStmts" := Flag(true),
    "useLocalSessionState" := Flag(true),
    "rewriteBatchedStatements" := Flag(true),
    "cacheResultSetMetadata" := Flag(true),
    "cacheServerConfiguration" := Flag(true),
    "elideSetAutoCommits" := Flag(true),
    "maintainTimeStats" := Flag(false)]

  /** `addOptimizedProperties`: every optimisation entry is written over
      whatever the table held under that key. */
  function AddOptimizedProperties(props: Properties): (r: Properties)
    ensures forall k :: k in r <==> k in props || k in OptimizedProperties
    ensures forall k :: k in OptimizedProperties ==> r[k] == OptimizedProperties[k]
    ensures forall k :: k in props && k !in OptimizedProperties ==> r[k] == props[k]
  {
    props + OptimizedProperties
  }

  /** The configuration `build` hands to the pool, or the error it throws. */
  function ConfigFor(b: Builder, poolName: string, names: EngineNames): (r: Result<PoolConfig, BuildError>)
    ensures r.Err? <==> IsLocal(b.engine) && b.path.None?
    ensures r.Ok? ==> r.value.poolName == Some(poolName)
    ensures r.Ok? ==> r.value.(poolName := b.config.poolName, driverClassName := b.config.driverClassName,
                               jdbcUrl := b.config.jdbcUrl, dataSourceProperties := b.config.dataSourceProperties)
                      == b.config
    ensures r.Ok? ==>
              var own := if b.optimize then AddOptimizedProperties(b.properties) else b.properties;
              r.value.dataSourceProperties == b.config.dataSourceProperties + own
    ensures r.Ok? ==>
              (r.value.driverClassName ==
                 if NullOrEmpty(b.config.driverClassName) then Some(names.driver(b.engine)) else b.config.driverClassName)
    ensures r.Ok? ==>
              (r.value.jdbcUrl ==
                 if NullOrEmpty(b.config.jdbcUrl)
                 then Some(FormatUrl(b.engine, b.memory, names.realName(b.engine), UrlTail(b)))
                 else b.config.jdbcUrl)
  {
    if IsLocal(b.engine) && b.path.None? then Err(PathMissing)
    else
      var own := if b.optimize then AddOptimizedProperties(b.properties) else b.properties;
      var named := SetDataSourceProperties(b.config.(poolName := Some(poolName)), own);
      var url := FormatUrl(b.engine, b.memory, names.realName(b.engine), UrlTail(b));
      Ok(SetDriverClassAndUrl(named, names.driver(b.engine), url))
  }

  /** `build(poolName)`: the missing-path error, or a handle exactly when
      the probe connection succeeds. */
  function Build(b: Builder, poolName: string, names: EngineNames, probe: bool): (r: Result<Option<StorageDataSource>, BuildError>)
    ensures r.Err? <==> IsLocal(b.engine) && b.path.None?
    ensures r.Ok? ==> (r.value.Some? <==> probe)
    ensures r.Ok? && r.value.Some? ==>
              r.value.value == StorageDataSource(b.engine, ConfigFor(b, poolName, names).value)
  {
    match ConfigFor(b, poolName, names)
    case Err(e) => Err(e)
    case Ok(config) => Ok(if probe then Some(StorageDataSource(b.engine, config)) else None)
  }

  // ---------------------------------------------------------------------
  // Properties
  // ---------------------------------------------------------------------

  /** Optimisation is on by default for MySQL only, and `noOptimization`
      turns it off for good. */
  lemma OptimizeDefault(engine: StorageType, b: Builder)
    ensures New(engine).optimize <==> engine == MySQL
    ensures !NoOptimization(b).optimize
  {
  }

  /** With optimisation on, the built configuration holds the ten fixed
      settings whatever the caller put there; with it off, build adds none:
      the properties are exactly the configuration's own overlaid with the
      builder's table. */
  lemma OptimizationAfterBuild(b: Builder, poolName: string, names: EngineNames)
    requires !IsLocal(b.engine) || b.path.Some?
    ensures var p := ConfigFor(b, poolName, names).value.dataSourceProperties;
            && (b.optimize ==> forall k :: k in OptimizedProperties ==> k in p && p[k] == OptimizedProperties[k])
            && (!b.optimize ==> p == b.config.dataSourceProperties + b.properties)
  {
  }

  /** A URL the builder synthesises starts with "jdbc:", the engine's name
      and ':'. */
  lemma UrlPrefix(b: Builder, poolName: string, names: EngineNames)
    requires !IsLocal(b.engine) || b.path.Some?
    requires NullOrEmpty(b.config.jdbcUrl)
    ensures var url := ConfigFor(b, poolName, names).value.jdbcUrl;
            url.Some? && StartsWith(url.value, "jdbc:" + names.realName(b.engine) + ":")
  {
  }

  /** For a remote engine the memory flag has no effect, and the URL is
      "jdbc:<name>:" followed by the server address, from which host, port
      and database can be read back when the host has no ':'. */
  lemma RemoteUrl(b: Builder, poolName: string, names: EngineNames)
    requires !IsLocal(b.engine) && NullOrEmpty(b.config.jdbcUrl)
    ensures ConfigFor(b, poolName, names) == ConfigFor(Memory(b, !b.memory), poolName, names)
    ensures var url := ConfigFor(b, poolName, names).value.jdbcUrl.value;
            var prefix := "jdbc:" + names.realName(b.engine) + ":";
            && url == prefix + RemoteAddress(b.host, b.port, b.database)
            && (':' !in b.host ==>
                  ParseRemoteAddress(url[|prefix|..]) == Some(Address(b.host, b.port, b.database)))
  {
    var prefix := "jdbc:" + names.realName(b.engine) + ":";
    var address := RemoteAddress(b.host, b.port, b.database);
    var url := ConfigFor(b, poolName, names).value.jdbcUrl.value;
    assert url == prefix + "" + address;
    assert url[|prefix|..] == address;
    if ':' !in b.host {
      RemoteAddressRoundTrip(b.host, b.port, b.database);
    }
  }

  /** For a local engine the URL ends with the path, and the memory flag
      always shows in it: the two settings give different URLs. */
  lemma LocalUrl(b: Builder, poolName: string, names: EngineNames)
    requires IsLocal(b.engine) && b.path.Some? && NullOrEmpty(b.config.jdbcUrl)
    ensures var url := ConfigFor(b, poolName, names).value.jdbcUrl.value;
            EndsWith(url, b.path.value)
    ensures ConfigFor(b, poolName, names).value.jdbcUrl != ConfigFor(Memory(b, !b.memory), poolName, names).value.jdbcUrl
  {
    assert LocalMarker(b.engine, b.memory) != LocalMarker(b.engine, !b.memory);
  }

  /** A driver class or URL the caller configured (non-empty) survives the
      build unchanged. */
  lemma ExplicitSettingsWin(b: Builder, poolName: string, names: EngineNames)
    requires !IsLocal(b.engine) || b.path.Some?
    ensures var c := ConfigFor(b, poolName, names).value;
            && (!NullOrEmpty(b.config.driverClassName) ==> c.driverClassName == b.config.driverClassName)
            && (!NullOrEmpty(b.config.jdbcUrl) ==> c.jdbcUrl == b.config.jdbcUrl)
            && (NullOrEmpty(b.config.driverClassName) ==> c.driverClassName == Some(names.driver(b.engine)))
  {
  }

  /** The "portNumber" entry `port` records is the host: on a fresh builder
      it is "localhost", never the port number. */
  lemma PortRecordsHost(engine: StorageType, port: Int32)
    ensures var b := WithPort(New(engine), port);
            b.port == port && b.properties["portNumber"] == Text("localhost")
            && b.properties["portNumber"] != Number(port)
  {
  }

  /** The eight settings both builders' optimisation tables carry. */
  const SharedOptimizations: set<string> :=
    {"cachePrepStmts", "prepStmtCacheSize", "prepStmtCacheSqlLimit", "useServerPrepStmts",
     "useLocalSessionState", "cacheResultSetMetadata", "cacheServerConfiguration", "elideSetAutoCommits"}

  /** The two builders' optimisation tables share eight settings; each has
      two the other lacks. */
  lemma OptimizationTablesDiffer()
    ensures OptimizedProperties.Keys - ConnectionBuilders.OptimizedProperties.Keys
              == {"rewriteBatchedStatements", "maintainTimeStats"}
    ensures ConnectionBuilders.OptimizedProperties.Keys - OptimizedProperties.Keys
              == {"cacheCallableStmts", "alwaysSendSetIsolation"}
  {
    OptimizationKeys();
  }

  /** Each optimisation table is the shared settings plus two of its own. */
  lemma OptimizationKeys()
    ensures OptimizedProperties.Keys == SharedOptimizations + {"rewriteBatchedStatements", "maintainTimeStats"}
    ensures ConnectionBuilders.OptimizedProperties.Keys == SharedOptimizations + {"cacheCallableStmts", "alwaysSendSetIsolation"}
  {
    assert OptimizedProperties.Keys == SharedOptimizations + {"rewriteBatchedStatements", "maintainTimeStats"};
  }

  /** Where both optimisation tables have a setting, they give it the same
      value. */
  lemma OptimizationTablesAgree()
    ensures forall k :: k in OptimizedProperties && k in ConnectionBuilders.OptimizedProperties ==>
              OptimizedProperties[k] == ConnectionBuilders.OptimizedProperties[k]
  {
    OptimizationKeys();
    forall k | k in SharedOptimizations
      ensures OptimizedProperties[k] == ConnectionBuilders.OptimizedProperties[k]
    {
    }
  }
}
