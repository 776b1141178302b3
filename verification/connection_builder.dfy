/** The validated builder: collects connection fields, checks them, and
    produces a fixed-size pool configuration whose name is registered in a
    process-wide set once a liveness probe succeeds. The set is threaded
    through explicitly and the probe's outcome is an input. */
module ConnectionBuilders {
  import opened Optional
  import opened JavaText
  import opened Jdbc
  import opened StorageTypes
  import opened Hikari

  /** The builder's fields. */
  datatype ConnectionBuilder = ConnectionBuilder(
    engine: StorageType,
    path: string,
    host: string,
    database: string,
    username: string,
    password: string,
    port: Int32)

  /** Why a build produced no storage object; the first three are the
      warnings logged before any pool is created, the last one covers a
      failed connection attempt. */
  datatype Failure = AlreadyRegistered | InvalidInfo | MissingPath | ProbeFailed

  /** What the caller-supplied factory receives: the engine and the live
      pool, represented by the configuration it was created from. */
  datatype Storage = Storage(engine: StorageType, config: PoolConfig)

  /** The outcome of one build together with the pool-name registry after it. */
  datatype Attempt = Attempt(outcome: Result<Storage, Failure>, registry: set<string>)

  /** `create`: the host defaults to "localhost", every other string to the
      empty string and the port to 0. */
  function Create(engine: StorageType): (b: ConnectionBuilder)
    ensures b.engine == engine && b.host == "localhost" && b.port == 0
    ensures b.path == "" && b.database == "" && b.username == "" && b.password == ""
  {
    ConnectionBuilder(engine, "", "localhost", "", "", "", 0)
  }

  /** `path`: replaces the file path and nothing else. */
  function WithPath(b: ConnectionBuilder, path: string): (r: ConnectionBuilder)
    ensures r.path == path && r.(path := b.path) == b
  {
    b.(path := path)
  }

  /** `host`: replaces the host and nothing else. */
  function WithHost(b: ConnectionBuilder, host: string): (r: ConnectionBuilder)
    ensures r.host == host && r.(host := b.host) == b
  {
    b.(host := host)
  }

  /** `database`: replaces the database name and nothing else. */
  function WithDatabase(b: ConnectionBuilder, database: string): (r: ConnectionBuilder)
    ensures r.database == database && r.(database := b.database) == b
  {
    b.(database := database)
  }

  /** `username`: replaces the user name and nothing else. */
  function WithUsername(b: ConnectionBuilder, username: string): (r: ConnectionBuilder)
    ensures r.username == username && r.(username := b.username) == b
  {
    b.(username := username)
  }

  /** `password`: replaces the password and nothing else. */
  function WithPassword(b: ConnectionBuilder, password: string): (r: ConnectionBuilder)
    ensures r.password == password && r.(password := b.password) == b
  {
    b.(password := password)
  }

  /** `port`: replaces the port and nothing else. */
  function WithPort(b: ConnectionBuilder, port: Int32): (r: ConnectionBuilder)
    ensures r.port == port && r.(port := b.port) == b
  {
    b.(port := port)
  }

  // ---------------------------------------------------------------------
  // Validation
  // ---------------------------------------------------------------------

  /** Host, database, user name and password are all non-empty; this is
      demanded of local engines as well. */
  predicate HasConnectionInfo(b: ConnectionBuilder)
    ensures HasConnectionInfo(b) <==> "" !in {b.host, b.database, b.username, b.password}
  {
    b.host != "" && b.database != "" && b.username != "" && b.password != ""
  }

  /** A local engine has a non-empty file path. */
  predicate HasPathIfLocal(b: ConnectionBuilder)
    ensures !HasPathIfLocal(b) <==> b.engine in {SQLite, H2, HSQL} && b.path == ""
  {
    !IsLocal(b.engine) || b.path != ""
  }

  // ---------------------------------------------------------------------
  // Configuration synthesis
  // ---------------------------------------------------------------------

  /** The performance settings this builder adds for MySQL and MariaDB. */
  const OptimizedProperties: Properties := map[
    "cachePrepStmts" := Flag(true),
    "prepStmtCacheSize" := Number(250),
    "prepStmtCacheSqlLimit" := Number(2048),
    "useServerPrepStmts" := Flag(true),
    "cacheCallableStmts" := Flag(true),
    "cacheResultSetMetadata" := Flag(true),
    "cacheServerConfiguration" := Flag(true),
    "useLocalSessionState" := Flag(true),
    "elideSetAutoCommits" := Flag(true),
    "alwaysSendSetIsolation" := Flag(false)]

  /** The five data-source properties every configuration carries. */
  function ConnectionProperties(b: ConnectionBuilder): Properties {
    map[
      "serverName" := Text(b.host),
      "portNumber" := Number(b.port),
      "databaseName" := Text(b.database),
      "user" := Text(b.username),
      "password" := Text(b.password)]
  }

  /** The optimisation table applies: requested, and a MySQL-family engine. */
  predicate Optimizes(engine: StorageType, optimize: bool) {
    optimize && (engine == MariaDB || engine == MySQL)
  }

  /** The driver class set for each engine, if any. */
  function DriverClassFor(engine: StorageType): (r: Option<string>)
    ensures r.None? <==> engine in {MariaDB, PostgreSQL}
    ensures r.Some? ==> r.value != ""
  {
    match engine
    case MySQL => Some("com.mysql.cj.jdbc.Driver")
    case MariaDB | PostgreSQL => None
    case SQLite => Some("org.sqlite.JDBC")
    case H2 => Some("org.h2.Driver")
    case HSQL => Some("org.hsqldb.jdbc.JDBCDriver")
  }

  /** The data-source class set for each engine, if any. */
  function DataSourceClassFor(engine: StorageType): (r: Option<string>)
    ensures r.Some? <==> engine in {MariaDB, PostgreSQL}
    ensures r.Some? ==> EndsWith(r.value, "DataSource")
  {
    match engine
    case MariaDB => Some("org.mariadb.jdbc.MariaDbDataSource")
    case PostgreSQL => Some("org.postgresql.ds.PGSimpleDataSource")
    case MySQL | SQLite | H2 | HSQL => None
  }

  /** The JDBC URL set for each engine, if any. */
  function JdbcUrlFor(b: ConnectionBuilder): (r: Option<string>)
    ensures r.None? <==> b.engine in {MariaDB, PostgreSQL}
    ensures r.Some? ==> StartsWith(r.value, "jdbc:")
  {
    match b.engine
    case MySQL => Some("jdbc:mysql:" + RemoteAddress(b.host, b.port, b.database))
    case MariaDB | PostgreSQL => None
    case SQLite => Some("jdbc:sqlite:" + b.path)
    case H2 => Some("jdbc:h2:" + b.path)
    case HSQL => Some("jdbc:hsqldb:file:" + b.path)
  }

  /** Every engine is wired one way: a driver class with a URL, or a
      data-source class with neither; only MariaDB and PostgreSQL take the
      data-source route. */
  lemma WiringIsExclusive(b: ConnectionBuilder)
    ensures DriverClassFor(b.engine).Some? <==> JdbcUrlFor(b).Some?
    ensures DataSourceClassFor(b.engine).Some? <==> JdbcUrlFor(b).None?
    ensures JdbcUrlFor(b).None? <==> b.engine in {MariaDB, PostgreSQL}
  {
  }

  /** No connection property is also an optimisation setting. */
  lemma PropertyTablesDisjoint(b: ConnectionBuilder)
    ensures ConnectionProperties(b).Keys !! OptimizedProperties.Keys
  {
    var keys := ConnectionProperties(b).Keys;
    assert keys == {"serverName", "portNumber", "databaseName", "user", "password"};
  }

  /** The data-source properties: the five connection values, plus the
      optimisation table exactly when it applies. */
  function DataSourcePropertiesFor(b: ConnectionBuilder, optimize: bool): (p: Properties)
    ensures forall k :: k in p <==> k in ConnectionProperties(b) || (Optimizes(b.engine, optimize) && k in OptimizedProperties)
    ensures forall k :: k in ConnectionProperties(b) ==> p[k] == ConnectionProperties(b)[k]
    ensures forall k :: k in OptimizedProperties ==> (k in p <==> Optimizes(b.engine, optimize))
    ensures Optimizes(b.engine, optimize) ==>
              forall k :: k in OptimizedProperties ==> p[k] == OptimizedProperties[k]
  {
    PropertyTablesDisjoint(b);
    ConnectionProperties(b) + (if Optimizes(b.engine, optimize) then OptimizedProperties else map[])
  }

  /** The configuration handed to the pool once validation has passed. */
  function PoolConfigFor(b: ConnectionBuilder, poolName: string, optimize: bool): (c: PoolConfig)
    ensures c.poolName == Some(poolName)
    ensures c.maximumPoolSize == Some(5) && c.minimumIdle == Some(3)
    ensures c.username.None? && c.password.None?
    ensures c.dataSourceProperties == DataSourcePropertiesFor(b, optimize)
    ensures c.driverClassName == DriverClassFor(b.engine)
    ensures c.dataSourceClassName == DataSourceClassFor(b.engine)
    ensures c.jdbcUrl == JdbcUrlFor(b)
  {
    var sized := EmptyConfig.(poolName := Some(poolName), maximumPoolSize := Some(5), minimumIdle := Some(3));
    var withProps := SetDataSourceProperties(sized, DataSourcePropertiesFor(b, optimize));
    withProps.(driverClassName := DriverClassFor(b.engine),
               jdbcUrl := JdbcUrlFor(b),
               dataSourceClassName := DataSourceClassFor(b.engine))
  }

  /** A successful configuration carries the builder's five connection
      values, and the ten optimisation keys exactly when `optimize` is set
      and the engine is MySQL or MariaDB. */
  lemma ConfigProperties(b: ConnectionBuilder, poolName: string, optimize: bool)
    ensures var p := PoolConfigFor(b, poolName, optimize).dataSourceProperties;
            && p["serverName"] == Text(b.host)
            && p["portNumber"] == Number(b.port)
            && p["databaseName"] == Text(b.database)
            && p["user"] == Text(b.username)
            && p["password"] == Text(b.password)
            && (forall k :: k in OptimizedProperties ==>
                  (k in p <==> optimize && (b.engine == MariaDB || b.engine == MySQL)))
            && (forall k :: k in p && k !in ConnectionProperties(b) ==> k in OptimizedProperties)
  {
    var p := PoolConfigFor(b, poolName, optimize).dataSourceProperties;
    var base := ConnectionProperties(b);
    assert "serverName" in base && "portNumber" in base && "databaseName" in base;
    assert "user" in base && "password" in base;
  }

  // ---------------------------------------------------------------------
  // build
  // ---------------------------------------------------------------------

  /** `build(poolName, logger, optimize)`: the three guards in order, then
      the configuration, then the probe; the name joins the registry only
      when the probe succeeds. */
  function Build(b: ConnectionBuilder, poolName: string, optimize: bool, registry: set<string>, probe: bool): (r: Attempt)
    ensures r.outcome.Ok? <==>
              poolName !in registry && HasConnectionInfo(b) && HasPathIfLocal(b) && probe
    ensures r.registry == (if r.outcome.Ok? then registry + {poolName} else registry)
    ensures poolName in registry ==> r.outcome == Err(AlreadyRegistered)
    ensures poolName !in registry && !HasConnectionInfo(b) ==> r.outcome == Err(InvalidInfo)
    ensures poolName !in registry && HasConnectionInfo(b) && !HasPathIfLocal(b) ==> r.outcome == Err(MissingPath)
    ensures r.outcome.Ok? ==> r.outcome.value == Storage(b.engine, PoolConfigFor(b, poolName, optimize))
  {
    if poolName in registry then Attempt(Err(AlreadyRegistered), registry)
    else if b.host == "" || b.database == "" || b.username == "" || b.password == "" then
      Attempt(Err(InvalidInfo), registry)
    else if IsLocal(b.engine) && b.path == "" then Attempt(Err(MissingPath), registry)
    else
      var config := PoolConfigFor(b, poolName, optimize);
      if probe then Attempt(Ok(Storage(b.engine, config)), registry + {poolName})
      else Attempt(Err(ProbeFailed), registry)
  }

  /** `build(poolName, logger)`: optimisation on. */
  function BuildOptimized(b: ConnectionBuilder, poolName: string, registry: set<string>, probe: bool): (r: Attempt)
    ensures r == Build(b, poolName, true, registry, probe)
    ensures r.outcome.Ok? && (b.engine == MySQL || b.engine == MariaDB) ==>
              OptimizedProperties.Keys <= r.outcome.value.config.dataSourceProperties.Keys
  {
    Build(b, poolName, true, registry, probe)
  }

  // ---------------------------------------------------------------------
  // Properties
  // ---------------------------------------------------------------------

  /** The registry only ever grows, and by at most the requested name. */
  lemma RegistryGrowsByName(b: ConnectionBuilder, poolName: string, optimize: bool, registry: set<string>, probe: bool)
    ensures registry <= Build(b, poolName, optimize, registry, probe).registry <= registry + {poolName}
  {
  }

  /** Once a build registered a name, every later build with that name
      fails and leaves the registry unchanged. */
  lemma SecondBuildRejected(b1: ConnectionBuilder, b2: ConnectionBuilder, poolName: string, o1: bool, o2: bool,
                            registry: set<string>, p1: bool, p2: bool)
    requires Build(b1, poolName, o1, registry, p1).outcome.Ok?
    ensures var first := Build(b1, poolName, o1, registry, p1);
            Build(b2, poolName, o2, first.registry, p2) == Attempt(Err(AlreadyRegistered), first.registry)
  {
  }

  /** A builder straight from `create` never connects: its database, user
      name and password are empty. */
  lemma FreshBuilderFails(engine: StorageType, poolName: string, optimize: bool, registry: set<string>, probe: bool)
    ensures var r := Build(Create(engine), poolName, optimize, registry, probe);
            r.outcome.Err? && r.registry == registry
  {
  }

  /** The MySQL URL is the remote address after "jdbc:mysql:", and it
      gives host, port and database back when the host has no ':'. */
  lemma MysqlUrlRecoversAddress(b: ConnectionBuilder)
    requires b.engine == MySQL && ':' !in b.host
    ensures var url := JdbcUrlFor(b);
            url.Some? && StartsWith(url.value, "jdbc:mysql://")
            && ParseRemoteAddress(url.value[|"jdbc:mysql:"|..]) == Some(Address(b.host, b.port, b.database))
  {
    var address := RemoteAddress(b.host, b.port, b.database);
    var url := JdbcUrlFor(b).value;
    assert url == "jdbc:mysql:" + address;
    StartsWithAppend("jdbc:mysql:", address, "//");
    assert "jdbc:mysql:" + "//" == "jdbc:mysql://";
    assert url[|"jdbc:mysql:"|..] == address;
    RemoteAddressRoundTrip(b.host, b.port, b.database);
  }

  /** Each local engine's URL is its fixed prefix followed by the path
      verbatim. */
  lemma LocalUrlEndsWithPath(b: ConnectionBuilder)
    requires IsLocal(b.engine)
    ensures var url := JdbcUrlFor(b);
            url.Some? && EndsWith(url.value, b.path)
            && url.value[..|url.value| - |b.path|] ==
                 (match b.engine
                  case SQLite => "jdbc:sqlite:"
                  case H2 => "jdbc:h2:"
                  case _ => "jdbc:hsqldb:file:")
  {
  }
}
