# Storage: connection builders, engine catalogue and SQL script reader

A Dafny model of the core of the Storage library (package `me.moros.storage`).
The library turns a chosen database engine and some partial connection
settings into a pooled connection configuration. It also splits SQL schema
scripts into single statements.

- `StorageTypes` (`storage_type.dfy`) is the engine catalogue. It lists six
  engines: three remote servers (MySQL, MariaDB, PostgreSQL) and three local
  file databases (SQLite, H2, HSQL). Each engine has a display name, a schema
  file name and a local flag. `parse` looks an engine up by name, ignoring case.
- `ConnectionBuilders` (`connection_builder.dfy`) is the validated builder.
  `build` applies three guards in order: the pool name is not yet
  registered, the connection information is non-empty, and a local engine
  has a path. It then produces a fixed pool configuration: five connections
  at most, three idle, the five connection properties, and the MySQL/MariaDB
  optimisation table when that is requested. The driver class, JDBC URL or
  data-source class depends on the engine. The process-wide set of pool
  names is passed in and returned explicitly. Whether the connection probe
  succeeds is an input.
- `Builders` (`builder.dfy`) is the flexible builder. Its setters also
  write data-source properties. Callers can adjust the pool configuration
  and the property table through function arguments. The builder has an
  optimisation switch and an in-memory switch. `build` fills in the driver
  class and JDBC URL only where the caller left them null or empty.
- `SqlStreamReader` (`sql_stream_reader.dfy`) is `parseQueries`. It is
  modelled twice:
  - as a fold over the script's lines (`ParseQueries`);
  - as the reading loop itself (`ParseQueriesLoop`, with one iteration in `ReadLine`).

  A reference definition, "statements cut at closing lines, trimmed, blanks
  dropped", is proved equal to the fold.
- Supporting modules:
  - `JavaText`: Java's `trim`, `startsWith`, `endsWith`,
    `equalsIgnoreCase` and `Integer.toString`, with a parser as its inverse;
  - `Jdbc`: the `//host:port/database` server address and its parser;
  - `Hikari`: the pool configuration record and `setDataSourceProperties`;
  - `Optional`: `Option` and `Result`.

In `Builders`, a Java `null` becomes `None`, and the exception `build`
throws becomes `Err(PathMissing)`. `ConnectionBuilders.Build` returns null
in four places (`ConnectionBuilder.java:134`, `:138`, `:142` and `:199`).
The model returns `Err` in each case, carrying the reason:
`AlreadyRegistered`, `InvalidInfo`, `MissingPath` or `ProbeFailed`. The port
is a Java `int`, modelled as the subset type `Int32`.

Facts about the code that shape the model:
- MySQL, MariaDB and PostgreSQL are remote; SQLite, H2 and HSQL are local.
- In memory, HSQL gets the URL marker "mem:". Out of memory it gets "file:".
- The flexible builder synthesises a JDBC URL for remote engines too.
- The flexible builder records "serverName", "portNumber" and
  "databaseName" only when the matching setter is called.
- The flexible builder's `port` setter records the current host, not the
  port, under "portNumber" (`Builder.java:116`). The model keeps this as
  written, and `Builders.PortRecordsHost` states it.
- `equalsIgnoreCase` compares chars after `Character.toUpperCase`, then
  after `Character.toLowerCase` of those. So beyond ASCII, 'ı' and 'İ'
  match 'i', 'ſ' matches 's', and the Kelvin sign matches 'k'.
  "marıadb" therefore parses to MariaDB.

`Builder.java` calls `engine.driver()` and `engine.realName()`, but
`StorageType.java` defines neither. The model therefore takes them as the
`EngineNames` parameter.

## Model

| member | source | states |
|---|---|---|
| StorageTypes.FindByName | src/main/java/me/moros/storage/StorageType.java:93 | the result is an engine of the list whose name matches ignoring case when one exists, and the default when none does |
| StorageTypes.Parse | src/main/java/me/moros/storage/StorageType.java:92-94 | if some engine's display name equals the input ignoring case, the result is such an engine; otherwise it is the default |
| StorageTypes.NamesDistinctIgnoringCase | src/main/java/me/moros/storage/StorageType.java:32-53 | two engines' display names are equal ignoring case exactly when they are the same engine, so the match `parse` finds is unique |
| StorageTypes.ParseCharacterization | src/main/java/me/moros/storage/StorageType.java:92-94 | `parse` returns an engine exactly when the input matches its name ignoring case, or when nothing matches and it is the default |
| StorageTypes.ParseName | src/main/java/me/moros/storage/StorageType.java:82-94 | round trip: parsing an engine's `toString` gives that engine, whatever the default |
| StorageTypes.ParseIgnoresCase | src/main/java/me/moros/storage/StorageType.java:92-94 | inputs equal ignoring case parse to the same engine |
| StorageTypes.ParseLowerCase | src/main/java/me/moros/storage/StorageType.java:92-94 | "mysql" parses to MySQL |
| StorageTypes.UnknownIsNoName | src/main/java/me/moros/storage/StorageType.java:32-53 | no engine's display name equals "unknown" ignoring case |
| StorageTypes.ParseUnknown | src/main/java/me/moros/storage/StorageType.java:92-94 | "unknown" parses to the default |
| StorageTypes.IsLocal | src/main/java/me/moros/storage/StorageType.java:77-79 | `isLocal` holds exactly for SQLite, H2 and HSQL, and fails exactly for MySQL, MariaDB and PostgreSQL |
| StorageTypes.Name | src/main/java/me/moros/storage/StorageType.java:81-84 | `toString` gives the display name, at least two chars, all ASCII letters or digits |
| StorageTypes.SchemaPath | src/main/java/me/moros/storage/StorageType.java:69-71 | `schemaPath` gives a file name ending in ".sql" with a non-empty stem |
| StorageTypes.ParseDotlessI | src/main/java/me/moros/storage/StorageType.java:92-94 | "marıadb", with a dotless i, parses to MariaDB, as Java's case mapping matches 'ı' with 'I' |
| StorageTypes.SharedSchemaPath | src/main/java/me/moros/storage/StorageType.java:32-71 | two engines share a schema file exactly when they are equal or are MySQL and MariaDB, whose file is "mariadb.sql" |
| JavaText.Trim | src/main/java/me/moros/storage/SqlStreamReader.java:44 | `trim` returns a text that neither starts nor ends with a char at or below ' ', and is no longer than its input |
| JavaText.TrimStartDropsSpaces | src/main/java/me/moros/storage/SqlStreamReader.java:44 | everything trimming removes from the front is chars at or below ' ' |
| JavaText.TrimEndDropsSpaces | src/main/java/me/moros/storage/SqlStreamReader.java:44 | everything trimming removes from the back is chars at or below ' ' |
| JavaText.TrimEmptyIffBlank | src/main/java/me/moros/storage/SqlStreamReader.java:44-45 | a text trims to the empty string exactly when every char is at or below ' ' |
| JavaText.TrimTrimmed | src/main/java/me/moros/storage/SqlStreamReader.java:44 | trimming an already trimmed text changes nothing |
| JavaText.CharEqualsIgnoreCaseFold | src/main/java/me/moros/storage/StorageType.java:93 | two chars match ignoring case exactly when the lower case of their upper case is the same char |
| JavaText.AsciiLetterMatches | src/main/java/me/moros/storage/StorageType.java:93 | the chars matching an ASCII letter ignoring case are the letter, its other case, and 'ı' or 'İ' for i, 'ſ' for s and the Kelvin sign for k |
| JavaText.EqualsIgnoreCaseIsEquivalence | src/main/java/me/moros/storage/StorageType.java:93 | `equalsIgnoreCase` is reflexive, symmetric and transitive |
| JavaText.IntToString | src/main/java/me/moros/storage/ConnectionBuilder.java:173 | the decimal text of an int is non-empty, has only digits and '-', and starts with '-' exactly when the number is negative |
| JavaText.NatToStringValue | src/main/java/me/moros/storage/ConnectionBuilder.java:173 | the digits written for a natural number read back as that number |
| JavaText.IntToStringRoundTrip | src/main/java/me/moros/storage/ConnectionBuilder.java:173 | parsing the decimal text of an int gives the int back |
| Jdbc.RemoteAddress | src/main/java/me/moros/storage/Builder.java:173 | the server address starts with "//", ends with the database, and is four chars longer than host, port text and database together |
| Jdbc.PortAndDatabaseRoundTrip | src/main/java/me/moros/storage/ConnectionBuilder.java:173 | the text "port/database" reads back as the port and the database |
| Jdbc.RemoteAddressRoundTrip | src/main/java/me/moros/storage/ConnectionBuilder.java:173 | a host without ':' makes "//host:port/database" read back as host, port and database |
| Hikari.SetDataSourceProperties | src/main/java/me/moros/storage/Builder.java:172 | the configuration's properties gain every key of the table, with the table's values winning; its own other entries and every other field stay |
| ConnectionBuilders.Create | src/main/java/me/moros/storage/ConnectionBuilder.java:40-50 | a new builder has host "localhost", port 0, and an empty path, database, user name and password |
| ConnectionBuilders.WithPath | src/main/java/me/moros/storage/ConnectionBuilder.java:59-62 | `path` replaces the path and leaves every other field as it was |
| ConnectionBuilders.WithHost | src/main/java/me/moros/storage/ConnectionBuilder.java:69-72 | `host` replaces the host and leaves every other field as it was |
| ConnectionBuilders.WithDatabase | src/main/java/me/moros/storage/ConnectionBuilder.java:79-82 | `database` replaces the database and leaves every other field as it was |
| ConnectionBuilders.WithUsername | src/main/java/me/moros/storage/ConnectionBuilder.java:89-92 | `username` replaces the user name and leaves every other field as it was |
| ConnectionBuilders.WithPassword | src/main/java/me/moros/storage/ConnectionBuilder.java:99-102 | `password` replaces the password and leaves every other field as it was |
| ConnectionBuilders.WithPort | src/main/java/me/moros/storage/ConnectionBuilder.java:109-112 | `port` replaces the port and leaves every other field as it was |
| ConnectionBuilders.HasConnectionInfo | src/main/java/me/moros/storage/ConnectionBuilder.java:136 | the information guard passes exactly when none of host, database, user name and password is the empty string |
| ConnectionBuilders.HasPathIfLocal | src/main/java/me/moros/storage/ConnectionBuilder.java:140 | the path guard fails exactly for SQLite, H2 or HSQL with an empty path |
| ConnectionBuilders.DriverClassFor | src/main/java/me/moros/storage/ConnectionBuilder.java:170-189 | every engine except MariaDB and PostgreSQL gets a non-empty driver class |
| ConnectionBuilders.DataSourceClassFor | src/main/java/me/moros/storage/ConnectionBuilder.java:170-189 | exactly MariaDB and PostgreSQL get a data-source class, and its name ends in "DataSource" |
| ConnectionBuilders.JdbcUrlFor | src/main/java/me/moros/storage/ConnectionBuilder.java:170-189 | every engine except MariaDB and PostgreSQL gets a URL, and each URL starts with "jdbc:" |
| ConnectionBuilders.WiringIsExclusive | src/main/java/me/moros/storage/ConnectionBuilder.java:170-189 | an engine gets a driver class exactly when it gets a URL, and a data-source class exactly when it gets no URL; only MariaDB and PostgreSQL get no URL |
| ConnectionBuilders.PropertyTablesDisjoint | src/main/java/me/moros/storage/ConnectionBuilder.java:151-167 | the five connection keys and the ten optimisation keys do not overlap, so neither table overwrites the other |
| ConnectionBuilders.DataSourcePropertiesFor | src/main/java/me/moros/storage/ConnectionBuilder.java:151-168 | the properties are the five connection values plus the optimisation table, the latter exactly when optimisation is requested for MySQL or MariaDB |
| ConnectionBuilders.PoolConfigFor | src/main/java/me/moros/storage/ConnectionBuilder.java:147-189 | the configuration has the pool name, a maximum pool size of 5 and a minimum of 3 idle connections, no user name or password fields, those properties, and the engine's driver class, data-source class and URL |
| ConnectionBuilders.ConfigProperties | src/main/java/me/moros/storage/ConnectionBuilder.java:151-168 | each connection key maps to its builder value; an optimisation key is present exactly when optimisation is requested for MySQL or MariaDB; no other key appears |
| ConnectionBuilders.Build | src/main/java/me/moros/storage/ConnectionBuilder.java:131-200 | the guards fail in order with their own error; a storage object comes back exactly when the name is new, the information is complete, a local engine has a path and the probe succeeds; only then does the name join the registry |
| ConnectionBuilders.BuildOptimized | src/main/java/me/moros/storage/ConnectionBuilder.java:120-122 | the two-argument `build` is `build` with optimisation on, so a MySQL or MariaDB storage carries every optimisation key |
| ConnectionBuilders.RegistryGrowsByName | src/main/java/me/moros/storage/ConnectionBuilder.java:190-199 | a build keeps every registered name and adds at most its own |
| ConnectionBuilders.SecondBuildRejected | src/main/java/me/moros/storage/ConnectionBuilder.java:132-135 | after a successful build, any build with the same pool name fails as already registered and changes nothing |
| ConnectionBuilders.FreshBuilderFails | src/main/java/me/moros/storage/ConnectionBuilder.java:136-139 | a builder straight from `create` never yields a storage object and never registers its name |
| ConnectionBuilders.MysqlUrlRecoversAddress | src/main/java/me/moros/storage/ConnectionBuilder.java:171-174 | the MySQL URL starts with "jdbc:mysql://", and host, port and database can be read back from it when the host has no ':' |
| ConnectionBuilders.LocalUrlEndsWithPath | src/main/java/me/moros/storage/ConnectionBuilder.java:177-188 | a local engine's URL is "jdbc:sqlite:", "jdbc:h2:" or "jdbc:hsqldb:file:" followed by the path verbatim |
| Builders.New | src/main/java/me/moros/storage/Builder.java:49-54 | a new builder has host "localhost", no path, nothing configured, memory off, and optimisation on exactly for MySQL |
| Builders.WithPath | src/main/java/me/moros/storage/Builder.java:62-65 | `path` sets the path and nothing else |
| Builders.WithHost | src/main/java/me/moros/storage/Builder.java:72-76 | `host` sets the host and records it under "serverName"; every other key keeps its value and no other field changes |
| Builders.WithDatabase | src/main/java/me/moros/storage/Builder.java:83-87 | `database` sets the database and records it under "databaseName"; every other key keeps its value and no other field changes |
| Builders.WithPort | src/main/java/me/moros/storage/Builder.java:114-118 | `port` sets the port and records the current host under "portNumber"; every other key keeps its value and no other field changes |
| Builders.WithUsername | src/main/java/me/moros/storage/Builder.java:94-97 | `username` sets the configuration's user name, which may be null, and nothing else |
| Builders.WithPassword | src/main/java/me/moros/storage/Builder.java:104-107 | `password` sets the configuration's password, which may be null, and nothing else |
| Builders.Configure | src/main/java/me/moros/storage/Builder.java:125-128 | `configure` applies the caller's change to the pool configuration and touches nothing else |
| Builders.WithProperties | src/main/java/me/moros/storage/Builder.java:135-138 | `properties` applies the caller's change to the property table and touches nothing else |
| Builders.NoOptimization | src/main/java/me/moros/storage/Builder.java:144-147 | `noOptimization` turns optimisation off and changes nothing else |
| Builders.Memory | src/main/java/me/moros/storage/Builder.java:154-157 | `memory` sets the in-memory flag and changes nothing else |
| Builders.LocalMarker | src/main/java/me/moros/storage/Builder.java:186-192 | a remote engine gets no marker; in memory, SQLite gets ":memory:" and H2 and HSQL get "mem:"; otherwise only HSQL gets "file:" |
| Builders.UrlTail | src/main/java/me/moros/storage/Builder.java:173 | a local engine's URL tail is its path; a remote engine's tail is the server address, which gives back host, port and database when the host has no ':' |
| Builders.NullOrEmpty | src/main/java/me/moros/storage/Builder.java:205-207 | `nullOrEmpty` holds exactly for null and the empty string |
| Builders.FormatUrl | src/main/java/me/moros/storage/Builder.java:183-194 | the URL is "jdbc:", the engine's name and ':', then the local marker, then the given tail unchanged |
| Builders.SetDriverClassAndUrl | src/main/java/me/moros/storage/Builder.java:196-207 | a driver class or URL that is null or empty is filled in with the given value; a non-empty one is kept; no other field changes |
| Builders.SetDriverClassAndUrlIdempotent | src/main/java/me/moros/storage/Builder.java:196-203 | once non-empty values are filled in, a second call changes nothing |
| Builders.AddOptimizedProperties | src/main/java/me/moros/storage/Builder.java:209-221 | the ten optimisation entries are written over whatever the table held under those keys; all other entries stay |
| Builders.ConfigFor | src/main/java/me/moros/storage/Builder.java:164-174 | a local engine without a path is an error; otherwise the configuration is the caller's, with the pool name set and the builder's properties merged in after optimisation, and with the driver class and URL filled in only where they were unset |
| Builders.Build | src/main/java/me/moros/storage/Builder.java:164-181 | `build` fails exactly for a local engine without a path; otherwise it returns a handle exactly when the probe connection succeeds |
| Builders.OptimizeDefault | src/main/java/me/moros/storage/Builder.java:144-147 | optimisation starts on only for MySQL, and `noOptimization` turns it off |
| Builders.OptimizationAfterBuild | src/main/java/me/moros/storage/Builder.java:169-172 | with optimisation on, the built properties hold the ten fixed settings whatever the caller put there; with it off, they are the configuration's own overlaid with the builder's table |
| Builders.UrlPrefix | src/main/java/me/moros/storage/Builder.java:183-185 | a synthesised URL starts with "jdbc:", the engine's name and ':' |
| Builders.RemoteUrl | src/main/java/me/moros/storage/Builder.java:173-193 | for a remote engine the memory flag changes nothing; the URL is the prefix followed by the server address, and that gives back host, port and database when the host has no ':' |
| Builders.LocalUrl | src/main/java/me/moros/storage/Builder.java:183-194 | for a local engine the URL ends with the path, and switching the memory flag always changes the URL |
| Builders.ExplicitSettingsWin | src/main/java/me/moros/storage/Builder.java:196-203 | a driver class or URL the caller set to a non-empty value survives `build`; an unset driver class becomes the engine's driver |
| Builders.PortRecordsHost | src/main/java/me/moros/storage/Builder.java:114-118 | on a new builder, `port` records "localhost" under "portNumber", never the port number |
| Builders.OptimizationTablesDiffer | src/main/java/me/moros/storage/Builder.java:209-221 | this table has "rewriteBatchedStatements" and "maintainTimeStats", which the validated builder's table lacks; that table has "cacheCallableStmts" and "alwaysSendSetIsolation", which this one lacks |
| Builders.OptimizationTablesAgree | src/main/java/me/moros/storage/Builder.java:209-221 | a setting in both optimisation tables has the same value in each |
| SqlStreamReader.LineTests | src/main/java/me/moros/storage/SqlStreamReader.java:40-42 | a line is a comment exactly when it starts with "--", and closes a statement exactly when it ends with ';' |
| SqlStreamReader.Emit | src/main/java/me/moros/storage/SqlStreamReader.java:43-47 | closing a statement adds at most one query |
| SqlStreamReader.NextPending | src/main/java/me/moros/storage/SqlStreamReader.java:40-49 | after a line the buffer is unchanged, extended by the line, or cleared; a buffer not ending in ';' never comes to end in ';' |
| SqlStreamReader.ParseFrom | src/main/java/me/moros/storage/SqlStreamReader.java:39-50 | reading lines yields no more queries than there are non-comment lines ending in ';' |
| SqlStreamReader.StepQueries | src/main/java/me/moros/storage/SqlStreamReader.java:40-49 | a line adds a query only if it is not a comment and ends with ';', and adds at most one |
| SqlStreamReader.ParseFromWellFormed | src/main/java/me/moros/storage/SqlStreamReader.java:39-50 | whatever text is pending, every query read is non-empty and trimmed, and there are no more queries than closing lines |
| SqlStreamReader.ParseQueries | src/main/java/me/moros/storage/SqlStreamReader.java:34-55 | every returned query is non-empty and trimmed, and there are at most as many as there are non-comment lines ending in ';' |
| SqlStreamReader.ReadLine | src/main/java/me/moros/storage/SqlStreamReader.java:40-49 | one pass of the loop adds exactly the queries of one fold step and leaves the buffer the fold carries forward |
| SqlStreamReader.ParseQueriesLoop | src/main/java/me/moros/storage/SqlStreamReader.java:34-55 | the reading loop with its growing buffer returns exactly the fold's queries, each non-empty and trimmed |
| SqlStreamReader.CommentsIgnored | src/main/java/me/moros/storage/SqlStreamReader.java:40 | dropping comment lines changes neither the queries nor the pending text |
| SqlStreamReader.ParseFromTrimsStatements | src/main/java/me/moros/storage/SqlStreamReader.java:43-46 | the queries are the closed statement texts, each trimmed, with the empty ones dropped |
| SqlStreamReader.StatementsUpToTerminator | src/main/java/me/moros/storage/SqlStreamReader.java:41-48 | reading code up to its first closing line closes one statement: the pending text and those lines, joined without separator, minus the final ';' |
| SqlStreamReader.NoTerminatorNoStatements | src/main/java/me/moros/storage/SqlStreamReader.java:41-42 | code without a closing line closes no statement |
| SqlStreamReader.StatementsFromCode | src/main/java/me/moros/storage/SqlStreamReader.java:39-50 | on comment-free code the loop closes exactly the statements cut at the closing lines, in order |
| SqlStreamReader.QueriesAreStatements | src/main/java/me/moros/storage/SqlStreamReader.java:34-55 | the queries of a script are its statements cut at closing lines, trimmed and with blanks dropped; comment lines are ignored and lines are joined without separator |
| SqlStreamReader.ParseAppend | src/main/java/me/moros/storage/SqlStreamReader.java:39-50 | the queries of a + b are those of a followed by those of b read with a's leftover text |
| SqlStreamReader.UnterminatedEmitsNothing | src/main/java/me/moros/storage/SqlStreamReader.java:42 | lines that close no statement yield no query, whatever is pending |
| SqlStreamReader.TailDropped | src/main/java/me/moros/storage/SqlStreamReader.java:39-54 | an unterminated tail is dropped: appending it leaves the queries unchanged |
| SqlStreamReader.QueriesInOrder | src/main/java/me/moros/storage/SqlStreamReader.java:39-50 | when a ends on a statement boundary, the queries of a + b are those of a followed by those of b |
| SqlStreamReader.BlankAndUnterminatedYieldNothing | src/main/java/me/moros/storage/SqlStreamReader.java:44-46 | a line " ;" followed by an unterminated line yields no query |
| SqlStreamReader.Example | src/main/java/me/moros/storage/SqlStreamReader.java:34-55 | the script "-- a", "SELECT", " 1;", " ;", "DROP" yields exactly "SELECT 1" |

## Left out

- Logging: the warnings, the info line and the printed stack trace have no effect on results, so they are not modelled.
- Reading the input stream: UTF-8 decoding, `BufferedReader` line splitting and the `IOException` path are not modelled. The script is given as its sequence of lines. On an I/O error the source returns the queries read so far; the model has no such error.
- `HikariDataSource` itself: creating the pool and `getConnection` are reduced to the boolean `probe`. Its constructor's exceptions, `SQLException`, and closing the probe connection are not modelled.
- ConnectionBuilders.Build: the caller's `StorageCreator` factory is represented by the returned `Storage(engine, config)`. The logger it receives is not modelled. `StorageCreator.java` is not part of this model.
- ConnectionBuilders.Build: a `getConnection()` that returns null without throwing is treated like a failed probe, as both give null.
- Builders.Build: the handle `SimpleStorage` is represented by `StorageDataSource(engine, config)`. The "connection path is missing" exception becomes the `Err(PathMissing)` value.
- Builders.ConfigFor: `HikariConfig.setDriverClassName` loads the driver class and can throw. That class loading is not modelled.
- ConnectionBuilders.Build: for MySQL, SQLite, H2 and HSQL, `HikariConfig.setDriverClassName` (`ConnectionBuilder.java:172-186`) loads the driver class before the `try` and throws a runtime exception when it cannot be loaded; that exception escapes `build` rather than giving null. Class loading is not modelled, so the model returns `Ok` or `Err(ProbeFailed)` there according to the probe input.
- `engine.driver()` and `engine.realName()`: their values are not in `StorageType.java`, so `Builders` takes them as the `EngineNames` parameter.
- Builders.WithPath: `Path.toString()` is taken to be the path text itself. `requireNonNull` on `path`, `host` and `database` is not modelled, since strings cannot be null here.
- JavaText.EqualsIgnoreCaseIsEquivalence: the case maps cover the ASCII letters and the four non-ASCII chars whose Java case mapping reaches an ASCII letter ('ı', 'İ', 'ſ' and the Kelvin sign). Case pairs of other non-ASCII letters, such as 'é' and 'É', do not match in the model, so this equivalence is about a narrower relation than Java's. `StorageTypes.Parse` and `StorageTypes.FindByName` always compare against an ASCII display name, so they are exact (see `JavaText.AsciiLetterMatches`).
- Other `HikariConfig` fields that a `configure` callback can set: only the fields the core reads or writes are modelled.
- Concurrency: the shared pool-name set is a plain value threaded through calls. Races between builders are not modelled.
- A builder used again after `build` is not modelled. The model's builders are immutable values.
