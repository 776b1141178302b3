/** The part of the connection-pool library's configuration record that the
    builders fill in. The pool itself is not modelled. */
module Hikari {
  import opened Optional

  /** A data-source property value: Java `String`, `Integer` or `Boolean`. */
  datatype PropValue = Text(text: string) | Number(number: int) | Flag(flag: bool)

  /** A `java.util.Properties` table. */
  type Properties = map<string, PropValue>

  /** A pool configuration; `None` is a field the library leaves at its own
      default (a `null` reference or an unset size). */
  datatype PoolConfig = PoolConfig(
    poolName: Option<string>,
    driverClassName: Option<string>,
    jdbcUrl: Option<string>,
    dataSourceClassName: Option<string>,
    username: Option<string>,
    password: Option<string>,
    maximumPoolSize: Option<int>,
    minimumIdle: Option<int>,
    dataSourceProperties: Properties)

  /** `new HikariConfig()` with nothing set. */
  const EmptyConfig: PoolConfig := PoolConfig(None, None, None, None, None, None, None, None, map[])

  /** `setDataSourceProperties`: copies every entry of `props` into the
      configuration's own table, replacing entries with the same key. */
  function SetDataSourceProperties(c: PoolConfig, props: Properties): (r: PoolConfig)
    ensures r.dataSourceProperties.Keys == c.dataSourceProperties.Keys + props.Keys
    ensures forall k :: k in props ==> r.dataSourceProperties[k] == props[k]
    ensures forall k :: k in c.dataSourceProperties && k !in props ==>
              r.dataSourceProperties[k] == c.dataSourceProperties[k]
    ensures r.(dataSourceProperties := c.dataSourceProperties) == c
  {
    c.(dataSourceProperties := c.dataSourceProperties + props)
  }
}
