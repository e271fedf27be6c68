/** Catalogs: typed connectors become a property map, the map becomes text, and the text is read back. */
module Catalog {

  import opened Numbers
  import opened Options
  import opened Strings

  datatype SecretKey = SecretKey(name: string, key: string)

  /** A property value: plain text, or a placeholder for an environment variable. */
  datatype Value = Text(text: string) | Env(variable: string)

  datatype Jdbc = ClickHouse | Exasol | Ignite | MariaDB | MySQL | Oracle | Postgres | Redshift | SingleStore | SqlServer | Vertica

  datatype Bare = BlackHole | Jmx | System | Tpcds | Tpch

  /** The one connector that is set. The URLs of Druid, DuckDB and Snowflake are given as already rewritten. */
  datatype Connector =
    | BigQuery(projectId: string, parentProjectId: string, credentialsFile: string)
    | Untyped(bare: Bare)
    | Cassandra(contactPoints: string, cassandraPort: int)
    | JdbcConnector(jdbc: Jdbc, url: string, user: string, password: Option<SecretKey>)
    | Custom(connectorName: string)
    | DeltaLake(deltaType: string, warehouseUri: string)
    | Druid(druidUrl: string)
    | DuckDb(databasePath: string, duckUrl: string)
    | Elasticsearch(esHost: string, esPort: int, esSchema: string)
    | Faker(defaultLimit: int, nullProbability: Option<string>)
    | GoogleSheets(credentialsPath: string, metadataSheetId: string)
    | Hive(hiveUri: string, s3Endpoint: string, s3AccessKey: Option<SecretKey>, s3SecretKey: Option<SecretKey>)
    | Hudi(hudiUri: string)
    | Iceberg(icebergType: string)
    | Kafka(nodes: seq<string>)
    | Lakehouse(tableType: string, lakehouseUri: string)
    | Loki(lokiUri: string)
    | Memory(maxDataPerNode: string)
    | MongoDb(mongoUri: string)
    | OpenSearch(osHost: string, osPort: int, osSchema: string)
    | Pinot(controllerUrls: string)
    | Prometheus(prometheusUri: string)
    | Redis(redisNodes: string, database: int)
    | Snowflake(snowUrl: string, account: string, snowUser: string, snowDatabase: string, role: string, warehouse: string,
                snowPassword: Option<SecretKey>)
    | Thrift(thriftHost: string, thriftPort: int)

  /** `otherChecksPass` stands for the validators that rendering does not depend on. */
  datatype Catalog = Catalog(
    name: string,
    connector: Connector,
    properties: map<string, string>,
    secretRefs: map<string, SecretKey>,
    otherChecksPass: bool)

  /* ---- the properties of each connector ---- */

  const PREFIX := "trino-catalog-"

  function Underscore(c: char): char {
    if c == '.' || c == '-' then '_' else c
  }

  /** Upper case, with dots and dashes as underscores. */
  function EnvPart(s: string): (r: string)
    ensures |r| == |s| && forall i :: 0 <= i < |s| ==> r[i] == UpperChar(Underscore(s[i]))
  {
    seq(|s|, i requires 0 <= i < |s| => UpperChar(Underscore(s[i])))
  }

  function EnvVarName(catalogName: string, property: string): string {
    "CATALOG_" + EnvPart(TrimPrefix(catalogName, PREFIX)) + "_" + EnvPart(property)
  }

  function Kept(condition: bool, key: string): set<string> {
    if condition then {key} else {}
  }

  predicate AllText(m: map<string, Value>) {
    forall key :: key in m ==> m[key].Text?
  }

  function Entry(given: bool, key: string, value: Value): (m: map<string, Value>)
    ensures m.Keys == Kept(given, key)
    ensures given ==> m[key] == value
    ensures value.Text? ==> AllText(m)
  {
    if given then map[key := value] else map[]
  }

  function Always(key: string, text: string): (m: map<string, Value>)
    ensures m.Keys == Kept(true, key) && AllText(m)
  {
    Entry(true, key, Text(text))
  }

  function Filled(key: string, text: string): (m: map<string, Value>)
    ensures m.Keys == Kept(text != "", key) && AllText(m)
  {
    Entry(text != "", key, Text(text))
  }

  function Join(parts: seq<string>): string {
    if parts == [] then "" else if |parts| == 1 then parts[0] else parts[0] + "," + Join(parts[1..])
  }

  function IcebergType(t: string): string {
    if Normalize(t) == "" || Normalize(t) == "hive" then "hive_metastore" else Normalize(t)
  }

  function LakehouseType(t: string): string {
    if Upper(Trim(t)) == "DELTA_LAKE" then "DELTA" else Upper(Trim(t))
  }

  /** What the connector's own fields contribute, over the user's properties. */
  function TypedProps(c: Connector, catalogName: string): map<string, Value> {
    match c
    case BigQuery(project, parent, file) =>
      Always("bigquery.project-id", project) + Filled("bigquery.parent-project-id", parent) + Filled("bigquery.credentials-file", file)
    case Untyped(_) => map[]
    case Cassandra(points, port) =>
      Always("cassandra.contact-points", points) + Entry(port > 0, "cassandra.native-protocol-port", Text(Decimal(port)))
    case JdbcConnector(_, url, user, password) =>
      Always("connection-url", url) + Filled("connection-user", user)
      + Entry(password.Some?, "connection-password", Env(EnvVarName(catalogName, "connection-password")))
    case Custom(_) => map[]
    case DeltaLake(t, uri) =>
      if Normalize(t) == "glue" then Always("hive.metastore", "glue")
      else if Normalize(t) == "hive" || Normalize(t) == "hive_metastore" then Filled("hive.metastore.uri", uri)
      else map[]
    case Druid(url) => Always("connection-url", url)
    case DuckDb(path, url) => Entry(path != "", "connection-url", Text(url))
    case Elasticsearch(host, port, schema) =>
      Always("elasticsearch.host", host) + Entry(port > 0, "elasticsearch.port", Text(Decimal(port)))
      + Filled("elasticsearch.default-schema-name", schema)
    case Faker(limit, probability) =>
      Entry(limit > 0, "faker.default-limit", Text(Decimal(limit)))
      + (if probability.Some? then Always("faker.null-probability", probability.value) else map[])
    case GoogleSheets(path, sheet) =>
      Always("gsheets.credentials-path", path) + Filled("gsheets.metadata-sheet-id", sheet)
    case Hive(uri, endpoint, access, secret) =>
      Always("hive.metastore.uri", uri)
      + Entry(endpoint != "" || access.Some? || secret.Some?, "fs.native-s3.enabled", Text("true"))
      + Filled("s3.endpoint", endpoint)
      + Entry(access.Some?, "s3.aws-access-key", Env(EnvVarName(catalogName, "s3.aws-access-key")))
      + Entry(secret.Some?, "s3.aws-secret-key", Env(EnvVarName(catalogName, "s3.aws-secret-key")))
    case Hudi(uri) => Always("hive.metastore.uri", uri)
    case Iceberg(t) => Always("iceberg.catalog.type", IcebergType(t))
    case Kafka(nodes) => Always("kafka.nodes", Join(nodes))
    case Lakehouse(t, uri) =>
      Always("lakehouse.table-type", LakehouseType(t))
      + Entry(uri != "", "hive.metastore", Text("thrift")) + Filled("hive.metastore.uri", uri)
    case Loki(uri) => Always("loki.uri", uri)
    case Memory(size) => Filled("memory.max-data-per-node", size)
    case MongoDb(uri) => Always("mongodb.connection-url", uri)
    case OpenSearch(host, port, schema) =>
      Always("opensearch.host", host) + Entry(port > 0, "opensearch.port", Text(Decimal(port)))
      + Filled("opensearch.default-schema-name", schema)
    case Pinot(urls) => Always("pinot.controller-urls", urls)
    case Prometheus(uri) => Always("prometheus.uri", uri)
    case Redis(nodes, database) =>
      Always("redis.nodes", nodes) + Entry(database > 0, "redis.database-index", Text(Decimal(database)))
    case Snowflake(url, account, user, database, role, warehouse, password) =>
      Always("connection-url", url) + Always("connection-user", user)
      + Filled("snowflake.account", account) + Filled("snowflake.database", database)
      + Filled("snowflake.role", role) + Filled("snowflake.warehouse", warehouse)
      + Entry(password.Some?, "connection-password", Env(EnvVarName(catalogName, "connection-password")))
    case Thrift(host, port) => Always("trino.thrift.client.addresses", host + ":" + Decimal(port))
  }

  /** The text under `key`, if the connector writes one. */
  function Written(c: Connector, catalogName: string, key: string): Option<Value> {
    var props := TypedProps(c, catalogName);
    if key in props then Some(props[key]) else None
  }

  function Given(condition: bool, text: string): Option<Value> {
    if condition then Some(Text(text)) else None
  }

  /** Each field of a connector stands under its own key, an optional one only if it is given. */
  lemma BigQueryFields(c: Connector, catalogName: string)
    requires c.BigQuery?
    ensures Written(c, catalogName, "bigquery.project-id") == Some(Text(c.projectId))
    ensures Written(c, catalogName, "bigquery.parent-project-id") == Given(c.parentProjectId != "", c.parentProjectId)
    ensures Written(c, catalogName, "bigquery.credentials-file") == Given(c.credentialsFile != "", c.credentialsFile)
  {
  }

  /** Ports are written as numbers, and only positive ones. */
  lemma ElasticsearchFields(c: Connector, catalogName: string)
    requires c.Elasticsearch?
    ensures Written(c, catalogName, "elasticsearch.host") == Some(Text(c.esHost))
    ensures Written(c, catalogName, "elasticsearch.port") == Given(c.esPort > 0, Decimal(c.esPort))
    ensures Written(c, catalogName, "elasticsearch.default-schema-name") == Given(c.esSchema != "", c.esSchema)
  {
  }

  /** The same for OpenSearch. */
  lemma OpenSearchFields(c: Connector, catalogName: string)
    requires c.OpenSearch?
    ensures Written(c, catalogName, "opensearch.host") == Some(Text(c.osHost))
    ensures Written(c, catalogName, "opensearch.port") == Given(c.osPort > 0, Decimal(c.osPort))
    ensures Written(c, catalogName, "opensearch.default-schema-name") == Given(c.osSchema != "", c.osSchema)
  {
  }

  /** A positive database index is written. */
  lemma RedisFields(c: Connector, catalogName: string)
    requires c.Redis?
    ensures Written(c, catalogName, "redis.nodes") == Some(Text(c.redisNodes))
    ensures Written(c, catalogName, "redis.database-index") == Given(c.database > 0, Decimal(c.database))
  {
  }

  /** URL and user of a JDBC connector are not confused. */
  lemma JdbcFields(c: Connector, catalogName: string)
    requires c.JdbcConnector?
    ensures Written(c, catalogName, "connection-url") == Some(Text(c.url))
    ensures Written(c, catalogName, "connection-user") == Given(c.user != "", c.user)
  {
  }

  /** The metastore and the S3 endpoint of Hive. */
  lemma HiveFields(c: Connector, catalogName: string)
    requires c.Hive?
    ensures Written(c, catalogName, "hive.metastore.uri") == Some(Text(c.hiveUri))
    ensures Written(c, catalogName, "s3.endpoint") == Given(c.s3Endpoint != "", c.s3Endpoint)
  {
  }

  function ConnectorName(c: Connector): string {
    match c
    case BigQuery(_, _, _) => "bigquery"
    case Untyped(bare) =>
      (match bare
       case BlackHole => "blackhole" case Jmx => "jmx" case System => "system" case Tpcds => "tpcds" case Tpch => "tpch")
    case Cassandra(_, _) => "cassandra"
    case JdbcConnector(jdbc, _, _, _) =>
      (match jdbc
       case ClickHouse => "clickhouse" case Exasol => "exasol" case Ignite => "ignite" case MariaDB => "mariadb"
       case MySQL => "mysql" case Oracle => "oracle" case Postgres => "postgresql" case Redshift => "redshift"
       case SingleStore => "singlestore" case SqlServer => "sqlserver" case Vertica => "vertica")
    case Custom(name) => name
    case DeltaLake(_, _) => "delta_lake"
    case Druid(_) => "druid"
    case DuckDb(_, _) => "duckdb"
    case Elasticsearch(_, _, _) => "elasticsearch"
    case Faker(_, _) => "faker"
    case GoogleSheets(_, _) => "gsheets"
    case Hive(_, _, _, _) => "hive"
    case Hudi(_) => "hudi"
    case Iceberg(_) => "iceberg"
    case Kafka(_) => "kafka"
    case Lakehouse(_, _) => "lakehouse"
    case Loki(_) => "loki"
    case Memory(_) => "memory"
    case MongoDb(_) => "mongodb"
    case OpenSearch(_, _, _) => "opensearch"
    case Pinot(_) => "pinot"
    case Prometheus(_) => "prometheus"
    case Redis(_, _) => "redis"
    case Snowflake(_, _, _, _, _, _, _) => "snowflake"
    case Thrift(_, _) => "trino_thrift"
  }

  /* ---- validation ---- */

  function DashChar(c: char): char {
    if c == '_' then '-' else c
  }

  function NormalKey(key: string): string {
    var s := Normalize(key);
    seq(|s|, i requires 0 <= i < |s| => DashChar(s[i]))
  }

  function ReservedJdbc(user: string, password: Option<SecretKey>): set<string> {
    Kept(true, "connection-url") + Kept(user != "", "connection-user") + Kept(password.Some?, "connection-password")
  }

  /** The keys validation takes as generated from the connector's own fields. */
  function ReservedKeys(c: Connector): set<string> {
    match c
    case BigQuery(_, parent, file) =>
      Kept(true, "bigquery.project-id") + Kept(parent != "", "bigquery.parent-project-id") + Kept(file != "", "bigquery.credentials-file")
    case Untyped(_) => {}
    case Cassandra(_, port) => Kept(true, "cassandra.contact-points") + Kept(port > 0, "cassandra.native-protocol-port")
    case JdbcConnector(_, _, user, password) => ReservedJdbc(user, password)
    case Custom(_) => {}
    case DeltaLake(t, uri) =>
      if Normalize(t) == "glue" then Kept(true, "hive.metastore")
      else if Normalize(t) == "hive" || Normalize(t) == "hive_metastore" then Kept(uri != "", "hive.metastore.uri")
      else {}
    case Druid(_) => Kept(true, "connection-url")
    case DuckDb(path, _) => Kept(path != "", "connection-url")
    case Elasticsearch(_, port, schema) =>
      Kept(true, "elasticsearch.host") + Kept(port > 0, "elasticsearch.port") + Kept(schema != "", "elasticsearch.default-schema-name")
    case Faker(limit, probability) => Kept(limit > 0, "faker.default-limit") + Kept(probability.Some?, "faker.null-probability")
    case GoogleSheets(_, sheet) => Kept(true, "gsheets.credentials-path") + Kept(sheet != "", "gsheets.metadata-sheet-id")
    case Hive(_, endpoint, access, secret) =>
      Kept(true, "hive.metastore.uri") + Kept(endpoint != "", "s3.endpoint")
      + Kept(endpoint != "" || access.Some? || secret.Some?, "fs.native-s3.enabled")
      + Kept(access.Some?, "s3.aws-access-key") + Kept(secret.Some?, "s3.aws-secret-key")
    case Hudi(_) => Kept(true, "hive.metastore.uri")
    case Iceberg(_) => Kept(true, "iceberg.catalog.type")
    case Kafka(_) => Kept(true, "kafka.nodes")
    case Lakehouse(_, uri) =>
      Kept(true, "lakehouse.table-type") + Kept(uri != "", "hive.metastore") + Kept(uri != "", "hive.metastore.uri")
    case Loki(_) => Kept(true, "loki.uri")
    case Memory(size) => Kept(size != "", "memory.max-data-per-node")
    case MongoDb(_) => Kept(true, "mongodb.connection-url")
    case OpenSearch(_, port, schema) =>
      Kept(true, "opensearch.host") + Kept(port > 0, "opensearch.port") + Kept(schema != "", "opensearch.default-schema-name")
    case Pinot(_) => Kept(true, "pinot.controller-urls")
    case Prometheus(_) => Kept(true, "prometheus.uri")
    case Redis(_, database) => Kept(true, "redis.nodes") + Kept(database > 0, "redis.database-index")
    case Snowflake(_, _, _, database, role, warehouse, password) =>
      Kept(true, "connection-url") + Kept(true, "connection-user") + Kept(true, "snowflake.account")
      + Kept(database != "", "snowflake.database") + Kept(role != "", "snowflake.role")
      + Kept(warehouse != "", "snowflake.warehouse") + Kept(password.Some?, "connection-password")
    case Thrift(_, _) => Kept(true, "trino.thrift.client.addresses")
  }

  /** The normalised keys a user may not set. */
  function Reserved(c: Connector): set<string> {
    {"connector.name"} + set key | key in ReservedKeys(c) :: NormalKey(key)
  }

  /** Every key a connector generates is reserved, so a user property can never be overwritten by one. */
  lemma GeneratedKeysAreReserved(c: Connector, catalogName: string)
    ensures TypedProps(c, catalogName).Keys <= ReservedKeys(c)
  {
    if c.Snowflake? || c.Hive? || c.JdbcConnector? {
      SecretConnectorKeys(c, catalogName);
    } else if c.Elasticsearch? || c.OpenSearch? || c.BigQuery? || c.Faker? || c.GoogleSheets? || c.Lakehouse? {
      OptionalFieldKeys(c, catalogName);
    }
  }

  lemma SecretConnectorKeys(c: Connector, catalogName: string)
    requires c.Snowflake? || c.Hive? || c.JdbcConnector?
    ensures TypedProps(c, catalogName).Keys <= ReservedKeys(c)
  {
  }

  lemma OptionalFieldKeys(c: Connector, catalogName: string)
    requires c.Elasticsearch? || c.OpenSearch? || c.BigQuery? || c.Faker? || c.GoogleSheets? || c.Lakehouse?
    ensures TypedProps(c, catalogName).Keys <= ReservedKeys(c)
  {
  }

  /** Lower-case letters, digits, dots and dashes. */
  predicate Plain(key: string) {
    key != "" && forall i :: 0 <= i < |key| ==> PlainChar(key[i])
  }

  predicate PlainChar(c: char) {
    'a' <= c <= 'z' || '0' <= c <= '9' || c == '.' || c == '-'
  }

  predicate AllPlain(keys: set<string>) {
    forall key :: key in keys ==> Plain(key)
  }

  lemma JdbcKeysArePlain()
    ensures Plain("connection-url") && Plain("connection-user") && Plain("connection-password")
  {
  }

  lemma MetastoreKeysArePlain()
    ensures Plain("hive.metastore") && Plain("hive.metastore.uri") && Plain("lakehouse.table-type") && Plain("iceberg.catalog.type")
  {
  }

  lemma StorageKeysArePlain()
    ensures Plain("s3.endpoint") && Plain("fs.native-s3.enabled") && Plain("s3.aws-access-key") && Plain("s3.aws-secret-key")
  {
  }

  lemma ElasticsearchKeysArePlain()
    ensures Plain("elasticsearch.host") && Plain("elasticsearch.port") && Plain("elasticsearch.default-schema-name")
  {
  }

  lemma OpenSearchKeysArePlain()
    ensures Plain("opensearch.host") && Plain("opensearch.port") && Plain("opensearch.default-schema-name")
  {
  }

  lemma BigQueryKeysArePlain()
    ensures Plain("bigquery.project-id") && Plain("bigquery.parent-project-id") && Plain("bigquery.credentials-file")
  {
  }

  lemma SheetsKeysArePlain()
    ensures Plain("gsheets.credentials-path") && Plain("gsheets.metadata-sheet-id")
  {
  }

  lemma SnowflakeKeysArePlain()
    ensures Plain("snowflake.account") && Plain("snowflake.database") && Plain("snowflake.role") && Plain("snowflake.warehouse")
  {
  }

  lemma CassandraKeysArePlain()
    ensures Plain("cassandra.contact-points") && Plain("cassandra.native-protocol-port")
  {
  }

  lemma StoreKeysArePlain()
    ensures Plain("redis.nodes") && Plain("redis.database-index") && Plain("mongodb.connection-url")
  {
  }

  lemma FakerKeysArePlain()
    ensures Plain("faker.default-limit") && Plain("faker.null-probability")
  {
  }

  lemma StreamKeysArePlain()
    ensures Plain("kafka.nodes") && Plain("loki.uri") && Plain("prometheus.uri")
  {
  }

  lemma OtherKeysArePlain()
    ensures Plain("memory.max-data-per-node") && Plain("pinot.controller-urls") && Plain("trino.thrift.client.addresses")
  {
  }

  lemma JdbcConnectorKeys(c: Connector)
    requires c.JdbcConnector? || c.Druid? || c.DuckDb? || c.Snowflake?
    ensures AllPlain(ReservedKeys(c))
  {
    JdbcKeysArePlain();
    if c.Snowflake? { SnowflakeKeysArePlain(); }
  }

  lemma MetastoreConnectorKeys(c: Connector)
    requires c.DeltaLake? || c.Hudi? || c.Iceberg? || c.Lakehouse? || c.Hive?
    ensures AllPlain(ReservedKeys(c))
  {
    MetastoreKeysArePlain();
    if c.Hive? { StorageKeysArePlain(); }
  }

  lemma CloudAndSearchKeys(c: Connector)
    requires c.Elasticsearch? || c.OpenSearch? || c.BigQuery? || c.GoogleSheets?
    ensures AllPlain(ReservedKeys(c))
  {
    match c {
      case Elasticsearch(_, _, _) => ElasticsearchKeysArePlain();
      case OpenSearch(_, _, _) => OpenSearchKeysArePlain();
      case BigQuery(_, _, _) => BigQueryKeysArePlain();
      case GoogleSheets(_, _) => SheetsKeysArePlain();
    }
  }

  lemma GeneratedKeysArePlain(c: Connector)
    ensures AllPlain(ReservedKeys(c))
  {
    if c.JdbcConnector? || c.Druid? || c.DuckDb? || c.Snowflake? {
      JdbcConnectorKeys(c);
    } else if c.DeltaLake? || c.Hudi? || c.Iceberg? || c.Lakehouse? || c.Hive? {
      MetastoreConnectorKeys(c);
    } else if c.Elasticsearch? || c.OpenSearch? || c.BigQuery? || c.GoogleSheets? {
      CloudAndSearchKeys(c);
    } else if c.Cassandra? {
      CassandraKeysArePlain();
    } else if c.Redis? || c.MongoDb? {
      StoreKeysArePlain();
    } else if c.Faker? {
      FakerKeysArePlain();
    } else if c.Kafka? || c.Loki? || c.Prometheus? {
      StreamKeysArePlain();
    } else {
      OtherKeysArePlain();
    }
  }
}
