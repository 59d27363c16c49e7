# Zula database library: schema naming and queue bootstrap

This project models the core of the Zula database library, a Spring Boot starter that gives each
microservice its own database schema and an outbox/inbox message queue. The model covers two classes:

- `DatabaseManager` derives names and creates the queue tables:
  - The service schema is the configured prefix plus the lower-cased service name.
  - The queue schema is the normalised service name plus the normalised queue suffix.
  - Table names are qualified by the service schema.
  - At startup it detects the SQL dialect of the connected database (MySQL or PostgreSQL) from the
    product name. It then issues five statements in order: the queue schema, the outbox and inbox
    tables, and a status index on each table.
  - A failing index statement is ignored. A failing schema or table statement aborts the bootstrap.
- `DatabaseProperties` is the `zula.database` configuration record. It has six settings with defaults,
  plain getters, and setters that accept any value, null included.

How the model is laid out:

- `wrappers.dfy`: `Option`, `Result`, and the `Fault` values that stand for Java exceptions.
  - `NullPointer` stands for a dereferenced null.
  - `VendorUndetermined` stands for the `IllegalStateException` thrown when the metadata query fails.
  - `StatementRejected(sql)` stands for a statement the database refuses.
- `text.dfy`: ASCII lower-casing, plus the string predicates used in the contracts (`Contains`,
  `StartsWith`, `EndsWith`).
- `config.dfy`: the `DatabaseProperties` class. Its fields are updated in place by the setters.
- `naming.dfy`: the name derivations, written as pure functions. A Java `null` is `None`.
- `dialect.dfy`: the two dialects, their `CREATE TABLE` and `CREATE INDEX` statements, and `Detect`.
  - A table statement is rendered from a column list.
  - The column texts are those of the Java source.
- `manager.dfy`: the `DatabaseManager` class and a `Handle` class.
  - `Handle` stands for a JDBI handle. It answers the product-name query, records every executed
    statement in its `log`, and refuses the statements in its `rejects` set.
  - `CreateQueueSchemaAndTables` and `Init` are proved against the specification function
    `BootstrapRun`. `BootstrapRun` says which statements reach the database and how the run ends.
- `scenarios.dfy`: worked examples on concrete names and configurations.

## Model

| member | source | states |
|---|---|---|
| Text.Lower | zula-database-library-ms/src/main/java/com/zula/database/core/DatabaseManager.java:82 | The result has the input's length, and character `i` is the lower case of input character `i`: `A`-`Z` become `a`-`z` and every other character is kept. The result holds no upper-case letter. |
| Text.LowerChar | zula-database-library-ms/src/main/java/com/zula/database/core/DatabaseManager.java:82 | An ASCII upper-case letter becomes the letter 32 code points later, in `a`-`z`. Every other character is kept. The result is never upper-case. |
| Text.LowerFixesNonUpper | zula-database-library-ms/src/main/java/com/zula/database/core/DatabaseManager.java:82 | Lower-casing leaves a string with no upper-case letter unchanged, so lower-casing is idempotent. |
| Naming.ReplaceNonIdent | zula-database-library-ms/src/main/java/com/zula/database/core/DatabaseManager.java:83 | The replacement keeps the length. A character in `[a-z0-9_]` stays in place, and every other character becomes `_`. |
| Naming.NormalizeName | zula-database-library-ms/src/main/java/com/zula/database/core/DatabaseManager.java:78-84 | Null gives `unknown_service`. Otherwise the length is kept and character `i` is the lower-cased input character, or `_` when that character is outside `[a-z0-9_]`. The empty name gives the empty string. The result always lies in `[a-z0-9_]*`. |
| Naming.NormalizeFixesIdent | zula-database-library-ms/src/main/java/com/zula/database/core/DatabaseManager.java:78-84 | A name already in `[a-z0-9_]*` normalises to itself. |
| Naming.NormalizeIdempotent | zula-database-library-ms/src/main/java/com/zula/database/core/DatabaseManager.java:78-84 | Normalising twice is the same as normalising once. |
| Naming.QueueSuffix | zula-database-library-ms/src/main/java/com/zula/database/core/DatabaseManager.java:50 | A null suffix gives `queue`, and any other suffix gives its normalised form. Either way the suffix is in `[a-z0-9_]*`. |
| Naming.QueueSchemaName | zula-database-library-ms/src/main/java/com/zula/database/core/DatabaseManager.java:47-51 | The queue schema starts with the normalised service name and `_`, ends with `_` and the normalised suffix, and its length is the sum of the parts. It is in `[a-z0-9_]*` and is a fixed point of normalisation. |
| Naming.QueueSchemaNameCollision | zula-database-library-ms/src/main/java/com/zula/database/core/DatabaseManager.java:47-51 | For a fixed suffix, two services get the same queue schema exactly when their normalised names are equal. |
| Naming.SchemaName | zula-database-library-ms/src/main/java/com/zula/database/core/DatabaseManager.java:38-41 | A null prefix or a null service name is an error (NullPointer), and only these are. Otherwise the name starts with the prefix verbatim, has `_` right after a non-empty prefix, and ends with the lower-cased service name, not normalised. Its length is the sum of the parts. |
| Naming.TableName | zula-database-library-ms/src/main/java/com/zula/database/core/DatabaseManager.java:53-55 | The name is the service schema, `.`, then the lower-cased table name. It fails exactly when the schema name fails or the table name is null. |
| Naming.TableNameSplits | zula-database-library-ms/src/main/java/com/zula/database/core/DatabaseManager.java:53-55 | When the prefix and the service name hold no dot, cutting the qualified name at its first dot gives back the schema and the lower-cased table name. |
| Config.DatabaseProperties.constructor | zula-database-library-ms/src/main/java/com/zula/database/config/DatabaseProperties.java:7-12 | Defaults: the four flags are true, the prefix is `zula` and the queue suffix is `queue`. |
| Config.DatabaseProperties.SetAutoCreateSchema | zula-database-library-ms/src/main/java/com/zula/database/config/DatabaseProperties.java:15 | Changes only `autoCreateSchema`; its getter then returns the new value. |
| Config.DatabaseProperties.SetSchemaPrefix | zula-database-library-ms/src/main/java/com/zula/database/config/DatabaseProperties.java:18 | Changes only `schemaPrefix`, accepting null and the empty string; its getter then returns the new value. |
| Config.DatabaseProperties.SetEnableAuditing | zula-database-library-ms/src/main/java/com/zula/database/config/DatabaseProperties.java:21 | Changes only `enableAuditing`; its getter then returns the new value. |
| Config.DatabaseProperties.SetEnableFlyway | zula-database-library-ms/src/main/java/com/zula/database/config/DatabaseProperties.java:24 | Changes only `enableFlyway`; its getter then returns the new value. |
| Config.DatabaseProperties.SetAutoCreateQueueSchema | zula-database-library-ms/src/main/java/com/zula/database/config/DatabaseProperties.java:30-32 | Changes only `autoCreateQueueSchema`; its getter then returns the new value. |
| Config.DatabaseProperties.SetQueueSchemaSuffix | zula-database-library-ms/src/main/java/com/zula/database/config/DatabaseProperties.java:38-40 | Changes only `queueSchemaSuffix`, accepting null and the empty string; its getter then returns the new value. |
| Dialect.QueueDialect.CreateTableSql | zula-database-library-ms/src/main/java/com/zula/database/core/DatabaseManager.java:101-112 | A table statement starts `CREATE TABLE IF NOT EXISTS <table> (` and ends with `)` and the dialect's table options. When the key column comes first, it names the dialect's key type. |
| Dialect.QueueDialect.KeyTypeInIdColumn | zula-database-library-ms/src/main/java/com/zula/database/core/DatabaseManager.java:102 | The key column's text contains `AUTO_INCREMENT` in MySQL and `BIGSERIAL` in PostgreSQL. |
| Dialect.QueueDialect.OutboxTableSql | zula-database-library-ms/src/main/java/com/zula/database/core/DatabaseManager.java:100-150 | The outbox statement is guarded by `IF NOT EXISTS` and names the table. MySQL declares `AUTO_INCREMENT` and ends `) ENGINE=InnoDB`. PostgreSQL declares `BIGSERIAL` and ends with `)`. |
| Dialect.QueueDialect.InboxTableSql | zula-database-library-ms/src/main/java/com/zula/database/core/DatabaseManager.java:116-164 | The inbox statement has the outbox statement's shape: the guarded header, the dialect's key type and the dialect's ending. |
| Dialect.QueueDialect.IndexSql | zula-database-library-ms/src/main/java/com/zula/database/core/DatabaseManager.java:131-169 | The index statement is exactly the dialect's head, the index name, ` ON `, the table name and ` (status)`. PostgreSQL's head is `CREATE INDEX IF NOT EXISTS `, MySQL's is `CREATE INDEX `. The head and the tail are fixed, and the length leaves room for nothing else. |
| Dialect.OutboxColumnsNamed | zula-database-library-ms/src/main/java/com/zula/database/core/DatabaseManager.java:101-111 | In either dialect the outbox columns are, in order, id, message_id, message_type, target_service, payload, status, sent_at, retry_count, created_at, updated_at. `message_id` is `VARCHAR(255) NOT NULL UNIQUE`. |
| Dialect.InboxColumnsNamed | zula-database-library-ms/src/main/java/com/zula/database/core/DatabaseManager.java:117-126 | In either dialect the inbox columns are, in order, id, message_id, message_type, source_service, payload, status, processed_at, created_at, updated_at. `message_id` is `VARCHAR(255) NOT NULL UNIQUE`. |
| Dialect.MessageIdColumnText | zula-database-library-ms/src/main/java/com/zula/database/core/DatabaseManager.java:103 | The message id column is rendered `message_id VARCHAR(255) NOT NULL UNIQUE`. |
| Dialect.MessageIdUniqueInOutboxSql | zula-database-library-ms/src/main/java/com/zula/database/core/DatabaseManager.java:101-103 | In either dialect, the outbox statement text declares `message_id` unique. The statement renders the outbox column list, in which the message id column comes second. |
| Dialect.MessageIdUniqueInInboxSql | zula-database-library-ms/src/main/java/com/zula/database/core/DatabaseManager.java:117-119 | In either dialect, the inbox statement text declares `message_id` unique. The statement renders the inbox column list, in which the message id column comes second. |
| Dialect.Detect | zula-database-library-ms/src/main/java/com/zula/database/core/DatabaseManager.java:177-194 | A failed metadata query is the error VendorUndetermined, and only that is an error. The result is MySQL exactly when the lower-cased product name contains `mysql` or `maria`; every other name, null included, gives PostgreSQL. |
| Manager.Handle.Execute | zula-database-library-ms/src/main/java/com/zula/database/core/DatabaseManager.java:66 | Appends the statement to the log and reports whether the database accepted it. |
| Manager.Handle.ProductName | zula-database-library-ms/src/main/java/com/zula/database/core/DatabaseManager.java:179 | Answers the product-name query with the handle's metadata answer: a name, a null name, or a failure. |
| Manager.CreateSchemaSql | zula-database-library-ms/src/main/java/com/zula/database/core/DatabaseManager.java:66 | The schema statement is exactly `CREATE SCHEMA IF NOT EXISTS ` followed by the schema name: it starts with that head, ends with the name, and is exactly as long as the two together. |
| Manager.OutboxTable | zula-database-library-ms/src/main/java/com/zula/database/core/DatabaseManager.java:59 | The outbox table starts with the queue schema and `.`, ends with `message_outbox`, and adds exactly `.message_outbox` to the schema's length. |
| Manager.InboxTable | zula-database-library-ms/src/main/java/com/zula/database/core/DatabaseManager.java:60 | The inbox table starts with the queue schema and `.`, ends with `message_inbox`, and adds exactly `.message_inbox` to the schema's length. |
| Manager.OutboxIndex | zula-database-library-ms/src/main/java/com/zula/database/core/DatabaseManager.java:61 | The outbox index name starts with the queue schema, ends with `_idx_outbox_status`, and adds exactly that suffix to the schema's length. |
| Manager.InboxIndex | zula-database-library-ms/src/main/java/com/zula/database/core/DatabaseManager.java:62 | The inbox index name starts with the queue schema, ends with `_idx_inbox_status`, and adds exactly that suffix to the schema's length. |
| Manager.QueueObjectsDistinct | zula-database-library-ms/src/main/java/com/zula/database/core/DatabaseManager.java:59-62 | For any queue schema, the two tables and the two indexes are four different names. |
| Manager.QueueDdl | zula-database-library-ms/src/main/java/com/zula/database/core/DatabaseManager.java:58-72 | The bootstrap consists of exactly five statements. `QueueDdlCreatesSchemaFirst`, `QueueDdlCreatesTablesNext` and `QueueDdlIndexesLast` state what each one is. |
| Manager.QueueDdlCreatesSchemaFirst | zula-database-library-ms/src/main/java/com/zula/database/core/DatabaseManager.java:66 | The first statement is exactly `CREATE SCHEMA IF NOT EXISTS ` followed by the queue schema: that head, that tail, and their combined length. |
| Manager.QueueDdlCreatesTablesNext | zula-database-library-ms/src/main/java/com/zula/database/core/DatabaseManager.java:58-69 | The second and third statements create `<schema>.message_outbox` and `<schema>.message_inbox`, each with `IF NOT EXISTS`, the dialect's key type and the dialect's table options. |
| Manager.QueueDdlIndexesLast | zula-database-library-ms/src/main/java/com/zula/database/core/DatabaseManager.java:59-72 | The last two statements are `CREATE INDEX` statements. They name `<schema>_idx_outbox_status` and `<schema>_idx_inbox_status` and end ` ON <table> (status)` on the matching table. |
| Manager.IndexStatementShape | zula-database-library-ms/src/main/java/com/zula/database/core/DatabaseManager.java:131-169 | In both dialects an index statement starts with `CREATE INDEX `, contains the index name, and ends on the table's status column. |
| Manager.RunDdl | zula-database-library-ms/src/main/java/com/zula/database/core/DatabaseManager.java:64-73 | The issued statements are a non-empty prefix of the five. The run succeeds exactly when none of the schema and table statements is refused, and then all five are issued. On failure the last issued statement is the first refused one among the first three, and the error names it. |
| Manager.BootstrapRun | zula-database-library-ms/src/main/java/com/zula/database/core/DatabaseManager.java:64-73 | When the metadata query fails, nothing is issued and the run fails with VendorUndetermined. Otherwise the run is `RunDdl` over the five statements of the detected dialect, so `RunDdl`'s guarantees apply to it. |
| Manager.IndexFailuresIgnored | zula-database-library-ms/src/main/java/com/zula/database/core/DatabaseManager.java:86-92 | Two databases that agree on the first three statements give the same run, however they treat the index statements. |
| Manager.DatabaseManager.constructor | zula-database-library-ms/src/main/java/com/zula/database/core/DatabaseManager.java:22-26 | The manager keeps the given properties and service name. |
| Manager.DatabaseManager.GenerateSchemaName | zula-database-library-ms/src/main/java/com/zula/database/core/DatabaseManager.java:38-41 | The service schema under the current prefix, as `Naming.SchemaName` states it. |
| Manager.DatabaseManager.GenerateQueueSchemaName | zula-database-library-ms/src/main/java/com/zula/database/core/DatabaseManager.java:47-51 | The queue schema under the current suffix, as `Naming.QueueSchemaName` states it. |
| Manager.DatabaseManager.GenerateTableName | zula-database-library-ms/src/main/java/com/zula/database/core/DatabaseManager.java:53-55 | The qualified table name under the current prefix, as `Naming.TableName` states it. |
| Manager.DatabaseManager.ExecuteIndex | zula-database-library-ms/src/main/java/com/zula/database/core/DatabaseManager.java:86-92 | Issues the dialect's index statement (the log grows by exactly that statement) and never fails. |
| Manager.DatabaseManager.CreateQueueSchemaAndTables | zula-database-library-ms/src/main/java/com/zula/database/core/DatabaseManager.java:57-76 | The log grows by exactly the statements `BootstrapRun` issues, and the outcome is the run's. Nothing is issued when detection fails; the run stops at a refused schema or table statement; it succeeds with all five statements otherwise. |
| Manager.DatabaseManager.Init | zula-database-library-ms/src/main/java/com/zula/database/core/DatabaseManager.java:28-36 | A null prefix or service name fails startup before any statement. With the queue bootstrap off, nothing is issued. Otherwise startup is the bootstrap. |
| Scenarios.OrderServiceQueueSchema | zula-database-library-ms/src/main/java/com/zula/database/core/DatabaseManager.java:47-51 | `Order-Service` normalises to `order_service`. Its queue schema is `order_service_queue` with the default suffix `queue`, with a null suffix and with the suffix `Queue`. |
| Scenarios.UnknownServiceQueueSchema | zula-database-library-ms/src/main/java/com/zula/database/core/DatabaseManager.java:19-20 | The framework default `unknown-service` and a null service name both give `unknown_service_queue`. |
| Scenarios.ServiceSchemaNotNormalized | zula-database-library-ms/src/main/java/com/zula/database/core/DatabaseManager.java:38-41 | `zula` with `Order-Service` gives `zula_order-service`, so the hyphen survives. An empty prefix with `Orders` gives `orders`. |
| Scenarios.DefaultPrefixNames | zula-database-library-ms/src/main/java/com/zula/database/core/DatabaseManager.java:38-55 | With the default prefix and the service `Orders`, the schema is `zula_orders` and table `Message_Outbox` is `zula_orders.message_outbox`. |
| Scenarios.OrdersQueueSchema | zula-database-library-ms/src/main/java/com/zula/database/core/DatabaseManager.java:47-51 | `Orders` and `orders` both get `orders_queue` under the default suffix. |
| Scenarios.DetectMySqlFamily | zula-database-library-ms/src/main/java/com/zula/database/core/DatabaseManager.java:183-186 | `MySQL` and `MariaDB` select MySQL. |
| Scenarios.DetectOthersArePostgres | zula-database-library-ms/src/main/java/com/zula/database/core/DatabaseManager.java:187-193 | `PostgreSQL` selects PostgreSQL, and so does `H2`, which neither test recognises. |
| Scenarios.DefaultNames | zula-database-library-ms/src/main/java/com/zula/database/config/DatabaseProperties.java:7-12 | A manager with default properties and the service `Orders` yields `zula_orders`, `orders_queue` and `zula_orders.message_outbox`. |
| Scenarios.PrefixChanges | zula-database-library-ms/src/main/java/com/zula/database/config/DatabaseProperties.java:17-18 | After the prefix is set to empty, the schema is `orders`. After it is set to null, the schema name is an error while the queue schema stays `orders_queue`. |
| Scenarios.OtherSettersKeepNames | zula-database-library-ms/src/main/java/com/zula/database/config/DatabaseProperties.java:14-40 | Changing the four flags leaves the prefix and the suffix at their defaults. |
| Scenarios.BootstrapOnPostgres | zula-database-library-ms/src/main/java/com/zula/database/core/DatabaseManager.java:28-76 | On PostgreSQL with nothing refused, startup under the default configuration succeeds for any non-null service name. It issues exactly the five PostgreSQL statements for that service's queue schema, in order. |
| Scenarios.BootstrapStopsAtSchema | zula-database-library-ms/src/main/java/com/zula/database/core/DatabaseManager.java:64-73 | For any service name, when MySQL refuses the schema statement, only that statement is issued and the run fails with it. |
| Scenarios.BootstrapSkipped | zula-database-library-ms/src/main/java/com/zula/database/core/DatabaseManager.java:28-36 | An unavailable metadata query, a disabled bootstrap and a null prefix each issue nothing. The outcomes are VendorUndetermined, success and NullPointer. |

## Left out

- Locale: lower-casing covers ASCII letters only, one character at a time. The contracts of
  `Text.Lower`, `Naming.NormalizeName`, `Naming.SchemaName` and `Naming.TableName` therefore match Java
  only for ASCII input under a locale that lower-cases ASCII letters in the ordinary way.
  - `generateSchemaName` and `generateTableName` use the JVM's default locale. Under a Turkish or
    Azeri default locale, ASCII `I` becomes the dotless `ı` (U+0131): service `Inventory` gives
    `zula_ınventory` in Java and `zula_inventory` in the model.
  - `normalizeName` and `detect` use `Locale.ROOT`, which also folds non-ASCII letters, and some of
    those into more than one character. `İ` (U+0130) lower-cases to `i` followed by a combining dot,
    so `normalizeName("İ")` is `i_` in Java and `_` in the model. The property "the length is kept"
    holds only for input that lower-cases one character to one.
- The empty name: `Naming.NormalizeName` maps the empty name to the empty string, which gives the queue
  schema `_queue`, as the code does. The documented form of a normalised name, `[a-z0-9_]+`, is
  non-empty; the model follows the code.
- Console output and clock: the startup messages and the timestamp printed after the bootstrap are I/O
  and are not modelled.
- `autoCreateSchema`, `enableAuditing`, `enableFlyway`: these only have getters and setters here. `init`
  prints `autoCreateSchema` and nothing in the core reads the other two, so no modelled behaviour depends on them.
- JDBI and the database: the connection, transactions and what the database does with a statement are
  out of scope. `Handle` only records statements and refuses the given set. Whether a rerun succeeds
  depends on the database, so repeated bootstraps (the `IF NOT EXISTS` guards, and MySQL's unguarded
  index failing as a duplicate) are described by the statement text, not by a database state.
- Java exception types: an exception thrown by `handle.execute` for a schema or table statement is the
  single fault `StatementRejected`. A refused index statement is swallowed whatever its exception type.
- Detect: the PostgreSQL test on `postgres`/`pgsql` is modelled. It and the fall-through both give
  PostgreSQL, so `Dialect.Detect` states the result only through the MySQL test.
- SQL escaping: names are spliced into statements unescaped, as in the source. The model does not
  reason about quoting or injection.
- The auto-configuration (`DatabaseAutoConfig`), the message DAO (`MessageDao`) and the entity classes
  are not part of this model. Spring's property binding and its injection of the service name are
  replaced by constructor arguments.
- Config getters: the getters are plain field reads with no contract of their own. The setters and the
  constructor state what they return.
