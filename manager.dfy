/** The database manager: derives the names of the service schema and the queue schema from the service
    name and the configuration, and on startup creates the queue schema, its outbox and inbox tables and
    their status indexes in the dialect of the connected database. */
module Manager {
  import opened Wrappers
  import opened Faults
  import opened Text
  import opened Naming
  import opened Dialect
  import opened Config

  /** A connection handle, seen through what the bootstrap does with it: it answers the product-name query
      with `metadata`, records every statement it is asked to execute in `log`, and refuses those in
      `rejects`. */
  class Handle {
    var log: seq<string>
    const metadata: Metadata
    const rejects: set<string>

    constructor (metadata: Metadata, rejects: set<string>)
      ensures log == [] && this.metadata == metadata && this.rejects == rejects
    {
      log := [];
      this.metadata := metadata;
      this.rejects := rejects;
    }

    method ProductName() returns (m: Metadata)
      ensures m == metadata
    {
      m := metadata;
    }

    method Execute(sql: string) returns (ok: bool)
      modifies this`log
      ensures log == old(log) + [sql]
      ensures ok <==> sql !in rejects
    {
      log := log + [sql];
      ok := sql !in rejects;
    }
  }

  /** Creates the queue schema unless it exists. */
  function CreateSchemaSql(schema: string): (sql: string)
    ensures StartsWith(sql, "CREATE SCHEMA IF NOT EXISTS ") && EndsWith(sql, schema)
    ensures |sql| == |"CREATE SCHEMA IF NOT EXISTS "| + |schema|
  {
    var sql := "CREATE SCHEMA IF NOT EXISTS " + schema;
    assert sql[|sql| - |schema|..] == schema;
    sql
  }

  /** The outbox table, qualified by the queue schema. */
  function OutboxTable(schema: string): (table: string)
    ensures StartsWith(table, schema + ".") && EndsWith(table, "message_outbox")
    ensures |table| == |schema| + |".message_outbox"|
  {
    var table := schema + ".message_outbox";
    assert table[..|schema| + 1] == schema + ".";
    assert table[|table| - 14..] == "message_outbox";
    table
  }

  /** The inbox table, qualified by the queue schema. */
  function InboxTable(schema: string): (table: string)
    ensures StartsWith(table, schema + ".") && EndsWith(table, "message_inbox")
    ensures |table| == |schema| + |".message_inbox"|
  {
    var table := schema + ".message_inbox";
    assert table[..|schema| + 1] == schema + ".";
    assert table[|table| - 13..] == "message_inbox";
    table
  }

  /** The outbox status index, named after the queue schema. */
  function OutboxIndex(schema: string): (index: string)
    ensures StartsWith(index, schema) && EndsWith(index, "_idx_outbox_status")
    ensures |index| == |schema| + |"_idx_outbox_status"|
  {
    var index := schema + "_idx_outbox_status";
    assert index[..|schema|] == schema;
    assert index[|schema|..] == "_idx_outbox_status";
    index
  }

  /** The inbox status index, named after the queue schema. */
  function InboxIndex(schema: string): (index: string)
    ensures StartsWith(index, schema) && EndsWith(index, "_idx_inbox_status")
    ensures |index| == |schema| + |"_idx_inbox_status"|
  {
    var index := schema + "_idx_inbox_status";
    assert index[..|schema|] == schema;
    assert index[|schema|..] == "_idx_inbox_status";
    index
  }

  /** The two tables and the two indexes of a queue schema are four different objects. */
  lemma QueueObjectsDistinct(schema: string)
    ensures OutboxTable(schema) != InboxTable(schema) && OutboxIndex(schema) != InboxIndex(schema)
    ensures OutboxTable(schema) != OutboxIndex(schema) && OutboxTable(schema) != InboxIndex(schema)
    ensures InboxTable(schema) != OutboxIndex(schema) && InboxTable(schema) != InboxIndex(schema)
  {
  }

  /** The five statements of the queue bootstrap, in the order they are issued: the schema, the outbox and
      inbox tables, the outbox and inbox status indexes. */
  function QueueDdl(schema: string, d: QueueDialect): (ddl: seq<string>)
    ensures |ddl| == 5
  {
    [CreateSchemaSql(schema),
     d.OutboxTableSql(OutboxTable(schema)),
     d.InboxTableSql(InboxTable(schema)),
     d.IndexSql(OutboxIndex(schema), OutboxTable(schema)),
     d.IndexSql(InboxIndex(schema), InboxTable(schema))]
  }

  /** The first statement creates the queue schema, guarded by `IF NOT EXISTS`. */
  lemma QueueDdlCreatesSchemaFirst(schema: string, d: QueueDialect)
    ensures StartsWith(QueueDdl(schema, d)[0], "CREATE SCHEMA IF NOT EXISTS ")
    ensures EndsWith(QueueDdl(schema, d)[0], schema)
    ensures |QueueDdl(schema, d)[0]| == |"CREATE SCHEMA IF NOT EXISTS "| + |schema|
  {
  }

  /** The second and third statements create the outbox and the inbox table, qualified by the queue
      schema and guarded by `IF NOT EXISTS`, each with the dialect's key type and table options. */
  lemma QueueDdlCreatesTablesNext(schema: string, d: QueueDialect)
    ensures var ddl := QueueDdl(schema, d);
      && StartsWith(ddl[1], "CREATE TABLE IF NOT EXISTS " + OutboxTable(schema) + " (")
      && StartsWith(ddl[2], "CREATE TABLE IF NOT EXISTS " + InboxTable(schema) + " (")
      && EndsWith(ddl[1], ")" + d.TableOptions()) && EndsWith(ddl[2], ")" + d.TableOptions())
      && Contains(ddl[1], d.KeyType()) && Contains(ddl[2], d.KeyType())
  {
    var outbox := d.OutboxTableSql(OutboxTable(schema));
    var inbox := d.InboxTableSql(InboxTable(schema));
    assert QueueDdl(schema, d)[1] == outbox && QueueDdl(schema, d)[2] == inbox;
  }

  /** The last two statements create the status indexes, named after the queue schema, on the two tables. */
  lemma QueueDdlIndexesLast(schema: string, d: QueueDialect)
    ensures var ddl := QueueDdl(schema, d);
      && StartsWith(ddl[3], "CREATE INDEX ") && Contains(ddl[3], OutboxIndex(schema))
      && EndsWith(ddl[3], " ON " + OutboxTable(schema) + " (status)")
      && StartsWith(ddl[4], "CREATE INDEX ") && Contains(ddl[4], InboxIndex(schema))
      && EndsWith(ddl[4], " ON " + InboxTable(schema) + " (status)")
  {
    IndexStatementShape(d, OutboxIndex(schema), OutboxTable(schema));
    IndexStatementShape(d, InboxIndex(schema), InboxTable(schema));
  }

  /** An index statement begins with `CREATE INDEX `, names its index and ends on the table's status. */
  lemma IndexStatementShape(d: QueueDialect, indexName: string, table: string)
    ensures StartsWith(d.IndexSql(indexName, table), "CREATE INDEX ")
    ensures Contains(d.IndexSql(indexName, table), indexName)
    ensures EndsWith(d.IndexSql(indexName, table), " ON " + table + " (status)")
  {
    var sql := d.IndexSql(indexName, table);
    var head := if d == MySql then "CREATE INDEX " else "CREATE INDEX IF NOT EXISTS ";
    assert sql[..|head|] == head;
    assert sql[..13] == head[..13];
    assert sql[|head|..|head| + |indexName|] == indexName;
    assert OccursAt(sql, indexName, |head|);
  }

  /** What one bootstrap does: the statements it issues and how it ends. */
  datatype Run = Run(issued: seq<string>, outcome: Result<(), Fault>)

  /** Runs the five bootstrap statements in order against a database that refuses `rejects`. The first
      refused schema or table statement ends the run and is the last one issued; index statements always
      run and never fail it. */
  function RunDdl(ddl: seq<string>, rejects: set<string>): (run: Run)
    requires |ddl| == 5
    ensures 0 < |run.issued| <= 5 && run.issued == ddl[..|run.issued|]
    ensures run.outcome.Ok? <==> ddl[0] !in rejects && ddl[1] !in rejects && ddl[2] !in rejects
    ensures run.outcome.Ok? ==> run.issued == ddl
    ensures run.outcome.Err? ==>
      var last := |run.issued| - 1;
      && last < 3 && ddl[last] in rejects && run.outcome.error == StatementRejected(ddl[last])
      && forall k :: 0 <= k < last ==> ddl[k] !in rejects
  {
    if ddl[0] in rejects then Run(ddl[..1], Err(StatementRejected(ddl[0])))
    else if ddl[1] in rejects then Run(ddl[..2], Err(StatementRejected(ddl[1])))
    else if ddl[2] in rejects then Run(ddl[..3], Err(StatementRejected(ddl[2])))
    else Run(ddl, Ok(()))
  }

  /** The bootstrap as a function of the queue schema, the product-name answer and the statements the
      database refuses: a failed vendor query issues nothing, otherwise the statements of the detected
      dialect run as `RunDdl` says. */
  function BootstrapRun(schema: string, metadata: Metadata, rejects: set<string>): (run: Run)
    ensures metadata.MetadataUnavailable? ==> run == Run([], Err(VendorUndetermined))
    ensures metadata.ProductName? ==> run == RunDdl(QueueDdl(schema, Detect(metadata).value), rejects)
  {
    match Detect(metadata)
    case Err(e) => Run([], Err(e))
    case Ok(d) => RunDdl(QueueDdl(schema, d), rejects)
  }

  /** Whether the database refuses the index statements changes nothing about the run: two databases
      that agree on the schema and table statements give the same run. */
  lemma IndexFailuresIgnored(ddl: seq<string>, r1: set<string>, r2: set<string>)
    requires |ddl| == 5
    requires forall k :: 0 <= k < 3 ==> (ddl[k] in r1 <==> ddl[k] in r2)
    ensures RunDdl(ddl, r1) == RunDdl(ddl, r2)
  {
  }

  /** Issuing the next statement extends the issued prefix by one. */
  lemma LogGrows(log0: seq<string>, ddl: seq<string>, k: nat)
    requires k < |ddl|
    ensures log0 + ddl[..k] + [ddl[k]] == log0 + ddl[..k + 1]
    ensures k == 0 ==> log0 + [ddl[0]] == log0 + ddl[..1]
  {
  }

  class DatabaseManager {
    const properties: DatabaseProperties
    /** The configured application name; null when the manager is built outside the framework that
        injects it (the framework's default is `unknown-service`). */
    const serviceName: Option<string>

    constructor (properties: DatabaseProperties, serviceName: Option<string>)
      ensures this.properties == properties && this.serviceName == serviceName
    {
      this.properties := properties;
      this.serviceName := serviceName;
    }

    /** The service schema for the current prefix. */
    function GenerateSchemaName(): (r: Result<string, Fault>)
      reads properties
      ensures r == SchemaName(properties.schemaPrefix, serviceName)
    {
      SchemaName(properties.GetSchemaPrefix(), serviceName)
    }

    /** The queue schema for the current suffix. */
    function GenerateQueueSchemaName(): (r: string)
      reads properties
      ensures r == QueueSchemaName(serviceName, properties.queueSchemaSuffix)
    {
      QueueSchemaName(serviceName, properties.GetQueueSchemaSuffix())
    }

    /** A table of the service schema. */
    function GenerateTableName(tableName: Option<string>): (r: Result<string, Fault>)
      reads properties
      ensures r == TableName(properties.schemaPrefix, serviceName, tableName)
    {
      TableName(properties.GetSchemaPrefix(), serviceName, tableName)
    }

    /** Issues the index statement and ignores its failure. */
    method ExecuteIndex(handle: Handle, dialect: QueueDialect, indexName: string, tableName: string)
      modifies handle`log
      ensures handle.log == old(handle.log) + [dialect.IndexSql(indexName, tableName)]
    {
      var _ := handle.Execute(dialect.IndexSql(indexName, tableName));
    }

    /** Detects the dialect, then creates the queue schema, the two tables and their indexes. */
    method CreateQueueSchemaAndTables(handle: Handle) returns (outcome: Result<(), Fault>)
      modifies handle`log
      ensures var run := BootstrapRun(GenerateQueueSchemaName(), handle.metadata, handle.rejects);
              handle.log == old(handle.log) + run.issued && outcome == run.outcome
    {
      var schema := GenerateQueueSchemaName();
      var outboxTable := OutboxTable(schema);
      var inboxTable := InboxTable(schema);
      var outboxIndex := OutboxIndex(schema);
      var inboxIndex := InboxIndex(schema);
      ghost var log0 := handle.log;

      var product := handle.ProductName();
      var detected := Detect(product);
      if detected.Err? {
        return Err(detected.error);
      }
      var dialect := detected.value;
      var createSchema := CreateSchemaSql(schema);
      var createOutbox := dialect.OutboxTableSql(outboxTable);
      var createInbox := dialect.InboxTableSql(inboxTable);
      ghost var ddl := [createSchema, createOutbox, createInbox,
                        dialect.IndexSql(outboxIndex, outboxTable), dialect.IndexSql(inboxIndex, inboxTable)];
      assert ddl == QueueDdl(schema, dialect);
      ghost var run := BootstrapRun(schema, handle.metadata, handle.rejects);
      assert log0 + ddl[..0] == log0;
      assert run == RunDdl(ddl, handle.rejects);

      var ok := handle.Execute(createSchema);
      LogGrows(log0, ddl, 0);
      assert handle.log == log0 + ddl[..1];
      if !ok {
        assert run == Run(ddl[..1], Err(StatementRejected(createSchema)));
        return Err(StatementRejected(createSchema));
      }
      ok := handle.Execute(createOutbox);
      LogGrows(log0, ddl, 1);
      assert handle.log == log0 + ddl[..2];
      if !ok {
        assert run == Run(ddl[..2], Err(StatementRejected(createOutbox)));
        return Err(StatementRejected(createOutbox));
      }
      ok := handle.Execute(createInbox);
      LogGrows(log0, ddl, 2);
      assert handle.log == log0 + ddl[..3];
      if !ok {
        assert run == Run(ddl[..3], Err(StatementRejected(createInbox)));
        return Err(StatementRejected(createInbox));
      }
      ExecuteIndex(handle, dialect, outboxIndex, outboxTable);
      LogGrows(log0, ddl, 3);
      assert handle.log == log0 + ddl[..4];
      ExecuteIndex(handle, dialect, inboxIndex, inboxTable);
      LogGrows(log0, ddl, 4);
      assert handle.log == log0 + ddl[..5];
      assert ddl[..5] == ddl;
      assert run == Run(ddl, Ok(()));
      outcome := Ok(());
    }

    /** Startup: the service schema name is derived (for the startup report) before anything else, so a
        null prefix or service name aborts startup; then the queue bootstrap runs if it is enabled. */
    method Init(handle: Handle) returns (outcome: Result<(), Fault>)
      modifies handle`log
      ensures GenerateSchemaName().Err? ==> outcome == Err(NullPointer) && handle.log == old(handle.log)
      ensures GenerateSchemaName().Ok? && !properties.autoCreateQueueSchema ==>
                outcome == Ok(()) && handle.log == old(handle.log)
      ensures GenerateSchemaName().Ok? && properties.autoCreateQueueSchema ==>
                var run := BootstrapRun(GenerateQueueSchemaName(), handle.metadata, handle.rejects);
                handle.log == old(handle.log) + run.issued && outcome == run.outcome
    {
      var serviceSchema := GenerateSchemaName();
      if serviceSchema.Err? {
        return Err(serviceSchema.error);
      }
      if properties.IsAutoCreateQueueSchema() {
        outcome := CreateQueueSchemaAndTables(handle);
      } else {
        outcome := Ok(());
      }
    }
  }
}
