/** The two SQL dialects the queue schema is created in, the statements each one builds, and the choice of
    dialect from the product name the connection reports. */
module Dialect {
  import opened Wrappers
  import opened Faults
  import opened Text

  /** One column of a table definition, written `name definition`. */
  datatype Column = Column(name: string, definition: string) {
    function Sql(): string { name + " " + definition }
  }

  function ColumnNames(cols: seq<Column>): seq<string> {
    seq(|cols|, i requires 0 <= i < |cols| => cols[i].name)
  }

  /** The column definitions separated by commas, with no spaces around the commas. */
  function Render(cols: seq<Column>): string
    decreases |cols|
  {
    if |cols| == 0 then "" else if |cols| == 1 then cols[0].Sql() else cols[0].Sql() + "," + Render(cols[1..])
  }

  /** The message id column of both tables: the unique key that makes delivery idempotent. */
  const MessageIdColumn := Column("message_id", "VARCHAR(255) NOT NULL UNIQUE")

  /** The columns of `message_outbox`, in declaration order, as mapped by the outbox entity. */
  const OutboxColumnNames := ["id", "message_id", "message_type", "target_service", "payload", "status",
                              "sent_at", "retry_count", "created_at", "updated_at"]
  /** The columns of `message_inbox`, in declaration order, as mapped by the inbox entity. */
  const InboxColumnNames := ["id", "message_id", "message_type", "source_service", "payload", "status",
                             "processed_at", "created_at", "updated_at"]

  /** The database product name as the connection's metadata reports it: the query may fail, and the name
      it returns may be null. */
  datatype Metadata = MetadataUnavailable | ProductName(name: Option<string>)

  datatype QueueDialect = MySql | Postgres {

    /** The key column: an auto-incremented `BIGINT` in MySQL, a `BIGSERIAL` in PostgreSQL. */
    function IdColumn(): Column {
      Column("id", KeyPrefix() + KeyType() + " PRIMARY KEY")
    }

    /** What the key column declares before its key type: MySQL spells out the integer type. */
    function KeyPrefix(): string {
      if this == MySql then "BIGINT NOT NULL " else ""
    }

    function TimestampType(): string {
      if this == MySql then "DATETIME" else "TIMESTAMP"
    }

    function CreatedAtColumn(): Column {
      Column("created_at", TimestampType() + " DEFAULT CURRENT_TIMESTAMP")
    }

    function UpdatedAtColumn(): Column {
      match this
      case MySql => Column("updated_at", "DATETIME DEFAULT CURRENT_TIMESTAMP ON UPDATE CURRENT_TIMESTAMP")
      case Postgres => Column("updated_at", "TIMESTAMP DEFAULT CURRENT_TIMESTAMP")
    }

    /** A nullable timestamp column: MySQL spells out `NULL`, PostgreSQL leaves it implicit. */
    function NullableTimestamp(name: string): Column {
      match this
      case MySql => Column(name, "DATETIME NULL")
      case Postgres => Column(name, "TIMESTAMP")
    }

    /** The `i`-th column of `message_outbox`. */
    function OutboxColumn(i: nat): Column
      requires i < |OutboxColumnNames|
    {
      match i
      case 0 => IdColumn()
      case 1 => MessageIdColumn
      case 2 => Column("message_type", "VARCHAR(100) NOT NULL")
      case 3 => Column("target_service", "VARCHAR(100) NOT NULL")
      case 4 => Column("payload", "TEXT NOT NULL")
      case 5 => Column("status", "VARCHAR(50) NOT NULL")
      case 6 => NullableTimestamp("sent_at")
      case 7 => Column("retry_count", (if this == MySql then "INT" else "INTEGER") + " DEFAULT 0")
      case 8 => CreatedAtColumn()
      case 9 => UpdatedAtColumn()
    }

    /** The `i`-th column of `message_inbox`. */
    function InboxColumn(i: nat): Column
      requires i < |InboxColumnNames|
    {
      match i
      case 0 => IdColumn()
      case 1 => MessageIdColumn
      case 2 => Column("message_type", "VARCHAR(100) NOT NULL")
      case 3 => Column("source_service", "VARCHAR(100) NOT NULL")
      case 4 => Column("payload", "TEXT NOT NULL")
      case 5 => Column("status", "VARCHAR(50) NOT NULL")
      case 6 => NullableTimestamp("processed_at")
      case 7 => CreatedAtColumn()
      case 8 => UpdatedAtColumn()
    }

    function OutboxColumns(): seq<Column> {
      seq(|OutboxColumnNames|, i requires 0 <= i < |OutboxColumnNames| => OutboxColumn(i))
    }

    function InboxColumns(): seq<Column> {
      seq(|InboxColumnNames|, i requires 0 <= i < |InboxColumnNames| => InboxColumn(i))
    }

    /** What follows the column list: MySQL tables are created with the InnoDB engine. */
    function TableOptions(): string {
      if this == MySql then " ENGINE=InnoDB" else ""
    }

    /** A table statement is guarded by `IF NOT EXISTS`, ends with the dialect's table options and, when the
        key column comes first, names the key column's type. */
    function CreateTableSql(table: string, cols: seq<Column>): (sql: string)
      ensures StartsWith(sql, "CREATE TABLE IF NOT EXISTS " + table + " (")
      ensures EndsWith(sql, ")" + TableOptions())
      ensures |cols| > 0 && cols[0] == IdColumn() ==> Contains(sql, KeyType())
    {
      var head := "CREATE TABLE IF NOT EXISTS " + table + " (";
      var body := Render(cols);
      var tail := ")" + TableOptions();
      ConcatEnds(head, body, tail);
      if |cols| > 0 && cols[0] == IdColumn() then
        IdIsFirst(cols);
        ContainsInfix(head, body, tail, KeyType());
        head + body + tail
      else
        head + body + tail
    }

    /** The word of the key column's type that sets the two dialects apart. */
    function KeyType(): string {
      if this == MySql then "AUTO_INCREMENT" else "BIGSERIAL"
    }

    lemma KeyTypeInIdColumn()
      ensures Contains(IdColumn().Sql(), KeyType())
    {
      var w := KeyType();
      var before := "id " + KeyPrefix();
      assert IdColumn().Sql() == before + w + " PRIMARY KEY";
      assert OccursAt(w, w, 0);
      ContainsInfix(before, w, " PRIMARY KEY", w);
    }

    /** The rendered column list begins with the key column, and so names the key column's type. */
    lemma IdIsFirst(cols: seq<Column>)
      requires |cols| > 0 && cols[0] == IdColumn()
      ensures Contains(Render(cols), KeyType())
    {
      var t := IdColumn().Sql();
      var rest := if |cols| == 1 then "" else "," + Render(cols[1..]);
      assert Render(cols) == t + rest;
      KeyTypeInIdColumn();
      ContainsHead(t, rest, KeyType());
    }

    /** The outbox statement starts `CREATE TABLE IF NOT EXISTS <table> (`, declares the dialect's
        auto-numbered key and ends with the dialect's table options: `) ENGINE=InnoDB` in MySQL, a bare `)`
        in PostgreSQL. */
    function OutboxTableSql(table: string): (sql: string)
      ensures StartsWith(sql, "CREATE TABLE IF NOT EXISTS " + table + " (")
      ensures EndsWith(sql, ")" + TableOptions())
      ensures Contains(sql, KeyType())
    {
      CreateTableSql(table, OutboxColumns())
    }

    /** The inbox statement has the same shape as the outbox one. */
    function InboxTableSql(table: string): (sql: string)
      ensures StartsWith(sql, "CREATE TABLE IF NOT EXISTS " + table + " (")
      ensures EndsWith(sql, ")" + TableOptions())
      ensures Contains(sql, KeyType())
    {
      CreateTableSql(table, InboxColumns())
    }

    /** An index on the `status` column. PostgreSQL guards it with `IF NOT EXISTS`, MySQL has no such
        form; both name the index and put it on the `status` column of the table. */
    function IndexSql(indexName: string, tableName: string): (sql: string)
      ensures this == Postgres ==> StartsWith(sql, "CREATE INDEX IF NOT EXISTS " + indexName + " ")
      ensures this == MySql ==> StartsWith(sql, "CREATE INDEX " + indexName + " ")
      ensures EndsWith(sql, " ON " + tableName + " (status)")
      ensures |sql| == (if this == MySql then |"CREATE INDEX "| else |"CREATE INDEX IF NOT EXISTS "|)
                       + |indexName| + |" ON "| + |tableName| + |" (status)"|
    {
      var head := if this == MySql then "CREATE INDEX " else "CREATE INDEX IF NOT EXISTS ";
      var sql := head + indexName + " ON " + tableName + " (status)";
      assert sql == (head + indexName + " ") + ("ON " + tableName + " (status)");
      assert sql == (head + indexName) + (" ON " + tableName + " (status)");
      sql
    }
  }

  /** The outbox table has the listed columns in order, and its message id is unique. */
  lemma OutboxColumnsNamed(d: QueueDialect)
    ensures ColumnNames(d.OutboxColumns()) == OutboxColumnNames
    ensures d.OutboxColumns()[1] == MessageIdColumn
  {
  }

  /** The inbox table has the listed columns in order, and its message id is unique. */
  lemma InboxColumnsNamed(d: QueueDialect)
    ensures ColumnNames(d.InboxColumns()) == InboxColumnNames
    ensures d.InboxColumns()[1] == MessageIdColumn
  {
  }

  /** A rendered column list of two or more columns contains the second column's text. */
  lemma RenderShowsSecond(cols: seq<Column>)
    requires |cols| >= 2
    ensures Contains(Render(cols), cols[1].Sql())
  {
    var w := cols[1].Sql();
    var rest := if |cols| == 2 then "" else "," + Render(cols[2..]);
    assert cols[1..][0] == cols[1];
    assert cols[1..][1..] == cols[2..];
    assert Render(cols[1..]) == w + rest;
    assert OccursAt(w, w, 0);
    ContainsHead(w, rest, w);
    assert Render(cols) == (cols[0].Sql() + ",") + Render(cols[1..]);
    ContainsTail(cols[0].Sql() + ",", Render(cols[1..]), w);
  }

  /** A table statement of two or more columns contains the second column's text. */
  lemma TableSqlShowsSecond(d: QueueDialect, table: string, cols: seq<Column>)
    requires |cols| >= 2
    ensures Contains(d.CreateTableSql(table, cols), cols[1].Sql())
  {
    var head := "CREATE TABLE IF NOT EXISTS " + table + " (";
    RenderShowsSecond(cols);
    ContainsInfix(head, Render(cols), ")" + d.TableOptions(), cols[1].Sql());
  }

  /** The message id column is rendered `message_id VARCHAR(255) NOT NULL UNIQUE`. */
  lemma MessageIdColumnText()
    ensures MessageIdColumn.Sql() == "message_id VARCHAR(255) NOT NULL UNIQUE"
  {
  }

  /** The outbox statement declares the message id unique, in the text sent to the database. */
  lemma MessageIdUniqueInOutboxSql(d: QueueDialect, table: string)
    ensures Contains(d.OutboxTableSql(table), MessageIdColumn.Sql())
  {
    OutboxColumnsNamed(d);
    TableSqlShowsSecond(d, table, d.OutboxColumns());
  }

  /** The inbox statement declares the message id unique, in the text sent to the database. */
  lemma MessageIdUniqueInInboxSql(d: QueueDialect, table: string)
    ensures Contains(d.InboxTableSql(table), MessageIdColumn.Sql())
  {
    InboxColumnsNamed(d);
    TableSqlShowsSecond(d, table, d.InboxColumns());
  }

  /** MySQL when the lower-cased product name mentions `mysql` or `maria`. */
  predicate NamesMySql(lowered: string) {
    Contains(lowered, "mysql") || Contains(lowered, "maria")
  }

  /** Picks the dialect from the product name. The MySQL test comes first; the PostgreSQL test and the
      fall-through both give PostgreSQL, as does a null name; a failing metadata query is an error. */
  function Detect(metadata: Metadata): (r: Result<QueueDialect, Fault>)
    ensures r.Err? <==> metadata.MetadataUnavailable?
    ensures r.Err? ==> r.error == VendorUndetermined
    ensures r == Ok(MySql) <==> metadata.ProductName? && metadata.name.Some? && NamesMySql(Lower(metadata.name.value))
    ensures metadata == ProductName(None) ==> r == Ok(Postgres)
  {
    match metadata
    case MetadataUnavailable => Err(VendorUndetermined)
    case ProductName(None) => Ok(Postgres)
    case ProductName(Some(name)) =>
      var normalized := Lower(name);
      if Contains(normalized, "mysql") || Contains(normalized, "maria") then Ok(MySql)
      else if Contains(normalized, "postgres") || Contains(normalized, "pgsql") then Ok(Postgres)
      else Ok(Postgres)
  }
}
