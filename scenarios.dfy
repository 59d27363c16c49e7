/** Worked examples of the naming rules, the dialect choice and the bootstrap, on concrete service names,
    product names and configurations. */
module Scenarios {
  import opened Wrappers
  import opened Faults
  import opened Text
  import opened Naming
  import opened Dialect
  import opened Config
  import opened Manager

  // The literal names used below, lower-cased and normalised.

  lemma LowerOrderService()
    ensures Lower("Order-Service") == "order-service"
  {
  }

  lemma LowerOrders()
    ensures Lower("Orders") == "orders"
  {
  }

  lemma LowerMessageOutbox()
    ensures Lower("Message_Outbox") == "message_outbox"
  {
  }

  lemma NormalizeOrderService()
    ensures NormalizeName(Some("Order-Service")) == "order_service"
  {
  }

  lemma NormalizeUnknownService()
    ensures NormalizeName(Some("unknown-service")) == "unknown_service"
  {
  }

  lemma NormalizeQueue()
    ensures NormalizeName(Some("Queue")) == "queue"
  {
  }

  /** A hyphenated, capitalised service name gets an underscore-only queue schema. */
  lemma OrderServiceQueueSchema()
    ensures NormalizeName(Some("Order-Service")) == "order_service"
    ensures QueueSchemaName(Some("Order-Service"), None) == "order_service_queue"
    ensures QueueSchemaName(Some("Order-Service"), Some("Queue")) == "order_service_queue"
    ensures QueueSchemaName(Some("Order-Service"), Some(DefaultQueueSchemaSuffix)) == "order_service_queue"
  {
    NormalizeOrderService();
    NormalizeQueue();
    NormalizeFixesIdent("queue");
    assert "order_service" + "_" + "queue" == "order_service_queue";
  }

  /** The framework's default service name and a missing one land in the same queue schema. */
  lemma UnknownServiceQueueSchema()
    ensures QueueSchemaName(Some("unknown-service"), None) == "unknown_service_queue"
    ensures QueueSchemaName(None, None) == "unknown_service_queue"
  {
    NormalizeUnknownService();
    assert "unknown_service" + "_" + "queue" == "unknown_service_queue";
  }

  /** The service schema only lower-cases the service name: a hyphen survives, and an empty prefix drops
      the separating underscore. */
  lemma ServiceSchemaNotNormalized()
    ensures SchemaName(Some("zula"), Some("Order-Service")) == Ok("zula_order-service")
    ensures SchemaName(Some(""), Some("Orders")) == Ok("orders")
  {
    LowerOrderService();
    LowerOrders();
    assert "zula" + "_" + "order-service" == "zula_order-service";
  }

  /** The default prefix with a service called `Orders`: schema `zula_orders`, table names qualified by it
      and lower-cased. */
  lemma DefaultPrefixNames()
    ensures SchemaName(Some(DefaultSchemaPrefix), Some("Orders")) == Ok("zula_orders")
    ensures TableName(Some(DefaultSchemaPrefix), Some("Orders"), Some("Message_Outbox")) == Ok("zula_orders.message_outbox")
  {
    LowerOrders();
    LowerMessageOutbox();
    assert "zula" + "_" + "orders" == "zula_orders";
    assert "zula_orders" + "." + "message_outbox" == "zula_orders.message_outbox";
  }

  /** The queue schema of `Orders` under the default suffix. */
  lemma OrdersQueueSchema()
    ensures QueueSchemaName(Some("Orders"), Some(DefaultQueueSchemaSuffix)) == "orders_queue"
    ensures QueueSchemaName(Some("orders"), Some(DefaultQueueSchemaSuffix)) == "orders_queue"
  {
    LowerOrders();
    LowerFixesNonUpper("orders");
    LowerFixesNonUpper("queue");
    NormalizeFixesIdent("orders");
    NormalizeFixesIdent("queue");
    assert "orders" + "_" + "queue" == "orders_queue";
  }

  /** MySQL and MariaDB, in any case, select the MySQL dialect. */
  lemma DetectMySqlFamily()
    ensures Detect(ProductName(Some("MySQL"))) == Ok(MySql)
    ensures Detect(ProductName(Some("MariaDB"))) == Ok(MySql)
  {
    var m := Lower("MySQL");
    assert m[0] == 'm' && m[1] == 'y' && m[2] == 's' && m[3] == 'q' && m[4] == 'l';
    assert OccursAt(m, "mysql", 0);
    var r := Lower("MariaDB");
    assert r[0] == 'm' && r[1] == 'a' && r[2] == 'r' && r[3] == 'i' && r[4] == 'a';
    assert r[0..5] == "maria";
    assert OccursAt(r, "maria", 0);
  }

  /** PostgreSQL, and a product neither test recognises, select the PostgreSQL dialect. */
  lemma DetectOthersArePostgres()
    ensures Detect(ProductName(Some("PostgreSQL"))) == Ok(Postgres)
    ensures Detect(ProductName(Some("H2"))) == Ok(Postgres)
  {
    var p := Lower("PostgreSQL");
    assert p[0] == 'p' && p[1] == 'o' && p[2] == 's' && p[3] == 't' && p[4] == 'g';
    assert p[5] == 'r' && p[6] == 'e' && p[7] == 's' && p[8] == 'q' && p[9] == 'l';
    NotContainsWithoutHead(p, "mysql");
    NotContainsWithoutHead(p, "maria");
    var h := Lower("H2");
    assert h[0] == 'h' && h[1] == '2';
    NotContainsWithoutHead(h, "mysql");
    NotContainsWithoutHead(h, "maria");
  }

  /** With the default properties, a service called `Orders` gets the schema `zula_orders`, the queue
      schema `orders_queue` and qualified table names in `zula_orders`. */
  method DefaultNames() returns (schema: Result<string, Fault>, queueSchema: string, table: Result<string, Fault>)
    ensures schema == Ok("zula_orders")
    ensures queueSchema == "orders_queue"
    ensures table == Ok("zula_orders.message_outbox")
  {
    DefaultPrefixNames();
    OrdersQueueSchema();
    var properties := new DatabaseProperties();
    var manager := new DatabaseManager(properties, Some("Orders"));
    schema := manager.GenerateSchemaName();
    queueSchema := manager.GenerateQueueSchemaName();
    table := manager.GenerateTableName(Some("Message_Outbox"));
  }

  /** Clearing the prefix drops it and its underscore; a null prefix makes the schema name fail, while the
      queue schema, which does not use the prefix, is unaffected. */
  method PrefixChanges() returns (empty: Result<string, Fault>, missing: Result<string, Fault>, queueSchema: string)
    ensures empty == Ok("orders")
    ensures missing == Err(NullPointer)
    ensures queueSchema == "orders_queue"
  {
    LowerOrders();
    OrdersQueueSchema();
    var properties := new DatabaseProperties();
    var manager := new DatabaseManager(properties, Some("Orders"));
    properties.SetSchemaPrefix(Some(""));
    empty := manager.GenerateSchemaName();
    properties.SetSchemaPrefix(None);
    missing := manager.GenerateSchemaName();
    queueSchema := manager.GenerateQueueSchemaName();
  }

  /** Changing every other setting leaves the schema prefix and the queue suffix at their defaults. */
  method OtherSettersKeepNames() returns (prefix: Option<string>, suffix: Option<string>)
    ensures prefix == Some(DefaultSchemaPrefix) && suffix == Some(DefaultQueueSchemaSuffix)
  {
    var properties := new DatabaseProperties();
    properties.SetAutoCreateSchema(false);
    properties.SetEnableAuditing(false);
    properties.SetEnableFlyway(false);
    properties.SetAutoCreateQueueSchema(false);
    prefix := properties.GetSchemaPrefix();
    suffix := properties.GetQueueSchemaSuffix();
  }

  /** On PostgreSQL with every statement accepted, startup under the default configuration issues the five
      queue statements in order, whatever the service is called. */
  method BootstrapOnPostgres(service: Option<string>) returns (outcome: Result<(), Fault>, log: seq<string>)
    requires service.Some?
    ensures outcome == Ok(())
    ensures log == QueueDdl(QueueSchemaName(service, Some(DefaultQueueSchemaSuffix)), Postgres)
  {
    DetectOthersArePostgres();
    var properties := new DatabaseProperties();
    var manager := new DatabaseManager(properties, service);
    var handle := new Handle(ProductName(Some("PostgreSQL")), {});
    outcome := manager.Init(handle);
    log := handle.log;
  }

  /** A rejected schema statement on MySQL stops the bootstrap: nothing after it is issued. */
  method BootstrapStopsAtSchema(service: Option<string>) returns (outcome: Result<(), Fault>, log: seq<string>)
    ensures var schemaSql := CreateSchemaSql(QueueSchemaName(service, Some(DefaultQueueSchemaSuffix)));
      outcome == Err(StatementRejected(schemaSql)) && log == [schemaSql]
  {
    DetectMySqlFamily();
    var properties := new DatabaseProperties();
    var manager := new DatabaseManager(properties, service);
    var schemaSql := CreateSchemaSql(manager.GenerateQueueSchemaName());
    var handle := new Handle(ProductName(Some("MySQL")), {schemaSql});
    outcome := manager.CreateQueueSchemaAndTables(handle);
    log := handle.log;
  }

  /** Without metadata nothing is issued; with the queue bootstrap switched off, startup issues nothing
      either, and a null prefix makes startup fail before any statement. */
  method BootstrapSkipped() returns (unavailable: Result<(), Fault>, disabled: Result<(), Fault>,
                                     nullPrefix: Result<(), Fault>, log: seq<string>)
    ensures unavailable == Err(VendorUndetermined)
    ensures disabled == Ok(())
    ensures nullPrefix == Err(NullPointer)
    ensures log == []
  {
    var properties := new DatabaseProperties();
    var manager := new DatabaseManager(properties, Some("Orders"));
    var handle := new Handle(MetadataUnavailable, {});
    unavailable := manager.Init(handle);
    properties.SetAutoCreateQueueSchema(false);
    disabled := manager.Init(handle);
    properties.SetAutoCreateQueueSchema(true);
    properties.SetSchemaPrefix(None);
    nullPrefix := manager.Init(handle);
    log := handle.log;
  }
}
