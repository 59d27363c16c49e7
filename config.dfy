/** The `zula.database` configuration record: six settings, each with a default, read through getters
    and replaced through setters that check nothing. */
module Config {
  import opened Wrappers

  const DefaultSchemaPrefix := "zula"
  const DefaultQueueSchemaSuffix := "queue"

  class DatabaseProperties {
    var autoCreateSchema: bool
    var schemaPrefix: Option<string>
    var enableAuditing: bool
    var enableFlyway: bool
    var autoCreateQueueSchema: bool
    var queueSchemaSuffix: Option<string>

    /** A fresh record holds the defaults. */
    constructor ()
      ensures IsAutoCreateSchema() && IsEnableAuditing() && IsEnableFlyway() && IsAutoCreateQueueSchema()
      ensures GetSchemaPrefix() == Some(DefaultSchemaPrefix)
      ensures GetQueueSchemaSuffix() == Some(DefaultQueueSchemaSuffix)
    {
      autoCreateSchema := true;
      schemaPrefix := Some(DefaultSchemaPrefix);
      enableAuditing := true;
      enableFlyway := true;
      autoCreateQueueSchema := true;
      queueSchemaSuffix := Some(DefaultQueueSchemaSuffix);
    }

    function IsAutoCreateSchema(): bool reads this { autoCreateSchema }
    function GetSchemaPrefix(): Option<string> reads this { schemaPrefix }
    function IsEnableAuditing(): bool reads this { enableAuditing }
    function IsEnableFlyway(): bool reads this { enableFlyway }
    function IsAutoCreateQueueSchema(): bool reads this { autoCreateQueueSchema }
    function GetQueueSchemaSuffix(): Option<string> reads this { queueSchemaSuffix }

    // Each setter may change its own field and no other; its getter then returns the new value.

    method SetAutoCreateSchema(value: bool)
      modifies this`autoCreateSchema
      ensures IsAutoCreateSchema() == value
    {
      autoCreateSchema := value;
    }

    /** Accepts any prefix, including null and the empty string. */
    method SetSchemaPrefix(value: Option<string>)
      modifies this`schemaPrefix
      ensures GetSchemaPrefix() == value
    {
      schemaPrefix := value;
    }

    method SetEnableAuditing(value: bool)
      modifies this`enableAuditing
      ensures IsEnableAuditing() == value
    {
      enableAuditing := value;
    }

    method SetEnableFlyway(value: bool)
      modifies this`enableFlyway
      ensures IsEnableFlyway() == value
    {
      enableFlyway := value;
    }

    method SetAutoCreateQueueSchema(value: bool)
      modifies this`autoCreateQueueSchema
      ensures IsAutoCreateQueueSchema() == value
    {
      autoCreateQueueSchema := value;
    }

    /** Accepts any suffix, including null and the empty string. */
    method SetQueueSchemaSuffix(value: Option<string>)
      modifies this`queueSchemaSuffix
      ensures GetQueueSchemaSuffix() == value
    {
      queueSchemaSuffix := value;
    }
  }
}
