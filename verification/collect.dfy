/**
 * The three statements that fold the staging tables into the target table (UPDATE ... JOIN,
 * INSERT ... WHERE NOT EXISTS, and MERGE), and the column-list helper they share.
 *
 * The functions say what text each builder produces, piece by piece; the methods grow the
 * text in a buffer with index loops, as the connector does, and are proved to produce it.
 */
module Collect {
  import opened Wrappers
  import opened Jdbc
  import opened SqlText

  /** One entry per schema column, in schema order: the prefix, then the quoted name. */
  function ColumnItems(base: BaseConnection, schema: JdbcSchema, prefix: string): seq<string>
  {
    seq(|schema|, i requires 0 <= i < |schema| => prefix + base.quoteIdentifierString(schema[i]))
  }

  /** The comma-separated column list. */
  function Columns(base: BaseConnection, schema: JdbcSchema, prefix: string): string
  {
    Join(ColumnItems(base, schema, prefix), ", ")
  }

  /** The custom merge rule's fragments, or `col = S.col` for every schema column. */
  function UpdateRuleItems(base: BaseConnection, schema: JdbcSchema, mergeRule: Option<seq<string>>): seq<string>
  {
    match mergeRule
    case Some(rule) => rule
    case None =>
      seq(|schema|, i requires 0 <= i < |schema| =>
        var column := base.quoteIdentifierString(schema[i]);
        column + " = S." + column)
  }

  /** The SET list shared by the UPDATE and MERGE statements. */
  function UpdateRule(base: BaseConnection, schema: JdbcSchema, mergeRule: Option<seq<string>>): string
  {
    Join(UpdateRuleItems(base, schema, mergeRule), ", ")
  }

  /** One SELECT of the full column list per staging table, in the order given. */
  function StagingItems(base: BaseConnection, fromTables: seq<TableIdentifier>, schema: JdbcSchema): seq<string>
  {
    seq(|fromTables|, i requires 0 <= i < |fromTables| =>
      " SELECT " + Columns(base, schema, "") + " FROM " + base.quoteTableIdentifier(fromTables[i]))
  }

  /** The staging source `S`: the staging SELECTs combined with UNION ALL. */
  function StagingUnion(base: BaseConnection, fromTables: seq<TableIdentifier>, schema: JdbcSchema): string
  {
    Join(StagingItems(base, fromTables, schema), " UNION ALL ")
  }

  /** One equality between target `T` and staging `S` per merge key, in key order. */
  function KeyItems(base: BaseConnection, mergeKeys: seq<string>): seq<string>
  {
    seq(|mergeKeys|, i requires 0 <= i < |mergeKeys| =>
      var mergeKey := base.quoteIdentifierString(mergeKeys[i]);
      "T." + mergeKey + " = S." + mergeKey)
  }

  /** The key join condition: the key equalities combined with AND. */
  function KeyCondition(base: BaseConnection, mergeKeys: seq<string>): string
  {
    Join(KeyItems(base, mergeKeys), " AND ")
  }

  function CollectUpdateSql(base: BaseConnection, fromTables: seq<TableIdentifier>, schema: JdbcSchema,
                            toTable: TableIdentifier, mergeConfig: MergeConfig): string
  {
    "UPDATE T SET " + UpdateRule(base, schema, mergeConfig.mergeRule)
      + " FROM " + base.quoteTableIdentifier(toTable) + " AS T"
      + " JOIN (" + StagingUnion(base, fromTables, schema) + ") AS S"
      + " ON " + KeyCondition(base, mergeConfig.mergeKeys)
  }

  function CollectInsertSql(base: BaseConnection, fromTables: seq<TableIdentifier>, schema: JdbcSchema,
                            toTable: TableIdentifier, mergeConfig: MergeConfig): string
  {
    "INSERT INTO " + base.quoteTableIdentifier(toTable)
      + " (" + Columns(base, schema, "") + ") "
      + "SELECT * FROM (" + StagingUnion(base, fromTables, schema) + ") AS S"
      + " WHERE NOT EXISTS (" + "SELECT 1 FROM " + base.quoteTableIdentifier(toTable) + " AS T"
      + " WHERE " + KeyCondition(base, mergeConfig.mergeKeys) + ") "
  }

  function CollectMergeSql(base: BaseConnection, fromTables: seq<TableIdentifier>, schema: JdbcSchema,
                           toTable: TableIdentifier, mergeConfig: MergeConfig): string
  {
    "MERGE INTO " + base.quoteTableIdentifier(toTable) + " AS T"
      + " USING (" + StagingUnion(base, fromTables, schema) + ") AS S"
      + " ON (" + KeyCondition(base, mergeConfig.mergeKeys) + ")"
      + " WHEN MATCHED THEN" + " UPDATE SET " + UpdateRule(base, schema, mergeConfig.mergeRule)
      + " WHEN NOT MATCHED THEN" + " INSERT (" + Columns(base, schema, "")
      + ") VALUES (" + Columns(base, schema, "S.") + ");"
  }

  /** The column list helper: `prefix + quoted name` for each column, comma-separated. */
  method BuildColumns(base: BaseConnection, schema: JdbcSchema, prefix: string) returns (s: string)
    ensures s == Columns(base, schema, prefix)
  {
    ghost var items := ColumnItems(base, schema, prefix);
    var sb := "";
    for i := 0 to |schema|
      invariant sb == Join(items[..i], ", ")
    {
      JoinStep(items, ", ", i);
      if i != 0 { sb := sb + ", "; }
      ghost var before := sb;
      sb := sb + prefix;
      sb := sb + base.quoteIdentifierString(schema[i]);
      assert sb == before + items[i];
    }
    assert items[..|schema|] == items;
    s := sb;
  }

  /**
   * Appends the update rule: the custom fragments verbatim, or `col = S.col` per column, each
   * after a ", " except the first. The UPDATE and MERGE builders run this same loop.
   */
  method AppendUpdateRule(sb0: string, base: BaseConnection, schema: JdbcSchema, mergeConfig: MergeConfig)
    returns (sb: string)
    ensures sb == sb0 + UpdateRule(base, schema, mergeConfig.mergeRule)
  {
    ghost var items := UpdateRuleItems(base, schema, mergeConfig.mergeRule);
    sb := sb0;
    if mergeConfig.mergeRule.Some? {
      var rule := mergeConfig.mergeRule.value;
      for i := 0 to |rule|
        invariant sb == sb0 + Join(items[..i], ", ")
      {
        JoinStepAfter(sb0, items, ", ", i);
        if i != 0 { sb := sb + ", "; }
        sb := sb + rule[i];
      }
      assert items[..|rule|] == items;
    } else {
      for i := 0 to |schema|
        invariant sb == sb0 + Join(items[..i], ", ")
      {
        JoinStepAfter(sb0, items, ", ", i);
        if i != 0 { sb := sb + ", "; }
        ghost var before := sb;
        var column := base.quoteIdentifierString(schema[i]);
        sb := sb + column;
        sb := sb + " = S.";
        sb := sb + column;
        assert sb == before + items[i];
      }
      assert items[..|schema|] == items;
    }
  }

  /**
   * Appends one staging SELECT per table, each after " UNION ALL " except the first. All three
   * builders run this same loop.
   */
  method AppendStagingUnion(sb0: string, base: BaseConnection, fromTables: seq<TableIdentifier>, schema: JdbcSchema)
    returns (sb: string)
    ensures sb == sb0 + StagingUnion(base, fromTables, schema)
  {
    ghost var items := StagingItems(base, fromTables, schema);
    sb := sb0;
    for i := 0 to |fromTables|
      invariant sb == sb0 + Join(items[..i], " UNION ALL ")
    {
      JoinStepAfter(sb0, items, " UNION ALL ", i);
      if i != 0 { sb := sb + " UNION ALL "; }
      ghost var before := sb;
      sb := sb + " SELECT ";
      var columns := BuildColumns(base, schema, "");
      sb := sb + columns;
      sb := sb + " FROM ";
      sb := sb + base.quoteTableIdentifier(fromTables[i]);
      assert items[i] == " SELECT " + columns + " FROM " + base.quoteTableIdentifier(fromTables[i]);
      assert sb == before + items[i];
    }
    assert items[..|fromTables|] == items;
  }

  /**
   * Appends one `T.key = S.key` per merge key, each after " AND " except the first. All three
   * builders run this same loop.
   */
  method AppendKeyCondition(sb0: string, base: BaseConnection, mergeKeys: seq<string>) returns (sb: string)
    ensures sb == sb0 + KeyCondition(base, mergeKeys)
  {
    ghost var items := KeyItems(base, mergeKeys);
    sb := sb0;
    for i := 0 to |mergeKeys|
      invariant sb == sb0 + Join(items[..i], " AND ")
    {
      JoinStepAfter(sb0, items, " AND ", i);
      if i != 0 { sb := sb + " AND "; }
      ghost var before := sb;
      var mergeKey := base.quoteIdentifierString(mergeKeys[i]);
      sb := sb + "T.";
      sb := sb + mergeKey;
      sb := sb + " = S.";
      sb := sb + mergeKey;
      assert sb == before + items[i];
    }
    assert items[..|mergeKeys|] == items;
  }

  method BuildCollectUpdateSql(base: BaseConnection, fromTables: seq<TableIdentifier>, schema: JdbcSchema,
                               toTable: TableIdentifier, mergeConfig: MergeConfig) returns (sql: string)
    ensures sql == CollectUpdateSql(base, fromTables, schema, toTable, mergeConfig)
  {
    var sb := "UPDATE T SET ";
    sb := AppendUpdateRule(sb, base, schema, mergeConfig);
    sb := sb + " FROM ";
    sb := sb + base.quoteTableIdentifier(toTable);
    sb := sb + " AS T";
    sb := sb + " JOIN (";
    sb := AppendStagingUnion(sb, base, fromTables, schema);
    sb := sb + ") AS S";
    sb := sb + " ON ";
    sb := AppendKeyCondition(sb, base, mergeConfig.mergeKeys);
    sql := sb;
  }

  method BuildCollectInsertSql(base: BaseConnection, fromTables: seq<TableIdentifier>, schema: JdbcSchema,
                               toTable: TableIdentifier, mergeConfig: MergeConfig) returns (sql: string)
    ensures sql == CollectInsertSql(base, fromTables, schema, toTable, mergeConfig)
  {
    var sb := "INSERT INTO ";
    sb := sb + base.quoteTableIdentifier(toTable);
    sb := sb + " (";
    var columns := BuildColumns(base, schema, "");
    sb := sb + columns;
    sb := sb + ") ";
    sb := sb + "SELECT * FROM (";
    sb := AppendStagingUnion(sb, base, fromTables, schema);
    sb := sb + ") AS S";
    sb := sb + " WHERE NOT EXISTS (";
    sb := sb + "SELECT 1 FROM ";
    sb := sb + base.quoteTableIdentifier(toTable);
    sb := sb + " AS T";
    sb := sb + " WHERE ";
    sb := AppendKeyCondition(sb, base, mergeConfig.mergeKeys);
    sb := sb + ") ";
    sql := sb;
  }

  method BuildCollectMergeSql(base: BaseConnection, fromTables: seq<TableIdentifier>, schema: JdbcSchema,
                              toTable: TableIdentifier, mergeConfig: MergeConfig) returns (sql: string)
    ensures sql == CollectMergeSql(base, fromTables, schema, toTable, mergeConfig)
  {
    var sb := "MERGE INTO ";
    sb := sb + base.quoteTableIdentifier(toTable);
    sb := sb + " AS T";
    sb := sb + " USING (";
    sb := AppendStagingUnion(sb, base, fromTables, schema);
    sb := sb + ") AS S";
    sb := sb + " ON (";
    sb := AppendKeyCondition(sb, base, mergeConfig.mergeKeys);
    sb := sb + ")";
    sb := sb + " WHEN MATCHED THEN";
    sb := sb + " UPDATE SET ";
    sb := AppendUpdateRule(sb, base, schema, mergeConfig);
    sb := sb + " WHEN NOT MATCHED THEN";
    sb := sb + " INSERT (";
    var columns := BuildColumns(base, schema, "");
    sb := sb + columns;
    sb := sb + ") VALUES (";
    var values := BuildColumns(base, schema, "S.");
    sb := sb + values;
    sb := sb + ");";
    sql := sb;
  }
}
