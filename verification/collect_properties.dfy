/**
 * What the collect statements promise about their text: every list is laid out entry by
 * entry in input order with its separator, the pieces shared between statements are the
 * same text in each, and nothing about the merge keys is checked.
 */
module CollectProperties {
  import opened Wrappers
  import opened Jdbc
  import opened SqlText
  import opened Collect

  /** Column list: one entry per schema column, `prefix + quote(name)`, in schema order. */
  lemma ColumnListLayout(base: BaseConnection, schema: JdbcSchema, prefix: string, i: nat)
    requires i < |schema|
    ensures |ColumnItems(base, schema, prefix)| == |schema|
    ensures var items := ColumnItems(base, schema, prefix);
      Occurs(Columns(base, schema, prefix), prefix + base.quoteIdentifierString(schema[i]), Offset(items, ", ", i))
    ensures var items := ColumnItems(base, schema, prefix);
      i + 1 < |schema| ==> Occurs(Columns(base, schema, prefix), ", ", Offset(items, ", ", i) + |items[i]|)
  ensures |Columns(base, schema, prefix)| + |", "| == Offset(ColumnItems(base, schema, prefix), ", ", |schema|)
  {
    JoinAt(ColumnItems(base, schema, prefix), ", ", i);
    JoinLength(ColumnItems(base, schema, prefix), ", ");
  }

  /**
   * The MERGE VALUES list is the INSERT column list with "S." before every entry: the same
   * number of entries in the same order, entry `i` shifted right by two characters per
   * earlier entry, and the whole list longer by two characters per column.
   */
  lemma {:induction false} ValuesListAligned(base: BaseConnection, schema: JdbcSchema, i: nat)
    requires i <= |schema|
    ensures |ColumnItems(base, schema, "S.")| == |ColumnItems(base, schema, "")|
    ensures i < |schema| ==> ColumnItems(base, schema, "S.")[i] == "S." + ColumnItems(base, schema, "")[i]
    ensures Offset(ColumnItems(base, schema, "S."), ", ", i) == Offset(ColumnItems(base, schema, ""), ", ", i) + 2 * i
  {
    if i > 0 {
      ValuesListAligned(base, schema, i - 1);
    }
  }

  /** So the VALUES list is longer than the INSERT column list by exactly two characters per column. */
  lemma ValuesListLength(base: BaseConnection, schema: JdbcSchema)
    ensures |Columns(base, schema, "S.")| == |Columns(base, schema, "")| + 2 * |schema|
  {
    if |schema| > 0 {
      JoinLength(ColumnItems(base, schema, "S."), ", ");
      JoinLength(ColumnItems(base, schema, ""), ", ");
      ValuesListAligned(base, schema, |schema|);
    }
  }

  /**
   * A custom merge rule is copied verbatim: fragment `i` appears unchanged at its offset, the
   * fragments are separated by ", ", and the schema plays no part in the SET list.
   */
  lemma CustomRuleVerbatim(base: BaseConnection, schema: JdbcSchema, otherSchema: JdbcSchema, rule: seq<string>, i: nat)
    requires i < |rule|
    ensures UpdateRule(base, schema, Some(rule)) == UpdateRule(base, otherSchema, Some(rule))
    ensures Occurs(UpdateRule(base, schema, Some(rule)), rule[i], Offset(rule, ", ", i))
    ensures i + 1 < |rule| ==> Occurs(UpdateRule(base, schema, Some(rule)), ", ", Offset(rule, ", ", i) + |rule[i]|)
    ensures |UpdateRule(base, schema, Some(rule))| + |", "| == Offset(rule, ", ", |rule|)
  {
    JoinAt(rule, ", ", i);
    JoinLength(rule, ", ");
  }

  /** Without a custom rule every schema column `c` is set as `quote(c) = S.quote(c)`, in schema order. */
  lemma DefaultRuleLayout(base: BaseConnection, schema: JdbcSchema, i: nat)
    requires i < |schema|
    ensures |UpdateRuleItems(base, schema, None)| == |schema|
    ensures var items := UpdateRuleItems(base, schema, None);
      var column := base.quoteIdentifierString(schema[i]);
      Occurs(UpdateRule(base, schema, None), column + " = S." + column, Offset(items, ", ", i))
    ensures var items := UpdateRuleItems(base, schema, None);
      i + 1 < |schema| ==> Occurs(UpdateRule(base, schema, None), ", ", Offset(items, ", ", i) + |items[i]|)
    ensures |UpdateRule(base, schema, None)| + |", "| == Offset(UpdateRuleItems(base, schema, None), ", ", |schema|)
  {
    JoinAt(UpdateRuleItems(base, schema, None), ", ", i);
    JoinLength(UpdateRuleItems(base, schema, None), ", ");
  }

  /**
   * The staging source: one SELECT of the full column list per staging table, in the given
   * order, separated by " UNION ALL " (so duplicate rows are kept).
   */
  lemma StagingUnionLayout(base: BaseConnection, fromTables: seq<TableIdentifier>, schema: JdbcSchema, i: nat)
    requires i < |fromTables|
    ensures |StagingItems(base, fromTables, schema)| == |fromTables|
    ensures var items := StagingItems(base, fromTables, schema);
      Occurs(StagingUnion(base, fromTables, schema),
             " SELECT " + Columns(base, schema, "") + " FROM " + base.quoteTableIdentifier(fromTables[i]),
             Offset(items, " UNION ALL ", i))
    ensures var items := StagingItems(base, fromTables, schema);
      i + 1 < |fromTables| ==>
        Occurs(StagingUnion(base, fromTables, schema), " UNION ALL ", Offset(items, " UNION ALL ", i) + |items[i]|)
  {
    JoinAt(StagingItems(base, fromTables, schema), " UNION ALL ", i);
  }

  /**
   * The staging union holds nothing beyond its SELECTs and separators: it is empty without
   * staging tables, and otherwise as long as the SELECTs plus one " UNION ALL " between each pair.
   */
  lemma StagingUnionLength(base: BaseConnection, fromTables: seq<TableIdentifier>, schema: JdbcSchema)
    ensures |fromTables| == 0 ==> StagingUnion(base, fromTables, schema) == ""
    ensures |fromTables| > 0 ==>
      |StagingUnion(base, fromTables, schema)| + |" UNION ALL "|
        == Offset(StagingItems(base, fromTables, schema), " UNION ALL ", |fromTables|)
  {
    JoinLength(StagingItems(base, fromTables, schema), " UNION ALL ");
  }

  /** The key condition: `T.quote(k) = S.quote(k)` per merge key, in key order, joined by " AND ". */
  lemma KeyConditionLayout(base: BaseConnection, mergeKeys: seq<string>, i: nat)
    requires i < |mergeKeys|
    ensures |KeyItems(base, mergeKeys)| == |mergeKeys|
    ensures var items := KeyItems(base, mergeKeys);
      var key := base.quoteIdentifierString(mergeKeys[i]);
      Occurs(KeyCondition(base, mergeKeys), "T." + key + " = S." + key, Offset(items, " AND ", i))
    ensures var items := KeyItems(base, mergeKeys);
      i + 1 < |mergeKeys| ==> Occurs(KeyCondition(base, mergeKeys), " AND ", Offset(items, " AND ", i) + |items[i]|)
    ensures |KeyCondition(base, mergeKeys)| + |" AND "| == Offset(KeyItems(base, mergeKeys), " AND ", |mergeKeys|)
  {
    JoinAt(KeyItems(base, mergeKeys), " AND ", i);
    JoinLength(KeyItems(base, mergeKeys), " AND ");
  }

  /** The MERGE matches rows on the key condition, in parentheses after " ON ". */
  lemma MergeMatchCondition(base: BaseConnection, fromTables: seq<TableIdentifier>, schema: JdbcSchema,
                            toTable: TableIdentifier, mergeConfig: MergeConfig)
    ensures var merge := CollectMergeSql(base, fromTables, schema, toTable, mergeConfig);
      Occurs(merge, " ON (" + KeyCondition(base, mergeConfig.mergeKeys) + ")" + " WHEN MATCHED THEN",
             |"MERGE INTO " + base.quoteTableIdentifier(toTable) + " AS T"
               + " USING (" + StagingUnion(base, fromTables, schema) + ") AS S"|)
  {
    var head := "MERGE INTO " + base.quoteTableIdentifier(toTable) + " AS T"
      + " USING (" + StagingUnion(base, fromTables, schema) + ") AS S";
    var keys := KeyCondition(base, mergeConfig.mergeKeys);
    var rule := UpdateRule(base, schema, mergeConfig.mergeRule);
    var t := " ON (" + keys + ")" + " WHEN MATCHED THEN";
    var s := head + " ON (";
    OccursAfter(head, " ON (");
    OccursGrown(s, " ON (", |head|, keys);
    s := s + keys;
    OccursGrown(s, " ON (" + keys, |head|, ")");
    s := s + ")";
    OccursGrown(s, " ON (" + keys + ")", |head|, " WHEN MATCHED THEN");
    s := s + " WHEN MATCHED THEN";
    OccursExtended(s, t, |head|, " UPDATE SET ");
    s := s + " UPDATE SET ";
    OccursExtended(s, t, |head|, rule);
    s := s + rule;
    OccursExtended(s, t, |head|, " WHEN NOT MATCHED THEN");
    s := s + " WHEN NOT MATCHED THEN";
    OccursExtended(s, t, |head|, " INSERT (");
    s := s + " INSERT (";
    OccursExtended(s, t, |head|, Columns(base, schema, ""));
    s := s + Columns(base, schema, "");
    OccursExtended(s, t, |head|, ") VALUES (");
    s := s + ") VALUES (";
    OccursExtended(s, t, |head|, Columns(base, schema, "S."));
    s := s + Columns(base, schema, "S.");
    OccursExtended(s, t, |head|, ");");
  }

  /** The MERGE match clause around an empty key condition. */
  lemma EmptyMatchCondition()
    ensures " ON (" + "" + ")" + " WHEN MATCHED THEN" == " ON () WHEN MATCHED THEN"
  {
    var t := " ON () WHEN MATCHED THEN";
    assert " ON (" + "" == " ON (";
    assert " ON (" + ")" == t[..6];
    assert t[..6] + " WHEN MATCHED THEN" == t;
  }

  /**
   * Merge keys are not validated: with none the join condition is empty, leaving the UPDATE
   * ending in " ON ", the NOT EXISTS test as " WHERE ) " and the MERGE condition as "ON ()".
   */
  lemma EmptyMergeKeys(base: BaseConnection, fromTables: seq<TableIdentifier>, schema: JdbcSchema,
                       toTable: TableIdentifier, mergeRule: Option<seq<string>>)
    ensures var config := MergeConfig([], mergeRule);
      var update := CollectUpdateSql(base, fromTables, schema, toTable, config);
      var insert := CollectInsertSql(base, fromTables, schema, toTable, config);
      && KeyCondition(base, []) == ""
      && update[|update| - 4..] == " ON "
      && insert[|insert| - 9..] == " WHERE ) "
    ensures var merge := CollectMergeSql(base, fromTables, schema, toTable, MergeConfig([], mergeRule));
      Occurs(merge, " ON () WHEN MATCHED THEN",
             |"MERGE INTO " + base.quoteTableIdentifier(toTable) + " AS T"
               + " USING (" + StagingUnion(base, fromTables, schema) + ") AS S"|)
  {
    MergeMatchCondition(base, fromTables, schema, toTable, MergeConfig([], mergeRule));
    assert KeyCondition(base, []) == "";
    EmptyMatchCondition();
  }

  /**
   * The UPDATE and MERGE statements carry the same SET list: right after "UPDATE T SET " in
   * the one, and right after "WHEN MATCHED THEN UPDATE SET " in the other.
   */
  lemma UpdateRuleShared(base: BaseConnection, fromTables: seq<TableIdentifier>, schema: JdbcSchema,
                         toTable: TableIdentifier, mergeConfig: MergeConfig)
    ensures var rule := UpdateRule(base, schema, mergeConfig.mergeRule);
      Occurs(CollectUpdateSql(base, fromTables, schema, toTable, mergeConfig), rule, |"UPDATE T SET "|)
    ensures var rule := UpdateRule(base, schema, mergeConfig.mergeRule);
      Occurs(CollectMergeSql(base, fromTables, schema, toTable, mergeConfig), rule,
             |"MERGE INTO " + base.quoteTableIdentifier(toTable) + " AS T"
               + " USING (" + StagingUnion(base, fromTables, schema) + ") AS S"
               + " ON (" + KeyCondition(base, mergeConfig.mergeKeys) + ")"
               + " WHEN MATCHED THEN" + " UPDATE SET "|)
  {
  }

  /**
   * All three statements read the same staging source `S`: the UNION ALL of the staging
   * SELECTs appears, as the same text, inside the parentheses that follow "JOIN",
   * "SELECT * FROM" and "USING".
   */
  lemma StagingUnionShared(base: BaseConnection, fromTables: seq<TableIdentifier>, schema: JdbcSchema,
                           toTable: TableIdentifier, mergeConfig: MergeConfig)
    ensures var staging := StagingUnion(base, fromTables, schema);
      Occurs(CollectUpdateSql(base, fromTables, schema, toTable, mergeConfig), staging,
             |"UPDATE T SET " + UpdateRule(base, schema, mergeConfig.mergeRule)
               + " FROM " + base.quoteTableIdentifier(toTable) + " AS T" + " JOIN ("|)
    ensures var staging := StagingUnion(base, fromTables, schema);
      Occurs(CollectInsertSql(base, fromTables, schema, toTable, mergeConfig), staging,
             |"INSERT INTO " + base.quoteTableIdentifier(toTable) + " (" + Columns(base, schema, "") + ") " + "SELECT * FROM ("|)
    ensures var staging := StagingUnion(base, fromTables, schema);
      Occurs(CollectMergeSql(base, fromTables, schema, toTable, mergeConfig), staging,
             |"MERGE INTO " + base.quoteTableIdentifier(toTable) + " AS T" + " USING ("|)
  {
    var staging := StagingUnion(base, fromTables, schema);
    var qt := base.quoteTableIdentifier(toTable);
    var rule := UpdateRule(base, schema, mergeConfig.mergeRule);
    var keys := KeyCondition(base, mergeConfig.mergeKeys);
    var columns := Columns(base, schema, "");

    var head := "UPDATE T SET " + rule + " FROM " + qt + " AS T" + " JOIN (";
    OccursAfter(head, staging);
    OccursExtended(head + staging, staging, |head|, ") AS S");
    OccursExtended(head + staging + ") AS S", staging, |head|, " ON ");
    OccursExtended(head + staging + ") AS S" + " ON ", staging, |head|, keys);

    head := "INSERT INTO " + qt + " (" + columns + ") " + "SELECT * FROM (";
    var s := head + staging;
    OccursAfter(head, staging);
    OccursExtended(s, staging, |head|, ") AS S");
    s := s + ") AS S";
    OccursExtended(s, staging, |head|, " WHERE NOT EXISTS (");
    s := s + " WHERE NOT EXISTS (";
    OccursExtended(s, staging, |head|, "SELECT 1 FROM ");
    s := s + "SELECT 1 FROM ";
    OccursExtended(s, staging, |head|, qt);
    s := s + qt;
    OccursExtended(s, staging, |head|, " AS T");
    s := s + " AS T";
    OccursExtended(s, staging, |head|, " WHERE ");
    s := s + " WHERE ";
    OccursExtended(s, staging, |head|, keys);
    s := s + keys;
    OccursExtended(s, staging, |head|, ") ");

    head := "MERGE INTO " + qt + " AS T" + " USING (";
    s := head + staging;
    OccursAfter(head, staging);
    OccursExtended(s, staging, |head|, ") AS S");
    s := s + ") AS S";
    OccursExtended(s, staging, |head|, " ON (");
    s := s + " ON (";
    OccursExtended(s, staging, |head|, keys);
    s := s + keys;
    OccursExtended(s, staging, |head|, ")");
    s := s + ")";
    OccursExtended(s, staging, |head|, " WHEN MATCHED THEN");
    s := s + " WHEN MATCHED THEN";
    OccursExtended(s, staging, |head|, " UPDATE SET ");
    s := s + " UPDATE SET ";
    OccursExtended(s, staging, |head|, rule);
    s := s + rule;
    OccursExtended(s, staging, |head|, " WHEN NOT MATCHED THEN");
    s := s + " WHEN NOT MATCHED THEN";
    OccursExtended(s, staging, |head|, " INSERT (");
    s := s + " INSERT (";
    OccursExtended(s, staging, |head|, columns);
    s := s + columns;
    OccursExtended(s, staging, |head|, ") VALUES (");
    s := s + ") VALUES (";
    OccursExtended(s, staging, |head|, Columns(base, schema, "S."));
    s := s + Columns(base, schema, "S.");
    OccursExtended(s, staging, |head|, ");");
  }

  /**
   * All three statements match target and staging rows on the same key condition: right
   * after " ON " in the UPDATE, after " WHERE " in the INSERT's NOT EXISTS test, and inside
   * the parentheses after " ON (" in the MERGE.
   */
  lemma KeyConditionShared(base: BaseConnection, fromTables: seq<TableIdentifier>, schema: JdbcSchema,
                           toTable: TableIdentifier, mergeConfig: MergeConfig)
    ensures var keys := KeyCondition(base, mergeConfig.mergeKeys);
      Occurs(CollectUpdateSql(base, fromTables, schema, toTable, mergeConfig), keys,
             |"UPDATE T SET " + UpdateRule(base, schema, mergeConfig.mergeRule)
               + " FROM " + base.quoteTableIdentifier(toTable) + " AS T"
               + " JOIN (" + StagingUnion(base, fromTables, schema) + ") AS S" + " ON "|)
    ensures var keys := KeyCondition(base, mergeConfig.mergeKeys);
      Occurs(CollectInsertSql(base, fromTables, schema, toTable, mergeConfig), keys,
             |"INSERT INTO " + base.quoteTableIdentifier(toTable)
               + " (" + Columns(base, schema, "") + ") "
               + "SELECT * FROM (" + StagingUnion(base, fromTables, schema) + ") AS S"
               + " WHERE NOT EXISTS (" + "SELECT 1 FROM " + base.quoteTableIdentifier(toTable) + " AS T"
               + " WHERE "|)
    ensures var keys := KeyCondition(base, mergeConfig.mergeKeys);
      Occurs(CollectMergeSql(base, fromTables, schema, toTable, mergeConfig), keys,
             |"MERGE INTO " + base.quoteTableIdentifier(toTable) + " AS T"
               + " USING (" + StagingUnion(base, fromTables, schema) + ") AS S" + " ON ("|)
  {
    var keys := KeyCondition(base, mergeConfig.mergeKeys);
    var qt := base.quoteTableIdentifier(toTable);
    var staging := StagingUnion(base, fromTables, schema);
    var rule := UpdateRule(base, schema, mergeConfig.mergeRule);
    var columns := Columns(base, schema, "");

    var head := "UPDATE T SET " + rule + " FROM " + qt + " AS T" + " JOIN (" + staging + ") AS S" + " ON ";
    OccursAfter(head, keys);

    head := "INSERT INTO " + qt + " (" + columns + ") " + "SELECT * FROM (" + staging + ") AS S"
      + " WHERE NOT EXISTS (" + "SELECT 1 FROM " + qt + " AS T" + " WHERE ";
    OccursAfter(head, keys);
    OccursExtended(head + keys, keys, |head|, ") ");

    head := "MERGE INTO " + qt + " AS T" + " USING (" + staging + ") AS S" + " ON (";
    var s := head + keys;
    OccursAfter(head, keys);
    OccursExtended(s, keys, |head|, ")");
    s := s + ")";
    OccursExtended(s, keys, |head|, " WHEN MATCHED THEN");
    s := s + " WHEN MATCHED THEN";
    OccursExtended(s, keys, |head|, " UPDATE SET ");
    s := s + " UPDATE SET ";
    OccursExtended(s, keys, |head|, rule);
    s := s + rule;
    OccursExtended(s, keys, |head|, " WHEN NOT MATCHED THEN");
    s := s + " WHEN NOT MATCHED THEN";
    OccursExtended(s, keys, |head|, " INSERT (");
    s := s + " INSERT (";
    OccursExtended(s, keys, |head|, columns);
    s := s + columns;
    OccursExtended(s, keys, |head|, ") VALUES (");
    s := s + ") VALUES (";
    OccursExtended(s, keys, |head|, Columns(base, schema, "S."));
    s := s + Columns(base, schema, "S.");
    OccursExtended(s, keys, |head|, ");");
  }

  /** A quoting strategy that leaves names as they are, for the worked example below. */
  function PlainNames(): BaseConnection
  {
    BaseConnection(s => s, (t: TableIdentifier) => t.tableName, (c: JdbcColumn) => c.simpleTypeName, (n, c) => SIZE)
  }

  /** The example's column lists. */
  lemma ExampleColumnLists()
    ensures Columns(PlainNames(), ["id", "name"], "") == "id, name"
    ensures Columns(PlainNames(), ["id", "name"], "S.") == "S.id, S.name"
  {
  }

  /** The example's staging source. */
  lemma ExampleStagingUnion()
    ensures StagingUnion(PlainNames(), [TableIdentifier(None, "S1"), TableIdentifier(None, "S2")], ["id", "name"])
         == " SELECT id, name FROM S1" + " UNION ALL " + " SELECT id, name FROM S2"
  {
  }

  /** The example's key condition and SET list. */
  lemma ExampleKeyAndRule()
    ensures KeyCondition(PlainNames(), ["id"]) == "T.id = S.id"
    ensures UpdateRule(PlainNames(), ["id", "name"], None) == "id = S.id, name = S.name"
  {
  }

  /**
   * A worked MERGE: staging tables S1 and S2, schema (id, name), merge key id, no custom rule.
   * Each staging SELECT starts with a space, so the union reads "( SELECT ..." and
   * "UNION ALL  SELECT" with two spaces.
   */
  lemma MergeExample()
    ensures CollectMergeSql(PlainNames(), [TableIdentifier(None, "S1"), TableIdentifier(None, "S2")], ["id", "name"],
                            TableIdentifier(None, "orders"), MergeConfig(["id"], None))
         == "MERGE INTO " + "orders" + " AS T"
          + " USING (" + " SELECT id, name FROM S1" + " UNION ALL " + " SELECT id, name FROM S2" + ") AS S"
          + " ON (" + "T.id = S.id" + ")"
          + " WHEN MATCHED THEN" + " UPDATE SET " + "id = S.id, name = S.name"
          + " WHEN NOT MATCHED THEN" + " INSERT (" + "id, name" + ") VALUES (" + "S.id, S.name" + ");"
  {
    ExampleColumnLists();
    ExampleStagingUnion();
    ExampleKeyAndRule();
  }
}
