/**
 * The rename statement, in the two forms the products accept: the `sp_rename` stored
 * procedure, and the `RENAME OBJECT` statement of Azure Synapse Analytics.
 */
module Rename {
  import opened Wrappers
  import opened Jdbc

  /** The object name passed to `sp_rename`: the table, qualified by its schema when it has one. */
  function SpRenameSource(fromTable: TableIdentifier): string
  {
    match fromTable.schemaName
    case None => fromTable.tableName
    case Some(schema) => schema + "." + fromTable.tableName
  }

  /** Synapse form: the fully quoted source table, then the bare new table name. */
  function RenameTableSqlForAzureSynapseAnalytics(base: BaseConnection, fromTable: TableIdentifier, toTable: TableIdentifier): string
  {
    "RENAME OBJECT " + base.quoteTableIdentifier(fromTable) + " TO " + base.quoteIdentifierString(toTable.tableName)
  }

  /** The statement each product receives (the value BuildRenameTableSql must produce). */
  function RenameTableSql(product: Product, base: BaseConnection, fromTable: TableIdentifier, toTable: TableIdentifier): string
  {
    if product == AzureSynapseAnalytics then
      RenameTableSqlForAzureSynapseAnalytics(base, fromTable, toTable)
    else
      "EXEC sp_rename " + base.quoteIdentifierString(SpRenameSource(fromTable)) + ", "
        + base.quoteIdentifierString(toTable.tableName) + ", 'OBJECT'"
  }

  /** Builds the rename statement; the `sp_rename` form grows a buffer piece by piece. */
  method BuildRenameTableSql(product: Product, base: BaseConnection, fromTable: TableIdentifier, toTable: TableIdentifier)
    returns (sql: string)
    ensures sql == RenameTableSql(product, base, fromTable, toTable)
    ensures product == AzureSynapseAnalytics ==>
      sql == "RENAME OBJECT " + base.quoteTableIdentifier(fromTable) + " TO " + base.quoteIdentifierString(toTable.tableName)
    ensures product != AzureSynapseAnalytics && fromTable.schemaName.None? ==>
      sql == "EXEC sp_rename " + base.quoteIdentifierString(fromTable.tableName) + ", "
        + base.quoteIdentifierString(toTable.tableName) + ", 'OBJECT'"
    ensures product != AzureSynapseAnalytics && fromTable.schemaName.Some? ==>
      sql == "EXEC sp_rename " + base.quoteIdentifierString(fromTable.schemaName.value + "." + fromTable.tableName) + ", "
        + base.quoteIdentifierString(toTable.tableName) + ", 'OBJECT'"
  {
    if product == AzureSynapseAnalytics {
      return RenameTableSqlForAzureSynapseAnalytics(base, fromTable, toTable);
    }
    var sb := "EXEC sp_rename ";
    if fromTable.schemaName.None? {
      sb := sb + base.quoteIdentifierString(fromTable.tableName);
    } else {
      sb := sb + base.quoteIdentifierString(fromTable.schemaName.value + "." + fromTable.tableName);
    }
    sb := sb + ", ";
    sb := sb + base.quoteIdentifierString(toTable.tableName);
    sb := sb + ", 'OBJECT'";
    sql := sb;
  }

  /**
   * Neither form can move a table to another schema: only the new table's bare name is
   * used, so its schema qualifier never changes the statement.
   */
  lemma RenameIgnoresTargetSchema(product: Product, base: BaseConnection, fromTable: TableIdentifier,
                                  toTable: TableIdentifier, otherSchema: Option<string>)
    ensures RenameTableSql(product, base, fromTable, toTable)
         == RenameTableSql(product, base, fromTable, TableIdentifier(otherSchema, toTable.tableName))
  {
  }

  /**
   * The two forms are told apart by their leading keywords, and the `sp_rename` form always
   * names the object class last.
   */
  lemma RenameForms(product: Product, base: BaseConnection, fromTable: TableIdentifier, toTable: TableIdentifier)
    ensures var sql := RenameTableSql(product, base, fromTable, toTable);
      if product == AzureSynapseAnalytics then sql[..14] == "RENAME OBJECT "
      else sql[..15] == "EXEC sp_rename " && sql[|sql| - 10..] == ", 'OBJECT'"
  {
    var sql := RenameTableSql(product, base, fromTable, toTable);
    if product == AzureSynapseAnalytics {
      assert sql == "RENAME OBJECT " + (base.quoteTableIdentifier(fromTable) + " TO " + base.quoteIdentifierString(toTable.tableName));
    } else {
      var mid := base.quoteIdentifierString(SpRenameSource(fromTable)) + ", " + base.quoteIdentifierString(toTable.tableName);
      assert sql == "EXEC sp_rename " + mid + ", 'OBJECT'";
    }
  }
}
