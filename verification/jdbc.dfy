/**
 * The value types the SQL Server dialect layer receives from the generic JDBC output
 * connector, and the members of that generic connector it calls but does not define.
 */
module Jdbc {
  import opened Wrappers

  /** The target engine: Azure Synapse Analytics, or any other SQL Server product. */
  datatype Product = AzureSynapseAnalytics | OtherProduct

  /** A table name with an optional schema qualifier (`null` schema in the source is `None`). */
  datatype TableIdentifier = TableIdentifier(schemaName: Option<string>, tableName: string)

  /** The column facts the type mapper reads: its name, simple type name and size parameter. */
  datatype JdbcColumn = JdbcColumn(name: string, simpleTypeName: string, sizeTypeParameter: int)

  /** The ordered column names of the target table; `getColumnName(i)` is `schema[i]`. */
  type JdbcSchema = seq<string>

  /** Merge keys, in order, and an optional custom list of update-rule fragments. */
  datatype MergeConfig = MergeConfig(mergeKeys: seq<string>, mergeRule: Option<seq<string>>)

  /** How a column type is declared: bare, or with size / scale qualifiers. */
  datatype ColumnDeclareType = SIMPLE | SIZE | SIZE_AND_SCALE | SIZE_AND_OPTIONAL_SCALE

  /**
   * The generic connector this dialect layer overrides, as a strategy: identifier quoting
   * and the default type mapping and declaration classification. Their definitions are not
   * part of this model, so every property proved here holds for any choice of them.
   */
  datatype BaseConnection = BaseConnection(
    quoteIdentifierString: string -> string,
    quoteTableIdentifier: TableIdentifier -> string,
    buildColumnTypeName: JdbcColumn -> string,
    getColumnDeclareType: (string, JdbcColumn) -> ColumnDeclareType)
}
