/**
 * The SQL Server column type mapper and declaration classifier: logical column types become
 * physical type text, and two physical type names are declared without size qualifiers.
 */
module TypeMapping {
  import opened Jdbc

  /**
   * The physical type for column `c`. NVARCHAR, when not oversized, falls through into the
   * VARCHAR case exactly as the switch does; every unlisted name uses the base mapping.
   */
  function BuildColumnTypeName(product: Product, base: BaseConnection, c: JdbcColumn): (r: string)
    ensures c.simpleTypeName == "BOOLEAN" ==> r == "BIT"
    ensures c.simpleTypeName == "TIMESTAMP" ==> r == "DATETIME2"
    ensures c.simpleTypeName == "CLOB" && product == AzureSynapseAnalytics ==> r == "NVARCHAR(4000)"
    ensures c.simpleTypeName == "CLOB" && product != AzureSynapseAnalytics ==> r == "NVARCHAR(max)"
    ensures c.simpleTypeName == "NVARCHAR" ==>
      r == if c.sizeTypeParameter > 4000 then "NVARCHAR(max)" else base.buildColumnTypeName(c)
    ensures c.simpleTypeName == "VARCHAR" ==>
      r == if c.sizeTypeParameter > 8000 then "VARCHAR(max)" else base.buildColumnTypeName(c)
    ensures c.simpleTypeName !in {"BOOLEAN", "CLOB", "TIMESTAMP", "NVARCHAR", "VARCHAR"} ==>
      r == base.buildColumnTypeName(c)
  {
    var t := c.simpleTypeName;
    if t == "BOOLEAN" then "BIT"
    else if t == "CLOB" then
      // Synapse does not support unbounded large-object types
      if product == AzureSynapseAnalytics then "NVARCHAR(4000)" else "NVARCHAR(max)"
    else if t == "TIMESTAMP" then "DATETIME2"
    else if t == "NVARCHAR" && c.sizeTypeParameter > 4000 then "NVARCHAR(max)"
    // the NVARCHAR case has no break: it continues into the VARCHAR case
    else if (t == "NVARCHAR" || t == "VARCHAR") && c.sizeTypeParameter > 8000 then "VARCHAR(max)"
    else base.buildColumnTypeName(c)
  }

  /** The physical type names declared without any size or precision suffix. */
  const SimpleTypeNames: seq<string> := ["BIT", "FLOAT"]

  /** SIMPLE for the two listed names; every other name is classified by the base connector. */
  function GetColumnDeclareType(base: BaseConnection, convertedTypeName: string, col: JdbcColumn): (r: ColumnDeclareType)
    ensures convertedTypeName == "BIT" || convertedTypeName == "FLOAT" ==> r == SIMPLE
    ensures convertedTypeName != "BIT" && convertedTypeName != "FLOAT" ==>
      r == base.getColumnDeclareType(convertedTypeName, col)
  {
    if convertedTypeName in SimpleTypeNames then SIMPLE
    else base.getColumnDeclareType(convertedTypeName, col)
  }

  /**
   * The fall-through from NVARCHAR into VARCHAR never changes the outcome: an NVARCHAR column
   * never gets "VARCHAR(max)" from this layer, whatever its size.
   */
  lemma NVarcharNeverBecomesVarcharMax(product: Product, base: BaseConnection, c: JdbcColumn)
    requires c.simpleTypeName == "NVARCHAR"
    requires base.buildColumnTypeName(c) != "VARCHAR(max)"
    ensures BuildColumnTypeName(product, base, c) != "VARCHAR(max)"
  {
  }

  /** The boundary sizes: 4000 and 8000 still use the base mapping, one more switches to "(max)". */
  lemma SizeBoundaries(product: Product, base: BaseConnection, name: string)
    ensures BuildColumnTypeName(product, base, JdbcColumn(name, "NVARCHAR", 4000)) == base.buildColumnTypeName(JdbcColumn(name, "NVARCHAR", 4000))
    ensures BuildColumnTypeName(product, base, JdbcColumn(name, "NVARCHAR", 4001)) == "NVARCHAR(max)"
    ensures BuildColumnTypeName(product, base, JdbcColumn(name, "VARCHAR", 8000)) == base.buildColumnTypeName(JdbcColumn(name, "VARCHAR", 8000))
    ensures BuildColumnTypeName(product, base, JdbcColumn(name, "VARCHAR", 8001)) == "VARCHAR(max)"
  {
  }

  /**
   * What the two members give together for a column: BOOLEAN columns are declared SIMPLE as
   * "BIT" on every product; CLOB and TIMESTAMP declarations are classified by the base connector.
   */
  lemma DeclareTypeOfMappedColumn(product: Product, base: BaseConnection, c: JdbcColumn)
    ensures c.simpleTypeName == "BOOLEAN" ==>
      GetColumnDeclareType(base, BuildColumnTypeName(product, base, c), c) == SIMPLE
    ensures c.simpleTypeName in {"CLOB", "TIMESTAMP"} ==>
      var t := BuildColumnTypeName(product, base, c);
      GetColumnDeclareType(base, t, c) == base.getColumnDeclareType(t, c)
  {
  }
}
