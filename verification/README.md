# SQL Server output connection: a Dafny model

This project models the SQL Server dialect layer of a JDBC bulk-output connector
(`SQLServerOutputConnection`). The layer overrides a generic JDBC output connection to do four things:

- map logical column types to SQL Server type names;
- decide which type names are declared without a size;
- build the text of the rename statement and of the three statements that fold staging tables
  into the target table (UPDATE … JOIN, INSERT … WHERE NOT EXISTS, MERGE);
- run table DDL with auto-commit forced on when the product is Azure Synapse Analytics.

The generic connection is not part of this model. Its members used here are fields of the
`Jdbc.BaseConnection` datatype, so every property holds for any choice of them:

- identifier quoting (`quoteIdentifierString`, `quoteTableIdentifier`);
- the default type mapping;
- the default declaration classification.

Modules:

- `Wrappers`: `Option`, which stands for Java's `null` and `Optional`.
- `Jdbc`: the value types. `Product` has two values: Azure Synapse Analytics, and any other
  product. `TableIdentifier` is an optional schema name plus a table name. `JdbcSchema` is the
  ordered column names. `MergeConfig` is the merge keys plus an optional merge rule.
- `SqlText`: `Join`, the text a `StringBuilder` holds after an index loop that appends the
  separator before every element but the first. `Offset` gives where each element starts, and
  the lemmas `JoinAt` and `JoinLength` fix every character of a join.
- `TypeMapping`: `buildColumnTypeName` and `getColumnDeclareType`, both pure.
- `Rename`: the two rename forms. The `sp_rename` form is built piece by piece in a buffer.
- `Collect`: specification functions give the text of each collect statement piece by piece.
  Methods build the same text with index loops and are proved to produce it. The source repeats
  three loops in several builders: the update rule, the staging union and the key condition.
  Each becomes one `Append…` method, which every builder that has that loop calls.
- `CollectProperties`: what the generated text promises. This covers the layout of every list,
  the pieces the statements share, missing merge keys, and a worked MERGE example.
- `DdlGuard`: `JdbcConnection` holds the auto-commit flag and a ghost log of what was done to
  it. `SqlServerOutputConnection` holds the product and runs the create, replace and drop DDL,
  through the auto-commit guard on Synapse only. The database's answer to the DDL is the
  parameter `failure`. A failure is an `Outcome` of `Threw`, which propagates to the caller.

The NVARCHAR case of the type switch has no `break`. Above 4000 it returns `"NVARCHAR(max)"`
itself. At 4000 or less it falls into the VARCHAR case. There the `> 8000` test cannot hold, so
it reaches the base default. An NVARCHAR column therefore never becomes `"VARCHAR(max)"`
(`TypeMapping.NVarcharNeverBecomesVarcharMax`).

## Model

| member | source | states |
|---|---|---|
| SqlText.JoinAt | embulk-output-sqlserver/src/main/java/org/embulk/output/sqlserver/SQLServerOutputConnection.java:251-255 | In a separator-joined list, element i appears verbatim at its offset, and the separator sits between element i and element i+1 |
| SqlText.JoinLength | embulk-output-sqlserver/src/main/java/org/embulk/output/sqlserver/SQLServerOutputConnection.java:251-255 | An empty list gives empty text. Otherwise the length is the sum of the elements plus one separator per adjacent pair |
| TypeMapping.BuildColumnTypeName | embulk-output-sqlserver/src/main/java/org/embulk/output/sqlserver/SQLServerOutputConnection.java:57-84 | BOOLEAN gives "BIT" and TIMESTAMP gives "DATETIME2" on every product. CLOB gives "NVARCHAR(4000)" on Synapse and "NVARCHAR(max)" elsewhere. NVARCHAR gives "NVARCHAR(max)" above 4000 and the base default otherwise. VARCHAR gives "VARCHAR(max)" above 8000 and the base default otherwise. Every other type name gives the base default |
| TypeMapping.NVarcharNeverBecomesVarcharMax | embulk-output-sqlserver/src/main/java/org/embulk/output/sqlserver/SQLServerOutputConnection.java:72-79 | The fall-through from NVARCHAR into the VARCHAR case never yields "VARCHAR(max)" for an NVARCHAR column |
| TypeMapping.SizeBoundaries | embulk-output-sqlserver/src/main/java/org/embulk/output/sqlserver/SQLServerOutputConnection.java:72-82 | NVARCHAR(4000) and VARCHAR(8000) use the base default; NVARCHAR(4001) gives "NVARCHAR(max)" and VARCHAR(8001) gives "VARCHAR(max)" |
| TypeMapping.GetColumnDeclareType | embulk-output-sqlserver/src/main/java/org/embulk/output/sqlserver/SQLServerOutputConnection.java:98-109 | "BIT" and "FLOAT" are SIMPLE. Every other type name gets the base classification |
| TypeMapping.DeclareTypeOfMappedColumn | embulk-output-sqlserver/src/main/java/org/embulk/output/sqlserver/SQLServerOutputConnection.java:59-109 | A BOOLEAN column is declared SIMPLE on every product. CLOB and TIMESTAMP columns get the base classification of their mapped type |
| Rename.BuildRenameTableSql | embulk-output-sqlserver/src/main/java/org/embulk/output/sqlserver/SQLServerOutputConnection.java:29-54 | On Synapse: "RENAME OBJECT " + quoted source table + " TO " + quoted new table name. Elsewhere: "EXEC sp_rename " + quote(source name, prefixed by "schema." when it has a schema) + ", " + quoted new table name + ", 'OBJECT'" |
| Rename.RenameIgnoresTargetSchema | embulk-output-sqlserver/src/main/java/org/embulk/output/sqlserver/SQLServerOutputConnection.java:36-53 | In both forms the new table's schema never changes the statement; only its bare name is used |
| Rename.RenameForms | embulk-output-sqlserver/src/main/java/org/embulk/output/sqlserver/SQLServerOutputConnection.java:33-46 | The Synapse statement starts with "RENAME OBJECT ". Any other product's starts with "EXEC sp_rename " and ends with ", 'OBJECT'" |
| Collect.BuildColumns | embulk-output-sqlserver/src/main/java/org/embulk/output/sqlserver/SQLServerOutputConnection.java:248-257 | The loop builds the column list: prefix + quoted name per column, in schema order, joined by ", " |
| Collect.AppendUpdateRule | embulk-output-sqlserver/src/main/java/org/embulk/output/sqlserver/SQLServerOutputConnection.java:118-131 | The loop appends the SET list: the merge-rule fragments joined by ", ", or "col = S.col" for each schema column when there is no rule (also lines 224-237) |
| Collect.AppendStagingUnion | embulk-output-sqlserver/src/main/java/org/embulk/output/sqlserver/SQLServerOutputConnection.java:136-142 | The loop appends one " SELECT cols FROM table" per staging table, joined by " UNION ALL " (also lines 169-175 and 204-210) |
| Collect.AppendKeyCondition | embulk-output-sqlserver/src/main/java/org/embulk/output/sqlserver/SQLServerOutputConnection.java:145-152 | The loop appends one "T.key = S.key" per merge key, joined by " AND " (also lines 182-189 and 213-220) |
| Collect.BuildCollectUpdateSql | embulk-output-sqlserver/src/main/java/org/embulk/output/sqlserver/SQLServerOutputConnection.java:111-155 | The result is "UPDATE T SET " + SET list + " FROM " + target + " AS T JOIN (" + staging union + ") AS S ON " + key condition |
| Collect.BuildCollectInsertSql | embulk-output-sqlserver/src/main/java/org/embulk/output/sqlserver/SQLServerOutputConnection.java:157-193 | The result is "INSERT INTO " + target + " (" + columns + ") SELECT * FROM (" + staging union + ") AS S WHERE NOT EXISTS (SELECT 1 FROM " + target + " AS T WHERE " + key condition + ") " |
| Collect.BuildCollectMergeSql | embulk-output-sqlserver/src/main/java/org/embulk/output/sqlserver/SQLServerOutputConnection.java:195-246 | The result is "MERGE INTO " + target + " AS T USING (" + staging union + ") AS S ON (" + key condition + ") WHEN MATCHED THEN UPDATE SET " + SET list + " WHEN NOT MATCHED THEN INSERT (" + columns + ") VALUES (" + S.-prefixed columns + ");" |
| CollectProperties.ColumnListLayout | embulk-output-sqlserver/src/main/java/org/embulk/output/sqlserver/SQLServerOutputConnection.java:248-257 | The column list has exactly one entry per schema column. Entry i is prefix + quote(name i), at its offset, followed by ", " unless it is last. The list is exactly as long as its entries plus the separators, so nothing follows the last entry |
| CollectProperties.ValuesListAligned | embulk-output-sqlserver/src/main/java/org/embulk/output/sqlserver/SQLServerOutputConnection.java:238-243 | The VALUES list has as many entries as the INSERT column list. Entry i is "S." + entry i, and it starts 2·i characters further right |
| CollectProperties.ValuesListLength | embulk-output-sqlserver/src/main/java/org/embulk/output/sqlserver/SQLServerOutputConnection.java:238-243 | The VALUES list is longer than the INSERT column list by exactly two characters per column |
| CollectProperties.CustomRuleVerbatim | embulk-output-sqlserver/src/main/java/org/embulk/output/sqlserver/SQLServerOutputConnection.java:118-122 | With a merge rule, each fragment appears unchanged, in order, separated by ", ", and the SET text holds nothing else. The schema plays no part |
| CollectProperties.DefaultRuleLayout | embulk-output-sqlserver/src/main/java/org/embulk/output/sqlserver/SQLServerOutputConnection.java:123-131 | Without a merge rule there is one "quote(c) = S.quote(c)" entry per schema column, in schema order, separated by ", ", and the SET text holds nothing else |
| CollectProperties.StagingUnionLayout | embulk-output-sqlserver/src/main/java/org/embulk/output/sqlserver/SQLServerOutputConnection.java:136-142 | There is one " SELECT " + full column list + " FROM " + quoted table per staging table, in the given order, separated by " UNION ALL " |
| CollectProperties.StagingUnionLength | embulk-output-sqlserver/src/main/java/org/embulk/output/sqlserver/SQLServerOutputConnection.java:136-142 | With no staging tables the union is empty. Otherwise it is exactly as long as its SELECTs plus one " UNION ALL " between each pair, so it holds nothing else |
| CollectProperties.KeyConditionLayout | embulk-output-sqlserver/src/main/java/org/embulk/output/sqlserver/SQLServerOutputConnection.java:145-152 | There is one "T.quote(k) = S.quote(k)" per merge key, in key order, separated by " AND ", and the condition holds nothing else |
| CollectProperties.EmptyMergeKeys | embulk-output-sqlserver/src/main/java/org/embulk/output/sqlserver/SQLServerOutputConnection.java:144-222 | Merge keys are not validated. With none, the condition is empty: the UPDATE ends in " ON ", the INSERT ends in " WHERE ) ", and the MERGE reads " ON () WHEN MATCHED THEN" right after the staging source |
| CollectProperties.UpdateRuleShared | embulk-output-sqlserver/src/main/java/org/embulk/output/sqlserver/SQLServerOutputConnection.java:117-237 | UPDATE and MERGE carry the same SET text. It follows "UPDATE T SET " in UPDATE and "WHEN MATCHED THEN UPDATE SET " in MERGE |
| CollectProperties.StagingUnionShared | embulk-output-sqlserver/src/main/java/org/embulk/output/sqlserver/SQLServerOutputConnection.java:135-211 | All three statements embed the same staging-union text, right after "JOIN (", "SELECT * FROM (" and "USING (" |
| CollectProperties.KeyConditionShared | embulk-output-sqlserver/src/main/java/org/embulk/output/sqlserver/SQLServerOutputConnection.java:144-221 | All three statements match rows on the same key-condition text: right after " ON " in UPDATE, after " WHERE " in the INSERT's NOT EXISTS test, and after " ON (" in MERGE |
| CollectProperties.MergeMatchCondition | embulk-output-sqlserver/src/main/java/org/embulk/output/sqlserver/SQLServerOutputConnection.java:211-222 | In the MERGE the key condition is wrapped as " ON (" + condition + ")" + " WHEN MATCHED THEN", right after the staging source |
| CollectProperties.MergeExample | embulk-output-sqlserver/src/main/java/org/embulk/output/sqlserver/SQLServerOutputConnection.java:195-246 | Example with unquoted names: staging tables S1 and S2, columns (id, name), key id, no rule. It gives exactly "MERGE INTO orders AS T USING ( SELECT id, name FROM S1 UNION ALL  SELECT id, name FROM S2) AS S ON (T.id = S.id) WHEN MATCHED THEN UPDATE SET id = S.id, name = S.name WHEN NOT MATCHED THEN INSERT (id, name) VALUES (S.id, S.name);" |
| DdlGuard.DdlEventsRestoreMode | embulk-output-sqlserver/src/main/java/org/embulk/output/sqlserver/SQLServerOutputConnection.java:265-306 | After create, replace or drop, auto-commit is back in the caller's mode and the log stays truthful. The DDL runs exactly once, and that one run is the member's own DDL: with auto-commit on for Synapse, and in the caller's mode otherwise. Other products never set auto-commit |
| DdlGuard.JdbcConnection.GetAutoCommit | embulk-output-sqlserver/src/main/java/org/embulk/output/sqlserver/SQLServerOutputConnection.java:269 | Returns the current auto-commit mode |
| DdlGuard.JdbcConnection.SetAutoCommit | embulk-output-sqlserver/src/main/java/org/embulk/output/sqlserver/SQLServerOutputConnection.java:271-274 | Sets the mode and logs the change; the connection invariant is kept |
| DdlGuard.JdbcConnection.RunBaseDdl | embulk-output-sqlserver/src/main/java/org/embulk/output/sqlserver/SQLServerOutputConnection.java:282-284 | Runs the base DDL in the current mode and logs it with that mode. The mode is unchanged, and the database's failure, if any, is thrown |
| DdlGuard.SqlServerOutputConnection.constructor | embulk-output-sqlserver/src/main/java/org/embulk/output/sqlserver/SQLServerOutputConnection.java:21-26 | Stores the connection and the product |
| DdlGuard.SqlServerOutputConnection.ExecuteDdlInAutoCommit | embulk-output-sqlserver/src/main/java/org/embulk/output/sqlserver/SQLServerOutputConnection.java:265-276 | Sets auto-commit on, runs the DDL with auto-commit on, and restores the saved mode whether the DDL completed or threw. The DDL's exception is passed to the caller |
| DdlGuard.SqlServerOutputConnection.CreateTable | embulk-output-sqlserver/src/main/java/org/embulk/output/sqlserver/SQLServerOutputConnection.java:278-286 | Runs through the guard on Synapse only, and directly in the caller's mode otherwise. The mode ends as it started, and the outcome is the DDL's |
| DdlGuard.SqlServerOutputConnection.ReplaceTable | embulk-output-sqlserver/src/main/java/org/embulk/output/sqlserver/SQLServerOutputConnection.java:288-296 | Runs through the guard on Synapse only, and directly in the caller's mode otherwise. The mode ends as it started, and the outcome is the DDL's |
| DdlGuard.SqlServerOutputConnection.DropTable | embulk-output-sqlserver/src/main/java/org/embulk/output/sqlserver/SQLServerOutputConnection.java:298-306 | Runs through the guard on Synapse only, and directly in the caller's mode otherwise. The mode ends as it started, and the outcome is the DDL's |

## Left out

- Base-class behaviour: identifier quoting, the default type mapping and declaration
  classification, and the create, replace and drop DDL are defined in the generic connector,
  which is not part of this model. Quoting and the defaults are parameters. The DDL is one
  logged step whose failure is a parameter, and it is assumed not to change auto-commit itself.
- `getAutoCommit` and `setAutoCommit` can themselves throw in JDBC. Only a failure of the DDL
  is modelled.
- `setSearchPath` is a no-op, and `supportsTableIfExistsClause` always returns `false`. Neither
  has logic to prove.
- The constructor passes `schemaName` to the generic connector. That value is not used by this
  layer and is not modelled.
- `TableIdentifier` is modelled by the two parts this file reads: schema name and table name.
  Anything else it carries reaches the text only through `quoteTableIdentifier`.
- `dropTable`'s `Statement` argument is not modelled; only the dropped table identifies the DDL.
- What the generated SQL does to rows is not modelled, including duplicate keys across staging
  tables and a rename followed by a rename back. Only the text is modelled.
- Java `null` for a table, column or key name, and the 32-bit range of `getSizeTypeParameter`,
  are not modelled. Sizes are unbounded integers; the comparisons with 4000 and 8000 behave the
  same on them.
