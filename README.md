# Bulk upsert for Entity Framework Core on PostgreSQL, modelled in Dafny

The library writes a batch of entities into a PostgreSQL table in one transaction:

1. it creates a temporary staging table `LIKE` the target table and drops the identity of its `"Id"` column;
2. it streams every entity into the staging table with a binary `COPY`, one row per entity and one value per property;
3. it merges the staging table into the target with `INSERT ... OVERRIDING SYSTEM VALUE SELECT ... ON CONFLICT (key) DO NOTHING | DO UPDATE SET ... WHERE condition`;
4. it commits.

The merge condition is a C# lambda `(existing, incoming) => ...`. A visitor translates its expression tree into the SQL text after `WHERE`.

The pipeline exists twice in the repository, almost word for word: `src/BulkHogan` and `src/EfficientBulkOperations`. The two copies differ only in visibility modifiers, a `readonly` on the buffer, culture arguments to `Append`, an unused `BatchSize` option, and the translation entry point: an extension method `ConvertConditionToSQL` in `BulkHogan`, a private static `ConvertExpressionToSql` in the other copy. Both create a fresh visitor, visit the lambda and return the buffer. The model is written once. The Model table cites the `BulkHogan` copy; the table below gives the matching lines of the other copy.

| part | src/BulkHogan | src/EfficientBulkOperations |
|---|---|---|
| entry point | BulkOperations.cs:12-22 | BulkOperations.cs:258-268 |
| staging | BulkOperations.cs:24-100 | BulkOperations.cs:12-88 |
| merge | BulkOperations.cs:102-181 | BulkOperations.cs:90-169 |
| translation entry | Extensions/ExpressionExtensions.cs:9-14 | BulkOperations.cs:171-176 |
| visitor | Extensions/ExpressionExtensions.cs:16-93 | BulkOperations.cs:178-256 |
| options | BulkOptions.cs:5-10 | BulkOptions.cs:6-11 |

## Structure

- `wrappers.dfy`: `Option` and `Result`.
- `translator.dfy` (module `Translator`):
  - the expression tree;
  - `Render`, the pure printer;
  - `Issues`, every unsupported node in visiting order;
  - the class `MergeConditionVisitor`, with its string buffer appended in place, proved equal to `Render`.
- `statements.dfy` (module `Statements`):
  - the table metadata and `BulkOptions`;
  - the CREATE, ALTER and COPY texts and the merge statement, with the exact whitespace of the verbatim strings;
  - `Except` (`Enumerable.Except`, ordered and distinct) and its reference filter `Without`;
  - a reader for the column list.
- `rowstream.dfy` (module `RowStream`):
  - the binary importer as a class whose `events` sequence is the sink;
  - the nested `StartRow`/`Write` loop, proved equal to `CopyEvents`;
  - `Decode`, how the stream reads back as rows.
- `pipeline.dfy` (module `Pipeline`):
  - the database context as a class whose trace records what it is asked to do, with a fixed set of operations that throw;
  - the staging, merge and entry-point methods, each proved against a function on the trace (`Staging`, `Merging`, `BulkOperation`);
  - lemmas about those functions.

Where this model's behaviour may surprise a reader, it follows the code:

- A parameter named anything other than `existing` is the incoming row. With `(current, incoming) => current.Name == incoming.Name`, both sides print as `EXCLUDED` (`Translator.CurrentIncomingBothExcluded`). The test service that writes this condition also sets `DoNothing` (src/EfficientBulkOperationsTests/CustomerService.cs:35), so in that call the condition is never translated (`Statements.DoNothingIgnoresCondition`).
- Unary nodes are walked into and not printed, because the visitor has no case for them. So `!(a == b)` prints as `(a = b)` (`Translator.NegationIsDropped`).
- String constants are quoted but not escaped (`Translator.QuotedConstantsAreAmbiguous`). Names are double-quoted but not escaped (`Statements.QuotedNamesAreAmbiguous`).
- CREATE writes the schema unquoted (`schema."T"`). The merge writes it quoted (`"schema"."T"`).
- COPY names the staging table unquoted. The merge's `FROM` names it quoted. The generated name `temp_<32 lower-case hex digits>` reads the same either way.
- The merge condition is translated only when the merge statement is built. An untranslatable condition therefore throws after the staging table has been created and filled, and the transaction is rolled back (`Pipeline.UntranslatableConditionFailsAfterStaging`).
- The `WHERE` condition names a member by its property name (`existing.Name` prints `target."Name"`). The INSERT, SELECT, SET and conflict-key lists use the mapped column names. When a property is mapped to a column with a different name, the condition names a column the rest of the statement does not use. The model keeps the two as unrelated strings: a `Member` node carries the member name, and `TableMeta` carries the column names.
- The primary key is looked up only when the merge statement is built. An entity type without one therefore also fails after CREATE, ALTER and COPY have run (`Pipeline.MissingKeyFailsAfterStaging`).

## Model

| member | source | states |
|---|---|---|
| Translator.Render | src/BulkHogan/Extensions/ExpressionExtensions.cs:21-92 | the definition of the translation (no contract of its own): a binary node prints `(` left token right `)`, checking left operand, operator and right operand in that order; a member access prints `alias."Member"` on a parameter and fails otherwise; a constant prints its text, single-quoted without escaping when it is a string; a unary node prints its operand; a bare parameter prints nothing |
| Translator.Alias | src/BulkHogan/Extensions/ExpressionExtensions.cs:73 | the definition of the alias rule (no contract of its own): exactly the parameter named `existing` prints as `target`, every other parameter as `EXCLUDED` |
| Translator.OperatorToken | src/BulkHogan/Extensions/ExpressionExtensions.cs:26-62 | exactly the eight comparison and logical node types have a token (the `Other` node types have none); every token is padded with a space on each side |
| Translator.BinaryIsParenthesised | src/BulkHogan/Extensions/ExpressionExtensions.cs:23-65 | a binary node that translates has translatable operands and a supported operator; its text is `(` + left text + token + right text + `)`, with the left text right after `(` and the right text right before `)` |
| Translator.RenderFailsAtFirstIssue | src/BulkHogan/Extensions/ExpressionExtensions.cs:60-61 | translation succeeds iff the tree has no unsupported operator and no member access outside a parameter; on failure it reports the first such node in left, operator, right order |
| Translator.RenderIgnoresOtherParameterNames | src/BulkHogan/Extensions/ExpressionExtensions.cs:73 | renaming parameters changes nothing as long as the name `existing` is kept by, and only by, the parameter that had it |
| Translator.ExampleTranslations | src/BulkHogan/Extensions/ExpressionExtensions.cs:21-79 | `existing.Name == incoming.Name` prints `(target."Name" = EXCLUDED."Name")`; a `Modulo` node fails with the unsupported-operation error |
| Translator.CurrentIncomingBothExcluded | src/EfficientBulkOperationsTests/CustomerService.cs:34 | with parameters `current` and `incoming`, both sides of an equality print as `EXCLUDED."c"` |
| Translator.QuotedConstantsAreAmbiguous | src/BulkHogan/Extensions/ExpressionExtensions.cs:83-86 | string constants are quoted without escaping: two different trees print the same successful text |
| Translator.NegationIsDropped | src/BulkHogan/Extensions/ExpressionExtensions.cs:16 | a `Not` node around a comparison prints exactly as the comparison, starting with `(` |
| Translator.MergeConditionVisitor.constructor | src/BulkHogan/Extensions/ExpressionExtensions.cs:18 | a new visitor's buffer is empty |
| Translator.MergeConditionVisitor.Visit | src/BulkHogan/Extensions/ExpressionExtensions.cs:12 | on success, appends exactly `Render(node)` to the buffer and throws nothing; on failure, throws `Render`'s error |
| Translator.MergeConditionVisitor.VisitBinary | src/BulkHogan/Extensions/ExpressionExtensions.cs:21-67 | appends `(`, the left operand, the token, the right operand and `)`, i.e. `Render(node)`; otherwise throws the first error, left operand first |
| Translator.MergeConditionVisitor.VisitMember | src/BulkHogan/Extensions/ExpressionExtensions.cs:69-79 | a parameter-rooted access appends `alias."Member"`; any other root throws the unsupported-member error, leaving the buffer as it was |
| Translator.MergeConditionVisitor.VisitConstant | src/BulkHogan/Extensions/ExpressionExtensions.cs:81-92 | appends the constant's text, in single quotes for a string, and never throws |
| Translator.ConvertConditionToSql | src/BulkHogan/Extensions/ExpressionExtensions.cs:9-14 | a fresh visitor per call: the result is `Render(condition)`, a function of the condition alone |
| Statements.EffectiveOptions | src/BulkHogan/BulkOperations.cs:107 | the definition (no contract of its own): null options mean a new options object, that is, no merge condition and `DoUpdate`, the default at src/BulkHogan/BulkOptions.cs:9 |
| Statements.CreateTempTableSql | src/BulkHogan/BulkOperations.cs:49-52 | the definition (no contract of its own): `CREATE TEMP TABLE temp (LIKE "T" INCLUDING ALL);`, with `schema.` unquoted before `"T"` when the schema is neither null nor empty |
| Statements.AlterTempTableSql | src/BulkHogan/BulkOperations.cs:55 | the definition (no contract of its own): `ALTER TABLE temp ALTER COLUMN "Id" DROP IDENTITY;`, naming the column `"Id"` whatever the key is |
| Statements.CopyCommand | src/BulkHogan/BulkOperations.cs:69-72 | the definition (no contract of its own): `COPY temp ("c1", "c2", ...) FROM STDIN (FORMAT BINARY)`, the property columns double-quoted and joined by `, ` |
| Statements.Except | src/BulkHogan/BulkOperations.cs:130 | the definition of `Enumerable.Except` (no contract of its own): the elements outside the excluded set, in order, each yielded once |
| Statements.UpdateColumns | src/BulkHogan/BulkOperations.cs:130-133 | the definition (no contract of its own): the property columns except the key columns |
| Statements.SetList | src/BulkHogan/BulkOperations.cs:144 | the definition (no contract of its own): `"c" = EXCLUDED."c"` for each update column, joined by `, ` |
| Statements.ConditionSql | src/BulkHogan/BulkOperations.cs:135-140 | the definition (no contract of its own): `TRUE` without a merge condition, otherwise the condition's translation or its error |
| Statements.ConflictClause | src/BulkHogan/BulkOperations.cs:122-146 | the definition (no contract of its own): with `DoNothing`, `ON CONFLICT (keys) DO NOTHING;` and no translation; otherwise the `DO UPDATE` clause with the verbatim string's line breaks and indentation, its `SET` list and its `WHERE` line, or the translator's error |
| Statements.SchemaPart | src/BulkHogan/BulkOperations.cs:149 | the definition (no contract of its own): empty when the schema is null or empty, otherwise `"schema".` quoted |
| Statements.MergeSql | src/BulkHogan/BulkOperations.cs:107-157 | the definition of the merge statement (no contract of its own): `NoPrimaryKey` when the entity type has no key, before any translation; otherwise the conflict clause's error, or the statement text |
| Statements.MergeText | src/BulkHogan/BulkOperations.cs:151-157 | the definition (no contract of its own): the verbatim statement text, with its line breaks and indentation, around the INSERT ... SELECT part and the conflict clause |
| Statements.InsertSelect | src/BulkHogan/BulkOperations.cs:152-155 | the definition (no contract of its own): `INSERT INTO schemaPart"T" (columns)`, `OVERRIDING SYSTEM VALUE`, `SELECT columns` and `FROM "temp"`, each on its own indented line |
| Statements.ExceptMembership | src/BulkHogan/BulkOperations.cs:130 | an element is in `Except(xs, excluded)` iff it is in `xs` and not excluded |
| Statements.ExceptDistinct | src/BulkHogan/BulkOperations.cs:130 | `Except` yields each element once |
| Statements.ExceptOfDistinctIsWithout | src/BulkHogan/BulkOperations.cs:130 | on distinct input, `Except` is the plain order-preserving filter `Without` |
| Statements.UpdateColumnsAreNonKeyColumns | src/BulkHogan/BulkOperations.cs:130-133 | the updated columns are exactly the non-key property columns, each once, and in property order when the property columns are distinct |
| Statements.DoNothingIgnoresCondition | src/BulkHogan/BulkOperations.cs:124-127 | with `DoNothing`, the statement's conflict clause is `ON CONFLICT (keys) DO NOTHING;` and is the same for any merge condition, even one that cannot be translated |
| Statements.NullOptionsUpdateUnconditionally | src/BulkHogan/BulkOperations.cs:107 | null options build the same statement as `DoUpdate` with no condition, and it contains the line `WHERE TRUE;` |
| Statements.TranslatedConditionGatesUpdate | src/BulkHogan/BulkOperations.cs:135-145 | with `DoUpdate` and a condition that translates, the statement is built and holds the line `WHERE <translation>;` |
| Statements.UntranslatableConditionFailsMerge | src/BulkHogan/BulkOperations.cs:135-140 | with `DoUpdate`, a condition that cannot be translated makes building the statement throw the translator's error |
| Statements.MergeInsertsSelectedColumns | src/BulkHogan/BulkOperations.cs:151-157 | every merge statement that is built contains the INSERT of all property columns, `OVERRIDING SYSTEM VALUE`, and the SELECT of the same column list from the staging table |
| Statements.StagingStatementsNameTempTable | src/BulkHogan/BulkOperations.cs:49-72 | CREATE, ALTER and COPY each start by naming the same staging table; COPY lists every property column in order |
| Statements.InsertSelectReadsTempTable | src/BulkHogan/BulkOperations.cs:152-155 | the INSERT ... SELECT part contains `SELECT` followed by the property column list, and ends with `FROM "staging table"` |
| Statements.ColumnListRoundTrip | src/BulkHogan/BulkOperations.cs:69-72 | if no name contains a double quote, reading the comma-joined quoted column list back gives the columns, in order |
| Statements.QuotedNamesAreAmbiguous | src/BulkHogan/BulkOperations.cs:114 | names are double-quoted without escaping: two different column lists print the same text |
| RowStream.CopyEvents | src/BulkHogan/BulkOperations.cs:76-84 | the definition of what the row loop sends (no contract of its own): for each entity in order, `StartRow` followed by one `Write` per property in property order |
| RowStream.BinaryImporter.constructor | src/BulkHogan/BulkOperations.cs:75 | an importer opens on its COPY command with no events yet |
| RowStream.BinaryImporter.StartRow | src/BulkHogan/BulkOperations.cs:78 | appends one `StartRow` event |
| RowStream.BinaryImporter.Write | src/BulkHogan/BulkOperations.cs:82 | appends one value |
| RowStream.WriteRows | src/BulkHogan/BulkOperations.cs:76-84 | the nested loop appends exactly `CopyEvents`: per entity in order, `StartRow` and then each property's value in property order |
| RowStream.DecodeRow | src/BulkHogan/BulkOperations.cs:78-83 | `StartRow` followed by one entity's writes reads back as one more row holding that entity's values |
| RowStream.CopyStreamRoundTrip | src/BulkHogan/BulkOperations.cs:76-84 | the stream reads back as one row per entity, in order, each holding every property's value in property order |
| RowStream.CopyEventsLength | src/BulkHogan/BulkOperations.cs:76-84 | the stream has `|entities| * (|properties| + 1)` events |
| RowStream.RowStartAt | src/BulkHogan/BulkOperations.cs:76-78 | entity `i`'s row starts with `StartRow` at `i * (|properties| + 1)`, for any number of properties |
| RowStream.CopyEventAt | src/BulkHogan/BulkOperations.cs:76-84 | the `j`-th value of entity `i`'s row is that property's value, at `i * (|properties| + 1) + 1 + j` |
| Pipeline.TempTableName | src/BulkHogan/BulkOperations.cs:17 | the definition (no contract of its own): `temp_` followed by the identifier's text |
| Pipeline.Staging | src/BulkHogan/BulkOperations.cs:34-99 | the definition of the staging step (no contract of its own): open the connection if it was closed (a failure to open sends nothing), then `NotMapped` or the CREATE, ALTER and COPY steps up to the first that throws, then close it again if it was opened here |
| Pipeline.Merging | src/BulkHogan/BulkOperations.cs:107-180 | the definition of the merge step (no contract of its own): `NotMapped`, then the error from building the statement, then executing it on the connection as it is, with a failure rethrown unchanged |
| Pipeline.BulkOperation | src/BulkHogan/BulkOperations.cs:17-21 | the definition of the whole call (no contract of its own): beginning throws when a transaction is current (begun and neither committed nor disposed) or begin fails; otherwise open?, begin, staging, the merge when staging returned, commit when both returned, then close? at commit, or rollback and close? at disposal on failure |
| Pipeline.Database.constructor | src/BulkHogan/BulkOperations.cs:33 | a context with a connection that is open or not, no transaction and an empty trace |
| Pipeline.Database.Open | src/BulkHogan/BulkOperations.cs:37 | opens the connection unless opening throws |
| Pipeline.Database.Close | src/BulkHogan/BulkOperations.cs:97 | closes the connection |
| Pipeline.Database.Execute | src/BulkHogan/BulkOperations.cs:58-64 | sends one statement, which succeeds iff the connection is open and that operation does not throw |
| Pipeline.Database.Import | src/BulkHogan/BulkOperations.cs:75-85 | sends one binary COPY with its stream of events under the same rule |
| Pipeline.Database.BeginTransaction | src/BulkHogan/BulkOperations.cs:18 | begins a transaction exactly when none is current (a committed one no longer is) and begin does not throw, opening a closed connection and remembering that it did |
| Pipeline.Database.CommitTransaction | src/BulkHogan/BulkOperations.cs:21 | commits the current transaction unless committing throws; it is then no longer current, and a connection that beginning it opened is closed |
| Pipeline.Database.DisposeTransaction | src/BulkHogan/BulkOperations.cs:18 | the end of `await using`: a transaction still current was not committed, so it is rolled back and the connection is closed iff beginning the transaction opened it; after a commit nothing is sent |
| Pipeline.BulkInsertToTempTable | src/BulkHogan/BulkOperations.cs:24-100 | does what `Staging` says; opens the connection only if it was closed, and leaves it as it found it, whether the body returns or throws |
| Pipeline.StageOnOpenConnection | src/BulkHogan/BulkOperations.cs:41-92 | on the open connection: CREATE, ALTER, then the COPY of `CopyEvents`, stopping at the first that throws; a missing entity type fails first |
| Pipeline.MergeTempTable | src/BulkHogan/BulkOperations.cs:102-181 | builds the merge statement (which may throw), then executes it; an exception from executing is rethrown unchanged |
| Pipeline.RunInTransaction | src/BulkHogan/BulkOperations.cs:19-21 | staging, then the merge only if staging returned, then commit only if both returned; after a commit there is no current transaction, and a connection the transaction opened is closed |
| Pipeline.ExecuteBulkOperation | src/BulkHogan/BulkOperations.cs:12-22 | does what `BulkOperation` says, where only a current transaction makes beginning throw; the connection and the context's transaction are as they were before the call |
| Pipeline.RunStepsStopsAtFirstFailure | src/BulkHogan/BulkOperations.cs:58-85 | a sequence of database operations performs a prefix of its actions: all of them, or exactly those before the first operation that throws, which is the one reported |
| Pipeline.StagingRestoresConnection | src/BulkHogan/BulkOperations.cs:34-39 | staging sends statements only; on a closed connection it opens first and closes last whatever happened, or throws before doing anything if opening fails |
| Pipeline.InTransactionCommitsLast | src/BulkHogan/BulkOperations.cs:19-21 | inside the transaction only statements are sent, followed by a commit iff nothing threw |
| Pipeline.TransactionalIsBracketed | src/BulkHogan/BulkOperations.cs:18 | the end of the transaction closes what its beginning opened, and there is a rollback exactly when the work inside it threw |
| Pipeline.TransactionEndsOnce | src/BulkHogan/BulkOperations.cs:17-21 | a call that begins its transaction sends: open if it was closed, begin, statements, then commit if it succeeds or rollback if it throws, then close if it opened |
| Pipeline.HappyPath | src/BulkHogan/BulkOperations.cs:17-21 | when nothing throws, the call sends exactly: (open,) begin, CREATE, ALTER, the COPY of every row, the merge, commit(, close) |
| Pipeline.UntranslatableConditionFailsAfterStaging | src/BulkHogan/BulkOperations.cs:139 | an untranslatable condition throws only after CREATE, ALTER and COPY ran; the transaction is rolled back and no merge is sent |
| Pipeline.MissingKeyFailsAfterStaging | src/BulkHogan/BulkOperations.cs:112 | an entity type without a primary key throws only after CREATE, ALTER and COPY ran; the transaction is rolled back and no merge is sent |
| Pipeline.SucceedsExactlyWhen | src/BulkHogan/BulkOperations.cs:17-21 | the call succeeds iff: no transaction is already active; the entity type is mapped; the merge statement can be built; and none of begin, CREATE, ALTER, COPY, merge and commit throws |
| Pipeline.MergeFailureIsRethrown | src/BulkHogan/BulkOperations.cs:176-180 | an exception from executing the merge is the call's exception; the transaction is rolled back, not committed |

## Left out

- Database I/O through Npgsql and PostgreSQL semantics. The database is an abstract context. Its trace records the statements and COPY streams it is asked to run, and a fixed set of operations throws. What rows end up in the table (`ON CONFLICT`, `LIKE ... INCLUDING ALL`, `OVERRIDING SYSTEM VALUE`) is not modelled.
- Entity Framework behaviour is assumed as follows:
  - beginning a transaction opens a closed connection, and the connection is closed again once the transaction ends, by commit or by the rollback at disposal; a committed transaction is no longer the context's current transaction;
  - a begin that throws leaves the connection as it was and sends nothing. If it throws after opening a closed connection, that connection stays open; the model does not capture this;
  - a statement on a closed connection throws.
- Entity Framework metadata and reflection (`FindEntityType`, `GetColumnName`, `PropertyInfo.GetValue`) are inputs:
  - a `TableMeta` record, absent when the entity type is not mapped;
  - its primary key, absent when the type has none (the null dereference is the `NoPrimaryKey` error);
  - a function from column and entity to value.
- Async plumbing. The code runs sequentially.
- `Guid` generation. The staging table name is `temp_` followed by the identifier's text, which is a parameter.
- The `COUNT(*)` read-backs and all console output: the counts after staging and after the merge, the generated merge statement printed before it is executed, and the message printed in the merge's `catch` before rethrowing. A failure of those read-backs is not modelled.
- The culture-dependent text of non-string constants. A constant carries its printed text.
- Expression node kinds other than binary, member access, constant, unary and a bare parameter (method calls, conditionals, `new`, ...). The base visitor visits their children, and the overrides print those children run together, while the node's own text is dropped. For example, `existing.Name.StartsWith("a")` prints `target."Name"'a'`. Only the unary case is modelled.
- A failure of an individual `Write` in the middle of the stream is modelled as the failure of the whole import.
- The forwarder `BulkInsertAsync` (src/EfficientBulkOperations/DbContextExtensions.cs:7-10) and the unused `BatchSize` option.
- Tests, benchmarks, database contexts and entity classes.
- Translator.MergeConditionVisitor.Visit: on failure it states only that the buffer still starts with its old contents, not what was appended before the exception. The visitor and its buffer are discarded once the exception propagates, so that text is never observed.
- Translator.MergeConditionVisitor.VisitBinary: the same weakening on failure, for the same reason.
- Pipeline.ExecuteBulkOperation: the claim that a connection closed before the call is closed after it rests, on the path where beginning the transaction throws, on the assumption above about a failing begin.
