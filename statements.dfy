/**
  The SQL text of the bulk upsert: the temporary staging table, the binary COPY into it,
  and the `INSERT ... SELECT ... ON CONFLICT` statement that merges it into the target.
  All of it is string building over the table metadata and the bulk options.
*/
module Statements {
  import opened Wrappers
  import opened Translator

  /** The metadata the object/relational mapping layer gives for the entity type: table
      name, optional schema, the property columns in property order, and the primary-key
      columns (absent when the entity type has no primary key). */
  datatype TableMeta = TableMeta(
    name: string,
    schema: Option<string>,
    columns: seq<string>,
    primaryKey: Option<seq<string>>)

  datatype ConflictAction = DoNothing | DoUpdate

  /** The bulk options: an optional merge condition (the lambda's body) and the conflict action. */
  datatype BulkOptions = BulkOptions(mergeCondition: Option<Node>, onConflict: ConflictAction)

  /** What a new options object holds: no merge condition, and `DoUpdate`. */
  const DefaultOptions := BulkOptions(None, DoUpdate)

  /** `options ??= new BulkOptions<T>()`: a null options argument means the defaults. */
  function EffectiveOptions(options: Option<BulkOptions>): BulkOptions
  {
    if options.Some? then options.value else DefaultOptions
  }

  /** Why building the merge statement throws: the entity type has no primary key (a null
      dereference in the source), or the merge condition cannot be translated. */
  datatype MergeError = NoPrimaryKey | Translation(reason: Unsupported)

  function Spaces(n: nat): string
  {
    seq(n, _ => ' ')
  }

  function Quote(name: string): string
  {
    "\"" + name + "\""
  }

  function QuoteAll(names: seq<string>): seq<string>
  {
    seq(|names|, i requires 0 <= i < |names| => Quote(names[i]))
  }

  /** `string.Join(separator, items)`. */
  function Join(separator: string, items: seq<string>): string
  {
    if |items| == 0 then ""
    else if |items| == 1 then items[0]
    else items[0] + separator + Join(separator, items[1..])
  }

  /** The double-quoted column names joined by ", ": the list that the COPY command, the
      INSERT and the SELECT all use. */
  function ColumnList(columns: seq<string>): string
  {
    Join(", ", QuoteAll(columns))
  }

  /** The position of the first double quote at or after `i`, or `|s|` if there is none. */
  function QuoteEnd(s: string, i: nat): (j: nat)
    requires i <= |s|
    ensures i <= j <= |s| && (j < |s| ==> s[j] == '"')
    ensures forall k :: i <= k < j ==> s[k] != '"'
    decreases |s| - i
  {
    if i == |s| || s[i] == '"' then i else QuoteEnd(s, i + 1)
  }

  /** Reads back a non-empty column list: `"a"`, or `"a", ` followed by a further list. */
  function ParseQuotedList(s: string): Option<seq<string>>
    decreases |s|
  {
    if |s| < 2 || s[0] != '"' then None
    else
      var j := QuoteEnd(s, 1);
      if j == |s| then None
      else
        var rest := s[j + 1..];
        if rest == [] then Some([s[1..j]])
        else if |rest| >= 2 && rest[0] == ',' && rest[1] == ' ' then
          match ParseQuotedList(rest[2..])
          case None => None
          case Some(names) => Some([s[1..j]] + names)
        else None
  }

  /** Reads back a column list as `ColumnList` prints it. */
  function ParseColumnList(s: string): Option<seq<string>>
  {
    if s == "" then Some([]) else ParseQuotedList(s)
  }

  /** A name that needs no escaping between double quotes. */
  predicate Unquoted(name: string)
  {
    '"' !in name
  }

  /** `string.IsNullOrEmpty`. */
  predicate IsNullOrEmpty(s: Option<string>)
  {
    s.None? || s.value == ""
  }

  /** `CREATE TEMP TABLE`: the target is named `"T"`, or `schema."T"` with the schema unquoted. */
  function CreateTempTableSql(tempTable: string, table: TableMeta): string
  {
    if IsNullOrEmpty(table.schema) then
      "CREATE TEMP TABLE " + tempTable + " (LIKE " + Quote(table.name) + " INCLUDING ALL);"
    else
      "CREATE TEMP TABLE " + tempTable + " (LIKE " + table.schema.value + "." + Quote(table.name) + " INCLUDING ALL);"
  }

  /** Drops the identity of the column `"Id"`, whatever the table's key is. */
  function AlterTempTableSql(tempTable: string): string
  {
    "ALTER TABLE " + tempTable + " ALTER COLUMN \"Id\" DROP IDENTITY;"
  }

  /** The binary COPY into the temporary table, listing every property column. */
  function CopyCommand(tempTable: string, table: TableMeta): string
  {
    "COPY " + tempTable + " (" + ColumnList(table.columns) + ") FROM STDIN (FORMAT BINARY)"
  }

  /** `Enumerable.Except`: the elements of `xs` outside `excluded`, in order, each once. */
  function Except(xs: seq<string>, excluded: set<string>): seq<string>
  {
    if xs == [] then []
    else if xs[0] in excluded then Except(xs[1..], excluded)
    else [xs[0]] + Except(xs[1..], excluded + {xs[0]})
  }

  /** The elements of `xs` outside `excluded`, in order: the reference for `Except`. */
  function Without(xs: seq<string>, excluded: set<string>): seq<string>
  {
    if xs == [] then []
    else (if xs[0] in excluded then [] else [xs[0]]) + Without(xs[1..], excluded)
  }

  predicate Distinct(xs: seq<string>)
  {
    forall i, j :: 0 <= i < j < |xs| ==> xs[i] != xs[j]
  }

  /** The columns the update sets: the properties that are not part of the primary key. */
  function UpdateColumns(columns: seq<string>, keys: seq<string>): seq<string>
  {
    Except(columns, Elements(keys))
  }

  function Elements(xs: seq<string>): set<string>
  {
    set x | x in xs
  }

  /** `"c" = EXCLUDED."c"` for a quoted column `"c"`. */
  function Assignment(quoted: string): string
  {
    quoted + " = EXCLUDED." + quoted
  }

  function SetList(columns: seq<string>, keys: seq<string>): string
  {
    var updates := QuoteAll(UpdateColumns(columns, keys));
    Join(", ", seq(|updates|, i requires 0 <= i < |updates| => Assignment(updates[i])))
  }

  /** The text after `WHERE`: `TRUE` without a merge condition, else its translation. */
  function ConditionSql(condition: Option<Node>): Result<string, Unsupported>
  {
    if condition.None? then Success("TRUE") else Render(condition.value)
  }

  function ConflictClause(columns: seq<string>, keys: seq<string>, options: BulkOptions): Result<string, Unsupported>
  {
    if options.onConflict == DoNothing then
      Success("ON CONFLICT (" + ColumnList(keys) + ") DO NOTHING;")
    else
      match ConditionSql(options.mergeCondition)
      case Failure(e) => Failure(e)
      case Success(condition) =>
        Success("\n" + Spaces(12) + "ON CONFLICT (" + ColumnList(keys) + ") DO UPDATE"
              + "\n" + Spaces(12) + "SET " + SetList(columns, keys)
              + WhereLine(condition))
  }

  /** The last line of a `DO UPDATE` clause. */
  function WhereLine(condition: string): string
  {
    "\n" + Spaces(12) + "WHERE " + condition + ";"
  }

  /** The schema prefix of the merge: empty, or the schema double-quoted and a dot. */
  function SchemaPart(schema: Option<string>): string
  {
    if IsNullOrEmpty(schema) then "" else Quote(schema.value) + "."
  }

  /** The merge statement, or the exception that building it throws. */
  function MergeSql(tempTable: string, table: TableMeta, options: Option<BulkOptions>): Result<string, MergeError>
  {
    if table.primaryKey.None? then Failure(NoPrimaryKey)
    else
      match ConflictClause(table.columns, table.primaryKey.value, EffectiveOptions(options))
      case Failure(e) => Failure(Translation(e))
      case Success(clause) =>
        Success(MergeText(tempTable, table, clause))
  }

  function MergeText(tempTable: string, table: TableMeta, clause: string): string
  {
    "\n" + Spaces(8) + InsertSelect(tempTable, table) + "\n" + Spaces(8) + clause + "\n" + Spaces(16)
  }

  /** The statement up to its conflict clause: the INSERT column list, the override of
      system values, and the SELECT of the same column list from the staging table. */
  function InsertSelect(tempTable: string, table: TableMeta): string
  {
    "INSERT INTO " + SchemaPart(table.schema) + Quote(table.name) + " (" + ColumnList(table.columns) + ")"
      + "\n" + Spaces(8) + "OVERRIDING SYSTEM VALUE"
      + "\n" + Spaces(8) + "SELECT " + ColumnList(table.columns)
      + "\n" + Spaces(16) + "FROM " + Quote(tempTable)
  }

  predicate OccursAt(s: string, part: string, i: int)
  {
    0 <= i <= |s| - |part| && s[i..i + |part|] == part
  }

  ghost predicate Contains(s: string, part: string)
  {
    exists i :: OccursAt(s, part, i)
  }

  lemma ContainsMiddle(a: string, b: string, c: string)
    ensures Contains(a + b + c, b)
  {
    assert (a + b + c)[|a|..|a| + |b|] == b;
    assert OccursAt(a + b + c, b, |a|);
  }

  // ---------------------------------------------------------------------------------------
  // Except and the SET list

  lemma {:induction false} ExceptMembership(xs: seq<string>, excluded: set<string>, x: string)
    ensures x in Except(xs, excluded) <==> x in xs && x !in excluded
  {
    if xs != [] {
      if xs[0] in excluded {
        ExceptMembership(xs[1..], excluded, x);
      } else {
        ExceptMembership(xs[1..], excluded + {xs[0]}, x);
        assert x in xs <==> x == xs[0] || x in xs[1..];
      }
    }
  }

  lemma {:induction false} ExceptDistinct(xs: seq<string>, excluded: set<string>)
    ensures Distinct(Except(xs, excluded))
  {
    if xs != [] {
      if xs[0] in excluded {
        ExceptDistinct(xs[1..], excluded);
      } else {
        var rest := Except(xs[1..], excluded + {xs[0]});
        ExceptDistinct(xs[1..], excluded + {xs[0]});
        ExceptMembership(xs[1..], excluded + {xs[0]}, xs[0]);
        assert xs[0] !in rest;
        var r := [xs[0]] + rest;
        forall i, j | 0 <= i < j < |r| ensures r[i] != r[j] {
          if i == 0 {
            assert r[j] == rest[j - 1];
          }
        }
      }
    }
  }

  /** On distinct input (a type's properties are distinct), `Except` is the plain ordered filter. */
  lemma {:induction false} ExceptOfDistinctIsWithout(xs: seq<string>, excluded: set<string>)
    requires Distinct(xs)
    ensures Except(xs, excluded) == Without(xs, excluded)
  {
    if xs != [] {
      assert Distinct(xs[1..]) by {
        forall i, j | 0 <= i < j < |xs[1..]| ensures xs[1..][i] != xs[1..][j] {
          assert xs[1..][i] == xs[i + 1] && xs[1..][j] == xs[j + 1];
        }
      }
      if xs[0] in excluded {
        ExceptOfDistinctIsWithout(xs[1..], excluded);
      } else {
        ExceptOfDistinctIsWithout(xs[1..], excluded + {xs[0]});
        assert xs[0] !in xs[1..] by {
          forall k | 0 <= k < |xs[1..]| ensures xs[1..][k] != xs[0] {
            assert xs[1..][k] == xs[k + 1];
          }
        }
        WithoutIgnoresAbsent(xs[1..], excluded, xs[0]);
      }
    }
  }

  lemma {:induction false} WithoutIgnoresAbsent(xs: seq<string>, excluded: set<string>, y: string)
    requires y !in xs
    ensures Without(xs, excluded + {y}) == Without(xs, excluded)
  {
    if xs != [] {
      assert xs[0] != y;
      WithoutIgnoresAbsent(xs[1..], excluded, y);
    }
  }

  /** The columns an update sets: no key column, every non-key column, each once, and (for
      distinct property columns) exactly the non-key columns in property order. */
  lemma UpdateColumnsAreNonKeyColumns(columns: seq<string>, keys: seq<string>)
    ensures forall c :: c in UpdateColumns(columns, keys) <==> c in columns && c !in keys
    ensures Distinct(UpdateColumns(columns, keys))
    ensures Distinct(columns) ==> UpdateColumns(columns, keys) == Without(columns, Elements(keys))
  {
    forall c ensures c in UpdateColumns(columns, keys) <==> c in columns && c !in keys {
      ExceptMembership(columns, Elements(keys), c);
    }
    ExceptDistinct(columns, Elements(keys));
    if Distinct(columns) {
      ExceptOfDistinctIsWithout(columns, Elements(keys));
    }
  }

  // ---------------------------------------------------------------------------------------
  // The conflict clause and the merge statement

  /** With `DoNothing` the clause keys on the primary-key columns only, and the merge
      condition is neither translated nor emitted: even one that cannot be translated
      leaves the statement as it is without a condition. */
  lemma DoNothingIgnoresCondition(tempTable: string, table: TableMeta, c1: Option<Node>, c2: Option<Node>)
    requires table.primaryKey.Some?
    ensures MergeSql(tempTable, table, Some(BulkOptions(c1, DoNothing)))
         == MergeSql(tempTable, table, Some(BulkOptions(c2, DoNothing)))
         == Success(MergeText(tempTable, table, "ON CONFLICT (" + ColumnList(table.primaryKey.value) + ") DO NOTHING;"))
  {
  }

  /** A null options argument gives the same statement as `DoUpdate` without a condition,
      and the update is then gated by `WHERE TRUE`. */
  lemma NullOptionsUpdateUnconditionally(tempTable: string, table: TableMeta)
    requires table.primaryKey.Some?
    ensures MergeSql(tempTable, table, None) == MergeSql(tempTable, table, Some(BulkOptions(None, DoUpdate)))
    ensures MergeSql(tempTable, table, None).Success?
    ensures Contains(MergeSql(tempTable, table, None).value, WhereLine("TRUE"))
  {
    var keys := table.primaryKey.value;
    var head := "\n" + Spaces(12) + "ON CONFLICT (" + ColumnList(keys) + ") DO UPDATE"
              + "\n" + Spaces(12) + "SET " + SetList(table.columns, keys);
    var clause := head + WhereLine("TRUE");
    assert ConflictClause(table.columns, keys, DefaultOptions) == Success(clause);
    var before := "\n" + Spaces(8) + InsertSelect(tempTable, table) + "\n" + Spaces(8) + head;
    assert MergeText(tempTable, table, clause) == before + WhereLine("TRUE") + ("\n" + Spaces(16));
    ContainsMiddle(before, WhereLine("TRUE"), "\n" + Spaces(16));
  }

  /** With `DoUpdate` and a merge condition that translates, the update is gated by the
      translation: the statement holds the line `WHERE <translation>;`. */
  lemma TranslatedConditionGatesUpdate(tempTable: string, table: TableMeta, condition: Node)
    requires table.primaryKey.Some? && Render(condition).Success?
    ensures MergeSql(tempTable, table, Some(BulkOptions(Some(condition), DoUpdate))).Success?
    ensures Contains(MergeSql(tempTable, table, Some(BulkOptions(Some(condition), DoUpdate))).value,
                     WhereLine(Render(condition).value))
  {
    var keys := table.primaryKey.value;
    var where := WhereLine(Render(condition).value);
    var head := "\n" + Spaces(12) + "ON CONFLICT (" + ColumnList(keys) + ") DO UPDATE"
              + "\n" + Spaces(12) + "SET " + SetList(table.columns, keys);
    var clause := head + where;
    assert ConflictClause(table.columns, keys, BulkOptions(Some(condition), DoUpdate)) == Success(clause);
    var before := "\n" + Spaces(8) + InsertSelect(tempTable, table) + "\n" + Spaces(8) + head;
    assert MergeText(tempTable, table, clause) == before + where + ("\n" + Spaces(16));
    ContainsMiddle(before, where, "\n" + Spaces(16));
  }

  /** With `DoUpdate` and a merge condition that cannot be translated, building the merge
      statement throws the translator's exception (when the key is present). */
  lemma UntranslatableConditionFailsMerge(tempTable: string, table: TableMeta, condition: Node)
    requires table.primaryKey.Some? && Render(condition).Failure?
    ensures MergeSql(tempTable, table, Some(BulkOptions(Some(condition), DoUpdate)))
         == Failure(Translation(Render(condition).error))
  {
  }

  /** Whatever the options, a merge statement that is built inserts every property column
      into the target, overrides system values, and selects the same column list from the
      staging table. */
  lemma MergeInsertsSelectedColumns(tempTable: string, table: TableMeta, options: Option<BulkOptions>)
    requires MergeSql(tempTable, table, options).Success?
    ensures Contains(MergeSql(tempTable, table, options).value, InsertSelect(tempTable, table))
  {
    var clause := ConflictClause(table.columns, table.primaryKey.value, EffectiveOptions(options)).value;
    assert MergeSql(tempTable, table, options).value == MergeText(tempTable, table, clause);
    MergeTextSplits(tempTable, table, clause);
    ContainsMiddle("\n" + Spaces(8), InsertSelect(tempTable, table), "\n" + Spaces(8) + clause + "\n" + Spaces(16));
  }

  lemma MergeTextSplits(tempTable: string, table: TableMeta, clause: string)
    ensures MergeText(tempTable, table, clause)
         == "\n" + Spaces(8) + InsertSelect(tempTable, table) + ("\n" + Spaces(8) + clause + "\n" + Spaces(16))
  {
  }

  /** The staging statements agree on their names: the CREATE, the ALTER and the COPY all
      start by naming the same staging table, and the COPY lists every property column. */
  lemma StagingStatementsNameTempTable(tempTable: string, table: TableMeta)
    ensures "CREATE TEMP TABLE " + tempTable + " (LIKE " <= CreateTempTableSql(tempTable, table)
    ensures "ALTER TABLE " + tempTable + " ALTER COLUMN " <= AlterTempTableSql(tempTable)
    ensures "COPY " + tempTable + " (" + ColumnList(table.columns) + ")" <= CopyCommand(tempTable, table)
  {
    var create := "CREATE TEMP TABLE " + tempTable + " (LIKE ";
    if IsNullOrEmpty(table.schema) {
      assert CreateTempTableSql(tempTable, table) == create + (Quote(table.name) + " INCLUDING ALL);");
    } else {
      assert CreateTempTableSql(tempTable, table) == create + (table.schema.value + "." + Quote(table.name) + " INCLUDING ALL);");
    }
    assert AlterTempTableSql(tempTable) == "ALTER TABLE " + tempTable + " ALTER COLUMN " + "\"Id\" DROP IDENTITY;";
  }

  /** The statement up to its conflict clause (which every merge statement that is built
      contains) selects the column list the COPY filled, in the same order, and ends by
      reading from the staging table. */
  lemma InsertSelectReadsTempTable(tempTable: string, table: TableMeta)
    ensures Contains(InsertSelect(tempTable, table), "SELECT " + ColumnList(table.columns))
    ensures var from := "FROM " + Quote(tempTable);
            var insert := InsertSelect(tempTable, table);
            |from| <= |insert| && insert[|insert| - |from|..] == from
  {
    var head := "INSERT INTO " + SchemaPart(table.schema) + Quote(table.name) + " (" + ColumnList(table.columns) + ")"
              + "\n" + Spaces(8) + "OVERRIDING SYSTEM VALUE" + "\n" + Spaces(8);
    var select := "SELECT " + ColumnList(table.columns);
    var from := "FROM " + Quote(tempTable);
    assert InsertSelect(tempTable, table) == head + select + ("\n" + Spaces(16) + from);
    ContainsMiddle(head, select, "\n" + Spaces(16) + from);
  }

  // ---------------------------------------------------------------------------------------
  // The column list

  lemma {:induction false} QuoteEndAt(s: string, i: nat, j: nat)
    requires i <= j < |s| && s[j] == '"'
    requires forall k :: i <= k < j ==> s[k] != '"'
    ensures QuoteEnd(s, i) == j
    decreases j - i
  {
    if i < j {
      QuoteEndAt(s, i + 1, j);
    }
  }

  /** Reading back a list of one quoted name. */
  lemma ParseLastName(c: string)
    requires Unquoted(c)
    ensures ParseQuotedList(Quote(c)) == Some([c])
  {
    var s := Quote(c);
    forall k | 1 <= k < 1 + |c| ensures s[k] != '"' {
      assert s[k] == c[k - 1];
    }
    QuoteEndAt(s, 1, 1 + |c|);
    assert s[1..1 + |c|] == c;
  }

  /** Reading back a quoted name followed by `, ` and a further list. */
  lemma ParseFirstName(c: string, more: string)
    requires Unquoted(c)
    ensures ParseQuotedList(Quote(c) + ", " + more)
         == if ParseQuotedList(more).Some? then Some([c] + ParseQuotedList(more).value) else None
  {
    var s := Quote(c) + ", " + more;
    forall k | 1 <= k < 1 + |c| ensures s[k] != '"' {
      assert s[k] == c[k - 1];
    }
    QuoteEndAt(s, 1, 1 + |c|);
    assert s[1..1 + |c|] == c;
    assert s[2 + |c|..] == ", " + more;
    assert (", " + more)[2..] == more;
  }

  lemma ColumnListCons(columns: seq<string>)
    requires columns != []
    ensures ColumnList(columns) == Quote(columns[0]) + (if |columns| == 1 then "" else ", " + ColumnList(columns[1..]))
    ensures |ColumnList(columns)| >= 2
  {
    assert QuoteAll(columns)[1..] == QuoteAll(columns[1..]);
  }

  /** The column list names the columns unambiguously as long as no name holds a double
      quote: reading it back gives the columns, in order. */
  lemma {:induction false} ColumnListRoundTrip(columns: seq<string>)
    requires forall i :: 0 <= i < |columns| ==> Unquoted(columns[i])
    ensures ParseColumnList(ColumnList(columns)) == Some(columns)
    decreases |columns|
  {
    if |columns| == 1 {
      ParseOneName(columns);
    } else if |columns| > 1 {
      ColumnListRoundTrip(columns[1..]);
      ParseNextName(columns);
    }
  }

  lemma ParseOneName(columns: seq<string>)
    requires |columns| == 1 && Unquoted(columns[0])
    ensures ParseColumnList(ColumnList(columns)) == Some(columns)
  {
    assert ColumnList(columns) == Quote(columns[0]);
    ParseLastName(columns[0]);
    assert columns == [columns[0]];
  }

  lemma ParseNextName(columns: seq<string>)
    requires |columns| > 1 && Unquoted(columns[0])
    requires ParseColumnList(ColumnList(columns[1..])) == Some(columns[1..])
    ensures ParseColumnList(ColumnList(columns)) == Some(columns)
  {
    var more := ColumnList(columns[1..]);
    assert ColumnList(columns) == Quote(columns[0]) + ", " + more by {
      ColumnListCons(columns);
    }
    assert more != "" by {
      ColumnListCons(columns[1..]);
    }
    ParseFirstName(columns[0], more);
    assert [columns[0]] + columns[1..] == columns;
  }

  /** A double quote inside a name is not escaped: two different column lists can print
      the same text. */
  lemma QuotedNamesAreAmbiguous()
    ensures ["a\", \"b"] != ["a", "b"] && ColumnList(["a\", \"b"]) == ColumnList(["a", "b"])
  {
    assert ["a\", \"b"][0] != ["a", "b"][0];
    assert ColumnList(["a\", \"b"]) == "\"a\", \"b\"";
    assert ColumnList(["a", "b"]) == "\"a\"" + ", " + "\"b\"";
  }
}
