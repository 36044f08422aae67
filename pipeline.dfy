/**
  The bulk upsert end to end: one transaction around staging (create the temporary table,
  drop the identity of `"Id"`, stream the rows in with COPY) and the merge, committed only
  when both return. The database is an external collaborator; it is modelled by what it is
  asked to do (its trace) and by a set of operations that throw when reached.
*/
module Pipeline {
  import opened Wrappers
  import opened Translator
  import opened Statements
  import opened RowStream

  /** The database operations that can throw. */
  datatype Step = OpenConnection | BeginStep | CreateTempTable | DropIdentity | ImportRows | MergeRows | CommitStep

  /** What the database is asked to do, in order. */
  datatype Action<V> =
    | Opened
    | Closed
    | Began
    | Committed
    | RolledBack
    | Executed(sql: string)
    | Imported(command: string, events: seq<Event<V>>)

  /** The current transaction of the context; `owns` says that beginning it opened the
      connection, which ending it closes again. A committed transaction is no longer the
      current one. */
  datatype TransactionState = NoTransaction | Active(owns: bool)

  /** Why a bulk call throws: the entity type is not mapped (a null dereference), building
      the merge statement throws, or a database operation throws. */
  datatype BulkError = NotMapped | BadMerge(reason: MergeError) | Thrown(step: Step)

  /**
    The database context and its connection, as the pipeline sees them. `failing` fixes
    which operations throw; an operation that needs an open connection throws on a closed
    one. Beginning a transaction opens a closed connection, and ending the transaction closes
    it again: at commit, or at the rollback when it is disposed uncommitted.
  */
  class Database<V> {
    const failing: set<Step>
    var isOpen: bool
    var transaction: TransactionState
    var trace: seq<Action<V>>

    constructor (failing: set<Step>, isOpen: bool)
      ensures this.failing == failing && this.isOpen == isOpen
      ensures transaction == NoTransaction && trace == []
    {
      this.failing := failing;
      this.isOpen := isOpen;
      transaction := NoTransaction;
      trace := [];
    }

    method Open() returns (ok: bool)
      modifies this
      ensures ok == (OpenConnection !in failing)
      ensures isOpen == (ok || old(isOpen)) && transaction == old(transaction)
      ensures trace == old(trace) + (if ok then [Opened] else [])
    {
      ok := OpenConnection !in failing;
      if ok {
        isOpen := true;
        trace := trace + [Opened];
      }
    }

    method Close()
      modifies this
      ensures !isOpen && transaction == old(transaction)
      ensures trace == old(trace) + [Closed]
    {
      isOpen := false;
      trace := trace + [Closed];
    }

    method Execute(step: Step, sql: string) returns (ok: bool)
      modifies this
      ensures ok == (isOpen && step !in failing)
      ensures isOpen == old(isOpen) && transaction == old(transaction)
      ensures trace == old(trace) + (if ok then [Executed(sql)] else [])
    {
      ok := isOpen && step !in failing;
      if ok {
        trace := trace + [Executed(sql)];
      }
    }

    /** `BeginBinaryImport(command)` and, once the rows are written, `CompleteAsync()`. */
    method Import(command: string, events: seq<Event<V>>) returns (ok: bool)
      modifies this
      ensures ok == (isOpen && ImportRows !in failing)
      ensures isOpen == old(isOpen) && transaction == old(transaction)
      ensures trace == old(trace) + (if ok then [Imported(command, events)] else [])
    {
      ok := isOpen && ImportRows !in failing;
      if ok {
        trace := trace + [Imported(command, events)];
      }
    }

    method BeginTransaction() returns (ok: bool)
      modifies this
      ensures ok == (old(transaction) == NoTransaction && BeginStep !in failing)
      ensures ok ==> isOpen && transaction == Active(!old(isOpen))
                     && trace == old(trace) + (if old(isOpen) then [] else [Opened]) + [Began]
      ensures !ok ==> isOpen == old(isOpen) && transaction == old(transaction) && trace == old(trace)
    {
      ok := transaction == NoTransaction && BeginStep !in failing;
      if ok {
        transaction := Active(!isOpen);
        if !isOpen {
          isOpen := true;
          trace := trace + [Opened];
        }
        trace := trace + [Began];
      }
    }

    /** Commits the current transaction; it is then no longer current, and the connection
        is closed if beginning the transaction opened it. */
    method CommitTransaction() returns (ok: bool)
      modifies this
      ensures ok == (old(transaction).Active? && old(isOpen) && CommitStep !in failing)
      ensures ok ==> transaction == NoTransaction && isOpen == !old(transaction).owns
                     && trace == old(trace) + [Committed] + (if old(transaction).owns then [Closed] else [])
      ensures !ok ==> isOpen == old(isOpen) && transaction == old(transaction) && trace == old(trace)
    {
      ok := transaction.Active? && isOpen && CommitStep !in failing;
      if ok {
        var owns := transaction.owns;
        transaction := NoTransaction;
        trace := trace + [Committed];
        if owns {
          isOpen := false;
          trace := trace + [Closed];
        }
      }
    }

    /** The end of `await using` on the transaction: a transaction that is still current was
        not committed, so it is rolled back, and the connection is closed if beginning the
        transaction opened it. After a commit there is nothing left to do. */
    method DisposeTransaction()
      modifies this
      ensures transaction == NoTransaction
      ensures trace == old(trace) + (if old(transaction).Active?
                                     then [RolledBack] + (if old(transaction).owns then [Closed] else [])
                                     else [])
      ensures isOpen == (old(isOpen) && !(old(transaction).Active? && old(transaction).owns))
    {
      if transaction.Active? {
        trace := trace + [RolledBack];
        if transaction.owns {
          isOpen := false;
          trace := trace + [Closed];
        }
      }
      transaction := NoTransaction;
    }
  }

  // ---------------------------------------------------------------------------------------
  // What each operation asks of the database

  /** What a sequence of database operations on an open connection does: every action up
      to the first operation that throws, and that operation. */
  datatype Run<V> = Run(actions: seq<Action<V>>, failure: Option<BulkError>)

  function RunSteps<V>(plan: seq<(Step, Action<V>)>, failing: set<Step>): Run<V>
  {
    if plan == [] then Run([], None)
    else if plan[0].0 in failing then Run([], Some(Thrown(plan[0].0)))
    else
      var rest := RunSteps(plan[1..], failing);
      Run([plan[0].1] + rest.actions, rest.failure)
  }

  /** The actions of a plan, whether or not they are reached. */
  function Actions<V>(plan: seq<(Step, Action<V>)>): seq<Action<V>>
  {
    seq(|plan|, i requires 0 <= i < |plan| => plan[i].1)
  }

  /** The staging statements, in order, with the operation each one is. */
  function StagingPlan<E, V>(tempTable: string, table: TableMeta, entities: seq<E>, getValue: (string, E) -> V)
    : seq<(Step, Action<V>)>
  {
    [ (CreateTempTable, Executed(CreateTempTableSql(tempTable, table))),
      (DropIdentity, Executed(AlterTempTableSql(tempTable))),
      (ImportRows, Imported(CopyCommand(tempTable, table), CopyEvents(entities, table.columns, getValue))) ]
  }

  /** The staging step, from a connection that is open or not: open it if needed, run the
      staging statements, and close it again if it was opened here, whatever happened. */
  function Staging<E, V>(wasOpen: bool, failing: set<Step>, tempTable: string, meta: Option<TableMeta>,
                         entities: seq<E>, getValue: (string, E) -> V): Run<V>
  {
    if !wasOpen && OpenConnection in failing then Run([], Some(Thrown(OpenConnection)))
    else
      var body := if meta.None? then Run([], Some(NotMapped))
                  else RunSteps(StagingPlan(tempTable, meta.value, entities, getValue), failing);
      Run((if wasOpen then [] else [Opened]) + body.actions + (if wasOpen then [] else [Closed]), body.failure)
  }

  /** The merge step: build the statement (which may throw), then execute it on the
      connection as it is. */
  function Merging<V>(isOpen: bool, failing: set<Step>, tempTable: string, meta: Option<TableMeta>,
                      options: Option<BulkOptions>): Run<V>
  {
    if meta.None? then Run([], Some(NotMapped))
    else
      match MergeSql(tempTable, meta.value, options)
      case Failure(e) => Run([], Some(BadMerge(e)))
      case Success(sql) =>
        if isOpen then RunSteps([(MergeRows, Executed(sql))], failing)
        else Run([], Some(Thrown(MergeRows)))
  }

  /** The staging table's name for a fresh identifier printed as 32 lower-case hex digits. */
  function TempTableName(guid: string): string
  {
    "temp_" + guid
  }

  /** Inside the transaction, on the open connection: stage, merge, and commit only if
      both returned. */
  function InTransaction<E, V>(failing: set<Step>, tempTable: string, meta: Option<TableMeta>, entities: seq<E>,
                               getValue: (string, E) -> V, options: Option<BulkOptions>): Run<V>
  {
    Sequenced(Staging(true, failing, tempTable, meta, entities, getValue),
              Merging(true, failing, tempTable, meta, options),
              CommitStep !in failing)
  }

  /** Staging, then the merge if staging returned, then the commit if both returned. */
  function Sequenced<V>(stage: Run<V>, merge: Run<V>, commits: bool): Run<V>
  {
    if stage.failure.Some? then stage
    else if merge.failure.Some? then Run(stage.actions + merge.actions, merge.failure)
    else if !commits then Run(stage.actions + merge.actions, Some(Thrown(CommitStep)))
    else Run(stage.actions + merge.actions + [Committed], None)
  }

  /** The whole bulk call: begin the transaction, run the work inside it, then dispose of
      it, which rolls back what was not committed and closes a connection it opened. */
  function BulkOperation<E, V>(wasOpen: bool, inTransaction: bool, failing: set<Step>, guid: string,
                               meta: Option<TableMeta>, entities: seq<E>, getValue: (string, E) -> V,
                               options: Option<BulkOptions>): Run<V>
  {
    if inTransaction || BeginStep in failing then Run([], Some(Thrown(BeginStep)))
    else Transactional(wasOpen, InTransaction(failing, TempTableName(guid), meta, entities, getValue, options))
  }

  /** A run inside a transaction begun on a connection that was open or not, then the end of
      the transaction: the commit inside the run, or the rollback at disposal when the run
      threw; either closes a connection that beginning the transaction opened. */
  function Transactional<V>(wasOpen: bool, inner: Run<V>): Run<V>
  {
    Run((if wasOpen then [] else [Opened]) + [Began]
        + inner.actions
        + (if inner.failure.Some? then [RolledBack] else [])
        + (if wasOpen then [] else [Closed]),
        inner.failure)
  }

  // ---------------------------------------------------------------------------------------
  // The operations

  /** Staging: the connection is opened here only if it was closed, and then closed in
      `finally` whether or not the body threw. */
  method BulkInsertToTempTable<E, V>(db: Database<V>, entities: seq<E>, tempTable: string,
                                     meta: Option<TableMeta>, getValue: (string, E) -> V)
    returns (failure: Option<BulkError>)
    modifies db
    ensures db.trace == old(db.trace) + Staging(old(db.isOpen), db.failing, tempTable, meta, entities, getValue).actions
    ensures failure == Staging(old(db.isOpen), db.failing, tempTable, meta, entities, getValue).failure
    ensures db.isOpen == old(db.isOpen) && db.transaction == old(db.transaction)
  {
    var connectionOpenedHere := false;
    if !db.isOpen {
      var ok := db.Open();
      if !ok {
        return Some(Thrown(OpenConnection));
      }
      connectionOpenedHere := true;
    }
    failure := StageOnOpenConnection(db, entities, tempTable, meta, getValue);
    if connectionOpenedHere {
      db.Close();
    }
  }

  /** The body of the staging `try`, on an open connection. */
  method StageOnOpenConnection<E, V>(db: Database<V>, entities: seq<E>, tempTable: string,
                                     meta: Option<TableMeta>, getValue: (string, E) -> V)
    returns (failure: Option<BulkError>)
    requires db.isOpen
    modifies db
    ensures db.trace == old(db.trace) + Staging(true, db.failing, tempTable, meta, entities, getValue).actions
    ensures failure == Staging(true, db.failing, tempTable, meta, entities, getValue).failure
    ensures db.isOpen && db.transaction == old(db.transaction)
  {
    if meta.None? {
      return Some(NotMapped);
    }
    var table := meta.value;
    ghost var plan := StagingPlan(tempTable, table, entities, getValue);
    var ok := db.Execute(CreateTempTable, CreateTempTableSql(tempTable, table));
    if !ok {
      return Some(Thrown(CreateTempTable));
    }
    ok := db.Execute(DropIdentity, AlterTempTableSql(tempTable));
    if !ok {
      assert RunSteps(plan[1..], db.failing) == Run([], Some(Thrown(DropIdentity)));
      return Some(Thrown(DropIdentity));
    }
    var copyCommand := CopyCommand(tempTable, table);
    var writer := new BinaryImporter<V>(copyCommand);
    WriteRows(writer, entities, table.columns, getValue);
    assert writer.events == CopyEvents(entities, table.columns, getValue);
    ok := db.Import(writer.command, writer.events);
    if !ok {
      assert RunSteps(plan[1..][1..], db.failing) == Run([], Some(Thrown(ImportRows)));
      assert RunSteps(plan[1..], db.failing) == Run([plan[1].1], Some(Thrown(ImportRows)));
      assert RunSteps(plan, db.failing) == Run([plan[0].1, plan[1].1], Some(Thrown(ImportRows)));
      return Some(Thrown(ImportRows));
    }
    assert plan[1..][1..][1..] == [];
    assert RunSteps(plan[1..][1..], db.failing) == Run([plan[2].1], None);
    assert RunSteps(plan[1..], db.failing) == Run([plan[1].1, plan[2].1], None);
    assert RunSteps(plan, db.failing) == Run([plan[0].1, plan[1].1, plan[2].1], None);
    return None;
  }

  /** The merge: build the statement, then execute it; an exception from the execution is
      rethrown unchanged. */
  method MergeTempTable<V>(db: Database<V>, tempTable: string, meta: Option<TableMeta>, options: Option<BulkOptions>)
    returns (failure: Option<BulkError>)
    modifies db
    ensures db.trace == old(db.trace) + Merging(old(db.isOpen), db.failing, tempTable, meta, options).actions
    ensures failure == Merging<V>(old(db.isOpen), db.failing, tempTable, meta, options).failure
    ensures db.isOpen == old(db.isOpen) && db.transaction == old(db.transaction)
  {
    if meta.None? {
      return Some(NotMapped);
    }
    var mergeSql := MergeSql(tempTable, meta.value, options);
    if mergeSql.Failure? {
      return Some(BadMerge(mergeSql.error));
    }
    var ok := db.Execute(MergeRows, mergeSql.value);
    if !ok {
      return Some(Thrown(MergeRows));
    }
    ghost var plan: seq<(Step, Action<V>)> := [(MergeRows, Executed(mergeSql.value))];
    assert plan[1..] == [];
    assert RunSteps(plan, db.failing) == Run([Executed(mergeSql.value)], None);
    return None;
  }

  /** The body of the `await using` block of the entry point: stage, merge, commit. */
  method RunInTransaction<E, V>(db: Database<V>, entities: seq<E>, tempTable: string, meta: Option<TableMeta>,
                                getValue: (string, E) -> V, options: Option<BulkOptions>)
    returns (failure: Option<BulkError>)
    requires db.isOpen && db.transaction.Active?
    modifies db
    ensures db.trace == old(db.trace) + InTransaction(db.failing, tempTable, meta, entities, getValue, options).actions
                        + (if failure.None? && old(db.transaction).owns then [Closed] else [])
    ensures failure == InTransaction(db.failing, tempTable, meta, entities, getValue, options).failure
    ensures db.isOpen == (failure.Some? || !old(db.transaction).owns)
    ensures db.transaction == if failure.None? then NoTransaction else old(db.transaction)
  {
    ghost var stage := Staging(true, db.failing, tempTable, meta, entities, getValue);
    ghost var merge := Merging<V>(true, db.failing, tempTable, meta, options);
    ghost var run := InTransaction(db.failing, tempTable, meta, entities, getValue, options);
    assert run == Sequenced(stage, merge, CommitStep !in db.failing);
    ghost var before := db.trace;
    failure := BulkInsertToTempTable(db, entities, tempTable, meta, getValue);
    assert db.trace == before + stage.actions && failure == stage.failure;
    if failure.Some? {
      assert run == stage;
      return;
    }
    failure := MergeTempTable(db, tempTable, meta, options);
    assert db.trace == before + stage.actions + merge.actions && failure == merge.failure;
    if failure.Some? {
      assert run == Run(stage.actions + merge.actions, merge.failure);
      return;
    }
    ghost var merged := db.trace;
    ghost var owns := db.transaction.owns;
    var ok := db.CommitTransaction();
    if !ok {
      failure := Some(Thrown(CommitStep));
    }
    CommittedTrace(before, merged, db.trace, stage, merge, ok, owns);
  }

  /** The entry point: a fresh staging table name, then begin, stage, merge, commit, and
      dispose of the transaction on the way out. */
  method ExecuteBulkOperation<E, V>(db: Database<V>, entities: seq<E>, guid: string, meta: Option<TableMeta>,
                                    getValue: (string, E) -> V, options: Option<BulkOptions>)
    returns (failure: Option<BulkError>)
    modifies db
    ensures db.trace == old(db.trace)
      + BulkOperation(old(db.isOpen), old(db.transaction).Active?, db.failing, guid, meta, entities, getValue, options).actions
    ensures failure
      == BulkOperation(old(db.isOpen), old(db.transaction).Active?, db.failing, guid, meta, entities, getValue, options).failure
    ensures db.isOpen == old(db.isOpen)
    ensures db.transaction == old(db.transaction)
  {
    var tempTable := TempTableName(guid);
    ghost var wasOpen := db.isOpen;
    ghost var before := db.trace;
    var ok := db.BeginTransaction();
    if !ok {
      return Some(Thrown(BeginStep));
    }
    ghost var begun := db.trace;
    ghost var owns := db.transaction.owns;
    failure := RunInTransaction(db, entities, tempTable, meta, getValue, options);
    ghost var inner := InTransaction(db.failing, tempTable, meta, entities, getValue, options);
    ghost var during := db.trace;
    db.DisposeTransaction();
    TransactionalTrace(before, begun, during, db.trace, wasOpen, inner);
  }

  /** How the trace adds up once staging and merging went through: the commit is recorded
      when it succeeds, followed by the close of a connection the transaction opened, and
      otherwise it is the failure. */
  lemma CommittedTrace<V>(before: seq<Action<V>>, merged: seq<Action<V>>, after: seq<Action<V>>,
                          stage: Run<V>, merge: Run<V>, commits: bool, owns: bool)
    requires stage.failure.None? && merge.failure.None?
    requires merged == before + stage.actions + merge.actions
    requires after == merged + (if commits then [Committed] + (if owns then [Closed] else []) else [])
    ensures after == before + Sequenced(stage, merge, commits).actions + (if commits && owns then [Closed] else [])
    ensures Sequenced(stage, merge, commits).failure == if commits then None else Some(Thrown(CommitStep))
  {
  }

  /** How the trace of the entry point adds up: the transaction's beginning, the work inside
      it with the close at commit, and the rollback and close at disposal. */
  lemma TransactionalTrace<V>(before: seq<Action<V>>, begun: seq<Action<V>>, during: seq<Action<V>>,
                              after: seq<Action<V>>, wasOpen: bool, inner: Run<V>)
    requires begun == before + (if wasOpen then [] else [Opened]) + [Began]
    requires during == begun + inner.actions + (if inner.failure.None? && !wasOpen then [Closed] else [])
    requires after == during + (if inner.failure.Some? then [RolledBack] + (if wasOpen then [] else [Closed]) else [])
    ensures after == before + Transactional(wasOpen, inner).actions
  {
  }

  // ---------------------------------------------------------------------------------------
  // Properties of the pipeline

  /** Running a plan performs a prefix of its actions: all of them when no step throws,
      otherwise exactly those before the first step that throws, which is the one reported. */
  lemma {:induction false} RunStepsStopsAtFirstFailure<V>(plan: seq<(Step, Action<V>)>, failing: set<Step>)
    ensures var r := RunSteps(plan, failing);
            |r.actions| <= |plan| && r.actions == Actions(plan)[..|r.actions|]
            && (forall i :: 0 <= i < |r.actions| ==> plan[i].0 !in failing)
            && (r.failure.None? ==> |r.actions| == |plan|)
            && (r.failure.Some? ==> |r.actions| < |plan| && plan[|r.actions|].0 in failing
                                    && r.failure == Some(Thrown(plan[|r.actions|].0)))
  {
    if plan != [] && plan[0].0 !in failing {
      RunStepsStopsAtFirstFailure(plan[1..], failing);
      var rest := RunSteps(plan[1..], failing);
      assert Actions(plan) == [plan[0].1] + Actions(plan[1..]);
      forall i | 0 <= i < |rest.actions| + 1
        ensures plan[i].0 !in failing
      {
        if i > 0 {
          assert plan[i] == plan[1..][i - 1];
        }
      }
    }
  }

  /** An action that is a statement sent on the connection. */
  predicate IsStatement<V>(a: Action<V>)
  {
    a.Executed? || a.Imported?
  }

  /** Staging sends statements only; it opens the connection only when it was closed, and
      then closes it again as its last action, whether or not a statement threw. */
  lemma StagingRestoresConnection<E, V>(wasOpen: bool, failing: set<Step>, tempTable: string, meta: Option<TableMeta>,
                                        entities: seq<E>, getValue: (string, E) -> V)
    ensures var r := Staging(wasOpen, failing, tempTable, meta, entities, getValue);
            var n := |r.actions|;
            (wasOpen ==> forall i :: 0 <= i < n ==> IsStatement(r.actions[i]))
            && (!wasOpen && OpenConnection !in failing ==>
                  n >= 2 && r.actions[0] == Opened && r.actions[n - 1] == Closed
                  && forall i :: 0 < i < n - 1 ==> IsStatement(r.actions[i]))
            && (!wasOpen && OpenConnection in failing ==> r.actions == [] && r.failure == Some(Thrown(OpenConnection)))
  {
    if meta.Some? {
      var plan := StagingPlan(tempTable, meta.value, entities, getValue);
      RunStepsStopsAtFirstFailure(plan, failing);
      var body := RunSteps(plan, failing);
      assert forall i :: 0 <= i < |body.actions| ==> IsStatement(body.actions[i]) by {
        forall i | 0 <= i < |body.actions| ensures IsStatement(body.actions[i]) {
          assert body.actions[i] == Actions(plan)[i] == plan[i].1;
        }
      }
    }
  }

  /** The actions of a run inside the transaction: statements only, followed by
      `Committed` exactly when nothing threw. */
  predicate CommitsLast<V>(r: Run<V>)
  {
    var n := |r.actions|;
    (r.failure.None? ==> n > 0 && r.actions[n - 1] == Committed
                         && forall i :: 0 <= i < n - 1 ==> IsStatement(r.actions[i]))
    && (r.failure.Some? ==> forall i :: 0 <= i < n ==> IsStatement(r.actions[i]))
  }

  lemma InTransactionCommitsLast<E, V>(failing: set<Step>, tempTable: string, meta: Option<TableMeta>, entities: seq<E>,
                                       getValue: (string, E) -> V, options: Option<BulkOptions>)
    ensures CommitsLast(InTransaction(failing, tempTable, meta, entities, getValue, options))
  {
    StagingRestoresConnection(true, failing, tempTable, meta, entities, getValue);
    MergingSendsStatements<V>(failing, tempTable, meta, options);
    SequencedCommitsLast(Staging(true, failing, tempTable, meta, entities, getValue),
                         Merging<V>(true, failing, tempTable, meta, options), CommitStep !in failing);
  }

  /** Merging on the open connection sends at most the merge statement. */
  lemma MergingSendsStatements<V>(failing: set<Step>, tempTable: string, meta: Option<TableMeta>,
                                  options: Option<BulkOptions>)
    ensures var merge := Merging<V>(true, failing, tempTable, meta, options);
            forall i :: 0 <= i < |merge.actions| ==> IsStatement(merge.actions[i])
  {
    if meta.Some? && MergeSql(tempTable, meta.value, options).Success? {
      var single: seq<(Step, Action<V>)> := [(MergeRows, Executed(MergeSql(tempTable, meta.value, options).value))];
      RunStepsStopsAtFirstFailure(single, failing);
      assert Actions(single) == [single[0].1];
    }
  }

  /** Statements followed by statements, then the commit when it happens. */
  lemma SequencedCommitsLast<V>(stage: Run<V>, merge: Run<V>, commits: bool)
    requires forall i :: 0 <= i < |stage.actions| ==> IsStatement(stage.actions[i])
    requires forall i :: 0 <= i < |merge.actions| ==> IsStatement(merge.actions[i])
    ensures CommitsLast(Sequenced(stage, merge, commits))
  {
    var both := stage.actions + merge.actions;
    forall i | 0 <= i < |both| ensures IsStatement(both[i]) {
      if i >= |stage.actions| {
        assert both[i] == merge.actions[i - |stage.actions|];
      }
    }
  }

  /** The shape of a bulk call that began its transaction: the connection is opened first
      when it was closed, then `Began`; then statements only; then `Committed` when the call
      succeeds or `RolledBack` when it throws; then the connection is closed last when it
      was opened. So each of these happens exactly once, in that order. */
  predicate Bracketed<V>(wasOpen: bool, r: Run<V>)
  {
    var k := if wasOpen then 0 else 1;
    var n := |r.actions|;
    n >= 2 * k + 2
    && r.actions[k].Began?
    && (if r.failure.None? then r.actions[n - 1 - k].Committed? else r.actions[n - 1 - k].RolledBack?)
    && (forall i :: k < i < n - 1 - k ==> IsStatement(r.actions[i]))
    && (!wasOpen ==> r.actions[0].Opened? && r.actions[n - 1].Closed?)
  }

  lemma TransactionalIsBracketed<V>(wasOpen: bool, inner: Run<V>)
    requires CommitsLast(inner)
    ensures Bracketed(wasOpen, Transactional(wasOpen, inner))
  {
    var n := |inner.actions|;
    var body := if inner.failure.None? then inner.actions[..n - 1] else inner.actions;
    var last: Action<V> := if inner.failure.None? then Committed else RolledBack;
    assert inner.actions + (if inner.failure.Some? then [RolledBack] else []) == body + [last] by {
      if inner.failure.None? {
        assert inner.actions == inner.actions[..n - 1] + [inner.actions[n - 1]];
      }
    }
    var k := if wasOpen then 0 else 1;
    var r := Transactional(wasOpen, inner).actions;
    var opening: seq<Action<V>> := if wasOpen then [] else [Opened];
    assert r == opening + [Began] + body + [last] + (if wasOpen then [] else [Closed]);
    forall i | k < i < |r| - 1 - k
      ensures IsStatement(r[i])
    {
      assert r[i] == body[i - k - 1];
    }
  }

  /** A bulk call that begins its transaction ends it exactly once: committed when the
      call succeeds, rolled back when anything inside it threw; and the connection is
      opened first and closed last exactly when it was closed before the call. */
  lemma TransactionEndsOnce<E, V>(wasOpen: bool, failing: set<Step>, guid: string, meta: Option<TableMeta>,
                                  entities: seq<E>, getValue: (string, E) -> V, options: Option<BulkOptions>)
    requires BeginStep !in failing
    ensures Bracketed(wasOpen, BulkOperation(wasOpen, false, failing, guid, meta, entities, getValue, options))
  {
    InTransactionCommitsLast(failing, TempTableName(guid), meta, entities, getValue, options);
    TransactionalIsBracketed(wasOpen, InTransaction(failing, TempTableName(guid), meta, entities, getValue, options));
  }

  /** With none of its steps failing, staging on the open connection sends the three
      staging statements and reports nothing. */
  lemma StagingSucceeds<E, V>(failing: set<Step>, temp: string, table: TableMeta,
                              entities: seq<E>, getValue: (string, E) -> V)
    requires CreateTempTable !in failing && DropIdentity !in failing && ImportRows !in failing
    ensures Staging(true, failing, temp, Some(table), entities, getValue)
         == Run([Executed(CreateTempTableSql(temp, table)),
                 Executed(AlterTempTableSql(temp)),
                 Imported(CopyCommand(temp, table), CopyEvents(entities, table.columns, getValue))], None)
  {
    var plan := StagingPlan(temp, table, entities, getValue);
    RunStepsStopsAtFirstFailure(plan, failing);
    assert Actions(plan) == [plan[0].1, plan[1].1, plan[2].1];
  }

  /** When no operation throws, the mapped entity has a primary key and the condition can be
      translated, the call sends exactly: begin, CREATE, ALTER, the COPY of every row, the
      merge, commit; inside an open and close of the connection when it was closed. */
  lemma HappyPath<E, V>(wasOpen: bool, failing: set<Step>, guid: string, table: TableMeta,
                        entities: seq<E>, getValue: (string, E) -> V, options: Option<BulkOptions>)
    requires BeginStep !in failing && CreateTempTable !in failing && DropIdentity !in failing
    requires ImportRows !in failing && MergeRows !in failing && CommitStep !in failing
    requires MergeSql(TempTableName(guid), table, options).Success?
    ensures BulkOperation(wasOpen, false, failing, guid, Some(table), entities, getValue, options)
         == Run((if wasOpen then [] else [Opened])
                + [Began,
                   Executed(CreateTempTableSql(TempTableName(guid), table)),
                   Executed(AlterTempTableSql(TempTableName(guid))),
                   Imported(CopyCommand(TempTableName(guid), table), CopyEvents(entities, table.columns, getValue)),
                   Executed(MergeSql(TempTableName(guid), table, options).value),
                   Committed]
                + (if wasOpen then [] else [Closed]),
                None)
  {
    var temp := TempTableName(guid);
    StagingSucceeds(failing, temp, table, entities, getValue);
    var single: seq<(Step, Action<V>)> := [(MergeRows, Executed(MergeSql(temp, table, options).value))];
    RunStepsStopsAtFirstFailure(single, failing);
    assert Actions(single) == [single[0].1];
  }

  /** A merge condition that cannot be translated is only found out once the rows are
      staged: the staging statements and the COPY have all been sent when the call throws
      the translator's exception, and the transaction is rolled back. */
  lemma UntranslatableConditionFailsAfterStaging<E, V>(wasOpen: bool, guid: string, table: TableMeta,
                                                       entities: seq<E>, getValue: (string, E) -> V, condition: Node)
    requires table.primaryKey.Some? && Render(condition).Failure?
    ensures BulkOperation(wasOpen, false, {}, guid, Some(table), entities, getValue,
                          Some(BulkOptions(Some(condition), DoUpdate)))
         == Run((if wasOpen then [] else [Opened])
                + [Began,
                   Executed(CreateTempTableSql(TempTableName(guid), table)),
                   Executed(AlterTempTableSql(TempTableName(guid))),
                   Imported(CopyCommand(TempTableName(guid), table), CopyEvents(entities, table.columns, getValue)),
                   RolledBack]
                + (if wasOpen then [] else [Closed]),
                Some(BadMerge(Translation(Render(condition).error))))
  {
    var temp := TempTableName(guid);
    StagingSucceeds({}, temp, table, entities, getValue);
    UntranslatableConditionFailsMerge(temp, table, condition);
  }

  /** A mapped entity type without a primary key is only found out when the merge statement
      is built: the staging statements and the COPY have all been sent when the call throws,
      and the transaction is rolled back. */
  lemma MissingKeyFailsAfterStaging<E, V>(wasOpen: bool, guid: string, table: TableMeta,
                                          entities: seq<E>, getValue: (string, E) -> V, options: Option<BulkOptions>)
    requires table.primaryKey.None?
    ensures BulkOperation(wasOpen, false, {}, guid, Some(table), entities, getValue, options)
         == Run((if wasOpen then [] else [Opened])
                + [Began,
                   Executed(CreateTempTableSql(TempTableName(guid), table)),
                   Executed(AlterTempTableSql(TempTableName(guid))),
                   Imported(CopyCommand(TempTableName(guid), table), CopyEvents(entities, table.columns, getValue)),
                   RolledBack]
                + (if wasOpen then [] else [Closed]),
                Some(BadMerge(NoPrimaryKey)))
  {
    var temp := TempTableName(guid);
    StagingSucceeds({}, temp, table, entities, getValue);
    assert Merging<V>(true, {}, temp, Some(table), options) == Run([], Some(BadMerge(NoPrimaryKey)));
  }

  /** The call succeeds exactly when no transaction is active yet, the entity type is
      mapped, the merge statement can be built, and none of the operations it reaches
      throws; opening the connection is never one of them, since the transaction opens it. */
  lemma SucceedsExactlyWhen<E, V>(wasOpen: bool, inTransaction: bool, failing: set<Step>, guid: string,
                                  meta: Option<TableMeta>, entities: seq<E>, getValue: (string, E) -> V,
                                  options: Option<BulkOptions>)
    ensures BulkOperation(wasOpen, inTransaction, failing, guid, meta, entities, getValue, options).failure.None?
        <==> !inTransaction && meta.Some? && MergeSql(TempTableName(guid), meta.value, options).Success?
             && BeginStep !in failing && CreateTempTable !in failing && DropIdentity !in failing
             && ImportRows !in failing && MergeRows !in failing && CommitStep !in failing
  {
    if meta.Some? {
      var temp := TempTableName(guid);
      var plan := StagingPlan(temp, meta.value, entities, getValue);
      RunStepsStopsAtFirstFailure(plan, failing);
      assert Actions(plan) == [plan[0].1, plan[1].1, plan[2].1];
      if MergeSql(temp, meta.value, options).Success? {
        var single: seq<(Step, Action<V>)> := [(MergeRows, Executed(MergeSql(temp, meta.value, options).value))];
        RunStepsStopsAtFirstFailure(single, failing);
        assert Actions(single) == [single[0].1];
      }
    }
  }

  /** An exception from executing the merge is rethrown unchanged, after the staging
      statements ran, and the transaction is rolled back rather than committed. */
  lemma MergeFailureIsRethrown<E, V>(wasOpen: bool, failing: set<Step>, guid: string, table: TableMeta,
                                     entities: seq<E>, getValue: (string, E) -> V, options: Option<BulkOptions>)
    requires MergeRows in failing
    requires BeginStep !in failing && CreateTempTable !in failing && DropIdentity !in failing
    requires ImportRows !in failing
    requires MergeSql(TempTableName(guid), table, options).Success?
    ensures var r := BulkOperation(wasOpen, false, failing, guid, Some(table), entities, getValue, options);
            r.failure == Some(Thrown(MergeRows)) && RolledBack in r.actions && Committed !in r.actions
  {
    var temp := TempTableName(guid);
    var plan := StagingPlan(temp, table, entities, getValue);
    RunStepsStopsAtFirstFailure(plan, failing);
    var single: seq<(Step, Action<V>)> := [(MergeRows, Executed(MergeSql(temp, table, options).value))];
    RunStepsStopsAtFirstFailure(single, failing);
    TransactionEndsOnce(wasOpen, failing, guid, Some(table), entities, getValue, options);
    var r := BulkOperation(wasOpen, false, failing, guid, Some(table), entities, getValue, options);
    var k := if wasOpen then 0 else 1;
    assert r.actions[|r.actions| - 1 - k] == RolledBack;
    assert Committed !in r.actions by {
      forall i | 0 <= i < |r.actions| ensures r.actions[i] != Committed {
        if k < i < |r.actions| - 1 - k {
          assert IsStatement(r.actions[i]);
        }
      }
    }
  }
}
