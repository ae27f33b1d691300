/**
 The connection to the store.  A transaction is opened by the first statement and dropped by the
 commit; until then its effects are seen by this connection alone.  After a statement has failed the
 store refuses every further one of the transaction.
 */
module DatabaseManager {
  import opened Wrappers
  import opened Tables

  class DataBaseManager {
    var committed: Db
    var worker: Option<Db>
    var aborted: bool

    // Every state that was ever committed, oldest first: what a crash can leave behind.
    ghost var log: seq<Db>

    // Every changing statement ever sent, oldest first.
    ghost var issued: seq<Statement>

    // The tables as this connection sees them.
    function Current(): Db
      reads this
    {
      if worker.Some? then worker.value else committed
    }

    // An open transaction, if any, has changed nothing and can go on.
    predicate Clean()
      reads this
    {
      !aborted && (worker.Some? ==> worker.value == committed)
    }

    ghost predicate Valid()
      reads this
    {
      |log| > 0 && log[|log| - 1] == committed && (aborted ==> worker.Some?)
    }

    // Opens the store: a store without tables gets empty ones, and the setup is committed.
    constructor (existing: Option<Db>)
      ensures Valid() && Clean() && worker.None?
      ensures committed == (if existing.Some? then existing.value else EMPTY)
      ensures log == [committed] && issued == []
    {
      committed := if existing.Some? then existing.value else EMPTY;
      worker, aborted := None, false;
      log, issued := [if existing.Some? then existing.value else EMPTY], [];
    }

    // Runs one statement inside the open transaction, opening one first if there is none.
    method MakeTransaction(st: Statement) returns (r: Result<Db, SqlError>)
      modifies this`worker, this`aborted, this`issued
      ensures worker.Some? && issued == old(issued) + [st]
      ensures r == if old(aborted) then Failure(TransactionAborted) else Execute(old(Current()), st)
      ensures aborted <==> r.Failure?
      ensures Current() == if r.Success? then r.value else old(Current())
    {
      if worker.None? {
        worker := Some(committed);
      }
      r := if aborted then Failure(TransactionAborted) else Execute(worker.value, st);
      if r.Success? {
        worker := Some(r.value);
      }
      aborted, issued := r.Failure?, issued + [st];
    }

    // A reading statement, in the same transaction: returns the tables it reads from.
    method Select() returns (r: Result<Db, SqlError>)
      modifies this`worker
      ensures worker == Some(old(Current()))
      ensures r == if aborted then Failure(TransactionAborted) else Success(old(Current()))
    {
      if worker.None? {
        worker := Some(committed);
      }
      r := if aborted then Failure(TransactionAborted) else Success(worker.value);
    }

    // There must be a transaction to commit, and no statement of it may have failed.
    method CommitTransactions()
      requires Valid() && worker.Some? && !aborted
      modifies this`committed, this`worker, this`log
      ensures Valid() && worker.None?
      ensures committed == old(worker.value)
      ensures log == old(log) + [committed]
    {
      committed := worker.value;
      worker := None;
      log := log + [committed];
    }
  }
}
