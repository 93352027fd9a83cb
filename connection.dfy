/** The database handle and its transaction helper
    (internal/database/connection.go). The store is the value of `tables`; a
    transaction works on a private copy that becomes the store only on commit.
    Whether `Begin` and `Commit` succeed is decided by the caller-supplied
    faults, which stand for the driver and the server. */
module Database {
  import opened Common
  import opened Store

  /** The error returned when `Begin` fails. */
  function BeginFailed(fault: string): string {
    Wrap("failed to begin transaction", fault)
  }

  /** What ExecuteInTransaction returns: the begin error, else the error of
      the work. The deferred commit assigns the local `err` only after the
      returned value has been fixed, so a failed commit is not reported. */
  function TxReturn(beginFault: Option<string>, workErr: Option<string>): (r: Option<string>)
    ensures r.None? <==> beginFault.None? && workErr.None?
    ensures beginFault.None? ==> r == workErr
  {
    if beginFault.Some? then Some(BeginFailed(beginFault.value)) else workErr
  }

  /** The work of the transaction becomes visible: the transaction began, the
      work succeeded and the commit went through. In every other case the
      transaction is rolled back. */
  predicate TxCommits(beginFault: Option<string>, workErr: Option<string>, commitFault: Option<string>) {
    beginFault.None? && workErr.None? && commitFault.None?
  }

  /** The corrected return value: a failed commit is reported as the error. */
  function TxReturnChecked(beginFault: Option<string>, workErr: Option<string>, commitFault: Option<string>)
    : (r: Option<string>)
    ensures r.None? <==> TxCommits(beginFault, workErr, commitFault)
    ensures beginFault.Some? ==> r == Some(BeginFailed(beginFault.value))
    ensures beginFault.None? && workErr.Some? ==> r == workErr
  {
    if beginFault.Some? then Some(BeginFailed(beginFault.value))
    else if workErr.Some? then workErr
    else commitFault
  }

  /** As written, success is reported for a transaction whose commit failed:
      the caller hears nil while nothing was stored. */
  lemma CommitErrorLost(workErr: Option<string>, commitFault: string)
    requires workErr.None?
    ensures TxReturn(None, workErr) == None
    ensures !TxCommits(None, workErr, Some(commitFault))
    ensures TxReturnChecked(None, workErr, Some(commitFault)) == Some(commitFault)
  {
  }

  /** As written the reported error implies rollback, but not the converse:
      whenever nil is returned either the work is stored or the commit failed. */
  lemma ReturnedErrorMeansRollback(beginFault: Option<string>, workErr: Option<string>, commitFault: Option<string>)
    ensures TxReturn(beginFault, workErr).Some? ==> !TxCommits(beginFault, workErr, commitFault)
    ensures TxReturn(beginFault, workErr).None? ==> (TxCommits(beginFault, workErr, commitFault) <==> commitFault.None?)
  {
  }

  class DB {
    var tables: Tables

    constructor (initial: Tables)
      ensures tables == initial
    {
      tables := initial;
    }

    /** ExecuteInTransaction: begin, run `work` on the transaction's copy of
        the store, then in the deferred step roll back on error or commit. The
        panic branch is not modelled. */
    method ExecuteInTransaction(beginFault: Option<string>, work: Tables -> (Tables, Option<string>), commitFault: Option<string>)
      returns (result: Option<string>)
      modifies this
      ensures result == TxReturn(beginFault, work(old(tables)).1)
      ensures tables == if TxCommits(beginFault, work(old(tables)).1, commitFault) then work(old(tables)).0 else old(tables)
    {
      if beginFault.Some? {
        return Some(BeginFailed(beginFault.value));
      }
      var (staged, err) := work(tables);
      // `return err` fixes the result here; the deferred function runs after.
      result := err;
      if err.None? {
        err := commitFault;
        if err.None? {
          tables := staged;
        }
      }
    }

    /** The corrected helper: the commit error becomes the returned error, so
        nil is returned exactly when the work was stored. */
    method ExecuteInTransactionChecked(beginFault: Option<string>, work: Tables -> (Tables, Option<string>), commitFault: Option<string>)
      returns (result: Option<string>)
      modifies this
      ensures result == TxReturnChecked(beginFault, work(old(tables)).1, commitFault)
      ensures result.None? ==> tables == work(old(tables)).0
      ensures result.Some? ==> tables == old(tables)
    {
      if beginFault.Some? {
        return Some(BeginFailed(beginFault.value));
      }
      var (staged, err) := work(tables);
      if err.None? {
        err := commitFault;
        if err.None? {
          tables := staged;
        }
      }
      result := err;
    }
  }
}
