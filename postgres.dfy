/** The Postgres repository (internal/repository/postgres.go): lookups that
    map "no rows" to a nil result, the claim insert, the reversal transaction,
    the batch inserts the loader uses and the row counts. Each statement's
    failure is a caller-supplied fault standing for the driver and server. */
module Repository {
  import opened Common
  import opened Models
  import opened Store
  import opened Database

  /** Stand-in text for the driver's unique-violation error on a plain INSERT. */
  const DuplicateKey: string := "pq: duplicate key value violates unique constraint"

  const ClaimNotFound: string := "claim not found"
  const ClaimAlreadyReversed: string := "claim already reversed"

  // ---------------------------------------------------------------------
  // Lookups

  /** The row `SELECT ... WHERE npi = $1` scans: the first pharmacy with the
      NPI, or none when the query has no rows. */
  function FindPharmacy(ps: seq<Pharmacy>, npi: string): (r: Option<Pharmacy>)
    ensures r.Some? ==> r.value in ps && r.value.npi == npi
    ensures r.None? <==> !HasNpi(ps, npi)
  {
    if ps == [] then None
    else if ps[0].npi == npi then Some(ps[0])
    else
      var r := FindPharmacy(ps[1..], npi);
      assert HasNpi(ps[1..], npi) ==> HasNpi(ps, npi) by {
        if HasNpi(ps[1..], npi) {
          var i :| 0 <= i < |ps[1..]| && ps[1..][i].npi == npi;
          assert ps[i + 1].npi == npi;
        }
      }
      assert HasNpi(ps, npi) ==> HasNpi(ps[1..], npi) by {
        if HasNpi(ps, npi) {
          var i :| 0 <= i < |ps| && ps[i].npi == npi;
          assert i > 0 && ps[1..][i - 1].npi == npi;
        }
      }
      r
  }

  /** The row `SELECT ... WHERE id = $1` scans from the claims table. */
  function FindClaim(cs: seq<Claim>, id: Uuid): (r: Option<Claim>)
    ensures r.Some? ==> r.value in cs && r.value.id == id
    ensures r.None? <==> !HasClaimId(cs, id)
  {
    if cs == [] then None
    else if cs[0].id == id then Some(cs[0])
    else
      var r := FindClaim(cs[1..], id);
      assert HasClaimId(cs[1..], id) ==> HasClaimId(cs, id) by {
        if HasClaimId(cs[1..], id) {
          var i :| 0 <= i < |cs[1..]| && cs[1..][i].id == id;
          assert cs[i + 1].id == id;
        }
      }
      assert HasClaimId(cs, id) ==> HasClaimId(cs[1..], id) by {
        if HasClaimId(cs, id) {
          var i :| 0 <= i < |cs| && cs[i].id == id;
          assert i > 0 && cs[1..][i - 1].id == id;
        }
      }
      r
  }

  /** Under the unique key the row found is the only one with that NPI. */
  lemma FoundPharmacyIsUnique(t: Tables, npi: string, k: int)
    requires KeysUnique(t)
    requires 0 <= k < |t.pharmacies| && t.pharmacies[k].npi == npi
    ensures FindPharmacy(t.pharmacies, npi) == Some(t.pharmacies[k])
  {
    var r := FindPharmacy(t.pharmacies, npi);
    var i :| 0 <= i < |t.pharmacies| && t.pharmacies[i] == r.value;
  }

  // ---------------------------------------------------------------------
  // The reversal transaction

  /** The outcome of each statement of ReverseClaim, in order. */
  datatype ReversalFaults = ReversalFaults(
    begin: Option<string>,
    existsQuery: Option<string>,
    reversedQuery: Option<string>,
    insert: Option<string>,
    commit: Option<string>)

  const NoReversalFaults: ReversalFaults := ReversalFaults(None, None, None, None, None)

  /** The body of the transaction in ReverseClaim, on the transaction's copy
      of the store: the existence check, the already-reversed check, then the
      insert of a reversal with the fresh id and the current time. */
  function ReverseClaimWork(t: Tables, claimId: Uuid, reversalId: Uuid, now: Time, f: ReversalFaults)
    : (r: (Tables, Option<string>))
    ensures r.1.None? <==>
      f.existsQuery.None? && f.reversedQuery.None? && f.insert.None?
      && HasClaimId(t.claims, claimId) && !HasReversalFor(t.reversals, claimId) && !HasReversalId(t.reversals, reversalId)
    ensures r.1.None? ==> r.0 == t.(reversals := t.reversals + [Reversal(reversalId, claimId, now)])
    ensures r.1.Some? ==> r.0 == t
    ensures r.1 == Some(ClaimNotFound) <==> f.existsQuery.None? && !HasClaimId(t.claims, claimId)
    ensures r.1 == Some(ClaimAlreadyReversed) <==>
      f.existsQuery.None? && f.reversedQuery.None? && HasClaimId(t.claims, claimId) && HasReversalFor(t.reversals, claimId)
  {
    assert ClaimNotFound[0] == 'c' && ClaimAlreadyReversed[6] == 'a' && ClaimNotFound[6] == 'n';
    if f.existsQuery.Some? then
      var e := Wrap("failed to check if claim exists", f.existsQuery.value);
      assert e[0] == 'f';
      (t, Some(e))
    else if !HasClaimId(t.claims, claimId) then (t, Some(ClaimNotFound))
    else if f.reversedQuery.Some? then
      var e := Wrap("failed to check if claim already reversed", f.reversedQuery.value);
      assert e[0] == 'f';
      (t, Some(e))
    else if HasReversalFor(t.reversals, claimId) then (t, Some(ClaimAlreadyReversed))
    else if f.insert.Some? then
      var e := Wrap("failed to create reversal record", f.insert.value);
      assert e[0] == 'f';
      (t, Some(e))
    else if HasReversalId(t.reversals, reversalId) then
      var e := Wrap("failed to create reversal record", DuplicateKey);
      assert e[0] == 'f';
      (t, Some(e))
    else (InsertOrSkip(t, ReversalRow(Reversal(reversalId, claimId, now))), None)
  }

  /** The reversal transaction keeps every unique key: in particular a claim
      never gets a second reversal. */
  lemma ReverseClaimWorkKeepsKeysUnique(t: Tables, claimId: Uuid, reversalId: Uuid, now: Time, f: ReversalFaults)
    requires KeysUnique(t)
    ensures KeysUnique(ReverseClaimWork(t, claimId, reversalId, now, f).0)
  {
    var row := ReversalRow(Reversal(reversalId, claimId, now));
    if ReverseClaimWork(t, claimId, reversalId, now, f).1.None? {
      InsertOrSkipKeepsKeysUnique(t, row);
    }
  }

  /** Reversing twice: once the first reversal is stored, the same claim is
      refused with "claim already reversed" and nothing changes, whatever
      fresh id the second attempt draws. */
  lemma SecondReversalRefused(t: Tables, claimId: Uuid, id1: Uuid, id2: Uuid, now1: Time, now2: Time)
    requires ReverseClaimWork(t, claimId, id1, now1, NoReversalFaults).1.None?
    ensures var u := ReverseClaimWork(t, claimId, id1, now1, NoReversalFaults).0;
      ReverseClaimWork(u, claimId, id2, now2, NoReversalFaults) == (u, Some(ClaimAlreadyReversed))
  {
    var u := ReverseClaimWork(t, claimId, id1, now1, NoReversalFaults).0;
    assert u.reversals[|t.reversals|].claimId == claimId;
    var i :| 0 <= i < |t.claims| && t.claims[i].id == claimId;
    assert u.claims[i].id == claimId;
  }

  // ---------------------------------------------------------------------
  // Batch inserts

  /** The outcome of each step of batchInsert: Begin, Prepare, the Exec of
      each row (a row past the end of `exec` succeeds) and Commit. */
  datatype BatchFaults = BatchFaults(begin: Option<string>, prepare: Option<string>, exec: seq<Option<string>>, commit: Option<string>)

  const NoBatchFaults: BatchFaults := BatchFaults(None, None, [], None)

  function ExecFault(f: BatchFaults, i: nat): Option<string> {
    if i < |f.exec| then f.exec[i] else None
  }

  /** The first row in [from, n) whose Exec fails. */
  function FirstExecFault(f: BatchFaults, from: nat, n: nat): (k: Option<nat>)
    decreases n - from
    ensures k.Some? ==> from <= k.value < n && ExecFault(f, k.value).Some?
    ensures forall j :: from <= j < n && (k.None? || j < k.value) ==> ExecFault(f, j).None?
  {
    if from >= n then None
    else if ExecFault(f, from).Some? then Some(from)
    else FirstExecFault(f, from + 1, n)
  }

  /** batchInsert as a value: the store afterwards and the returned error.
      The rows run in one transaction; the first failing step rolls all of
      them back, and a failed Commit is returned without a wrapper. */
  function BatchInsertResult(t: Tables, rows: seq<Row>, f: BatchFaults): (r: (Tables, Option<string>))
    ensures r.1.None? <==>
      f.begin.None? && f.prepare.None? && f.commit.None? && forall j :: 0 <= j < |rows| ==> ExecFault(f, j).None?
    ensures r.0 == if r.1.None? then InsertAll(t, rows) else t
    ensures f.begin.None? && f.prepare.None? && (forall j :: 0 <= j < |rows| ==> ExecFault(f, j).None?) ==> r.1 == f.commit
  {
    if f.begin.Some? then (t, Some(BeginFailed(f.begin.value)))
    else if f.prepare.Some? then (t, Some(Wrap("failed to prepare statement", f.prepare.value)))
    else
      match FirstExecFault(f, 0, |rows|)
      case Some(k) => (t, Some(Wrap("failed to execute insert", ExecFault(f, k).value)))
      case None => if f.commit.Some? then (t, f.commit) else (InsertAll(t, rows), None)
  }

  /** A batch that commits keeps every unique key and every existing row, and
      every row of the batch is afterwards present by key: inserted, or
      skipped because the key was taken. */
  lemma {:induction false} BatchKeepsKeysAndCoversRows(t: Tables, rows: seq<Row>, f: BatchFaults)
    requires KeysUnique(t)
    ensures KeysUnique(BatchInsertResult(t, rows, f).0)
    ensures Extends(t, BatchInsertResult(t, rows, f).0)
    ensures BatchInsertResult(t, rows, f).1.None? ==>
      forall k :: 0 <= k < |rows| ==> Conflicts(BatchInsertResult(t, rows, f).0, rows[k])
  {
    InsertAllKeepsKeysUnique(t, rows);
    InsertAllCoversRows(t, rows);
  }

  function PharmacyRows(ps: seq<Pharmacy>): (rows: seq<Row>)
    ensures |rows| == |ps|
    ensures forall k :: 0 <= k < |rows| ==> Fits(Pharmacies, rows[k]) && rows[k].pharmacy == ps[k]
  {
    seq(|ps|, i requires 0 <= i < |ps| => PharmacyRow(ps[i]))
  }

  function ClaimRows(cs: seq<Claim>): (rows: seq<Row>)
    ensures |rows| == |cs|
    ensures forall k :: 0 <= k < |rows| ==> Fits(Claims, rows[k]) && rows[k].claim == cs[k]
  {
    seq(|cs|, i requires 0 <= i < |cs| => ClaimRow(cs[i]))
  }

  function ReversalRows(rs: seq<Reversal>): (rows: seq<Row>)
    ensures |rows| == |rs|
    ensures forall k :: 0 <= k < |rows| ==> Fits(Reversals, rows[k]) && rows[k].reversal == rs[k]
  {
    seq(|rs|, i requires 0 <= i < |rs| => ReversalRow(rs[i]))
  }

  /** A pharmacy batch that commits touches only the pharmacies table, and
      afterwards every NPI of the batch is present. */
  lemma PharmacyBatchEffect(t: Tables, ps: seq<Pharmacy>, f: BatchFaults)
    requires BatchInsertResult(t, PharmacyRows(ps), f).1.None?
    ensures var u := BatchInsertResult(t, PharmacyRows(ps), f).0;
      && u.claims == t.claims && u.reversals == t.reversals
      && t.pharmacies <= u.pharmacies
      && forall k :: 0 <= k < |ps| ==> HasNpi(u.pharmacies, ps[k].npi)
  {
    PharmacyRowsInserted(t, ps);
  }

  lemma PharmacyRowsInserted(t: Tables, ps: seq<Pharmacy>)
    ensures var u := InsertAll(t, PharmacyRows(ps));
      && u.claims == t.claims && u.reversals == t.reversals
      && t.pharmacies <= u.pharmacies
      && forall k :: 0 <= k < |ps| ==> HasNpi(u.pharmacies, ps[k].npi)
  {
    var rows := PharmacyRows(ps);
    var u := InsertAll(t, rows);
    InsertAllTouchesOnlyItsTable(t, Pharmacies, rows);
    InsertAllCoversRows(t, rows);
    forall k | 0 <= k < |ps| ensures HasNpi(u.pharmacies, ps[k].npi) {
      assert rows[k] == PharmacyRow(ps[k]);
      assert Conflicts(u, rows[k]);
    }
  }

  /** ON CONFLICT DO NOTHING: two rows with one NPI commit successfully and
      store a single pharmacy, the first. */
  lemma DuplicateNpiSkipped(chain1: string, chain2: string)
    ensures BatchInsertResult(EmptyTables, PharmacyRows([Pharmacy("1234567890", chain1), Pharmacy("1234567890", chain2)]), NoBatchFaults)
      == (EmptyTables.(pharmacies := [Pharmacy("1234567890", chain1)]), None)
  {
    var rows := PharmacyRows([Pharmacy("1234567890", chain1), Pharmacy("1234567890", chain2)]);
    assert rows == [PharmacyRow(Pharmacy("1234567890", chain1)), PharmacyRow(Pharmacy("1234567890", chain2))];
    assert rows[..1] == [rows[0]];
    assert rows[..1][..0] == [];
    assert InsertAll(EmptyTables, rows[..1][..0]) == EmptyTables;
    var one := InsertAll(EmptyTables, rows[..1]);
    assert one == EmptyTables.(pharmacies := [Pharmacy("1234567890", chain1)]);
    assert HasNpi(one.pharmacies, "1234567890") by { assert one.pharmacies[0].npi == "1234567890"; }
  }

  /** A failed Exec of any row rolls back the rows before it as well. */
  lemma ExecFailureRollsBack(t: Tables, rows: seq<Row>, f: BatchFaults, k: nat)
    requires k < |rows| && ExecFault(f, k).Some?
    ensures BatchInsertResult(t, rows, f).0 == t
    ensures BatchInsertResult(t, rows, f).1.Some?
  {
  }

  /** The repository: the handle of the store it works on. */
  class Postgres {
    const db: DB

    constructor (db: DB)
      ensures this.db == db
    {
      this.db := db;
    }

    /** GetPharmacyByNPI: no row is (nil, nil); a failed query is wrapped. */
    method GetPharmacyByNPI(npi: string, fault: Option<string>) returns (pharmacy: Option<Pharmacy>, err: Option<string>)
      ensures fault.Some? ==> pharmacy.None? && err == Some(Wrap("failed to get pharmacy by NPI", fault.value))
      ensures fault.None? ==> err.None? && pharmacy == FindPharmacy(db.tables.pharmacies, npi)
      ensures fault.None? ==> (pharmacy.None? <==> !HasNpi(db.tables.pharmacies, npi))
      ensures pharmacy.Some? ==> pharmacy.value in db.tables.pharmacies && pharmacy.value.npi == npi
    {
      if fault.Some? {
        return None, Some(Wrap("failed to get pharmacy by NPI", fault.value));
      }
      pharmacy := FindPharmacy(db.tables.pharmacies, npi);
      err := None;
    }

    /** GetClaimByID: no row is (nil, nil); a failed query is wrapped. */
    method GetClaimByID(id: Uuid, fault: Option<string>) returns (claim: Option<Claim>, err: Option<string>)
      ensures fault.Some? ==> claim.None? && err == Some(Wrap("failed to get claim by ID", fault.value))
      ensures fault.None? ==> err.None? && claim == FindClaim(db.tables.claims, id)
      ensures fault.None? ==> (claim.None? <==> !HasClaimId(db.tables.claims, id))
      ensures claim.Some? ==> claim.value in db.tables.claims && claim.value.id == id
    {
      if fault.Some? {
        return None, Some(Wrap("failed to get claim by ID", fault.value));
      }
      claim := FindClaim(db.tables.claims, id);
      err := None;
    }

    /** CreateClaim: a plain INSERT; a taken id or a refused statement is an
        error wrapped as "failed to create claim" and stores nothing. */
    method CreateClaim(claim: Claim, fault: Option<string>) returns (err: Option<string>)
      modifies db
      ensures err.None? <==> fault.None? && !HasClaimId(old(db.tables.claims), claim.id)
      ensures err.None? ==> db.tables == old(db.tables).(claims := old(db.tables.claims) + [claim])
      ensures err.Some? ==> db.tables == old(db.tables)
      ensures fault.Some? ==> err == Some(Wrap("failed to create claim", fault.value))
      ensures fault.None? && err.Some? ==> err == Some(Wrap("failed to create claim", DuplicateKey))
    {
      if fault.Some? {
        return Some(Wrap("failed to create claim", fault.value));
      }
      if HasClaimId(db.tables.claims, claim.id) {
        return Some(Wrap("failed to create claim", DuplicateKey));
      }
      db.tables := db.tables.(claims := db.tables.claims + [claim]);
      err := None;
    }

    /** ReverseClaim: the reversal transaction run through the transaction
        helper as written, so a failed commit is reported as success (see
        ReversalCommitFailureUnreported). `reason` is accepted and not
        stored. */
    method ReverseClaim(claimId: Uuid, reason: string, reversalId: Uuid, now: Time, f: ReversalFaults)
      returns (err: Option<string>)
      modifies db
      ensures var work := ReverseClaimWork(old(db.tables), claimId, reversalId, now, f);
        && err == TxReturn(f.begin, work.1)
        && db.tables == if TxCommits(f.begin, work.1, f.commit) then work.0 else old(db.tables)
    {
      err := db.ExecuteInTransaction(f.begin, t => ReverseClaimWork(t, claimId, reversalId, now, f), f.commit);
    }

    /** ReverseClaim as evidently intended: through the corrected helper, so
        nil is returned exactly when the reversal was stored. */
    method ReverseClaimChecked(claimId: Uuid, reason: string, reversalId: Uuid, now: Time, f: ReversalFaults)
      returns (err: Option<string>)
      modifies db
      ensures var work := ReverseClaimWork(old(db.tables), claimId, reversalId, now, f);
        && err == TxReturnChecked(f.begin, work.1, f.commit)
        && (err.None? <==> TxCommits(f.begin, work.1, f.commit))
        && db.tables == if err.None? then work.0 else old(db.tables)
    {
      err := db.ExecuteInTransactionChecked(f.begin, t => ReverseClaimWork(t, claimId, reversalId, now, f), f.commit);
    }

    /** batchInsert: Begin, Prepare, one Exec per row on the transaction's
        copy, then Commit, whose error is returned as it is. */
    method BatchInsert(table: TableName, rows: seq<Row>, f: BatchFaults) returns (err: Option<string>)
      requires forall k :: 0 <= k < |rows| ==> Fits(table, rows[k])
      modifies db
      ensures (db.tables, err) == BatchInsertResult(old(db.tables), rows, f)
    {
      if f.begin.Some? {
        return Some(BeginFailed(f.begin.value));
      }
      if f.prepare.Some? {
        return Some(Wrap("failed to prepare statement", f.prepare.value));
      }
      var staged := db.tables;
      var i := 0;
      while i < |rows|
        invariant 0 <= i <= |rows|
        invariant staged == InsertAll(db.tables, rows[..i])
        invariant forall j :: 0 <= j < i ==> ExecFault(f, j).None?
        invariant db.tables == old(db.tables)
      {
        var fault := ExecFault(f, i);
        if fault.Some? {
          return Some(Wrap("failed to execute insert", fault.value));
        }
        assert rows[..i + 1][..i] == rows[..i];
        staged := InsertOrSkip(staged, rows[i]);
        i := i + 1;
      }
      assert rows[..i] == rows;
      if f.commit.Some? {
        return f.commit;
      }
      db.tables := staged;
      err := None;
    }

    /** BatchCreatePharmacies: one row of (npi, chain) per pharmacy. */
    method BatchCreatePharmacies(pharmacies: seq<Pharmacy>, f: BatchFaults) returns (err: Option<string>)
      modifies db
      ensures (db.tables, err) == BatchInsertResult(old(db.tables), PharmacyRows(pharmacies), f)
    {
      var values: seq<Row> := [];
      for i := 0 to |pharmacies|
        invariant values == PharmacyRows(pharmacies[..i])
      {
        assert pharmacies[..i + 1][..i] == pharmacies[..i];
        values := values + [PharmacyRow(pharmacies[i])];
      }
      assert pharmacies[..|pharmacies|] == pharmacies;
      err := BatchInsert(Pharmacies, values, f);
    }

    /** BatchCreateClaims: one row per claim, all six columns. */
    method BatchCreateClaims(claims: seq<Claim>, f: BatchFaults) returns (err: Option<string>)
      modifies db
      ensures (db.tables, err) == BatchInsertResult(old(db.tables), ClaimRows(claims), f)
    {
      var values: seq<Row> := [];
      for i := 0 to |claims|
        invariant values == ClaimRows(claims[..i])
      {
        assert claims[..i + 1][..i] == claims[..i];
        values := values + [ClaimRow(claims[i])];
      }
      assert claims[..|claims|] == claims;
      err := BatchInsert(Claims, values, f);
    }

    /** BatchCreateReversals: one row of (id, claim_id, timestamp) per reversal. */
    method BatchCreateReversals(reversals: seq<Reversal>, f: BatchFaults) returns (err: Option<string>)
      modifies db
      ensures (db.tables, err) == BatchInsertResult(old(db.tables), ReversalRows(reversals), f)
    {
      var values: seq<Row> := [];
      for i := 0 to |reversals|
        invariant values == ReversalRows(reversals[..i])
      {
        assert reversals[..i + 1][..i] == reversals[..i];
        values := values + [ReversalRow(reversals[i])];
      }
      assert reversals[..|reversals|] == reversals;
      err := BatchInsert(Reversals, values, f);
    }

    /** countRows: `SELECT COUNT(*)`; a failure yields 0 and names the table. */
    method CountRows(table: TableName, fault: Option<string>) returns (count: int, err: Option<string>)
      ensures fault.None? ==> count == RowCount(db.tables, table) && err.None?
      ensures fault.Some? ==> count == 0 && err == Some(Wrap("failed to count rows in " + TableText(table), fault.value))
    {
      if fault.Some? {
        return 0, Some(Wrap("failed to count rows in " + TableText(table), fault.value));
      }
      count := RowCount(db.tables, table);
      err := None;
    }

    method CountPharmacies(fault: Option<string>) returns (count: int, err: Option<string>)
      ensures fault.None? ==> count == |db.tables.pharmacies| && err.None?
      ensures fault.Some? ==> count == 0 && err == Some(Wrap("failed to count rows in pharmacies", fault.value))
    {
      assert "failed to count rows in " + TableText(Pharmacies) == "failed to count rows in pharmacies";
      count, err := CountRows(Pharmacies, fault);
    }

    method CountClaims(fault: Option<string>) returns (count: int, err: Option<string>)
      ensures fault.None? ==> count == |db.tables.claims| && err.None?
      ensures fault.Some? ==> count == 0 && err == Some(Wrap("failed to count rows in claims", fault.value))
    {
      assert "failed to count rows in " + TableText(Claims) == "failed to count rows in claims";
      count, err := CountRows(Claims, fault);
    }

    method CountReversals(fault: Option<string>) returns (count: int, err: Option<string>)
      ensures fault.None? ==> count == |db.tables.reversals| && err.None?
      ensures fault.Some? ==> count == 0 && err == Some(Wrap("failed to count rows in reversals", fault.value))
    {
      assert "failed to count rows in " + TableText(Reversals) == "failed to count rows in reversals";
      count, err := CountRows(Reversals, fault);
    }
  }

  /** As written, the repository reports success for a reversal whose commit
      failed, and no reversal is stored. */
  lemma ReversalCommitFailureUnreported(t: Tables, claimId: Uuid, reversalId: Uuid, now: Time, commitFault: string)
    requires HasClaimId(t.claims, claimId) && !HasReversalFor(t.reversals, claimId) && !HasReversalId(t.reversals, reversalId)
    ensures var f := NoReversalFaults.(commit := Some(commitFault));
      var work := ReverseClaimWork(t, claimId, reversalId, now, f);
      TxReturn(f.begin, work.1) == None && !TxCommits(f.begin, work.1, f.commit)
  {
  }
}
