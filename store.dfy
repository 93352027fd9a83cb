/** The relational store as the repository sees it: three tables, the unique
    keys that `ON CONFLICT DO NOTHING` consults, and what inserting a row does. */
module Store {
  import opened Common
  import opened Models

  datatype Tables = Tables(pharmacies: seq<Pharmacy>, claims: seq<Claim>, reversals: seq<Reversal>)

  const EmptyTables: Tables := Tables([], [], [])

  datatype TableName = Pharmacies | Claims | Reversals

  /** The SQL name of each table. */
  function TableText(table: TableName): string {
    match table
    case Pharmacies => "pharmacies"
    case Claims => "claims"
    case Reversals => "reversals"
  }

  /** The number of rows in a table: what `SELECT COUNT(*)` reports. */
  function RowCount(t: Tables, table: TableName): nat {
    match table
    case Pharmacies => |t.pharmacies|
    case Claims => |t.claims|
    case Reversals => |t.reversals|
  }

  /** The column values of one inserted row. */
  datatype Row = PharmacyRow(pharmacy: Pharmacy) | ClaimRow(claim: Claim) | ReversalRow(reversal: Reversal)

  predicate Fits(table: TableName, row: Row) {
    match table
    case Pharmacies => row.PharmacyRow?
    case Claims => row.ClaimRow?
    case Reversals => row.ReversalRow?
  }

  predicate HasNpi(ps: seq<Pharmacy>, npi: string) {
    exists i :: 0 <= i < |ps| && ps[i].npi == npi
  }

  predicate HasClaimId(cs: seq<Claim>, id: Uuid) {
    exists i :: 0 <= i < |cs| && cs[i].id == id
  }

  predicate HasReversalId(rs: seq<Reversal>, id: Uuid) {
    exists i :: 0 <= i < |rs| && rs[i].id == id
  }

  /** Some reversal references the claim. */
  predicate HasReversalFor(rs: seq<Reversal>, claimId: Uuid) {
    exists i :: 0 <= i < |rs| && rs[i].claimId == claimId
  }

  /** The row collides with a unique key already present: the NPI of a
      pharmacy, the id of a claim, the id or the claim reference of a
      reversal. */
  predicate Conflicts(t: Tables, row: Row) {
    match row
    case PharmacyRow(p) => HasNpi(t.pharmacies, p.npi)
    case ClaimRow(c) => HasClaimId(t.claims, c.id)
    case ReversalRow(r) => HasReversalId(t.reversals, r.id) || HasReversalFor(t.reversals, r.claimId)
  }

  function Append(t: Tables, row: Row): Tables {
    match row
    case PharmacyRow(p) => t.(pharmacies := t.pharmacies + [p])
    case ClaimRow(c) => t.(claims := t.claims + [c])
    case ReversalRow(r) => t.(reversals := t.reversals + [r])
  }

  /** The number of rows over all three tables. */
  function Size(t: Tables): nat {
    |t.pharmacies| + |t.claims| + |t.reversals|
  }

  /** One `INSERT ... ON CONFLICT DO NOTHING`: a conflicting row is skipped
      silently, any other row is added. */
  function InsertOrSkip(t: Tables, row: Row): (r: Tables)
    ensures Conflicts(r, row)
  {
    if Conflicts(t, row) then t
    else
      match row
      case PharmacyRow(p) => assert Append(t, row).pharmacies[|t.pharmacies|] == p; Append(t, row)
      case ClaimRow(c) => assert Append(t, row).claims[|t.claims|] == c; Append(t, row)
      case ReversalRow(v) => assert Append(t, row).reversals[|t.reversals|] == v; Append(t, row)
  }

  /** The rows, executed in order against the same transaction: no row is
      lost, and each statement adds at most one row. */
  function InsertAll(t: Tables, rows: seq<Row>): Tables {
    if rows == [] then t else InsertOrSkip(InsertAll(t, rows[..|rows| - 1]), rows[|rows| - 1])
  }

  /** Every unique key holds: NPIs of pharmacies, ids of claims, ids of
      reversals and, the at-most-one-reversal rule, the claim references of
      reversals. */
  ghost predicate KeysUnique(t: Tables) {
    && (forall i, j :: 0 <= i < j < |t.pharmacies| ==> t.pharmacies[i].npi != t.pharmacies[j].npi)
    && (forall i, j :: 0 <= i < j < |t.claims| ==> t.claims[i].id != t.claims[j].id)
    && (forall i, j :: 0 <= i < j < |t.reversals| ==> t.reversals[i].id != t.reversals[j].id)
    && (forall i, j :: 0 <= i < j < |t.reversals| ==> t.reversals[i].claimId != t.reversals[j].claimId)
  }

  /** No table loses or changes a row: each old table is a prefix of the new. */
  ghost predicate Extends(t: Tables, u: Tables) {
    && t.pharmacies <= u.pharmacies
    && t.claims <= u.claims
    && t.reversals <= u.reversals
  }

  lemma InsertOrSkipKeepsKeysUnique(t: Tables, row: Row)
    requires KeysUnique(t)
    ensures KeysUnique(InsertOrSkip(t, row))
    ensures Extends(t, InsertOrSkip(t, row))
  {
    if !Conflicts(t, row) {
      var u := Append(t, row);
      match row
      case PharmacyRow(p) =>
        assert forall i :: 0 <= i < |t.pharmacies| ==> t.pharmacies[i].npi != p.npi;
        assert u.pharmacies[|t.pharmacies|] == p;
      case ClaimRow(c) =>
        assert forall i :: 0 <= i < |t.claims| ==> t.claims[i].id != c.id;
        assert u.claims[|t.claims|] == c;
      case ReversalRow(v) =>
        assert forall i :: 0 <= i < |t.reversals| ==> t.reversals[i].id != v.id;
        assert forall i :: 0 <= i < |t.reversals| ==> t.reversals[i].claimId != v.claimId;
        assert u.reversals[|t.reversals|] == v;
    }
  }

  /** A batch of inserts keeps every unique key, including at most one
      reversal per claim, and removes or alters nothing. */
  lemma {:induction false} InsertAllKeepsKeysUnique(t: Tables, rows: seq<Row>)
    requires KeysUnique(t)
    ensures KeysUnique(InsertAll(t, rows))
    ensures Extends(t, InsertAll(t, rows))
  {
    if rows != [] {
      var before := InsertAll(t, rows[..|rows| - 1]);
      InsertAllKeepsKeysUnique(t, rows[..|rows| - 1]);
      InsertOrSkipKeepsKeysUnique(before, rows[|rows| - 1]);
    }
  }

  /** One statement adds exactly one row, or none when the key is taken. */
  lemma InsertOrSkipExtends(t: Tables, row: Row)
    ensures Extends(t, InsertOrSkip(t, row))
    ensures Conflicts(t, row) ==> InsertOrSkip(t, row) == t
    ensures !Conflicts(t, row) ==> Size(InsertOrSkip(t, row)) == Size(t) + 1
  {
  }

  /** Once a key is present it stays present. */
  lemma ExtendsKeepsConflicts(t: Tables, u: Tables, row: Row)
    requires Extends(t, u) && Conflicts(t, row)
    ensures Conflicts(u, row)
  {
    match row
    case PharmacyRow(p) =>
      var i :| 0 <= i < |t.pharmacies| && t.pharmacies[i].npi == p.npi;
      assert u.pharmacies[i] == t.pharmacies[i];
    case ClaimRow(c) =>
      var i :| 0 <= i < |t.claims| && t.claims[i].id == c.id;
      assert u.claims[i] == t.claims[i];
    case ReversalRow(v) =>
      if HasReversalId(t.reversals, v.id) {
        var i :| 0 <= i < |t.reversals| && t.reversals[i].id == v.id;
        assert u.reversals[i] == t.reversals[i];
      } else {
        var i :| 0 <= i < |t.reversals| && t.reversals[i].claimId == v.claimId;
        assert u.reversals[i] == t.reversals[i];
      }
  }

  /** After a batch, the old rows are untouched and every row of the batch is
      either inserted or skipped because its key was already taken, by an
      existing row or an earlier row of the same batch. */
  lemma {:induction false} InsertAllCoversRows(t: Tables, rows: seq<Row>)
    ensures Extends(t, InsertAll(t, rows))
    ensures forall k :: 0 <= k < |rows| ==> Conflicts(InsertAll(t, rows), rows[k])
    ensures Size(t) <= Size(InsertAll(t, rows)) <= Size(t) + |rows|
  {
    if rows != [] {
      var init := rows[..|rows| - 1];
      var before := InsertAll(t, init);
      var after := InsertAll(t, rows);
      InsertAllCoversRows(t, init);
      InsertOrSkipExtends(before, rows[|rows| - 1]);
      forall k | 0 <= k < |rows| ensures Conflicts(after, rows[k]) {
        if k < |rows| - 1 {
          assert rows[k] == init[k];
          ExtendsKeepsConflicts(before, after, rows[k]);
        }
      }
    }
  }

  /** Rows of other tables leave a table alone, and a batch for one table
      changes only that table. */
  lemma {:induction false} InsertAllTouchesOnlyItsTable(t: Tables, table: TableName, rows: seq<Row>)
    requires forall k :: 0 <= k < |rows| ==> Fits(table, rows[k])
    ensures table != Pharmacies ==> InsertAll(t, rows).pharmacies == t.pharmacies
    ensures table != Claims ==> InsertAll(t, rows).claims == t.claims
    ensures table != Reversals ==> InsertAll(t, rows).reversals == t.reversals
  {
    if rows != [] {
      InsertAllTouchesOnlyItsTable(t, table, rows[..|rows| - 1]);
    }
  }

  /** An empty batch changes nothing. */
  lemma InsertNothing(t: Tables)
    ensures InsertAll(t, []) == t
  {
  }

  /** Running two batches in turn is running their concatenation. */
  lemma {:induction false} InsertAllConcat(t: Tables, a: seq<Row>, b: seq<Row>)
    ensures InsertAll(InsertAll(t, a), b) == InsertAll(t, a + b)
  {
    if b == [] {
      assert a + b == a;
    } else {
      InsertAllConcat(t, a, b[..|b| - 1]);
      assert (a + b)[..|a + b| - 1] == a + b[..|b| - 1];
      assert (a + b)[|a + b| - 1] == b[|b| - 1];
    }
  }
}
