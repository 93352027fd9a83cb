/** The start-up data loader (internal/service/loader.go): pharmacies from CSV
    files, claims and reversals from JSON files, inserted in batches through
    the repository, with one audit event per stored row.

    The loops thread a `LoadState` value: the store's tables, the audit
    trail, and the number of batch calls made so far, which selects the
    faults of the next batch from a caller-supplied plan. The service class
    at the end reads the state from the repository and the logger and writes
    it back. Files are values: a CSV file is the sequence of results its
    reader returns, a JSON file its contents, decoded by a caller-supplied
    decoder. */
module Loader {
  import opened Strings
  import opened Common
  import opened Models
  import opened Store
  import opened Repository
  import Validator

  const DefaultBatchSize: int := 1000
  const MaxBatchSize: int := 10000

  type BatchSize = n: int | 1 <= n <= MaxBatchSize witness DefaultBatchSize

  /** NewLoaderServiceWithBatchSize: an out-of-range size becomes the default. */
  function NormalizeBatchSize(requested: int): (size: BatchSize)
    ensures size == requested <==> 1 <= requested <= MaxBatchSize
    ensures !(1 <= requested <= MaxBatchSize) ==> size == DefaultBatchSize
  {
    if requested <= 0 || requested > MaxBatchSize then DefaultBatchSize else requested
  }

  // ---------------------------------------------------------------------
  // Batches and their processing

  function Flatten<T>(batches: seq<seq<T>>): seq<T> {
    if batches == [] then [] else Flatten(batches[..|batches| - 1]) + batches[|batches| - 1]
  }

  lemma FlattenAppend<T>(batches: seq<seq<T>>, b: seq<T>)
    ensures Flatten(batches + [b]) == Flatten(batches) + b
  {
    assert (batches + [b])[..|batches|] == batches;
  }

  /** Every batch but the last is full; none is empty or oversized. */
  ghost predicate Batched<T>(batches: seq<seq<T>>, size: int) {
    forall k :: 0 <= k < |batches| ==>
      1 <= |batches[k]| <= size && (k < |batches| - 1 ==> |batches[k]| == size)
  }

  ghost predicate AllFull<T>(batches: seq<seq<T>>, size: int) {
    forall k :: 0 <= k < |batches| ==> |batches[k]| == size
  }

  /** The audit event each stored row produces. */
  function LoadedEvent(row: Row): AuditEvent {
    match row
    case PharmacyRow(p) => AuditEvent("pharmacy_loaded", map["npi" := Text(p.npi), "chain" := Text(p.chain)])
    case ClaimRow(c) =>
      AuditEvent("claim_loaded", map["id" := Text(UuidString(c.id)), "ndc" := Text(c.ndc), "npi" := Text(c.npi),
                                     "quantity" := Number(c.quantity), "price" := Number(c.price)])
    case ReversalRow(r) =>
      AuditEvent("reversal_loaded", map["id" := Text(UuidString(r.id)), "claim_id" := Text(UuidString(r.claimId))])
  }

  function LoadedEvents(rows: seq<Row>): (events: seq<AuditEvent>)
    ensures |events| == |rows|
  {
    seq(|rows|, i requires 0 <= i < |rows| => LoadedEvent(rows[i]))
  }

  lemma LoadedEventsConcat(a: seq<Row>, b: seq<Row>)
    ensures LoadedEvents(a + b) == LoadedEvents(a) + LoadedEvents(b)
  {
    assert forall i :: 0 <= i < |a + b| ==> LoadedEvents(a + b)[i] == (LoadedEvents(a) + LoadedEvents(b))[i];
  }

  /** What the loaders thread through their loops. */
  datatype LoadState = LoadState(tables: Tables, events: seq<AuditEvent>, calls: nat)

  /** The faults of the batch call numbered k; calls past the plan succeed. */
  function FaultsAt(plan: seq<BatchFaults>, k: nat): BatchFaults {
    if k < |plan| then plan[k] else NoBatchFaults
  }

  /** A batch call with these faults succeeds. */
  predicate Clear(f: BatchFaults) {
    f.begin.None? && f.prepare.None? && f.commit.None? && forall j :: 0 <= j < |f.exec| ==> f.exec[j].None?
  }

  predicate AllClear(plan: seq<BatchFaults>) {
    forall k :: 0 <= k < |plan| ==> Clear(plan[k])
  }

  lemma AllClearAt(plan: seq<BatchFaults>, k: nat)
    requires AllClear(plan)
    ensures Clear(FaultsAt(plan, k))
  {
  }

  /** processPharmaciesBatch, processClaimsBatch and processReversalsBatch:
      one batch insert; when it succeeds one audit event per row, in order;
      when it fails the error names the table and nothing is logged. */
  function ProcessBatch(s: LoadState, table: TableName, batch: seq<Row>, plan: seq<BatchFaults>)
    : (r: (LoadState, Option<string>))
    ensures r.1.None? ==> r.0 == LoadState(InsertAll(s.tables, batch), s.events + LoadedEvents(batch), s.calls + 1)
    ensures r.1.Some? ==> r.0 == s.(calls := s.calls + 1) && !Clear(FaultsAt(plan, s.calls))
    ensures var b := BatchInsertResult(s.tables, batch, FaultsAt(plan, s.calls));
      b.1.Some? ==> r.1 == Some(Wrap("failed to batch create " + TableText(table), b.1.value))
  {
    var (t, e) := BatchInsertResult(s.tables, batch, FaultsAt(plan, s.calls));
    if e.Some? then (s.(calls := s.calls + 1), Some(Wrap("failed to batch create " + TableText(table), e.value)))
    else (LoadState(t, s.events + LoadedEvents(batch), s.calls + 1), None)
  }

  /** The state holds exactly `rows` stored on top of the initial state:
      each inserted in order, each with its audit event. */
  ghost predicate Holds(s0: LoadState, s: LoadState, rows: seq<Row>) {
    s.tables == InsertAll(s0.tables, rows) && s.events == s0.events + LoadedEvents(rows)
  }

  lemma HoldsNothing(s0: LoadState)
    ensures Holds(s0, s0, Flatten<Row>([]))
  {
    InsertNothing(s0.tables);
    assert LoadedEvents([]) == [];
  }

  /** Holding rows and then more rows on top is holding both in turn. */
  lemma HoldsConcat(s0: LoadState, s: LoadState, next: LoadState, rows: seq<Row>, more: seq<Row>)
    requires Holds(s0, s, rows) && Holds(s, next, more)
    ensures Holds(s0, next, rows + more)
  {
    InsertAllConcat(s0.tables, rows, more);
    LoadedEventsConcat(rows, more);
  }

  /** The state after the batches `stored` went through, each in one
      successful call. */
  ghost predicate StoredState(s0: LoadState, s: LoadState, stored: seq<seq<Row>>) {
    Holds(s0, s, Flatten(stored)) && s.calls == s0.calls + |stored|
  }

  /** One batch of a loader loop: on success the batch is stored after the
      rows already held; on failure nothing changes but the call count, and
      the faults of the call were not clear. */
  method StoreBatch(table: TableName, s0: LoadState, s: LoadState, ghost rows: seq<Row>,
                    batch: seq<Row>, plan: seq<BatchFaults>)
    returns (next: LoadState, err: Option<string>)
    requires Holds(s0, s, rows)
    ensures next.calls == s.calls + 1
    ensures err.None? ==> Holds(s0, next, rows + batch)
    ensures err.Some? ==> next.tables == s.tables && next.events == s.events && !Clear(FaultsAt(plan, s.calls))
    ensures err.Some? ==> "failed to batch create " + TableText(table) <= err.value
  {
    var processed := ProcessBatch(s, table, batch, plan);
    next, err := processed.0, processed.1;
    if err.Some? {
      var b := BatchInsertResult(s.tables, batch, FaultsAt(plan, s.calls));
      WrapPrefix("failed to batch create " + TableText(table), b.1.value);
    } else {
      InsertAllConcat(s0.tables, rows, batch);
      LoadedEventsConcat(rows, batch);
    }
  }

  // ---------------------------------------------------------------------
  // Pharmacies from CSV

  /** One result of the CSV reader's Read: a record, or an error carrying
      its text. The end of input is the end of the sequence. */
  datatype CsvRead = Record(fields: seq<string>) | ReadError(message: string)

  datatype CsvFile = OpenFailed(error: string) | Opened(results: seq<CsvRead>)

  /** The loop recognises the end of input by the text of the error. */
  predicate IsEof(r: CsvRead) {
    r.ReadError? && r.message == "EOF"
  }

  /** The results before the end of input. */
  function UpToEof(results: seq<CsvRead>): (rs: seq<CsvRead>)
    ensures rs <= results
    ensures forall j :: 0 <= j < |rs| ==> !IsEof(rs[j])
    ensures |rs| < |results| ==> IsEof(results[|rs|])
  {
    if results == [] || IsEof(results[0]) then [] else [results[0]] + UpToEof(results[1..])
  }

  lemma {:induction false} UpToEofAt(results: seq<CsvRead>, k: nat)
    requires k <= |results| && (k == |results| || IsEof(results[k]))
    requires forall j :: 0 <= j < k ==> !IsEof(results[j])
    ensures UpToEof(results) == results[..k]
  {
    if k > 0 {
      UpToEofAt(results[1..], k - 1);
      assert [results[0]] + results[1..][..k - 1] == results[..k];
    }
  }

  /** An NPI the validator accepts: ten characters, optionally signed digits. */
  predicate ValidNpi(npi: string) {
    |npi| == 10 && Validator.IsSignedDecimal(npi)
  }

  /** The pharmacy a read yields: a record of at least two fields, chain then
      NPI, both trimmed, whose NPI the validator accepts. */
  function RecordRow(r: CsvRead): (row: Option<Row>)
    ensures row.Some? ==> row.value.PharmacyRow? && ValidNpi(row.value.pharmacy.npi)
    ensures row.Some? <==> r.Record? && |r.fields| >= 2 && ValidNpi(TrimSpace(r.fields[1]))
  {
    if r.Record? && |r.fields| >= 2 && Validator.ValidateNPI(TrimSpace(r.fields[1])).None? then
      Some(PharmacyRow(Pharmacy(TrimSpace(r.fields[1]), TrimSpace(r.fields[0]))))
    else None
  }

  /** The rows the results yield, in order. */
  function AcceptedRows(results: seq<CsvRead>): (rows: seq<Row>)
    ensures |rows| <= |results|
  {
    if results == [] then []
    else
      match RecordRow(results[|results| - 1])
      case None => AcceptedRows(results[..|results| - 1])
      case Some(row) => AcceptedRows(results[..|results| - 1]) + [row]
  }

  /** Every row loaded from a file is a pharmacy whose NPI passes validation. */
  lemma {:induction false} AcceptedRowsValid(results: seq<CsvRead>)
    ensures forall k :: 0 <= k < |AcceptedRows(results)| ==>
      AcceptedRows(results)[k].PharmacyRow? && ValidNpi(AcceptedRows(results)[k].pharmacy.npi)
  {
    if results != [] {
      var init := results[..|results| - 1];
      AcceptedRowsValid(init);
      var rows := AcceptedRows(results);
      var last := RecordRow(results[|results| - 1]);
      forall k | 0 <= k < |rows| ensures rows[k].PharmacyRow? && ValidNpi(rows[k].pharmacy.npi) {
        if k < |AcceptedRows(init)| {
          assert rows[k] == AcceptedRows(init)[k];
        } else {
          assert rows[k] == last.value;
        }
      }
    }
  }

  /** The rows a CSV file contributes when it opens and its header is read:
      the accepted records after the header, up to the end of input. */
  function FileRows(file: CsvFile): (rows: Option<seq<Row>>)
    ensures rows.None? <==> file.OpenFailed? || |file.results| == 0 || file.results[0].ReadError?
  {
    if file.OpenFailed? || |file.results| == 0 || file.results[0].ReadError? then None
    else Some(AcceptedRows(UpToEof(file.results[1..])))
  }

  /** The rows of a readable file: fewer than its reads (the header yields
      none), each a pharmacy with a valid NPI. */
  lemma FileRowsValid(file: CsvFile)
    requires FileRows(file).Some?
    ensures |FileRows(file).value| < |file.results|
    ensures forall k :: 0 <= k < |FileRows(file).value| ==>
      FileRows(file).value[k].PharmacyRow? && ValidNpi(FileRows(file).value[k].pharmacy.npi)
  {
    AcceptedRowsValid(UpToEof(file.results[1..]));
  }

  /** loadPharmaciesFromCSV: open the file and read the header, then load
      the records (`LoadRecords`). */
  method LoadPharmaciesFromCsv(file: CsvFile, batchSize: BatchSize, s0: LoadState, plan: seq<BatchFaults>)
    returns (s: LoadState, loaded: nat, err: Option<string>, ghost stored: seq<seq<Row>>)
    ensures file.OpenFailed? ==> err == Some(Wrap("failed to open CSV file", file.error))
    ensures file.Opened? && |file.results| == 0 ==> err == Some(Wrap("failed to read header", "EOF"))
    ensures file.Opened? && |file.results| > 0 && file.results[0].ReadError? ==>
      err == Some(Wrap("failed to read header", file.results[0].message))
    ensures FileRows(file).None? ==> s == s0 && loaded == 0 && stored == [] && err.Some?
    ensures FileRows(file).Some? ==> Flatten(stored) <= FileRows(file).value
    ensures FileRows(file).Some? && err.None? ==> Flatten(stored) == FileRows(file).value
    ensures FileRows(file).Some? && err.Some? ==>
      && FailedCall(s0, s, |stored|, plan)
      && ("failed to process batch at line " <= err.value || "failed to process final batch: " <= err.value)
    ensures err.None? ==> s.calls == s0.calls + |stored|
    ensures Batched(stored, batchSize)
    ensures loaded == |Flatten(stored)|
    ensures Holds(s0, s, Flatten(stored))
  {
    s, loaded, stored := s0, 0, [];
    HoldsNothing(s0);
    if file.OpenFailed? {
      return s, loaded, Some(Wrap("failed to open CSV file", file.error)), stored;
    }
    var results := file.results;
    if |results| == 0 {
      return s, loaded, Some(Wrap("failed to read header", "EOF")), stored;
    }
    if results[0].ReadError? {
      return s, loaded, Some(Wrap("failed to read header", results[0].message)), stored;
    }
    ghost var end;
    s, loaded, err, stored, end := LoadRecords(results, batchSize, s0, plan);
    PrefixOfFileRows(results, end);
    if err.None? {
      EndOfInput(results, end);
    }
  }

  /** The rows `received` so far are split into the stored full batches and
      the pending one, and the state holds exactly the stored batches. */
  ghost predicate Pending(s0: LoadState, s: LoadState, loaded: nat, stored: seq<seq<Row>>, batch: seq<Row>,
                          received: seq<Row>, batchSize: int) {
    && Flatten(stored) + batch == received
    && |batch| < batchSize && AllFull(stored, batchSize)
    && loaded == |Flatten(stored)| && StoredState(s0, s, stored)
  }

  /** After `calls` successful batch calls, one more call was made and its
      faults were not clear. */
  ghost predicate FailedCall(s0: LoadState, s: LoadState, calls: nat, plan: seq<BatchFaults>) {
    s.calls == s0.calls + calls + 1 && !Clear(FaultsAt(plan, s.calls - 1))
  }

  /** Where the record loop stands before the read at index `i`: no end of
      input so far, and the rows accepted so far pending as above. */
  ghost predicate Reading(results: seq<CsvRead>, i: nat, batchSize: int, s0: LoadState, s: LoadState,
                          loaded: nat, stored: seq<seq<Row>>, batch: seq<Row>) {
    && 1 <= i <= |results|
    && (forall j :: 1 <= j < i ==> !IsEof(results[j]))
    && Pending(s0, s, loaded, stored, batch, AcceptedRows(results[1..i]), batchSize)
  }

  /** The record loop stopped at index `end` because a batch call failed:
      the batches stored before it stay stored, the failed call is counted,
      and its faults were not clear. */
  ghost predicate StoppedByBatch(results: seq<CsvRead>, end: nat, batchSize: int, s0: LoadState, s: LoadState,
                                 loaded: nat, stored: seq<seq<Row>>, plan: seq<BatchFaults>) {
    && 1 <= end <= |results|
    && (forall j :: 1 <= j < end ==> !IsEof(results[j]))
    && Flatten(stored) <= AcceptedRows(results[1..end])
    && AllFull(stored, batchSize) && loaded == |Flatten(stored)|
    && Holds(s0, s, Flatten(stored)) && FailedCall(s0, s, |stored|, plan)
  }

  /** A pharmacy joins the batch, and a batch that reaches the batch size is
      processed; a failed call is counted and changes nothing else. */
  method AddRow(row: Row, lineNumber: nat, batchSize: BatchSize, s0: LoadState, s: LoadState, loaded: nat,
                ghost stored: seq<seq<Row>>, batch: seq<Row>, ghost received: seq<Row>, plan: seq<BatchFaults>)
    returns (next: LoadState, nowLoaded: nat, ghost nowStored: seq<seq<Row>>, nowBatch: seq<Row>, err: Option<string>)
    requires Pending(s0, s, loaded, stored, batch, received, batchSize)
    ensures err.None? ==> Pending(s0, next, nowLoaded, nowStored, nowBatch, received + [row], batchSize)
    ensures err.Some? ==> next == s.(calls := s.calls + 1) && !Clear(FaultsAt(plan, s.calls))
    ensures err.Some? ==> "failed to process batch at line " <= err.value
  {
    next, nowLoaded, nowStored, nowBatch, err := s, loaded, stored, batch + [row], None;
    if |nowBatch| >= batchSize {
      var batchErr;
      next, batchErr := StoreBatch(Pharmacies, s0, s, Flatten(stored), nowBatch, plan);
      if batchErr.Some? {
        err := Some(Wrap("failed to process batch at line " + NatToString(lineNumber), batchErr.value));
        WrapPrefix("failed to process batch at line " + NatToString(lineNumber), batchErr.value);
        return;
      }
      FlattenAppend(stored, nowBatch);
      nowLoaded := loaded + |nowBatch|;
      nowStored := stored + [nowBatch];
      nowBatch := [];
    }
  }

  /** One pass of the record loop over a read that is not the end of input.
      A read error other than the end of input is logged and skipped, as is
      a short record or one whose NPI fails validation. */
  method TakeRecord(results: seq<CsvRead>, i: nat, batchSize: BatchSize, s0: LoadState, s: LoadState,
                    loaded: nat, ghost stored: seq<seq<Row>>, batch: seq<Row>, plan: seq<BatchFaults>)
    returns (next: LoadState, nowLoaded: nat, ghost nowStored: seq<seq<Row>>, nowBatch: seq<Row>, err: Option<string>)
    requires Reading(results, i, batchSize, s0, s, loaded, stored, batch) && i < |results| && !IsEof(results[i])
    ensures err.None? ==> Reading(results, i + 1, batchSize, s0, next, nowLoaded, nowStored, nowBatch)
    ensures err.Some? ==> StoppedByBatch(results, i + 1, batchSize, s0, next, loaded, stored, plan)
    ensures err.Some? ==> "failed to process batch at line " <= err.value
  {
    ghost var received := AcceptedRows(results[1..i]);
    next, nowLoaded, nowStored, nowBatch, err := s, loaded, stored, batch, None;
    var row := RecordRow(results[i]);
    if row.Some? {
      // The line number after the read is the index of the next read.
      next, nowLoaded, nowStored, nowBatch, err := AddRow(row.value, i + 1, batchSize, s0, s, loaded, stored, batch, received, plan);
      if err.Some? {
        ReadingStops(results, i, batchSize, s0, s, loaded, stored, batch, plan);
        return;
      }
    }
    ReadingGoesOn(results, i, batchSize, s0, next, nowLoaded, nowStored, nowBatch);
  }

  /** After a read that is not the end of input, the rows accepted so far
      have grown by the read's row, if it has one. */
  lemma ReadingGoesOn(results: seq<CsvRead>, i: nat, batchSize: int, s0: LoadState, s: LoadState,
                      loaded: nat, stored: seq<seq<Row>>, batch: seq<Row>)
    requires 1 <= i < |results| && !IsEof(results[i]) && forall j :: 1 <= j < i ==> !IsEof(results[j])
    requires var row := RecordRow(results[i]);
      Pending(s0, s, loaded, stored, batch,
              AcceptedRows(results[1..i]) + if row.Some? then [row.value] else [], batchSize)
    ensures Reading(results, i + 1, batchSize, s0, s, loaded, stored, batch)
  {
    assert forall j :: 1 <= j < i + 1 ==> !IsEof(results[j]);
    AcceptedStep(results, i);
  }

  /** A failed batch call at the read with index `i` stops the loop there. */
  lemma ReadingStops(results: seq<CsvRead>, i: nat, batchSize: int, s0: LoadState, s: LoadState,
                     loaded: nat, stored: seq<seq<Row>>, batch: seq<Row>, plan: seq<BatchFaults>)
    requires Reading(results, i, batchSize, s0, s, loaded, stored, batch) && i < |results| && !IsEof(results[i])
    requires !Clear(FaultsAt(plan, s.calls))
    ensures StoppedByBatch(results, i + 1, batchSize, s0, s.(calls := s.calls + 1), loaded, stored, plan)
  {
    assert forall j :: 1 <= j < i + 1 ==> !IsEof(results[j]);
    AcceptedStep(results, i);
  }

  /** The record loop of loadPharmaciesFromCSV, after the header (index 0):
      each read up to the end of input goes through `TakeRecord`, and a
      partial batch is processed at the end of input. A failed batch ends
      the loop. `end` is the index of the read the loop stopped at. */
  method LoadRecords(results: seq<CsvRead>, batchSize: BatchSize, s0: LoadState, plan: seq<BatchFaults>)
    returns (s: LoadState, loaded: nat, err: Option<string>, ghost stored: seq<seq<Row>>, ghost end: nat)
    requires |results| > 0
    ensures 1 <= end <= |results| && forall j :: 1 <= j < end ==> !IsEof(results[j])
    ensures err.None? ==> (end == |results| || IsEof(results[end])) && Flatten(stored) == AcceptedRows(results[1..end])
    ensures err.None? ==> StoredState(s0, s, stored)
    ensures err.Some? ==>
      && StoppedByBatch(results, end, batchSize, s0, s, loaded, stored, plan)
      && ("failed to process batch at line " <= err.value || "failed to process final batch: " <= err.value)
    ensures Batched(stored, batchSize)
    ensures loaded == |Flatten(stored)|
  {
    s, loaded, err, stored := s0, 0, None, [];
    var batch: seq<Row> := [];
    var i := 1;
    while i < |results| && !IsEof(results[i])
      invariant Reading(results, i, batchSize, s0, s, loaded, stored, batch)
      decreases |results| - i
    {
      var next, nowLoaded, nowStored, nowBatch, stepErr := TakeRecord(results, i, batchSize, s0, s, loaded, stored, batch, plan);
      if stepErr.Some? {
        AllFullBatched(stored, batchSize);
        return next, loaded, stepErr, stored, i + 1;
      }
      s, loaded, stored, batch, i := next, nowLoaded, nowStored, nowBatch, i + 1;
    }
    end := i;
    s, loaded, err, stored := FinishRecords(results, i, batchSize, s0, s, loaded, stored, batch, plan);
  }

  /** The end of input of the record loop: a pending partial batch is
      processed. */
  method FinishRecords(results: seq<CsvRead>, end: nat, batchSize: BatchSize, s0: LoadState, s: LoadState,
                       loaded: nat, ghost stored: seq<seq<Row>>, batch: seq<Row>, plan: seq<BatchFaults>)
    returns (next: LoadState, nowLoaded: nat, err: Option<string>, ghost nowStored: seq<seq<Row>>)
    requires Reading(results, end, batchSize, s0, s, loaded, stored, batch)
    requires end == |results| || IsEof(results[end])
    ensures err.None? ==> Flatten(nowStored) == AcceptedRows(results[1..end]) && StoredState(s0, next, nowStored)
    ensures err.Some? ==>
      && StoppedByBatch(results, end, batchSize, s0, next, nowLoaded, nowStored, plan)
      && "failed to process final batch: " <= err.value
    ensures Batched(nowStored, batchSize)
    ensures nowLoaded == |Flatten(nowStored)|
  {
    next, nowLoaded, err, nowStored := s, loaded, None, stored;
    if |batch| > 0 {
      var batchErr;
      next, batchErr := StoreBatch(Pharmacies, s0, s, Flatten(stored), batch, plan);
      if batchErr.Some? {
        AllFullBatched(stored, batchSize);
        err := Some(Wrap("failed to process final batch", batchErr.value));
        assert Wrap("failed to process final batch", batchErr.value)
          == "failed to process final batch: " + batchErr.value;
        return;
      }
      FlattenAppend(stored, batch);
      LastBatch(stored, batch, batchSize);
      nowLoaded := loaded + |batch|;
      nowStored := stored + [batch];
    } else {
      AllFullBatched(stored, batchSize);
    }
  }

  lemma AcceptedStep(results: seq<CsvRead>, i: nat)
    requires 1 <= i < |results|
    ensures AcceptedRows(results[1..i + 1])
      == AcceptedRows(results[1..i]) + if RecordRow(results[i]).Some? then [RecordRow(results[i]).value] else []
  {
    assert results[1..i + 1][..i - 1] == results[1..i];
  }

  lemma EndOfInput(results: seq<CsvRead>, i: nat)
    requires 1 <= i <= |results| && results[0].Record?
    requires forall j :: 1 <= j < i ==> !IsEof(results[j])
    requires i == |results| || IsEof(results[i])
    ensures FileRows(Opened(results)) == Some(AcceptedRows(results[1..i]))
  {
    var rest := results[1..];
    assert forall j :: 0 <= j < i - 1 ==> !IsEof(rest[j]) by {
      forall j | 0 <= j < i - 1 ensures !IsEof(rest[j]) { assert rest[j] == results[j + 1]; }
    }
    UpToEofAt(rest, i - 1);
    assert rest[..i - 1] == results[1..i];
  }

  lemma AllFullBatched<T>(batches: seq<seq<T>>, size: int)
    requires AllFull(batches, size) && size >= 1
    ensures Batched(batches, size)
  {
  }

  lemma LastBatch<T>(batches: seq<seq<T>>, last: seq<T>, size: int)
    requires AllFull(batches, size) && 1 <= |last| <= size
    ensures Batched(batches + [last], size)
  {
    assert forall k :: 0 <= k < |batches| ==> (batches + [last])[k] == batches[k];
  }

  lemma WrapPrefix(context: string, inner: string)
    ensures context <= Wrap(context, inner)
  {
    assert Wrap(context, inner) == context + (": " + inner);
  }

  /** The rows accepted before any point short of the end of input are a
      prefix of the file's rows. */
  lemma PrefixOfFileRows(results: seq<CsvRead>, i: nat)
    requires 1 <= i <= |results| && results[0].Record?
    requires forall j :: 1 <= j < i ==> !IsEof(results[j])
    ensures FileRows(Opened(results)).Some? && AcceptedRows(results[1..i]) <= FileRows(Opened(results)).value
  {
    var rest := results[1..];
    assert rest[..i - 1] == results[1..i];
    assert forall j :: 0 <= j < i - 1 ==> !IsEof(rest[j]) by {
      forall j | 0 <= j < i - 1 ensures !IsEof(rest[j]) { assert rest[j] == results[j + 1]; }
    }
    UpToEofKeeps(rest, i - 1);
    AcceptedRowsPrefix(UpToEof(rest), i - 1);
  }

  /** The reads before the first end of input are all kept. */
  lemma UpToEofKeeps(results: seq<CsvRead>, m: nat)
    requires m <= |results| && forall j :: 0 <= j < m ==> !IsEof(results[j])
    ensures m <= |UpToEof(results)| && UpToEof(results)[..m] == results[..m]
  {
    var u := UpToEof(results);
    if |u| < m {
      assert false;
    }
  }

  lemma {:induction false} AcceptedRowsPrefix(results: seq<CsvRead>, k: nat)
    requires k <= |results|
    ensures AcceptedRows(results[..k]) <= AcceptedRows(results)
  {
    if k < |results| {
      AcceptedRowsPrefix(results[..|results| - 1], k);
      assert results[..|results| - 1][..k] == results[..k];
    } else {
      assert results[..k] == results;
    }
  }

  // ---------------------------------------------------------------------
  // Files and directories

  /** Go's filepath.Join for a directory and one entry name. */
  function JoinPath(dir: string, name: string): (path: string)
    ensures EndsWith(path, name)
  {
    if dir == [] then name
    else if EndsWith(dir, "/") then dir + name
    else dir + "/" + name
  }

  /** The result of os.ReadFile. */
  datatype FileRead = ReadFailed(error: string) | Contents(text: string)

  /** What the loader can see of the file system: the entries of each
      existing directory, in the lexical order Glob lists them, and what
      opening a CSV file or reading a JSON file at a path gives. */
  datatype FileSystem = FileSystem(dirs: map<string, seq<string>>, csv: string -> CsvFile, json: string -> FileRead)

  /** The entries a pattern "*<suffix>" matches: `*` matches any name, so a
      name matches when it ends with the suffix. */
  function Matching(entries: seq<string>, suffix: string): (names: seq<string>)
    ensures |names| <= |entries|
    ensures forall i :: 0 <= i < |names| ==> EndsWith(names[i], suffix)
  {
    if entries == [] then []
    else if EndsWith(entries[|entries| - 1], suffix) then Matching(entries[..|entries| - 1], suffix) + [entries[|entries| - 1]]
    else Matching(entries[..|entries| - 1], suffix)
  }

  /** A name is listed exactly when it is an entry that ends with the suffix. */
  lemma {:induction false} MatchingMembers(entries: seq<string>, suffix: string)
    ensures forall n :: n in Matching(entries, suffix) <==> n in entries && EndsWith(n, suffix)
  {
    if entries != [] {
      var init := entries[..|entries| - 1];
      MatchingMembers(init, suffix);
      assert entries == init + [entries[|entries| - 1]];
    }
  }

  /** filepath.Glob(Join(dir, "*" + suffix)): the matching entries as paths;
      a directory that does not exist matches nothing. */
  function Glob(fs: FileSystem, dir: string, suffix: string): (paths: seq<string>)
    ensures dir !in fs.dirs ==> paths == []
  {
    if dir !in fs.dirs then []
    else
      var names := Matching(fs.dirs[dir], suffix);
      seq(|names|, i requires 0 <= i < |names| => JoinPath(dir, names[i]))
  }

  /** Glob lists one path per matching entry, each ending with the suffix. */
  lemma GlobPaths(fs: FileSystem, dir: string, suffix: string)
    requires dir in fs.dirs
    ensures |Glob(fs, dir, suffix)| == |Matching(fs.dirs[dir], suffix)|
    ensures forall i :: 0 <= i < |Glob(fs, dir, suffix)| ==> EndsWith(Glob(fs, dir, suffix)[i], suffix)
  {
    var names := Matching(fs.dirs[dir], suffix);
    MatchingMembers(fs.dirs[dir], suffix);
    forall i | 0 <= i < |names| ensures EndsWith(JoinPath(dir, names[i]), suffix) {
      assert names[i] in names;
      var path := JoinPath(dir, names[i]);
      assert path[|path| - |names[i]|..] == names[i];
      assert path[|path| - |suffix|..] == names[i][|names[i]| - |suffix|..];
    }
  }

  // ---------------------------------------------------------------------
  // Pharmacies from a directory of CSV files

  /** The rows a file contributes when it is opened and read to the end. */
  function FileContribution(file: CsvFile): seq<Row> {
    match FileRows(file)
    case None => []
    case Some(rows) => rows
  }

  /** The rows of every CSV file in turn. */
  function CsvRows(fs: FileSystem, files: seq<string>): seq<Row> {
    if files == [] then []
    else CsvRows(fs, files[..|files| - 1]) + FileContribution(fs.csv(files[|files| - 1]))
  }

  /** One pass of the loop of LoadPharmaciesFromData: a file that fails is
      logged and skipped, but what its earlier batches stored stays stored
      and is not counted. */
  method AddCsvFile(file: CsvFile, batchSize: BatchSize, s0: LoadState, s: LoadState, total: nat,
                    ghost done: seq<Row>, plan: seq<BatchFaults>)
    returns (next: LoadState, nowTotal: nat, ghost nowDone: seq<Row>)
    requires Holds(s0, s, done) && total <= |done|
    ensures Holds(s0, next, nowDone) && nowTotal <= |nowDone|
    ensures AllClear(plan) && total == |done| ==> nowDone == done + FileContribution(file) && nowTotal == |nowDone|
  {
    var loaded, err;
    ghost var stored;
    next, loaded, err, stored := LoadPharmaciesFromCsv(file, batchSize, s, plan);
    HoldsConcat(s0, s, next, done, Flatten(stored));
    if AllClear(plan) && FileRows(file).Some? && err.Some? {
      AllClearAt(plan, next.calls - 1);
    }
    nowDone := done + Flatten(stored);
    nowTotal := if err.None? then total + loaded else total;
  }

  /** The loop of LoadPharmaciesFromData over the globbed files. With no
      batch faults, every row of every file is stored and counted. */
  method LoadPharmacyFiles(fs: FileSystem, files: seq<string>, batchSize: BatchSize, s0: LoadState, plan: seq<BatchFaults>)
    returns (s: LoadState, total: nat, ghost done: seq<Row>)
    ensures Holds(s0, s, done)
    ensures total <= |done|
    ensures AllClear(plan) ==> done == CsvRows(fs, files) && total == |done|
  {
    s, total, done := s0, 0, [];
    for k := 0 to |files|
      invariant Holds(s0, s, done)
      invariant total <= |done|
      invariant AllClear(plan) ==> done == CsvRows(fs, files[..k]) && total == |done|
    {
      assert files[..k + 1][..k] == files[..k];
      s, total, done := AddCsvFile(fs.csv(files[k]), batchSize, s0, s, total, done, plan);
    }
    assert files[..|files|] == files;
  }

  // ---------------------------------------------------------------------
  // Claims and reversals from directories of JSON files

  /** What json.Unmarshal makes of a text: the decoded items as rows, or
      the decoder's error. The decoder is a parameter. */
  datatype Decoded = Decoded(rows: seq<Row>) | DecodeFailed(error: string)

  /** What loadJSONFromFile returns for one file. */
  datatype FileResult = Loaded(items: seq<Row>) | LoadFailed(error: string)

  /** The clean-up before decoding: one trailing "%" is removed, then the
      surrounding spaces. */
  function TrimJson(text: string): (r: string)
    ensures |r| <= |text| && (EndsWith(text, "%") ==> |r| < |text|)
    ensures r == [] || (!IsSpace(r[0]) && !IsSpace(r[|r| - 1]))
  {
    TrimSpaceSpec(TrimSuffix(text, "%"));
    TrimSpace(TrimSuffix(text, "%"))
  }

  /** A "%" that ends the text is dropped before the spaces are trimmed. */
  lemma TrimJsonDropsFinalPercent(body: string)
    ensures TrimJson(body + "%") == TrimSpace(body)
  {
    assert EndsWith(body + "%", "%");
    assert (body + "%")[..|body|] == body;
  }

  /** The "%" is kept when a newline follows it: trimming happens after the
      suffix test, so the decoder sees it. */
  lemma TrimJsonKeepsPercentBeforeNewline()
    ensures TrimJson("[]%\n") == "[]%"
  {
    assert !EndsWith("[]%\n", "%");
    assert TrimLeadingSpace("[]%\n") == "[]%\n";
    assert "[]%\n"[..3] == "[]%";
    assert TrimTrailingSpace("[]%") == "[]%";
  }

  /** loadJSONFromFile: read the file, clean it up and decode it. */
  function LoadJson(read: FileRead, decode: string -> Decoded): (r: FileResult)
    ensures read.ReadFailed? ==> r == LoadFailed(Wrap("failed to read file", read.error))
    ensures read.Contents? ==> (r.Loaded? <==> decode(TrimJson(read.text)).Decoded?)
    ensures r.Loaded? ==> read.Contents? && r.items == decode(TrimJson(read.text)).rows
  {
    match read
    case ReadFailed(e) => LoadFailed(Wrap("failed to read file", e))
    case Contents(text) =>
      match decode(TrimJson(text))
      case Decoded(rows) => Loaded(rows)
      case DecodeFailed(e) => LoadFailed(Wrap("failed to parse JSON", e))
  }

  /** The result of every file, in the order of the file list. */
  function FileResults(fs: FileSystem, files: seq<string>, decode: string -> Decoded): (results: seq<FileResult>)
    ensures |results| == |files|
  {
    seq(|files|, i requires 0 <= i < |files| => LoadJson(fs.json(files[i]), decode))
  }

  /** The items of a result: none for a file that failed. */
  function ItemsOf(result: FileResult): seq<Row> {
    if result.Loaded? then result.items else []
  }

  /** The items of the results that loaded, in turn. */
  function OkItems(results: seq<FileResult>): seq<Row> {
    if results == [] then [] else OkItems(results[..|results| - 1]) + ItemsOf(results[|results| - 1])
  }

  /** The decoder of loadJSONFromFile[T] yields items of one type only: rows
      of the one table T is stored in. */
  ghost predicate DecodesInto(decode: string -> Decoded, table: TableName) {
    forall text :: decode(text).Decoded? ==> forall x :: x in decode(text).rows ==> Fits(table, x)
  }

  /** Every row in `rows` belongs to `table`. */
  ghost predicate AllFit(table: TableName, rows: seq<Row>) {
    forall x :: x in rows ==> Fits(table, x)
  }

  /** With such a decoder, every item any file yields belongs to the table. */
  lemma {:induction false} FileItemsFit(fs: FileSystem, files: seq<string>, decode: string -> Decoded, table: TableName)
    requires DecodesInto(decode, table)
    ensures AllFit(table, OkItems(FileResults(fs, files, decode)))
  {
    var results := FileResults(fs, files, decode);
    forall i | 0 <= i < |results|
      ensures AllFit(table, ItemsOf(results[i]))
    {
      if results[i].Loaded? {
        assert results[i] == LoadJson(fs.json(files[i]), decode);
      }
    }
    OkItemsFit(results, table);
  }

  lemma {:induction false} OkItemsFit(results: seq<FileResult>, table: TableName)
    requires forall i :: 0 <= i < |results| ==> AllFit(table, ItemsOf(results[i]))
    ensures AllFit(table, OkItems(results))
  {
    if results != [] {
      OkItemsFit(results[..|results| - 1], table);
      assert AllFit(table, ItemsOf(results[|results| - 1]));
    }
  }

  /** Every item of the selected batches is an item of some batch. */
  lemma {:induction false} SelectedItemsAmong<T>(batches: seq<seq<T>>, keep: seq<bool>)
    requires |batches| == |keep|
    ensures forall x :: x in Flatten(Select(batches, keep)) ==> x in Flatten(batches)
  {
    if batches != [] {
      var init, last := batches[..|batches| - 1], batches[|batches| - 1];
      var chosen := Select(init, keep[..|keep| - 1]);
      SelectedItemsAmong(init, keep[..|keep| - 1]);
      assert batches == init + [last];
      FlattenAppend(init, last);
      if keep[|keep| - 1] {
        assert Select(batches, keep) == chosen + [last];
        FlattenAppend(chosen, last);
      } else {
        assert Select(batches, keep) == chosen;
      }
    }
  }

  /** What the consumer stored came from the files, so with a decoder of one
      table's rows only that table changed. */
  lemma LoadedOnlyIntoTable(fs: FileSystem, files: seq<string>, decode: string -> Decoded, table: TableName,
                            s0: LoadState, s: LoadState, handed: seq<seq<Row>>, kept: seq<bool>)
    requires DecodesInto(decode, table) && |handed| == |kept|
    requires multiset(Flatten(handed)) == multiset(OkItems(FileResults(fs, files, decode)))
    requires Holds(s0, s, Flatten(Select(handed, kept)))
    ensures OnlyTableChanged(table, s0.tables, s.tables)
  {
    FileItemsFit(fs, files, decode, table);
    forall x | x in Flatten(handed) ensures Fits(table, x) {
      assert x in multiset(Flatten(handed));
    }
    OnlyItsTableStored(table, s0.tables, handed, kept);
  }

  /** Storing batches of one table's rows leaves the other tables alone. */
  lemma OnlyItsTableStored(table: TableName, t0: Tables, handed: seq<seq<Row>>, kept: seq<bool>)
    requires |handed| == |kept| && AllFit(table, Flatten(handed))
    ensures OnlyTableChanged(table, t0, InsertAll(t0, Flatten(Select(handed, kept))))
  {
    SelectedItemsAmong(handed, kept);
    var rows := Flatten(Select(handed, kept));
    assert forall k :: 0 <= k < |rows| ==> Fits(table, rows[k]) by {
      forall k | 0 <= k < |rows| ensures Fits(table, rows[k]) {
        assert rows[k] in rows;
      }
    }
    InsertAllTouchesOnlyItsTable(t0, table, rows);
  }

  lemma {:induction false} OkItemsConcat(a: seq<FileResult>, b: seq<FileResult>)
    ensures OkItems(a + b) == OkItems(a) + OkItems(b)
  {
    if b == [] {
      assert a + b == a;
    } else {
      var init := b[..|b| - 1];
      var ab := a + b;
      assert ab[..|ab| - 1] == a + init;
      assert ab[|ab| - 1] == b[|b| - 1];
      assert OkItems(ab) == OkItems(a + init) + ItemsOf(b[|b| - 1]);
      OkItemsConcat(a, init);
      assert OkItems(b) == OkItems(init) + ItemsOf(b[|b| - 1]);
    }
  }

  lemma OkItemsSingle(x: FileResult)
    ensures OkItems([x]) == ItemsOf(x)
  {
    assert [x][..0] == [];
  }

  /** The items of the results around one of them. */
  lemma OkItemsAround(front: seq<FileResult>, x: FileResult, back: seq<FileResult>)
    ensures OkItems(front + [x] + back) == OkItems(front) + ItemsOf(x) + OkItems(back)
  {
    OkItemsConcat(front + [x], back);
    OkItemsConcat(front, [x]);
    OkItemsSingle(x);
  }

  lemma SplitAt<T>(b: seq<T>, k: nat)
    requires k < |b|
    ensures b == b[..k] + [b[k]] + b[k + 1..]
  {
  }

  /** Removing the same element from two sequences with the same multiset
      leaves sequences with the same multiset. */
  lemma RemoveSame<T>(a: seq<T>, b: seq<T>, k: nat)
    requires multiset(a) == multiset(b) && a != [] && k < |b| && b[k] == a[|a| - 1]
    ensures multiset(a[..|a| - 1]) == multiset(b[..k] + b[k + 1..])
  {
    var x := a[|a| - 1];
    var init, front, back := a[..|a| - 1], b[..k], b[k + 1..];
    assert a == init + [x];
    assert multiset(a) == multiset(init) + multiset{x};
    SplitAt(b, k);
    assert multiset(b) == multiset(front) + multiset{x} + multiset(back);
    assert multiset(front + back) == multiset(front) + multiset(back);
    var m, n := multiset(init), multiset(front + back);
    assert m + multiset{x} == n + multiset{x};
    forall y ensures m[y] == n[y] {
      assert (m + multiset{x})[y] == (n + multiset{x})[y];
    }
  }

  /** Results taken in any order carry the same items, counted with their
      multiplicity: the order in which the workers finish changes the order
      of the rows, never which rows there are. */
  lemma {:induction false} OkItemsPermutation(a: seq<FileResult>, b: seq<FileResult>)
    requires multiset(a) == multiset(b)
    ensures multiset(OkItems(a)) == multiset(OkItems(b))
  {
    if a == [] {
      assert |b| == |multiset(b)| == 0;
    } else {
      var x := a[|a| - 1];
      assert x in multiset(b);
      var k :| 0 <= k < |b| && b[k] == x;
      var init, front, back := a[..|a| - 1], b[..k], b[k + 1..];
      RemoveSame(a, b, k);
      OkItemsPermutation(init, front + back);
      assert OkItems(a) == OkItems(init) + ItemsOf(x);
      SplitAt(b, k);
      OkItemsAround(front, x, back);
      OkItemsConcat(front, back);
      var i, f, r, t := OkItems(init), OkItems(front), OkItems(back), ItemsOf(x);
      assert multiset(OkItems(a)) == multiset(i) + multiset(t);
      assert multiset(OkItems(b)) == multiset(f) + multiset(t) + multiset(r);
      assert multiset(i) == multiset(f + r) == multiset(f) + multiset(r);
    }
  }

  /** The elements of `xs` whose flag in `keep` is set, in order. */
  function Select<T>(xs: seq<T>, keep: seq<bool>): seq<T>
    requires |xs| == |keep|
  {
    if xs == [] then []
    else Select(xs[..|xs| - 1], keep[..|keep| - 1]) + if keep[|keep| - 1] then [xs[|xs| - 1]] else []
  }

  lemma SelectAppend<T>(xs: seq<T>, keep: seq<bool>, x: T, b: bool)
    requires |xs| == |keep|
    ensures Select(xs + [x], keep + [b]) == Select(xs, keep) + if b then [x] else []
  {
    assert (xs + [x])[..|xs|] == xs;
    assert (keep + [b])[..|keep|] == keep;
  }

  /** With every flag set nothing is dropped. */
  lemma {:induction false} SelectAll<T>(xs: seq<T>, keep: seq<bool>)
    requires |xs| == |keep| && forall k :: 0 <= k < |keep| ==> keep[k]
    ensures Select(xs, keep) == xs
  {
    if xs != [] {
      SelectAll(xs[..|xs| - 1], keep[..|keep| - 1]);
    }
  }

  /** Where the consumer of loadDataFromFiles stands: the batches handed to
      the processor so far, all full, and the pending batch make up the
      items received; `kept` flags the batches the processor stored, and
      the state holds exactly those; a call whose faults were clear was
      stored. */
  ghost predicate Handing(s0: LoadState, s: LoadState, total: nat, handed: seq<seq<Row>>, kept: seq<bool>, batch: seq<Row>,
                          received: seq<Row>, batchSize: int, plan: seq<BatchFaults>) {
    && |kept| == |handed| && AllFull(handed, batchSize) && |batch| < batchSize
    && Flatten(handed) + batch == received
    && s.calls == s0.calls + |handed|
    && (forall k :: 0 <= k < |handed| && Clear(FaultsAt(plan, s0.calls + k)) ==> kept[k])
    && Holds(s0, s, Flatten(Select(handed, kept))) && total == |Flatten(Select(handed, kept))|
  }

  /** A batch goes to the processor of loadDataFromFiles; `kept` records
      whether it was stored. */
  method HandBatch(table: TableName, s0: LoadState, plan: seq<BatchFaults>, s: LoadState, total: nat,
                   ghost handed: seq<seq<Row>>, ghost kept: seq<bool>, batch: seq<Row>)
    returns (next: LoadState, nowTotal: nat, ghost nowKept: seq<bool>)
    requires |kept| == |handed| && Holds(s0, s, Flatten(Select(handed, kept))) && total == |Flatten(Select(handed, kept))|
    ensures |nowKept| == |handed| + 1 && nowKept[..|kept|] == kept
    ensures Clear(FaultsAt(plan, s.calls)) ==> nowKept[|kept|]
    ensures next.calls == s.calls + 1
    ensures Flatten(handed + [batch]) == Flatten(handed) + batch
    ensures Holds(s0, next, Flatten(Select(handed + [batch], nowKept)))
    ensures nowTotal == |Flatten(Select(handed + [batch], nowKept))|
  {
    var err;
    next, err := StoreBatch(table, s0, s, Flatten(Select(handed, kept)), batch, plan);
    nowKept := kept + [err.None?];
    assert nowKept[..|kept|] == kept;
    FlattenAppend(handed, batch);
    SelectAppend(handed, kept, batch, err.None?);
    if err.None? {
      FlattenAppend(Select(handed, kept), batch);
      nowTotal := total + |batch|;
    } else {
      assert Select(handed + [batch], nowKept) == Select(handed, kept);
      nowTotal := total;
    }
  }

  /** One item received: it joins the batch, and a batch that reaches the
      batch size goes to the processor; a failure is logged, and either way
      the batch starts again empty. */
  method HandItem(table: TableName, item: Row, batchSize: BatchSize, s0: LoadState, plan: seq<BatchFaults>,
                  s: LoadState, total: nat, ghost handed: seq<seq<Row>>, ghost kept: seq<bool>, batch: seq<Row>, ghost received: seq<Row>)
    returns (next: LoadState, nowTotal: nat, ghost nowHanded: seq<seq<Row>>, ghost nowKept: seq<bool>, nowBatch: seq<Row>)
    requires Handing(s0, s, total, handed, kept, batch, received, batchSize, plan)
    ensures Handing(s0, next, nowTotal, nowHanded, nowKept, nowBatch, received + [item], batchSize, plan)
  {
    next, nowTotal, nowHanded, nowKept, nowBatch := s, total, handed, kept, batch + [item];
    if |nowBatch| >= batchSize {
      next, nowTotal, nowKept := HandBatch(table, s0, plan, s, total, handed, kept, nowBatch);
      nowHanded, nowBatch := handed + [nowBatch], [];
      assert forall k :: 0 <= k < |handed| ==> nowKept[k] == kept[k];
    }
  }

  /** The items of one loaded file, one after the other. */
  method HandItems(table: TableName, items: seq<Row>, batchSize: BatchSize, s0: LoadState, plan: seq<BatchFaults>,
                   s: LoadState, total: nat, ghost handed: seq<seq<Row>>, ghost kept: seq<bool>, batch: seq<Row>, ghost received: seq<Row>)
    returns (next: LoadState, nowTotal: nat, ghost nowHanded: seq<seq<Row>>, ghost nowKept: seq<bool>, nowBatch: seq<Row>)
    requires Handing(s0, s, total, handed, kept, batch, received, batchSize, plan)
    ensures Handing(s0, next, nowTotal, nowHanded, nowKept, nowBatch, received + items, batchSize, plan)
  {
    next, nowTotal, nowHanded, nowKept, nowBatch := s, total, handed, kept, batch;
    for j := 0 to |items|
      invariant Handing(s0, next, nowTotal, nowHanded, nowKept, nowBatch, received + items[..j], batchSize, plan)
    {
      assert received + items[..j + 1] == received + items[..j] + [items[j]];
      next, nowTotal, nowHanded, nowKept, nowBatch :=
        HandItem(table, items[j], batchSize, s0, plan, next, nowTotal, nowHanded, nowKept, nowBatch, received + items[..j]);
    }
    assert items[..|items|] == items;
  }

  /** The consumer of loadDataFromFiles: one result per file, in the order
      the workers deliver them; a failed file is counted and skipped. */
  method HandResults(table: TableName, arrivals: seq<FileResult>, batchSize: BatchSize, s0: LoadState, plan: seq<BatchFaults>)
    returns (s: LoadState, total: nat, ghost handed: seq<seq<Row>>, ghost kept: seq<bool>, batch: seq<Row>)
    ensures Handing(s0, s, total, handed, kept, batch, OkItems(arrivals), batchSize, plan)
  {
    s, total, handed, kept, batch := s0, 0, [], [], [];
    HoldsNothing(s0);
    for a := 0 to |arrivals|
      invariant Handing(s0, s, total, handed, kept, batch, OkItems(arrivals[..a]), batchSize, plan)
    {
      assert arrivals[..a + 1][..a] == arrivals[..a];
      if arrivals[a].Loaded? {
        s, total, handed, kept, batch :=
          HandItems(table, arrivals[a].items, batchSize, s0, plan, s, total, handed, kept, batch, OkItems(arrivals[..a]));
      }
    }
    assert arrivals[..|arrivals|] == arrivals;
  }

  /** Once every file has arrived: every batch handed over, the last one
      possibly partial; the state holds exactly the batches stored. */
  ghost predicate Consumed(s0: LoadState, s: LoadState, total: nat, handed: seq<seq<Row>>, kept: seq<bool>,
                           received: seq<Row>, batchSize: int, plan: seq<BatchFaults>) {
    && |kept| == |handed| && Batched(handed, batchSize)
    && Flatten(handed) == received
    && s.calls == s0.calls + |handed|
    && (forall k :: 0 <= k < |handed| && Clear(FaultsAt(plan, s0.calls + k)) ==> kept[k])
    && Holds(s0, s, Flatten(Select(handed, kept))) && total == |Flatten(Select(handed, kept))|
  }

  /** The final batch of loadDataFromFiles: a pending partial batch goes to
      the processor, and a failure is only logged. */
  method FinishHanding(table: TableName, batchSize: BatchSize, s0: LoadState, plan: seq<BatchFaults>,
                       s: LoadState, total: nat, ghost handed: seq<seq<Row>>, ghost kept: seq<bool>, batch: seq<Row>, ghost received: seq<Row>)
    returns (next: LoadState, nowTotal: nat, ghost nowHanded: seq<seq<Row>>, ghost nowKept: seq<bool>)
    requires Handing(s0, s, total, handed, kept, batch, received, batchSize, plan)
    ensures Consumed(s0, next, nowTotal, nowHanded, nowKept, received, batchSize, plan)
  {
    next, nowTotal, nowHanded, nowKept := s, total, handed, kept;
    if |batch| > 0 {
      next, nowTotal, nowKept := HandBatch(table, s0, plan, s, total, handed, kept, batch);
      LastBatch(handed, batch, batchSize);
      nowHanded := handed + [batch];
      assert forall k :: 0 <= k < |handed| ==> nowKept[k] == kept[k];
    } else {
      AllFullBatched(handed, batchSize);
    }
  }

  /** With no batch faults every batch handed over is stored. */
  lemma ClearPlanKeepsAll(s0: LoadState, s: LoadState, total: nat, handed: seq<seq<Row>>, kept: seq<bool>,
                          received: seq<Row>, batchSize: int, plan: seq<BatchFaults>)
    requires Consumed(s0, s, total, handed, kept, received, batchSize, plan) && AllClear(plan)
    ensures Select(handed, kept) == handed
  {
    forall k | 0 <= k < |kept| ensures kept[k] {
      AllClearAt(plan, s0.calls + k);
    }
    SelectAll(handed, kept);
  }

  /** The consumer of loadDataFromFiles from the first arrival to the
      final batch. Whatever the order of arrival, the items handed to the
      processor are those of the files that loaded, each once. */
  method Consume(table: TableName, arrivals: seq<FileResult>, ghost results: seq<FileResult>, batchSize: BatchSize,
                 s0: LoadState, plan: seq<BatchFaults>)
    returns (s: LoadState, total: nat, ghost handed: seq<seq<Row>>, ghost kept: seq<bool>)
    requires multiset(arrivals) == multiset(results)
    ensures Consumed(s0, s, total, handed, kept, OkItems(arrivals), batchSize, plan)
    ensures multiset(Flatten(handed)) == multiset(OkItems(results))
    ensures AllClear(plan) ==> Select(handed, kept) == handed
  {
    var batch;
    s, total, handed, kept, batch := HandResults(table, arrivals, batchSize, s0, plan);
    s, total, handed, kept := FinishHanding(table, batchSize, s0, plan, s, total, handed, kept, batch, OkItems(arrivals));
    OkItemsPermutation(arrivals, results);
    if AllClear(plan) {
      ClearPlanKeepsAll(s0, s, total, handed, kept, OkItems(arrivals), batchSize, plan);
    }
  }

  // ---------------------------------------------------------------------
  // The service

  /** Of the three tables, only `table` may differ between `t0` and `t`. */
  ghost predicate OnlyTableChanged(table: TableName, t0: Tables, t: Tables) {
    && (table != Pharmacies ==> t.pharmacies == t0.pharmacies)
    && (table != Claims ==> t.claims == t0.claims)
    && (table != Reversals ==> t.reversals == t0.reversals)
  }

  /** What loadDataFromFiles promises, from the tables `t0` and events `e0`
      before to `t` and `e` after: a table that already has rows, or a
      directory that cannot be listed, changes nothing; otherwise every item
      of every file that loaded is handed to the batch processor exactly
      once, in batches of the configured size, and the store holds exactly
      the batches that went through. */
  ghost predicate DataLoaded(table: TableName, dataTypeName: string, results: seq<FileResult>,
                             countFault: Option<string>, globFault: Option<string>, batchSize: BatchSize,
                             plan: seq<BatchFaults>, t0: Tables, e0: seq<AuditEvent>, t: Tables, e: seq<AuditEvent>,
                             err: Option<string>, total: nat, handed: seq<seq<Row>>, kept: seq<bool>) {
    var skipped := AlreadyLoaded(countFault, RowCount(t0, table));
    && (err.Some? <==> !skipped && globFault.Some?)
    && (err.Some? ==> err == Some(Wrap("failed to read " + dataTypeName + " directory", globFault.value)))
    && (skipped || err.Some? ==> handed == [] && t == t0 && e == e0)
    && Consumed(LoadState(t0, e0, 0), LoadState(t, e, |handed|), total, handed, kept, Flatten(handed), batchSize, plan)
    && (!skipped && err.None? ==> multiset(Flatten(handed)) == multiset(OkItems(results)))
    && (AllClear(plan) ==> Select(handed, kept) == handed)
    && OnlyTableChanged(table, t0, t)
  }

  /** The count check that starts each load: a table that already has rows
      is not loaded again; a failed count is only logged. */
  predicate AlreadyLoaded(countFault: Option<string>, count: int) {
    countFault.None? && count > 0
  }

  const NoPharmaciesLoaded: string := "no pharmacies loaded from data directory"

  class LoaderService {
    const repo: Postgres
    const logger: Logger
    const batchSize: BatchSize

    /** NewLoaderService: the default batch size. */
    constructor (repo: Postgres, logger: Logger)
      ensures this.repo == repo && this.logger == logger && batchSize == DefaultBatchSize
    {
      this.repo := repo;
      this.logger := logger;
      batchSize := DefaultBatchSize;
    }

    /** NewLoaderServiceWithBatchSize: an out-of-range size is replaced by
        the default. */
    constructor WithBatchSize(repo: Postgres, logger: Logger, requested: int)
      ensures this.repo == repo && this.logger == logger && batchSize == NormalizeBatchSize(requested)
    {
      this.repo := repo;
      this.logger := logger;
      batchSize := NormalizeBatchSize(requested);
    }

    /** LoadPharmaciesFromData: load every CSV file of the "pharmacies"
        directory, unless pharmacies are already present. A file that fails
        does not stop the load; the load fails when no file loaded a row. */
    method LoadPharmaciesFromData(fs: FileSystem, dataDir: string, countFault: Option<string>,
                                  globFault: Option<string>, plan: seq<BatchFaults>)
      returns (err: Option<string>, ghost done: seq<Row>)
      modifies repo.db, logger
      ensures var dir := JoinPath(dataDir, "pharmacies");
        && (AlreadyLoaded(countFault, |old(repo.db.tables).pharmacies|) ==> err.None? && done == [])
        && (!AlreadyLoaded(countFault, |old(repo.db.tables).pharmacies|) && dir !in fs.dirs ==>
              err == Some("pharmacies directory not found: " + dir) && done == [])
        && (!AlreadyLoaded(countFault, |old(repo.db.tables).pharmacies|) && dir in fs.dirs && globFault.Some? ==>
              err == Some(Wrap("failed to glob pharmacy files", globFault.value)) && done == [])
        && (!AlreadyLoaded(countFault, |old(repo.db.tables).pharmacies|) && dir in fs.dirs && globFault.None?
            && Glob(fs, dir, ".csv") == [] ==>
              err == Some("no pharmacy CSV files found in " + dir) && done == [])
        && (!AlreadyLoaded(countFault, |old(repo.db.tables).pharmacies|) && dir in fs.dirs && globFault.None?
            && AllClear(plan) ==>
              done == CsvRows(fs, Glob(fs, dir, ".csv")) && (err.None? <==> done != []))
      ensures err.Some? && done != [] ==> err == Some(NoPharmaciesLoaded)
      ensures repo.db.tables == InsertAll(old(repo.db.tables), done)
      ensures logger.events == old(logger.events) + LoadedEvents(done)
    {
      var s0 := LoadState(repo.db.tables, logger.events, 0);
      HoldsNothing(s0);
      done := [];
      var count, countErr := repo.CountPharmacies(countFault);
      if countErr.None? && count > 0 {
        return None, done;
      }
      var dir := JoinPath(dataDir, "pharmacies");
      if dir !in fs.dirs {
        return Some("pharmacies directory not found: " + dir), done;
      }
      if globFault.Some? {
        return Some(Wrap("failed to glob pharmacy files", globFault.value)), done;
      }
      var files := Glob(fs, dir, ".csv");
      if |files| == 0 {
        return Some("no pharmacy CSV files found in " + dir), done;
      }
      var s, total;
      s, total, done := LoadPharmacyFiles(fs, files, batchSize, s0, plan);
      repo.db.tables, logger.events := s.tables, s.events;
      if total == 0 {
        return Some(NoPharmaciesLoaded), done;
      }
      err := None;
    }

    /** loadDataFromFiles: unless the table already has rows, the files of
        the directory matching "*.json" are loaded by a pool of workers and
        their items go to the batch processor in the order the results
        arrive. `arrivals` is that order: the files' results, permuted.
        Failed files and failed batches are only logged. */
    method LoadDataFromFiles(table: TableName, subDir: string, dataTypeName: string, fs: FileSystem, dataDir: string,
                             countFault: Option<string>, globFault: Option<string>, decode: string -> Decoded,
                             arrivals: seq<FileResult>, plan: seq<BatchFaults>)
      returns (err: Option<string>, ghost total: nat, ghost handed: seq<seq<Row>>, ghost kept: seq<bool>)
      requires multiset(arrivals) == multiset(FileResults(fs, Glob(fs, JoinPath(dataDir, subDir), ".json"), decode))
      requires DecodesInto(decode, table)
      modifies repo.db, logger
      ensures DataLoaded(table, dataTypeName, FileResults(fs, Glob(fs, JoinPath(dataDir, subDir), ".json"), decode),
                         countFault, globFault, batchSize, plan, old(repo.db.tables), old(logger.events),
                         repo.db.tables, logger.events, err, total, handed, kept)
    {
      var s0 := LoadState(repo.db.tables, logger.events, 0);
      HoldsNothing(s0);
      total, handed, kept := 0, [], [];
      var count, countErr := repo.CountRows(table, countFault);
      if countErr.None? && count > 0 {
        return None, total, handed, kept;
      }
      var targetDir := JoinPath(dataDir, subDir);
      if globFault.Some? {
        return Some(Wrap("failed to read " + dataTypeName + " directory", globFault.value)), total, handed, kept;
      }
      var files := Glob(fs, targetDir, ".json");
      if |files| == 0 {
        return None, total, handed, kept;
      }
      var s, totalItems;
      s, totalItems, handed, kept := Consume(table, arrivals, FileResults(fs, files, decode), batchSize, s0, plan);
      LoadedOnlyIntoTable(fs, files, decode, table, s0, s, handed, kept);
      total := totalItems;
      repo.db.tables, logger.events := s.tables, s.events;
      err := None;
    }

    /** LoadClaimsFromData: the "claims" directory. */
    method LoadClaimsFromData(fs: FileSystem, dataDir: string, countFault: Option<string>, globFault: Option<string>,
                              decode: string -> Decoded, arrivals: seq<FileResult>, plan: seq<BatchFaults>)
      returns (err: Option<string>, ghost total: nat, ghost handed: seq<seq<Row>>, ghost kept: seq<bool>)
      requires multiset(arrivals) == multiset(FileResults(fs, Glob(fs, JoinPath(dataDir, "claims"), ".json"), decode))
      requires DecodesInto(decode, Claims)
      modifies repo.db, logger
      ensures DataLoaded(Claims, "claims", FileResults(fs, Glob(fs, JoinPath(dataDir, "claims"), ".json"), decode),
                         countFault, globFault, batchSize, plan, old(repo.db.tables), old(logger.events),
                         repo.db.tables, logger.events, err, total, handed, kept)
    {
      err, total, handed, kept := LoadDataFromFiles(Claims, "claims", "claims", fs, dataDir, countFault, globFault, decode, arrivals, plan);
    }

    /** LoadReversalsFromData: the "reverts" directory. */
    method LoadReversalsFromData(fs: FileSystem, dataDir: string, countFault: Option<string>, globFault: Option<string>,
                                 decode: string -> Decoded, arrivals: seq<FileResult>, plan: seq<BatchFaults>)
      returns (err: Option<string>, ghost total: nat, ghost handed: seq<seq<Row>>, ghost kept: seq<bool>)
      requires multiset(arrivals) == multiset(FileResults(fs, Glob(fs, JoinPath(dataDir, "reverts"), ".json"), decode))
      requires DecodesInto(decode, Reversals)
      modifies repo.db, logger
      ensures DataLoaded(Reversals, "reversals", FileResults(fs, Glob(fs, JoinPath(dataDir, "reverts"), ".json"), decode),
                         countFault, globFault, batchSize, plan, old(repo.db.tables), old(logger.events),
                         repo.db.tables, logger.events, err, total, handed, kept)
    {
      err, total, handed, kept := LoadDataFromFiles(Reversals, "reverts", "reversals", fs, dataDir, countFault, globFault, decode, arrivals, plan);
    }
  }
}
