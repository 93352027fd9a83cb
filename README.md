# Pharmacy claims service — a Dafny model

This project models the core of the pharmacy claims service. The service is an HTTP API.
It accepts pharmacy claims (`POST /claim`) and reversals of earlier claims (`POST /reversal`).
Both are stored in PostgreSQL, and every successful operation leaves an audit event.
At start-up a loader fills the database from data files:

- pharmacies from CSV files;
- claims and reversals from JSON files.

The loader inserts rows in batches, each batch inside its own transaction. Rows whose unique key is already present are skipped.

The model has one module per source file:

| module | file | form |
|---|---|---|
| `Validator` | `validator.dfy` | pure functions: the request validator (NDC, NPI, quantity, price) |
| `Store` | `store.dfy` | values: the three tables, their unique keys, `INSERT … ON CONFLICT DO NOTHING` |
| `Database` | `connection.dfy` | class `DB` holding the tables; the transaction helper |
| `Repository` | `postgres.dfy` | class `Postgres`: look-ups, claim insert, the reversal transaction, batch inserts, counts |
| `Claims` | `claims.dfy` | class `ClaimsService`: submit and reverse a claim, with audit events |
| `Loader` | `loader.dfy` | class `LoaderService` plus methods over a `LoadState` value: the CSV and JSON loaders |
| `Handlers` | `http.dfy` | pure functions: the status code and body each handler replies with |
| `Models`, `Common`, `Strings` | | records, the audit logger, UUIDs, error wrapping, `strings.TrimSpace` |

Conventions:

- A Go `error` is an `Option<string>` holding the exact error text. `fmt.Errorf("ctx: %w", e)` is `Wrap(ctx, e)`.
- A call's outcome that the program cannot predict is a parameter of the operation. This covers database failures, file contents and the order in which worker goroutines finish.
  - A single statement's failure is an `Option<string>` fault.
  - A batch's failures come from a `plan` indexed by the batch call number.
- The clock and fresh UUIDs are parameters.
- Go's `len` on strings counts UTF-8 bytes. `ByteLen` models it.
- `strconv.Atoi` accepts an optional sign followed by decimal digits within the 64-bit range. `AtoiAccepts` models it.

## Model

| member | source | states |
|---|---|---|
| Validator.ByteLen | internal/utility/validator.go:37-39 | Go's byte length of a string is never less than its number of characters |
| Validator.AsciiByteLen | internal/utility/validator.go:37-39 | on ASCII text the byte length is the character count |
| Validator.ShortNumeralsFit | internal/utility/validator.go:40-42 | for strings of at most 18 characters, `Atoi` accepts exactly the optionally signed decimal numerals: the int64 range never matters for NDC or NPI |
| Validator.AtoiAccepts | internal/utility/validator.go:40-42 | a string `Atoi` accepts is an optionally signed decimal numeral, and it is ASCII so its byte length is its length |
| Validator.DecimalIsAscii | internal/utility/validator.go:47-52 | a signed decimal numeral has as many bytes as characters |
| Validator.ValidateNDC | internal/utility/validator.go:36-44 | accepted iff 9–11 characters long and an optionally signed decimal numeral; wrong byte length gives the length error first; only the two NDC errors are returned |
| Validator.ValidateNPI | internal/utility/validator.go:46-54 | accepted iff exactly 10 characters and an optionally signed numeral; wrong byte length gives the length error; only the two NPI errors are returned |
| Validator.ValidateQuantity | internal/utility/validator.go:56-61 | accepted iff the quantity is strictly positive, otherwise the quantity error |
| Validator.ValidatePrice | internal/utility/validator.go:63-68 | accepted iff the price is non-negative, otherwise the price error |
| Validator.ValidateClaimRequest | internal/utility/validator.go:16-34 | the request passes iff all four fields are well formed |
| Validator.FirstFailureReported | internal/utility/validator.go:16-34 | each of the six errors is reported exactly when its check fails and every earlier check (NDC, NPI, quantity, price in order) passed |
| Validator.SignedNpiAccepted | internal/utility/validator.go:46-54 | an NPI written with a leading `+` and nine digits passes, because `Atoi` accepts the sign |
| Validator.SignedNdcAccepted | internal/utility/validator.go:36-44 | an NDC written with a leading `-` and eight digits passes |
| Validator.LengthCountsBytes | internal/utility/validator.go:36-44 | eight characters ending in a two-byte letter pass the byte-length check and fail as non-numeric |
| Validator.ZeroQuantityRefusedZeroPriceAccepted | internal/utility/validator.go:56-68 | quantity 0 is refused while price 0 is accepted; fractional quantities pass and negative prices fail |
| Validator.ZeroRequestRejected | internal/utility/validator.go:16-19 | an all-empty request fails on the NDC length first |
| Common.UuidString | internal/service/claims.go:78 | the canonical text of a UUID has 36 characters |
| Store.InsertOrSkip | internal/repository/postgres.go:179-184 | after an `ON CONFLICT DO NOTHING` insert the row's unique key is present |
| Store.InsertOrSkipExtends | internal/repository/postgres.go:179-184 | one statement keeps every old row; a row whose key is taken changes nothing, any other row adds exactly one |
| Store.InsertOrSkipKeepsKeysUnique | internal/repository/postgres.go:179-184 | one insert keeps every unique key unique and only appends |
| Store.InsertAllKeepsKeysUnique | internal/repository/postgres.go:192-197 | a sequence of inserts keeps every unique key, including at most one reversal per claim, and removes or alters no row |
| Store.InsertAllCoversRows | internal/repository/postgres.go:192-197 | after a batch every row's key is present: each row was inserted or collided with an existing or earlier row; the old rows are kept and the tables grow by at most one row per statement |
| Store.InsertAllTouchesOnlyItsTable | internal/repository/postgres.go:179-184 | a batch for one table leaves the other two tables unchanged |
| Store.InsertNothing | internal/repository/postgres.go:192-197 | an empty batch changes nothing |
| Store.InsertAllConcat | internal/repository/postgres.go:192-197 | two batches in turn equal their concatenation as one batch |
| Database.TxReturn | internal/database/connection.go:58-77 | the helper returns nil iff the transaction began and the work succeeded; once begun it returns exactly the work's error |
| Database.TxReturnChecked | internal/database/connection.go:58-77 | corrected helper: returns nil iff the transaction committed; begin and work errors are returned as before |
| Database.CommitErrorLost | internal/database/connection.go:64-76 | when the work succeeds and the commit fails, the helper as written returns nil though nothing was committed; the corrected helper returns the commit error |
| Database.ReturnedErrorMeansRollback | internal/database/connection.go:64-76 | a returned error always means a rollback; a nil return means a commit exactly when the commit succeeds |
| Database.DB.ExecuteInTransaction | internal/database/connection.go:58-77 | returns the work's (or the begin) error; the tables become the work's result iff the commit happened, otherwise stay as they were |
| Database.DB.ExecuteInTransactionChecked | internal/database/connection.go:58-77 | corrected helper: nil means the work's result is committed; any error means the tables are unchanged |
| Repository.FindPharmacy | internal/repository/postgres.go:23-44 | a found pharmacy is a stored row with that NPI; nothing is found iff no row has it |
| Repository.FindClaim | internal/repository/postgres.go:67-93 | a found claim is a stored row with that id; nothing is found iff no row has it |
| Repository.FoundPharmacyIsUnique | internal/repository/postgres.go:23-44 | with unique NPIs, the look-up returns exactly the row holding the NPI |
| Repository.ReverseClaimWork | internal/repository/postgres.go:96-131 | the reversal work succeeds iff its queries succeed, the claim exists, it has no reversal yet and the new reversal id is free; success appends exactly one reversal; failures change nothing; "claim not found" and "claim already reversed" arise exactly in their cases |
| Repository.ReverseClaimWorkKeepsKeysUnique | internal/repository/postgres.go:108-128 | the reversal work keeps every unique key, so a claim never gets two reversals |
| Repository.SecondReversalRefused | internal/repository/postgres.go:108-117 | after a successful reversal, reversing the same claim again is refused with "claim already reversed" and changes nothing |
| Repository.ReversalCommitFailureUnreported | internal/repository/postgres.go:95-132 | a reversal whose commit fails reports success while the reversal is not stored |
| Repository.FirstExecFault | internal/repository/postgres.go:192-197 | finds the first failing row insert of a batch: it is in range, it fails, and no earlier row fails |
| Repository.BatchInsertResult | internal/repository/postgres.go:167-200 | a batch succeeds iff begin, prepare, every row insert and the commit succeed; success applies every insert in order, failure changes nothing; with all statements clear the result is the commit's outcome |
| Repository.BatchKeepsKeysAndCoversRows | internal/repository/postgres.go:167-200 | a batch keeps unique keys and old rows; after a successful batch every row's key is present |
| Repository.PharmacyBatchEffect | internal/repository/postgres.go:134-143 | a successful pharmacy batch leaves claims and reversals alone, keeps old pharmacies and makes every NPI of the batch present |
| Repository.PharmacyRowsInserted | internal/repository/postgres.go:134-143 | inserting pharmacy rows changes only the pharmacies table, which gains every NPI of the batch |
| Repository.DuplicateNpiSkipped | internal/repository/postgres.go:179-184 | two pharmacies with one NPI in a batch store only the first, without error |
| Repository.ExecFailureRollsBack | internal/repository/postgres.go:192-197 | one failing row insert fails the batch and leaves every table unchanged |
| Repository.Postgres.GetPharmacyByNPI | internal/repository/postgres.go:23-44 | a query failure is wrapped "failed to get pharmacy by NPI"; otherwise nil, nil for an unknown NPI and the stored pharmacy for a known one |
| Repository.Postgres.GetClaimByID | internal/repository/postgres.go:67-93 | a query failure is wrapped "failed to get claim by ID"; otherwise nil, nil for an unknown id and the stored claim for a known one |
| Repository.Postgres.CreateClaim | internal/repository/postgres.go:46-65 | the claim is appended iff the insert succeeds and its id is new; a taken id is a duplicate-key error; any error leaves the tables unchanged |
| Repository.Postgres.ReverseClaim | internal/repository/postgres.go:95-132 | runs the reversal work through the transaction helper as written: the error is the begin or work error, never the commit's; the tables become the work's result iff the transaction committed, otherwise stay as they were |
| Repository.Postgres.ReverseClaimChecked | internal/repository/postgres.go:95-132 | the same operation over the corrected helper: nil iff the reversal was committed, and then the tables are the work's result; any error leaves them unchanged |
| Repository.Postgres.BatchInsert | internal/repository/postgres.go:167-200 | the statement-by-statement loop over a transaction's working copy leaves the tables and the error exactly as `BatchInsertResult` says |
| Repository.Postgres.BatchCreatePharmacies | internal/repository/postgres.go:134-143 | one batch insert of the pharmacies, one row each, in order |
| Repository.Postgres.BatchCreateClaims | internal/repository/postgres.go:145-154 | one batch insert of the claims, one row each, in order |
| Repository.Postgres.BatchCreateReversals | internal/repository/postgres.go:156-165 | one batch insert of the reversals, one row each, in order |
| Repository.PharmacyRows | internal/repository/postgres.go:134-143 | one pharmacies-table row per pharmacy, in order, each holding that pharmacy |
| Repository.ClaimRows | internal/repository/postgres.go:145-154 | one claims-table row per claim, in order, each holding that claim |
| Repository.ReversalRows | internal/repository/postgres.go:156-165 | one reversals-table row per reversal, in order, each holding that reversal |
| Repository.Postgres.CountRows | internal/repository/postgres.go:214-222 | returns the table's row count, or 0 and the error wrapped "failed to count rows in <table>" |
| Repository.Postgres.CountPharmacies | internal/repository/postgres.go:202-204 | the number of pharmacies, or 0 and the wrapped error |
| Repository.Postgres.CountClaims | internal/repository/postgres.go:206-208 | the number of claims, or 0 and the wrapped error |
| Repository.Postgres.CountReversals | internal/repository/postgres.go:210-212 | the number of reversals, or 0 and the wrapped error |
| Models.Logger.LogEvent | internal/core/logger.go:25-47 | appends exactly one audit event with the given type and payload |
| Claims.NewClaim | internal/service/claims.go:43-50 | the stored claim carries the request's NDC, quantity, NPI and price, the fresh id and the submission time |
| Claims.PharmacyNotFoundText | internal/service/claims.go:39-41 | the unknown-pharmacy text embeds the request's NPI after the fixed 18-character prefix |
| Claims.ClaimNotFoundText | internal/service/claims.go:77-79 | the unknown-claim text is 60 characters long and embeds the claim id's 36-character canonical text |
| Claims.ClaimSubmittedPayload | internal/service/claims.go:57-64 | the submission event has exactly the six keys, with the claim id as text and the pharmacy's chain |
| Claims.ClaimReversedPayload | internal/service/claims.go:91-101 | the reversal event has the six fixed keys and a "chain" key exactly when a chain was found |
| Claims.ChainForLog | internal/service/claims.go:86-101 | a chain is recorded iff the look-up succeeded and found the NPI, and it is that pharmacy's chain |
| Claims.AlreadyReversedText | internal/service/claims.go:81-84 | the service's texts for a refused reversal are "failed to reverse claim: claim already reversed" and "… claim not found" |
| Claims.ClaimsService.ValidateClaim | internal/service/claims.go:111-113 | the validator's verdict: no error iff the request is well formed |
| Claims.ClaimsService.SubmitClaim | internal/service/claims.go:30-70 | succeeds iff valid, looked up, pharmacy known, insert succeeds and id new; each failure has its exact text and changes neither store nor audit trail; success stores the new claim and logs one "claim_submitted" event |
| Claims.ClaimsService.ReverseClaim | internal/service/claims.go:72-109 | fetch failure and unknown claim have their exact texts and change nothing; otherwise it succeeds iff the reversal work succeeded, whatever the commit did; a work error is wrapped "failed to reverse claim" and logs nothing; the tables hold the reversal iff the transaction committed; success logs one "claim_reversed" event with the claim's original fields, even when the commit failed |
| Claims.ClaimsService.ReverseClaimChecked | internal/service/claims.go:72-109 | the service over the corrected repository: succeeds, stores the reversal and logs exactly when the reversal committed; every failure has its wrapped text and changes neither store nor audit trail |
| Claims.ClaimsService.LogReversal | internal/service/claims.go:86-108 | after a successful reversal: one "claim_reversed" event with the claim's fields and the pharmacy's chain when found, and the "claim reversed" response with the claim's id |
| Loader.NormalizeBatchSize | internal/service/loader.go:35-40 | a batch size in 1..10000 is kept, anything else becomes the default 1000 |
| Loader.LoaderService.constructor | internal/service/loader.go:31-33 | a new loader uses the default batch size |
| Loader.LoaderService.WithBatchSize | internal/service/loader.go:35-47 | a new loader uses the normalized batch size |
| Loader.LoadedEvents | internal/service/loader.go:162-167 | one "…_loaded" event per stored row |
| Loader.LoadedEventsConcat | internal/service/loader.go:162-167 | the events of two batches are the events of their concatenation |
| Loader.ProcessBatch | internal/service/loader.go:157-170 | a stored batch inserts its rows and logs one event per row; a failed batch changes neither and its error is wrapped "failed to batch create <table>" |
| Loader.StoreBatch | internal/service/loader.go:157-170 | after a successful batch the state holds the rows so far plus the batch; a failure keeps tables and events and names the failing call |
| Loader.UpToEof | internal/service/loader.go:109-120 | the reads before the first EOF: a prefix, free of EOF, followed by EOF or the end |
| Loader.RecordRow | internal/service/loader.go:126-143 | a read becomes a pharmacy row iff it is a record with at least two fields whose trimmed NPI validates |
| Loader.AcceptedRows | internal/service/loader.go:109-143 | the rows accepted from the reads: at most one per read |
| Loader.FileRows | internal/service/loader.go:92-143 | a file yields rows iff it opens and its header reads; the rows are those accepted from the reads before the first EOF |
| Loader.FileRowsValid | internal/service/loader.go:101-143 | a readable file yields fewer rows than reads, each a pharmacy with a valid NPI |
| Loader.AcceptedRowsValid | internal/service/loader.go:126-143 | every row accepted from a CSV file is a pharmacy with a valid NPI |
| Loader.AcceptedRowsPrefix | internal/service/loader.go:109-143 | the rows accepted from a prefix of the reads are a prefix of those accepted from all of them |
| Loader.LoadPharmaciesFromCsv | internal/service/loader.go:92-155 | open and header failures have their exact texts and change nothing; the rows stored are a prefix of the file's valid rows, all of them on success; batches are of the configured size; state holds exactly the stored rows; an error comes from a failed batch call |
| Loader.AddRow | internal/service/loader.go:143-151 | adding a row keeps the pending batch below the batch size and the stored batches full; a failed flush is reported "failed to process batch at line …" |
| Loader.TakeRecord | internal/service/loader.go:109-151 | one loop step keeps the reading invariant or stops on a failed batch |
| Loader.LoadRecords | internal/service/loader.go:105-154 | the record loop stops at EOF having stored exactly the accepted rows, or on a failed batch having stored a prefix |
| Loader.FinishRecords | internal/service/loader.go:111-119 | at EOF the pending partial batch is stored; its failure is reported "failed to process final batch" |
| Loader.JoinPath | internal/service/loader.go:58 | the joined path ends with the file name |
| Loader.Matching | internal/service/loader.go:64 | the glob's matches: no more than the entries, each ending with the suffix |
| Loader.MatchingMembers | internal/service/loader.go:64 | the glob keeps exactly the directory entries with the suffix |
| Loader.Glob | internal/service/loader.go:64-67 | a missing directory matches nothing |
| Loader.GlobPaths | internal/service/loader.go:64 | one path per matching entry, each ending with the suffix |
| Loader.AddCsvFile | internal/service/loader.go:75-82 | one file's load adds to the rows held; with no batch failing, exactly that file's valid rows are added and counted |
| Loader.LoadPharmacyFiles | internal/service/loader.go:73-82 | the file loop holds what it counts; with no batch failing, every valid row of every file is stored and counted |
| Loader.TrimJsonDropsFinalPercent | internal/service/loader.go:277-278 | a trailing `%` is removed before spaces are trimmed |
| Loader.TrimJsonKeepsPercentBeforeNewline | internal/service/loader.go:277-278 | a `%` followed by a newline is kept, since the suffix is cut before trimming |
| Loader.TrimJson | internal/service/loader.go:277-278 | the text to decode is no longer than the file, strictly shorter when it ended with `%`, and neither starts nor ends with a space |
| Loader.LoadJson | internal/service/loader.go:271-287 | a read failure is wrapped "failed to read file"; a file loads iff its trimmed text decodes, and the items are the decoded ones |
| Loader.FileResults | internal/service/loader.go:212-224 | one result per globbed file |
| Loader.OkItemsConcat | internal/service/loader.go:236-256 | the items of two runs of arrivals are the items of their concatenation |
| Loader.OkItemsPermutation | internal/service/loader.go:236-256 | whatever order the workers finish in, the consumer receives the same multiset of items |
| Loader.OkItemsFit | internal/service/loader.go:212-224 | with a decoder that yields rows of one table, every loaded item is a row of that table |
| Loader.FileItemsFit | internal/service/loader.go:212-224 | the same for the items of all the globbed files |
| Loader.SelectedItemsAmong | internal/service/loader.go:242-249 | every row of the batches that went through is a row that was handed over |
| Loader.OnlyItsTableStored | internal/service/loader.go:242-249 | storing batches of one table's rows leaves the other two tables unchanged |
| Loader.LoadedOnlyIntoTable | internal/service/loader.go:232-265 | with a decoder of one table's rows, the consumer changes only that table |
| Loader.HandBatch | internal/service/loader.go:242-249 | a batch handed to the processor is kept whenever its call's faults are clear; the state holds exactly the kept batches |
| Loader.HandItem | internal/service/loader.go:239-250 | adding one item keeps the handing invariant: full batches handed, partial batch pending, stored = kept batches |
| Loader.HandItems | internal/service/loader.go:238-251 | one file's items keep the handing invariant |
| Loader.HandResults | internal/service/loader.go:236-256 | after every arrival, the batches handed plus the pending batch are exactly the loaded items in arrival order |
| Loader.FinishHanding | internal/service/loader.go:258-265 | the final partial batch is handed; afterwards every item has been handed exactly once |
| Loader.ClearPlanKeepsAll | internal/service/loader.go:242-249 | with no batch failing, every handed batch is stored |
| Loader.Consume | internal/service/loader.go:232-265 | for any arrival order, the items handed over are a permutation of the files' items; with no failing batch all are stored |
| Loader.LoaderService.LoadPharmaciesFromData | internal/service/loader.go:49-90 | skips a non-empty table; missing directory, glob failure and no CSV files have their exact errors and store nothing; with no batch failing it stores every valid row of every file and fails iff there were none; the store and audit trail hold exactly the rows stored |
| Loader.LoaderService.LoadDataFromFiles | internal/service/loader.go:172-269 | skips a non-empty table; a glob failure is the only error and stores nothing; otherwise every loaded item is handed over exactly once in full batches plus one final, failed batches are only logged, and the store holds exactly the batches that went through; given a decoder that yields rows of the loader's table, the other two tables are unchanged |
| Loader.LoaderService.LoadClaimsFromData | internal/service/loader.go:289-300 | the generic loader over the claims table, "claims" directory and JSON files; the decoder yields claims, so only the claims table changes |
| Loader.LoaderService.LoadReversalsFromData | internal/service/loader.go:320-331 | the generic loader over the reversals table, "reverts" directory and JSON files; the decoder yields reversals, so only the reversals table changes |
| Strings.TrimLeadingSpaceSpec | internal/service/loader.go:134-135 | trimming leading space removes exactly a prefix of white space and leaves a non-space first character |
| Strings.TrimTrailingSpaceSpec | internal/service/loader.go:134-135 | trimming trailing space removes exactly a suffix of white space and leaves a non-space last character |
| Strings.TrimSpaceSpec | internal/service/loader.go:134-135 | `strings.TrimSpace` keeps a contiguous middle of the text, drops only white space on either side, and what it keeps neither starts nor ends with a space |
| Strings.TrimSuffix | internal/service/loader.go:277 | `strings.TrimSuffix` removes one copy of the suffix when the text ends with it, and otherwise returns the text unchanged |
| Handlers.SubmitClaimReply | internal/handlers/http.go:37-66 | 405 iff not POST; a body that fails to decode is 400 "Invalid JSON format" and a failed validation 400 "Validation failed", each with the detail; 201 with the response iff POST, parsed, valid and submitted; 404 "Pharmacy not found" iff the service says the pharmacy is unknown; every other service error is 500 "Failed to submit claim" with the error; only 201/400/404/405/500 occur |
| Handlers.SubmitStopsEarly | internal/handlers/http.go:37-53 | a wrong method, a bad body or a failed validation decides the reply whatever the service would return |
| Handlers.NullClaimBodyRejected | internal/handlers/http.go:43-53 | a body decoding to the empty request gets 400 "Validation failed" with the NDC length error |
| Handlers.WrappedSubmitErrorsAre500 | internal/handlers/http.go:55-62 | look-up and insert failures of a valid request are answered 500 |
| Handlers.ReverseClaimReply | internal/handlers/http.go:68-101 | 405 iff not POST; a body that fails to decode is 400 "Invalid JSON format" and a nil claim id 400; 200 iff the reversal succeeded; 404 "Claim not found" iff the service says the claim is unknown; 409 "Claim already reversed" iff the service error is exactly "claim is already reversed"; every other service error is 500 "Failed to reverse claim" with the error; only 200/400/404/405/409/500 occur |
| Handlers.ReverseStopsEarly | internal/handlers/http.go:68-84 | a wrong method, a bad body or a nil claim id decides the reply whatever the service would return |
| Handlers.ServiceNeverConflicts | internal/handlers/http.go:86-97 | no error the claims service can return produces 409 |
| Handlers.DuplicateReversalGets500 | internal/handlers/http.go:92-96 | a second reversal of a claim is answered 500, not 409 |
| Handlers.ReverseClaimReplyChecked | internal/handlers/http.go:86-97 | corrected handler: 409 "Claim already reversed" iff the service reports the claim already reversed; otherwise the same reply as written |
| Handlers.DuplicateReversalGets409 | internal/handlers/http.go:92-95 | with the corrected handler a second reversal is answered 409 |
| Handlers.HealthReply | internal/handlers/http.go:103-110 | GET gets 200 `{"status": "healthy"}`, any other method 405 |

## Left out

- The worker pool of `loadDataFromFiles` (goroutines, channels, `MaxConcurrentWorkers`) is not modelled as concurrency. The order in which files arrive is a parameter, `arrivals`: any sequence with the same multiset as the per-file results. The proved properties hold for every such order.
- The panic branch of `ExecuteInTransaction` is not modelled: there are no panics in the model.
- SQL text, the database driver, connection pooling, `NewConnection`, `Health`, `BeginTx`, `Close` and `WaitForConnection` are not part of this model. Each statement's failure is a fault parameter.
- The table schema is not in the source; the model assumes these unique keys:
  - the pharmacy NPI, the claim id and the reversal id, the conflict targets of internal/repository/postgres.go:179-184;
  - the claim a reversal refers to, at most one reversal per claim, mirroring the check at internal/repository/postgres.go:108-117.
- Foreign keys and `CHECK` constraints of the schema are not modelled. A batch that would violate one is a batch fault in the plan.
- CSV and JSON decoding are not modelled:
  - a CSV file is the sequence of results its reader returns (records, read errors, EOF);
  - JSON decoding is a function parameter from text to rows or an error. The loaders require it to yield rows of their own table, as the typed decoder of each loader does.
- File system errors other than "does not exist" from `os.Stat`, and the glob error, are parameters. `JoinPath` does not apply `filepath.Clean`, and glob meta-characters in the data directory are not interpreted.
- `log.Printf` output is not modelled. This includes the warnings for a failed count, an unreadable file and a failed batch in the JSON loader.
- The audit logger's file writing, timestamps and file names are not modelled. An event is its type and payload appended to the logger's trail.
- HTTP routing, JSON decoding of request bodies, and response encoding are not modelled. A handler's inputs are the method, the decoded body (or the decoder's error) and the service's outcome. Its output is a status with a body value.
- `float64` quantities and prices are `real`. Rounding is not modelled.
- Go slice reuse (`batch[:0]`) is not modelled: a batch is a fresh sequence value.
- The pharmacy's serial id column is not modelled.
- Times are opaque integers supplied by the caller. Fresh UUIDs are supplied by the caller, including the reversal id the repository generates.
- Loader.LoaderService.LoadPharmaciesFromData: when some batch fails, the error and the files' contribution are only constrained to be consistent with what was stored. Exactly which rows are stored is only pinned down when no batch fails.

## Findings

| source | as written | input that shows it | evidently intended | confidence | as-written member | corrected member |
|---|---|---|---|---|---|---|
| internal/handlers/http.go:92-95 | the 409 branch compares the service error with "claim is already reversed", but the service returns "failed to reverse claim: claim already reversed" | reversing the same claim twice: the second request is answered 500 | a second reversal is answered 409 Conflict | not executed | Handlers.DuplicateReversalGets500 | Handlers.DuplicateReversalGets409 |
| internal/database/connection.go:64-76 | `return err` copies `err` into the unnamed result before the deferred function assigns the commit error, so a failed commit returns nil | a reversal whose work succeeds and whose `tx.Commit()` fails: the caller is told it succeeded and an audit event is written, yet no reversal is stored | the commit error is returned to the caller | not executed | Database.CommitErrorLost | Database.DB.ExecuteInTransactionChecked |
