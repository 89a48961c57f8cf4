# LitleBatchRequest — a verified model of the batch accumulation engine

The Litle Java SDK writes payment transactions to batch request files. A
`LitleBatchRequest` is one batch within a `LitleBatchFileRequest`. Its method
`addTransaction` does all of a batch's work, in this order:

1. When the batch is empty on entry, it opens (and truncates) the batch's
   request file.
2. It applies the account-update mixing rule. The rule is derived from the
   counters `numAccountUpdates` and `numOfTxn`.
3. It runs a two-level capacity pre-check, `verifyFileThresholds`. The file
   ceiling is checked first, then the batch ceiling. Each is an equality
   test, and each throws its own exception.
4. It dispatches over fourteen transaction kinds. A recognised kind bumps
   `numOfTxn`, bumps its category counter and, for ten kinds, adds its
   amount to that category's sum. Any other kind is counted nowhere.
5. It marshals exactly one record to the request file.
6. It re-runs the capacity check to choose the status it returns:
   FILEFULL, BATCHFULL, SUCCESS, or FAILURE for an unrecognised kind.

The constructor refuses a configured per-batch maximum above 100000.

The project has four modules:

- `Transactions` (transactions.dfy) defines:
  - the transaction kinds and the category counters;
  - the record written for a kind;
  - what a history of accepted transactions determines (counts per
    category, amount sums, the mixing policy), defined independently of
    the batch's incremental bookkeeping.
- `BatchSpec` (batch_spec.dfy) defines:
  - one call as a pure function `Add` of the batch state, the file's live
    total, the two maxima and the outcome of the two I/O steps;
  - `Run`, a sequence of calls on one batch;
  - the properties of both.
- `LitleBatch` (litle_batch.dfy) defines:
  - class `Batch`, the batch whose fields `addTransaction` updates in
    place, proved against `BatchSpec.Add`;
  - class `BatchFile`, the owning file. It is modelled only at its
    interface with its batches: an ordered sequence of batches, a live
    total equal to the sum of their `numOfTxn`, a per-file maximum, and a
    batch count that grows on `createBatch`.
- `Scenarios` (scenarios.dfy) replays the batch-file unit tests against the
  classes. It also replays a four-sale run that fills a file of four.

Three ghost fields tie the counters and the request file to an
independent definition:

- `Batch.accepted` is the history of counted transactions.
- `Batch.backdoorUsed` records whether `setNumOfTxn` was ever called.
- `Batch.writeFailed` records whether a marshalling failure ever ended a
  call.

`Batch.Inv` (that is, `BatchSpec.Invariant`) keeps three invariants:

- Every category count and amount sum is the one the history determines.
- For a batch whose counter was never set from outside, the counter is
  the history's length and stays within a non-negative batch maximum, and
  the history is homogeneous (all account updates, or none).
- For such a batch, if no marshalling failure ever ended a call, the
  request file holds exactly the counted transactions, in the order they
  were counted (generic elements aside).

Behaviours of the code worth stating, each modelled as written:

- A FILEFULL or BATCHFULL pre-check does not return that status. It throws
  `LitleBatchFileFullException` or `LitleBatchBatchFullException`, the two
  exceptions `addTransaction` declares
  (src/com/litle/sdk/LitleBatchRequest.java:98, 116-123). These are the
  outcomes `Thrown(FileAlreadyFull)` and `Thrown(BatchAlreadyFull)`.
- A transaction added to a batch already at its maximum is refused with
  `BatchAlreadyFull` (src/com/litle/sdk/LitleBatchRequest.java:120-123);
  it is not accepted over the maximum.
- A marshalling failure is raised after the counters were bumped
  (src/com/litle/sdk/LitleBatchRequest.java:131-219). So the transaction
  stays counted although no record was written.
- The request file is reopened whenever `numOfTxn` is 0 on entry
  (src/com/litle/sdk/LitleBatchRequest.java:99-106). So the generic record
  of an unrecognised first transaction is discarded by the next call's
  reopening.

## Model

| member | source | states |
|---|---|---|
| BatchSpec.Initial | src/com/litle/sdk/LitleBatchRequest.java:70 | a fresh batch: numOfTxn 0, every count and sum zero, no request file, nothing written |
| BatchSpec.Add | src/com/litle/sdk/LitleBatchRequest.java:98-233 | one call; it throws SinkNotCreatable exactly when the batch is empty and the request file cannot be created, and then changes nothing; otherwise a request file is open afterwards exactly when one was before or the batch was empty (its other properties are the lemmas below) |
| BatchSpec.Opened | src/com/litle/sdk/LitleBatchRequest.java:99-106 | an empty batch gets a fresh, empty request file; the counters are untouched, and a non-empty batch is unchanged |
| BatchSpec.MixingError | src/com/litle/sdk/LitleBatchRequest.java:108-114 | no mixing error exactly when the batch is empty or the transaction is an account update exactly when every transaction so far is one; each error names the kind it refuses |
| BatchSpec.Commit | src/com/litle/sdk/LitleBatchRequest.java:116-232 | after the file is open and the mixing rule is met, a call that returns has appended exactly the transaction's record, and one that throws has appended nothing |
| BatchSpec.Tally | src/com/litle/sdk/LitleBatchRequest.java:131-213 | the dispatch moves numOfTxn by one for a recognised kind and by nothing otherwise, and leaves the request file alone |
| BatchSpec.Status | src/com/litle/sdk/LitleBatchRequest.java:221-232 | FILEFULL exactly when the file is at its maximum; BATCHFULL exactly when it is not and the batch is; SUCCESS or FAILURE otherwise, exactly as the transaction was or was not counted |
| BatchSpec.Thresholds | src/com/litle/sdk/LitleBatchRequest.java:240-248 | FILEFULL exactly when the file total equals the file maximum (checked first); BATCHFULL exactly when it does not and the batch counter equals the batch maximum; SUCCESS exactly when neither holds |
| BatchSpec.AddCounts | src/com/litle/sdk/LitleBatchRequest.java:131-210 | a call changes the counters exactly when it counts the transaction; then numOfTxn and the transaction's category count rise by one, that category's sum rises by the amount exactly for the ten amount-carrying kinds, and every other count and sum is unchanged; otherwise no counter changes |
| BatchSpec.AddCountsMap | src/com/litle/sdk/LitleBatchRequest.java:131-210 | the whole counter map after a call: one bumped entry when the call counts the transaction, the map on entry otherwise |
| BatchSpec.AddTallies | src/com/litle/sdk/LitleBatchRequest.java:99-213 | the counters after a call are those of the dispatch when every check passes and the kind is recognised, and those on entry otherwise |
| BatchSpec.AddKeepsCountSum | src/com/litle/sdk/LitleBatchRequest.java:131-210 | if numOfTxn equals the sum of the category counts before a call, it does after it |
| BatchSpec.MixingRule | src/com/litle/sdk/LitleBatchRequest.java:108-114 | in a non-empty batch, an account update is refused exactly when not every transaction so far is one, another kind is refused exactly when every transaction so far is one, and a refused call changes nothing |
| BatchSpec.PrecheckRefuses | src/com/litle/sdk/LitleBatchRequest.java:116-123 | past the sink and the mixing rule, the call throws FileAlreadyFull exactly when the file is at its maximum and BatchAlreadyFull exactly when only the batch is; either refusal leaves the counters unchanged and appends nothing |
| BatchSpec.AddReturns | src/com/litle/sdk/LitleBatchRequest.java:215-232 | a call returns exactly when every check passes and marshalling succeeds; it then has counted the transaction (if recognised) and appended exactly its record, and returns FILEFULL if the file is now full, else BATCHFULL if the batch is, else SUCCESS for a recognised kind and FAILURE for an unrecognised one |
| BatchSpec.UnrecognisedNotCounted | src/com/litle/sdk/LitleBatchRequest.java:211-216 | an unrecognised kind changes no counter; a call that returns appends one generic record and returns FAILURE |
| BatchSpec.MarshalFailureKeepsCount | src/com/litle/sdk/LitleBatchRequest.java:215-219 | a marshalling failure ends the call exactly when every check passed and the marshaller fails; the transaction stays counted and nothing is appended |
| BatchSpec.AddKeepsBounds | src/com/litle/sdk/LitleBatchRequest.java:99-213 | a call moves numOfTxn by 0 or 1, and by 1 only when neither the file nor the batch was at its maximum; a counter within [0, batch maximum] stays there, and a file total at most its maximum stays so |
| BatchSpec.Run | src/com/litle/sdk/LitleBatchRequest.java:98-233 | any sequence of calls on one batch; the counter never decreases and rises by at most one per call |
| BatchSpec.RunKeepsBounds | src/com/litle/sdk/LitleBatchRequest.java:236-248 | across any sequence of calls, a counter starting within [0, batch maximum] stays there, and a file total starting at most its maximum stays so |
| BatchSpec.RunKeepsCountSum | src/com/litle/sdk/LitleBatchRequest.java:131-210 | across any sequence of calls on a fresh batch, numOfTxn equals the sum of the category counts |
| BatchSpec.AddKeepsAggregates | src/com/litle/sdk/LitleBatchRequest.java:131-210 | every category count and amount sum stays equal to the one the history of counted transactions determines, the history growing by the transaction exactly when the call counts it |
| BatchSpec.CountSumOfHistory | src/com/litle/sdk/LitleBatchRequest.java:131-210 | a counter equal to the history's length equals the sum of the category counts |
| BatchSpec.MixingRuleOnHistory | src/com/litle/sdk/LitleBatchRequest.java:108-114 | for a batch whose counter was never set from outside, an account update is refused exactly when some earlier transaction is not one, and another kind exactly when the batch is non-empty and every earlier transaction is an account update |
| BatchSpec.AddKeepsWritten | src/com/litle/sdk/LitleBatchRequest.java:99-219 | if the request file holds the counted transactions in order before a call that does not fail in marshalling, it does after it, the history growing exactly when the call counts the transaction |
| BatchSpec.AddKeepsInvariant | src/com/litle/sdk/LitleBatchRequest.java:98-233 | one call keeps the batch invariant, the history growing exactly when the transaction is counted and a marshalling failure being recorded |
| BatchSpec.AddKeepsUntouched | src/com/litle/sdk/LitleBatchRequest.java:108-114 | the counter-derived mixing rule keeps the history homogeneous (all account updates or none), the counter equal to its length and within the batch maximum |
| Transactions.CategoryOf | src/com/litle/sdk/LitleBatchRequest.java:131-213 | a kind has no category exactly when it is unrecognised, and the account-update category exactly when it is an account update |
| Transactions.AmountOf | src/com/litle/sdk/LitleBatchRequest.java:131-210 | a kind adds an amount exactly when its category keeps an amount sum, and then adds its own amount |
| Transactions.RecordOf | src/com/litle/sdk/LitleBatchRequest.java:131-213 | an unrecognised kind is written as a generic element, every other kind as its own element |
| Transactions.Elems | src/com/litle/sdk/LitleBatchRequest.java:216 | the transactions a request file holds, in order, with the generic elements dropped; never more than its records |
| Transactions.CountsSumToLength | src/com/litle/sdk/LitleBatchRequest.java:131-210 | the category counts of a history of recognised transactions add up to its length |
| Transactions.CountInAll | src/com/litle/sdk/LitleBatchRequest.java:108-114 | a category's count equals the history's length exactly when every transaction is of that category |
| Transactions.CountInNone | src/com/litle/sdk/LitleBatchRequest.java:108-114 | a category's count is zero exactly when no transaction is of that category |
| LitleBatch.Batch.constructor | src/com/litle/sdk/LitleBatchRequest.java:59-85 | a batch within the ceiling starts with numOfTxn 0, every counter and sum zero, no request file and an empty history |
| LitleBatch.Batch.Create | src/com/litle/sdk/LitleBatchRequest.java:81-84 | construction succeeds exactly when the configured maximum is at most 100000, and then yields an empty batch |
| LitleBatch.Batch.NumberOfTransactions | src/com/litle/sdk/LitleBatchRequest.java:254-256 | for a batch whose counter was never set from outside, the number of counted transactions, equal to the sum of the category counts |
| LitleBatch.Batch.IsFull | src/com/litle/sdk/LitleBatchRequest.java:262-264 | while the file is not full, the batch is full exactly when the threshold check says BATCHFULL |
| LitleBatch.Batch.VerifyFileThresholds | src/com/litle/sdk/LitleBatchRequest.java:240-248 | FILEFULL exactly when the file is full; BATCHFULL exactly when it is not and the batch counter is at its maximum; never FAILURE |
| LitleBatch.Batch.AddTransaction | src/com/litle/sdk/LitleBatchRequest.java:98-233 | the new state and the outcome are those of BatchSpec.Add for the file total on entry; the file total moves with this batch's counter; the history grows by the transaction exactly when it is counted; the class invariant and the file's validity are kept |
| LitleBatch.Batch.Apply | src/com/litle/sdk/LitleBatchRequest.java:99-114 | opening the request file and the mixing rule, followed by the rest of the call, have the effect BatchSpec.Add gives |
| LitleBatch.Batch.CheckAndWrite | src/com/litle/sdk/LitleBatchRequest.java:116-232 | the pre-check, dispatch, write and status have the effect BatchSpec.Commit gives, the file total moves with this batch's counter, and a marshalling failure is recorded |
| LitleBatch.Batch.Report | src/com/litle/sdk/LitleBatchRequest.java:215-232 | a marshalling failure ends the call with nothing written; otherwise the record is appended and the status is BatchSpec.Status of the live totals; the file total is unchanged |
| LitleBatch.Batch.Dispatch | src/com/litle/sdk/LitleBatchRequest.java:131-213 | the counters become those of BatchSpec.Tally, the record is the kind's own element or a generic one, and the history grows exactly for a recognised kind |
| LitleBatch.Batch.SetNumOfTxn | src/com/litle/sdk/LitleBatchRequest.java:294-296 | only the counter changes, the file total moves by the difference, and the batch is from then on exempt from the counter-equals-history invariant |
| LitleBatch.TotalAfterUpdate | src/com/litle/sdk/LitleBatchRequest.java:241 | when only one batch's counter changed, the file total moved by exactly that change |
| LitleBatch.BatchFile.constructor | test/unit/com/litle/sdk/TestLitleBatchFileRequest.java:128-130 | a new file with the given maxima holds no batch, and is valid |
| LitleBatch.BatchFile.NumberOfBatches | test/unit/com/litle/sdk/TestLitleBatchFileRequest.java:62-67 | getNumberOfBatches: zero exactly when the file holds no batch |
| LitleBatch.BatchFile.TotalOfBatches | test/unit/com/litle/sdk/TestLitleBatchFileRequest.java:72-91 | getNumberOfTransactionInFile (NumberOfTransactionsInFile, the live sum of the batches' counters) is 0 for a file with no batch and never negative while no counter is |
| LitleBatch.BatchFile.IsEmpty | test/unit/com/litle/sdk/TestLitleBatchFileRequest.java:97-106 | isEmpty: while no counter is negative, the file is empty exactly when every one of its batches is |
| LitleBatch.BatchFile.IsFull | test/unit/com/litle/sdk/TestLitleBatchFileRequest.java:130-142 | isFull: for a file with batches, full exactly when the threshold check of every batch reports FILEFULL; a file with no batch is full exactly when its maximum is 0 |
| LitleBatch.BatchFile.CreateBatch | test/unit/com/litle/sdk/TestLitleBatchFileRequest.java:61-68 | appends one new empty batch bound to the file when the batch constructor accepts the maximum, and leaves the total unchanged |
| LitleBatch.BatchFile.Append | test/unit/com/litle/sdk/TestLitleBatchFileRequest.java:64-67 | appending an empty batch not yet in the file keeps the file valid, its untampered status and its total |
| Scenarios.CreateBatchCountsBatches | test/unit/com/litle/sdk/TestLitleBatchFileRequest.java:61-68 | a new file has no batches, and one after createBatch |
| Scenarios.TwoBatchesTotal | test/unit/com/litle/sdk/TestLitleBatchFileRequest.java:71-92 | two batches, each set to 1 and given three sales, make a file total of 8 |
| Scenarios.EmptyUntilFirstSale | test/unit/com/litle/sdk/TestLitleBatchFileRequest.java:95-107 | a new file is empty, and is not after one sale |
| Scenarios.FileFullAfterBackdoor | test/unit/com/litle/sdk/TestLitleBatchFileRequest.java:110-143 | with maxima 4, a batch set to 1 and given three sales makes the file full, the third sale returning FILEFULL |
| Scenarios.FourSalesFillFile | src/com/litle/sdk/LitleBatchRequest.java:116-123 | with maxima 4, three sales return SUCCESS, the fourth returns FILEFULL and fills both file and batch, and a fifth throws FileAlreadyFull |
| Scenarios.CeilingRefused | src/com/litle/sdk/LitleBatchRequest.java:81-84 | a configured maximum of 100000 is accepted and 100001 refused |
| Scenarios.FillTestBatch | test/unit/com/litle/sdk/TestLitleBatchFileRequest.java:74-80 | a batch created, set to 1 and given three sales adds four to the file total, the last sale reporting the post-write status |
| Scenarios.ThreeSales | src/com/litle/sdk/LitleBatchRequest.java:116-232 | with maxima 4, three sales into a fresh batch each return SUCCESS and leave the file not full |
| Scenarios.AddSale | src/com/litle/sdk/LitleBatchRequest.java:131-136 | a sale into a batch with no account updates, while neither the file nor the batch is at its maximum, bumps the counter and the file total by one and returns the post-write status |

## Left out

- JAXB marshalling (the context, the marshaller, the object factory) is a
  foreign library. A write appends a `Record` to the `written` sequence.
  Whether marshalling succeeds is the parameter `Io.marshalSucceeds`.
- File-system work is I/O: the temp folder, the timestamped file path,
  `FileOutputStream`, `closeFile` and `getFile`. A boolean `sinkOpen` records
  that a request file was opened. Whether it can be created is the
  parameter `Io.sinkCreatable`.
- Configuration parsing (`getProperty`, `Integer.parseInt`) is left out. The
  maxima are passed in as integers.
- The constructor's failure to load the JAXB context
  (src/com/litle/sdk/LitleBatchRequest.java:71-80) is a foreign-library
  failure and is not modelled.
- `getMarshaller`, `setMarshaller`, `getNumOfTxn` and `getBatchRequest` are
  trivial accessors. `getNumOfTxn` is the same read as
  `Batch.NumberOfTransactions`.
- `LitleBatchFileRequest` is not part of this model beyond its interface
  with its batches: the sequence of batches, the total, the per-file
  maximum and `createBatch`. Its configuration, its request-file assembly
  and its sending are left out.
- Integers are unbounded. `numOfTxn` is a Java `int`, the counters and sums
  are `BigInteger`, and the amounts are `long`. Wrap-around of `numOfTxn` is
  not modelled. A non-negative batch maximum (at most 100000) keeps the
  counter far from 2^31. A negative configured maximum is accepted by the
  constructor (src/com/litle/sdk/LitleBatchRequest.java:82 refuses only
  values above 100000) and never equals the counter, so then only the file
  maximum stops it; `setNumOfTxn` can also set any value.
- Amounts are unconstrained integers; the code never checks their sign.
- An absent amount is not modelled: every amount-carrying kind holds an
  `amount: int`. The code passes each amount getter straight to
  `BigInteger.valueOf` (src/com/litle/sdk/LitleBatchRequest.java:133, 139,
  145, 156, 162, 168, 174, 180, 186, 197). If the generated getter returns a
  boxed `Long` that is null, the call throws `NullPointerException` after
  the category count has risen and before `numOfTxn` has.
- A write with no request file open is not modelled as a failure. After
  `setNumOfTxn` the opening at src/com/litle/sdk/LitleBatchRequest.java:99-106
  is skipped, so the output stream is null when the marshaller is called
  (line 216). A real marshaller then throws an unchecked exception after the
  counters were bumped; the unit tests use a mocked marshaller
  (test/unit/com/litle/sdk/TestLitleBatchFileRequest.java:75-76). The model
  appends the record to `written` regardless, so `written` means nothing
  while `sinkOpen` is false.
- A null transaction is not modelled. The Java `instanceof` chain would send
  it to the generic branch.
- The generated `BatchRequest` counters start at zero in the model. Null
  counters on a fresh `BatchRequest` are not modelled.
- The relation between the request file and what has been marshalled into
  it is a sequence of records. The XML text is not modelled.
- LitleBatch.Batch.NumberOfTransactions: relates the counter to the history
  only for a batch whose counter was never set through `setNumOfTxn`. After
  that call the counter is arbitrary.
- LitleBatch.Batch.AddTransaction: keeps the bound and homogeneity
  invariants only for batches never touched by `setNumOfTxn`. The unit tests
  use that call, and it breaks them. The request file is tied to the history
  only while, in addition, no marshalling failure has ended a call: such a
  failure leaves a counted transaction with no record.
