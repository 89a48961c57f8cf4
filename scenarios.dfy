/** The batch-file unit tests, and the four-sale ceiling scenario, replayed
    against the model.  Every marshaller here succeeds (the tests mock it),
    and every request file can be created. */
module Scenarios {
  import opened Transactions
  import opened BatchSpec
  import opened LitleBatch

  const Ok := Io(true, true)

  /** One sale into a batch holding no account updates while neither the
      file nor the batch is at its maximum: it is counted, the file total
      goes up by one, and the call reports the post-write status. */
  method AddSale(b: Batch, amount: int) returns (r: Outcome)
    requires b.Inv() && b.file.Valid() && b in b.file.batches
    requires b.counts[AccountUpdates] == 0
    requires b.file.NumberOfTransactionsInFile() != b.file.maxTransactionsPerFile
    requires b.numOfTxn != b.maxTransactionsPerBatch
    modifies b
    ensures b.Inv() && b.file.Valid() && b.backdoorUsed == old(b.backdoorUsed)
    ensures b.numOfTxn == old(b.numOfTxn) + 1 && b.counts[AccountUpdates] == 0
    ensures b.file.NumberOfTransactionsInFile() == old(b.file.NumberOfTransactionsInFile()) + 1
    ensures r == Returned(Status(b.file.NumberOfTransactionsInFile(), b.file.maxTransactionsPerFile,
                                 b.numOfTxn, b.maxTransactionsPerBatch, true))
  {
    ghost var s := b.State();
    ghost var total := b.file.NumberOfTransactionsInFile();
    r := b.AddTransaction(Sale(amount), Ok);
    AddReturns(s, Sale(amount), total, b.file.maxTransactionsPerFile, b.maxTransactionsPerBatch, Ok);
    AddCounts(s, Sale(amount), total, b.file.maxTransactionsPerFile, b.maxTransactionsPerBatch, Ok);
  }

  /** A new file has no batches; createBatch adds one. */
  method CreateBatchCountsBatches() returns (before: nat, after: nat)
    ensures before == 0 && after == 1
  {
    var file := new BatchFile(1000, 500);
    before := file.NumberOfBatches();
    var created := file.CreateBatch("101");
    after := file.NumberOfBatches();
  }

  /** A configured per-batch maximum above the system ceiling is refused. */
  method CeilingRefused() returns (accepted: bool, refused: bool)
    ensures accepted && !refused
  {
    var file := new BatchFile(1000, 500);
    var atCeiling := Batch.Create("101", file, 100000);
    var aboveCeiling := Batch.Create("101", file, 100001);
    accepted, refused := atCeiling.Some?, aboveCeiling.Some?;
  }

  /** One batch as the tests fill it: created, its counter set to 1, then
      three sales; the file total goes up by four, and the last sale reports
      the status of the file and the batch after it. */
  method FillTestBatch(file: BatchFile) returns (b: Batch, last: Outcome)
    requires file.Valid() && 3 < file.maxTransactionsPerBatch <= LitleLimitMaxTransactionsPerBatch
    requires file.NumberOfTransactionsInFile() + 3 < file.maxTransactionsPerFile
    modifies file
    ensures file.Valid() && fresh(b) && file.batches == old(file.batches) + [b]
    ensures file.NumberOfTransactionsInFile() == old(file.NumberOfTransactionsInFile()) + 4
    ensures last == Returned(Status(file.NumberOfTransactionsInFile(), file.maxTransactionsPerFile,
                                    4, file.maxTransactionsPerBatch, true))
  {
    var c := file.CreateBatch("101");
    b := c.value;
    b.SetNumOfTxn(1);
    last := AddSale(b, 101);
    last := AddSale(b, 102);
    last := AddSale(b, 103);
  }

  /** Two batches, each with its counter set to 1 and then three sales:
      the file holds eight transactions in two batches. */
  method TwoBatchesTotal() returns (total: int, batches: nat)
    ensures total == 8 && batches == 2
  {
    var file := new BatchFile(1000, 500);
    var b1, r1 := FillTestBatch(file);
    var b2, r2 := FillTestBatch(file);
    total := file.NumberOfTransactionsInFile();
    batches := file.NumberOfBatches();
  }

  /** A new file is empty; after one sale it is not. */
  method EmptyUntilFirstSale() returns (emptyBefore: bool, emptyAfter: bool)
    ensures emptyBefore && !emptyAfter
  {
    var file := new BatchFile(1000, 500);
    emptyBefore := file.IsEmpty();
    var c := file.CreateBatch("101");
    var b := c.value;
    b.SetNumOfTxn(1);
    var r := AddSale(b, 101);
    emptyAfter := file.IsEmpty();
  }

  /** File and batch maximum 4; the counter set to 1 and three sales: the
      third sale is accepted and reports FILEFULL, and the file is full. */
  method FileFullAfterBackdoor() returns (fullBefore: bool, last: Outcome, fullAfter: bool)
    ensures !fullBefore && last == Returned(FileFull) && fullAfter
  {
    var file := new BatchFile(4, 4);
    fullBefore := file.IsFull();
    var b;
    b, last := FillTestBatch(file);
    fullAfter := file.IsFull();
  }

  /** File and batch maximum 4, three sales into a fresh batch: each
      succeeds, and the file is not yet full. */
  method ThreeSales() returns (file: BatchFile, b: Batch, early: seq<Outcome>, full: bool)
    ensures fresh(file) && fresh(b) && file.Valid() && b.Inv() && b in file.batches && b.file == file
    ensures file.maxTransactionsPerFile == 4 && b.maxTransactionsPerBatch == 4
    ensures b.numOfTxn == 3 && b.counts[AccountUpdates] == 0 && file.NumberOfTransactionsInFile() == 3
    ensures early == [Returned(Success), Returned(Success), Returned(Success)] && !full
  {
    file := new BatchFile(4, 4);
    var c := file.CreateBatch("101");
    b := c.value;
    var r1 := AddSale(b, 101);
    var r2 := AddSale(b, 102);
    var r3 := AddSale(b, 103);
    early := [r1, r2, r3];
    full := file.IsFull();
  }

  /** File and batch maximum 4, four sales into a fresh batch: the first
      three succeed and leave the file not full; the fourth is accepted and
      reports FILEFULL, the file holds four transactions and the batch is
      full; a fifth is refused before anything is counted. */
  method FourSalesFillFile() returns (early: seq<Outcome>, fullAfterThree: bool,
                                      fourth: Outcome, total: int, batchFull: bool,
                                      fifth: Outcome)
    ensures early == [Returned(Success), Returned(Success), Returned(Success)]
    ensures !fullAfterThree && fourth == Returned(FileFull) && total == 4 && batchFull
    ensures fifth == Thrown(FileAlreadyFull)
  {
    var file, b;
    file, b, early, fullAfterThree := ThreeSales();
    fourth := AddSale(b, 104);
    total := file.NumberOfTransactionsInFile();
    batchFull := b.IsFull();
    ghost var s := b.State();
    fifth := b.AddTransaction(Sale(105), Ok);
    PrecheckRefuses(s, Sale(105), 4, 4, 4, Ok);
  }
}
