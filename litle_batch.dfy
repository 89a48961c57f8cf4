/** `LitleBatchRequest` as a class whose `AddTransaction` updates its fields in
    place, proved against `BatchSpec.Add`; and the batch file it belongs to,
    modelled only at the interface a batch sees: its ordered batches, its
    live transaction total (the sum of its batches' counters) and its
    per-file maximum. */
module LitleBatch {
  import opened Transactions
  import opened BatchSpec

  /** The counters of a sequence of batches, in order. */
  function TxnCounts(bs: seq<Batch>): (r: seq<int>)
    reads bs`numOfTxn
    ensures |r| == |bs|
  {
    if bs == [] then [] else TxnCounts(bs[..|bs| - 1]) + [bs[|bs| - 1].numOfTxn]
  }

  /** Position i of the counters is batch i's counter. */
  lemma {:induction false} TxnCountsAt(bs: seq<Batch>)
    ensures forall i :: 0 <= i < |bs| ==> TxnCounts(bs)[i] == bs[i].numOfTxn
  {
    if bs != [] {
      TxnCountsAt(bs[..|bs| - 1]);
    }
  }

  /** Appending a batch appends its counter, and adds it to the total. */
  lemma TotalAfterAppend(bs: seq<Batch>, b: Batch)
    ensures TxnCounts(bs + [b]) == TxnCounts(bs) + [b.numOfTxn]
    ensures SumInts(TxnCounts(bs + [b])) == SumInts(TxnCounts(bs)) + b.numOfTxn
  {
    assert (bs + [b])[..|bs|] == bs;
    assert (TxnCounts(bs) + [b.numOfTxn])[..|bs|] == TxnCounts(bs);
  }

  /** The sum of a sequence of counters. */
  function SumInts(xs: seq<int>): int
  {
    if xs == [] then 0 else SumInts(xs[..|xs| - 1]) + xs[|xs| - 1]
  }

  /** Replacing one element of a sequence moves its sum by the difference. */
  lemma {:induction false} SumIntsUpdate(xs: seq<int>, i: int, v: int)
    requires 0 <= i < |xs|
    ensures SumInts(xs[i := v]) == SumInts(xs) + v - xs[i]
  {
    var ys := xs[i := v];
    if i < |xs| - 1 {
      assert ys[..|ys| - 1] == xs[..|xs| - 1][i := v];
      SumIntsUpdate(xs[..|xs| - 1], i, v);
    } else {
      assert ys[..|ys| - 1] == xs[..|xs| - 1];
    }
  }

  /** A sum of non-negative numbers is zero exactly when every one is. */
  lemma {:induction false} SumIntsZero(xs: seq<int>)
    ensures (forall i :: 0 <= i < |xs| ==> 0 <= xs[i]) ==>
              (SumInts(xs) == 0 <==> forall i :: 0 <= i < |xs| ==> xs[i] == 0)
  {
    if xs != [] && forall i :: 0 <= i < |xs| ==> 0 <= xs[i] {
      var p := xs[..|xs| - 1];
      SumIntsZero(p);
      SumIntsNonNegative(p);
    }
  }

  /** A sum of non-negative numbers is non-negative. */
  lemma {:induction false} SumIntsNonNegative(xs: seq<int>)
    ensures (forall i :: 0 <= i < |xs| ==> 0 <= xs[i]) ==> 0 <= SumInts(xs)
  {
    if xs != [] && forall i :: 0 <= i < |xs| ==> 0 <= xs[i] {
      SumIntsNonNegative(xs[..|xs| - 1]);
    }
  }

  /** The batch at position i.  Distinctness is stated through it so that
      its pairwise quantifier is used only where a proof names a position. */
  ghost function At(bs: seq<Batch>, i: int): Batch
    requires 0 <= i < |bs|
  {
    bs[i]
  }

  /** No batch appears twice in the file. */
  ghost predicate Distinct(bs: seq<Batch>)
  {
    forall i, j :: 0 <= i < j < |bs| ==> At(bs, i) != At(bs, j)
  }

  /** Appending a batch not yet in the file keeps the batches distinct. */
  lemma DistinctAppend(bs: seq<Batch>, b: Batch)
    requires Distinct(bs) && b !in bs
    ensures Distinct(bs + [b])
  {
    var cs := bs + [b];
    forall i, j | 0 <= i < j < |cs| ensures At(cs, i) != At(cs, j) {
      if j < |bs| {
        assert At(bs, i) != At(bs, j);
      } else {
        assert cs[i] == bs[i];
      }
    }
  }

  /** If the batches' counters were `before` and since then only the counter
      of batch i has changed, the total has moved by exactly what that
      counter moved. */
  lemma TotalAfterUpdate(bs: seq<Batch>, i: int, before: seq<int>)
    requires Distinct(bs) && 0 <= i < |bs| && |before| == |bs|
    requires forall j :: 0 <= j < |bs| && bs[j] != bs[i] ==> before[j] == bs[j].numOfTxn
    ensures SumInts(TxnCounts(bs)) == SumInts(before) + bs[i].numOfTxn - before[i]
  {
    TxnCountsAt(bs);
    forall j | 0 <= j < |bs| && j != i
      ensures before[j] == bs[j].numOfTxn
    {
      if j < i { assert At(bs, j) != At(bs, i); } else { assert At(bs, i) != At(bs, j); }
    }
    assert TxnCounts(bs) == before[i := bs[i].numOfTxn];
    SumIntsUpdate(before, i, bs[i].numOfTxn);
  }

  class Batch {
    const merchantId: string
    const file: BatchFile
    const maxTransactionsPerBatch: int

    var numOfTxn: int
    var counts: map<Category, int>
    var amounts: map<Category, int>
    var sinkOpen: bool
    var written: seq<Record>

    /** The transactions counted so far, in order. */
    ghost var accepted: seq<Transaction>
    /** Whether the counter has ever been set from outside. */
    ghost var backdoorUsed: bool
    /** Whether a marshalling failure has ever ended a call. */
    ghost var writeFailed: bool

    function State(): BatchState
      reads this
    {
      BatchState(numOfTxn, counts, amounts, sinkOpen, written)
    }

    ghost predicate Inv()
      reads this
    {
      Invariant(State(), accepted, maxTransactionsPerBatch, backdoorUsed, writeFailed)
    }

    /** The successful half of the Java constructor: a batch whose configured
        maximum is within the system ceiling, with zeroed counters. */
    constructor (merchantId: string, file: BatchFile, maxTransactionsPerBatch: int)
      requires maxTransactionsPerBatch <= LitleLimitMaxTransactionsPerBatch
      ensures this.merchantId == merchantId && this.file == file
      ensures this.maxTransactionsPerBatch == maxTransactionsPerBatch
      ensures State() == Initial() && accepted == [] && !backdoorUsed && !writeFailed
      ensures Inv()
    {
      this.merchantId := merchantId;
      this.file := file;
      this.maxTransactionsPerBatch := maxTransactionsPerBatch;
      var s := Initial();
      numOfTxn, counts, amounts, sinkOpen, written := s.numOfTxn, s.counts, s.amounts, s.sinkOpen, s.written;
      accepted := [];
      backdoorUsed := false;
      writeFailed := false;
    }

    /** The Java constructor: it fails when the configured maximum exceeds
        the system ceiling, and otherwise yields an empty batch. */
    static method Create(merchantId: string, file: BatchFile, maxTransactionsPerBatch: int)
      returns (r: Option<Batch>)
      ensures r.Some? <==> maxTransactionsPerBatch <= LitleLimitMaxTransactionsPerBatch
      ensures r.Some? ==>
        && fresh(r.value) && r.value.Inv()
        && r.value.file == file && r.value.merchantId == merchantId
        && r.value.maxTransactionsPerBatch == maxTransactionsPerBatch
        && r.value.State() == Initial() && r.value.accepted == [] && !r.value.backdoorUsed
        && !r.value.writeFailed
    {
      if maxTransactionsPerBatch > LitleLimitMaxTransactionsPerBatch {
        return None;
      }
      var b := new Batch(merchantId, file, maxTransactionsPerBatch);
      return Some(b);
    }

    /** `getNumberOfTransactions`: for a batch whose counter was never set
        from outside, the number of counted transactions, which is also the
        sum of the category counts. */
    function NumberOfTransactions(): (n: int)
      requires Inv()
      reads this
      ensures !backdoorUsed ==> n == |accepted| && n == SumCounts(counts)
    {
      CountMatchesHistory();
      numOfTxn
    }

    lemma CountMatchesHistory()
      requires Inv()
      ensures !backdoorUsed ==> numOfTxn == |accepted| && numOfTxn == SumCounts(counts)
    {
      if !backdoorUsed {
        CountSumOfHistory(State(), accepted);
      }
    }

    /** `isFull`, and how it relates to the threshold check: when the file is
        not full, the batch is full exactly when the check says BATCHFULL. */
    function IsFull(): (full: bool)
      reads this, file, file.batches`numOfTxn
      ensures !file.IsFull() ==> (full <==> VerifyFileThresholds() == BatchFull)
    {
      numOfTxn == maxTransactionsPerBatch
    }

    /** `verifyFileThresholds`, on the file's live total. */
    function VerifyFileThresholds(): (r: Code)
      reads this, file, file.batches`numOfTxn
      ensures r == FileFull <==> file.IsFull()
      ensures r == BatchFull <==> !file.IsFull() && numOfTxn == maxTransactionsPerBatch
      ensures r != Failure
    {
      Thresholds(file.NumberOfTransactionsInFile(), file.maxTransactionsPerFile,
                 numOfTxn, maxTransactionsPerBatch)
    }

    /** `addTransaction`: the new state and the outcome are those `BatchSpec.Add`
        gives for the file total on entry; the file total moves with this
        batch's counter, the history grows by the transaction exactly when it
        is counted, and both invariants are kept. */
    method AddTransaction(t: Transaction, io: Io) returns (r: Outcome)
      requires Inv() && file.Valid() && this in file.batches
      modifies this
      ensures Inv() && file.Valid()
      ensures var step := Add(old(State()), t, old(file.NumberOfTransactionsInFile()),
                              file.maxTransactionsPerFile, maxTransactionsPerBatch, io);
        State() == step.state && r == step.outcome
      ensures accepted == Accept(old(accepted),
                                 Counted(old(State()), t, old(file.NumberOfTransactionsInFile()),
                                         file.maxTransactionsPerFile, maxTransactionsPerBatch, io), t)
      ensures backdoorUsed == old(backdoorUsed)
      ensures writeFailed == (old(writeFailed) || r == Thrown(MarshalFailed))
      ensures file.NumberOfTransactionsInFile() == old(file.NumberOfTransactionsInFile()) + (numOfTxn - old(numOfTxn))
    {
      ghost var s0, h0 := State(), accepted;
      ghost var total0 := file.NumberOfTransactionsInFile();
      ghost var fileMax, batchMax := file.maxTransactionsPerFile, maxTransactionsPerBatch;
      r := Apply(t, io);
      AddKeepsInvariant(s0, h0, old(backdoorUsed), old(writeFailed), t, total0, fileMax, batchMax, io);
      AddKeepsBounds(s0, t, total0, fileMax, batchMax, io);
    }

    /** The body of `addTransaction`, proved against `BatchSpec.Add`: open a
        new request file for an empty batch, apply the mixing rule, then
        `CheckAndWrite`. */
    method Apply(t: Transaction, io: Io) returns (r: Outcome)
      requires WellFormed(State()) && Distinct(file.batches) && this in file.batches
      modifies this
      ensures var step := Add(old(State()), t, old(file.NumberOfTransactionsInFile()),
                              file.maxTransactionsPerFile, maxTransactionsPerBatch, io);
        State() == step.state && r == step.outcome
      ensures accepted == Accept(old(accepted),
                                 Counted(old(State()), t, old(file.NumberOfTransactionsInFile()),
                                         file.maxTransactionsPerFile, maxTransactionsPerBatch, io), t)
      ensures backdoorUsed == old(backdoorUsed)
      ensures writeFailed == (old(writeFailed) || r == Thrown(MarshalFailed))
      ensures file.NumberOfTransactionsInFile() == old(file.NumberOfTransactionsInFile()) + (numOfTxn - old(numOfTxn))
    {
      ghost var s0 := State();
      ghost var total0 := file.NumberOfTransactionsInFile();
      if numOfTxn == 0 && !io.sinkCreatable {
        r := Thrown(SinkNotCreatable);
      } else {
        if numOfTxn == 0 {
          sinkOpen := true;
          written := [];
        }
        assert State() == Opened(s0);
        assert file.NumberOfTransactionsInFile() == total0;
        if numOfTxn > 0 && counts[AccountUpdates] != numOfTxn && t.AccountUpdate? {
          r := Thrown(AccountUpdateInMixedBatch);
        } else if numOfTxn > 0 && counts[AccountUpdates] == numOfTxn && !t.AccountUpdate? {
          r := Thrown(NonAccountUpdateInAccountUpdateBatch);
        } else {
          assert MixingError(Opened(s0), t).None?;
          r := CheckAndWrite(t, io);
        }
      }
    }

    /** The part of `addTransaction` after the sink is open and the mixing
        rule is met, proved against `BatchSpec.Commit` for the file total on
        entry: the file total moves with this batch's counter, and the
        history grows by the transaction exactly when it is tallied. */
    method CheckAndWrite(t: Transaction, io: Io) returns (r: Outcome)
      requires WellFormed(State()) && Distinct(file.batches) && this in file.batches
      modifies this
      ensures var step := Commit(old(State()), t, old(file.NumberOfTransactionsInFile()),
                                           file.maxTransactionsPerFile, maxTransactionsPerBatch, io);
        State() == step.state && r == step.outcome
      ensures accepted ==
        if Thresholds(old(file.NumberOfTransactionsInFile()), file.maxTransactionsPerFile,
                      old(numOfTxn), maxTransactionsPerBatch) == Success && !t.Unrecognised?
        then old(accepted) + [t] else old(accepted)
      ensures backdoorUsed == old(backdoorUsed)
      ensures writeFailed == (old(writeFailed) || r == Thrown(MarshalFailed))
      ensures file.NumberOfTransactionsInFile() == old(file.NumberOfTransactionsInFile()) + (numOfTxn - old(numOfTxn))
    {
      ghost var s1 := State();
      ghost var before := TxnCounts(file.batches);
      TxnCountsAt(file.batches);
      ghost var i :| 0 <= i < |file.batches| && file.batches[i] == this;
      ghost var total1 := file.NumberOfTransactionsInFile();
      assert total1 == SumInts(before);
      ghost var step := Commit(s1, t, total1, file.maxTransactionsPerFile, maxTransactionsPerBatch, io);
      var status := VerifyFileThresholds();
      assert status == Thresholds(total1, file.maxTransactionsPerFile, s1.numOfTxn, maxTransactionsPerBatch);
      if status == FileFull {
        r := Thrown(FileAlreadyFull);
      } else if status == BatchFull {
        r := Thrown(BatchAlreadyFull);
      } else {
        var record, transactionAdded := Dispatch(t);
        TotalAfterUpdate(file.batches, i, before);
        ghost var s2 := State();
        ghost var total2 := file.NumberOfTransactionsInFile();
        assert total2 == SumInts(before) + (numOfTxn - s1.numOfTxn);
        r := Report(record, transactionAdded, io);
        assert r == step.outcome;
      }
    }

    /** The write and the status after the dispatch: a marshalling failure
        ends the call and writes nothing; otherwise the record is appended
        and the status is chosen from the live totals. */
    method Report(record: Record, added: bool, io: Io) returns (r: Outcome)
      modifies this
      ensures !io.marshalSucceeds ==>
        State() == old(State()) && r == Thrown(MarshalFailed) && writeFailed
      ensures io.marshalSucceeds ==>
        && State() == old(State()).(written := old(written) + [record])
        && r == Returned(Status(file.NumberOfTransactionsInFile(), file.maxTransactionsPerFile,
                                numOfTxn, maxTransactionsPerBatch, added))
        && writeFailed == old(writeFailed)
      ensures accepted == old(accepted) && backdoorUsed == old(backdoorUsed)
      ensures file.NumberOfTransactionsInFile() == old(file.NumberOfTransactionsInFile())
    {
      if !io.marshalSucceeds {
        r := Thrown(MarshalFailed);
        writeFailed := true;
      } else {
        written := written + [record];
        var status := VerifyFileThresholds();
        if status == FileFull {
          r := Returned(FileFull);
        } else if status == BatchFull {
          r := Returned(BatchFull);
        } else if added {
          r := Returned(Success);
        } else {
          r := Returned(Failure);
        }
      }
    }

    /** The dispatch over the transaction kinds: a recognised kind bumps its
        category counter, its amount sum if it carries one, and numOfTxn, and
        is marshalled as its own element; any other kind is marshalled as a
        generic element and counted nowhere. */
    method Dispatch(t: Transaction) returns (record: Record, added: bool)
      requires WellFormed(State())
      modifies this
      ensures State() == Tally(old(State()), t)
      ensures record == RecordOf(t) && added == !t.Unrecognised?
      ensures accepted == if added then old(accepted) + [t] else old(accepted)
      ensures backdoorUsed == old(backdoorUsed) && writeFailed == old(writeFailed)
    {
      match CategoryOf(t) {
        case Some(c) =>
          counts := counts[c := counts[c] + 1];
          match AmountOf(t) {
            case Some(a) => amounts := amounts[c := amounts[c] + a];
            case None =>
          }
          record := Element(t);
          added := true;
          numOfTxn := numOfTxn + 1;
          accepted := accepted + [t];
        case None =>
          record := GenericElement;
          added := false;
      }
    }

    /** `setNumOfTxn`: overwrites the counter; the batch is from then on
        exempt from the invariants that tie the counter to its history. */
    method SetNumOfTxn(n: int)
      requires Inv() && file.Valid() && this in file.batches
      modifies this
      ensures Inv() && file.Valid() && backdoorUsed
      ensures State() == old(State()).(numOfTxn := n) && accepted == old(accepted)
      ensures writeFailed == old(writeFailed)
      ensures file.NumberOfTransactionsInFile() == old(file.NumberOfTransactionsInFile()) + (n - old(numOfTxn))
    {
      ghost var before := TxnCounts(file.batches);
      TxnCountsAt(file.batches);
      ghost var i :| 0 <= i < |file.batches| && file.batches[i] == this;
      numOfTxn := n;
      backdoorUsed := true;
      TotalAfterUpdate(file.batches, i, before);
    }
  }

  /** The batch file, at its interface with its batches. */
  class BatchFile {
    const maxTransactionsPerFile: int
    /** The configured per-batch maximum handed to every new batch. */
    const maxTransactionsPerBatch: int
    var batches: seq<Batch>

    /** No batch counter was ever set from outside. */
    ghost predicate Untampered()
      reads this, batches
    {
      forall b :: b in batches ==> !b.backdoorUsed
    }

    /** The batches are distinct and bound to this file; while none was
        tampered with, the total is non-negative and within a non-negative
        file maximum. */
    ghost predicate Valid()
      reads this, batches
    {
      && Distinct(batches)
      && (forall b :: b in batches ==> b.file == this)
      && (Untampered() ==> 0 <= NumberOfTransactionsInFile())
      && (Untampered() && 0 <= maxTransactionsPerFile ==> NumberOfTransactionsInFile() <= maxTransactionsPerFile)
    }

    constructor (maxTransactionsPerFile: int, maxTransactionsPerBatch: int)
      ensures this.maxTransactionsPerFile == maxTransactionsPerFile
      ensures this.maxTransactionsPerBatch == maxTransactionsPerBatch
      ensures batches == [] && Valid()
    {
      this.maxTransactionsPerFile := maxTransactionsPerFile;
      this.maxTransactionsPerBatch := maxTransactionsPerBatch;
      batches := [];
    }

    /** `getNumberOfBatches`: one per successful `createBatch`. */
    function NumberOfBatches(): (n: nat)
      reads this
      ensures n == 0 <==> batches == []
    {
      |batches|
    }

    /** `getNumberOfTransactionInFile`: the live sum of the batches'
        counters. */
    function NumberOfTransactionsInFile(): int
      reads this, batches`numOfTxn
    {
      SumInts(TxnCounts(batches))
    }

    /** A file with no batch holds no transaction, and the total is never
        negative while no counter is. */
    lemma TotalOfBatches()
      ensures batches == [] ==> NumberOfTransactionsInFile() == 0
      ensures (forall b :: b in batches ==> 0 <= b.numOfTxn) ==> 0 <= NumberOfTransactionsInFile()
    {
      TxnCountsAt(batches);
      SumIntsNonNegative(TxnCounts(batches));
    }

    /** `isEmpty`: while no counter is negative, the file is empty exactly
        when every one of its batches is. */
    function IsEmpty(): (empty: bool)
      reads this, batches`numOfTxn
      ensures (forall b :: b in batches ==> 0 <= b.numOfTxn) ==>
                (empty <==> forall b :: b in batches ==> b.numOfTxn == 0)
    {
      TxnCountsAt(batches);
      SumIntsZero(TxnCounts(batches));
      NumberOfTransactionsInFile() == 0
    }

    /** `isFull`: the file total has reached the file maximum, so that the
        threshold check of every batch reports FILEFULL. */
    function IsFull(): (full: bool)
      reads this, batches`numOfTxn
      ensures batches != [] ==> (full <==> forall b :: b in batches ==>
        Thresholds(NumberOfTransactionsInFile(), maxTransactionsPerFile, b.numOfTxn, b.maxTransactionsPerBatch) == FileFull)
      ensures batches == [] ==> (full <==> maxTransactionsPerFile == 0)
    {
      NumberOfTransactionsInFile() == maxTransactionsPerFile
    }

    /** `createBatch`: appends a new empty batch bound to this file, unless
        the batch constructor rejects the configured maximum; the total is
        unchanged either way. */
    method CreateBatch(merchantId: string) returns (r: Option<Batch>)
      requires Valid()
      modifies this
      ensures Valid() && Untampered() == old(Untampered())
      ensures r.Some? <==> maxTransactionsPerBatch <= LitleLimitMaxTransactionsPerBatch
      ensures r.Some? ==>
        && fresh(r.value) && batches == old(batches) + [r.value]
        && r.value.Inv() && r.value.file == this && r.value.merchantId == merchantId
        && r.value.maxTransactionsPerBatch == maxTransactionsPerBatch
        && r.value.State() == Initial() && r.value.accepted == [] && !r.value.backdoorUsed
        && !r.value.writeFailed
      ensures r.None? ==> batches == old(batches)
      ensures NumberOfTransactionsInFile() == old(NumberOfTransactionsInFile())
    {
      ghost var total := NumberOfTransactionsInFile();
      r := Batch.Create(merchantId, this, maxTransactionsPerBatch);
      assert NumberOfTransactionsInFile() == total;
      if r.Some? {
        Append(r.value);
      }
    }

    /** Appends an empty batch bound to this file and not yet in it. */
    method Append(b: Batch)
      requires Valid() && b !in batches && b.file == this && b.numOfTxn == 0 && !b.backdoorUsed
      modifies this
      ensures batches == old(batches) + [b]
      ensures Valid() && Untampered() == old(Untampered())
      ensures NumberOfTransactionsInFile() == old(NumberOfTransactionsInFile())
    {
      DistinctAppend(batches, b);
      TotalAfterAppend(batches, b);
      batches := batches + [b];
      assert forall x :: x in batches ==> x in old(batches) || x == b;
    }
  }
}
