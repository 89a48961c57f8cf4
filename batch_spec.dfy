/** The effect of one `addTransaction` call on a batch, as a function of the
    batch's state, the file's live transaction total, the two ceilings and
    the outcome of the two I/O steps; and what that effect guarantees. */
module BatchSpec {
  import opened Transactions

  /** The hard system ceiling on a configured per-batch maximum. */
  const LitleLimitMaxTransactionsPerBatch: int := 100000

  /** `TransactionCodeEnum`: the statuses a call returns. */
  datatype Code = FileFull | BatchFull | Success | Failure

  /** The exceptions a call throws. */
  datatype Error =
    | SinkNotCreatable                        // FileNotFoundException on opening the request file
    | AccountUpdateInMixedBatch               // account update into a batch holding other kinds
    | NonAccountUpdateInAccountUpdateBatch    // other kind into an account-update batch
    | FileAlreadyFull                         // LitleBatchFileFullException
    | BatchAlreadyFull                        // LitleBatchBatchFullException
    | MarshalFailed                           // JAXBException while marshalling

  datatype Outcome = Returned(code: Code) | Thrown(error: Error)

  /** Whether each I/O step of the call succeeds: creating the request file
      (attempted only when the batch is empty on entry) and marshalling. */
  datatype Io = Io(sinkCreatable: bool, marshalSucceeds: bool)

  /** The batch's mutable state: the transaction counter, the batch request's
      per-category counters and amount sums, whether a request file has been
      opened, and the records the current request file holds. */
  datatype BatchState = BatchState(
    numOfTxn: int,
    counts: map<Category, int>,
    amounts: map<Category, int>,
    sinkOpen: bool,
    written: seq<Record>)

  datatype Step = Step(state: BatchState, outcome: Outcome)

  predicate WellFormed(s: BatchState)
  {
    Total(s.counts) && Total(s.amounts)
  }

  /** The state of a freshly constructed batch. */
  function Initial(): (s: BatchState)
    ensures WellFormed(s) && s.numOfTxn == 0 && !s.sinkOpen && s.written == []
    ensures forall c: Category :: s.counts[c] == 0 && s.amounts[c] == 0
  {
    ZeroIsTotal();
    BatchState(0, Zero, Zero, false, [])
  }

  /** `verifyFileThresholds`: the file ceiling first, then the batch ceiling,
      each an equality test. */
  function Thresholds(fileTotal: int, fileMax: int, numOfTxn: int, batchMax: int): (r: Code)
    ensures r == FileFull <==> fileTotal == fileMax
    ensures r == BatchFull <==> fileTotal != fileMax && numOfTxn == batchMax
    ensures r == Success <==> fileTotal != fileMax && numOfTxn != batchMax
  {
    if fileTotal == fileMax then FileFull
    else if numOfTxn == batchMax then BatchFull
    else Success
  }

  /** A new request file is opened (and truncated) when the batch is empty. */
  function Opened(s: BatchState): (r: BatchState)
    ensures SameCounters(r, s)
    ensures s.numOfTxn == 0 ==> r.sinkOpen && r.written == []
    ensures s.numOfTxn != 0 ==> r == s
  {
    if s.numOfTxn == 0 then s.(sinkOpen := true, written := []) else s
  }

  /** The mixing rule, derived from the counters: in a non-empty batch, an
      account update is refused unless every transaction so far is one, and
      any other kind is refused if every transaction so far is one. */
  function MixingError(s: BatchState, t: Transaction): (r: Option<Error>)
    requires WellFormed(s)
    ensures r.None? <==> s.numOfTxn <= 0 || (t.AccountUpdate? <==> s.counts[AccountUpdates] == s.numOfTxn)
    ensures r == Some(AccountUpdateInMixedBatch) ==> t.AccountUpdate?
    ensures r == Some(NonAccountUpdateInAccountUpdateBatch) ==> !t.AccountUpdate?
  {
    if s.numOfTxn > 0 && s.counts[AccountUpdates] != s.numOfTxn && t.AccountUpdate? then
      Some(AccountUpdateInMixedBatch)
    else if s.numOfTxn > 0 && s.counts[AccountUpdates] == s.numOfTxn && !t.AccountUpdate? then
      Some(NonAccountUpdateInAccountUpdateBatch)
    else None
  }

  /** The dispatch: a recognised kind bumps the transaction counter and its
      category counter, and adds its amount if it carries one. */
  function Tally(s: BatchState, t: Transaction): (r: BatchState)
    requires WellFormed(s)
    ensures WellFormed(r)
    ensures r.sinkOpen == s.sinkOpen && r.written == s.written
    ensures r.numOfTxn == s.numOfTxn + (if t.Unrecognised? then 0 else 1)
  {
    match CategoryOf(t)
    case None => s
    case Some(c) =>
      s.(numOfTxn := s.numOfTxn + 1,
         counts := s.counts[c := s.counts[c] + 1],
         amounts := match AmountOf(t)
                    case None => s.amounts
                    case Some(a) => s.amounts[c := s.amounts[c] + a])
  }

  /** The status chosen after the write, from the live totals. */
  function Status(fileTotal: int, fileMax: int, numOfTxn: int, batchMax: int, added: bool): (r: Code)
    ensures r == FileFull <==> fileTotal == fileMax
    ensures r == BatchFull <==> fileTotal != fileMax && numOfTxn == batchMax
    ensures r == Success <==> fileTotal != fileMax && numOfTxn != batchMax && added
    ensures r == Failure <==> fileTotal != fileMax && numOfTxn != batchMax && !added
  {
    var post := Thresholds(fileTotal, fileMax, numOfTxn, batchMax);
    if post == Success then (if added then Success else Failure) else post
  }

  /** The part of one `addTransaction` call after the sink is open and the
      mixing rule is met: the threshold check, the tally, the write and the
      status.  `fileTotal` is the file's transaction total on entry (it
      includes this batch's `numOfTxn`); after the tally the file total has
      moved by exactly what this batch's counter moved. */
  function Commit(s: BatchState, t: Transaction, fileTotal: int, fileMax: int, batchMax: int, io: Io): (r: Step)
    requires WellFormed(s)
    ensures WellFormed(r.state) && r.state.sinkOpen == s.sinkOpen
    ensures r.outcome.Returned? ==> r.state.written == s.written + [RecordOf(t)]
    ensures r.outcome.Thrown? ==> r.state.written == s.written
  {
    var pre := Thresholds(fileTotal, fileMax, s.numOfTxn, batchMax);
    if pre == FileFull then Step(s, Thrown(FileAlreadyFull))
    else if pre == BatchFull then Step(s, Thrown(BatchAlreadyFull))
    else
      var s2 := Tally(s, t);
      if !io.marshalSucceeds then Step(s2, Thrown(MarshalFailed))
      else
        var s3 := s2.(written := s2.written + [RecordOf(t)]);
        var code := Status(fileTotal + (s3.numOfTxn - s.numOfTxn), fileMax, s3.numOfTxn,
                           batchMax, CategoryOf(t).Some?);
        Step(s3, Returned(code))
  }

  /** One `addTransaction` call: the sink is opened for an empty batch, the
      mixing rule is checked, and the rest is `Commit`. */
  function Add(s: BatchState, t: Transaction, fileTotal: int, fileMax: int, batchMax: int, io: Io): (r: Step)
    requires WellFormed(s)
    ensures WellFormed(r.state)
    ensures r.outcome == Thrown(SinkNotCreatable) <==> s.numOfTxn == 0 && !io.sinkCreatable
    ensures r.outcome == Thrown(SinkNotCreatable) ==> r.state == s
    ensures r.outcome != Thrown(SinkNotCreatable) ==> r.state.sinkOpen == (s.sinkOpen || s.numOfTxn == 0)
  {
    if s.numOfTxn == 0 && !io.sinkCreatable then Step(s, Thrown(SinkNotCreatable))
    else
      var s1 := Opened(s);
      match MixingError(s1, t)
      case Some(e) => Step(s1, Thrown(e))
      case None => Commit(s1, t, fileTotal, fileMax, batchMax, io)
  }

  /** All the checks before the dispatch pass. */
  predicate Admits(s: BatchState, t: Transaction, fileTotal: int, fileMax: int, batchMax: int, io: Io)
    requires WellFormed(s)
  {
    (s.numOfTxn != 0 || io.sinkCreatable)
    && MixingError(s, t).None?
    && Thresholds(fileTotal, fileMax, s.numOfTxn, batchMax) == Success
  }

  /** The call counts the transaction: the checks pass and its kind is recognised. */
  predicate Counted(s: BatchState, t: Transaction, fileTotal: int, fileMax: int, batchMax: int, io: Io)
    requires WellFormed(s)
  {
    Admits(s, t, fileTotal, fileMax, batchMax, io) && !t.Unrecognised?
  }

  /** The counters and sums of a state. */
  predicate SameCounters(a: BatchState, b: BatchState)
  {
    a.numOfTxn == b.numOfTxn && a.counts == b.counts && a.amounts == b.amounts
  }

  /** The history of accepted transactions after one call. */
  function Accept(h: seq<Transaction>, counted: bool, t: Transaction): seq<Transaction>
  {
    if counted then h + [t] else h
  }

  // ---------------------------------------------------------------------
  // Per-call properties
  // ---------------------------------------------------------------------

  /** A call changes the counters exactly when it counts the transaction, and
      then by exactly one: numOfTxn and the transaction's own category count
      go up by one, its amount sum by its amount if it carries one, and every
      other count and sum is unchanged. */
  lemma AddCounts(s: BatchState, t: Transaction, fileTotal: int, fileMax: int, batchMax: int, io: Io)
    requires WellFormed(s)
    ensures var r := Add(s, t, fileTotal, fileMax, batchMax, io).state;
      if Counted(s, t, fileTotal, fileMax, batchMax, io) then
        var c := CategoryOf(t).value;
        && r.numOfTxn == s.numOfTxn + 1
        && r.counts[c] == s.counts[c] + 1
        && r.amounts[c] == s.amounts[c] + (if CarriesAmount(c) then t.amount else 0)
        && (forall d: Category :: d != c ==> r.counts[d] == s.counts[d] && r.amounts[d] == s.amounts[d])
      else SameCounters(r, s)
  {
    AddTallies(s, t, fileTotal, fileMax, batchMax, io);
  }

  /** The counters after a call are those of the tally when the call counts
      the transaction, and the ones on entry otherwise. */
  lemma AddTallies(s: BatchState, t: Transaction, fileTotal: int, fileMax: int, batchMax: int, io: Io)
    requires WellFormed(s)
    ensures SameCounters(Add(s, t, fileTotal, fileMax, batchMax, io).state,
                         if Counted(s, t, fileTotal, fileMax, batchMax, io) then Tally(s, t) else s)
  {
    if s.numOfTxn != 0 || io.sinkCreatable {
      var s1 := Opened(s);
      assert MixingError(s1, t) == MixingError(s, t);
      if MixingError(s, t).None? && Thresholds(fileTotal, fileMax, s.numOfTxn, batchMax) == Success {
        TallyOnCounters(s1, s, t);
      }
    }
  }

  /** The tally reads and writes the counters only. */
  lemma TallyOnCounters(a: BatchState, b: BatchState, t: Transaction)
    requires WellFormed(a) && WellFormed(b) && SameCounters(a, b)
    ensures SameCounters(Tally(a, t), Tally(b, t))
    ensures Tally(a, t).sinkOpen == a.sinkOpen && Tally(a, t).written == a.written
  {
  }

  /** numOfTxn equals the sum of the category counts, and stays so. */
  lemma AddKeepsCountSum(s: BatchState, t: Transaction, fileTotal: int, fileMax: int, batchMax: int, io: Io)
    requires WellFormed(s) && s.numOfTxn == SumCounts(s.counts)
    ensures var r := Add(s, t, fileTotal, fileMax, batchMax, io).state;
      r.numOfTxn == SumCounts(r.counts)
  {
    AddCountsMap(s, t, fileTotal, fileMax, batchMax, io);
    if Counted(s, t, fileTotal, fileMax, batchMax, io) {
      SumCountsBump(s.counts, CategoryOf(t).value);
    }
  }

  /** AddCounts, stated on the whole counter map. */
  lemma AddCountsMap(s: BatchState, t: Transaction, fileTotal: int, fileMax: int, batchMax: int, io: Io)
    requires WellFormed(s)
    ensures var r := Add(s, t, fileTotal, fileMax, batchMax, io).state;
      if Counted(s, t, fileTotal, fileMax, batchMax, io) then
        r.numOfTxn == s.numOfTxn + 1
        && r.counts == s.counts[CategoryOf(t).value := s.counts[CategoryOf(t).value] + 1]
      else r.numOfTxn == s.numOfTxn && r.counts == s.counts
  {
    AddTallies(s, t, fileTotal, fileMax, batchMax, io);
  }

  /** Mixing rule: in a non-empty batch, an account update is refused when
      not every transaction so far is one, and another kind is refused when
      every transaction so far is one; the counters and the output are
      unchanged.  These are the only calls that throw a mixing error. */
  lemma MixingRule(s: BatchState, t: Transaction, fileTotal: int, fileMax: int, batchMax: int, io: Io)
    requires WellFormed(s)
    ensures var r := Add(s, t, fileTotal, fileMax, batchMax, io);
      && (r.outcome == Thrown(AccountUpdateInMixedBatch) <==>
            s.numOfTxn > 0 && s.counts[AccountUpdates] != s.numOfTxn && t.AccountUpdate?)
      && (r.outcome == Thrown(NonAccountUpdateInAccountUpdateBatch) <==>
            s.numOfTxn > 0 && s.counts[AccountUpdates] == s.numOfTxn && !t.AccountUpdate?)
      && (r.outcome in {Thrown(AccountUpdateInMixedBatch), Thrown(NonAccountUpdateInAccountUpdateBatch)} ==>
            r.state == s)
  {
  }

  /** Pre-check: once the sink is available and the mixing rule passes, a
      full file throws FileAlreadyFull and otherwise a full batch throws
      BatchAlreadyFull; the counters are unchanged and nothing is appended
      to the output (which a fresh request file may have emptied). */
  lemma PrecheckRefuses(s: BatchState, t: Transaction, fileTotal: int, fileMax: int, batchMax: int, io: Io)
    requires WellFormed(s)
    requires s.numOfTxn != 0 || io.sinkCreatable
    requires MixingError(s, t).None?
    ensures var r := Add(s, t, fileTotal, fileMax, batchMax, io);
      && (r.outcome == Thrown(FileAlreadyFull) <==> fileTotal == fileMax)
      && (r.outcome == Thrown(BatchAlreadyFull) <==> fileTotal != fileMax && s.numOfTxn == batchMax)
      && (r.outcome.Thrown? && r.outcome.error in {FileAlreadyFull, BatchAlreadyFull} ==>
            SameCounters(r.state, s) && r.state == Opened(s)
            && (r.state.written == s.written || (s.numOfTxn == 0 && r.state.written == [])))
  {
    assert MixingError(Opened(s), t) == MixingError(s, t);
  }

  /** Post-write status: a call that returns has counted a recognised
      transaction (or passed over an unrecognised one), written exactly one
      record after what the request file already held, and reports FILEFULL
      if the file is now at its maximum, else BATCHFULL if the batch is,
      else SUCCESS for a recognised kind and FAILURE for an unrecognised one. */
  lemma AddReturns(s: BatchState, t: Transaction, fileTotal: int, fileMax: int, batchMax: int, io: Io)
    requires WellFormed(s)
    ensures var r := Add(s, t, fileTotal, fileMax, batchMax, io);
      r.outcome.Returned? <==> Admits(s, t, fileTotal, fileMax, batchMax, io) && io.marshalSucceeds
    ensures var r := Add(s, t, fileTotal, fileMax, batchMax, io);
      var added := if t.Unrecognised? then 0 else 1;
      r.outcome.Returned? ==>
        && r.state.numOfTxn == s.numOfTxn + added
        && r.state.written == Opened(s).written + [RecordOf(t)]
        && r.outcome.code ==
             (if fileTotal + added == fileMax then FileFull
              else if s.numOfTxn + added == batchMax then BatchFull
              else if added == 1 then Success
              else Failure)
  {
    assert MixingError(Opened(s), t) == MixingError(s, t);
  }

  /** An unrecognised kind is never counted: every counter is unchanged, a
      call that gets past the checks writes one generic record, and it can
      only end in FAILURE (the post-write check sees what the pre-check saw). */
  lemma UnrecognisedNotCounted(s: BatchState, t: Transaction, fileTotal: int, fileMax: int, batchMax: int, io: Io)
    requires WellFormed(s) && t.Unrecognised?
    ensures var r := Add(s, t, fileTotal, fileMax, batchMax, io);
      && SameCounters(r.state, s)
      && (r.outcome.Returned? ==>
            r.outcome == Returned(Failure) && r.state.written == Opened(s).written + [GenericElement])
  {
    AddReturns(s, t, fileTotal, fileMax, batchMax, io);
  }

  /** When a marshalling failure ends the call, the transaction is counted
      but nothing is appended to the output. */
  lemma MarshalFailureKeepsCount(s: BatchState, t: Transaction, fileTotal: int, fileMax: int, batchMax: int, io: Io)
    requires WellFormed(s)
    ensures var r := Add(s, t, fileTotal, fileMax, batchMax, io);
      r.outcome == Thrown(MarshalFailed) <==> Admits(s, t, fileTotal, fileMax, batchMax, io) && !io.marshalSucceeds
    ensures var r := Add(s, t, fileTotal, fileMax, batchMax, io);
      r.outcome == Thrown(MarshalFailed) ==>
        r.state.written == Opened(s).written
        && r.state.numOfTxn == s.numOfTxn + (if t.Unrecognised? then 0 else 1)
  {
    assert MixingError(Opened(s), t) == MixingError(s, t);
  }

  /** The batch counter moves by 0 or 1, and by 1 only when neither the file
      nor the batch was at its maximum; so a counter between 0 and a
      non-negative batch maximum stays there, and a file total at most a
      file maximum stays at most it. */
  lemma AddKeepsBounds(s: BatchState, t: Transaction, fileTotal: int, fileMax: int, batchMax: int, io: Io)
    requires WellFormed(s)
    ensures var r := Add(s, t, fileTotal, fileMax, batchMax, io).state;
      var delta := r.numOfTxn - s.numOfTxn;
      && (delta == 0 || delta == 1)
      && (delta == 1 ==> fileTotal != fileMax && s.numOfTxn != batchMax)
      && (0 <= s.numOfTxn <= batchMax ==> 0 <= r.numOfTxn <= batchMax)
      && (fileTotal <= fileMax ==> fileTotal + delta <= fileMax)
  {
    AddCounts(s, t, fileTotal, fileMax, batchMax, io);
  }

  // ---------------------------------------------------------------------
  // Invariants relating the counters to the history of accepted transactions
  // ---------------------------------------------------------------------

  /** Each category's count and amount sum are those of the accepted history. */
  predicate Aggregates(s: BatchState, h: seq<Transaction>)
  {
    WellFormed(s) && AllRecognised(h)
    && forall c: Category :: s.counts[c] == CountIn(h, c) && s.amounts[c] == AmountIn(h, c)
  }

  /** The history grows by the transaction exactly when the call counts it. */
  lemma AddKeepsAggregates(s: BatchState, h: seq<Transaction>, t: Transaction,
                           fileTotal: int, fileMax: int, batchMax: int, io: Io)
    requires Aggregates(s, h)
    ensures Aggregates(Add(s, t, fileTotal, fileMax, batchMax, io).state,
                       Accept(h, Counted(s, t, fileTotal, fileMax, batchMax, io), t))
  {
    AddCounts(s, t, fileTotal, fileMax, batchMax, io);
    var counted := Counted(s, t, fileTotal, fileMax, batchMax, io);
    var h' := Accept(h, counted, t);
    var r := Add(s, t, fileTotal, fileMax, batchMax, io).state;
    if counted {
      forall c: Category
        ensures r.counts[c] == CountIn(h', c) && r.amounts[c] == AmountIn(h', c)
      {
        HistoryAppend(h, t, c);
      }
      assert AllRecognised(h') by {
        forall i | 0 <= i < |h'| ensures !h'[i].Unrecognised? {
          if i < |h| { assert h'[i] == h[i]; }
        }
      }
    }
  }

  /** A batch counter equal to the history's length equals the sum of the
      category counts. */
  lemma CountSumOfHistory(s: BatchState, h: seq<Transaction>)
    requires Aggregates(s, h) && s.numOfTxn == |h|
    ensures s.numOfTxn == SumCounts(s.counts)
  {
    CountsSumToLength(h);
    assert s.counts == CountsOf(h);
  }

  /** The invariant of a batch whose counter was never set from outside:
      the counter is the history's length, within a non-negative batch
      maximum, and the history obeys the mixing policy. */
  predicate Untouched(s: BatchState, h: seq<Transaction>, batchMax: int)
  {
    && s.numOfTxn == |h|
    && (0 <= batchMax ==> s.numOfTxn <= batchMax)
    && Homogeneous(h)
  }

  /** The counter-derived mixing rule keeps a batch homogeneous: the first
      accepted transaction fixes whether it holds account updates only. */
  lemma AddKeepsUntouched(s: BatchState, h: seq<Transaction>, t: Transaction,
                          fileTotal: int, fileMax: int, batchMax: int, io: Io)
    requires Aggregates(s, h) && Untouched(s, h, batchMax)
    ensures Untouched(Add(s, t, fileTotal, fileMax, batchMax, io).state,
                      Accept(h, Counted(s, t, fileTotal, fileMax, batchMax, io), t), batchMax)
  {
    AddKeepsBounds(s, t, fileTotal, fileMax, batchMax, io);
    AddCounts(s, t, fileTotal, fileMax, batchMax, io);
    var counted := Counted(s, t, fileTotal, fileMax, batchMax, io);
    if counted && |h| > 0 {
      var h' := h + [t];
      CountInAll(h, AccountUpdates);
      CountInNone(h, AccountUpdates);
      if t.AccountUpdate? {
        // the rule let it through, so every earlier transaction is an account update
        assert s.counts[AccountUpdates] == |h|;
        forall i | 0 <= i < |h'| ensures h'[i].AccountUpdate? {
          if i < |h| { assert h'[i] == h[i]; assert CategoryOf(h[i]) == Some(AccountUpdates); }
        }
      } else {
        // the rule let it through, so not all earlier ones are account updates,
        // and by homogeneity none is
        assert s.counts[AccountUpdates] != |h|;
        assert forall i :: 0 <= i < |h| ==> !h[i].AccountUpdate?;
        forall i | 0 <= i < |h'| ensures !h'[i].AccountUpdate? {
          if i < |h| { assert h'[i] == h[i]; }
        }
      }
    }
  }

  /** The mixing rule in terms of the history, for a batch whose counter was
      never set from outside: an account update is refused exactly when the
      batch holds some other kind, and another kind is refused exactly when
      the batch is non-empty and holds account updates only. */
  lemma MixingRuleOnHistory(s: BatchState, h: seq<Transaction>, t: Transaction,
                            fileTotal: int, fileMax: int, batchMax: int, io: Io)
    requires Aggregates(s, h) && Untouched(s, h, batchMax)
    requires s.numOfTxn != 0 || io.sinkCreatable
    ensures var r := Add(s, t, fileTotal, fileMax, batchMax, io);
      r.outcome == Thrown(AccountUpdateInMixedBatch) <==>
        t.AccountUpdate? && exists i :: 0 <= i < |h| && !h[i].AccountUpdate?
    ensures var r := Add(s, t, fileTotal, fileMax, batchMax, io);
      r.outcome == Thrown(NonAccountUpdateInAccountUpdateBatch) <==>
        !t.AccountUpdate? && |h| > 0 && forall i :: 0 <= i < |h| ==> h[i].AccountUpdate?
  {
    MixingRule(s, t, fileTotal, fileMax, batchMax, io);
    CountInAll(h, AccountUpdates);
    assert forall i :: 0 <= i < |h| ==> (CategoryOf(h[i]) == Some(AccountUpdates) <==> h[i].AccountUpdate?);
  }

  /** The request file holds the counted transactions in the order they were
      counted: if it did before a call that does not fail in marshalling, it
      does after it.  A fresh request file opened for an empty batch starts
      from an empty history, and a generic element holds no transaction. */
  lemma {:induction false} AddKeepsWritten(s: BatchState, h: seq<Transaction>, t: Transaction,
                                          fileTotal: int, fileMax: int, batchMax: int, io: Io)
    requires WellFormed(s) && s.numOfTxn == |h| && Elems(s.written) == h
    requires Add(s, t, fileTotal, fileMax, batchMax, io).outcome != Thrown(MarshalFailed)
    ensures Elems(Add(s, t, fileTotal, fileMax, batchMax, io).state.written) ==
            Accept(h, Counted(s, t, fileTotal, fileMax, batchMax, io), t)
  {
    var r := Add(s, t, fileTotal, fileMax, batchMax, io);
    if s.numOfTxn != 0 || io.sinkCreatable {
      var s1 := Opened(s);
      assert Elems(s1.written) == h;
      assert MixingError(s1, t) == MixingError(s, t);
      if r.outcome.Returned? {
        AddReturns(s, t, fileTotal, fileMax, batchMax, io);
        ElemsAppend(s1.written, RecordOf(t));
      } else {
        assert r.state.written == s1.written;
      }
    }
  }

  /** The invariant of a batch: its counters are those of the history; if
      its counter was never set from outside, it is untouched; and if
      moreover no marshalling failure ever ended a call, its request file
      holds the history. */
  predicate Invariant(s: BatchState, h: seq<Transaction>, batchMax: int, backdoorUsed: bool, writeFailed: bool)
  {
    && Aggregates(s, h)
    && (!backdoorUsed ==> Untouched(s, h, batchMax))
    && (!backdoorUsed && !writeFailed ==> Elems(s.written) == h)
  }

  /** One call keeps the invariant, the history growing by the transaction
      exactly when the call counts it, and a marshalling failure being
      remembered. */
  lemma AddKeepsInvariant(s: BatchState, h: seq<Transaction>, backdoorUsed: bool, writeFailed: bool,
                          t: Transaction, fileTotal: int, fileMax: int, batchMax: int, io: Io)
    requires Invariant(s, h, batchMax, backdoorUsed, writeFailed)
    ensures var r := Add(s, t, fileTotal, fileMax, batchMax, io);
      Invariant(r.state, Accept(h, Counted(s, t, fileTotal, fileMax, batchMax, io), t), batchMax,
                backdoorUsed, writeFailed || r.outcome == Thrown(MarshalFailed))
  {
    AddKeepsAggregates(s, h, t, fileTotal, fileMax, batchMax, io);
    if !backdoorUsed {
      AddKeepsUntouched(s, h, t, fileTotal, fileMax, batchMax, io);
      if !writeFailed && Add(s, t, fileTotal, fileMax, batchMax, io).outcome != Thrown(MarshalFailed) {
        AddKeepsWritten(s, h, t, fileTotal, fileMax, batchMax, io);
      }
    }
  }

  // ---------------------------------------------------------------------
  // Sequences of calls
  // ---------------------------------------------------------------------

  /** One `addTransaction` call: the transaction and how its I/O goes. */
  datatype Call = Call(t: Transaction, io: Io)

  /** The state after a sequence of calls on one batch of a file whose other
      batches hold `others` transactions throughout, so that the file total
      on each call is `others` plus this batch's counter. */
  function Run(s: BatchState, calls: seq<Call>, others: int, fileMax: int, batchMax: int): (r: BatchState)
    requires WellFormed(s)
    ensures WellFormed(r)
    ensures s.numOfTxn <= r.numOfTxn <= s.numOfTxn + |calls|
    decreases |calls|
  {
    if calls == [] then s
    else
      var p := Run(s, calls[..|calls| - 1], others, fileMax, batchMax);
      var c := calls[|calls| - 1];
      AddKeepsBounds(p, c.t, others + p.numOfTxn, fileMax, batchMax, c.io);
      Add(p, c.t, others + p.numOfTxn, fileMax, batchMax, c.io).state
  }

  /** However many calls are made, a counter that starts between 0 and a
      non-negative batch maximum stays there, and a file total that starts
      at most the file maximum stays at most it. */
  lemma {:induction false} RunKeepsBounds(s: BatchState, calls: seq<Call>, others: int, fileMax: int, batchMax: int)
    requires WellFormed(s) && 0 <= s.numOfTxn <= batchMax
    ensures 0 <= Run(s, calls, others, fileMax, batchMax).numOfTxn <= batchMax
    ensures others + s.numOfTxn <= fileMax ==>
              others + Run(s, calls, others, fileMax, batchMax).numOfTxn <= fileMax
    decreases |calls|
  {
    if calls != [] {
      var init := calls[..|calls| - 1];
      RunKeepsBounds(s, init, others, fileMax, batchMax);
      var p := Run(s, init, others, fileMax, batchMax);
      var c := calls[|calls| - 1];
      AddKeepsBounds(p, c.t, others + p.numOfTxn, fileMax, batchMax, c.io);
    }
  }

  /** From a fresh batch, however many calls are made, the counter equals
      the sum of the category counts. */
  lemma {:induction false} RunKeepsCountSum(calls: seq<Call>, others: int, fileMax: int, batchMax: int)
    ensures var r := Run(Initial(), calls, others, fileMax, batchMax);
      r.numOfTxn == SumCounts(r.counts)
    decreases |calls|
  {
    if calls == [] {
      ZeroIsTotal();
    } else {
      var init := calls[..|calls| - 1];
      RunKeepsCountSum(init, others, fileMax, batchMax);
      var p := Run(Initial(), init, others, fileMax, batchMax);
      var c := calls[|calls| - 1];
      AddKeepsCountSum(p, c.t, others + p.numOfTxn, fileMax, batchMax, c.io);
    }
  }
}
