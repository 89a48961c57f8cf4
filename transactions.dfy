/** The transaction kinds a batch accepts, the per-category counters of a
    batch request, and the aggregate values a history of accepted
    transactions determines. */
module Transactions {

  datatype Option<+T> = None | Some(value: T)

  /** The closed set of transaction kinds a batch dispatches over.  Kinds that
      carry a monetary amount (minor currency units, a Java `long`) hold it;
      the count-only kinds hold nothing the batch reads.  `Unrecognised`
      stands for any other subtype of the generated `TransactionType`. */
  datatype Transaction =
    | Sale(amount: int)
    | Authorization(amount: int)
    | Credit(amount: int)
    | RegisterTokenRequest
    | CaptureGivenAuth(amount: int)
    | ForceCapture(amount: int)
    | AuthReversal(amount: int)
    | Capture(amount: int)
    | EcheckVerification(amount: int)
    | EcheckCredit(amount: int)
    | EcheckRedeposit
    | EcheckSale(amount: int)
    | UpdateCardValidationNumOnToken
    | AccountUpdate
    | Unrecognised(typeName: string)

  /** One counter (and, for most, one amount sum) of the batch request. */
  datatype Category =
    | Sales | Auths | Credits | TokenRegistrations | CaptureGivenAuths
    | ForceCaptures | AuthReversals | Captures | EcheckVerifications
    | EcheckCredits | EcheckRedeposits | EcheckSales
    | UpdateCardValidationNumOnTokens | AccountUpdates

  /** What is handed to the marshaller: the transaction's own element, or an
      empty generic transaction element for an unrecognised kind. */
  datatype Record = Element(txn: Transaction) | GenericElement

  /** The counter a transaction is tallied under; None for an unrecognised kind. */
  function CategoryOf(t: Transaction): (r: Option<Category>)
    ensures r.None? <==> t.Unrecognised?
    ensures r == Some(AccountUpdates) <==> t.AccountUpdate?
  {
    match t
    case Sale(_) => Some(Sales)
    case Authorization(_) => Some(Auths)
    case Credit(_) => Some(Credits)
    case RegisterTokenRequest => Some(TokenRegistrations)
    case CaptureGivenAuth(_) => Some(CaptureGivenAuths)
    case ForceCapture(_) => Some(ForceCaptures)
    case AuthReversal(_) => Some(AuthReversals)
    case Capture(_) => Some(Captures)
    case EcheckVerification(_) => Some(EcheckVerifications)
    case EcheckCredit(_) => Some(EcheckCredits)
    case EcheckRedeposit => Some(EcheckRedeposits)
    case EcheckSale(_) => Some(EcheckSales)
    case UpdateCardValidationNumOnToken => Some(UpdateCardValidationNumOnTokens)
    case AccountUpdate => Some(AccountUpdates)
    case Unrecognised(_) => None
  }

  /** Whether the batch request keeps an amount sum for this category. */
  predicate CarriesAmount(c: Category)
  {
    !(c == TokenRegistrations || c == EcheckRedeposits
      || c == UpdateCardValidationNumOnTokens || c == AccountUpdates)
  }

  /** The amount a transaction adds to its category's sum, if it adds one. */
  function AmountOf(t: Transaction): (r: Option<int>)
    ensures r.Some? <==> CategoryOf(t).Some? && CarriesAmount(CategoryOf(t).value)
    ensures r.Some? ==> r.value == t.amount
  {
    match t
    case Sale(a) => Some(a)
    case Authorization(a) => Some(a)
    case Credit(a) => Some(a)
    case CaptureGivenAuth(a) => Some(a)
    case ForceCapture(a) => Some(a)
    case AuthReversal(a) => Some(a)
    case Capture(a) => Some(a)
    case EcheckVerification(a) => Some(a)
    case EcheckCredit(a) => Some(a)
    case EcheckSale(a) => Some(a)
    case _ => None
  }

  /** The record written for a transaction. */
  function RecordOf(t: Transaction): (r: Record)
    ensures r.GenericElement? <==> t.Unrecognised?
    ensures r.Element? ==> r.txn == t
  {
    if t.Unrecognised? then GenericElement else Element(t)
  }

  /** The transactions of the records that carry one, in order: what a
      request file holds, with the generic elements dropped. */
  function Elems(w: seq<Record>): (r: seq<Transaction>)
    ensures |r| <= |w|
  {
    if w == [] then []
    else Elems(w[..|w| - 1]) + (if w[|w| - 1].Element? then [w[|w| - 1].txn] else [])
  }

  /** Writing one record appends its transaction, if it carries one. */
  lemma ElemsAppend(w: seq<Record>, rec: Record)
    ensures Elems(w + [rec]) == Elems(w) + (if rec.Element? then [rec.txn] else [])
  {
    assert (w + [rec])[..|w|] == w;
  }

  /** Every category at zero: the counters of a fresh batch request. */
  const Zero: map<Category, int> := map[
    Sales := 0, Auths := 0, Credits := 0, TokenRegistrations := 0,
    CaptureGivenAuths := 0, ForceCaptures := 0, AuthReversals := 0,
    Captures := 0, EcheckVerifications := 0, EcheckCredits := 0,
    EcheckRedeposits := 0, EcheckSales := 0,
    UpdateCardValidationNumOnTokens := 0, AccountUpdates := 0]

  /** A counter map with an entry for every category. */
  predicate Total(m: map<Category, int>)
  {
    forall c: Category :: c in m
  }

  lemma ZeroIsTotal()
    ensures Total(Zero) && forall c: Category :: Zero[c] == 0
  {
    forall c: Category ensures c in Zero && Zero[c] == 0 {
      match c
      case Sales => case Auths => case Credits => case TokenRegistrations =>
      case CaptureGivenAuths => case ForceCaptures => case AuthReversals =>
      case Captures => case EcheckVerifications => case EcheckCredits =>
      case EcheckRedeposits => case EcheckSales =>
      case UpdateCardValidationNumOnTokens => case AccountUpdates =>
    }
  }

  /** The sum of all category counters. */
  function SumCounts(m: map<Category, int>): int
    requires Total(m)
  {
    m[Sales] + m[Auths] + m[Credits] + m[TokenRegistrations]
    + m[CaptureGivenAuths] + m[ForceCaptures] + m[AuthReversals]
    + m[Captures] + m[EcheckVerifications] + m[EcheckCredits]
    + m[EcheckRedeposits] + m[EcheckSales]
    + m[UpdateCardValidationNumOnTokens] + m[AccountUpdates]
  }

  /** Adding one to a single counter adds one to the sum of counters. */
  lemma SumCountsBump(m: map<Category, int>, c: Category)
    requires Total(m)
    ensures Total(m[c := m[c] + 1])
    ensures SumCounts(m[c := m[c] + 1]) == SumCounts(m) + 1
  {
    match c
    case Sales => case Auths => case Credits => case TokenRegistrations =>
    case CaptureGivenAuths => case ForceCaptures => case AuthReversals =>
    case Captures => case EcheckVerifications => case EcheckCredits =>
    case EcheckRedeposits => case EcheckSales =>
    case UpdateCardValidationNumOnTokens => case AccountUpdates =>
  }

  // ---------------------------------------------------------------------
  // What a history of accepted transactions determines, defined
  // independently of the batch's incremental bookkeeping.
  // ---------------------------------------------------------------------

  /** Number of transactions of category c in h. */
  function CountIn(h: seq<Transaction>, c: Category): nat
  {
    if h == [] then 0
    else CountIn(h[..|h| - 1], c) + (if CategoryOf(h[|h| - 1]) == Some(c) then 1 else 0)
  }

  /** Sum of the amounts of the transactions of category c in h that carry one. */
  function AmountIn(h: seq<Transaction>, c: Category): int
  {
    if h == [] then 0
    else
      var t := h[|h| - 1];
      AmountIn(h[..|h| - 1], c)
      + (if CategoryOf(t) == Some(c) && AmountOf(t).Some? then AmountOf(t).value else 0)
  }

  /** Appending a transaction adds it to its own category's count and sum. */
  lemma HistoryAppend(h: seq<Transaction>, t: Transaction, c: Category)
    ensures CountIn(h + [t], c) == CountIn(h, c) + (if CategoryOf(t) == Some(c) then 1 else 0)
    ensures AmountIn(h + [t], c) ==
              AmountIn(h, c) + (if CategoryOf(t) == Some(c) && AmountOf(t).Some? then AmountOf(t).value else 0)
  {
    assert (h + [t])[..|h|] == h;
  }

  /** Every transaction of h is of a recognised kind. */
  predicate AllRecognised(h: seq<Transaction>)
  {
    forall i :: 0 <= i < |h| ==> !h[i].Unrecognised?
  }

  /** The mixing policy: a batch holds only account updates or none. */
  predicate Homogeneous(h: seq<Transaction>)
  {
    (forall i :: 0 <= i < |h| ==> h[i].AccountUpdate?)
    || (forall i :: 0 <= i < |h| ==> !h[i].AccountUpdate?)
  }

  /** The per-category counts of h, as a counter map. */
  function CountsOf(h: seq<Transaction>): (m: map<Category, int>)
    ensures Total(m) && forall c: Category :: m[c] == CountIn(h, c)
  {
    ZeroIsTotal();
    map c | c in Zero :: CountIn(h, c)
  }

  /** A category's count is the whole history exactly when every transaction
      of the history is of that category. */
  lemma {:induction false} CountInAll(h: seq<Transaction>, c: Category)
    ensures CountIn(h, c) <= |h|
    ensures CountIn(h, c) == |h| <==> forall i :: 0 <= i < |h| ==> CategoryOf(h[i]) == Some(c)
  {
    if h != [] {
      var p := h[..|h| - 1];
      CountInAll(p, c);
      if CountIn(h, c) == |h| {
        forall i | 0 <= i < |h| ensures CategoryOf(h[i]) == Some(c) {
          if i < |h| - 1 { assert h[i] == p[i]; }
        }
      }
      if forall i :: 0 <= i < |h| ==> CategoryOf(h[i]) == Some(c) {
        forall i | 0 <= i < |p| ensures CategoryOf(p[i]) == Some(c) {
          assert p[i] == h[i];
        }
      }
    }
  }

  /** A category's count is zero exactly when no transaction of the history is
      of that category. */
  lemma {:induction false} CountInNone(h: seq<Transaction>, c: Category)
    ensures CountIn(h, c) == 0 <==> forall i :: 0 <= i < |h| ==> CategoryOf(h[i]) != Some(c)
  {
    if h != [] {
      var p := h[..|h| - 1];
      CountInNone(p, c);
      if CountIn(h, c) == 0 {
        forall i | 0 <= i < |h| ensures CategoryOf(h[i]) != Some(c) {
          if i < |h| - 1 { assert h[i] == p[i]; }
        }
      }
      if forall i :: 0 <= i < |h| ==> CategoryOf(h[i]) != Some(c) {
        forall i | 0 <= i < |p| ensures CategoryOf(p[i]) != Some(c) {
          assert p[i] == h[i];
        }
      }
    }
  }

  /** The counts of a history of recognised transactions add up to its length:
      every accepted transaction is counted under exactly one category. */
  lemma {:induction false} CountsSumToLength(h: seq<Transaction>)
    requires AllRecognised(h)
    ensures SumCounts(CountsOf(h)) == |h|
  {
    if h == [] {
      ZeroIsTotal();
      assert CountsOf(h) == Zero;
    } else {
      var p := h[..|h| - 1];
      var t := h[|h| - 1];
      assert AllRecognised(p) by {
        forall i | 0 <= i < |p| ensures !p[i].Unrecognised? { assert p[i] == h[i]; }
      }
      CountsSumToLength(p);
      var c := CategoryOf(t).value;
      var m := CountsOf(p);
      assert CountsOf(h) == m[c := m[c] + 1];
      SumCountsBump(m, c);
    }
  }
}
