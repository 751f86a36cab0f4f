/**
 * Bank reconciliation (`useBankReconciliation`): each bank transaction is scored
 * against the documents, invoices and bookkeeping transactions it could settle,
 * the score is sorted into matched / partial / unmatched, reconciliations can be
 * overridden by hand, and a summary counts them. Processing a statement turns the
 * analysed statement into bank transactions and reconciles them at once.
 */
module BankReconciliation {
  import opened Optional
  import opened Numerals
  import opened JsNumbers
  import opened Amounts
  import opened Dates
  import opened Text
  import opened Stores
  import Documents
  import Accounting

  datatype TransactionKind = Debit | Credit

  /**
   * A bank transaction; `date` is a day number. The optional text fields are
   * read through `?? ''`, so a missing one is the empty string here.
   */
  datatype BankTransaction = BankTransaction(
    id: string,
    date: int,
    description: string,
    amount: real,
    balance: real,
    reference: string,
    kind: TransactionKind,
    category: string,
    counterparty: string,
    iban: string,
    confidence: real,
    insights: seq<string>,
    recommendations: seq<string>)

  datatype ReconciliationStatus = Matched | Unmatched | Partial | Manual

  datatype Reconciliation = Reconciliation(
    id: string,
    bankTransaction: BankTransaction,
    matchedDocuments: seq<string>,
    matchedInvoices: seq<string>,
    status: ReconciliationStatus,
    variance: real,
    confidence: int)

  /** The records a bank transaction is compared with. */
  datatype MatchContext = MatchContext(
    documents: seq<Documents.Document>,
    transactions: seq<Documents.Transaction>,
    invoices: seq<Accounting.Invoice>)

  /** Amounts within one unit of each other. */
  predicate Near(x: real, y: real) {
    Abs(x - y) < 1.0
  }

  /**
   * The name test: the lower-cased text contains the lower-cased name, or the
   * lower-cased name contains the lower-cased counterparty.
   */
  predicate NameMatch(text: string, name: string, counterparty: string) {
    Includes(ToLower(text), ToLower(name)) || Includes(ToLower(name), ToLower(counterparty))
  }

  /**
   * A document matches on the absolute bank amount, and on date or supplier name.
   * A document whose amount has no digit reads as 0, so only bank amounts
   * strictly between -1 and 1 can match it.
   */
  predicate DocumentQualifies(b: BankTransaction, doc: Documents.Document): (r: bool)
    ensures r ==> Near(Abs(b.amount), ParseAmountFiltered(doc.amount))
    ensures r && DigitFree(doc.amount) ==> -1.0 < b.amount < 1.0
  {
    && Near(Abs(b.amount), ParseAmountFiltered(doc.amount))
    && (IsDateClose(b.date, ParsedDay(doc.documentDate)) || NameMatch(b.description, doc.supplier, b.counterparty))
  }

  /**
   * An invoice matches on the signed bank amount, and on due date or client name:
   * a payment of the exact total on the due date always matches, and a debit
   * never matches an invoice whose total is at least 1.
   */
  predicate InvoiceQualifies(b: BankTransaction, inv: Accounting.Invoice): (r: bool)
    ensures b.amount == inv.total && b.date == inv.dueDate ==> r
    ensures b.amount < 0.0 && inv.total >= 1.0 ==> !r
  {
    && Near(b.amount, inv.total)
    && (IsDateClose(b.date, Some(inv.dueDate)) || NameMatch(b.description, inv.client.name, b.counterparty))
  }

  /**
   * A bookkeeping transaction matches on the absolute bank amount, and on date or
   * description. A NaN amount fails every comparison, so it never matches; the
   * absolute amount on the same day always does.
   */
  predicate TransactionQualifies(b: BankTransaction, tx: Documents.Transaction): (r: bool)
    ensures tx.amount.NaN? ==> !r
    ensures tx.amount == Num(Abs(b.amount)) && tx.date == b.date ==> r
  {
    && tx.amount.Num?
    && Near(Abs(b.amount), tx.amount.value)
    && (IsDateClose(b.date, Some(tx.date)) || Includes(ToLower(b.description), ToLower(tx.description)))
  }

  /** The ids of the elements `keep` selects, in order. */
  function SelectIds<T>(xs: seq<T>, keep: T -> bool, id: T -> string): (r: seq<string>)
    ensures |r| <= |xs|
  {
    if xs == [] then []
    else
      var last := xs[|xs| - 1];
      SelectIds(xs[..|xs| - 1], keep, id) + (if keep(last) then [id(last)] else [])
  }

  /** How many elements `keep` selects. */
  function CountWhere<T>(xs: seq<T>, keep: T -> bool): (n: nat)
    ensures n <= |xs|
  {
    if xs == [] then 0
    else CountWhere(xs[..|xs| - 1], keep) + (if keep(xs[|xs| - 1]) then 1 else 0)
  }

  /** An id is selected exactly when some selected element carries it. */
  lemma {:induction false} SelectIdsMembership<T>(xs: seq<T>, keep: T -> bool, id: T -> string, x: string)
    ensures x in SelectIds(xs, keep, id) <==> exists j :: 0 <= j < |xs| && keep(xs[j]) && id(xs[j]) == x
    decreases |xs|
  {
    if xs != [] {
      var init := xs[..|xs| - 1];
      SelectIdsMembership(init, keep, id, x);
      if x in SelectIds(xs, keep, id) {
        if x in SelectIds(init, keep, id) {
          var j :| 0 <= j < |init| && keep(init[j]) && id(init[j]) == x;
          assert xs[j] == init[j];
        } else {
          assert keep(xs[|xs| - 1]) && id(xs[|xs| - 1]) == x;
        }
      } else {
        forall j | 0 <= j < |xs| && keep(xs[j]) ensures id(xs[j]) != x {
          if j < |init| {
            assert xs[j] == init[j];
          }
        }
      }
    }
  }

  /** One id is selected per selected element. */
  lemma {:induction false} SelectIdsCount<T>(xs: seq<T>, keep: T -> bool, id: T -> string)
    ensures |SelectIds(xs, keep, id)| == CountWhere(xs, keep)
    decreases |xs|
  {
    if xs != [] {
      SelectIdsCount(xs[..|xs| - 1], keep, id);
    }
  }

  /** Selection distributes over appending one element. */
  lemma SelectIdsSnoc<T>(xs: seq<T>, x: T, keep: T -> bool, id: T -> string)
    ensures SelectIds(xs + [x], keep, id) == SelectIds(xs, keep, id) + (if keep(x) then [id(x)] else [])
  {
    assert (xs + [x])[..|xs|] == xs;
  }

  /** Counting distributes over appending one element. */
  lemma CountWhereSnoc<T>(xs: seq<T>, x: T, keep: T -> bool)
    ensures CountWhere(xs + [x], keep) == CountWhere(xs, keep) + (if keep(x) then 1 else 0)
  {
    assert (xs + [x])[..|xs|] == xs;
  }

  /** The tests the three passes apply, as function values. */
  function DocumentTest(b: BankTransaction): Documents.Document -> bool {
    d => DocumentQualifies(b, d)
  }

  function InvoiceTest(b: BankTransaction): Accounting.Invoice -> bool {
    i => InvoiceQualifies(b, i)
  }

  function TransactionTest(b: BankTransaction): Documents.Transaction -> bool {
    t => TransactionQualifies(b, t)
  }

  function DocumentId(d: Documents.Document): string { d.id }

  function InvoiceId(i: Accounting.Invoice): string { i.id }

  function MatchedDocuments(b: BankTransaction, docs: seq<Documents.Document>): seq<string> {
    SelectIds(docs, DocumentTest(b), DocumentId)
  }

  function MatchedInvoices(b: BankTransaction, invs: seq<Accounting.Invoice>): seq<string> {
    SelectIds(invs, InvoiceTest(b), InvoiceId)
  }

  function QualifyingTransactions(b: BankTransaction, txs: seq<Documents.Transaction>): nat {
    CountWhere(txs, TransactionTest(b))
  }

  /** The status thresholds: strictly above 70 is matched, strictly above 40 partial. */
  function Classify(confidence: int): (s: ReconciliationStatus)
    ensures s == Matched <==> confidence > 70
    ensures s == Partial <==> 40 < confidence <= 70
    ensures s == Unmatched <==> confidence <= 40
  {
    if confidence > 70 then Matched else if confidence > 40 then Partial else Unmatched
  }

  lemma WeightedSumIsMultipleOfFive(docs: nat, invoices: nat, transactions: nat)
    ensures (30 * docs + 40 * invoices + 25 * transactions) % 5 == 0
  {
    var k := 6 * docs + 8 * invoices + 5 * transactions;
    assert 30 * docs + 40 * invoices + 25 * transactions == 5 * k;
  }

  /** The reconciliation one bank transaction receives. */
  function Assess(b: BankTransaction, ctx: MatchContext): (r: Reconciliation)
    ensures r.id == "rec-" + b.id && r.bankTransaction == b
    ensures r.confidence >= 0 && r.confidence % 5 == 0
    ensures r.status == Classify(r.confidence) && r.status != Manual && r.variance == 0.0
  {
    var docs := MatchedDocuments(b, ctx.documents);
    var invs := MatchedInvoices(b, ctx.invoices);
    var txCount := QualifyingTransactions(b, ctx.transactions);
    var confidence := 30 * |docs| + 40 * |invs| + 25 * txCount;
    WeightedSumIsMultipleOfFive(|docs|, |invs|, txCount);
    Reconciliation("rec-" + b.id, b, docs, invs, Classify(confidence), 0.0, confidence)
  }

  /**
   * The confidence is the weighted count of what qualifies, and the lists hold
   * exactly the ids of the qualifying documents and invoices.
   */
  lemma AssessCounts(b: BankTransaction, ctx: MatchContext, x: string)
    ensures var r := Assess(b, ctx);
            r.confidence == 30 * CountWhere(ctx.documents, DocumentTest(b))
                            + 40 * CountWhere(ctx.invoices, InvoiceTest(b))
                            + 25 * CountWhere(ctx.transactions, TransactionTest(b))
    ensures x in Assess(b, ctx).matchedDocuments <==>
              exists j :: 0 <= j < |ctx.documents| && DocumentQualifies(b, ctx.documents[j]) && ctx.documents[j].id == x
    ensures x in Assess(b, ctx).matchedInvoices <==>
              exists j :: 0 <= j < |ctx.invoices| && InvoiceQualifies(b, ctx.invoices[j]) && ctx.invoices[j].id == x
  {
    SelectIdsCount(ctx.documents, DocumentTest(b), DocumentId);
    SelectIdsCount(ctx.invoices, InvoiceTest(b), InvoiceId);
    SelectIdsMembership(ctx.documents, DocumentTest(b), DocumentId, x);
    SelectIdsMembership(ctx.invoices, InvoiceTest(b), InvoiceId, x);
  }

  /**
   * One `forEach` pass: collects the ids of the elements `keep` selects, in order,
   * adding `weight` to the confidence for each.
   */
  method SelectPass<T>(xs: seq<T>, keep: T -> bool, id: T -> string, weight: int, confidence0: int)
    returns (matched: seq<string>, confidence: int)
    ensures matched == SelectIds(xs, keep, id) && confidence == confidence0 + weight * |matched|
  {
    matched := [];
    confidence := confidence0;
    var i := 0;
    while i < |xs|
      invariant 0 <= i <= |xs|
      invariant matched == SelectIds(xs[..i], keep, id)
      invariant confidence == confidence0 + weight * |matched|
    {
      if keep(xs[i]) {
        assert weight * (|matched| + 1) == weight * |matched| + weight;
        matched := matched + [id(xs[i])];
        confidence := confidence + weight;
      }
      SelectIdsSnoc(xs[..i], xs[i], keep, id);
      assert xs[..i + 1] == xs[..i] + [xs[i]];
      i := i + 1;
    }
    assert xs[..i] == xs;
  }

  /** A pass that only counts: adds `weight` for each element `keep` selects. */
  method CountPass<T>(xs: seq<T>, keep: T -> bool, weight: int, confidence0: int) returns (confidence: int)
    ensures confidence == confidence0 + weight * CountWhere(xs, keep)
  {
    confidence := confidence0;
    var i := 0;
    while i < |xs|
      invariant 0 <= i <= |xs|
      invariant confidence == confidence0 + weight * CountWhere(xs[..i], keep)
    {
      if keep(xs[i]) {
        assert weight * (CountWhere(xs[..i], keep) + 1) == weight * CountWhere(xs[..i], keep) + weight;
        confidence := confidence + weight;
      }
      CountWhereSnoc(xs[..i], xs[i], keep);
      assert xs[..i + 1] == xs[..i] + [xs[i]];
      i := i + 1;
    }
    assert xs[..i] == xs;
  }

  /**
   * The scan `autoReconcileTransactions` performs for one bank transaction: the
   * three passes in order, then the status from the accumulated confidence.
   */
  method ReconcileTransaction(b: BankTransaction, ctx: MatchContext) returns (rec: Reconciliation)
    ensures rec == Assess(b, ctx)
  {
    var matchedDocs, confidence := SelectPass(ctx.documents, DocumentTest(b), DocumentId, 30, 0);
    var matchedInvoices;
    matchedInvoices, confidence := SelectPass(ctx.invoices, InvoiceTest(b), InvoiceId, 40, confidence);
    confidence := CountPass(ctx.transactions, TransactionTest(b), 25, confidence);
    rec := Reconciliation("rec-" + b.id, b, matchedDocs, matchedInvoices, Classify(confidence), 0.0, confidence);
  }

  /** The reconciliations of a batch of bank transactions, one each, in order. */
  function ReconcileAll(bankTxs: seq<BankTransaction>, ctx: MatchContext): (r: seq<Reconciliation>)
    ensures |r| == |bankTxs|
    ensures forall i :: 0 <= i < |bankTxs| ==> r[i] == Assess(bankTxs[i], ctx)
  {
    seq(|bankTxs|, i requires 0 <= i < |bankTxs| => Assess(bankTxs[i], ctx))
  }

  /** Reconciling one more bank transaction appends its assessment. */
  lemma ReconcileAllSnoc(bankTxs: seq<BankTransaction>, b: BankTransaction, ctx: MatchContext)
    ensures ReconcileAll(bankTxs + [b], ctx) == ReconcileAll(bankTxs, ctx) + [Assess(b, ctx)]
  {
    assert forall i :: 0 <= i < |bankTxs| ==> (bankTxs + [b])[i] == bankTxs[i];
  }

  /**
   * `autoReconcileTransactions`: appends one reconciliation per bank transaction,
   * in input order, with id "rec-" + the transaction's id; earlier ones are kept.
   */
  method AutoReconcileTransactions(prev: seq<Reconciliation>, bankTxs: seq<BankTransaction>, ctx: MatchContext)
    returns (r: seq<Reconciliation>)
    ensures |r| == |prev| + |bankTxs| && r[..|prev|] == prev
    ensures forall i :: 0 <= i < |bankTxs| ==>
              r[|prev| + i] == Assess(bankTxs[i], ctx) && r[|prev| + i].id == "rec-" + bankTxs[i].id
    ensures r == prev + ReconcileAll(bankTxs, ctx)
  {
    var added: seq<Reconciliation> := [];
    var i := 0;
    while i < |bankTxs|
      invariant 0 <= i <= |bankTxs|
      invariant |added| == i
      invariant added == ReconcileAll(bankTxs[..i], ctx)
    {
      var rec := ReconcileTransaction(bankTxs[i], ctx);
      assert bankTxs[..i + 1] == bankTxs[..i] + [bankTxs[i]];
      ReconcileAllSnoc(bankTxs[..i], bankTxs[i], ctx);
      added := added + [rec];
      i := i + 1;
    }
    assert bankTxs[..i] == bankTxs;
    r := prev + added;
    assert r[..|prev|] == prev;
    forall i | 0 <= i < |bankTxs| ensures r[|prev| + i] == added[i] {
    }
  }

  /** Each further qualifying invoice adds exactly 40, whatever the total already is. */
  lemma QualifyingInvoiceAddsForty(b: BankTransaction, ctx: MatchContext, inv: Accounting.Invoice)
    requires InvoiceQualifies(b, inv)
    ensures Assess(b, ctx.(invoices := ctx.invoices + [inv])).confidence == Assess(b, ctx).confidence + 40
    ensures Assess(b, ctx.(invoices := ctx.invoices + [inv])).matchedInvoices == Assess(b, ctx).matchedInvoices + [inv.id]
  {
    SelectIdsSnoc(ctx.invoices, inv, InvoiceTest(b), InvoiceId);
  }

  /** The confidence is not capped at 100: three qualifying invoices already give 120. */
  lemma ConfidenceNotCapped(b: BankTransaction, inv: Accounting.Invoice)
    requires InvoiceQualifies(b, inv)
    ensures Assess(b, MatchContext([], [], [inv, inv, inv])).confidence == 120
    ensures Assess(b, MatchContext([], [], [inv, inv, inv])).status == Matched
  {
    var ctx0 := MatchContext([], [], []);
    QualifyingInvoiceAddsForty(b, ctx0, inv);
    QualifyingInvoiceAddsForty(b, ctx0.(invoices := [inv]), inv);
    QualifyingInvoiceAddsForty(b, ctx0.(invoices := [inv, inv]), inv);
    assert [inv] + [inv] == [inv, inv];
    assert [inv, inv] + [inv] == [inv, inv, inv];
  }

  /**
   * A debit (negative amount) never matches an invoice whose total is at least 1,
   * even when it pays exactly that total; a bookkeeping transaction for the same
   * amount on the same day does match it, because there the absolute amount is used.
   */
  lemma DebitNeverMatchesInvoice(b: BankTransaction, inv: Accounting.Invoice, tx: Documents.Transaction)
    requires b.amount < 0.0 && inv.total >= 1.0
    requires tx.amount == Num(-b.amount) && tx.date == b.date
    ensures !InvoiceQualifies(b, inv)
    ensures TransactionQualifies(b, tx)
  {
  }

  /** An empty supplier makes the name test pass, so the amount alone decides. */
  lemma EmptySupplierMatchesByAmount(b: BankTransaction, doc: Documents.Document)
    requires doc.supplier == ""
    ensures DocumentQualifies(b, doc) <==> Near(Abs(b.amount), ParseAmountFiltered(doc.amount))
  {
    assert ToLower("") == "";
    IncludesEmpty(ToLower(b.description));
  }

  /** An empty counterparty makes the name test pass for every document. */
  lemma EmptyCounterpartyMatchesByAmount(b: BankTransaction, doc: Documents.Document)
    requires b.counterparty == ""
    ensures DocumentQualifies(b, doc) <==> Near(Abs(b.amount), ParseAmountFiltered(doc.amount))
  {
    assert ToLower("") == "";
    IncludesEmpty(ToLower(doc.supplier));
  }

  /**
   * `manualReconcile`: every reconciliation with the given id gets the given lists,
   * status manual and confidence 100; the others and the count are unchanged.
   */
  function ManualReconcile(recs: seq<Reconciliation>, id: string, docIds: seq<string>, invoiceIds: seq<string>)
    : (r: seq<Reconciliation>)
    ensures |r| == |recs|
    ensures forall i :: 0 <= i < |recs| && recs[i].id == id ==>
              r[i] == recs[i].(matchedDocuments := docIds, matchedInvoices := invoiceIds, status := Manual, confidence := 100)
    ensures forall i :: 0 <= i < |recs| && recs[i].id != id ==> r[i] == recs[i]
  {
    MapWhere(recs, (rec: Reconciliation) => rec.id == id,
             (rec: Reconciliation) => rec.(matchedDocuments := docIds, matchedInvoices := invoiceIds,
                                           status := Manual, confidence := 100))
  }

  /** Repeating a manual reconciliation changes nothing. */
  lemma ManualReconcileIdempotent(recs: seq<Reconciliation>, id: string, docIds: seq<string>, invoiceIds: seq<string>)
    ensures ManualReconcile(ManualReconcile(recs, id, docIds, invoiceIds), id, docIds, invoiceIds)
            == ManualReconcile(recs, id, docIds, invoiceIds)
  {
    var once := ManualReconcile(recs, id, docIds, invoiceIds);
    var twice := ManualReconcile(once, id, docIds, invoiceIds);
    forall i | 0 <= i < |recs| ensures twice[i] == once[i] {
      if recs[i].id == id {
        assert once[i].id == id;
      }
    }
  }

  /** How many reconciliations have status `s`. */
  function CountStatus(recs: seq<Reconciliation>, s: ReconciliationStatus): (n: nat)
    ensures n <= |recs|
  {
    if recs == [] then 0 else (if recs[0].status == s then 1 else 0) + CountStatus(recs[1..], s)
  }

  /** The sum of the variances; 0 when every variance is 0. */
  function TotalVariance(recs: seq<Reconciliation>): (v: real)
    ensures (forall i :: 0 <= i < |recs| ==> recs[i].variance == 0.0) ==> v == 0.0
  {
    if recs == [] then 0.0 else recs[0].variance + TotalVariance(recs[1..])
  }

  datatype Summary = Summary(
    totalBankTransactions: nat,
    matchedTransactions: nat,
    unmatchedTransactions: nat,
    partialMatches: nat,
    totalVariance: real,
    reconciliationRate: real)

  /** `getReconciliationSummary`. */
  function GetSummary(bankTxs: seq<BankTransaction>, recs: seq<Reconciliation>): (s: Summary)
    ensures s.totalBankTransactions == |bankTxs|
    ensures |bankTxs| == 0 ==> s.reconciliationRate == 0.0
    ensures s.reconciliationRate >= 0.0
  {
    var matched := CountStatus(recs, Matched);
    var total := |bankTxs|;
    Summary(total, matched, CountStatus(recs, Unmatched), CountStatus(recs, Partial), TotalVariance(recs),
            if total > 0 then (matched as real / total as real) * 100.0 else 0.0)
  }

  /** None is counted when no record has the status, and all are when every record has it. */
  lemma {:induction false} CountStatusExtremes(recs: seq<Reconciliation>, s: ReconciliationStatus)
    ensures (forall i :: 0 <= i < |recs| ==> recs[i].status != s) ==> CountStatus(recs, s) == 0
    ensures (forall i :: 0 <= i < |recs| ==> recs[i].status == s) ==> CountStatus(recs, s) == |recs|
  {
    if recs != [] {
      CountStatusExtremes(recs[1..], s);
      assert forall i :: 1 <= i < |recs| ==> recs[1..][i - 1] == recs[i];
    }
  }

  /**
   * With one reconciliation per bank transaction, a list where every record is
   * matched reports them all matched at rate 100, and a list without a matched
   * record reports none at rate 0.
   */
  lemma SummaryExtremes(bankTxs: seq<BankTransaction>, recs: seq<Reconciliation>)
    requires |recs| == |bankTxs|
    ensures var s := GetSummary(bankTxs, recs);
            (forall i :: 0 <= i < |recs| ==> recs[i].status == Matched) ==>
              && s.matchedTransactions == |recs| && s.partialMatches == 0 && s.unmatchedTransactions == 0
              && (|recs| > 0 ==> s.reconciliationRate == 100.0)
    ensures var s := GetSummary(bankTxs, recs);
            (forall i :: 0 <= i < |recs| ==> recs[i].status != Matched) ==>
              s.matchedTransactions == 0 && s.reconciliationRate == 0.0
  {
    var s := GetSummary(bankTxs, recs);
    if forall i :: 0 <= i < |recs| ==> recs[i].status == Matched {
      CountStatusExtremes(recs, Matched);
      CountStatusExtremes(recs, Partial);
      CountStatusExtremes(recs, Unmatched);
      if |recs| > 0 {
        FullRate(|recs|);
      }
    }
    if forall i :: 0 <= i < |recs| ==> recs[i].status != Matched {
      CountStatusExtremes(recs, Matched);
    }
  }

  lemma FullRate(n: nat)
    requires n > 0
    ensures (n as real / n as real) * 100.0 == 100.0
  {
  }

  /** Every reconciliation has exactly one of the four statuses. */
  lemma {:induction false} StatusesPartition(recs: seq<Reconciliation>)
    ensures CountStatus(recs, Matched) + CountStatus(recs, Partial) + CountStatus(recs, Unmatched)
            + CountStatus(recs, Manual) == |recs|
  {
    if recs != [] {
      StatusesPartition(recs[1..]);
    }
  }

  /** The summary never counts more matched, partial and unmatched records than there are. */
  lemma SummaryCountsBounded(bankTxs: seq<BankTransaction>, recs: seq<Reconciliation>)
    ensures var s := GetSummary(bankTxs, recs);
            s.matchedTransactions + s.partialMatches + s.unmatchedTransactions <= |recs|
  {
    StatusesPartition(recs);
  }

  lemma {:induction false} TotalVarianceAppend(a: seq<Reconciliation>, b: seq<Reconciliation>)
    ensures TotalVariance(a + b) == TotalVariance(a) + TotalVariance(b)
  {
    if a != [] {
      assert (a + b)[1..] == a[1..] + b;
      TotalVarianceAppend(a[1..], b);
    } else {
      assert a + b == b;
    }
  }

  lemma {:induction false} AutoVarianceZero(bankTxs: seq<BankTransaction>, ctx: MatchContext)
    ensures TotalVariance(ReconcileAll(bankTxs, ctx)) == 0.0
  {
    if bankTxs != [] {
      AutoVarianceZero(bankTxs[1..], ctx);
      assert ReconcileAll(bankTxs, ctx)[1..] == ReconcileAll(bankTxs[1..], ctx);
    }
  }

  lemma {:induction false} ManualKeepsVariance(recs: seq<Reconciliation>, id: string, docIds: seq<string>, invoiceIds: seq<string>)
    ensures TotalVariance(ManualReconcile(recs, id, docIds, invoiceIds)) == TotalVariance(recs)
  {
    if recs != [] {
      ManualKeepsVariance(recs[1..], id, docIds, invoiceIds);
      assert ManualReconcile(recs, id, docIds, invoiceIds)[1..] == ManualReconcile(recs[1..], id, docIds, invoiceIds);
    }
  }

  /** The fields of one transaction in the statement analysis; all values are still text. */
  datatype RawTransaction = RawTransaction(
    date: string,
    description: string,
    amount: string,
    balance: string,
    reference: string,
    kind: TransactionKind,
    category: string,
    counterparty: string,
    iban: string)

  /** The statement analysis the bank statement processing receives. */
  datatype StatementAnalysis = StatementAnalysis(
    bankName: string,
    accountNumber: string,
    startDate: string,
    endDate: string,
    openingBalance: string,
    closingBalance: string,
    transactions: seq<RawTransaction>,
    insights: seq<string>,
    recommendations: seq<string>,
    confidence: real)

  datatype StatementStatus = StatementProcessing | StatementCompleted | StatementError

  datatype BankStatement = BankStatement(
    id: string,
    fileName: string,
    bankName: string,
    accountNumber: string,
    startDate: int,
    endDate: int,
    transactions: seq<BankTransaction>,
    status: StatementStatus,
    totalTransactions: nat,
    openingBalance: real,
    closingBalance: real)

  /** The hook's three lists. */
  datatype BankState = BankState(
    statements: seq<BankStatement>,
    bankTransactions: seq<BankTransaction>,
    reconciliations: seq<Reconciliation>)

  /** The placeholder statement appended when a file is uploaded; `today` stands for `new Date()`. */
  function PlaceholderStatement(id: string, fileName: string, today: int): (s: BankStatement)
    ensures s.id == id && s.status == StatementProcessing && s.transactions == [] && s.totalTransactions == 0
    ensures s.fileName == fileName && s.bankName == "" && s.accountNumber == ""
    ensures s.startDate == today && s.endDate == today
    ensures s.openingBalance == 0.0 && s.closingBalance == 0.0
  {
    BankStatement(id, fileName, "", "", today, today, [], StatementProcessing, 0, 0.0, 0.0)
  }

  function BeginStatement(st: BankState, placeholder: BankStatement): (r: BankState)
    ensures r.statements == st.statements + [placeholder]
    ensures r.bankTransactions == st.bankTransactions && r.reconciliations == st.reconciliations
  {
    st.(statements := st.statements + [placeholder])
  }

  /** One analysed transaction as a bank transaction with id `statementId-tx-index`. */
  function ConvertTransaction(statementId: string, index: nat, raw: RawTransaction, a: StatementAnalysis, today: int)
    : (t: BankTransaction)
    ensures t.id == statementId + "-tx-" + NatToDecimal(index)
    ensures t.amount == ParseAmountFiltered(raw.amount) && t.balance == ParseAmountFiltered(raw.balance)
    ensures ParseDate(raw.date).None? ==> t.date == today
    ensures ParseDate(raw.date).Some? ==> t.date == DayNumber(ParseDate(raw.date).value)
    ensures t.description == raw.description && t.counterparty == raw.counterparty && t.reference == raw.reference
    ensures t.kind == raw.kind && t.category == raw.category && t.iban == raw.iban
    ensures t.confidence == a.confidence && t.insights == a.insights && t.recommendations == a.recommendations
  {
    BankTransaction(statementId + "-tx-" + NatToDecimal(index), DayOrToday(raw.date, today), raw.description,
                    ParseAmountFiltered(raw.amount), ParseAmountFiltered(raw.balance), raw.reference, raw.kind,
                    raw.category, raw.counterparty, raw.iban, a.confidence, a.insights, a.recommendations)
  }

  function ConvertAll(statementId: string, a: StatementAnalysis, today: int): (r: seq<BankTransaction>)
    ensures |r| == |a.transactions|
    ensures forall i :: 0 <= i < |r| ==> r[i] == ConvertTransaction(statementId, i, a.transactions[i], a, today)
  {
    seq(|a.transactions|, i requires 0 <= i < |a.transactions| =>
      ConvertTransaction(statementId, i, a.transactions[i], a, today))
  }

  /** The converted transactions of one statement have pairwise distinct ids. */
  lemma ConvertedIdsDistinct(statementId: string, a: StatementAnalysis, today: int, i: nat, j: nat)
    requires i < j < |a.transactions|
    ensures ConvertAll(statementId, a, today)[i].id != ConvertAll(statementId, a, today)[j].id
  {
    PrefixedDecimalsDistinct(statementId + "-tx-", i, j);
  }

  /**
   * The outcome of processing: on success the placeholder is replaced by the
   * completed statement, its transactions are appended and reconciled; on failure
   * only the placeholder's status becomes error.
   */
  function FinishStatement(st: BankState, placeholder: BankStatement, outcome: Option<StatementAnalysis>,
                           ctx: MatchContext, today: int): (r: BankState)
    ensures |r.statements| == |st.statements|
    ensures forall i :: 0 <= i < |st.statements| && st.statements[i].id != placeholder.id ==>
              r.statements[i] == st.statements[i]
    ensures outcome.None? ==>
              && r.bankTransactions == st.bankTransactions && r.reconciliations == st.reconciliations
              && forall i :: 0 <= i < |st.statements| && st.statements[i].id == placeholder.id ==>
                   r.statements[i] == st.statements[i].(status := StatementError)
    ensures outcome.Some? ==>
              var added := ConvertAll(placeholder.id, outcome.value, today);
              && r.bankTransactions == st.bankTransactions + added
              && r.reconciliations == st.reconciliations + ReconcileAll(added, ctx)
              && forall i :: 0 <= i < |st.statements| && st.statements[i].id == placeholder.id ==>
                   && r.statements[i].status == StatementCompleted
                   && r.statements[i].transactions == added
                   && r.statements[i].totalTransactions == |outcome.value.transactions|
                   && r.statements[i].openingBalance == ParseAmountFiltered(outcome.value.openingBalance)
                   && r.statements[i].closingBalance == ParseAmountFiltered(outcome.value.closingBalance)
                   && r.statements[i].bankName == outcome.value.bankName
                   && r.statements[i].accountNumber == outcome.value.accountNumber
                   && r.statements[i].startDate == DayOrToday(outcome.value.startDate, today)
                   && r.statements[i].endDate == DayOrToday(outcome.value.endDate, today)
  {
    match outcome
    case None =>
      st.(statements := MapWhere(st.statements, (s: BankStatement) => s.id == placeholder.id,
                                 (s: BankStatement) => s.(status := StatementError)))
    case Some(a) =>
      var added := ConvertAll(placeholder.id, a, today);
      var updated := placeholder.(
        bankName := a.bankName,
        accountNumber := a.accountNumber,
        startDate := DayOrToday(a.startDate, today),
        endDate := DayOrToday(a.endDate, today),
        transactions := added,
        status := StatementCompleted,
        totalTransactions := |added|,
        openingBalance := ParseAmountFiltered(a.openingBalance),
        closingBalance := ParseAmountFiltered(a.closingBalance));
      BankState(
        MapWhere(st.statements, (s: BankStatement) => s.id == placeholder.id, (s: BankStatement) => updated),
        st.bankTransactions + added,
        st.reconciliations + ReconcileAll(added, ctx))
  }

  /** The hook's invariant: one reconciliation per bank transaction received. */
  predicate Paired(st: BankState) {
    |st.reconciliations| == |st.bankTransactions|
  }

  /** Processing a statement, on either outcome, and manual overrides keep the pairing. */
  lemma ProcessingKeepsPairing(st: BankState, id: string, fileName: string, outcome: Option<StatementAnalysis>,
                               ctx: MatchContext, today: int)
    requires Paired(st)
    ensures var p := PlaceholderStatement(id, fileName, today);
            Paired(FinishStatement(BeginStatement(st, p), p, outcome, ctx, today))
  {
  }

  lemma ManualKeepsPairing(st: BankState, id: string, docIds: seq<string>, invoiceIds: seq<string>)
    requires Paired(st)
    ensures Paired(st.(reconciliations := ManualReconcile(st.reconciliations, id, docIds, invoiceIds)))
  {
  }

  /** With the pairing in place, the reconciliation rate is a percentage. */
  lemma RateIsPercentage(st: BankState)
    requires Paired(st)
    ensures GetSummary(st.bankTransactions, st.reconciliations).reconciliationRate <= 100.0
  {
    var matched := CountStatus(st.reconciliations, Matched);
    var total := |st.bankTransactions|;
    if total > 0 {
      assert matched as real <= total as real;
      assert matched as real / total as real <= 1.0;
    }
  }

  /**
   * Processing a statement leaves the total variance unchanged: reconciliations
   * are appended with variance 0.
   */
  lemma ProcessingKeepsVariance(st: BankState, placeholder: BankStatement, a: StatementAnalysis,
                                ctx: MatchContext, today: int)
    ensures var r := FinishStatement(st, placeholder, Some(a), ctx, today);
            TotalVariance(r.reconciliations) == TotalVariance(st.reconciliations)
  {
    var added := ConvertAll(placeholder.id, a, today);
    TotalVarianceAppend(st.reconciliations, ReconcileAll(added, ctx));
    AutoVarianceZero(added, ctx);
  }
}
