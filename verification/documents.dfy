/**
 * The document store (`useDocuments`): an uploaded document is appended as a
 * `processing` placeholder, then completed from the analysis with exactly one
 * generated transaction, or marked `error` when the analysis fails. The analysis
 * itself is an input here: `Some(analysis)` on success, `None` on failure.
 */
module Documents {
  import opened Optional
  import opened JsNumbers
  import opened Amounts
  import opened Dates
  import opened Text
  import opened Stores

  datatype DocumentStatus = Processing | Completed | Error

  datatype TransactionType = Income | Expense

  /** A transaction; `date` is a day number and `amount` may be NaN. */
  datatype Transaction = Transaction(
    id: string,
    description: string,
    amount: JsNumber,
    kind: TransactionType,
    category: string,
    date: int,
    documentId: Option<string>)

  datatype Document = Document(
    id: string,
    fileName: string,
    category: string,
    status: DocumentStatus,
    confidence: real,
    supplier: string,
    amount: string,
    client: string,
    documentDate: string,
    invoiceNumber: Option<string>,
    cui: Option<string>,
    description: string,
    insights: seq<string>,
    recommendations: seq<string>,
    generatedTransactions: seq<Transaction>)

  /** The fields the document analysis returns; amounts and dates are still text. */
  datatype DocumentAnalysis = DocumentAnalysis(
    category: string,
    supplier: string,
    amount: string,
    client: string,
    documentDate: string,
    invoiceNumber: Option<string>,
    cui: Option<string>,
    description: string,
    insights: seq<string>,
    recommendations: seq<string>,
    confidence: real)

  datatype DocumentStore = DocumentStore(documents: seq<Document>, transactions: seq<Transaction>)

  const IncomeKeywords: seq<string> := ["servicii", "consultanta", "vanzari"]

  /** `categorizeTransactionType`: income exactly when the lower-cased category names an income keyword. */
  function CategorizeTransactionType(category: string): (t: TransactionType)
    ensures t == Income <==> exists i :: 0 <= i < |IncomeKeywords| && Includes(ToLower(category), IncomeKeywords[i])
  {
    var lower := ToLower(category);
    assert IncomeKeywords[0] == "servicii" && IncomeKeywords[1] == "consultanta" && IncomeKeywords[2] == "vanzari";
    if Includes(lower, "servicii") || Includes(lower, "consultanta") || Includes(lower, "vanzari")
    then Income else Expense
  }

  /** The classification ignores letter case. */
  lemma CategorizeIgnoresCase(category: string)
    ensures CategorizeTransactionType(ToLower(category)) == CategorizeTransactionType(category)
  {
    ToLowerIdempotent(category);
  }

  /** The record appended at upload time, before any analysis. */
  function Placeholder(id: string, fileName: string): (d: Document)
    ensures d.id == id && d.fileName == fileName && d.status == Processing
    ensures d.generatedTransactions == [] && d.insights == [] && d.recommendations == []
    ensures d.category == "" && d.supplier == "" && d.amount == "" && d.client == ""
    ensures d.documentDate == "" && d.description == "" && d.confidence == 0.0
  {
    Document(id, fileName, "", Processing, 0.0, "", "", "", "", None, None, "", [], [], [])
  }

  /** The first step of `processDocument`: append the placeholder. */
  function BeginDocument(store: DocumentStore, id: string, fileName: string): (r: DocumentStore)
    ensures r.documents == store.documents + [Placeholder(id, fileName)]
    ensures r.transactions == store.transactions
  {
    store.(documents := store.documents + [Placeholder(id, fileName)])
  }

  /** The transaction generated from a successful analysis of document `docId`. */
  function GeneratedTransaction(docId: string, a: DocumentAnalysis, today: int): (t: Transaction)
    ensures t.id == docId + "-tx-1" && t.documentId == Some(docId) && t.description == a.description
    ensures t.amount == ParseAmountFirstRun(a.amount)
    ensures t.kind == CategorizeTransactionType(a.category) && t.category == a.category
    ensures ParseDate(a.documentDate).None? ==> t.date == today
    ensures ParseDate(a.documentDate).Some? ==> t.date == DayNumber(ParseDate(a.documentDate).value)
  {
    Transaction(docId + "-tx-1", a.description, ParseAmountFirstRun(a.amount),
                CategorizeTransactionType(a.category), a.category,
                DayOrToday(a.documentDate, today), Some(docId))
  }

  /**
   * The placeholder filled in from the analysis: it keeps its id and file name,
   * becomes `completed`, takes the analysed fields as text, and lists exactly the
   * one transaction generated from the analysis.
   */
  function CompletedDocument(placeholder: Document, a: DocumentAnalysis, today: int): (r: Document)
    ensures r.id == placeholder.id && r.fileName == placeholder.fileName && r.status == Completed
    ensures r.category == a.category && r.supplier == a.supplier && r.amount == a.amount
    ensures r.documentDate == a.documentDate && r.description == a.description
    ensures r.client == a.client && r.invoiceNumber == a.invoiceNumber && r.cui == a.cui
    ensures r.confidence == a.confidence && r.insights == a.insights && r.recommendations == a.recommendations
    ensures r.generatedTransactions == [GeneratedTransaction(placeholder.id, a, today)]
  {
    placeholder.(
      category := a.category,
      status := Completed,
      confidence := a.confidence,
      supplier := a.supplier,
      amount := a.amount,
      client := a.client,
      documentDate := a.documentDate,
      invoiceNumber := a.invoiceNumber,
      cui := a.cui,
      description := a.description,
      insights := a.insights,
      recommendations := a.recommendations,
      generatedTransactions := [GeneratedTransaction(placeholder.id, a, today)])
  }

  /**
   * The second step of `processDocument`: on success every document with the
   * placeholder's id becomes the completed document and the generated
   * transaction is appended to the transaction list; on failure those documents
   * are marked `error` and the transactions are left alone.
   */
  function FinishDocument(store: DocumentStore, placeholder: Document, outcome: Option<DocumentAnalysis>, today: int)
    : (r: DocumentStore)
    ensures |r.documents| == |store.documents|
    ensures forall i :: 0 <= i < |store.documents| && store.documents[i].id != placeholder.id
                        ==> r.documents[i] == store.documents[i]
    ensures outcome.Some? ==>
              && |r.transactions| == |store.transactions| + 1
              && r.transactions[..|store.transactions|] == store.transactions
              && var t := r.transactions[|store.transactions|];
                 && t == GeneratedTransaction(placeholder.id, outcome.value, today)
                 && t.id == placeholder.id + "-tx-1" && t.documentId == Some(placeholder.id)
                 && forall i :: 0 <= i < |store.documents| && store.documents[i].id == placeholder.id
                                ==> r.documents[i] == CompletedDocument(placeholder, outcome.value, today)
    ensures outcome.None? ==>
              && r.transactions == store.transactions
              && forall i :: 0 <= i < |store.documents| && store.documents[i].id == placeholder.id
                             ==> r.documents[i] == store.documents[i].(status := Error)
  {
    match outcome
    case Some(a) =>
      var done := CompletedDocument(placeholder, a, today);
      DocumentStore(
        MapWhere(store.documents, (d: Document) => d.id == placeholder.id, (d: Document) => done),
        store.transactions + [GeneratedTransaction(placeholder.id, a, today)])
    case None =>
      DocumentStore(
        MapWhere(store.documents, (d: Document) => d.id == placeholder.id, (d: Document) => d.(status := Error)),
        store.transactions)
  }

  /**
   * A whole upload with a fresh id: the earlier documents are untouched, the new
   * one ends `completed` with one transaction pointing back to it, or `error`
   * with none, and only a success adds to the transaction list.
   */
  lemma ProcessDocumentLifecycle(store: DocumentStore, id: string, fileName: string,
                                 outcome: Option<DocumentAnalysis>, today: int)
    requires forall d :: d in store.documents ==> d.id != id
    ensures var r := FinishDocument(BeginDocument(store, id, fileName), Placeholder(id, fileName), outcome, today);
            && |r.documents| == |store.documents| + 1
            && r.documents[..|store.documents|] == store.documents
            && var d := r.documents[|store.documents|];
               && d.id == id && d.fileName == fileName
               && (outcome.Some? ==> d.status == Completed && |d.generatedTransactions| == 1
                                     && d.generatedTransactions[0].documentId == Some(id)
                                     && r.transactions == store.transactions + d.generatedTransactions)
               && (outcome.None? ==> d.status == Error && d.generatedTransactions == []
                                     && r.transactions == store.transactions)
  {
    var begun := BeginDocument(store, id, fileName);
    var r := FinishDocument(begun, Placeholder(id, fileName), outcome, today);
    var n := |store.documents|;
    assert begun.documents[n].id == id;
    forall i | 0 <= i < n ensures r.documents[i] == store.documents[i] {
      assert begun.documents[i] == store.documents[i];
      assert store.documents[i] in store.documents;
    }
    assert r.documents[..n] == store.documents;
    if outcome.Some? {
      assert r.transactions == r.transactions[..|store.transactions|] + [r.transactions[|store.transactions|]];
    }
  }
}
