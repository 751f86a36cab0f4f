/**
 * The accounting store (`useAccounting`): clients, invoices, tax reports and the
 * invoice numbering settings. The code takes ids from the clock; here they are
 * parameters.
 */
module Accounting {
  import opened Optional
  import opened Numerals
  import opened Stores

  datatype ClientStatus = ClientActive | ClientInactive

  datatype Client = Client(
    id: string,
    name: string,
    email: string,
    phone: string,
    address: string,
    cui: string,
    regCom: string,
    iban: string,
    bank: string,
    totalInvoiced: real,
    totalPaid: real,
    status: ClientStatus)

  /** The client fields a form supplies to `addClient`. */
  datatype ClientForm = ClientForm(
    name: string, email: string, phone: string, address: string, cui: string,
    regCom: string, iban: string, bank: string, status: ClientStatus)

  datatype InvoiceStatus = Draft | Sent | Paid | Overdue | Cancelled

  datatype InvoiceItem = InvoiceItem(
    id: string, description: string, quantity: real, unitPrice: real, vatRate: real, total: real)

  /** What `createInvoice` receives: an invoice without id, number and client record. */
  datatype InvoiceDraft = InvoiceDraft(
    clientId: string,
    issueDate: int,
    dueDate: int,
    items: seq<InvoiceItem>,
    subtotal: real,
    vatAmount: real,
    total: real,
    status: InvoiceStatus,
    notes: string,
    paymentTerms: int,
    currency: string)

  datatype Invoice = Invoice(
    id: string,
    number: string,
    clientId: string,
    client: Client,
    issueDate: int,
    dueDate: int,
    items: seq<InvoiceItem>,
    subtotal: real,
    vatAmount: real,
    total: real,
    status: InvoiceStatus,
    notes: string,
    paymentTerms: int,
    currency: string)

  /** The two company settings invoice numbering reads. */
  datatype Settings = Settings(invoicePrefix: string, invoiceCounter: int)

  const InitialSettings: Settings := Settings("INV", 1)

  datatype TaxReportKind = Monthly | Quarterly | Annual

  datatype TaxReportStatus = ReportDraft | Submitted

  datatype TaxReport = TaxReport(
    id: string,
    period: string,
    kind: TaxReportKind,
    totalIncome: real,
    totalExpenses: real,
    vatCollected: real,
    vatPaid: real,
    netVat: real,
    profitBeforeTax: real,
    incomeTax: real,
    netProfit: real,
    status: TaxReportStatus)

  datatype AccountingState = AccountingState(
    clients: seq<Client>,
    invoices: seq<Invoice>,
    taxReports: seq<TaxReport>,
    settings: Settings)

  /** `clients.find(c => c.id === id)`: the first client with the id. */
  function FindClient(clients: seq<Client>, id: string): (r: Option<Client>)
    ensures r.None? <==> forall c :: c in clients ==> c.id != id
    ensures r.Some? ==> exists k :: 0 <= k < |clients| && clients[k] == r.value && r.value.id == id
                                   && forall j :: 0 <= j < k ==> clients[j].id != id
  {
    if clients == [] then None
    else if clients[0].id == id then Some(clients[0])
    else
      var rest := FindClient(clients[1..], id);
      assert forall c :: c in clients ==> c == clients[0] || c in clients[1..];
      if rest.Some? then
        var k :| 0 <= k < |clients[1..]| && clients[1..][k] == rest.value && rest.value.id == id
                 && forall j :: 0 <= j < k ==> clients[1..][j].id != id;
        assert clients[k + 1] == rest.value;
        rest
      else rest
  }

  /** The record an invoice carries when its client id is unknown. */
  function FallbackClient(id: string): (c: Client)
    ensures c.id == id && c.name == "Client Necunoscut"
    ensures c.totalInvoiced == 0.0 && c.totalPaid == 0.0 && c.status == ClientActive
  {
    Client(id, "Client Necunoscut", "", "", "", "", "", "", "", 0.0, 0.0, ClientActive)
  }

  /**
   * `${prefix}-${counter.toString().padStart(4, '0')}`: the prefix, a dash, and at
   * least four characters for the counter (see `InvoiceNumberReadsBack`).
   */
  function InvoiceNumber(prefix: string, counter: int): (r: string)
    ensures |r| >= |prefix| + 5 && r[..|prefix| + 1] == prefix + "-"
  {
    prefix + "-" + CounterText(counter)
  }

  /** `String(counter).padStart(4, '0')`. */
  function CounterText(counter: int): string {
    PadStart(IntToDecimal(counter), 4, '0')
  }

  datatype Created = Created(state: AccountingState, invoice: Invoice)

  /** The invoice carries every field of the draft unchanged. */
  predicate CarriesDraft(inv: Invoice, d: InvoiceDraft) {
    && inv.clientId == d.clientId && inv.issueDate == d.issueDate && inv.dueDate == d.dueDate
    && inv.items == d.items && inv.subtotal == d.subtotal && inv.vatAmount == d.vatAmount
    && inv.total == d.total && inv.status == d.status && inv.notes == d.notes
    && inv.paymentTerms == d.paymentTerms && inv.currency == d.currency
  }

  /** Adds `amount` to the invoiced total of every client with the id; the others are unchanged. */
  function AddToInvoiced(clients: seq<Client>, id: string, amount: real): (r: seq<Client>)
    ensures |r| == |clients|
    ensures forall i :: 0 <= i < |clients| && clients[i].id != id ==> r[i] == clients[i]
    ensures forall i :: 0 <= i < |clients| && clients[i].id == id ==>
              r[i] == clients[i].(totalInvoiced := clients[i].totalInvoiced + amount)
  {
    MapWhere(clients, (c: Client) => c.id == id, (c: Client) => c.(totalInvoiced := c.totalInvoiced + amount))
  }

  /** The client record an invoice carries: the first with the id, else the fallback. */
  function InvoiceClient(clients: seq<Client>, id: string): (c: Client)
    ensures c.id == id
    ensures (forall k :: 0 <= k < |clients| ==> clients[k].id != id) ==> c == FallbackClient(id)
    ensures (exists k :: 0 <= k < |clients| && clients[k].id == id) ==> c in clients
  {
    FindClient(clients, id).GetOr(FallbackClient(id))
  }

  /**
   * `createInvoice`: numbers the invoice from the counter, attaches the client
   * record (or the fallback), appends the invoice, increments the counter and adds
   * the total to every client with the invoice's client id.
   */
  function CreateInvoice(st: AccountingState, d: InvoiceDraft, id: string): (r: Created)
    ensures r.invoice.id == id && r.invoice.number == InvoiceNumber(st.settings.invoicePrefix, st.settings.invoiceCounter)
    ensures CarriesDraft(r.invoice, d)
    ensures r.invoice.client == InvoiceClient(st.clients, d.clientId)
    ensures r.state.invoices == st.invoices + [r.invoice]
    ensures r.state.settings == st.settings.(invoiceCounter := st.settings.invoiceCounter + 1)
    ensures r.state.taxReports == st.taxReports
    ensures r.state.clients == AddToInvoiced(st.clients, d.clientId, d.total)
  {
    var invoice := Invoice(
      id, InvoiceNumber(st.settings.invoicePrefix, st.settings.invoiceCounter), d.clientId,
      InvoiceClient(st.clients, d.clientId), d.issueDate, d.dueDate, d.items, d.subtotal, d.vatAmount,
      d.total, d.status, d.notes, d.paymentTerms, d.currency);
    Created(
      AccountingState(AddToInvoiced(st.clients, d.clientId, d.total), st.invoices + [invoice], st.taxReports,
                      st.settings.(invoiceCounter := st.settings.invoiceCounter + 1)),
      invoice)
  }

  /**
   * A non-negative counter is written after the prefix and a dash, in at least four
   * digits, and those digits read back as the counter.
   */
  lemma InvoiceNumberReadsBack(prefix: string, counter: int)
    requires counter >= 0
    ensures var n := InvoiceNumber(prefix, counter);
            var suffix := n[|prefix| + 1..];
            && n[..|prefix| + 1] == prefix + "-"
            && |suffix| >= 4 && AllDigits(suffix) && DigitsValue(suffix) == counter
  {
    var digits := NatToDecimal(counter);
    var suffix := PadStart(digits, 4, '0');
    var n := InvoiceNumber(prefix, counter);
    assert n == (prefix + "-") + suffix;
    assert n[|prefix| + 1..] == suffix;
    var zeros := suffix[..|suffix| - |digits|];
    assert suffix == zeros + digits;
    LeadingZerosIgnored(zeros, digits);
    DecimalRoundTrip(counter);
  }

  /** Different non-negative counters give different invoice numbers. */
  lemma InvoiceNumbersDistinct(prefix: string, a: int, b: int)
    requires 0 <= a && 0 <= b && a != b
    ensures InvoiceNumber(prefix, a) != InvoiceNumber(prefix, b)
  {
    InvoiceNumberReadsBack(prefix, a);
    InvoiceNumberReadsBack(prefix, b);
  }

  /**
   * Distinct counters give distinct numbers, negative counters included: a
   * negative counter's padded text has its one minus sign where the digits of
   * its magnitude begin, and everything else is a digit.
   */
  lemma InvoiceNumbersDistinctAnyCounter(prefix: string, a: int, b: int)
    requires a != b
    ensures InvoiceNumber(prefix, a) != InvoiceNumber(prefix, b)
  {
    if 0 <= a && 0 <= b {
      InvoiceNumbersDistinct(prefix, a, b);
    } else {
      assert InvoiceNumber(prefix, a)[|prefix| + 1..] == CounterText(a);
      assert InvoiceNumber(prefix, b)[|prefix| + 1..] == CounterText(b);
      PaddedCountersDistinct(a, b);
    }
  }

  /** The padded texts of two distinct counters, one of them negative, differ. */
  lemma PaddedCountersDistinct(a: int, b: int)
    requires a != b && (a < 0 || b < 0)
    ensures CounterText(a) != CounterText(b)
  {
    if a < 0 && b < 0 {
      NegativeCountersDistinct(a, b);
    } else if a < 0 {
      MixedCountersDistinct(a, b);
    } else {
      MixedCountersDistinct(b, a);
    }
  }

  lemma NegativeCountersDistinct(a: int, b: int)
    requires a < 0 && b < 0 && a != b
    ensures CounterText(a) != CounterText(b)
  {
    var ka := MinusPosition(a);
    var kb := MinusPosition(b);
    DecimalInjective(-a, -b);
    SignedTextsDistinct(CounterText(a), ka, NatToDecimal(-a), CounterText(b), kb, NatToDecimal(-b));
  }

  lemma MixedCountersDistinct(a: int, b: int)
    requires a < 0 <= b
    ensures CounterText(a) != CounterText(b)
  {
    var ka := MinusPosition(a);
    PaddedNaturalDigits(b);
    UnsignedTextDistinct(CounterText(a), ka, CounterText(b));
  }

  /** A text with a minus sign differs from a text of digits only. */
  lemma UnsignedTextDistinct(p: string, k: nat, q: string)
    requires k < |p| && p[k] == '-' && AllDigits(q)
    ensures p != q
  {
    if |p| == |q| {
      assert p[k] != q[k];
    }
  }

  /**
   * Two texts that each hold one minus sign, followed by different digit runs,
   * with digits everywhere else, differ.
   */
  lemma SignedTextsDistinct(p: string, k: nat, d: string, q: string, j: nat, e: string)
    requires k < |p| && p[k] == '-' && p[k + 1..] == d && forall i :: 0 <= i < |p| && i != k ==> IsDigit(p[i])
    requires j < |q| && q[j] == '-' && q[j + 1..] == e && forall i :: 0 <= i < |q| && i != j ==> IsDigit(q[i])
    requires d != e
    ensures p != q
  {
    if |p| == |q| {
      if k < j {
        assert p[j] != q[j];
      } else if j < k {
        assert p[k] != q[k];
      } else {
        assert p[k + 1..] != q[k + 1..];
      }
    }
  }

  /** A non-negative counter pads to digits only. */
  lemma PaddedNaturalDigits(n: int)
    requires n >= 0
    ensures AllDigits(CounterText(n))
  {
  }

  /**
   * In a negative counter's padded text, the minus sign sits at `k`, the
   * magnitude's digits follow it, and every other character is a digit.
   */
  lemma MinusPosition(n: int) returns (k: nat)
    requires n < 0
    ensures var p := CounterText(n);
            && k < |p| && p[k] == '-' && p[k + 1..] == NatToDecimal(-n)
            && forall i :: 0 <= i < |p| && i != k ==> IsDigit(p[i])
  {
    var d := NatToDecimal(-n);
    var p := CounterText(n);
    k := |p| - |d| - 1;
    assert p[k..] == "-" + d;
    assert p[k + 1..] == d;
    forall i | 0 <= i < |p| && i != k ensures IsDigit(p[i]) {
      if i > k {
        assert p[i] == d[i - k - 1];
      }
    }
  }

  /** Two invoices created one after the other get different numbers, whatever the counter. */
  lemma SuccessiveInvoicesNumberedApart(st: AccountingState, d1: InvoiceDraft, id1: string, d2: InvoiceDraft, id2: string)
    ensures var first := CreateInvoice(st, d1, id1);
            var second := CreateInvoice(first.state, d2, id2);
            first.invoice.number != second.invoice.number
  {
    InvoiceNumbersDistinctAnyCounter(st.settings.invoicePrefix, st.settings.invoiceCounter, st.settings.invoiceCounter + 1);
  }

  /** A negative counter (the settings form accepts one) is padded around its minus sign. */
  lemma NegativeCounterNumber()
    ensures InvoiceNumber("INV", -5) == "INV-00-5"
  {
    assert IntToDecimal(-5) == "-5";
  }

  /** `addClient`: the client is appended with nothing invoiced and nothing paid. */
  function AddClient(clients: seq<Client>, id: string, f: ClientForm): (r: seq<Client>)
    ensures |r| == |clients| + 1 && r[..|clients|] == clients
    ensures FromForm(r[|clients|], id, f)
  {
    clients + [Client(id, f.name, f.email, f.phone, f.address, f.cui, f.regCom, f.iban, f.bank, 0.0, 0.0, f.status)]
  }

  /** The client carries the id and every field of the form, with nothing invoiced or paid yet. */
  predicate FromForm(c: Client, id: string, f: ClientForm) {
    && c.id == id && c.name == f.name && c.email == f.email && c.phone == f.phone && c.address == f.address
    && c.cui == f.cui && c.regCom == f.regCom && c.iban == f.iban && c.bank == f.bank && c.status == f.status
    && c.totalInvoiced == 0.0 && c.totalPaid == 0.0
  }

  /** `generateTaxReport`: a draft report with every figure 0 is appended. */
  function GenerateTaxReport(reports: seq<TaxReport>, id: string, period: string, kind: TaxReportKind)
    : (r: seq<TaxReport>)
    ensures |r| == |reports| + 1 && r[..|reports|] == reports
    ensures var t := r[|reports|];
            && t.id == id && t.period == period && t.kind == kind && t.status == ReportDraft
            && t.totalIncome == 0.0 && t.totalExpenses == 0.0 && t.vatCollected == 0.0 && t.vatPaid == 0.0
            && t.netVat == 0.0 && t.profitBeforeTax == 0.0 && t.incomeTax == 0.0 && t.netProfit == 0.0
  {
    reports + [TaxReport(id, period, kind, 0.0, 0.0, 0.0, 0.0, 0.0, 0.0, 0.0, 0.0, ReportDraft)]
  }
}
