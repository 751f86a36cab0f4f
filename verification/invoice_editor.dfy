/**
 * The line-item editor of the invoice form (`InvoiceManager`): adding, removing
 * and editing lines, the totals shown under them, and the submission that hands
 * a numbered draft to `createInvoice`. Amounts are exact reals.
 */
module InvoiceEditor {
  import opened Optional
  import opened Numerals
  import opened Accounting

  /** An invoice line as the form holds it: an `InvoiceItem` without its id. */
  datatype LineItem = LineItem(description: string, quantity: real, unitPrice: real, vatRate: real, total: real)

  /** The line every new or reset form starts with. */
  const DefaultItem: LineItem := LineItem("", 1.0, 0.0, 19.0, 0.0)

  /** The line's total is its net amount plus VAT at its rate. */
  predicate Consistent(item: LineItem) {
    item.total == item.quantity * item.unitPrice * (1.0 + item.vatRate / 100.0)
  }

  /** The editor's invariant: at least one line, and every total agrees with its line. */
  predicate EditorInvariant(items: seq<LineItem>) {
    |items| >= 1 && forall i :: 0 <= i < |items| ==> Consistent(items[i])
  }

  lemma DefaultItemConsistent()
    ensures Consistent(DefaultItem)
    ensures EditorInvariant([DefaultItem])
  {
  }

  /** `addInvoiceItem`: one default line is appended. */
  function AddItem(items: seq<LineItem>): (r: seq<LineItem>)
    ensures |r| == |items| + 1 && r[..|items|] == items && r[|items|] == DefaultItem
  {
    items + [DefaultItem]
  }

  /** `items.filter((_, i) => i !== index)`, where the first element has position `start`. */
  function KeepOthers(items: seq<LineItem>, index: int, start: nat): (r: seq<LineItem>)
    ensures 0 <= index - start < |items| ==> r == items[..index - start] + items[index - start + 1..]
    ensures !(0 <= index - start < |items|) ==> r == items
    decreases |items|
  {
    if items == [] then []
    else
      var rest := KeepOthers(items[1..], index, start + 1);
      if start == index then
        assert rest == items[1..];
        rest
      else
        assert 0 < index - start < |items| ==> items[1..][..index - start - 1] == items[1..index - start];
        [items[0]] + rest
  }

  /**
   * `removeInvoiceItem`: with more than one line, the line at `index` is dropped and
   * the others keep their order; a single line is never removed.
   */
  function RemoveItem(items: seq<LineItem>, index: int): (r: seq<LineItem>)
    ensures |items| <= 1 ==> r == items
    ensures |items| > 1 && 0 <= index < |items| ==> r == items[..index] + items[index + 1..]
    ensures |items| > 1 && !(0 <= index < |items|) ==> r == items
    ensures |items| >= 1 ==> |r| >= 1
  {
    if |items| > 1 then KeepOthers(items, index, 0) else items
  }

  /** The field an edit writes, with its new value. */
  datatype Edit =
    | SetDescription(text: string)
    | SetQuantity(quantity: real)
    | SetUnitPrice(unitPrice: real)
    | SetVatRate(vatRate: real)
    | SetTotal(total: real)

  predicate IsPricing(e: Edit) {
    e.SetQuantity? || e.SetUnitPrice? || e.SetVatRate?
  }

  function Write(item: LineItem, e: Edit): LineItem {
    match e
    case SetDescription(t) => item.(description := t)
    case SetQuantity(q) => item.(quantity := q)
    case SetUnitPrice(p) => item.(unitPrice := p)
    case SetVatRate(v) => item.(vatRate := v)
    case SetTotal(t) => item.(total := t)
  }

  /**
   * `updateInvoiceItem`: writes the field of the line at `index`; when the field is
   * the quantity, the unit price or the VAT rate the line's total is recomputed as
   * net amount plus VAT. The other lines are unchanged.
   */
  function UpdateItem(items: seq<LineItem>, index: nat, e: Edit): (r: seq<LineItem>)
    requires index < |items|
    ensures |r| == |items|
    ensures forall i :: 0 <= i < |items| && i != index ==> r[i] == items[i]
    ensures IsPricing(e) ==> Consistent(r[index]) && r[index] == Write(items[index], e).(total := r[index].total)
    ensures !IsPricing(e) ==> r[index] == Write(items[index], e)
  {
    var item := Write(items[index], e);
    var updated :=
      if IsPricing(e) then
        var subtotal := item.quantity * item.unitPrice;
        var vatAmount := subtotal * (item.vatRate / 100.0);
        assert subtotal + vatAmount == item.quantity * item.unitPrice * (1.0 + item.vatRate / 100.0);
        item.(total := subtotal + vatAmount)
      else item;
    items[index := updated]
  }

  datatype Totals = Totals(subtotal: real, vatAmount: real, total: real)

  function NetSum(items: seq<LineItem>): real {
    if items == [] then 0.0 else items[0].quantity * items[0].unitPrice + NetSum(items[1..])
  }

  function VatSum(items: seq<LineItem>): real {
    if items == [] then 0.0
    else items[0].quantity * items[0].unitPrice * (items[0].vatRate / 100.0) + VatSum(items[1..])
  }

  /** The sum of the totals stored in the lines. */
  function LineTotalSum(items: seq<LineItem>): real {
    if items == [] then 0.0 else items[0].total + LineTotalSum(items[1..])
  }

  /**
   * `calculateTotals`: net sum, VAT sum, and their sum. When every line is
   * consistent the grand total is the sum of the totals the lines show.
   */
  function CalculateTotals(items: seq<LineItem>): (t: Totals)
    ensures t.total == t.subtotal + t.vatAmount
    ensures (forall i :: 0 <= i < |items| ==> Consistent(items[i])) ==> t.total == LineTotalSum(items)
  {
    var subtotal := NetSum(items);
    var vatAmount := VatSum(items);
    NetPlusVatIsLineTotals(items);
    Totals(subtotal, vatAmount, subtotal + vatAmount)
  }

  /** When every line is consistent, net sum plus VAT sum is the sum of the line totals. */
  lemma {:induction false} NetPlusVatIsLineTotals(items: seq<LineItem>)
    ensures (forall i :: 0 <= i < |items| ==> Consistent(items[i]))
              ==> NetSum(items) + VatSum(items) == LineTotalSum(items)
    decreases |items|
  {
    if items != [] && forall i :: 0 <= i < |items| ==> Consistent(items[i]) {
      assert Consistent(items[0]);
      assert forall i :: 0 <= i < |items[1..]| ==> Consistent(items[1..][i]) by {
        forall i | 0 <= i < |items[1..]| ensures Consistent(items[1..][i]) {
          assert items[1..][i] == items[i + 1];
        }
      }
      NetPlusVatIsLineTotals(items[1..]);
      var it := items[0];
      assert it.total == it.quantity * it.unitPrice + it.quantity * it.unitPrice * (it.vatRate / 100.0);
    }
  }

  /** The sums are the `reduce` over the lines: splitting the lines splits the sums. */
  lemma {:induction false} SumsOfConcat(a: seq<LineItem>, b: seq<LineItem>)
    ensures NetSum(a + b) == NetSum(a) + NetSum(b)
    ensures VatSum(a + b) == VatSum(a) + VatSum(b)
    decreases |a|
  {
    if a != [] {
      assert (a + b)[0] == a[0];
      assert (a + b)[1..] == a[1..] + b;
      SumsOfConcat(a[1..], b);
    } else {
      assert a + b == b;
    }
  }

  /** So the grand total of two runs of lines is the sum of their grand totals. */
  lemma TotalsOfConcat(a: seq<LineItem>, b: seq<LineItem>)
    ensures CalculateTotals(a + b).subtotal == CalculateTotals(a).subtotal + CalculateTotals(b).subtotal
    ensures CalculateTotals(a + b).vatAmount == CalculateTotals(a).vatAmount + CalculateTotals(b).vatAmount
    ensures CalculateTotals(a + b).total == CalculateTotals(a).total + CalculateTotals(b).total
  {
    SumsOfConcat(a, b);
  }

  /** Adding, removing and editing a price field keep the editor's invariant. */
  lemma AddKeepsInvariant(items: seq<LineItem>)
    requires EditorInvariant(items)
    ensures EditorInvariant(AddItem(items))
  {
    var r := AddItem(items);
    forall i | 0 <= i < |r| ensures Consistent(r[i]) {
      if i < |items| {
        assert r[i] == items[i];
      }
    }
  }

  lemma RemoveKeepsInvariant(items: seq<LineItem>, index: int)
    requires EditorInvariant(items)
    ensures EditorInvariant(RemoveItem(items, index))
  {
    var r := RemoveItem(items, index);
    if |items| > 1 && 0 <= index < |items| {
      forall i | 0 <= i < |r| ensures Consistent(r[i]) {
        if i < index {
          assert r[i] == items[i];
        } else {
          assert r[i] == items[i + 1];
        }
      }
    }
  }

  lemma UpdateKeepsInvariant(items: seq<LineItem>, index: nat, e: Edit)
    requires EditorInvariant(items) && index < |items| && !e.SetTotal?
    ensures EditorInvariant(UpdateItem(items, index, e))
  {
    var r := UpdateItem(items, index, e);
    if e.SetDescription? {
      assert Consistent(items[index]);
    }
    forall i | 0 <= i < |r| ensures Consistent(r[i]) {
      if i != index {
        assert r[i] == items[i];
      }
    }
  }

  /** `invoiceItems.map((item, index) => ({ ...item, id: `item-${index}` }))`. */
  function Numbered(items: seq<LineItem>): (r: seq<InvoiceItem>)
    ensures |r| == |items|
    ensures forall i :: 0 <= i < |items| ==>
              && r[i].id == "item-" + NatToDecimal(i)
              && r[i].description == items[i].description && r[i].quantity == items[i].quantity
              && r[i].unitPrice == items[i].unitPrice && r[i].vatRate == items[i].vatRate
              && r[i].total == items[i].total
  {
    seq(|items|, i requires 0 <= i < |items| =>
      InvoiceItem("item-" + NatToDecimal(i), items[i].description, items[i].quantity,
                  items[i].unitPrice, items[i].vatRate, items[i].total))
  }

  /** The numbered items have pairwise distinct ids. */
  lemma NumberedIdsDistinct(items: seq<LineItem>, i: nat, j: nat)
    requires i < j < |items|
    ensures Numbered(items)[i].id != Numbered(items)[j].id
  {
    PrefixedDecimalsDistinct("item-", i, j);
  }

  /** The form's selection and lines. */
  datatype EditorState = EditorState(selectedClient: string, items: seq<LineItem>)

  const InitialEditor: EditorState := EditorState("", [DefaultItem])

  /**
   * The remaining form fields, as the form holds them when it is submitted. The
   * dates are day numbers; the status select offers `draft` and `sent`.
   */
  datatype InvoiceForm = InvoiceForm(
    issueDate: int, dueDate: int, paymentTerms: int, currency: string, notes: string, status: InvoiceStatus)

  /**
   * The form a fresh or reset editor shows: issued `today`, due 30 days later,
   * 30 days' payment terms, in RON, without notes, as a draft.
   */
  function FreshForm(today: int): (f: InvoiceForm)
    ensures f.dueDate - f.issueDate == 30 && f.issueDate == today
    ensures f.paymentTerms == 30 && f.currency == "RON" && f.notes == "" && f.status == Draft
  {
    InvoiceForm(today, today + 30, 30, "RON", "", Draft)
  }

  datatype Submission = Submission(draft: Option<InvoiceDraft>, next: EditorState, nextForm: InvoiceForm)

  /**
   * `handleCreateInvoice`: nothing happens without a selected client; otherwise a
   * draft with numbered items, the computed totals and every form field is handed
   * over, the editor is reset to one default line and the form to its defaults.
   */
  function HandleCreateInvoice(st: EditorState, form: InvoiceForm, today: int): (r: Submission)
    ensures st.selectedClient == "" ==> r == Submission(None, st, form)
    ensures st.selectedClient != "" ==>
              && r.next == InitialEditor && r.nextForm == FreshForm(today)
              && r.draft.Some?
              && var d := r.draft.value;
                 && d.clientId == st.selectedClient && d.items == Numbered(st.items)
                 && d.subtotal == NetSum(st.items) && d.vatAmount == VatSum(st.items)
                 && d.total == d.subtotal + d.vatAmount
                 && d.issueDate == form.issueDate && d.dueDate == form.dueDate && d.status == form.status
                 && d.notes == form.notes && d.paymentTerms == form.paymentTerms && d.currency == form.currency
  {
    if st.selectedClient == "" then Submission(None, st, form)
    else
      var t := CalculateTotals(st.items);
      var d := InvoiceDraft(st.selectedClient, form.issueDate, form.dueDate, Numbered(st.items),
                            t.subtotal, t.vatAmount, t.total, form.status, form.notes, form.paymentTerms,
                            form.currency);
      Submission(Some(d), InitialEditor, FreshForm(today))
  }

  /**
   * Submitting a consistent form and creating the invoice adds the sum of the
   * line totals to the selected client's invoiced total.
   */
  lemma SubmittedTotalReachesClient(st: EditorState, form: InvoiceForm, today: int, acc: AccountingState, id: string,
                                    k: nat)
    requires st.selectedClient != "" && EditorInvariant(st.items)
    requires k < |acc.clients| && acc.clients[k].id == st.selectedClient
    ensures var d := HandleCreateInvoice(st, form, today).draft.value;
            CreateInvoice(acc, d, id).state.clients[k].totalInvoiced
              == acc.clients[k].totalInvoiced + LineTotalSum(st.items)
  {
  }
}
