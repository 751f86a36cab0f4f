/**
 * The contract store (`useContracts`): an uploaded contract is appended as a
 * `draft` placeholder of type `other`, then becomes `active` from the analysis or
 * `cancelled` when the analysis fails; afterwards milestones and invoice links
 * are appended and the status can be set, each on the contract with a given id.
 */
module Contracts {
  import opened Optional
  import opened Numerals
  import opened JsNumbers
  import opened Amounts
  import opened Dates
  import opened Text
  import opened Stores

  datatype ContractType = Service | Supply | Maintenance | Consulting | Other

  datatype ContractStatus = Draft | Active | Completed | Cancelled | Expired

  datatype MilestoneStatus = Pending | InProgress | Reached | Overdue

  /** A milestone without its id, as the caller of `addMilestone` supplies it. */
  datatype MilestoneDraft = MilestoneDraft(
    title: string, description: string, dueDate: int, value: real,
    status: MilestoneStatus, invoiceId: Option<string>)

  datatype Milestone = Milestone(id: string, draft: MilestoneDraft)

  datatype Attachment = Attachment(id: string, fileName: string, fileType: string)

  /** The analysis summary a contract keeps; dates are day numbers. */
  datatype ContractInsight = ContractInsight(
    confidence: real,
    parties: seq<string>,
    obligations: seq<string>,
    paymentTerms: seq<string>,
    deliverables: seq<string>,
    penalties: seq<string>,
    terminationClauses: seq<string>,
    riskLevel: string,
    riskFactors: seq<string>,
    recommendations: seq<string>,
    startDate: Option<int>,
    endDate: Option<int>,
    paymentDates: seq<int>,
    insights: seq<string>,
    warnings: seq<string>)

  datatype Contract = Contract(
    id: string,
    number: string,
    title: string,
    clientName: string,
    supplierName: string,
    kind: ContractType,
    status: ContractStatus,
    startDate: int,
    endDate: int,
    value: JsNumber,
    currency: string,
    paymentTerms: string,
    description: string,
    terms: seq<string>,
    deliverables: seq<string>,
    milestones: seq<Milestone>,
    attachments: seq<Attachment>,
    linkedInvoices: seq<string>,
    insight: ContractInsight)

  /** The fields the contract analysis returns; amounts and dates are still text. */
  datatype ContractAnalysis = ContractAnalysis(
    title: string,
    clientName: string,
    supplierName: string,
    contractType: string,
    startDate: string,
    endDate: string,
    value: string,
    currency: string,
    paymentTerms: string,
    description: string,
    terms: seq<string>,
    deliverables: seq<string>,
    parties: seq<string>,
    obligations: seq<string>,
    penalties: seq<string>,
    terminationClauses: seq<string>,
    riskLevel: string,
    riskFactors: seq<string>,
    recommendations: seq<string>,
    keyDates: seq<string>,
    insights: seq<string>,
    warnings: seq<string>,
    confidence: real)

  /** The lower-cased text contains one of the two keywords. */
  predicate Mentions(text: string, a: string, b: string) {
    Includes(ToLower(text), a) || Includes(ToLower(text), b)
  }

  /**
   * `mapContractType`: the first keyword pair, in the order service, supply,
   * maintenance, consulting, that the lower-cased text contains decides the type;
   * with none of them the type is `other`.
   */
  function MapContractType(text: string): (t: ContractType)
    ensures t == Service <==> Mentions(text, "servicii", "service")
    ensures t == Supply <==> !Mentions(text, "servicii", "service") && Mentions(text, "furnizare", "supply")
    ensures t == Maintenance <==>
              && !Mentions(text, "servicii", "service") && !Mentions(text, "furnizare", "supply")
              && Mentions(text, "mentenanță", "maintenance")
    ensures t == Consulting <==>
              && !Mentions(text, "servicii", "service") && !Mentions(text, "furnizare", "supply")
              && !Mentions(text, "mentenanță", "maintenance") && Mentions(text, "consultanță", "consulting")
  {
    var lower := ToLower(text);
    if Includes(lower, "servicii") || Includes(lower, "service") then Service
    else if Includes(lower, "furnizare") || Includes(lower, "supply") then Supply
    else if Includes(lower, "mentenanță") || Includes(lower, "maintenance") then Maintenance
    else if Includes(lower, "consultanță") || Includes(lower, "consulting") then Consulting
    else Other
  }

  /** The type does not depend on letter case. */
  lemma MapContractTypeIgnoresCase(text: string)
    ensures MapContractType(ToLower(text)) == MapContractType(text)
  {
    ToLowerIdempotent(text);
  }

  /** Text without any keyword is `other`. */
  lemma MapContractTypeDefault(text: string)
    requires !Mentions(text, "servicii", "service") && !Mentions(text, "furnizare", "supply")
    requires !Mentions(text, "mentenanță", "maintenance") && !Mentions(text, "consultanță", "consulting")
    ensures MapContractType(text) == Other
  {
  }

  /** `xs.map(f).filter(Boolean)` for an `f` that may give null: the values it gives, in order. */
  function Present<T>(xs: seq<T>, f: T -> Option<int>): (r: seq<int>)
    ensures |r| <= |xs|
    ensures forall d :: d in r ==> exists x :: x in xs && f(x) == Some(d)
    ensures (forall x :: x in xs ==> f(x).Some?) ==> |r| == |xs|
  {
    if xs == [] then []
    else
      var rest := Present(xs[1..], f);
      assert forall x :: x in xs[1..] ==> x in xs;
      match f(xs[0])
      case Some(d) => [d] + rest
      case None => rest
  }

  lemma {:induction false} PresentConcat<T>(a: seq<T>, b: seq<T>, f: T -> Option<int>)
    ensures Present(a + b, f) == Present(a, f) + Present(b, f)
    decreases |a|
  {
    if a != [] {
      assert (a + b)[0] == a[0];
      assert (a + b)[1..] == a[1..] + b;
      PresentConcat(a[1..], b, f);
    } else {
      assert a + b == b;
    }
  }

  lemma PresentSnoc<T>(xs: seq<T>, x: T, f: T -> Option<int>)
    ensures Present(xs + [x], f) == Present(xs, f) + (if f(x).Some? then [f(x).value] else [])
  {
    PresentConcat(xs, [x], f);
    assert [x][1..] == [];
  }

  lemma {:induction false} PresentKeepsEvery<T>(xs: seq<T>, f: T -> Option<int>, i: nat)
    requires i < |xs| && f(xs[i]).Some?
    ensures f(xs[i]).value in Present(xs, f)
    decreases i
  {
    if i > 0 {
      assert xs[1..][i - 1] == xs[i];
      PresentKeepsEvery(xs[1..], f, i - 1);
    }
  }

  /** `keyDates.map(parseDate).filter(Boolean)`: the dates that parse, in order. */
  function ParsedDays(texts: seq<string>): (r: seq<int>)
    ensures |r| <= |texts|
    ensures forall d :: d in r ==> exists s :: s in texts && ParsedDay(s) == Some(d)
    ensures (forall s :: s in texts ==> ParsedDay(s).Some?) ==> |r| == |texts|
  {
    Present(texts, ParsedDay)
  }

  /** The filter keeps the texts' order: the dates of two lists are those of the first, then of the second. */
  lemma ParsedDaysConcat(a: seq<string>, b: seq<string>)
    ensures ParsedDays(a + b) == ParsedDays(a) + ParsedDays(b)
  {
    PresentConcat(a, b, ParsedDay);
  }

  /** One more text appends its date exactly when it parses. */
  lemma ParsedDaysSnoc(texts: seq<string>, s: string)
    ensures ParsedDays(texts + [s])
            == ParsedDays(texts) + (if ParsedDay(s).Some? then [ParsedDay(s).value] else [])
  {
    PresentSnoc(texts, s, ParsedDay);
  }

  /** Every text that parses has its date kept. */
  lemma ParsedDaysKeepsEvery(texts: seq<string>, i: nat)
    requires i < |texts| && ParsedDay(texts[i]).Some?
    ensures ParsedDay(texts[i]).value in ParsedDays(texts)
  {
    PresentKeepsEvery(texts, ParsedDay, i);
  }

  const EmptyInsight: ContractInsight :=
    ContractInsight(0.0, [], [], [], [], [], [], "medium", [], [], None, None, [], [], [])

  /**
   * The record appended at upload time. The code reads the clock three times, for
   * the id, the number and the attachment id, so the three readings are separate
   * parameters and may differ.
   */
  function PlaceholderContract(idNow: nat, numberNow: nat, attachmentNow: nat, fileName: string, fileType: string,
                               today: int): (c: Contract)
    ensures c.id == NatToDecimal(idNow) && c.number == "CTR-" + NatToDecimal(numberNow)
    ensures c.status == Draft && c.kind == Other && c.currency == "RON" && c.value == Num(0.0)
    ensures c.milestones == [] && c.linkedInvoices == []
    ensures c.attachments == [Attachment(NatToDecimal(attachmentNow), fileName, fileType)]
  {
    Contract(NatToDecimal(idNow), "CTR-" + NatToDecimal(numberNow), "", "", "", Other, Draft, today, today,
             Num(0.0), "RON", "", "", [], [], [], [Attachment(NatToDecimal(attachmentNow), fileName, fileType)], [],
             EmptyInsight)
  }

  /** The first step of `processContract`: append the placeholder. */
  function BeginContract(contracts: seq<Contract>, placeholder: Contract): (r: seq<Contract>)
    ensures |r| == |contracts| + 1 && r[..|contracts|] == contracts
    ensures r[|contracts|] == placeholder
  {
    contracts + [placeholder]
  }

  /**
   * The placeholder filled in from the analysis: the text fields are copied, the
   * period is parsed (today when a date does not parse), and the insight keeps the
   * parsed dates, with a missing one left out.
   */
  function ActivatedContract(placeholder: Contract, a: ContractAnalysis, today: int): (c: Contract)
    ensures c.id == placeholder.id && c.number == placeholder.number && c.attachments == placeholder.attachments
    ensures c.milestones == placeholder.milestones && c.linkedInvoices == placeholder.linkedInvoices
    ensures c.status == Active && c.kind == MapContractType(a.contractType)
    ensures c.currency == (if a.currency == "" then "RON" else a.currency)
    ensures c.value == ParseAmountFirstRun(a.value)
    ensures c.title == a.title && c.clientName == a.clientName && c.supplierName == a.supplierName
    ensures c.paymentTerms == a.paymentTerms && c.description == a.description
    ensures c.terms == a.terms && c.deliverables == a.deliverables
    ensures c.startDate == DayOrToday(a.startDate, today) && c.endDate == DayOrToday(a.endDate, today)
    ensures c.insight.startDate == ParsedDay(a.startDate) && c.insight.endDate == ParsedDay(a.endDate)
    ensures c.insight.paymentDates == ParsedDays(a.keyDates)
    ensures c.insight.confidence == a.confidence && c.insight.paymentTerms == [a.paymentTerms]
    ensures c.insight.parties == a.parties && c.insight.obligations == a.obligations
    ensures c.insight.deliverables == a.deliverables && c.insight.penalties == a.penalties
    ensures c.insight.terminationClauses == a.terminationClauses
    ensures c.insight.riskLevel == a.riskLevel && c.insight.riskFactors == a.riskFactors
    ensures c.insight.recommendations == a.recommendations
    ensures c.insight.insights == a.insights && c.insight.warnings == a.warnings
  {
    placeholder.(
      title := a.title,
      clientName := a.clientName,
      supplierName := a.supplierName,
      kind := MapContractType(a.contractType),
      status := Active,
      startDate := DayOrToday(a.startDate, today),
      endDate := DayOrToday(a.endDate, today),
      value := ParseAmountFirstRun(a.value),
      currency := if a.currency == "" then "RON" else a.currency,
      paymentTerms := a.paymentTerms,
      description := a.description,
      terms := a.terms,
      deliverables := a.deliverables,
      insight := ContractInsight(
        a.confidence, a.parties, a.obligations, [a.paymentTerms], a.deliverables, a.penalties,
        a.terminationClauses, a.riskLevel, a.riskFactors, a.recommendations,
        ParsedDay(a.startDate), ParsedDay(a.endDate), ParsedDays(a.keyDates), a.insights, a.warnings))
  }

  /** Every key date of the analysis that parses is among the activated contract's payment dates. */
  lemma ActivatedKeepsKeyDates(placeholder: Contract, a: ContractAnalysis, today: int, k: nat)
    requires k < |a.keyDates| && ParsedDay(a.keyDates[k]).Some?
    ensures ParsedDay(a.keyDates[k]).value in ActivatedContract(placeholder, a, today).insight.paymentDates
  {
    ParsedDaysKeepsEvery(a.keyDates, k);
  }

  /**
   * The second step of `processContract`: every contract with the placeholder's id
   * becomes the activated contract on success, or is marked `cancelled` on failure.
   */
  function FinishContract(contracts: seq<Contract>, placeholder: Contract, outcome: Option<ContractAnalysis>, today: int)
    : (r: seq<Contract>)
    ensures |r| == |contracts|
    ensures forall i :: 0 <= i < |contracts| && contracts[i].id != placeholder.id ==> r[i] == contracts[i]
    ensures outcome.Some? ==> forall i :: 0 <= i < |contracts| && contracts[i].id == placeholder.id
                                ==> r[i] == ActivatedContract(placeholder, outcome.value, today)
    ensures outcome.None? ==> forall i :: 0 <= i < |contracts| && contracts[i].id == placeholder.id
                                ==> r[i] == contracts[i].(status := Cancelled)
  {
    match outcome
    case Some(a) =>
      var done := ActivatedContract(placeholder, a, today);
      MapWhere(contracts, (c: Contract) => c.id == placeholder.id, (c: Contract) => done)
    case None =>
      MapWhere(contracts, (c: Contract) => c.id == placeholder.id, (c: Contract) => c.(status := Cancelled))
  }

  /**
   * A whole upload with a fresh timestamp: earlier contracts are untouched and the
   * new one ends `active` with the mapped type, or `cancelled`.
   */
  lemma ProcessContractLifecycle(contracts: seq<Contract>, idNow: nat, numberNow: nat, attachmentNow: nat,
                                 fileName: string, fileType: string, outcome: Option<ContractAnalysis>, today: int)
    requires forall c :: c in contracts ==> c.id != NatToDecimal(idNow)
    ensures var placeholder := PlaceholderContract(idNow, numberNow, attachmentNow, fileName, fileType, today);
            var r := FinishContract(BeginContract(contracts, placeholder), placeholder, outcome, today);
            && |r| == |contracts| + 1
            && r[..|contracts|] == contracts
            && r[|contracts|].id == NatToDecimal(idNow)
            && (outcome.Some? ==> r[|contracts|].status == Active
                                  && r[|contracts|].kind == MapContractType(outcome.value.contractType))
            && (outcome.None? ==> r[|contracts|] == placeholder.(status := Cancelled))
  {
    var placeholder := PlaceholderContract(idNow, numberNow, attachmentNow, fileName, fileType, today);
    var begun := BeginContract(contracts, placeholder);
    var r := FinishContract(begun, placeholder, outcome, today);
    forall i | 0 <= i < |contracts| ensures r[i] == contracts[i] {
      assert begun[i] == contracts[i];
      assert contracts[i] in contracts;
    }
    assert r[..|contracts|] == contracts;
  }

  /** `addMilestone`: the milestone, with the given fresh id, is appended to the contract with `contractId`. */
  function AddMilestone(contracts: seq<Contract>, contractId: string, id: string, m: MilestoneDraft)
    : (r: seq<Contract>)
    ensures |r| == |contracts|
    ensures forall i :: 0 <= i < |contracts| && contracts[i].id != contractId ==> r[i] == contracts[i]
    ensures forall i :: 0 <= i < |contracts| && contracts[i].id == contractId ==>
              && |r[i].milestones| == |contracts[i].milestones| + 1
              && r[i].milestones[..|contracts[i].milestones|] == contracts[i].milestones
              && r[i].milestones[|contracts[i].milestones|] == Milestone(id, m)
              && r[i] == contracts[i].(milestones := r[i].milestones)
  {
    MapWhere(contracts, (c: Contract) => c.id == contractId,
             (c: Contract) => c.(milestones := c.milestones + [Milestone(id, m)]))
  }

  /** `linkInvoice`: the invoice id is appended to the contract with `contractId`. */
  function LinkInvoice(contracts: seq<Contract>, contractId: string, invoiceId: string): (r: seq<Contract>)
    ensures |r| == |contracts|
    ensures forall i :: 0 <= i < |contracts| && contracts[i].id != contractId ==> r[i] == contracts[i]
    ensures forall i :: 0 <= i < |contracts| && contracts[i].id == contractId ==>
              && r[i].linkedInvoices == contracts[i].linkedInvoices + [invoiceId]
              && r[i] == contracts[i].(linkedInvoices := r[i].linkedInvoices)
  {
    MapWhere(contracts, (c: Contract) => c.id == contractId,
             (c: Contract) => c.(linkedInvoices := c.linkedInvoices + [invoiceId]))
  }

  /** `updateContractStatus`: only the status of the contract with `contractId` changes. */
  function UpdateContractStatus(contracts: seq<Contract>, contractId: string, status: ContractStatus)
    : (r: seq<Contract>)
    ensures |r| == |contracts|
    ensures forall i :: 0 <= i < |contracts| && contracts[i].id != contractId ==> r[i] == contracts[i]
    ensures forall i :: 0 <= i < |contracts| && contracts[i].id == contractId ==>
              r[i] == contracts[i].(status := status)
  {
    MapWhere(contracts, (c: Contract) => c.id == contractId, (c: Contract) => c.(status := status))
  }

  /** How many contracts carry the id. */
  function CountWithId(contracts: seq<Contract>, id: string): nat {
    if contracts == [] then 0
    else (if contracts[0].id == id then 1 else 0) + CountWithId(contracts[1..], id)
  }

  /** The number of invoice links over all contracts. */
  function TotalLinks(contracts: seq<Contract>): nat {
    if contracts == [] then 0 else |contracts[0].linkedInvoices| + TotalLinks(contracts[1..])
  }

  /** Linking adds one link to each contract with the id, and nothing elsewhere. */
  lemma {:induction false} LinkInvoiceCount(contracts: seq<Contract>, contractId: string, invoiceId: string)
    ensures TotalLinks(LinkInvoice(contracts, contractId, invoiceId)) == TotalLinks(contracts) + CountWithId(contracts, contractId)
    decreases |contracts|
  {
    if contracts != [] {
      var r := LinkInvoice(contracts, contractId, invoiceId);
      assert r[1..] == LinkInvoice(contracts[1..], contractId, invoiceId);
      LinkInvoiceCount(contracts[1..], contractId, invoiceId);
    }
  }

  /** With unique ids and the target present, exactly one link is added in all. */
  lemma LinkInvoiceAddsExactlyOne(contracts: seq<Contract>, k: nat, invoiceId: string)
    requires k < |contracts|
    requires forall i, j :: 0 <= i < j < |contracts| ==> contracts[i].id != contracts[j].id
    ensures TotalLinks(LinkInvoice(contracts, contracts[k].id, invoiceId)) == TotalLinks(contracts) + 1
  {
    LinkInvoiceCount(contracts, contracts[k].id, invoiceId);
    CountUnique(contracts, k);
  }

  lemma {:induction false} CountUnique(contracts: seq<Contract>, k: nat)
    requires k < |contracts|
    requires forall i, j :: 0 <= i < j < |contracts| ==> contracts[i].id != contracts[j].id
    ensures CountWithId(contracts, contracts[k].id) == 1
    decreases |contracts|
  {
    if k == 0 {
      CountAbsent(contracts[1..], contracts[0].id);
    } else {
      CountUnique(contracts[1..], k - 1);
    }
  }

  lemma {:induction false} CountAbsent(contracts: seq<Contract>, id: string)
    requires forall c :: c in contracts ==> c.id != id
    ensures CountWithId(contracts, id) == 0
    decreases |contracts|
  {
    if contracts != [] {
      assert contracts[0] in contracts;
      assert forall c :: c in contracts[1..] ==> c in contracts;
      CountAbsent(contracts[1..], id);
    }
  }
}
