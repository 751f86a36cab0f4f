# ContaAI bookkeeping core in Dafny

ContaAI is a React bookkeeping application for Romanian companies. This project models its core in Dafny and proves properties of it. The core is made of:

- the in-memory stores behind the hooks: documents (`useDocuments`), contracts (`useContracts`), clients, invoices and tax reports (`useAccounting`), and bank statements and reconciliations (`useBankReconciliation`);
- the text parsers those hooks share: two `parseAmount` variants, `parseDate`, `isDateClose`, `mapContractType` and `categorizeTransactionType`;
- the line-item editor of the invoice form (`InvoiceManager`).

The model uses immutable data and pure functions. Each state-setter update (`setX(prev => …)`) becomes a function from the old list to the new one. Each `async` upload becomes two steps:

1. appending the placeholder record;
2. finishing it from the analysis outcome. The outcome is `Some(analysis)` on success and `None` when the analysis throws. A returned analysis is assumed complete (see "Left out").

Values the code takes from the environment are parameters:

- `Date.now()` ids;
- `new Date()` as `today`;
- the analysis results.

Modules, one per file:

| module | models |
|---|---|
| `Numerals` | `toString`, `parseInt` and `padStart` on integers |
| `Text` | `toLowerCase` and `includes` |
| `Stores` | the `prev.map(x => x.id === id ? … : x)` update every store performs |
| `JsNumbers` | `parseFloat` over amount text, with NaN kept as a value |
| `Amounts` | both `parseAmount` helpers |
| `Dates` | `parseDate`, the normalisation `new Date(y, m, d)` applies (as a day number from 1970-01-01) and `isDateClose` |
| `Documents` | `processDocument` and `categorizeTransactionType` |
| `Contracts` | `processContract`, `mapContractType`, `addMilestone`, `linkInvoice` and `updateContractStatus` |
| `Accounting` | `addClient`, `createInvoice` (invoice numbering, client fallback, client totals) and `generateTaxReport` |
| `InvoiceEditor` | `addInvoiceItem`, `removeInvoiceItem`, `updateInvoiceItem`, `calculateTotals` and `handleCreateInvoice` |
| `BankReconciliation` | `processBankStatement`, `autoReconcileTransactions`, `manualReconcile` and `getReconciliationSummary` |

Behaviours of the code that the model keeps, because the proofs make them visible:

- The bank-statement `parseAmount` filters the whole string to the characters `[0-9.,-]`. It then replaces only the first comma. So "1.234,56 RON" is read as 1.234 (`Amounts.FilteredRomanianThousands`).
- The run-based `parseAmount` of the document and contract hooks has no `|| 0`. So a lone "-" gives NaN (`Amounts.FirstRunLoneSign`).
- Reconciliation confidence is not capped at 100 (`BankReconciliation.ConfidenceNotCapped`).
- A debit never matches an invoice whose total is 1 or more, because invoices are compared on the signed amount while documents and transactions use the absolute amount (`BankReconciliation.DebitNeverMatchesInvoice`).
- An empty supplier or counterparty makes the name test pass, because every string includes "".
- `parseDate` prefers a "DD.MM.YYYY" date anywhere in the text over an ISO date written earlier in it (`Dates.DotDateWins`).
- Month and day overflow roll over as JavaScript's `Date` does (`Dates.ImpossibleDateRollsOver`, and for every month end `Dates.MonthEndRollsOver`).
- A negative invoice counter is padded around its minus sign (`Accounting.NegativeCounterNumber`).

## Model

| member | source | states |
|---|---|---|
| Numerals.NatToDecimal | src/hooks/useAccounting.ts:102 | `toString` of a counter is a non-empty digit string without a leading zero; it has one digit exactly when the number is below 10 |
| Numerals.PadStart | src/hooks/useAccounting.ts:102 | `padStart` reaches the width by filling on the left, never truncates, and keeps the original string as the suffix |
| Numerals.DecimalRoundTrip | src/hooks/useAccounting.ts:102 | reading the rendered digits back gives the number |
| Numerals.DecimalInjective | src/hooks/useAccounting.ts:102 | distinct numbers render to distinct strings |
| Numerals.PrefixedDecimalsDistinct | src/components/InvoiceManager.tsx:117-120 | ids made of a common prefix and distinct indexes are distinct |
| Numerals.LeadingZerosIgnored | src/hooks/useAccounting.ts:102 | zero padding does not change the value the digits denote |
| Text.ToLower | src/hooks/useBankReconciliation.ts:105-106 | lower-casing keeps the length and every non-capital character, maps A–Z to a–z and each Romanian capital (Ă Â Î Ș Ş Ț Ţ) to its small letter, and leaves no capital |
| Text.ToLowerIdempotent | src/hooks/useBankReconciliation.ts:105-106 | lower-casing twice is lower-casing once |
| Text.IncludesIff | src/hooks/useBankReconciliation.ts:105 | `includes` holds exactly when the needle occurs at some position |
| Text.IncludesEmpty | src/hooks/useBankReconciliation.ts:105-106 | every string includes "", so a name read as `?? ''` matches any text |
| Text.IncludesAt | src/hooks/useBankReconciliation.ts:131 | an occurrence at any position makes `includes` true |
| Text.IncludesLonger | src/hooks/useBankReconciliation.ts:106 | a needle longer than the text is never included |
| Stores.MapWhere | src/hooks/useContracts.ts:112-114 | the store update keeps length and order, replaces exactly the records with the id, and leaves the others equal |
| JsNumbers.LeadingDigits | src/hooks/useBankReconciliation.ts:213 | the digit prefix `parseFloat` reads is all digits and is followed by a non-digit or the end |
| JsNumbers.ParseFloat | src/hooks/useBankReconciliation.ts:213 | `parseFloat` is NaN exactly when no digit starts the text after an optional minus sign, nor follows a leading point; an unsigned text reads non-negative |
| JsNumbers.ParseFloatWithoutDigits | src/hooks/useBankReconciliation.ts:213 | amount text without a digit reads as NaN |
| JsNumbers.LeadingDigitsOfDigits | src/hooks/useBankReconciliation.ts:213 | digits followed by a non-digit are exactly the leading digit run |
| JsNumbers.ParseFloatOfLiteral | src/hooks/useBankReconciliation.ts:213 | "whole.fraction" followed by text that cannot extend it reads as whole plus fraction |
| JsNumbers.ParseFloatNegated | src/hooks/useBankReconciliation.ts:213 | a leading minus sign negates the value read |
| JsNumbers.ParseFloatOfDigits | src/hooks/useBankReconciliation.ts:213 | a digit run, with or without a minus sign, reads as its (negated) value |
| JsNumbers.ParseFloatOfInteger | src/hooks/useBankReconciliation.ts:213 | the decimal rendering of any integer reads back as that integer |
| Amounts.KeepAmountChars | src/hooks/useBankReconciliation.ts:212 | the filter leaves only digits, '.', ',' and '-', and never lengthens the text |
| Amounts.KeepAmountCharsAddsNoDigit | src/hooks/useBankReconciliation.ts:212 | filtering text without digits leaves no digit |
| Amounts.KeepAmountCharsConcat | src/hooks/useBankReconciliation.ts:212 | the filter distributes over concatenation |
| Amounts.KeepAmountCharsOfAmountText | src/hooks/useBankReconciliation.ts:212 | text made only of amount characters is left unchanged |
| Amounts.KeepAmountCharsDropsSuffix | src/hooks/useBankReconciliation.ts:212 | a trailing currency name is removed and the amount text before it is kept |
| Amounts.ReplaceFirstComma | src/hooks/useBankReconciliation.ts:212 | replacing the comma keeps the length |
| Amounts.ReplaceFirstCommaSpec | src/hooks/useBankReconciliation.ts:212 | only the first comma becomes a point; every later comma and every other character is kept |
| Amounts.ReplaceFirstCommaAfter | src/hooks/useBankReconciliation.ts:212 | the first comma after comma-free text becomes a point and the rest is untouched |
| Amounts.ReplaceFirstCommaAddsNoDigit | src/hooks/useBankReconciliation.ts:212 | replacing the comma adds no digit |
| Amounts.ReplaceFirstCommaKeepsAmountText | src/hooks/useBankReconciliation.ts:212 | replacing the comma keeps text made of amount characters so |
| Amounts.LeadingAmountChars | src/hooks/useDocuments.ts:97 | the run is the longest prefix of amount characters |
| Amounts.LeadingAmountCharsOfAmountText | src/hooks/useDocuments.ts:97 | on pure amount text the run is the whole text |
| Amounts.FirstAmountChar | src/hooks/useDocuments.ts:97 | the match starts at the first amount character; there is none exactly when the text has no amount character |
| Amounts.FirstAmountRun | src/hooks/useDocuments.ts:97-98 | `match(/[\d,.-]+/)` fails exactly when there is no amount character, and otherwise yields non-empty amount text |
| Amounts.ParseAmountFiltered | src/hooks/useBankReconciliation.ts:210-214 | the filtering parser reads 0 from the empty string; otherwise it reads 0 when `parseFloat` of the cleaned text is NaN (so "a--5" reads as 0) and that number when it is not; any text without a digit, such as "-" or "RON", reads as 0 |
| Amounts.CleanedWithoutDigits | src/hooks/useBankReconciliation.ts:212-213 | the filtered, comma-replaced text is amount text, and `parseFloat` finds no number in it when the input has no digit |
| Amounts.ParseAmountFirstRun | src/hooks/useDocuments.ts:96-102 | the run-based parser reads 0 when there is no run, otherwise `parseFloat` of the first run with its first comma made a point; without a digit it gives NaN or 0, never another number |
| Amounts.RunWithoutDigits | src/hooks/useDocuments.ts:97-98 | the first run is amount text taken from the input, so `parseFloat` finds no number in it when the input has no digit |
| Amounts.FirstRunLoneSign | src/hooks/useDocuments.ts:96-102 | on "-" the run-based parser gives NaN while the filtering parser gives 0 |
| Amounts.ParsersReadIntegers | src/hooks/useBankReconciliation.ts:210-214 | both parsers read the decimal rendering of any integer back as that integer |
| Amounts.ParsersAgreeOnAmountText | src/hooks/useBankReconciliation.ts:210-214 | on non-empty amount text the two parsers agree, up to NaN becoming 0 |
| Amounts.CurrencySuffixDropped | src/hooks/useBankReconciliation.ts:212 | the filter removes " RON" entirely |
| Amounts.ThousandsCleaned | src/hooks/useBankReconciliation.ts:212 | "w.g,c" followed by a currency name is cleaned to "w.g.c" |
| Amounts.ThousandsRead | src/hooks/useBankReconciliation.ts:213 | `parseFloat` stops at the second point of "w.g.c" and reads w.g |
| Amounts.CleanedThousandsRead | src/hooks/useBankReconciliation.ts:210-214 | any text that cleans to "w.g.c" is read as w.g |
| Amounts.ThousandsSeparatedAmount | src/hooks/useBankReconciliation.ts:210-214 | an amount with a thousands point and a decimal comma is read with the thousands group as its fraction |
| Amounts.FilteredRomanianThousands | src/hooks/useBankReconciliation.ts:210-214 | "1.234,56 RON" is read as 1.234 |
| Dates.FindMatch | src/hooks/useBankReconciliation.ts:226 | the regular expression's match is the leftmost position where the format matches; there is none exactly when it matches nowhere |
| Dates.ParseDate | src/hooks/useBankReconciliation.ts:216-237 | null exactly for "" or when no format matches anywhere; otherwise the captured numbers of the leftmost match of the first format that matches |
| Dates.IsDateClose | src/hooks/useBankReconciliation.ts:239-244 | false for a null date, otherwise true exactly when the days differ by at most 7 |
| Dates.IsDateCloseSymmetric | src/hooks/useBankReconciliation.ts:241-243 | closeness does not depend on argument order |
| Dates.DayNumber | src/hooks/useBankReconciliation.ts:229-231 | for a month index in 0..11, `new Date(y, m, d)` is the civil day of the full year, month m + 1 and day d, with days past the month's end counted on |
| Dates.DayOffset | src/hooks/useBankReconciliation.ts:231 | within a month the day number grows by one per day, so a day past the month's end lands in the next month |
| Dates.EpochIsDayZero | src/hooks/useBankReconciliation.ts:229 | `new Date(1970, 0, 1)` is day 0 |
| Dates.MonthEndRollsOver | src/hooks/useBankReconciliation.ts:229-231 | for every year and month 1..11, the day after the month's last day (with 29 February exactly in Gregorian leap years) is the first day of the next month |
| Dates.NewYear | src/hooks/useBankReconciliation.ts:231 | 31 December is followed by 1 January of the next year |
| Dates.MonthIndexRollsOver | src/hooks/useBankReconciliation.ts:231 | a month index 12 past a month is that month of the next year |
| Dates.TwoDigitYears | src/hooks/useBankReconciliation.ts:229 | years 0 to 99 are read as 1900 to 1999 |
| Dates.ImpossibleDateRollsOver | src/hooks/useBankReconciliation.ts:231 | 30 February 2024 is 1 March 2024 |
| Dates.DotFormat | src/hooks/useBankReconciliation.ts:220 | "DD.MM.YYYY" parses to year, month - 1, day |
| Dates.IsoFormat | src/hooks/useBankReconciliation.ts:221 | "YYYY-MM-DD" parses to year, month - 1, day |
| Dates.SlashFormat | src/hooks/useBankReconciliation.ts:222 | "DD/MM/YYYY" parses to year, month - 1, day |
| Dates.SameDayInEveryFormat | src/hooks/useBankReconciliation.ts:219-233 | the three spellings of one day parse to the same date |
| Dates.LeftmostUnique | src/hooks/useBankReconciliation.ts:226 | a format has at most one leftmost match |
| Dates.DotDateWins | src/hooks/useBankReconciliation.ts:225-227 | a dotted date anywhere in the text is the one parsed, whatever other dates precede it |
| Documents.CategorizeTransactionType | src/hooks/useDocuments.ts:104-109 | income exactly when the lower-cased category contains "servicii", "consultanta" or "vanzari" |
| Documents.CategorizeIgnoresCase | src/hooks/useDocuments.ts:107 | the classification does not depend on letter case |
| Documents.Placeholder | src/hooks/useDocuments.ts:13-29 | the uploaded document starts `processing` with empty fields and no transactions |
| Documents.BeginDocument | src/hooks/useDocuments.ts:31 | the placeholder is appended and the transactions are untouched |
| Documents.GeneratedTransaction | src/hooks/useDocuments.ts:37-45 | the generated transaction has id "<doc>-tx-1", points to its document, and carries the analysed description and category, the parsed amount, the category's type and the parsed date or today |
| Documents.CompletedDocument | src/hooks/useDocuments.ts:47-62 | the completed document keeps the placeholder's id and file name, takes the analysed category, supplier, amount text, client, date text, invoice number, CUI, description, confidence, insights and recommendations, and lists exactly the one generated transaction |
| Documents.FinishDocument | src/hooks/useDocuments.ts:47-74 | on success the appended transaction is exactly the one generated from the analysis, and the matching document is exactly the completed document built from the placeholder and the analysis; on failure it is marked `error` and the transactions are unchanged; other documents are untouched |
| Documents.ProcessDocumentLifecycle | src/hooks/useDocuments.ts:10-78 | a whole upload with a fresh id keeps the earlier documents and ends with the new one completed with one transaction, or in error with none |
| Contracts.MapContractType | src/hooks/useContracts.ts:181-188 | each type holds exactly when its keywords occur in the lower-cased text and no earlier type's keywords do |
| Contracts.MapContractTypeIgnoresCase | src/hooks/useContracts.ts:182 | the mapping does not depend on letter case |
| Contracts.MapContractTypeDefault | src/hooks/useContracts.ts:187 | text without any keyword maps to `other` |
| Contracts.ParsedDays | src/hooks/useContracts.ts:104 | the kept dates are parses of the given texts, never more of them, and all when every text parses |
| Contracts.ParsedDaysConcat | src/hooks/useContracts.ts:104 | the dates of two lists of texts are those of the first followed by those of the second, so the texts' order is kept |
| Contracts.ParsedDaysSnoc | src/hooks/useContracts.ts:104 | one more text appends its date exactly when it parses |
| Contracts.ParsedDaysKeepsEvery | src/hooks/useContracts.ts:104 | the date of every text that parses is kept |
| Contracts.PlaceholderContract | src/hooks/useContracts.ts:12-63 | the placeholder is a `draft` of type `other`, in RON, worth 0; its id, its "CTR-" number and its attachment's id come from three separate clock readings; the file is its only attachment |
| Contracts.BeginContract | src/hooks/useContracts.ts:65 | the placeholder is appended after the existing contracts |
| Contracts.ActivatedContract | src/hooks/useContracts.ts:70-110 | the analysed contract keeps the placeholder's id, number, attachments, milestones and links; it is `active`, typed by `mapContractType`, valued by `parseAmount`, in RON unless a currency is given; it copies title, client, supplier, payment terms, description, terms and deliverables; its period is each date parsed or today; its insight copies the analysis, holds the start and end dates parsed or absent, and its payment dates are the key dates that parse, in order |
| Contracts.ActivatedKeepsKeyDates | src/hooks/useContracts.ts:104 | every key date that parses is among the activated contract's payment dates |
| Contracts.FinishContract | src/hooks/useContracts.ts:112-120 | the placeholder becomes the activated contract on success or `cancelled` on failure; other contracts are untouched |
| Contracts.ProcessContractLifecycle | src/hooks/useContracts.ts:9-124 | a whole upload with a fresh id keeps earlier contracts and ends `active` with the mapped type, or `cancelled` |
| Contracts.AddMilestone | src/hooks/useContracts.ts:126-137 | the milestone is appended to the named contract only, and nothing else in it changes |
| Contracts.LinkInvoice | src/hooks/useContracts.ts:139-145 | the invoice id is appended to the named contract's links only |
| Contracts.UpdateContractStatus | src/hooks/useContracts.ts:147-153 | only the named contract's status changes |
| Contracts.LinkInvoiceCount | src/hooks/useContracts.ts:139-145 | linking adds one link per contract carrying the id and none elsewhere |
| Contracts.LinkInvoiceAddsExactlyOne | src/hooks/useContracts.ts:139-145 | with unique ids, linking an existing contract adds exactly one link in all |
| Contracts.CountUnique | src/hooks/useContracts.ts:140-142 | with unique ids, exactly one contract carries a present id |
| Contracts.CountAbsent | src/hooks/useContracts.ts:140-142 | an id no contract carries is counted zero times |
| Accounting.FindClient | src/hooks/useAccounting.ts:82 | `find` returns the first client with the id, and nothing exactly when no client has it |
| Accounting.FallbackClient | src/hooks/useAccounting.ts:82-96 | an unknown client id yields the active "Client Necunoscut" with zero totals |
| Accounting.InvoiceClient | src/hooks/useAccounting.ts:82-96 | the invoice's client has the requested id; it is a stored client when one exists, else the fallback |
| Accounting.AddToInvoiced | src/hooks/useAccounting.ts:109-113 | the total is added to every client with the id and no other client changes |
| Accounting.InvoiceNumber | src/hooks/useAccounting.ts:102 | an invoice number is the prefix, a dash, and at least four characters for the counter |
| Accounting.CreateInvoice | src/hooks/useAccounting.ts:81-116 | the invoice carries every field of the draft (client id, dates, items, subtotal, VAT, total, status, notes, payment terms, currency), the numbered id and the client record; it is appended, the counter goes up by one, and the client totals grow by its total |
| Accounting.InvoiceNumberReadsBack | src/hooks/useAccounting.ts:102 | a non-negative counter is written after "prefix-" in at least four digits that read back as the counter |
| Accounting.InvoiceNumbersDistinct | src/hooks/useAccounting.ts:102 | different non-negative counters give different invoice numbers |
| Accounting.InvoiceNumbersDistinctAnyCounter | src/hooks/useAccounting.ts:102 | different counters give different invoice numbers, negative counters included |
| Accounting.SuccessiveInvoicesNumberedApart | src/hooks/useAccounting.ts:102-106 | two invoices created in a row get different numbers, whatever the stored counter, negative included |
| Accounting.NegativeCounterNumber | src/hooks/useAccounting.ts:102 | the counter -5 is numbered "INV-00-5" |
| Accounting.AddClient | src/hooks/useAccounting.ts:47-57 | the client is appended with the new id and every form field (name, email, phone, address, CUI, registry number, IBAN, bank, status), with nothing invoiced and nothing paid |
| Accounting.GenerateTaxReport | src/hooks/useAccounting.ts:118-137 | a draft report of the requested period and kind, with every figure 0, is appended |
| InvoiceEditor.DefaultItemConsistent | src/components/InvoiceManager.tsx:21-23 | the initial single default line satisfies the editor's invariant |
| InvoiceEditor.AddItem | src/components/InvoiceManager.tsx:75-77 | one default line is appended |
| InvoiceEditor.KeepOthers | src/components/InvoiceManager.tsx:81 | filtering out one index removes exactly that line, or nothing when the index is out of range |
| InvoiceEditor.RemoveItem | src/components/InvoiceManager.tsx:79-83 | with several lines the line at the index is dropped and the order kept; the last line is never removed |
| InvoiceEditor.UpdateItem | src/components/InvoiceManager.tsx:85-98 | the field is written at the index only; a quantity, price or VAT edit makes the line's total its net amount plus VAT |
| InvoiceEditor.CalculateTotals | src/components/InvoiceManager.tsx:100-109 | the total is the subtotal plus the VAT, and when every line is consistent it is the sum of the totals the lines show |
| InvoiceEditor.NetPlusVatIsLineTotals | src/components/InvoiceManager.tsx:100-109 | when every line is consistent, the net sum plus the VAT sum is the sum of the line totals |
| InvoiceEditor.SumsOfConcat | src/components/InvoiceManager.tsx:101-105 | each `reduce` is additive: the net and VAT sums over two runs of lines are the sums of their sums |
| InvoiceEditor.TotalsOfConcat | src/components/InvoiceManager.tsx:100-109 | the subtotal, the VAT and the grand total of two runs of lines are the sums of theirs |
| InvoiceEditor.AddKeepsInvariant | src/components/InvoiceManager.tsx:75-77 | adding keeps at least one line with every total consistent |
| InvoiceEditor.RemoveKeepsInvariant | src/components/InvoiceManager.tsx:79-83 | removing keeps at least one line with every total consistent |
| InvoiceEditor.UpdateKeepsInvariant | src/components/InvoiceManager.tsx:85-98 | editing any field but the total keeps every total consistent |
| InvoiceEditor.Numbered | src/components/InvoiceManager.tsx:117-120 | each line becomes an item "item-<index>" with the same fields |
| InvoiceEditor.NumberedIdsDistinct | src/components/InvoiceManager.tsx:117-120 | the numbered items have pairwise distinct ids |
| InvoiceEditor.FreshForm | src/components/InvoiceManager.tsx:24-31 | a fresh form is issued today, due 30 days later, with 30 days' terms, in RON, without notes, as a draft |
| InvoiceEditor.HandleCreateInvoice | src/components/InvoiceManager.tsx:111-147 | without a client nothing happens; otherwise a draft with the numbered lines, the computed totals and the form's issue date, due date, status, notes, payment terms and currency is submitted, the lines reset to one default line and the form to a fresh form of today |
| InvoiceEditor.SubmittedTotalReachesClient | src/components/InvoiceManager.tsx:115-134 | submitting a consistent form and creating the invoice raises the client's invoiced total by the sum of the line totals |
| BankReconciliation.DocumentQualifies | src/hooks/useBankReconciliation.ts:101-108 | a qualifying document is within 1 of the absolute bank amount; a document whose amount has no digit reads as 0, so it can only match a bank amount strictly between -1 and 1 |
| BankReconciliation.InvoiceQualifies | src/hooks/useBankReconciliation.ts:115-121 | a payment of exactly the total on the due date always matches; a debit never matches an invoice of total 1 or more |
| BankReconciliation.TransactionQualifies | src/hooks/useBankReconciliation.ts:128-133 | a NaN amount never matches; a transaction for the absolute bank amount on the same day always does |
| BankReconciliation.SelectIds | src/hooks/useBankReconciliation.ts:101-112 | a pass never collects more ids than it scans |
| BankReconciliation.CountWhere | src/hooks/useBankReconciliation.ts:128-136 | a pass never counts more matches than it scans |
| BankReconciliation.SelectIdsMembership | src/hooks/useBankReconciliation.ts:108-109 | an id is collected exactly when some qualifying record carries it |
| BankReconciliation.SelectIdsCount | src/hooks/useBankReconciliation.ts:108-110 | one id is collected per qualifying record |
| BankReconciliation.SelectIdsSnoc | src/hooks/useBankReconciliation.ts:101-112 | scanning one more record appends its id exactly when it qualifies |
| BankReconciliation.CountWhereSnoc | src/hooks/useBankReconciliation.ts:128-136 | scanning one more record adds one exactly when it qualifies |
| BankReconciliation.Classify | src/hooks/useBankReconciliation.ts:138-139 | matched exactly above 70, partial exactly from 41 to 70, unmatched exactly at 40 or below |
| BankReconciliation.Assess | src/hooks/useBankReconciliation.ts:95-150 | the reconciliation has id "rec-" + the transaction id, never `manual`, variance 0, and a confidence that is a non-negative multiple of 5 classified by the thresholds |
| BankReconciliation.AssessCounts | src/hooks/useBankReconciliation.ts:100-136 | the confidence is 30 per qualifying document, 40 per qualifying invoice and 25 per qualifying transaction; the lists hold exactly the qualifying ids |
| BankReconciliation.SelectPass | src/hooks/useBankReconciliation.ts:101-125 | the loop collects the qualifying ids in order and adds the weight once per id |
| BankReconciliation.CountPass | src/hooks/useBankReconciliation.ts:128-136 | the loop adds the weight once per qualifying record |
| BankReconciliation.ReconcileTransaction | src/hooks/useBankReconciliation.ts:95-153 | the three passes and the classification produce exactly the assessed reconciliation |
| BankReconciliation.ReconcileAll | src/hooks/useBankReconciliation.ts:95-153 | one reconciliation per bank transaction, in order |
| BankReconciliation.ReconcileAllSnoc | src/hooks/useBankReconciliation.ts:95-153 | one more bank transaction appends exactly its assessment |
| BankReconciliation.AutoReconcileTransactions | src/hooks/useBankReconciliation.ts:92-156 | earlier reconciliations are kept and one per bank transaction is appended in input order, with id "rec-" + its id |
| BankReconciliation.QualifyingInvoiceAddsForty | src/hooks/useBankReconciliation.ts:121-124 | each further qualifying invoice adds exactly 40 and its id |
| BankReconciliation.ConfidenceNotCapped | src/hooks/useBankReconciliation.ts:138-149 | three qualifying invoices give confidence 120, which is matched |
| BankReconciliation.DebitNeverMatchesInvoice | src/hooks/useBankReconciliation.ts:116-129 | a debit never matches an invoice of total 1 or more, while a transaction for its absolute amount on the same day matches |
| BankReconciliation.EmptySupplierMatchesByAmount | src/hooks/useBankReconciliation.ts:103-108 | with an empty supplier a document qualifies exactly on amount |
| BankReconciliation.EmptyCounterpartyMatchesByAmount | src/hooks/useBankReconciliation.ts:103-108 | with an empty counterparty every document qualifies exactly on amount |
| BankReconciliation.ManualReconcile | src/hooks/useBankReconciliation.ts:158-171 | the reconciliation with the id gets the given lists, status `manual` and confidence 100; the others are untouched |
| BankReconciliation.ManualReconcileIdempotent | src/hooks/useBankReconciliation.ts:158-171 | repeating a manual reconciliation changes nothing |
| BankReconciliation.GetSummary | src/hooks/useBankReconciliation.ts:173-189 | the total is the number of bank transactions and the rate is 0 without any, never negative |
| BankReconciliation.CountStatus | src/hooks/useBankReconciliation.ts:175-177 | a status filter never counts more records than there are |
| BankReconciliation.CountStatusExtremes | src/hooks/useBankReconciliation.ts:175-177 | the count is 0 when no record has the status and the length when every record has it |
| BankReconciliation.TotalVariance | src/hooks/useBankReconciliation.ts:178 | the variance total is 0 when every variance is 0 |
| BankReconciliation.SummaryExtremes | src/hooks/useBankReconciliation.ts:173-179 | with one reconciliation per transaction, all matched gives every count to `matched` and rate 100; none matched gives 0 matched and rate 0 |
| BankReconciliation.StatusesPartition | src/hooks/useBankReconciliation.ts:175-177 | matched, partial, unmatched and manual counts add up to the number of reconciliations |
| BankReconciliation.SummaryCountsBounded | src/hooks/useBankReconciliation.ts:175-177 | the summary's three counts never exceed the number of reconciliations |
| BankReconciliation.RateIsPercentage | src/hooks/useBankReconciliation.ts:179 | with one reconciliation per bank transaction the rate is at most 100 |
| BankReconciliation.TotalVarianceAppend | src/hooks/useBankReconciliation.ts:178 | the variance total of two lists is the sum of their totals |
| BankReconciliation.AutoVarianceZero | src/hooks/useBankReconciliation.ts:147 | automatic reconciliations add no variance |
| BankReconciliation.ManualKeepsVariance | src/hooks/useBankReconciliation.ts:158-171 | a manual override keeps the variance total |
| BankReconciliation.PlaceholderStatement | src/hooks/useBankReconciliation.ts:16-32 | the uploaded statement keeps the file name and starts `processing`, with no bank name or account number, a period from today to today, no transactions and zero balances |
| BankReconciliation.BeginStatement | src/hooks/useBankReconciliation.ts:34 | the placeholder is appended; transactions and reconciliations are untouched |
| BankReconciliation.ConvertTransaction | src/hooks/useBankReconciliation.ts:40-56 | the transaction gets id "<statement>-tx-<index>", the filtered amount and balance, the parsed date or today, and the raw description, counterparty, reference, type, category and IBAN, with the statement's confidence, insights and recommendations |
| BankReconciliation.ConvertAll | src/hooks/useBankReconciliation.ts:40-56 | every analysed transaction is converted with its own index, in order |
| BankReconciliation.ConvertedIdsDistinct | src/hooks/useBankReconciliation.ts:41 | the converted transactions of a statement have pairwise distinct ids |
| BankReconciliation.FinishStatement | src/hooks/useBankReconciliation.ts:58-86 | on success the statement is completed with the analysed bank name, account number and period (each date parsed or today) and the converted transactions, which are appended and reconciled; on failure only its status becomes error; other statements are untouched |
| BankReconciliation.ProcessingKeepsPairing | src/hooks/useBankReconciliation.ts:13-90 | processing a statement, on either outcome, keeps one reconciliation per bank transaction |
| BankReconciliation.ManualKeepsPairing | src/hooks/useBankReconciliation.ts:158-171 | a manual override keeps one reconciliation per bank transaction |
| BankReconciliation.ProcessingKeepsVariance | src/hooks/useBankReconciliation.ts:73-80 | processing a statement leaves the variance total unchanged |

## Left out

- The AI analysis services and `formatFileSize` are outside the core. An analysis result is an input, and the file size is not part of any record here.
- `isProcessing`, `async`/`await` and React rendering are left out. Each upload is modelled as its two state updates. Concurrent uploads are not modelled.
- Numbers are exact reals, not IEEE doubles. Rounding, `toFixed` and binary fractions are not modelled.
- `parseFloat` is modelled only on the strings the amount parsers hand it. Those contain digits, '.', ',' and '-' only, so exponents, '+', "Infinity" and blanks cannot occur.
- Dates are whole days counted from 1970-01-01. Time zones and the time of day that `new Date()` carries are not modelled. So `isDateClose` compares whole days, where the code rounds a millisecond difference up.
- `Date.now()` ids and `new Date()` are parameters. The timestamps `createdAt`, `updatedAt`, `uploadedAt`, `generatedAt` and `reconciliationDate` are left out.
- `toLowerCase` is modelled for ASCII and the Romanian capital letters only. Other Unicode case mappings are not modelled.
- Optional text fields read through `?? ''` are the empty string when missing.
- A reconciliation's `variance` is a real that starts at 0. The code's `|| 0` on an undefined variance therefore does not arise.
- The company settings are reduced to the invoice prefix and counter. The other fields are only displayed.
- Suppliers, products, bank accounts, budgets and the chat history are plain appends outside the core.
- The other UI components are outside the core, including the reconciliation manager and the dashboards.
- BankReconciliation.GetSummary: its contract states the total and that the rate is 0 without transactions and never negative. `StatusesPartition` and `SummaryCountsBounded` only partition and bound the counts, and `RateIsPercentage` bounds the rate by 100. `SummaryExtremes` gives the counts and the rate only when every record or no record is matched. That each count is the length of its status filter, and the rate formula itself, are stated by no contract.
- Analysis records are assumed complete. In the code, a returned analysis with a missing field can throw during processing and so take the error branch: `.match` or `.toLowerCase` on a missing amount or category (src/hooks/useDocuments.ts:97 and :107), a missing contract type or key-date list (src/hooks/useContracts.ts:79, :104 and :182), or a missing transaction list (src/hooks/useBankReconciliation.ts:40). Here `Some(a)` always completes.
- Dates in the invoice form are day numbers and today is a parameter; the round trip through ISO date strings (src/components/InvoiceManager.tsx:25-26, :124-125) and closing the form dialog are not modelled.
- InvoiceEditor.UpdateKeepsInvariant: it covers every edit except a direct write to a line's total. The code allows such a write, and it can break the line's consistency.
