# Jewellery shop billing: the credit ledger, bills and numbering in Dafny

This project models the core of a jewellery shop's billing application. The
shop sells and buys gold and silver and keeps a two-sided credit ledger
("udhaar"):

- `udhaar` holds what customers still owe on sale bills;
- `purchase_udhaar` holds what the shop still owes suppliers on purchase bills.

The model covers the following:

- **Ledger** (`ledger.dfy`): the ledger rows and every way the application changes
  them. That is a clamped payment, a deposit and its reversal, the re-pointing of a
  deposit, the opening, reset and accumulation of a bill's balance, and the greedy
  offset of a supplier's payables against a new sale. It also covers the pending
  sums and pending lists of the read-only queries.
- **Store** (`store.dfy`): the database as one value of all the tables, and a
  `Database` class. Its methods perform the writes of `save_sale`, `save_purchase`,
  `update_sale_bill`, `update_purchase_bill`, `delete_bill`,
  `save_udhaar_deposit`, `delete_udhaar_deposit_and_reverse`,
  `update_udhaar_deposit`, `update_udhaar_balance`, `update_purchase_udhaar`
  and the invoice counter, one step at a time. Each method is proved to arrive
  at a pure function that gives the whole new state.
- **Store properties** (`store_properties.dfy`): what those functions promise
  across operations. This is where the discrepancies listed under "Findings" are
  exhibited and corrected.
- **Numbering** (`numbering.dfy`) and **Text** (`text.dfy`): the per-prefix invoice
  counter, the `SAL-`, `PUR-` and `UDH-` id formats, and Python's zero-padded
  integer formatting.
- **Pricing** (`pricing.dfy`): item pricing and bill totals of the new-sale and
  new-purchase screens. **BillEdit** (`bill_edit.dfy`) covers the same for the
  modify-bill screen. **InvoicePdf** (`invoice_pdf.dfy`) covers the file names,
  GST columns, round-off and printed lines of the sale and purchase PDFs.
- **Words** (`words.dfy`): amounts in words in the Indian numbering system
  (crore, lakh, thousand, hundred) with paise.
- **Customers** (`customers.dfy`): the customer field rules and the customer
  table. **Subscriptions** (`subscriptions.dfy`) covers the plans and
  (de)activation.
- **Legacy** (`legacy.dfy`): the two single-file snapshots `app.py` and
  `app_19_04_2025.py`. They are one class with the snapshot as a constant,
  because the two differ in the counter seed, the Silver id prefix, when a
  receivable is opened, and what `delete_bill` looks at.

Modelling conventions:

- Money is an exact `real`. Python's `round()` is an explicit round-half-even.
- A missing (None) invoice id or string is `""`. A missing customer id is `0`;
  the application's AUTOINCREMENT ids start at 1.
- Each table is a `map` keyed by its UNIQUE column, and each log is a `seq`.
- `created_at` is a logical clock, so "the latest bill" is the one with the
  largest stamp.
- The clock, the year and the `yymm` of an invoice id are parameters.

## Model

| member | source | states |
|---|---|---|
| Ledger.Settled | utils/delete_udhaar_deposit.py:41-46 | the status written after a balance change is 'pending' exactly when the balance is positive, else 'paid', and never 'partially_paid' |
| Ledger.Pay | utils/get_pending_udhaar_sale.py:261-294 | a clamped payment: the balance becomes current − amount, or 0 when that is ≤ 0; it is never negative; status is 'paid' exactly at 0, else 'partially_paid'; id, party and initial balance are kept |
| Ledger.PayAbsorbs | utils/get_pending_udhaar_sale.py:268-274 | on a non-negative balance a payment absorbs exactly min(amount, balance) |
| Ledger.Restore | utils/delete_udhaar_deposit.py:34-47 | a reversal adds the amount back, sets 'pending'/'paid' from the new balance, and keeps id, party and initial balance |
| Ledger.Reopen | utils/update_udhaar_deposit.py:52-65 | the old link of an edited deposit gets the old amount back with status forced to 'pending' |
| Ledger.Deduct | utils/update_udhaar_deposit.py:86-100 | the new link of an edited deposit loses exactly the new amount, with no clamping, and its status follows the sign |
| Ledger.Opened | utils/save_sale.py:147-152 | a new ledger row has initial = current = the balance and status 'pending' |
| Ledger.Reset | utils/update_sale_bill.py:160-186 | an edited sale's receivable gets initial = current = the recomputed pending and the new customer |
| Ledger.ResetNeverPartial | utils/update_sale_bill.py:163-167 | the reset status is 'paid' at ≤ 0 and 'pending' otherwise; 'partially_paid' never arises |
| Ledger.Rebalance | utils/update_purchase_bill.py:119-140 | an edited purchase's payable gets current = the new balance and a status from its sign, and keeps its initial balance |
| Ledger.Accrue | utils/save_purchase.py:70-85 | a further purchase balance is added to current, and initial balance and status are unchanged |
| Ledger.ApplyDeposit | utils/save_udhaar.py:55-66 | a deposit pays the receivable of its (invoice, customer) pair, clamped, and changes no other row; with no such row nothing changes |
| Ledger.ReverseDeposit | utils/delete_udhaar_deposit.py:34-54 | deleting a deposit restores its receivable, or opens a 'pending' row of the deposit's amount when the receivable is gone; other rows are unchanged |
| Ledger.DepositThenDeleteRestores | utils/delete_udhaar_deposit.py:41-46 | a deposit d ≤ balance b, saved and then deleted, leaves the balance at exactly b, with status 'pending' |
| Ledger.OverpaidDepositIsNotRestored | utils/save_udhaar.py:42-46 | a deposit above the balance, allowed when a purchase invoice is linked, is clamped on save and reversed in full, so the receivable ends higher than it started |
| Ledger.DepositsKeepNonNegative | utils/save_udhaar.py:55-66 | saving or deleting a positive deposit keeps every receivable non-negative |
| Ledger.RelinkDeposit | utils/update_udhaar_deposit.py:52-100 | editing a deposit gives the old amount back to the old (invoice, customer) row with status 'pending' (Reopen), then takes the new amount off the new (invoice, customer) row without a floor, status from the sign (Deduct); on one invoice both apply in turn; an unlinked side is left alone; no other row changes and row ids are kept |
| Ledger.RelinkUnchangedKeepsBalance | utils/update_udhaar_deposit.py:62-95 | an edit with the same link, customer and amount leaves the balance where it was |
| Ledger.RelinkMoves | utils/update_udhaar_deposit.py:52-100 | moving a deposit between two invoices adds the old amount to one and subtracts the new amount from the other |
| Ledger.RelinkCanGoNegative | utils/update_udhaar_deposit.py:95 | an edit can drive a receivable below zero (100 owed, 150 deposited gives −50) |
| Ledger.OpenSaleBalance | utils/save_sale.py:147-152 | a receivable row is opened exactly when the sale's balance is non-zero, negative balances included |
| Ledger.ResetSaleBalance | utils/update_sale_bill.py:160-209 | after a sale edit the invoice has a receivable iff it had one or the pending is positive, with initial = current = pending; other rows are unchanged |
| Ledger.ResetSaleBalanceIdempotent | utils/update_sale_bill.py:160-209 | repeating the same sale edit leaves the receivables as the first edit did |
| Ledger.AddPurchaseBalance | utils/save_purchase.py:68-95 | a positive purchase balance is added to the invoice's payable or opens one; a balance ≤ 0 changes nothing |
| Ledger.RebalancePurchase | utils/update_purchase_bill.py:119-161 | a non-zero balance is stored with its status, negative ones included; a zero balance keeps the payable only when its stored balance was positive |
| Ledger.RebalancePurchaseIdempotent | utils/update_purchase_bill.py:119-161 | repeating the same purchase edit leaves the payables as the first edit did |
| Ledger.PendingTotalAfterUpdate | utils/get_pending_udhaar_sale.py:142-146 | a party's pending total changes by exactly the change of the row that was rewritten |
| Ledger.SumOverNonNegative | utils/get_pending_udhaar_sale.py:142-146 | with no negative row, a party's pending sum is ≥ 0 |
| Ledger.PendingRows | utils/get_pending_purchase_udhaar.py:41 | the pending purchase list holds exactly the payables with a positive balance, unchanged |
| Ledger.PaidOffLeavesPendingList | utils/get_pending_purchase_udhaar.py:90-95 | a payment of at least the balance takes that row off the pending list and leaves every other row's membership alone |
| Ledger.GreedyKeepsNonNegative | utils/save_sale.py:158-176 | the greedy offset never drives a payable below zero |
| Ledger.GreedyTakesMin | utils/save_sale.py:158-176 | the greedy offset deducts min(applied, sum of the pending payables) in total, and what is left to apply is the rest |
| Ledger.OffsetWithinPendingIsAbsorbed | utils/save_sale.py:169-179 | an offset no larger than the supplier's pending total is absorbed entirely, so no leftover warning arises |
| Numbering.NextNumber | utils/invoice_id_creation.py:14-17 | the next number is the stored number + 1, or 1 for a prefix with no row |
| Numbering.Issued | utils/invoice_id_creation.py:14-20 | issuing stores that number under the prefix and leaves every other prefix alone |
| Numbering.IssueManyConsecutive | utils/invoice_id_creation.py:14-20 | k successive issues yield stored+1 … stored+k with no gap, and the counter ends at stored+k |
| Numbering.Decremented | utils/delete_bill.py:72 | the decrement lowers only the prefix's counter by one, and only if it exists |
| Numbering.DeleteReissuesNumber | utils/delete_bill.py:68-82 | issuing a number and then stepping the counter back makes the next issue give the same number again |
| Numbering.SalesIdsDistinct | utils/invoice_id_creation.py:31-39 | two sales ids of the same year are equal only for equal numbers (padding never truncates) |
| Numbering.PurchaseIdsDistinct | utils/invoice_id_creation.py:41-49 | two purchase ids of the same year are equal only for equal numbers |
| Numbering.UdhaarIdsDistinct | utils/invoice_id_creation.py:51-60 | two deposit ids of the same year are equal only for the same customer and number |
| Numbering.KindsNeverCollide | utils/invoice_id_creation.py:31-60 | a sales id, a purchase id and a deposit id never coincide |
| Numbering.UdhaarPrefixesDistinct | utils/invoice_id_creation.py:57 | each customer has a counter prefix of their own |
| Numbering.UdhaarPrefixIsNotShared | utils/invoice_id_creation.py:57 | no customer's deposit counter is the SALES or PURCHASE counter |
| Text.ZeroPad | utils/invoice_id_creation.py:39 | zero padding to a width gives at least that many characters |
| Text.IntToString | utils/invoice_id_creation.py:57 | an integer without padding is its zero-padded form of width 0 |
| Text.ParseZeroPad | utils/invoice_id_creation.py:39 | a zero-padded number is digits, after a '-' for a negative one, and reads back as the number |
| Text.ZeroPadInjective | utils/invoice_id_creation.py:49 | equal padded forms come from equal numbers |
| Text.Replace | utils/generate_sell_pdf.py:49-50 | replacement keeps the length and swaps exactly the occurrences of one character |
| Text.ReplaceRemoves | utils/generate_sell_pdf.py:49-50 | after replacing a character by another, it no longer occurs |
| Text.Strip | utils/convert_amount_to_word.py:43 | the result is one contiguous stretch of the input, everything of the input before and after it is a space, and it neither starts nor ends with a space |
| Store.PendingSales | utils/get_pending_udhaar_sale.py:164-181 | the pending sale list holds exactly the receivables with a positive balance whose sale header still exists, unchanged |
| Store.NewestOf | utils/delete_bill.py:24-52 | the newest row by creation stamp is found exactly when the table is not empty |
| Store.DepleteByProduct | utils/save_sale.py:121-144 | a product's stock after a sale is its stock before less the quantities of the sale's items for it |
| Store.SaleSplit | utils/update_sale_bill.py:53-63 | the whole amount paid goes into one payment field, and any mode other than Cheque, Online or UPI goes to cash |
| Store.PurchaseSplit | utils/update_purchase_bill.py:71-74 | the amount paid is stored in the field of a known mode, and in no field for any other mode |
| Store.EditedSale | utils/update_sale_bill.py:49-66 | an edited sale keeps its old-gold amount and stamp, and its balance is total − (paid + old gold) |
| Store.EditedPurchase | utils/update_purchase_bill.py:47 | an edited purchase's balance is total − paid |
| Store.UnknownModeLosesPayment | utils/update_purchase_bill.py:71-74 | with an unknown mode the stored payment fields no longer add up to total − balance |
| Store.DepositSaved | utils/save_udhaar.py:49-83 | a saved deposit is stored without its purchase link; a linked payable is paid the full amount |
| Store.FirstUnstockedIsFirst | utils/save_sale.py:121-144 | the first item naming a missing product is found, and every item before it names a stocked product or none |
| Store.ItemsRecordedRows | utils/save_sale.py:68-118 | the item loop appends one sale_items row per item to that invoice and to no other |
| Store.ItemsRecordedStock | utils/save_sale.py:121-144 | the item loop lowers stock exactly as the item quantities say |
| Store.ItemsRecordedMoves | utils/save_sale.py:121-144 | the item loop logs one inventory move of −qty per item with a stocked product |
| Store.SaleSavedRefused | utils/save_sale.py:40-60 | a sale with no customer, no items, a total ≤ 0 or a non-positive item, or one already stored, returns None and writes nothing (a missing item key is listed under Left out) |
| Store.SaleSavedStopped | utils/save_sale.py:121-144 | an item naming a missing product stops the save with None, after the header and the rows before it are written |
| Store.DeletionCases | utils/delete_bill.py:15-97 | deletion refuses an empty id or a bill that is not the latest; otherwise it deletes a sale, else a purchase, else a deposit, in that order |
| Store.LatestFound | utils/delete_bill.py:24-52 | a bill is the latest exactly when it is the newest sale, the newest purchase or the newest deposit |
| Store.AfterDeletionKeepsWellFormed | utils/delete_bill.py:67-97 | deleting a bill keeps ledger row ids unique and every stamp below the clock |
| Store.Database.UpdateUdhaarBalance | utils/get_pending_udhaar_sale.py:247-294 | succeeds iff a receivable has the id; it then pays it (clamped) and logs the amount asked for; otherwise nothing changes |
| Store.Database.UpdatePurchaseUdhaar | utils/get_pending_purchase_udhaar.py:64-120 | succeeds iff the invoice has a payable; it then pays it (clamped) and logs an 'Adjustment (Sale)' row; otherwise nothing changes |
| Store.Database.SaveUdhaarDeposit | utils/save_udhaar.py:10-89 | returns the deposit id iff the id, customer, amount and receivable checks pass and the id is new; then the tables are as DepositSaved says, else unchanged |
| Store.Database.DeleteUdhaarDepositAndReverse | utils/delete_udhaar_deposit.py:6-79 | succeeds iff the deposit exists; it is then deleted and reversed on the receivable and the linked payable; otherwise nothing changes |
| Store.Database.UpdateUdhaarDeposit | utils/update_udhaar_deposit.py:6-112 | succeeds iff the deposit exists; the row is rewritten and the old link's receivable reopened and the new one's deducted; the payables are not touched |
| Store.Database.RecordSaleItems | utils/save_sale.py:68-144 | writes the item rows, stock changes and moves of the items up to the first one with a missing product |
| Store.Database.OffsetPurchaseCredit | utils/save_sale.py:158-179 | the loop leaves the payables as the greedy offset says and returns what was left to apply |
| Store.Database.SaveSale | utils/save_sale.py:8-187 | the result and the new tables are those of the whole save_sale function SaleSaved |
| Store.Database.SavePurchase | utils/save_purchase.py:7-122 | returns the invoice id iff it is new; then header, items and the payable balance are written, else nothing |
| Store.Database.UpdateSaleBill | utils/update_sale_bill.py:6-216 | succeeds iff the sale exists; it then rewrites header, items and receivable as SaleEdited says; otherwise nothing changes |
| Store.Database.UpdatePurchaseBill | utils/update_purchase_bill.py:7-168 | always succeeds, even for an unknown invoice; the header, if any, items and payable are rewritten as PurchaseEdited says |
| Store.Database.DeleteBill | utils/delete_bill.py:9-104 | the outcome and the new tables are those of DeletionOf and AfterDeletion |
| Store.Database.GetNextInvoiceNumber | utils/invoice_id_creation.py:6-29 | returns stored + 1 and stores it; nothing else changes |
| Store.Database.GenerateSalesInvoiceId | utils/invoice_id_creation.py:31-39 | returns `SAL-{year}-{n:05d}` for the next SALES number and advances that counter only |
| Store.Database.GeneratePurchaseInvoiceId | utils/invoice_id_creation.py:41-49 | returns `PUR-{year}-{n:05d}` for the next PURCHASE number and advances that counter only |
| Store.Database.GenerateUdhaarInvoiceId | utils/invoice_id_creation.py:51-60 | returns `UDH-{year}-{customer}-{n:03d}` from the customer's own counter and advances it only |
| Store.CheckItems | utils/save_sale.py:50-60 | the item check passes iff every item has a positive quantity, net weight and amount |
| StoreProperties.SaleSavedWritesBill | utils/save_sale.py:68-144 | a successful sale returns its id, stores its header and exactly its items, and lowers stock by the item quantities; deposits and purchases are untouched |
| StoreProperties.SaleSavedOpensReceivable | utils/save_sale.py:147-152 | a successful sale opens a 'pending' receivable of initial = current = balance iff the balance is non-zero, and keeps every earlier receivable |
| StoreProperties.SaleSavedOffsetsCredit | utils/save_sale.py:158-176 | a sale with a purchase credit deducts min(credit, supplier's pending) from the payables, oldest first, and leaves none negative |
| StoreProperties.OnlyLatestIsDeleted | utils/delete_bill.py:24-62 | any change by delete_bill means the id was non-empty, the latest, and stored |
| StoreProperties.DeletionTouchesOneKind | utils/delete_bill.py:67-97 | deleting a sale removes only its header, a purchase only its header, a deposit only its row; the other bill tables are untouched |
| StoreProperties.DeletedSaleNumberReissued | utils/delete_bill.py:68-73 | after the latest sale is deleted, the next sales id is the deleted one's id again |
| StoreProperties.DeletedDepositNumberReissued | utils/delete_bill.py:85-97 | deleting the latest deposit steps back its customer's counter and leaves the SALES counter alone |
| StoreProperties.BalancePaidLogsRequest | utils/get_pending_udhaar_sale.py:268-290 | a receivable payment stores max(current − amount, 0), logs the unclamped amount, and leaves other rows, the payables and the deposits alone |
| StoreProperties.SaleEditIdempotent | utils/update_sale_bill.py:6-216 | applying the same sale edit twice gives the same tables as once |
| StoreProperties.PurchaseEditIdempotent | utils/update_purchase_bill.py:7-168 | applying the same purchase edit twice gives the same tables as once |
| StoreProperties.DeletedSaleReceivableUnlisted | utils/get_pending_udhaar_sale.py:177-180 | after delete_bill removes a sale, its receivable keeps its positive balance but drops off the pending sale list |
| StoreProperties.DeletedSaleBlocksReissue | utils/delete_bill.py:68 | as written: the deleted sale's items and receivable survive, so saving the re-issued id with a balance fails |
| StoreProperties.SaleRemovedWithRecords | utils/config.py:171-194 | corrected deletion: the sale's header, items and receivable all go |
| StoreProperties.CascadedDeleteAllowsReissue | utils/config.py:252-263 | with the corrected deletion, the re-issued id saves, with exactly the new items and the new receivable |
| StoreProperties.DeletedDepositKeepsPayableReduced | utils/save_udhaar.py:49-51 | as written: a deposit that paid a payable, once deleted, leaves that payable lower than before the deposit |
| StoreProperties.DepositSavedWithLink | utils/delete_udhaar_deposit.py:16 | corrected save: the deposit row records the purchase invoice it paid |
| StoreProperties.DeletedLinkedDepositRestoresPayable | utils/delete_udhaar_deposit.py:58-76 | with the corrected save, deleting the deposit restores the payable exactly |
| Pricing.PriceSaleItem | ui/sell_section_ui.py:114-192 | for every input, an item is accepted iff it is not missing weight and amount or rate and amount, and its GST-inclusive total is positive; an accepted one has base = the amount or net × rate, making = the fixed sum, making × net weight or base × making/100 by type, wastage = base × pct/100, the stone charge as entered, GST = subtotal × (CGST + SGST)/100 and total = (base + making + stone + wastage) × (1 + GST/100) > 0 |
| Pricing.AcceptedSaleBasePositive | ui/sell_section_ui.py:137-142 | within the form's bounds, an item that passes the first check has a positive base amount |
| Pricing.SecondGuardOnlyForNegativeNet | ui/sell_section_ui.py:144-165 | within the form's bounds, the second rejection (total ≤ 0) can only fire for a per-gram making charge on a negative net weight |
| Pricing.SecondGuardReachable | ui/sell_section_ui.py:144-165 | that case exists: 5 g loss on 0 g gross with an amount of 100 is rejected |
| Pricing.LineTotals | ui/sell_section_ui.py:202 | the grand total sums each item's GST-inclusive total |
| Pricing.SaleDraft.AddItem | ui/sell_section_ui.py:190 | an accepted item is appended to the bill's list, and a rejected one is not |
| Pricing.GrandTotalPositive | ui/sell_section_ui.py:202 | a bill with at least one accepted item has a positive grand total |
| Pricing.AppliedOffset | ui/sell_section_ui.py:215-221 | the applied purchase credit is min(pending, grand total) when opted in with credit pending, else 0 |
| Pricing.SaleBalance | ui/sell_section_ui.py:236-240 | balance + every payment + old gold + applied credit = the grand total; the balance may be negative |
| Pricing.OffsetNeverOverpays | ui/sell_section_ui.py:215-240 | paid by credit alone, the balance is 0 when the credit covers the bill, else grand − credit |
| Pricing.PurchaseAmount | ui/purchase_section_ui.py:98-132 | an item missing weight and amount, or rate and amount, is rejected; past that guard a positive entered amount is taken as it is, no amount gives net weight × rate, and a negative amount is rejected; an accepted amount is positive |
| Pricing.PriceFallbackUnreachable | ui/purchase_section_ui.py:122-132 | with no amount entered, only net × rate can price an item; the price × qty fallback is never reached |
| Pricing.PurchaseDraft.AddItem | ui/purchase_section_ui.py:155 | an accepted item's amount is appended, and a rejected item is not |
| Pricing.PurchaseBillTotals | ui/purchase_section_ui.py:167-178 | taxable = the sum of the item amounts, CGST and SGST = taxable × their rates/100, grand = taxable + CGST + SGST, and the rounded total is Python's round of it, within half a rupee |
| Pricing.PurchaseBalance | ui/purchase_section_ui.py:200-201 | balance + payments = the rounded grand total |
| Pricing.SavedTotalAndBalanceDisagree | ui/purchase_section_ui.py:241-254 | the saved total (before GST) minus what was paid differs from the saved balance by the GST, up to round-off |
| BillEdit.CollectRows | ui/modify_bill_section.py:222-300 | the submit loop keeps exactly the rows the filter keeps and totals their recomputed amounts; the purchase tab (lines 523-570) adds the price × qty fallback |
| BillEdit.DisplayedTotal | ui/modify_bill_section.py:192-210 | the on-screen total sums every row's amount, with no filter |
| BillEdit.KeptRowsAreValid | ui/modify_bill_section.py:261-300 | every kept row passes the filter, comes from the editor, and carries base + making + stone + wastage with no GST |
| BillEdit.ValidRowsAreKept | ui/modify_bill_section.py:261-300 | every row with a name, a metal and a positive quantity is kept |
| BillEdit.DisplayMatchesSubmitted | ui/modify_bill_section.py:192-300 | when every row passes the filter and has a non-negative amount, the on-screen and submitted totals agree |
| BillEdit.DisplayCanDifferFromSubmitted | ui/modify_bill_section.py:192-210 | otherwise they can differ: an unnamed row of 500 shows 500 and submits 0 |
| BillEdit.SubmitVerdict | ui/modify_bill_section.py:306-325 | an edit is accepted iff some row is kept, the total is positive and the amount paid does not exceed it |
| BillEdit.SubmitEdit | ui/modify_bill_section.py:221-325 | the submit handler passes on exactly the kept rows and their total, and accepts exactly as SubmitVerdict says |
| BillEdit.AcceptedEditPaysAtMostTotal | ui/modify_bill_section.py:306-325 | an accepted edit pays at most the new total (total − paid ≥ 0) and keeps at least one editor row |
| StoreProperties.AcceptedEditBalance | utils/update_sale_bill.py:49-66 | an accepted edit is stored with balance = total − paid − the bill's old gold, which is negative exactly when the old gold exceeds total − paid |
| StoreProperties.AcceptedEditCanStoreNegativeBalance | utils/update_sale_bill.py:49-66 | one ring of 50 with nothing paid passes the modify screen, yet over 80 of old gold it is stored with balance −30 |
| InvoicePdf.SaleFilenameShape | utils/generate_sell_pdf.py:49-51 | the file name is "sale_" + the name without spaces + "_" + the id without '/' + ".pdf" |
| InvoicePdf.SaleFilenamesCanCollide | utils/generate_sell_pdf.py:49-51 | "A B" and "A_B" give the same file name for the same invoice |
| InvoicePdf.PurchaseFilenameShape | utils/generate_purchase_pdf.py:39-41 | the same shape with "purchase_" |
| InvoicePdf.HsnOrDefault | utils/generate_sell_pdf.py:145 | a missing HSN prints as the jewellery heading 7113, and a given one as itself |
| InvoicePdf.SaleTotals | utils/generate_sell_pdf.py:133-156 | the loop sums the taxable amounts, the per-item CGST and SGST (a missing rate counts as 0), and the item totals; the grand total is taxable + CGST + SGST |
| InvoicePdf.PurchaseTotals | utils/generate_purchase_pdf.py:115-158 | CGST and SGST are 1.5% of the taxable sum each, and the grand total is 1.03 × the taxable sum |
| InvoicePdf.RoundOff | utils/generate_sell_pdf.py:174-175 | the round-off is at most half a rupee and makes the printed total a whole number |
| InvoicePdf.PrintedTotalIsNearestRupee | utils/generate_sell_pdf.py:174-175 | the printed total is a whole rupee amount nearest to the grand total |
| InvoicePdf.TotalsTable | utils/generate_sell_pdf.py:197 | the totals table appears iff there is more than one item, and ends with the round-off and the printed total |
| InvoicePdf.PaymentLinesArePositive | utils/generate_sell_pdf.py:231-241 | exactly the positive payments get a line |
| Words.TwoDigitsNonBlank | utils/convert_amount_to_word.py:8-17 | words for 1-99 are non-empty and start with a letter |
| Words.RoundTensTrailingSpace | utils/convert_amount_to_word.py:17 | a multiple of ten from 20 to 90 comes out as its tens word with a trailing space |
| Words.Split | utils/convert_amount_to_word.py:20-29 | n = crores·10⁷ + lakhs·10⁵ + thousands·10³ + hundreds·100 + rest, with lakhs, thousands and rest < 100 and hundreds < 10 |
| Words.OnePartPerGroup | utils/convert_amount_to_word.py:31-38 | one part is emitted per non-zero group, as the group's words followed by its unit, and each stands right after the written groups of larger units, so the order is Crore, Lakh, Thousand, Hundred |
| Words.AndBeforeLastTwoDigits | utils/convert_amount_to_word.py:39-42 | with a higher group and a non-zero rest, "and" precedes the words of the last two digits |
| Words.BelowHundredAlone | utils/convert_amount_to_word.py:39-42 | below 100 there is no "and", just the two-digit words |
| Words.NoAndOnRoundHundreds | utils/convert_amount_to_word.py:39-42 | a multiple of 100 has no "and" |
| Words.Process | utils/convert_amount_to_word.py:19-43 | the step-by-step process gives the specification's words for every amount below 10⁹ rupees |
| Words.LeadingParts | utils/convert_amount_to_word.py:31-38 | the appends build exactly the scaled parts of the groups |
| Words.WordsForEveryRupeeAmount | utils/convert_amount_to_word.py:19-43 | every rupee amount from 1 to 10⁹ − 1 has non-empty words |
| Words.Paise | utils/convert_amount_to_word.py:46 | the paise figure is between 0 and 100 |
| Words.ConvertAmountToWords | utils/convert_amount_to_word.py:3-53 | 0 gives "Zero"; 10⁹ rupees or more, or paise rounding to 100, raise an error; otherwise the rupee words, then " and <paise> Paise" when the paise figure is positive |
| Customers.AddCheck | utils/fetch_customers.py:69-83 | a new customer passes iff name and phone are given, the phone is 10-15 digits, a given PAN has 10 characters and a given Aadhaar 12 |
| Customers.UpdateCheck | utils/fetch_customers.py:47-52 | an update passes iff a given PAN has 10 characters and a given Aadhaar 12 |
| Customers.AddedPassesUpdate | utils/fetch_customers.py:47-83 | fields that pass the add check pass the update check |
| Customers.AcceptedPhoneIsDigits | utils/fetch_customers.py:74-76 | an accepted phone is 10 to 15 ASCII digits |
| Customers.CustomerBook.AddNewCustomer | utils/fetch_customers.py:67-109 | inserts iff the checks pass and neither the phone nor the name is taken (both UNIQUE); nothing changes otherwise |
| Customers.CustomerBook.UpdateCustomer | utils/fetch_customers.py:45-65 | rewrites the row keyed by the phone iff the checks pass and the new name is not another customer's; the phone is kept |
| Subscriptions.PlanDays | ui/subscription_management_ui.py:21-28 | exactly the four plans have a duration, between 7 and 365 days |
| Subscriptions.PlansAreOrdered | ui/subscription_management_ui.py:21-28 | Weekly < Monthly < Quarterly < Yearly |
| Subscriptions.ActiveIds | ui/subscription_management_ui.py:139 | exactly the active subscriptions are offered for deactivation |
| Subscriptions.DeactivateRemovesOne | ui/subscription_management_ui.py:86-91 | deactivating one id removes exactly that id from the active ones |
| Subscriptions.SubscriptionBook.AddSubscription | ui/subscription_management_ui.py:13-50 | inserts an active subscription ending the plan's days after now iff the plan is known and the code is new; nothing changes otherwise |
| Subscriptions.SubscriptionBook.Deactivate | ui/subscription_management_ui.py:81-97 | sets only that id inactive and reports success, even for an unknown id |
| Legacy.FirstNumber | app_19_04_2025.py:181-193 | a fresh counter issues 1 in app.py and 2 in the April snapshot |
| Legacy.NumbersConsecutive | app.py:227-239 | each issue is one more than the stored number |
| Legacy.SalesId | app.py:248-259 | Gold gives `IG-yymm-NNNN`, Silver `IS-` in app.py and `IG-` in April, any other metal "INV-ERROR" |
| Legacy.FormattedInjective | app.py:257 | ids with the same prefix and month are equal only for equal numbers |
| Legacy.ErrorIdsStandApart | app.py:261-275 | the purchase and deposit generators give their error ids exactly on a counter error |
| Legacy.MainIdsTellTheMetal | app.py:248-259 | in app.py a Gold id is never a Silver id |
| Legacy.AprilSilverLooksGold | app_19_04_2025.py:202-213 | in the April snapshot a Silver sale gets the Gold id |
| Legacy.StoredAll | app.py:362-369 | each item row takes the item's fields, with CGST/SGST defaulting to 0.015 and HSN to '7113' |
| Legacy.InsertItems | app.py:362-369 | the loop stores all items iff every item has a purity |
| Legacy.FirstSelected | app.py:503-504 | the fetched row is the first matching one, and none means no row matches |
| Legacy.Dropped | app.py:518-519 | a DELETE keeps exactly the rows that do not match |
| Legacy.DepositSettles | app.py:512-521 | after a deposit the matching rows hold pending − amount when positive; at 0 they are deleted; other rows are untouched |
| Legacy.DepositNeverOverdraws | app.py:507-515 | an accepted deposit leaves remaining ≥ 0 with remaining + deposit = the pending before |
| Legacy.Reinstated | app.py:583-592 | the deposit's amount goes back onto the first pending row of its invoice, if there is one |
| Legacy.PartPaymentRoundTrip | app.py:503-592 | a part payment saved and then deleted gives back exactly the pending rows there were |
| Legacy.PaidOffDepositCannotBeDeleted | app.py:596-605 | as written: a deposit that paid the receivable off cannot be deleted |
| Legacy.ReinstatedOrReopened | app.py:583-605 | corrected: with no pending row left, a row of the deposit's amount is opened under its invoice and customer |
| Legacy.PaidOffDepositReopens | app.py:596-605 | with the correction, deleting a paying-off deposit restores the receivable as a new row |
| Legacy.DepositBillDeletionKeepsPending | app.py:552-558 | deleting a deposit's own bill leaves the pending rows alone |
| Legacy.LegacyStore.AddNewCustomer | app.py:188-216 | inserts iff the name is given, the phone has at least 10 digits and is new; no PAN/Aadhaar checks |
| Legacy.LegacyStore.UpdateCustomer | app.py:139-154 | succeeds iff a given PAN and Aadhaar have at least 10 characters; rewrites the row of that phone |
| Legacy.LegacyStore.GetNextInvoiceNumber | app.py:218-246 | returns −1 exactly on a database error; else the bumped number ≥ 1, which is stored |
| Legacy.LegacyStore.GenerateSalesInvoiceId | app.py:248-259 | the id is SalesId of the bumped sales number, or of −1 on a database error |
| Legacy.LegacyStore.GeneratePurchaseInvoiceId | app.py:261-267 | `IP-yymm-NNNN` from the purchase counter, or "IP-ERROR" |
| Legacy.LegacyStore.GenerateUdhaarInvoiceId | app.py:269-275 | `UD-yymm-NNNN` from the deposit counter, or "UD-ERROR" |
| Legacy.LegacyStore.InsertSale | app.py:359-373 | header and items are written iff the id is new and every item has a purity; a receivable row is appended when the snapshot's rule says so |
| Legacy.LegacyStore.SaveSale | app.py:330-382 | app.py: returns the id iff validation passes, the id is new and every item has a purity; a receivable iff the balance is non-zero; a failure rolls everything back |
| Legacy.LegacyStore.SaveSaleApril | app_19_04_2025.py:202-283 | April: the id comes from the first item's metal and consumes a number; a receivable only for a positive balance; on a counter error the sale goes under "INV-ERROR", and a Silver sale with its NULL id is rolled back and returns None |
| Legacy.LegacyStore.InsertDeposit | app.py:514-521 | stores the deposit with its remaining amount and settles the matching receivable rows |
| Legacy.LegacyStore.SaveUdhaarDeposit | app.py:488-534 | succeeds iff the invoice and customer are given, the amount is positive, the first matching pending row covers it and the id is new; otherwise nothing changes |
| Legacy.LegacyStore.SaveUdhaarDepositApril | app_19_04_2025.py:389-435 | April: the same with a generated deposit id, whose number is consumed once the checks pass, or "UD-ERROR" on a counter error |
| Legacy.LegacyStore.DeleteBill | app.py:536-565 | deletes iff the bill is found (app.py also looks among the deposits); then the rows of every table under that id go, with no balance reversal |
| Legacy.LegacyStore.DeleteUdhaarBill | app.py:567-619 | succeeds iff the deposit exists and its invoice still has a pending row, which gets the amount back; otherwise everything is rolled back |

## Left out

- Streamlit screens, widgets, session state and messages. The add-item
  handlers' item lists are the `SaleDraft` and `PurchaseDraft` classes.
  Widget bounds appear only as `FormBounds` preconditions of pricing lemmas.
- Connection handling, the locked-database retry, and failures of single
  statements. The model has no exceptions from the database except these:
  - the UNIQUE and missing-row failures that the code relies on;
  - a failed read of a missing product's stock in `save_sale`;
  - the legacy counter error, which is a `dbError` parameter of the
    counter, the id generators and the April snapshot's two saves.
- Store.Database.GetNextInvoiceNumber: the None returned when the counter query
  fails is not modelled, because statement failures are not. The same holds
  for the three generators that pass it on.
- Dates, clocks and ISO strings. `created_at` is a logical clock, and the year
  and `yymm` of ids are parameters.
- JSON (de)serialisation of purchase items, PDF layout and file writes, the
  deposit PDF, login hashing, reports and the thin fetch wrappers.
- Python float artefacts and the NaN check of the modify screen: money is
  exact.
- `isdigit` is read as ASCII digits. Python's Unicode digit classes are not
  modelled.
- Foreign-key cascades. The foreign-key pragma is issued on one short-lived
  connection only, so no deletion cascades (see Findings).
- Concurrency between sessions.
- The legacy snapshots' other functions: purchase saving, reports, PDF and
  screens. They are outside the modelled core.
- Words.ConvertAmountToWords: requires a non-negative amount. For a negative
  balance, Python's floor division and negative list indexing give words
  that bear no relation to the amount; the model does not reproduce them.
- Timestamp columns other than `created_at` (`last_payment_date`,
  `updated_at`, `deposit_date`) are not modelled.
- The deposit reversal reads `linked_purchase_invoice_id`. The
  `udhaar_deposits` table declared in utils/config.py:269-284 has no such
  column, and against that schema the SELECT would fail. The model follows
  what the reversal is written to do: it reads the column as always empty
  (NULL), because no operation writes it. See Findings.
- Ledger.Greedy: its own contract only keeps the row ids and keys. What it
  deducts is stated by `GreedyTakesMin`, `GreedyKeepsNonNegative` and
  `OffsetWithinPendingIsAbsorbed`.
- Subscriptions.SubscriptionBook.AddSubscription and
  Subscriptions.SubscriptionBook.Deactivate model what the subscription
  screen's handlers are written to do, not what they do: both call
  `db_manager.get_connection()` before their `try`
  (ui/subscription_management_ui.py:15 and :83), a method `DBManager`
  (utils/db_manager.py) does not define, so every call raises
  AttributeError; utils/config.py also creates no `subscriptions` table.
- Store.SaleSavedRefused: `save_sale` also refuses an item that lacks one of
  the keys metal, metal_rate, description, qty, net_wt or amount
  (utils/save_sale.py:53-55, and the same check in both legacy snapshots).
  `Store.Item` and `Legacy.ItemIn` always hold those fields, so that refusal
  is not modelled.
- `created_at` stamps are unique in the model. Sales and purchases are
  stamped with `datetime.now().isoformat()`, but a deposit row takes the
  column's `CURRENT_TIMESTAMP` default (utils/save_udhaar.py:49-51 does not
  write it), which has one-second resolution. Two deposits saved in the same
  second therefore tie, and which of them utils/delete_bill.py takes as "the
  latest" is not modelled.
- Store.PendingSales: the pending sale query also joins `customers`; a
  receivable whose customer row is gone is listed by the model but not by
  the query. Customers are not part of `Store.Tables`.
- The `get_pending_*` sum queries are modelled as `PendingTotal` with lemmas.
  The query's 0.0 for a party with no rows is the empty sum.

## Findings

| source | as written | input that shows it | evidently intended | confidence | as-written member | corrected member |
|---|---|---|---|---|---|---|
| utils/delete_bill.py:68 | deleting the latest sale removes only the `sales` row; `sale_items` and `udhaar` rows stay, because the schema's ON DELETE CASCADE is not in force on this connection | save a sale with a balance, delete it, then save the re-issued id with a balance: the UNIQUE receivable insert fails and the save returns None after writing header and items | the sale "and associated records" are deleted, so the re-issued id saves cleanly | high (not executed) | StoreProperties.DeletedSaleBlocksReissue | StoreProperties.CascadedDeleteAllowsReissue |
| utils/save_udhaar.py:49-51 | the deposit row is inserted without `linked_purchase_invoice_id`, while the reversal reads that column to restore the payable | a deposit of 100 linked to a payable of 300 lowers it to 200; deleting the deposit leaves it at 200 | deleting the deposit gives the payable back its 100 | high (not executed) | StoreProperties.DeletedDepositKeepsPayableReduced | StoreProperties.DeletedLinkedDepositRestoresPayable |
| app.py:596-605 | when no pending row is left, `delete_udhaar_bill` looks up the customer on the deposit row it has just deleted, finds none and rolls back | a receivable of 500 paid off by a deposit of 500 (the row is deleted); deleting that deposit returns False | a pending row of 500 is recreated for the invoice and customer | high (not executed) | Legacy.PaidOffDepositCannotBeDeleted | Legacy.PaidOffDepositReopens |
