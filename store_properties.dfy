/**
 * What the bill and deposit operations promise when they are looked at
 * across several tables or several calls: the effects of a successful sale,
 * the single-kind and latest-only rules of delete_bill, the number a
 * deletion hands out again, the idempotence of the bill edits, and the two
 * places where the code leaves behind what its schema says should go.
 */
module StoreProperties {
  import opened Wrappers
  import opened Money
  import opened Ledger
  import opened Numbering
  import opened Store
  import BillEdit

  // ---------------------------------------------------------------- save_sale

  /**
   * A sale that passes its checks and names only stocked products writes its
   * stamped header, appends its items after any rows the invoice had, and
   * lowers each stocked product by exactly the quantity of it sold.
   */
  lemma SaleSavedWritesBill(t: Tables, inv: InvoiceId, b: Bill, items: seq<Item>, order: seq<InvoiceId>, applied: real)
    requires applied > 0.0 ==> OffsetOrder(t, b.party, order)
    requires SaleAcceptable(b.party, b.total, items) && inv !in t.sales
    requires FirstUnstocked(t.stock, items) == |items|
    requires b.balance != 0.0 ==> inv !in t.udhaar
    ensures var (r, u) := SaleSaved(t, inv, b, items, order, applied);
      && r == Some(inv)
      && inv in u.sales && u.sales[inv] == b.(created := t.clock)
      && ItemsOf(u.saleItems, inv) == ItemsOf(t.saleItems, inv) + items
      && (forall p :: p != 0 && p in t.stock ==> p in u.stock && u.stock[p] == t.stock[p] - QtyOf(items, p))
      && u.deposits == t.deposits && u.purchases == t.purchases
  {
    var header := t.(sales := t.sales[inv := b.(created := t.clock)], clock := t.clock + 1);
    var t1 := SaleRecorded(t, inv, b, items);
    SaleSavedRecorded(t, inv, b, items, order, applied);
    SaleRecordedAfterHeader(t, inv, b, items, header);
    ItemsRecordedRows(header, inv, items);
    ItemsRecordedStock(header, inv, items);
    forall p | p != 0 && p in t.stock
      ensures Deplete(t.stock, items)[p] == t.stock[p] - QtyOf(items, p)
    {
      DepleteByProduct(t.stock, items, p);
    }
    var u := SaleSaved(t, inv, b, items, order, applied).1;
    var withBalance := SaleBalanceOpened(t1, inv, b.party, b.balance);
    assert u == CreditOffset(withBalance, order, applied);
    assert withBalance.sales == t1.sales && withBalance.saleItems == t1.saleItems && withBalance.stock == t1.stock;
    assert u.sales == t1.sales && u.saleItems == t1.saleItems && u.stock == t1.stock;
  }

  /**
   * A successful sale opens a pending receivable of exactly its balance
   * under the next row id when that balance is not zero, negative ones
   * included; with a zero balance the receivables are left alone.
   */
  lemma SaleSavedOpensReceivable(t: Tables, inv: InvoiceId, b: Bill, items: seq<Item>, order: seq<InvoiceId>, applied: real)
    requires applied > 0.0 ==> OffsetOrder(t, b.party, order)
    requires SaleAcceptable(b.party, b.total, items) && inv !in t.sales
    requires FirstUnstocked(t.stock, items) == |items|
    requires b.balance != 0.0 ==> inv !in t.udhaar
    ensures var u := SaleSaved(t, inv, b, items, order, applied).1;
      && (b.balance != 0.0 ==> inv in u.udhaar && u.udhaar[inv] == Row(t.nextUdhaarId, b.party, b.balance, b.balance, Pending)
                               && u.nextUdhaarId == t.nextUdhaarId + 1)
      && (b.balance == 0.0 ==> u.udhaar == t.udhaar && u.nextUdhaarId == t.nextUdhaarId)
      && (forall k :: k in t.udhaar ==> k in u.udhaar && u.udhaar[k] == t.udhaar[k])
  {
    var t1 := SaleRecorded(t, inv, b, items);
    SaleSavedRecorded(t, inv, b, items, order, applied);
    var header := t.(sales := t.sales[inv := b.(created := t.clock)], clock := t.clock + 1);
    SaleRecordedAfterHeader(t, inv, b, items, header);
    assert t1.nextUdhaarId == t.nextUdhaarId;
    var withBalance := SaleBalanceOpened(t1, inv, b.party, b.balance);
    var u := SaleSaved(t, inv, b, items, order, applied).1;
    assert u == CreditOffset(withBalance, order, applied);
    assert u.udhaar == withBalance.udhaar && u.nextUdhaarId == withBalance.nextUdhaarId;
  }

  /**
   * The purchase credit a sale applies is taken from the customer's
   * payables oldest first, min(remaining, balance) from each; in total
   * min(applied, the rows' balance) is deducted and nothing goes negative.
   */
  lemma SaleSavedOffsetsCredit(t: Tables, inv: InvoiceId, b: Bill, items: seq<Item>, order: seq<InvoiceId>, applied: real)
    requires applied > 0.0 && OffsetOrder(t, b.party, order)
    requires SaleAcceptable(b.party, b.total, items) && inv !in t.sales
    requires FirstUnstocked(t.stock, items) == |items|
    requires b.balance != 0.0 ==> inv !in t.udhaar
    ensures var u := SaleSaved(t, inv, b, items, order, applied).1;
      && u.purchaseUdhaar == Greedy(t.purchaseUdhaar, order, applied)
      && SumAt(u.purchaseUdhaar, order) == SumAt(t.purchaseUdhaar, order) - Min(applied, SumAt(t.purchaseUdhaar, order))
      && forall i :: 0 <= i < |order| ==> u.purchaseUdhaar[order[i]].current >= 0.0
  {
    var t1 := SaleRecorded(t, inv, b, items);
    SaleSavedRecorded(t, inv, b, items, order, applied);
    var withBalance := SaleBalanceOpened(t1, inv, b.party, b.balance);
    assert withBalance.purchaseUdhaar == t.purchaseUdhaar;
    GreedyDeducts(t.purchaseUdhaar, order, applied);
  }

  // ---------------------------------------------------------------- delete_bill

  /** Only the newest sale, purchase or deposit can be deleted: any other id leaves every table as it was. */
  lemma OnlyLatestIsDeleted(t: Tables, inv: InvoiceId)
    requires AfterDeletion(t, inv) != t
    ensures inv != "" && Latest(t, inv)
    ensures inv in t.sales || inv in t.purchases || inv in t.deposits
  {
    DeletionCases(t, inv);
  }

  /**
   * One call deletes one kind of bill, sale before purchase before deposit:
   * the tables of the other kinds are untouched.
   */
  lemma DeletionTouchesOneKind(t: Tables, inv: InvoiceId)
    ensures var r := AfterDeletion(t, inv);
      && (DeletionOf(t, inv) == SaleDeleted ==>
            r.sales == t.sales - {inv} && r.purchases == t.purchases && r.deposits == t.deposits && r.udhaar == t.udhaar)
      && (DeletionOf(t, inv) == PurchaseDeleted ==>
            inv !in t.sales && r.purchases == t.purchases - {inv} && r.sales == t.sales && r.deposits == t.deposits
            && r.purchaseUdhaar == t.purchaseUdhaar)
      && (DeletionOf(t, inv) == DepositDeleted ==>
            inv !in t.sales && inv !in t.purchases && r.deposits == t.deposits - {inv} && r.sales == t.sales
            && r.purchases == t.purchases)
  {
    DeletionCases(t, inv);
    if DeletionOf(t, inv) == DepositDeleted {
      var r := DepositReversed(t, inv);
      assert r.deposits == t.deposits - {inv} && r.sales == t.sales && r.purchases == t.purchases;
    }
  }

  /**
   * Deleting the newest sale steps the SALES counter back, so the next
   * sales id generated is the deleted sale's id again.
   */
  lemma DeletedSaleNumberReissued(t: Tables, inv: InvoiceId, year: nat)
    requires inv != "" && inv in t.sales && Newest(BillStamps(t.sales), inv)
    requires SalesPrefix in t.counters
    ensures NextNumber(AfterDeletion(t, inv).counters, SalesPrefix) == t.counters[SalesPrefix]
    ensures SalesInvoiceId(year, NextNumber(AfterDeletion(t, inv).counters, SalesPrefix))
            == SalesInvoiceId(year, t.counters[SalesPrefix])
  {
    DeletionCases(t, inv);
    assert AfterDeletion(t, inv).counters == t.counters[SalesPrefix := t.counters[SalesPrefix] - 1];
  }

  /** Deleting the newest deposit steps its customer's counter back, and no other counter. */
  lemma DeletedDepositNumberReissued(t: Tables, inv: InvoiceId)
    requires inv != "" && inv !in t.sales && inv !in t.purchases && Newest(DepositStamps(t.deposits), inv)
    requires t.deposits[inv].customer != 0
    ensures var c := UdhaarPrefix(t.deposits[inv].customer);
      && NextNumber(AfterDeletion(t, inv).counters, c) == Stored(t.counters, c) + (if c in t.counters then 0 else 1)
      && NextNumber(AfterDeletion(t, inv).counters, SalesPrefix) == NextNumber(t.counters, SalesPrefix)
  {
    DeletionCases(t, inv);
    var c := UdhaarPrefix(t.deposits[inv].customer);
    UdhaarPrefixIsNotShared(t.deposits[inv].customer);
    var r := DepositReversed(t, inv);
    assert r.counters == t.counters;
    assert AfterDeletion(t, inv).counters == Decremented(t.counters, c);
  }

  // ---------------------------------------------------------------- payments and edits

  /**
   * update_udhaar_balance: the row is paid down to no less than zero, its id,
   * customer and initial balance kept; one log row records the amount asked
   * for, even when less was owed; no other row changes.
   */
  lemma BalancePaidLogsRequest(t: Tables, k: InvoiceId, amount: real, mode: string, info: string)
    requires k in t.udhaar
    ensures var r := BalancePaid(t, k, amount, mode, info);
      && r.udhaar[k].current == (if t.udhaar[k].current - amount <= 0.0 then 0.0 else t.udhaar[k].current - amount)
      && r.udhaar[k].id == t.udhaar[k].id && r.udhaar[k].initial == t.udhaar[k].initial
      && r.udhaar[k].party == t.udhaar[k].party
      && r.udhaarTxns == t.udhaarTxns + [Txn(t.udhaar[k].id, amount, mode, info)]
      && (forall j :: j in t.udhaar && j != k ==> j in r.udhaar && r.udhaar[j] == t.udhaar[j])
      && r.purchaseUdhaar == t.purchaseUdhaar && r.deposits == t.deposits
  {
  }

  /** Submitting the same sale edit twice leaves the tables as the first submission did. */
  lemma SaleEditIdempotent(t: Tables, inv: InvoiceId, customer: int, date: string, items: seq<Item>, mode: string,
                           info: string, paid: real, total: real)
    requires inv in t.sales
    ensures var once := SaleEdited(t, inv, customer, date, items, mode, info, paid, total);
      SaleEdited(once, inv, customer, date, items, mode, info, paid, total) == once
  {
    var once := SaleEdited(t, inv, customer, date, items, mode, info, paid, total);
    var b := EditedSale(t.sales[inv], customer, date, total, mode, info, paid);
    assert once.sales[inv] == b;
    assert EditedSale(b, customer, date, total, mode, info, paid) == b;
    ResetSaleBalanceIdempotent(t.udhaar, inv, customer, b.balance, t.nextUdhaarId, once.nextUdhaarId);
  }

  /** Submitting the same purchase edit twice leaves the tables as the first submission did. */
  lemma PurchaseEditIdempotent(t: Tables, inv: InvoiceId, supplier: int, date: string, items: seq<Item>, mode: string,
                               info: string, paid: real, total: real)
    ensures var once := PurchaseEdited(t, inv, supplier, date, items, mode, info, paid, total);
      PurchaseEdited(once, inv, supplier, date, items, mode, info, paid, total) == once
  {
    var once := PurchaseEdited(t, inv, supplier, date, items, mode, info, paid, total);
    if inv in t.purchases {
      var b := EditedPurchase(t.purchases[inv], supplier, date, total, mode, info, paid);
      assert once.purchases[inv] == b;
      assert EditedPurchase(b, supplier, date, total, mode, info, paid) == b;
    }
    RebalancePurchaseIdempotent(t.purchaseUdhaar, inv, supplier, total - paid, t.nextPurchaseUdhaarId,
                                once.nextPurchaseUdhaarId);
  }

  // ---------------------------------------------------------------- what deletion leaves behind

  /**
   * delete_bill on a sale as written: the header goes, but the sale_items
   * rows and the receivable stay, because the schema's ON DELETE CASCADE
   * only fires on a connection that enabled foreign keys.  The SALES number
   * is then issued again, and a new sale under it with a balance is refused
   * by the receivable left behind, after its header and items were written.
   */
  lemma DeletedSaleBlocksReissue(t: Tables, inv: InvoiceId, b: Bill, items: seq<Item>)
    requires inv in t.sales && inv in t.udhaar
    requires SaleAcceptable(b.party, b.total, items) && FirstUnstocked(t.stock, items) == |items|
    requires b.balance != 0.0
    ensures var d := SaleRemoved(t, inv);
      && inv in d.udhaar && ItemsOf(d.saleItems, inv) == ItemsOf(t.saleItems, inv)
      && SaleSaved(d, inv, b, items, [], 0.0) == (None, SaleRecorded(d, inv, b, items))
  {
    var d := SaleRemoved(t, inv);
    assert inv !in d.sales && d.udhaar == t.udhaar && d.stock == t.stock;
    SaleSavedRecorded(d, inv, b, items, [], 0.0);
  }

  /**
   * The receivable that deleting a sale leaves behind still owes its
   * balance, but the pending list no longer shows it, so no deposit can be
   * picked for it on the deposit screen.
   */
  lemma DeletedSaleReceivableUnlisted(t: Tables, inv: InvoiceId)
    requires inv in t.sales && inv in t.udhaar && t.udhaar[inv].current > 0.0
    ensures inv in PendingSales(t)
    ensures var d := SaleRemoved(t, inv);
      && inv in PendingRows(d.udhaar) && d.udhaar[inv] == t.udhaar[inv]
      && inv !in PendingSales(d)
  {
  }

  /** delete_bill on a sale as its schema declares it: the header, its items and its receivable all go. */
  function SaleRemovedWithRecords(t: Tables, inv: InvoiceId): (r: Tables)
    ensures inv !in r.sales && inv !in r.saleItems && inv !in r.udhaar
  {
    t.(sales := t.sales - {inv}, saleItems := t.saleItems - {inv}, udhaar := t.udhaar - {inv},
       counters := Decremented(t.counters, SalesPrefix))
  }

  /**
   * With the cascade, the reissued number works like a new one: the sale is
   * saved, its items are exactly the new ones, and its balance opens a
   * fresh receivable.
   */
  lemma CascadedDeleteAllowsReissue(t: Tables, inv: InvoiceId, b: Bill, items: seq<Item>)
    requires SaleAcceptable(b.party, b.total, items) && FirstUnstocked(t.stock, items) == |items|
    ensures var d := SaleRemovedWithRecords(t, inv);
      var (r, u) := SaleSaved(d, inv, b, items, [], 0.0);
      && r == Some(inv)
      && ItemsOf(u.saleItems, inv) == items
      && (b.balance != 0.0 ==> inv in u.udhaar && u.udhaar[inv].current == b.balance)
  {
    var d := SaleRemovedWithRecords(t, inv);
    assert d.stock == t.stock;
    SaleSavedWritesBill(d, inv, b, items, [], 0.0);
    SaleSavedOpensReceivable(d, inv, b, items, [], 0.0);
  }

  /**
   * save_udhaar_deposit as written stores the deposit without the purchase
   * invoice it paid down, so deleting the deposit gives the receivable its
   * amount back but never the payable.
   */
  lemma DeletedDepositKeepsPayableReduced(t: Tables, depositId: InvoiceId, sellInvoice: InvoiceId, customer: int,
                                          amount: real, mode: string, info: string, linkedPurchase: InvoiceId)
    requires DepositAccepted(t, depositId, sellInvoice, customer, amount, linkedPurchase)
    requires linkedPurchase != "" && linkedPurchase in t.purchaseUdhaar
    requires t.purchaseUdhaar[linkedPurchase].current > 0.0
    ensures var s := DepositSaved(t, depositId, sellInvoice, customer, amount, mode, info, linkedPurchase);
      && depositId in s.deposits && linkedPurchase in s.purchaseUdhaar
      && DepositReversed(s, depositId).purchaseUdhaar[linkedPurchase].current
         < t.purchaseUdhaar[linkedPurchase].current
  {
  }

  /** save_udhaar_deposit with the purchase invoice stored on the deposit row, as the reversal expects. */
  function DepositSavedWithLink(t: Tables, depositId: InvoiceId, sellInvoice: InvoiceId, customer: int, amount: real,
                                mode: string, info: string, linkedPurchase: InvoiceId): (r: Tables)
    requires DepositAccepted(t, depositId, sellInvoice, customer, amount, linkedPurchase)
    ensures depositId in r.deposits && r.deposits[depositId].linkedPurchase == linkedPurchase
    ensures r.purchaseUdhaar == DepositSaved(t, depositId, sellInvoice, customer, amount, mode, info, linkedPurchase).purchaseUdhaar
  {
    var s := DepositSaved(t, depositId, sellInvoice, customer, amount, mode, info, linkedPurchase);
    s.(deposits := s.deposits[depositId := Deposit(sellInvoice, customer, amount, mode, info, linkedPurchase, t.clock)])
  }

  /**
   * With the link stored, deleting a deposit that did not exceed the
   * payable's balance gives the payable its balance back exactly.
   */
  lemma DeletedLinkedDepositRestoresPayable(t: Tables, depositId: InvoiceId, sellInvoice: InvoiceId, customer: int,
                                            amount: real, mode: string, info: string, linkedPurchase: InvoiceId)
    requires DepositAccepted(t, depositId, sellInvoice, customer, amount, linkedPurchase)
    requires linkedPurchase != "" && linkedPurchase in t.purchaseUdhaar
    requires amount <= t.purchaseUdhaar[linkedPurchase].current
    ensures var s := DepositSavedWithLink(t, depositId, sellInvoice, customer, amount, mode, info, linkedPurchase);
      linkedPurchase in s.purchaseUdhaar
      && DepositReversed(s, depositId).purchaseUdhaar[linkedPurchase].current == t.purchaseUdhaar[linkedPurchase].current
  {
  }

  // ---------------------------------------------------------------- modify-bill screen to update_sale_bill

  /**
   * An edit the modify screen accepts reaches update_sale_bill with the kept
   * rows' total and the amount paid; the header then stores total − (paid +
   * the bill's old gold), which is below zero exactly when the old gold
   * exceeds what is left after the payment.
   */
  lemma AcceptedEditBalance(tab: BillEdit.Tab, rows: seq<BillEdit.EditRow>, paid: real,
                            prior: Bill, customer: int, date: string, mode: string, info: string)
    requires var k := BillEdit.KeptRows(tab, rows);
      BillEdit.SubmitVerdict(|k|, Sum(Column(k, BillEdit.KeptAmount)), paid) == BillEdit.Accepted
    ensures var total := Sum(Column(BillEdit.KeptRows(tab, rows), BillEdit.KeptAmount));
      var b := EditedSale(prior, customer, date, total, mode, info, paid);
      && b.balance == total - paid - prior.oldGold
      && total - paid >= 0.0
      && (b.balance < 0.0 <==> prior.oldGold > total - paid)
  {
    BillEdit.AcceptedEditPaysAtMostTotal(tab, rows, paid);
  }

  /** One ring of 50 with nothing paid is accepted, yet over 80 of old gold it stores a balance of −30. */
  lemma AcceptedEditCanStoreNegativeBalance(prior: Bill)
    requires prior.oldGold == 80.0
    ensures var rows := [BillEdit.EditRow("Ring", "Gold", 1.0, 0.0, 0.0, 0.0, 50.0, 0.0, 0.0, 0.0)];
      var k := BillEdit.KeptRows(BillEdit.SaleTab, rows);
      var total := Sum(Column(k, BillEdit.KeptAmount));
      && BillEdit.SubmitVerdict(|k|, total, 0.0) == BillEdit.Accepted
      && EditedSale(prior, prior.party, prior.date, total, "Cash", "", 0.0).balance == -30.0
  {
    var rows := [BillEdit.EditRow("Ring", "Gold", 1.0, 0.0, 0.0, 0.0, 50.0, 0.0, 0.0, 0.0)];
    var k := BillEdit.KeptRows(BillEdit.SaleTab, rows);
    assert rows[..0] == [];
    assert k == [BillEdit.KeptRow(rows[0], 50.0)];
    assert Column(k, BillEdit.KeptAmount) == [50.0];
    assert Sum([50.0]) == Sum([]) + 50.0;
  }
}
