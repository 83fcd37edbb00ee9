/**
 * The shop's database as the bill and deposit operations change it: bill
 * headers and items, product stock, the two credit ledgers with their
 * transaction logs, the deposits, and the invoice counters.  Each operation
 * is a method of `Database` whose postcondition gives the new state of all
 * the tables at once through the pure functions of `Ledger`, `Numbering`
 * and the functions below, so that every table the operation does not
 * write is stated to be left as it was.
 *
 * Timestamps are a logical clock: every inserted bill or deposit gets the
 * clock's value as its `created_at`, so "latest" means the largest stamp.
 */
module Store {
  import opened Wrappers
  import opened Money
  import opened Ledger
  import opened Numbering
  import opened Text

  /** A `sales` or `purchases` header row (purchases have no old-gold column: 0 there). */
  datatype Bill = Bill(
    party: int, date: string, total: real, cheque: real, online: real, upi: real, cash: real,
    oldGold: real, balance: real, mode: string, info: string, created: nat)

  /** A `sale_items` / `purchase_items` row: 0 stands for an item with no product. */
  datatype Item = Item(productId: nat, metal: string, rate: real, description: string, qty: real, netWt: real, amount: real)

  /**
   * An `udhaar_deposits` row.  `linkedPurchase` is the column the reversal
   * reads; no operation ever writes it, so it stays "" (NULL).
   */
  datatype Deposit = Deposit(
    sellInvoice: InvoiceId, customer: int, amount: real, mode: string, info: string,
    linkedPurchase: InvoiceId, created: nat)

  /** An `inventory_transactions` row of a sale: the product, the change, the stock after, the invoice. */
  datatype Move = Move(productId: nat, change: real, after: real, reference: InvoiceId)

  /** Every table at once, so that a postcondition can say which ones an operation changed. */
  datatype Tables = Tables(
    udhaar: Table, purchaseUdhaar: Table, udhaarTxns: seq<Txn>, purchaseTxns: seq<Txn>,
    deposits: map<InvoiceId, Deposit>, sales: map<InvoiceId, Bill>, saleItems: map<InvoiceId, seq<Item>>,
    purchases: map<InvoiceId, Bill>, purchaseItems: map<InvoiceId, seq<Item>>,
    stock: map<nat, real>, moves: seq<Move>, counters: Counters,
    nextUdhaarId: nat, nextPurchaseUdhaarId: nat, clock: nat)

  /**
   * Ledger row ids are unique and below the next AUTOINCREMENT value, so the
   * id a new row is given is not already in use.
   */
  predicate RowIds(t: Table, next: nat)
  {
    (forall k :: k in t ==> t[k].id < next)
    && forall k, j :: k in t && j in t && k != j ==> t[k].id != t[j].id
  }

  /** A new row takes the next id and the next id moves on. */
  lemma RowIdsInsert(t: Table, next: nat, k: InvoiceId, r: Row)
    requires RowIds(t, next) && k !in t && r.id == next
    ensures RowIds(t[k := r], next + 1)
  {
  }

  /** Rewriting a row in place, keeping its id, keeps the ids unique. */
  lemma RowIdsUpdate(t: Table, next: nat, k: InvoiceId, r: Row)
    requires RowIds(t, next) && k in t && r.id == t[k].id
    ensures RowIds(t[k := r], next)
  {
  }

  /** A table rewritten without new rows, every id kept, keeps its ids unique. */
  lemma RowIdsKept(t: Table, u: Table, next: nat)
    requires RowIds(t, next) && u.Keys <= t.Keys && KeepsIds(t, u)
    ensures RowIds(u, next)
  {
  }

  /** A table rewritten with at most one new row, which takes the next id. */
  lemma RowIdsOneNew(t: Table, u: Table, next: nat, k: InvoiceId)
    requires RowIds(t, next) && u.Keys <= t.Keys + {k} && k !in t && KeepsIds(t, u)
    requires k in u ==> u[k].id == next
    ensures RowIds(u, next + 1)
  {
  }

  /** Deposits rewritten in place, each keeping its stamp. */
  lemma DepositsStampedRewrite(deposits: map<InvoiceId, Deposit>, clock: nat, k: InvoiceId, d: Deposit)
    requires DepositsStamped(deposits, clock) && k in deposits && d.created == deposits[k].created
    ensures DepositsStamped(deposits[k := d], clock)
  {
  }

  /** Creation stamps are unique and in the past. */
  predicate Stamped(stamps: map<InvoiceId, nat>, clock: nat)
  {
    (forall k :: k in stamps ==> stamps[k] < clock)
    && (forall k, j :: k in stamps && j in stamps && k != j ==> stamps[k] != stamps[j])
  }

  /** Bill stamps are unique and in the past. */
  predicate BillsStamped(bills: map<InvoiceId, Bill>, clock: nat)
  {
    (forall k :: k in bills ==> bills[k].created < clock)
    && (forall k, j :: k in bills && j in bills && k != j ==> bills[k].created != bills[j].created)
  }

  /** Deposit stamps are unique and in the past. */
  predicate DepositsStamped(deposits: map<InvoiceId, Deposit>, clock: nat)
  {
    (forall k :: k in deposits ==> deposits[k].created < clock)
    && (forall k, j :: k in deposits && j in deposits && k != j ==> deposits[k].created != deposits[j].created)
  }

  function BillStamps(bills: map<InvoiceId, Bill>): (s: map<InvoiceId, nat>)
    ensures s.Keys == bills.Keys && forall k :: k in s ==> s[k] == bills[k].created
    ensures forall clock: nat :: BillsStamped(bills, clock) ==> Stamped(s, clock)
  {
    map k | k in bills :: bills[k].created
  }

  function DepositStamps(deposits: map<InvoiceId, Deposit>): (s: map<InvoiceId, nat>)
    ensures s.Keys == deposits.Keys && forall k :: k in s ==> s[k] == deposits[k].created
    ensures forall clock: nat :: DepositsStamped(deposits, clock) ==> Stamped(s, clock)
  {
    map k | k in deposits :: deposits[k].created
  }

  /** A bill stamped with the clock, which then moves on, keeps the stamps unique. */
  lemma BillsStampedInsert(bills: map<InvoiceId, Bill>, clock: nat, k: InvoiceId, b: Bill)
    requires BillsStamped(bills, clock) && k !in bills && b.created == clock
    ensures BillsStamped(bills[k := b], clock + 1)
  {
  }

  /** A bill rewritten in place, keeping its stamp, keeps the stamps unique. */
  lemma BillsStampedRewrite(bills: map<InvoiceId, Bill>, clock: nat, k: InvoiceId, b: Bill)
    requires BillsStamped(bills, clock) && k in bills && b.created == bills[k].created
    ensures BillsStamped(bills[k := b], clock)
  {
  }

  /** Moving the clock on keeps the stamps in the past. */
  lemma BillsStampedLater(bills: map<InvoiceId, Bill>, clock: nat)
    requires BillsStamped(bills, clock)
    ensures BillsStamped(bills, clock + 1)
  {
  }

  lemma DepositsStampedInsert(deposits: map<InvoiceId, Deposit>, clock: nat, k: InvoiceId, d: Deposit)
    requires DepositsStamped(deposits, clock) && k !in deposits && d.created == clock
    ensures DepositsStamped(deposits[k := d], clock + 1)
  {
  }

  predicate WellFormed(t: Tables)
  {
    RowIds(t.udhaar, t.nextUdhaarId) && RowIds(t.purchaseUdhaar, t.nextPurchaseUdhaarId)
    && BillsStamped(t.sales, t.clock) && BillsStamped(t.purchases, t.clock)
    && DepositsStamped(t.deposits, t.clock)
  }

  /** `k` carries the largest stamp: `ORDER BY created_at DESC LIMIT 1`. */
  predicate Newest(stamps: map<InvoiceId, nat>, k: InvoiceId)
  {
    k in stamps && forall j :: j in stamps ==> stamps[j] <= stamps[k]
  }

  /** With unique stamps there is at most one newest row. */
  lemma NewestIsUnique(stamps: map<InvoiceId, nat>, clock: nat, k: InvoiceId, j: InvoiceId)
    requires Stamped(stamps, clock) && Newest(stamps, k) && Newest(stamps, j)
    ensures k == j
  {
  }

  lemma {:induction false} MaxExists(s: set<nat>)
    requires s != {}
    ensures exists m :: m in s && forall x :: x in s ==> x <= m
    decreases |s|
  {
    var x :| x in s;
    if s - {x} != {} {
      MaxExists(s - {x});
      var m :| m in s - {x} && forall y :: y in s - {x} ==> y <= m;
      var top := if x > m then x else m;
      forall y | y in s ensures y <= top {
        if y != x {
          assert y in s - {x};
        }
      }
    } else {
      assert s == {x};
    }
  }

  /** The id of the newest row, if the table has any. */
  method NewestOf(stamps: map<InvoiceId, nat>) returns (k: Option<InvoiceId>)
    ensures k.None? <==> stamps == map[]
    ensures k.Some? ==> Newest(stamps, k.value)
  {
    if stamps == map[] {
      return None;
    }
    var values := set j | j in stamps :: stamps[j];
    var some :| some in stamps;
    assert stamps[some] in values;
    MaxExists(values);
    var m :| m in values && forall x :: x in values ==> x <= m;
    var n :| n in stamps && stamps[n] == m;
    forall j | j in stamps ensures stamps[j] <= m {
      assert stamps[j] in values;
    }
    return Some(n);
  }

  /** The items already stored under an invoice. */
  function ItemsOf(items: map<InvoiceId, seq<Item>>, inv: InvoiceId): seq<Item>
  {
    if inv in items then items[inv] else []
  }

  /** One sale item's stock step: a linked product loses the item's quantity. */
  function Take(stock: map<nat, real>, item: Item): (s: map<nat, real>)
    ensures s.Keys == stock.Keys
  {
    if item.productId != 0 && item.productId in stock then stock[item.productId := stock[item.productId] - item.qty]
    else stock
  }

  /** The stock after a sale's items, taken in order. */
  function Deplete(stock: map<nat, real>, items: seq<Item>): (s: map<nat, real>)
    ensures s.Keys == stock.Keys
  {
    if items == [] then stock else Take(Deplete(stock, items[..|items| - 1]), items[|items| - 1])
  }

  /** The inventory rows a sale logs: one `sale_out` per linked item, with the stock after it. */
  function Moves(stock: map<nat, real>, items: seq<Item>, inv: InvoiceId): seq<Move>
  {
    if items == [] then []
    else
      var last := items[|items| - 1];
      var after := Deplete(stock, items);
      Moves(stock, items[..|items| - 1], inv)
      + (if last.productId != 0 && last.productId in stock then [Move(last.productId, -last.qty, after[last.productId], inv)] else [])
  }

  /** The quantity of a product among the items. */
  function QtyOf(items: seq<Item>, product: nat): real
  {
    if items == [] then 0.0
    else QtyOf(items[..|items| - 1], product) + (if items[|items| - 1].productId == product then items[|items| - 1].qty else 0.0)
  }

  /** A sale lowers each product's stock by exactly the quantity of it sold, and touches no other product. */
  lemma {:induction false} DepleteByProduct(stock: map<nat, real>, items: seq<Item>, product: nat)
    requires product != 0 && product in stock
    ensures Deplete(stock, items)[product] == stock[product] - QtyOf(items, product)
    decreases |items|
  {
    if items != [] {
      DepleteByProduct(stock, items[..|items| - 1], product);
    }
  }

  /** save_sale's checks on the items: quantity, net weight and amount all positive. */
  predicate ItemsPositive(items: seq<Item>)
  {
    forall i :: 0 <= i < |items| ==> items[i].qty > 0.0 && items[i].netWt > 0.0 && items[i].amount > 0.0
  }

  /** save_sale's checks before anything is written. */
  predicate SaleAcceptable(customer: int, total: real, items: seq<Item>)
  {
    customer != 0 && items != [] && total > 0.0 && ItemsPositive(items)
  }

  /** The payment columns of a bill: cheque, online, UPI and cash. */
  datatype Payments = Payments(cheque: real, online: real, upi: real, cash: real)

  function Paid(p: Payments): real
  {
    p.cheque + p.online + p.upi + p.cash
  }

  /**
   * update_sale_bill's split of the amount paid: all of it in the column of
   * the mode, and any mode other than Cheque, Online or UPI counted as cash.
   */
  function SaleSplit(mode: string, paid: real): (p: Payments)
    ensures Paid(p) == paid
    ensures mode !in {"Cheque", "Online", "UPI"} ==> p == Payments(0.0, 0.0, 0.0, paid)
  {
    if mode == "Cash" then Payments(0.0, 0.0, 0.0, paid)
    else if mode == "Online" then Payments(0.0, paid, 0.0, 0.0)
    else if mode == "Cheque" then Payments(paid, 0.0, 0.0, 0.0)
    else if mode == "UPI" then Payments(0.0, 0.0, paid, 0.0)
    else Payments(0.0, 0.0, 0.0, paid)
  }

  /**
   * update_purchase_bill's split: all of it in the column of the mode, and
   * nowhere at all for a mode other than Cheque, Online, UPI or Cash.
   */
  function PurchaseSplit(mode: string, paid: real): (p: Payments)
    ensures mode in {"Cheque", "Online", "UPI", "Cash"} ==> Paid(p) == paid
    ensures mode !in {"Cheque", "Online", "UPI", "Cash"} ==> p == Payments(0.0, 0.0, 0.0, 0.0)
  {
    Payments(if mode == "Cheque" then paid else 0.0, if mode == "Online" then paid else 0.0,
             if mode == "UPI" then paid else 0.0, if mode == "Cash" then paid else 0.0)
  }

  /** The header update_sale_bill writes: the old gold and the creation stamp are kept. */
  function EditedSale(prior: Bill, customer: int, date: string, total: real, mode: string, info: string, paid: real): (b: Bill)
    ensures b.total - (Paid(SaleSplit(mode, paid)) + b.oldGold) == b.balance
    ensures b.oldGold == prior.oldGold && b.created == prior.created && b.party == customer
  {
    var p := SaleSplit(mode, paid);
    Bill(customer, date, total, p.cheque, p.online, p.upi, p.cash, prior.oldGold,
         total - (p.cheque + p.online + p.upi + p.cash + prior.oldGold), mode, info, prior.created)
  }

  /** The header update_purchase_bill writes: balance = total − paid, whatever the mode. */
  function EditedPurchase(prior: Bill, supplier: int, date: string, total: real, mode: string, info: string, paid: real): (b: Bill)
    ensures b.balance == total - paid && b.created == prior.created && b.party == supplier
  {
    var p := PurchaseSplit(mode, paid);
    Bill(supplier, date, total, p.cheque, p.online, p.upi, p.cash, prior.oldGold, total - paid, mode, info, prior.created)
  }

  /**
   * With a payment mode outside the four columns, the edited purchase's
   * stored payments no longer account for its stored balance.
   */
  lemma UnknownModeLosesPayment(prior: Bill, supplier: int, date: string, total: real, info: string, paid: real)
    requires paid != 0.0
    ensures var b := EditedPurchase(prior, supplier, date, total, "Other", info, paid);
      b.total - (b.cheque + b.online + b.upi + b.cash) != b.balance
  {
  }

  /** What delete_bill did: refused for want of an id, refused a bill that is not the latest, or deleted one. */
  datatype Deletion = NoInvoiceId | NotLatest | SaleDeleted | PurchaseDeleted | DepositDeleted

  // ================================================================ operations on the tables
  //
  // Each function below is the whole effect of one operation (or of one of
  // its steps) on the tables; the methods of `Database` perform the same
  // writes one statement at a time and are proved to arrive at it.

  /** update_purchase_udhaar on an invoice that has a payable: pay it, clamped, and log the adjustment. */
  function PayableAdjusted(t: Tables, inv: InvoiceId, amount: real): Tables
    requires inv in t.purchaseUdhaar
  {
    t.(purchaseUdhaar := t.purchaseUdhaar[inv := Pay(t.purchaseUdhaar[inv], amount)],
       purchaseTxns := t.purchaseTxns + [Txn(t.purchaseUdhaar[inv].id, amount, "Adjustment (Sale)", "Adjusted against sale invoice")])
  }

  /**
   * save_udhaar_deposit's checks: an id, a customer and a positive amount;
   * when a sale invoice is named, its receivable must belong to the
   * customer and, unless a purchase invoice is named too, cover the amount;
   * and the deposit id must be new (it is UNIQUE).
   */
  predicate DepositAccepted(t: Tables, depositId: InvoiceId, sellInvoice: InvoiceId, customer: int, amount: real,
                            linkedPurchase: InvoiceId)
  {
    depositId != "" && customer != 0 && amount > 0.0
    && (sellInvoice != "" ==> Linked(t.udhaar, sellInvoice, customer)
                              && (linkedPurchase != "" || amount <= t.udhaar[sellInvoice].current))
    && depositId !in t.deposits
  }

  /** The note save_udhaar_deposit writes on the receivable's log row. */
  function DepositNote(sellInvoice: InvoiceId): string
  {
    "Deposit against " + sellInvoice
  }

  /**
   * save_udhaar_deposit once its checks pass, up to the purchase link: the
   * deposit row is stamped and stored without that link, and a named
   * receivable is paid (clamped) and logged.
   */
  function DepositRecorded(t: Tables, depositId: InvoiceId, sellInvoice: InvoiceId, customer: int, amount: real,
                           mode: string, info: string, linkedPurchase: InvoiceId): (r: Tables)
    requires DepositAccepted(t, depositId, sellInvoice, customer, amount, linkedPurchase)
    ensures r.deposits == t.deposits[depositId := Deposit(sellInvoice, customer, amount, mode, info, "", t.clock)]
    ensures r.purchaseUdhaar == t.purchaseUdhaar
  {
    var t1 := t.(deposits := t.deposits[depositId := Deposit(sellInvoice, customer, amount, mode, info, "", t.clock)],
                 clock := t.clock + 1);
    if sellInvoice == "" then t1
    else t1.(udhaar := ApplyDeposit(t.udhaar, sellInvoice, customer, amount),
             udhaarTxns := t.udhaarTxns + [Txn(t.udhaar[sellInvoice].id, amount, mode, DepositNote(sellInvoice))])
  }

  /** save_udhaar_deposit once its checks pass: then a named payable is paid the full amount. */
  function DepositSaved(t: Tables, depositId: InvoiceId, sellInvoice: InvoiceId, customer: int, amount: real,
                        mode: string, info: string, linkedPurchase: InvoiceId): (r: Tables)
    requires DepositAccepted(t, depositId, sellInvoice, customer, amount, linkedPurchase)
    ensures r.deposits == t.deposits[depositId := Deposit(sellInvoice, customer, amount, mode, info, "", t.clock)]
    ensures r.purchaseUdhaar == if linkedPurchase != "" && linkedPurchase in t.purchaseUdhaar
                                then t.purchaseUdhaar[linkedPurchase := Pay(t.purchaseUdhaar[linkedPurchase], amount)]
                                else t.purchaseUdhaar
  {
    var t1 := DepositRecorded(t, depositId, sellInvoice, customer, amount, mode, info, linkedPurchase);
    if linkedPurchase != "" && linkedPurchase in t1.purchaseUdhaar then PayableAdjusted(t1, linkedPurchase, amount) else t1
  }

  /**
   * delete_udhaar_deposit_and_reverse on a stored deposit: the row goes,
   * the receivable gets the amount back (or a new pending row is opened),
   * and the payable the row links to, if any, gets it back.
   */
  function DepositReversed(t: Tables, depositId: InvoiceId): Tables
    requires depositId in t.deposits
  {
    var d := t.deposits[depositId];
    var newRow := d.sellInvoice != "" && d.sellInvoice !in t.udhaar;
    t.(deposits := t.deposits - {depositId},
       udhaar := ReverseDeposit(t.udhaar, d.sellInvoice, d.customer, d.amount, t.nextUdhaarId),
       nextUdhaarId := t.nextUdhaarId + (if newRow then 1 else 0),
       purchaseUdhaar := if d.linkedPurchase != "" && d.linkedPurchase in t.purchaseUdhaar
                         then t.purchaseUdhaar[d.linkedPurchase := Restore(t.purchaseUdhaar[d.linkedPurchase], d.amount)]
                         else t.purchaseUdhaar)
  }

  /**
   * update_udhaar_deposit on a stored deposit: the deposit row is rewritten
   * (its stamp kept) and the receivables are relinked.
   */
  function DepositRelinked(t: Tables, depositId: InvoiceId, sellInvoice: InvoiceId, customer: int, amount: real,
                           mode: string, info: string): Tables
    requires depositId in t.deposits
  {
    var d := t.deposits[depositId];
    t.(deposits := t.deposits[depositId := d.(sellInvoice := sellInvoice, customer := customer, amount := amount,
                                              mode := mode, info := info)],
       udhaar := RelinkDeposit(t.udhaar, d.sellInvoice, d.customer, d.amount, sellInvoice, customer, amount))
  }

  /** An item naming a product the products table lacks: save_sale's read-back of its stock fails. */
  predicate Unstocked(stock: map<nat, real>, item: Item)
  {
    item.productId != 0 && item.productId !in stock
  }

  /** The position of the first item whose product is missing, or the number of items when there is none. */
  function FirstUnstocked(stock: map<nat, real>, items: seq<Item>): (m: nat)
    ensures m <= |items|
  {
    if items == [] || Unstocked(stock, items[0]) then 0
    else 1 + FirstUnstocked(stock, items[1..])
  }

  /** How many item rows save_sale writes: every item, or those up to and including the first unstocked one. */
  function Written(stock: map<nat, real>, items: seq<Item>): (n: nat)
    ensures n <= |items|
  {
    var m := FirstUnstocked(stock, items);
    if m < |items| then m + 1 else |items|
  }

  /** Every item before that position names a product in stock, and the one at it does not. */
  lemma {:induction false} FirstUnstockedIsFirst(stock: map<nat, real>, items: seq<Item>)
    ensures var m := FirstUnstocked(stock, items);
      && (forall j :: 0 <= j < m ==> !Unstocked(stock, items[j]))
      && (m < |items| ==> Unstocked(stock, items[m]))
  {
    if items != [] && !Unstocked(stock, items[0]) {
      FirstUnstockedIsFirst(stock, items[1..]);
      assert forall j :: 1 <= j < |items| ==> items[j] == items[1..][j - 1];
    }
  }

  /** One pass of save_sale's item loop: the item row, then a linked product's stock and its log row. */
  function ItemWritten(t: Tables, inv: InvoiceId, item: Item): Tables
  {
    var t1 := t.(saleItems := t.saleItems[inv := ItemsOf(t.saleItems, inv) + [item]]);
    if item.productId != 0 && item.productId in t1.stock then
      var t2 := t1.(stock := t1.stock[item.productId := t1.stock[item.productId] - item.qty]);
      t2.(moves := t2.moves + [Move(item.productId, -item.qty, t2.stock[item.productId], inv)])
    else t1
  }

  /**
   * The item loop of save_sale run over `items`: one pass per item, in
   * order.
   */
  function ItemsRecorded(t: Tables, inv: InvoiceId, items: seq<Item>): (r: Tables)
    ensures r == t.(saleItems := r.saleItems, stock := r.stock, moves := r.moves)
    decreases |items|
  {
    if items == [] then t
    else ItemWritten(ItemsRecorded(t, inv, items[..|items| - 1]), inv, items[|items| - 1])
  }

  /** The item loop over one more item is one more pass. */
  lemma ItemsRecordedSnoc(t: Tables, inv: InvoiceId, items: seq<Item>, i: nat)
    requires i < |items|
    ensures ItemsRecorded(t, inv, items[..i + 1]) == ItemWritten(ItemsRecorded(t, inv, items[..i]), inv, items[i])
  {
    assert items[..i + 1][..i] == items[..i];
  }

  /** The three tables one pass writes, in terms of the stock step `Take`. */
  lemma ItemWrittenFields(t: Tables, inv: InvoiceId, item: Item)
    ensures var w := ItemWritten(t, inv, item);
      w.saleItems == t.saleItems[inv := ItemsOf(t.saleItems, inv) + [item]]
      && w.stock == Take(t.stock, item)
      && w.moves == t.moves + (if item.productId != 0 && item.productId in t.stock
                               then [Move(item.productId, -item.qty, Take(t.stock, item)[item.productId], inv)] else [])
  {
  }

  /**
   * The item loop appends the items after any rows the invoice already has
   * and touches no other invoice's items.
   */
  lemma {:induction false} ItemsRecordedRows(t: Tables, inv: InvoiceId, items: seq<Item>)
    ensures var r := ItemsRecorded(t, inv, items);
      ItemsOf(r.saleItems, inv) == ItemsOf(t.saleItems, inv) + items
      && forall k :: k != inv ==> ItemsOf(r.saleItems, k) == ItemsOf(t.saleItems, k)
    decreases |items|
  {
    if items != [] {
      var init := items[..|items| - 1];
      ItemsRecordedRows(t, inv, init);
      ItemWrittenFields(ItemsRecorded(t, inv, init), inv, items[|items| - 1]);
      AppendAssociates(ItemsOf(t.saleItems, inv), init, [items[|items| - 1]]);
      assert init + [items[|items| - 1]] == items;
    }
  }

  /** The item loop leaves the stock exactly as `Deplete` gives it. */
  lemma {:induction false} ItemsRecordedStock(t: Tables, inv: InvoiceId, items: seq<Item>)
    ensures ItemsRecorded(t, inv, items).stock == Deplete(t.stock, items)
    decreases |items|
  {
    if items != [] {
      ItemsRecordedStock(t, inv, items[..|items| - 1]);
      ItemWrittenFields(ItemsRecorded(t, inv, items[..|items| - 1]), inv, items[|items| - 1]);
    }
  }

  /**
   * The item loop logs exactly the rows `Moves` lists: one `sale_out` per
   * item linked to a stocked product, with the stock after it.
   */
  lemma {:induction false} ItemsRecordedMoves(t: Tables, inv: InvoiceId, items: seq<Item>)
    ensures ItemsRecorded(t, inv, items).moves == t.moves + Moves(t.stock, items, inv)
    decreases |items|
  {
    if items != [] {
      var init := items[..|items| - 1];
      var last := items[|items| - 1];
      var r0 := ItemsRecorded(t, inv, init);
      ItemsRecordedMoves(t, inv, init);
      ItemWrittenFields(r0, inv, last);
      ItemsRecordedStock(t, inv, items);
      ItemsRecordedStock(t, inv, init);
      assert (last.productId in r0.stock) == (last.productId in t.stock);
      var extra := if last.productId != 0 && last.productId in t.stock
                   then [Move(last.productId, -last.qty, Deplete(t.stock, items)[last.productId], inv)] else [];
      AppendAssociates(t.moves, Moves(t.stock, init, inv), extra);
    }
  }

  /**
   * The first writes of save_sale: the header, stamped with the clock, then
   * the item loop.
   */
  function SaleRecorded(t: Tables, inv: InvoiceId, b: Bill, items: seq<Item>): Tables
  {
    ItemsRecorded(t.(sales := t.sales[inv := b.(created := t.clock)], clock := t.clock + 1), inv, items)
  }

  /** save_sale's receivable: a balance other than zero opens a pending row under the next id. */
  function SaleBalanceOpened(t: Tables, inv: InvoiceId, customer: int, balance: real): Tables
    requires balance != 0.0 ==> inv !in t.udhaar
  {
    if balance != 0.0 then
      t.(udhaar := OpenSaleBalance(t.udhaar, inv, customer, balance, t.nextUdhaarId), nextUdhaarId := t.nextUdhaarId + 1)
    else t
  }

  /** save_sale's offset of a purchase credit against the customer's payables, oldest first. */
  function CreditOffset(t: Tables, order: seq<InvoiceId>, applied: real): Tables
    requires applied > 0.0 ==> forall i :: 0 <= i < |order| ==> order[i] in t.purchaseUdhaar
  {
    if applied <= 0.0 then t
    else
      t.(purchaseUdhaar := Greedy(t.purchaseUdhaar, order, applied),
         purchaseTxns := t.purchaseTxns + GreedyLog(t.purchaseUdhaar, order, applied))
  }

  /** Well-formedness of new payables, whatever the payable log holds. */
  lemma WellFormedWithPayables(t: Tables, p: Table, txns: seq<Txn>)
    requires WellFormed(t) && RowIds(p, t.nextPurchaseUdhaarId)
    ensures WellFormed(t.(purchaseUdhaar := p, purchaseTxns := txns))
  {
    var r := t.(purchaseUdhaar := p, purchaseTxns := txns);
    assert r.udhaar == t.udhaar && r.sales == t.sales && r.purchases == t.purchases;
    assert r.deposits == t.deposits && r.clock == t.clock;
    assert r.nextUdhaarId == t.nextUdhaarId && r.nextPurchaseUdhaarId == t.nextPurchaseUdhaarId;
  }

  /**
   * The rows save_sale's payable query returns, in its order: the party's
   * payables with a positive balance, oldest (lowest id) first.
   */
  predicate OffsetOrder(t: Tables, party: int, order: seq<InvoiceId>)
  {
    PendingOrder(t.purchaseUdhaar, party, order)
    && forall i, j :: 0 <= i < j < |order| ==> t.purchaseUdhaar[order[i]].id < t.purchaseUdhaar[order[j]].id
  }

  /** The first writes of save_purchase: the header, stamped, and the items after any the invoice already has. */
  function PurchaseRecorded(t: Tables, inv: InvoiceId, b: Bill, items: seq<Item>): Tables
  {
    t.(purchases := t.purchases[inv := b.(created := t.clock)], clock := t.clock + 1,
       purchaseItems := t.purchaseItems[inv := ItemsOf(t.purchaseItems, inv) + items])
  }

  /**
   * save_purchase's payable: a positive balance is added to the invoice's
   * row or opens one under the next id, and a zero-amount log row records it.
   */
  function PurchaseBalanceAdded(t: Tables, inv: InvoiceId, supplier: int, balance: real): Tables
  {
    if balance <= 0.0 then t
    else
      var u := AddPurchaseBalance(t.purchaseUdhaar, inv, supplier, balance, t.nextPurchaseUdhaarId);
      t.(purchaseUdhaar := u,
         nextPurchaseUdhaarId := t.nextPurchaseUdhaarId + (if inv in t.purchaseUdhaar then 0 else 1),
         purchaseTxns := t.purchaseTxns + [Txn(u[inv].id, 0.0, "N/A", "Initial Balance/Balance Added")])
  }

  /**
   * update_sale_bill on a stored sale: the header is rewritten, the items
   * replaced, and the receivable reset to the recomputed balance (or opened
   * for a positive one).  Stock is not touched.
   */
  function SaleEdited(t: Tables, inv: InvoiceId, customer: int, date: string, items: seq<Item>, mode: string,
                      info: string, paid: real, total: real): Tables
    requires inv in t.sales
  {
    var b := EditedSale(t.sales[inv], customer, date, total, mode, info, paid);
    t.(sales := t.sales[inv := b], saleItems := t.saleItems[inv := items],
       udhaar := ResetSaleBalance(t.udhaar, inv, customer, b.balance, t.nextUdhaarId),
       nextUdhaarId := t.nextUdhaarId + (if inv !in t.udhaar && b.balance > 0.0 then 1 else 0))
  }

  /**
   * update_purchase_bill: the header is rewritten if there is one, the items
   * are replaced whether or not there is, and the payable rebalanced.
   */
  function PurchaseEdited(t: Tables, inv: InvoiceId, supplier: int, date: string, items: seq<Item>, mode: string,
                          info: string, paid: real, total: real): Tables
  {
    var balance := total - paid;
    t.(purchases := if inv in t.purchases then t.purchases[inv := EditedPurchase(t.purchases[inv], supplier, date, total, mode, info, paid)]
                    else t.purchases,
       purchaseItems := t.purchaseItems[inv := items],
       purchaseUdhaar := RebalancePurchase(t.purchaseUdhaar, inv, supplier, balance, t.nextPurchaseUdhaarId),
       nextPurchaseUdhaarId := t.nextPurchaseUdhaarId + (if balance != 0.0 && inv !in t.purchaseUdhaar then 1 else 0))
  }

  /**
   * get_all_pending_udhaar: the receivables with a positive balance whose
   * sale header still exists (the query joins `udhaar` with `sales`).
   */
  function PendingSales(t: Tables): (p: Table)
    ensures forall k :: k in p <==> k in PendingRows(t.udhaar) && k in t.sales
    ensures forall k :: k in p ==> p[k] == t.udhaar[k] && p[k].current > 0.0
  {
    map k | k in t.udhaar && t.udhaar[k].current > 0.0 && k in t.sales :: t.udhaar[k]
  }

  /** delete_bill on a sale: the header goes and the SALES counter steps back; nothing else is touched. */
  function SaleRemoved(t: Tables, inv: InvoiceId): Tables
  {
    t.(sales := t.sales - {inv}, counters := Decremented(t.counters, SalesPrefix))
  }

  /** delete_bill on a purchase: the header goes and the PURCHASE counter steps back. */
  function PurchaseRemoved(t: Tables, inv: InvoiceId): Tables
  {
    t.(purchases := t.purchases - {inv}, counters := Decremented(t.counters, PurchasePrefix))
  }

  /**
   * delete_bill on a deposit: the deposit is reversed, and the counter of
   * the deposit's customer steps back when there is a customer.
   */
  function DepositRemoved(t: Tables, inv: InvoiceId): Tables
    requires inv in t.deposits
  {
    var c := t.deposits[inv].customer;
    var r := DepositReversed(t, inv);
    if c != 0 then r.(counters := Decremented(r.counters, UdhaarPrefix(c))) else r
  }

  /** update_udhaar_balance on the receivable row stored under `k`: pay it, clamped, and log the amount asked for. */
  function BalancePaid(t: Tables, k: InvoiceId, amount: real, mode: string, info: string): Tables
    requires k in t.udhaar
  {
    t.(udhaar := t.udhaar[k := Pay(t.udhaar[k], amount)],
       udhaarTxns := t.udhaarTxns + [Txn(t.udhaar[k].id, amount, mode, info)])
  }

  /**
   * save_sale from start to end: what it returns and the tables it leaves.
   * Nothing is written when a check fails or the invoice is already stored;
   * an item naming a missing product stops it after that item's row, and a
   * receivable already under the invoice stops it before the offset.
   */
  function SaleSaved(t: Tables, inv: InvoiceId, b: Bill, items: seq<Item>, order: seq<InvoiceId>, applied: real)
    : (Option<InvoiceId>, Tables)
    requires applied > 0.0 ==> forall i :: 0 <= i < |order| ==> order[i] in t.purchaseUdhaar
  {
    if !SaleAcceptable(b.party, b.total, items) || inv in t.sales then (None, t)
    else
      var m := FirstUnstocked(t.stock, items);
      if m < |items| then (None, SaleRecorded(t, inv, b, items[..Written(t.stock, items)]))
      else SaleCompleted(SaleRecorded(t, inv, b, items), inv, b, order, applied)
  }

  /**
   * The end of save_sale once the header and every item are written (`t1`):
   * a receivable already under the invoice stops it, otherwise the balance
   * is opened and the purchase credit offset.
   */
  function SaleCompleted(t1: Tables, inv: InvoiceId, b: Bill, order: seq<InvoiceId>, applied: real)
    : (Option<InvoiceId>, Tables)
    requires applied > 0.0 ==> forall i :: 0 <= i < |order| ==> order[i] in t1.purchaseUdhaar
  {
    if b.balance != 0.0 && inv in t1.udhaar then (None, t1)
    else (Some(inv), CreditOffset(SaleBalanceOpened(t1, inv, b.party, b.balance), order, applied))
  }

  /** delete_bill's test: the invoice is the newest sale, the newest purchase or the newest deposit. */
  predicate Latest(t: Tables, inv: InvoiceId)
  {
    Newest(BillStamps(t.sales), inv) || Newest(BillStamps(t.purchases), inv) || Newest(DepositStamps(t.deposits), inv)
  }

  /** What delete_bill does with an invoice id: the kind of row it deletes, looked for in that order. */
  function DeletionOf(t: Tables, inv: InvoiceId): Deletion
  {
    if inv == "" then NoInvoiceId
    else if !Latest(t, inv) then NotLatest
    else if inv in t.sales then SaleDeleted
    else if inv in t.purchases then PurchaseDeleted
    else DepositDeleted
  }

  lemma SaleRecordedAfterHeader(t: Tables, inv: InvoiceId, b: Bill, items: seq<Item>, header: Tables)
    requires header == t.(sales := t.sales[inv := b.(created := t.clock)], clock := t.clock + 1)
    ensures SaleRecorded(t, inv, b, items) == ItemsRecorded(header, inv, items)
    ensures header.stock == t.stock
  {
  }

  lemma SaleBalanceWritten(t: Tables, inv: InvoiceId, customer: int, balance: real, t': Tables)
    requires balance != 0.0 && inv !in t.udhaar
    requires t' == t.(udhaar := t.udhaar[inv := Opened(t.nextUdhaarId, customer, balance)], nextUdhaarId := t.nextUdhaarId + 1)
    ensures t' == SaleBalanceOpened(t, inv, customer, balance)
  {
  }

  /** The header and the items leave the ledgers alone. */
  lemma SaleRecordedFrame(t: Tables, inv: InvoiceId, b: Bill, items: seq<Item>)
    ensures var t1 := SaleRecorded(t, inv, b, items);
      t1.udhaar == t.udhaar && t1.purchaseUdhaar == t.purchaseUdhaar
  {
    var t0 := t.(sales := t.sales[inv := b.(created := t.clock)], clock := t.clock + 1);
    assert SaleRecorded(t, inv, b, items) == ItemsRecorded(t0, inv, items);
  }

  /** The cases of `SaleSaved` once the header and every item are written. */
  lemma SaleSavedRecorded(t: Tables, inv: InvoiceId, b: Bill, items: seq<Item>, order: seq<InvoiceId>, applied: real)
    requires applied > 0.0 ==> OffsetOrder(t, b.party, order)
    requires SaleAcceptable(b.party, b.total, items) && inv !in t.sales
    requires FirstUnstocked(t.stock, items) == |items|
    ensures var t1 := SaleRecorded(t, inv, b, items);
      && t1.udhaar == t.udhaar && t1.purchaseUdhaar == t.purchaseUdhaar
      && SaleSaved(t, inv, b, items, order, applied) == SaleCompleted(t1, inv, b, order, applied)
  {
    SaleRecordedFrame(t, inv, b, items);
    assert FirstUnstocked(t.stock, items) == |items| && !(!SaleAcceptable(b.party, b.total, items) || inv in t.sales);
  }

  /** `SaleSaved` when a check fails or the invoice is already stored: nothing is written. */
  lemma SaleSavedRefused(t: Tables, inv: InvoiceId, b: Bill, items: seq<Item>, order: seq<InvoiceId>, applied: real)
    requires applied > 0.0 ==> OffsetOrder(t, b.party, order)
    requires !SaleAcceptable(b.party, b.total, items) || inv in t.sales
    ensures SaleSaved(t, inv, b, items, order, applied) == (None, t)
  {
  }

  /** `SaleSaved` when an item names a product the stock does not have. */
  lemma SaleSavedStopped(t: Tables, inv: InvoiceId, b: Bill, items: seq<Item>, order: seq<InvoiceId>, applied: real)
    requires applied > 0.0 ==> OffsetOrder(t, b.party, order)
    requires SaleAcceptable(b.party, b.total, items) && inv !in t.sales
    requires FirstUnstocked(t.stock, items) < |items|
    ensures SaleSaved(t, inv, b, items, order, applied)
            == (None, SaleRecorded(t, inv, b, items[..Written(t.stock, items)]))
  {
    var m := FirstUnstocked(t.stock, items);
    assert m < |items| && !(!SaleAcceptable(b.party, b.total, items) || inv in t.sales);
  }

  /** The tables after delete_bill. */
  function AfterDeletion(t: Tables, inv: InvoiceId): Tables
  {
    match DeletionOf(t, inv)
    case SaleDeleted => SaleRemoved(t, inv)
    case PurchaseDeleted => PurchaseRemoved(t, inv)
    case DepositDeleted => DepositRemoved(t, inv)
    case _ => t
  }

  // ---------------------------------------------------------------- invariants kept

  lemma PayableAdjustedKeepsWellFormed(t: Tables, inv: InvoiceId, amount: real)
    requires WellFormed(t) && inv in t.purchaseUdhaar
    ensures WellFormed(PayableAdjusted(t, inv, amount))
  {
    var r := PayableAdjusted(t, inv, amount);
    RowIdsUpdate(t.purchaseUdhaar, t.nextPurchaseUdhaarId, inv, Pay(t.purchaseUdhaar[inv], amount));
    assert r.udhaar == t.udhaar && r.deposits == t.deposits && r.sales == t.sales && r.purchases == t.purchases;
    assert r.clock == t.clock && r.nextUdhaarId == t.nextUdhaarId && r.nextPurchaseUdhaarId == t.nextPurchaseUdhaarId;
  }

  /** Well-formedness of new receivables, whatever the receivable log holds. */
  lemma WellFormedWithReceivables(t: Tables, u: Table, txns: seq<Txn>)
    requires WellFormed(t) && RowIds(u, t.nextUdhaarId)
    ensures WellFormed(t.(udhaar := u, udhaarTxns := txns))
  {
    var r := t.(udhaar := u, udhaarTxns := txns);
    assert r.purchaseUdhaar == t.purchaseUdhaar && r.sales == t.sales && r.purchases == t.purchases;
    assert r.deposits == t.deposits && r.clock == t.clock;
    assert r.nextUdhaarId == t.nextUdhaarId && r.nextPurchaseUdhaarId == t.nextPurchaseUdhaarId;
  }

  /** The two shapes of `DepositRecorded`, without a receivable and with one. */
  lemma DepositRecordedForm(t: Tables, depositId: InvoiceId, sellInvoice: InvoiceId, customer: int, amount: real,
                            mode: string, info: string, linkedPurchase: InvoiceId)
    requires DepositAccepted(t, depositId, sellInvoice, customer, amount, linkedPurchase)
    ensures var t1 := t.(deposits := t.deposits[depositId := Deposit(sellInvoice, customer, amount, mode, info, "", t.clock)],
                         clock := t.clock + 1);
      DepositRecorded(t, depositId, sellInvoice, customer, amount, mode, info, linkedPurchase)
      == if sellInvoice == "" then t1
         else t1.(udhaar := ApplyDeposit(t.udhaar, sellInvoice, customer, amount),
                  udhaarTxns := t.udhaarTxns + [Txn(t.udhaar[sellInvoice].id, amount, mode, DepositNote(sellInvoice))])
  {
  }

  /** A deposit row stamped with the clock, which then moves on, keeps the tables well formed. */
  lemma DepositStoredKeepsWellFormed(t: Tables, depositId: InvoiceId, d: Deposit)
    requires WellFormed(t) && depositId !in t.deposits && d.created == t.clock
    ensures WellFormed(t.(deposits := t.deposits[depositId := d], clock := t.clock + 1))
  {
    var t1 := t.(deposits := t.deposits[depositId := d], clock := t.clock + 1);
    DepositsStampedInsert(t.deposits, t.clock, depositId, d);
    BillsStampedLater(t.sales, t.clock);
    BillsStampedLater(t.purchases, t.clock);
    assert t1.udhaar == t.udhaar && t1.purchaseUdhaar == t.purchaseUdhaar && t1.sales == t.sales && t1.purchases == t.purchases;
    assert t1.nextUdhaarId == t.nextUdhaarId && t1.nextPurchaseUdhaarId == t.nextPurchaseUdhaarId;
  }

  lemma DepositRecordedKeepsWellFormed(t: Tables, depositId: InvoiceId, sellInvoice: InvoiceId, customer: int, amount: real,
                                       mode: string, info: string, linkedPurchase: InvoiceId)
    requires WellFormed(t) && DepositAccepted(t, depositId, sellInvoice, customer, amount, linkedPurchase)
    ensures WellFormed(DepositRecorded(t, depositId, sellInvoice, customer, amount, mode, info, linkedPurchase))
  {
    DepositRecordedForm(t, depositId, sellInvoice, customer, amount, mode, info, linkedPurchase);
    var d := Deposit(sellInvoice, customer, amount, mode, info, "", t.clock);
    var t1 := t.(deposits := t.deposits[depositId := d], clock := t.clock + 1);
    DepositStoredKeepsWellFormed(t, depositId, d);
    if sellInvoice != "" {
      var u := ApplyDeposit(t.udhaar, sellInvoice, customer, amount);
      RowIdsKept(t.udhaar, u, t.nextUdhaarId);
      WellFormedWithReceivables(t1, u, t.udhaarTxns + [Txn(t.udhaar[sellInvoice].id, amount, mode, DepositNote(sellInvoice))]);
    }
  }

  lemma DepositReversedKeepsWellFormed(t: Tables, depositId: InvoiceId)
    requires WellFormed(t) && depositId in t.deposits
    ensures WellFormed(DepositReversed(t, depositId))
  {
    var r := DepositReversed(t, depositId);
    var d := t.deposits[depositId];
    var u := ReverseDeposit(t.udhaar, d.sellInvoice, d.customer, d.amount, t.nextUdhaarId);
    if d.sellInvoice != "" && d.sellInvoice !in t.udhaar {
      RowIdsOneNew(t.udhaar, u, t.nextUdhaarId, d.sellInvoice);
    } else {
      RowIdsKept(t.udhaar, u, t.nextUdhaarId);
    }
    if d.linkedPurchase != "" && d.linkedPurchase in t.purchaseUdhaar {
      RowIdsUpdate(t.purchaseUdhaar, t.nextPurchaseUdhaarId, d.linkedPurchase,
                   Restore(t.purchaseUdhaar[d.linkedPurchase], d.amount));
    }
    assert r.udhaar == u && r.sales == t.sales && r.purchases == t.purchases && r.clock == t.clock;
  }

  lemma DepositRelinkedKeepsWellFormed(t: Tables, depositId: InvoiceId, sellInvoice: InvoiceId, customer: int,
                                       amount: real, mode: string, info: string)
    requires WellFormed(t) && depositId in t.deposits
    ensures WellFormed(DepositRelinked(t, depositId, sellInvoice, customer, amount, mode, info))
  {
    var r := DepositRelinked(t, depositId, sellInvoice, customer, amount, mode, info);
    var d := t.deposits[depositId];
    DepositsStampedRewrite(t.deposits, t.clock, depositId,
                           d.(sellInvoice := sellInvoice, customer := customer, amount := amount, mode := mode, info := info));
    var u := RelinkDeposit(t.udhaar, d.sellInvoice, d.customer, d.amount, sellInvoice, customer, amount);
    RowIdsKept(t.udhaar, u, t.nextUdhaarId);
    assert r.udhaar == u && r.purchaseUdhaar == t.purchaseUdhaar && r.sales == t.sales && r.purchases == t.purchases;
  }

  /** save_sale keeps the tables well formed after the header and items, and after the receivable. */
  lemma SaleSavedKeepsWellFormed(t: Tables, inv: InvoiceId, b: Bill, items: seq<Item>)
    requires WellFormed(t) && inv !in t.sales
    ensures WellFormed(SaleRecorded(t, inv, b, items))
  {
    var t1 := SaleRecorded(t, inv, b, items);
    var t0 := t.(sales := t.sales[inv := b.(created := t.clock)], clock := t.clock + 1);
    assert t1 == ItemsRecorded(t0, inv, items);
    BillsStampedInsert(t.sales, t.clock, inv, b.(created := t.clock));
    BillsStampedLater(t.purchases, t.clock);
    assert t1.sales == t.sales[inv := b.(created := t.clock)] && t1.clock == t.clock + 1;
    assert t1.udhaar == t.udhaar && t1.purchaseUdhaar == t.purchaseUdhaar && t1.purchases == t.purchases;
    assert t1.deposits == t.deposits && t1.nextUdhaarId == t.nextUdhaarId && t1.nextPurchaseUdhaarId == t.nextPurchaseUdhaarId;
    assert WellFormed(t1);
  }

  lemma SaleBalanceOpenedKeepsWellFormed(t: Tables, inv: InvoiceId, customer: int, balance: real)
    requires WellFormed(t) && (balance != 0.0 ==> inv !in t.udhaar)
    ensures WellFormed(SaleBalanceOpened(t, inv, customer, balance))
  {
    if balance != 0.0 {
      RowIdsInsert(t.udhaar, t.nextUdhaarId, inv, Opened(t.nextUdhaarId, customer, balance));
    }
  }

  lemma BalancePaidKeepsWellFormed(t: Tables, k: InvoiceId, amount: real, mode: string, info: string)
    requires WellFormed(t) && k in t.udhaar
    ensures WellFormed(BalancePaid(t, k, amount, mode, info))
  {
    var r := BalancePaid(t, k, amount, mode, info);
    RowIdsUpdate(t.udhaar, t.nextUdhaarId, k, Pay(t.udhaar[k], amount));
    assert r.purchaseUdhaar == t.purchaseUdhaar && r.deposits == t.deposits && r.sales == t.sales && r.purchases == t.purchases;
    assert r.clock == t.clock && r.nextUdhaarId == t.nextUdhaarId && r.nextPurchaseUdhaarId == t.nextPurchaseUdhaarId;
  }

  lemma PurchaseRecordedKeepsWellFormed(t: Tables, inv: InvoiceId, b: Bill, items: seq<Item>)
    requires WellFormed(t) && inv !in t.purchases
    ensures WellFormed(PurchaseRecorded(t, inv, b, items))
  {
    var t1 := PurchaseRecorded(t, inv, b, items);
    BillsStampedInsert(t.purchases, t.clock, inv, b.(created := t.clock));
    BillsStampedLater(t.sales, t.clock);
    assert t1.purchases == t.purchases[inv := b.(created := t.clock)] && t1.clock == t.clock + 1;
    assert t1.udhaar == t.udhaar && t1.purchaseUdhaar == t.purchaseUdhaar && t1.sales == t.sales;
    assert t1.deposits == t.deposits && t1.nextUdhaarId == t.nextUdhaarId && t1.nextPurchaseUdhaarId == t.nextPurchaseUdhaarId;
  }

  /** save_purchase's first writes, table by table, are `PurchaseRecorded`. */
  lemma PurchaseRecordedWrites(t: Tables, inv: InvoiceId, b: Bill, items: seq<Item>, rows: seq<Item>)
    requires WellFormed(t) && inv !in t.purchases
    requires rows == ItemsOf(t.purchaseItems, inv) + items
    ensures var r := t.(purchases := t.purchases[inv := b.(created := t.clock)], clock := t.clock + 1,
                        purchaseItems := t.purchaseItems[inv := rows]);
      r == PurchaseRecorded(t, inv, b, items) && WellFormed(r)
  {
    PurchaseRecordedKeepsWellFormed(t, inv, b, items);
  }

  lemma PurchaseBalanceAddedKeepsWellFormed(t: Tables, inv: InvoiceId, supplier: int, balance: real)
    requires WellFormed(t)
    ensures WellFormed(PurchaseBalanceAdded(t, inv, supplier, balance))
  {
    var r := PurchaseBalanceAdded(t, inv, supplier, balance);
    if balance > 0.0 {
      var u := AddPurchaseBalance(t.purchaseUdhaar, inv, supplier, balance, t.nextPurchaseUdhaarId);
      if inv in t.purchaseUdhaar {
        RowIdsKept(t.purchaseUdhaar, u, t.nextPurchaseUdhaarId);
      } else {
        RowIdsOneNew(t.purchaseUdhaar, u, t.nextPurchaseUdhaarId, inv);
      }
      assert r.purchaseUdhaar == u && r.udhaar == t.udhaar && r.sales == t.sales && r.purchases == t.purchases;
      assert r.deposits == t.deposits && r.clock == t.clock && r.nextUdhaarId == t.nextUdhaarId;
    }
  }

  lemma SaleEditedKeepsWellFormed(t: Tables, inv: InvoiceId, customer: int, date: string, items: seq<Item>, mode: string,
                                  info: string, paid: real, total: real)
    requires WellFormed(t) && inv in t.sales
    ensures WellFormed(SaleEdited(t, inv, customer, date, items, mode, info, paid, total))
  {
    var r := SaleEdited(t, inv, customer, date, items, mode, info, paid, total);
    var b := EditedSale(t.sales[inv], customer, date, total, mode, info, paid);
    BillsStampedRewrite(t.sales, t.clock, inv, b);
    var u := ResetSaleBalance(t.udhaar, inv, customer, b.balance, t.nextUdhaarId);
    if inv !in t.udhaar && b.balance > 0.0 {
      RowIdsOneNew(t.udhaar, u, t.nextUdhaarId, inv);
    } else {
      RowIdsKept(t.udhaar, u, t.nextUdhaarId);
    }
    assert r.udhaar == u && r.sales == t.sales[inv := b] && r.purchases == t.purchases && r.deposits == t.deposits;
    assert r.purchaseUdhaar == t.purchaseUdhaar && r.clock == t.clock && r.nextPurchaseUdhaarId == t.nextPurchaseUdhaarId;
  }

  lemma PurchaseEditedKeepsWellFormed(t: Tables, inv: InvoiceId, supplier: int, date: string, items: seq<Item>, mode: string,
                                      info: string, paid: real, total: real)
    requires WellFormed(t)
    ensures WellFormed(PurchaseEdited(t, inv, supplier, date, items, mode, info, paid, total))
  {
    var r := PurchaseEdited(t, inv, supplier, date, items, mode, info, paid, total);
    if inv in t.purchases {
      BillsStampedRewrite(t.purchases, t.clock, inv, EditedPurchase(t.purchases[inv], supplier, date, total, mode, info, paid));
    }
    var u := RebalancePurchase(t.purchaseUdhaar, inv, supplier, total - paid, t.nextPurchaseUdhaarId);
    if total - paid != 0.0 && inv !in t.purchaseUdhaar {
      RowIdsOneNew(t.purchaseUdhaar, u, t.nextPurchaseUdhaarId, inv);
    } else {
      RowIdsKept(t.purchaseUdhaar, u, t.nextPurchaseUdhaarId);
    }
    assert r.udhaar == t.udhaar && r.sales == t.sales && r.deposits == t.deposits && r.clock == t.clock;
  }

  /** delete_udhaar_deposit_and_reverse's writes, table by table, are `DepositReversed`. */
  lemma DepositReversedWrites(t: Tables, depositId: InvoiceId, receivables: Table, next: nat, payables: Table)
    requires WellFormed(t) && depositId in t.deposits
    requires var d := t.deposits[depositId];
      && receivables == ReverseDeposit(t.udhaar, d.sellInvoice, d.customer, d.amount, t.nextUdhaarId)
      && next == t.nextUdhaarId + (if d.sellInvoice != "" && d.sellInvoice !in t.udhaar then 1 else 0)
      && payables == (if d.linkedPurchase != "" && d.linkedPurchase in t.purchaseUdhaar
                      then t.purchaseUdhaar[d.linkedPurchase := Restore(t.purchaseUdhaar[d.linkedPurchase], d.amount)]
                      else t.purchaseUdhaar)
    ensures var r := t.(deposits := t.deposits - {depositId}, udhaar := receivables, nextUdhaarId := next,
                        purchaseUdhaar := payables);
      r == DepositReversed(t, depositId) && WellFormed(r)
  {
    DepositReversedKeepsWellFormed(t, depositId);
  }

  /** update_sale_bill's writes, table by table, are `SaleEdited`. */
  lemma SaleEditedWrites(t: Tables, inv: InvoiceId, customer: int, date: string, items: seq<Item>, mode: string,
                         info: string, paid: real, total: real, b: Bill, rows: seq<Item>, receivables: Table, next: nat)
    requires WellFormed(t) && inv in t.sales
    requires b == EditedSale(t.sales[inv], customer, date, total, mode, info, paid) && rows == items
    requires receivables == ResetSaleBalance(t.udhaar, inv, customer, b.balance, t.nextUdhaarId)
    requires next == t.nextUdhaarId + (if inv !in t.udhaar && b.balance > 0.0 then 1 else 0)
    ensures var r := t.(sales := t.sales[inv := b], saleItems := t.saleItems[inv := rows], udhaar := receivables,
                        nextUdhaarId := next);
      r == SaleEdited(t, inv, customer, date, items, mode, info, paid, total) && WellFormed(r)
  {
    SaleEditedKeepsWellFormed(t, inv, customer, date, items, mode, info, paid, total);
  }

  /** update_purchase_bill's writes, table by table, are `PurchaseEdited`. */
  lemma PurchaseEditedWrites(t: Tables, inv: InvoiceId, supplier: int, date: string, items: seq<Item>, mode: string,
                             info: string, paid: real, total: real, bills: map<InvoiceId, Bill>, rows: seq<Item>,
                             payables: Table, next: nat)
    requires WellFormed(t)
    requires bills == if inv in t.purchases then t.purchases[inv := EditedPurchase(t.purchases[inv], supplier, date, total, mode, info, paid)]
                      else t.purchases
    requires rows == items
    requires payables == RebalancePurchase(t.purchaseUdhaar, inv, supplier, total - paid, t.nextPurchaseUdhaarId)
    requires next == t.nextPurchaseUdhaarId + (if total - paid != 0.0 && inv !in t.purchaseUdhaar then 1 else 0)
    ensures var r := t.(purchases := bills, purchaseItems := t.purchaseItems[inv := rows], purchaseUdhaar := payables,
                        nextPurchaseUdhaarId := next);
      r == PurchaseEdited(t, inv, supplier, date, items, mode, info, paid, total) && WellFormed(r)
  {
    PurchaseEditedKeepsWellFormed(t, inv, supplier, date, items, mode, info, paid, total);
  }

  /** delete_bill's three queries for the newest rows answer whether `inv` is `Latest`. */
  lemma LatestFound(t: Tables, inv: InvoiceId, sale: Option<InvoiceId>, purchase: Option<InvoiceId>, deposit: Option<InvoiceId>)
    requires WellFormed(t)
    requires sale.None? <==> BillStamps(t.sales) == map[]
    requires sale.Some? ==> Newest(BillStamps(t.sales), sale.value)
    requires purchase.None? <==> BillStamps(t.purchases) == map[]
    requires purchase.Some? ==> Newest(BillStamps(t.purchases), purchase.value)
    requires deposit.None? <==> DepositStamps(t.deposits) == map[]
    requires deposit.Some? ==> Newest(DepositStamps(t.deposits), deposit.value)
    ensures Latest(t, inv) <==> sale == Some(inv) || purchase == Some(inv) || deposit == Some(inv)
  {
    if Newest(BillStamps(t.sales), inv) {
      NewestIsUnique(BillStamps(t.sales), t.clock, inv, sale.value);
    }
    if Newest(BillStamps(t.purchases), inv) {
      NewestIsUnique(BillStamps(t.purchases), t.clock, inv, purchase.value);
    }
    if Newest(DepositStamps(t.deposits), inv) {
      NewestIsUnique(DepositStamps(t.deposits), t.clock, inv, deposit.value);
    }
  }

  /** `DeletionOf` and `AfterDeletion`, case by case. */
  lemma DeletionCases(t: Tables, inv: InvoiceId)
    ensures inv == "" || !Latest(t, inv) ==> AfterDeletion(t, inv) == t
    ensures inv == "" ==> DeletionOf(t, inv) == NoInvoiceId
    ensures inv != "" && !Latest(t, inv) ==> DeletionOf(t, inv) == NotLatest
    ensures inv != "" && Latest(t, inv) && inv in t.sales ==>
              DeletionOf(t, inv) == SaleDeleted && AfterDeletion(t, inv) == SaleRemoved(t, inv)
    ensures inv != "" && Latest(t, inv) && inv !in t.sales && inv in t.purchases ==>
              DeletionOf(t, inv) == PurchaseDeleted && AfterDeletion(t, inv) == PurchaseRemoved(t, inv)
    ensures inv != "" && Latest(t, inv) && inv !in t.sales && inv !in t.purchases ==>
              inv in t.deposits && DeletionOf(t, inv) == DepositDeleted && AfterDeletion(t, inv) == DepositRemoved(t, inv)
  {
  }

  /** Well-formedness does not look at the invoice counters. */
  lemma WellFormedWithCounters(t: Tables, counters: Counters)
    requires WellFormed(t)
    ensures WellFormed(t.(counters := counters))
  {
    var r := t.(counters := counters);
    assert r.udhaar == t.udhaar && r.purchaseUdhaar == t.purchaseUdhaar && r.sales == t.sales;
    assert r.purchases == t.purchases && r.deposits == t.deposits && r.clock == t.clock;
    assert r.nextUdhaarId == t.nextUdhaarId && r.nextPurchaseUdhaarId == t.nextPurchaseUdhaarId;
  }

  lemma SaleRemovedKeepsWellFormed(t: Tables, inv: InvoiceId)
    requires WellFormed(t)
    ensures WellFormed(SaleRemoved(t, inv))
  {
    var r := t.(sales := t.sales - {inv});
    assert BillsStamped(r.sales, r.clock);
    assert r.udhaar == t.udhaar && r.purchaseUdhaar == t.purchaseUdhaar;
    assert r.purchases == t.purchases && r.deposits == t.deposits && r.clock == t.clock;
    WellFormedWithCounters(r, Decremented(t.counters, SalesPrefix));
  }

  lemma PurchaseRemovedKeepsWellFormed(t: Tables, inv: InvoiceId)
    requires WellFormed(t)
    ensures WellFormed(PurchaseRemoved(t, inv))
  {
    var r := t.(purchases := t.purchases - {inv});
    assert BillsStamped(r.purchases, r.clock);
    assert r.udhaar == t.udhaar && r.purchaseUdhaar == t.purchaseUdhaar;
    assert r.sales == t.sales && r.deposits == t.deposits && r.clock == t.clock;
    WellFormedWithCounters(r, Decremented(t.counters, PurchasePrefix));
  }

  lemma DepositRemovedKeepsWellFormed(t: Tables, inv: InvoiceId)
    requires WellFormed(t) && inv in t.deposits
    ensures WellFormed(DepositRemoved(t, inv))
  {
    var r := DepositReversed(t, inv);
    DepositReversedKeepsWellFormed(t, inv);
    if t.deposits[inv].customer != 0 {
      WellFormedWithCounters(r, Decremented(r.counters, UdhaarPrefix(t.deposits[inv].customer)));
    }
  }

  lemma AfterDeletionKeepsWellFormed(t: Tables, inv: InvoiceId)
    requires WellFormed(t)
    ensures WellFormed(AfterDeletion(t, inv))
  {
    match DeletionOf(t, inv)
    case SaleDeleted => SaleRemovedKeepsWellFormed(t, inv);
    case PurchaseDeleted => PurchaseRemovedKeepsWellFormed(t, inv);
    case DepositDeleted => DepositRemovedKeepsWellFormed(t, inv);
    case _ =>
  }

  // ================================================================ the database

  /**
   * The shop's SQLite file.  Each method is one function of the `utils`
   * package, performing its reads and writes in the same order; its
   * postcondition gives the return value and the new contents of every
   * table through the functions above, and every method keeps the tables
   * well formed.
   */
  class Database {
    var tables: Tables

    predicate Valid()
      reads this
    {
      WellFormed(tables)
    }

    /** A fresh database: empty tables, AUTOINCREMENT counters at 1, and the given products. */
    constructor(stock: map<nat, real>)
      ensures Valid()
      ensures tables == Tables(map[], map[], [], [], map[], map[], map[], map[], map[], stock, [], map[], 1, 1, 0)
    {
      tables := Tables(map[], map[], [], [], map[], map[], map[], map[], map[], stock, [], map[], 1, 1, 0);
    }

    /** get_pending_udhaar_sale.update_udhaar_balance: pay the receivable row with the given id. */
    method UpdateUdhaarBalance(udhaarId: nat, amount: real, mode: string, info: string) returns (ok: bool)
      requires Valid()
      modifies this
      ensures Valid()
      ensures ok <==> exists k :: k in old(tables).udhaar && old(tables).udhaar[k].id == udhaarId
      ensures forall k :: k in old(tables).udhaar && old(tables).udhaar[k].id == udhaarId ==>
                tables == BalancePaid(old(tables), k, amount, mode, info)
      ensures !ok ==> tables == old(tables)
    {
      if k :| k in tables.udhaar && tables.udhaar[k].id == udhaarId {
        var row := tables.udhaar[k];
        tables := tables.(udhaar := tables.udhaar[k := Pay(row, amount)]);
        tables := tables.(udhaarTxns := tables.udhaarTxns + [Txn(udhaarId, amount, mode, info)]);
        BalancePaidKeepsWellFormed(old(tables), k, amount, mode, info);
        return true;
      }
      return false;
    }

    /** get_pending_purchase_udhaar.update_purchase_udhaar: pay the payable of a purchase invoice. */
    method UpdatePurchaseUdhaar(inv: InvoiceId, amount: real) returns (ok: bool)
      requires Valid()
      modifies this
      ensures Valid()
      ensures ok <==> inv in old(tables).purchaseUdhaar
      ensures ok ==> tables == PayableAdjusted(old(tables), inv, amount)
      ensures !ok ==> tables == old(tables)
    {
      if inv !in tables.purchaseUdhaar {
        return false;
      }
      var row := tables.purchaseUdhaar[inv];
      tables := tables.(purchaseUdhaar := tables.purchaseUdhaar[inv := Pay(row, amount)]);
      tables := tables.(purchaseTxns := tables.purchaseTxns + [Txn(row.id, amount, "Adjustment (Sale)", "Adjusted against sale invoice")]);
      PayableAdjustedKeepsWellFormed(old(tables), inv, amount);
      return true;
    }

    /** save_udhaar.save_udhaar_deposit: the deposit id on success, nothing written on a refusal. */
    method SaveUdhaarDeposit(depositId: InvoiceId, sellInvoice: InvoiceId, customer: int, amount: real,
                             mode: string, info: string, linkedPurchase: InvoiceId) returns (r: Option<InvoiceId>)
      requires Valid()
      modifies this
      ensures Valid()
      ensures r.Some? <==> DepositAccepted(old(tables), depositId, sellInvoice, customer, amount, linkedPurchase)
      ensures r.Some? ==> r.value == depositId
      ensures r.Some? ==> tables == DepositSaved(old(tables), depositId, sellInvoice, customer, amount, mode, info, linkedPurchase)
      ensures r.None? ==> tables == old(tables)
    {
      if !DepositAccepted(tables, depositId, sellInvoice, customer, amount, linkedPurchase) {
        // a check fails, or the INSERT breaks the UNIQUE deposit id
        return None;
      }
      ghost var t0 := tables;
      tables := tables.(deposits := tables.deposits[depositId := Deposit(sellInvoice, customer, amount, mode, info, "", tables.clock)],
                        clock := tables.clock + 1);
      if sellInvoice != "" {
        var row := tables.udhaar[sellInvoice];
        tables := tables.(udhaar := tables.udhaar[sellInvoice := Pay(row, amount)]);
        tables := tables.(udhaarTxns := tables.udhaarTxns + [Txn(row.id, amount, mode, DepositNote(sellInvoice))]);
        assert tables.udhaar == ApplyDeposit(t0.udhaar, sellInvoice, customer, amount);
      }
      assert tables == DepositRecorded(t0, depositId, sellInvoice, customer, amount, mode, info, linkedPurchase);
      DepositRecordedKeepsWellFormed(t0, depositId, sellInvoice, customer, amount, mode, info, linkedPurchase);
      if linkedPurchase != "" {
        var _ := UpdatePurchaseUdhaar(linkedPurchase, amount);
      }
      return Some(depositId);
    }

    /** delete_udhaar_deposit.delete_udhaar_deposit_and_reverse: false when there is no such deposit. */
    method DeleteUdhaarDepositAndReverse(depositId: InvoiceId) returns (ok: bool)
      requires Valid()
      modifies this
      ensures Valid()
      ensures ok <==> depositId in old(tables).deposits
      ensures ok ==> tables == DepositReversed(old(tables), depositId)
      ensures !ok ==> tables == old(tables)
    {
      if depositId !in tables.deposits {
        return false;
      }
      var d := tables.deposits[depositId];
      // the row goes, then the sale's receivable and the linked payable are restored
      var receivables, next, payables := tables.udhaar, tables.nextUdhaarId, tables.purchaseUdhaar;
      if d.sellInvoice != "" {
        if d.sellInvoice in receivables {
          receivables := receivables[d.sellInvoice := Restore(receivables[d.sellInvoice], d.amount)];
        } else {
          receivables := receivables[d.sellInvoice := Opened(next, d.customer, d.amount)];
          next := next + 1;
        }
      }
      if d.linkedPurchase != "" && d.linkedPurchase in payables {
        payables := payables[d.linkedPurchase := Restore(payables[d.linkedPurchase], d.amount)];
      }
      DepositReversedWrites(tables, depositId, receivables, next, payables);
      tables := tables.(deposits := tables.deposits - {depositId}, udhaar := receivables, nextUdhaarId := next,
                        purchaseUdhaar := payables);
      return true;
    }

    /** update_udhaar_deposit.update_udhaar_deposit: false when there is no such deposit. */
    method UpdateUdhaarDeposit(depositId: InvoiceId, sellInvoice: InvoiceId, customer: int, amount: real,
                               mode: string, info: string) returns (ok: bool)
      requires Valid()
      modifies this
      ensures Valid()
      ensures ok <==> depositId in old(tables).deposits
      ensures ok ==> tables == DepositRelinked(old(tables), depositId, sellInvoice, customer, amount, mode, info)
      ensures !ok ==> tables == old(tables)
    {
      if depositId !in tables.deposits {
        return false;
      }
      var d := tables.deposits[depositId];
      if Linked(tables.udhaar, d.sellInvoice, d.customer) {
        tables := tables.(udhaar := tables.udhaar[d.sellInvoice := Reopen(tables.udhaar[d.sellInvoice], d.amount)]);
      }
      tables := tables.(deposits := tables.deposits[depositId := d.(sellInvoice := sellInvoice, customer := customer,
                                                                    amount := amount, mode := mode, info := info)]);
      if Linked(tables.udhaar, sellInvoice, customer) {
        tables := tables.(udhaar := tables.udhaar[sellInvoice := Deduct(tables.udhaar[sellInvoice], amount)]);
      }
      DepositRelinkedKeepsWellFormed(old(tables), depositId, sellInvoice, customer, amount, mode, info);
      return true;
    }

    /** save_sale's item loop: the row, then a linked product's stock and log row; false when a product is missing. */
    method RecordSaleItems(inv: InvoiceId, items: seq<Item>) returns (complete: bool)
      requires Valid()
      modifies this
      ensures Valid()
      ensures complete <==> FirstUnstocked(old(tables).stock, items) == |items|
      ensures tables == ItemsRecorded(old(tables), inv, items[..Written(old(tables).stock, items)])
    {
      ghost var t0 := tables;
      ghost var m := FirstUnstocked(t0.stock, items);
      FirstUnstockedIsFirst(t0.stock, items);
      var t := tables;
      var i := 0;
      while i < |items|
        invariant 0 <= i <= m
        invariant t == ItemsRecorded(t0, inv, items[..i])
        invariant t.stock.Keys == t0.stock.Keys
      {
        ItemsRecordedSnoc(t0, inv, items, i);
        ItemWrittenFields(t, inv, items[i]);
        var missing := Unstocked(t.stock, items[i]);
        assert missing == Unstocked(t0.stock, items[i]);
        assert !missing ==> i < m;
        t := ItemWritten(t, inv, items[i]);
        if missing {
          // the UPDATE matched no product and reading its stock back fails
          assert Written(t0.stock, items) == i + 1;
          tables := t;
          return false;
        }
        i := i + 1;
      }
      assert Written(t0.stock, items) == i;
      tables := t;
      return true;
    }

    /**
     * save_sale's offset of a purchase credit: `order` is the rows its query
     * returned and the balances are those the query read; each row in turn
     * is paid `min(remaining, balance)` until nothing remains.  Returns what
     * could not be applied.
     */
    method OffsetPurchaseCredit(order: seq<InvoiceId>, applied: real) returns (left: real)
      requires Valid() && applied > 0.0 && Distinct(order)
      requires forall i :: 0 <= i < |order| ==> order[i] in tables.purchaseUdhaar
      modifies this
      ensures Valid()
      ensures tables == CreditOffset(old(tables), order, applied)
      ensures left == GreedyLeft(old(tables).purchaseUdhaar, order, applied)
    {
      var pending := tables.purchaseUdhaar;
      var payables, log := tables.purchaseUdhaar, tables.purchaseTxns;
      var remaining := applied;
      var i := 0;
      OffsetProgressStarts(pending, log, order, applied);
      while i < |order| && remaining > 0.0
        invariant tables == old(tables)
        invariant OffsetProgress(pending, old(tables).purchaseTxns, payables, log, order, applied, i, remaining)
        decreases |order| - i
      {
        // update_purchase_udhaar on the row the query returned
        var k := order[i];
        var amount := Min(remaining, pending[k].current);
        ghost var before, logBefore := payables, log;
        log := log + [Txn(payables[k].id, amount, "Adjustment (Sale)", "Adjusted against sale invoice")];
        payables := payables[k := Pay(payables[k], amount)];
        OffsetProgressStep(pending, old(tables).purchaseTxns, before, logBefore, order, applied, i, remaining, amount, payables, log);
        remaining := remaining - amount;
        i := i + 1;
      }
      OffsetProgressDone(pending, old(tables).purchaseTxns, payables, log, order, applied, i, remaining);
      RowIdsKept(pending, payables, tables.nextPurchaseUdhaarId);
      WellFormedWithPayables(tables, payables, log);
      tables := tables.(purchaseUdhaar := payables, purchaseTxns := log);
      return remaining;
    }

    /** save_sale: the invoice id on success; see `SaleSaved` for what each failure leaves behind. */
    method SaveSale(inv: InvoiceId, b: Bill, items: seq<Item>, applied: real, order: seq<InvoiceId>)
      returns (r: Option<InvoiceId>)
      requires Valid()
      requires applied > 0.0 ==> OffsetOrder(tables, b.party, order)
      modifies this
      ensures Valid()
      ensures (r, tables) == SaleSaved(old(tables), inv, b, items, order, applied)
    {
      var positive := CheckItems(items);
      if b.party == 0 || items == [] || b.total <= 0.0 || !positive || inv in tables.sales {
        // a check fails, or the INSERT breaks the invoice's PRIMARY KEY
        SaleSavedRefused(tables, inv, b, items, order, applied);
        return None;
      }
      ghost var t0 := tables;
      var complete := RecordSale(inv, b, items);
      if !complete {
        SaleSavedStopped(t0, inv, b, items, order, applied);
        return None;
      }
      SaleSavedRecorded(t0, inv, b, items, order, applied);
      ghost var t1 := tables;
      assert items[..Written(t0.stock, items)] == items;
      r := CompleteSale(inv, b, order, applied);
      assert (r, tables) == SaleCompleted(t1, inv, b, order, applied);
    }

    /**
     * The rest of save_sale once the header and every item are written: the
     * receivable for a balance other than zero, then the purchase credit
     * offset against the customer's payables.
     */
    method CompleteSale(inv: InvoiceId, b: Bill, order: seq<InvoiceId>, applied: real) returns (r: Option<InvoiceId>)
      requires Valid()
      requires applied > 0.0 ==> Distinct(order) && forall i :: 0 <= i < |order| ==> order[i] in tables.purchaseUdhaar
      modifies this
      ensures Valid()
      ensures (r, tables) == SaleCompleted(old(tables), inv, b, order, applied)
    {
      if b.balance != 0.0 {
        if inv in tables.udhaar {
          // the INSERT breaks the UNIQUE sell_invoice_id of udhaar
          return None;
        }
        SaleBalanceOpenedKeepsWellFormed(tables, inv, b.party, b.balance);
        var withBalance := tables.(udhaar := tables.udhaar[inv := Opened(tables.nextUdhaarId, b.party, b.balance)],
                                   nextUdhaarId := tables.nextUdhaarId + 1);
        SaleBalanceWritten(tables, inv, b.party, b.balance, withBalance);
        tables := withBalance;
      }
      if applied > 0.0 {
        var _ := OffsetPurchaseCredit(order, applied);
      }
      return Some(inv);
    }

    /**
     * save_sale's first writes: the header, stamped, then each item in turn
     * until one names a product the stock does not have.
     */
    method RecordSale(inv: InvoiceId, b: Bill, items: seq<Item>) returns (complete: bool)
      requires Valid() && inv !in tables.sales
      modifies this
      ensures Valid()
      ensures complete <==> FirstUnstocked(old(tables).stock, items) == |items|
      ensures tables == SaleRecorded(old(tables), inv, b, items[..Written(old(tables).stock, items)])
    {
      ghost var t0 := tables;
      tables := tables.(sales := tables.sales[inv := b.(created := tables.clock)], clock := tables.clock + 1);
      ghost var header := tables;
      assert header == t0.(sales := t0.sales[inv := b.(created := t0.clock)], clock := t0.clock + 1);
      SaleSavedKeepsWellFormed(t0, inv, b, []);
      assert header.stock == t0.stock;
      SaleRecordedAfterHeader(t0, inv, b, items[..Written(t0.stock, items)], header);
      complete := RecordSaleItems(inv, items);
    }
    /**
     * save_purchase: the header and the items, then a positive balance
     * added to the invoice's payable.  None when the INSERT breaks the
     * invoice's PRIMARY KEY.
     */
    method SavePurchase(inv: InvoiceId, b: Bill, items: seq<Item>) returns (r: Option<InvoiceId>)
      requires Valid()
      modifies this
      ensures Valid()
      ensures r.Some? <==> inv !in old(tables).purchases
      ensures r.Some? ==> r.value == inv
                          && tables == PurchaseBalanceAdded(PurchaseRecorded(old(tables), inv, b, items), inv, b.party, b.balance)
      ensures r.None? ==> tables == old(tables)
    {
      if inv in tables.purchases {
        return None;
      }
      RecordPurchase(inv, b, items);
      AddPurchaseBalanceRow(inv, b.party, b.balance);
      return Some(inv);
    }

    /** save_purchase's first writes: the header, stamped, then each item row in turn. */
    method RecordPurchase(inv: InvoiceId, b: Bill, items: seq<Item>)
      requires Valid() && inv !in tables.purchases
      modifies this
      ensures Valid()
      ensures tables == PurchaseRecorded(old(tables), inv, b, items)
    {
      var rows := AppendRows(ItemsOf(tables.purchaseItems, inv), items);
      PurchaseRecordedWrites(tables, inv, b, items, rows);
      tables := tables.(purchases := tables.purchases[inv := b.(created := tables.clock)], clock := tables.clock + 1,
                        purchaseItems := tables.purchaseItems[inv := rows]);
    }

    /**
     * save_purchase's payable: a positive balance is added to the invoice's
     * row, or opens one under the next id, and a zero-amount row is logged.
     */
    method AddPurchaseBalanceRow(inv: InvoiceId, supplier: int, balance: real)
      requires Valid()
      modifies this
      ensures Valid()
      ensures tables == PurchaseBalanceAdded(old(tables), inv, supplier, balance)
    {
      if balance <= 0.0 {
        return;
      }
      PurchaseBalanceAddedKeepsWellFormed(tables, inv, supplier, balance);
      var payables, next := tables.purchaseUdhaar, tables.nextPurchaseUdhaarId;
      if inv in payables {
        payables := payables[inv := Accrue(payables[inv], balance)];
      } else {
        payables := payables[inv := Opened(next, supplier, balance)];
        next := next + 1;
      }
      tables := tables.(purchaseUdhaar := payables, nextPurchaseUdhaarId := next,
                        purchaseTxns := tables.purchaseTxns + [Txn(payables[inv].id, 0.0, "N/A", "Initial Balance/Balance Added")]);
    }
    /**
     * update_sale_bill: false when the sale is not stored.  Otherwise the
     * header is rewritten with the recomputed balance, the items replaced
     * row by row, and the receivable reset (or opened for a positive balance).
     */
    method UpdateSaleBill(inv: InvoiceId, customer: int, date: string, items: seq<Item>, mode: string,
                          info: string, paid: real, total: real) returns (ok: bool)
      requires Valid()
      modifies this
      ensures Valid()
      ensures ok <==> inv in old(tables).sales
      ensures ok ==> tables == SaleEdited(old(tables), inv, customer, date, items, mode, info, paid, total)
      ensures !ok ==> tables == old(tables)
    {
      if inv !in tables.sales {
        return false;
      }
      var b := EditedSale(tables.sales[inv], customer, date, total, mode, info, paid);
      // the old rows are deleted and the new ones inserted
      var rows := AppendRows([], items);
      var receivables, next := tables.udhaar, tables.nextUdhaarId;
      if inv in receivables {
        receivables := receivables[inv := Reset(receivables[inv], customer, b.balance)];
      } else if b.balance > 0.0 {
        receivables := receivables[inv := Opened(next, customer, b.balance)];
        next := next + 1;
      }
      SaleEditedWrites(tables, inv, customer, date, items, mode, info, paid, total, b, rows, receivables, next);
      tables := tables.(sales := tables.sales[inv := b], saleItems := tables.saleItems[inv := rows], udhaar := receivables,
                        nextUdhaarId := next);
      return true;
    }

    /**
     * update_purchase_bill: the header is rewritten if there is one, the
     * items replaced row by row, and the payable rebalanced to total - paid.
     * It always reports success.
     */
    method UpdatePurchaseBill(inv: InvoiceId, supplier: int, date: string, items: seq<Item>, mode: string,
                              info: string, paid: real, total: real) returns (ok: bool)
      requires Valid()
      modifies this
      ensures Valid()
      ensures ok
      ensures tables == PurchaseEdited(old(tables), inv, supplier, date, items, mode, info, paid, total)
    {
      var balance := total - paid;
      var bills := tables.purchases;
      if inv in bills {
        // the UPDATE matches no row when the header is missing
        bills := bills[inv := EditedPurchase(bills[inv], supplier, date, total, mode, info, paid)];
      }
      var rows := AppendRows([], items);
      var payables, next := tables.purchaseUdhaar, tables.nextPurchaseUdhaarId;
      if balance != 0.0 {
        if inv in payables {
          payables := payables[inv := Rebalance(payables[inv], balance)];
        } else {
          payables := payables[inv := Row(next, supplier, balance, balance, Settled(balance))];
          next := next + 1;
        }
      } else if inv in payables && payables[inv].current <= 0.0 {
        payables := payables - {inv};
      }
      PurchaseEditedWrites(tables, inv, supplier, date, items, mode, info, paid, total, bills, rows, payables, next);
      tables := tables.(purchases := bills, purchaseItems := tables.purchaseItems[inv := rows], purchaseUdhaar := payables,
                        nextPurchaseUdhaarId := next);
      return true;
    }
    /**
     * delete_bill: only the newest sale, purchase or deposit may go.  A sale
     * or purchase loses its header row only; a deposit is reversed.  The
     * counter the bill's number came from then steps back.
     */
    method DeleteBill(inv: InvoiceId) returns (outcome: Deletion)
      requires Valid()
      modifies this
      ensures Valid()
      ensures outcome == DeletionOf(old(tables), inv)
      ensures tables == AfterDeletion(old(tables), inv)
    {
      if inv == "" {
        DeletionCases(tables, inv);
        return NoInvoiceId;
      }
      var latestSale := NewestOf(BillStamps(tables.sales));
      var latestPurchase := NewestOf(BillStamps(tables.purchases));
      var latestDeposit := NewestOf(DepositStamps(tables.deposits));
      LatestFound(tables, inv, latestSale, latestPurchase, latestDeposit);
      DeletionCases(tables, inv);
      if latestSale != Some(inv) && latestPurchase != Some(inv) && latestDeposit != Some(inv) {
        return NotLatest;
      }
      if inv in tables.sales {
        RemoveSale(inv);
        return SaleDeleted;
      } else if inv in tables.purchases {
        RemovePurchase(inv);
        return PurchaseDeleted;
      }
      RemoveDeposit(inv);
      return DepositDeleted;
    }

    /** delete_bill on a sale: the header row goes and the SALES counter steps back. */
    method RemoveSale(inv: InvoiceId)
      requires Valid()
      modifies this
      ensures Valid()
      ensures tables == SaleRemoved(old(tables), inv)
    {
      SaleRemovedKeepsWellFormed(tables, inv);
      tables := tables.(sales := tables.sales - {inv}, counters := Decremented(tables.counters, SalesPrefix));
    }

    /** delete_bill on a purchase: the header row goes and the PURCHASE counter steps back. */
    method RemovePurchase(inv: InvoiceId)
      requires Valid()
      modifies this
      ensures Valid()
      ensures tables == PurchaseRemoved(old(tables), inv)
    {
      PurchaseRemovedKeepsWellFormed(tables, inv);
      tables := tables.(purchases := tables.purchases - {inv}, counters := Decremented(tables.counters, PurchasePrefix));
    }

    /**
     * delete_bill on the newest deposit: the deposit is reversed, then the
     * counter of the customer read with it steps back when there is one.
     */
    method RemoveDeposit(inv: InvoiceId)
      requires Valid() && inv in tables.deposits
      modifies this
      ensures Valid()
      ensures tables == DepositRemoved(old(tables), inv)
    {
      var customer := tables.deposits[inv].customer;
      var _ := DeleteUdhaarDepositAndReverse(inv);
      if customer != 0 {
        WellFormedWithCounters(tables, Decremented(tables.counters, UdhaarPrefix(customer)));
        tables := tables.(counters := Decremented(tables.counters, UdhaarPrefix(customer)));
      }
    }

    /** invoice_id_creation.get_next_invoice_number: one past the stored number, which is then stored. */
    method GetNextInvoiceNumber(prefix: string) returns (n: int)
      requires Valid()
      modifies this
      ensures Valid()
      ensures n == Stored(old(tables).counters, prefix) + 1
      ensures tables == old(tables).(counters := Issued(old(tables).counters, prefix))
    {
      var last := if prefix in tables.counters then tables.counters[prefix] else 0;
      n := last + 1;
      WellFormedWithCounters(tables, tables.counters[prefix := n]);
      tables := tables.(counters := tables.counters[prefix := n]);
    }

    /** generate_sales_invoice_id: `SAL-{year}-{n:05d}` with the next SALES number. */
    method GenerateSalesInvoiceId(year: nat) returns (id: InvoiceId)
      requires Valid()
      modifies this
      ensures Valid()
      ensures id == SalesInvoiceId(year, NextNumber(old(tables).counters, SalesPrefix))
      ensures tables == old(tables).(counters := Issued(old(tables).counters, SalesPrefix))
    {
      var n := GetNextInvoiceNumber(SalesPrefix);
      id := "SAL-" + Digits(year) + "-" + ZeroPad(n, 5);
    }

    /** generate_purchase_invoice_id: `PUR-{year}-{n:05d}` with the next PURCHASE number. */
    method GeneratePurchaseInvoiceId(year: nat) returns (id: InvoiceId)
      requires Valid()
      modifies this
      ensures Valid()
      ensures id == PurchaseInvoiceId(year, NextNumber(old(tables).counters, PurchasePrefix))
      ensures tables == old(tables).(counters := Issued(old(tables).counters, PurchasePrefix))
    {
      var n := GetNextInvoiceNumber(PurchasePrefix);
      id := "PUR-" + Digits(year) + "-" + ZeroPad(n, 5);
    }

    /** generate_udhaar_invoice_id: `UDH-{year}-{customer}-{n:03d}` with the customer's next number. */
    method GenerateUdhaarInvoiceId(year: nat, customer: int) returns (id: InvoiceId)
      requires Valid()
      modifies this
      ensures Valid()
      ensures id == UdhaarInvoiceId(year, customer, NextNumber(old(tables).counters, UdhaarPrefix(customer)))
      ensures tables == old(tables).(counters := Issued(old(tables).counters, UdhaarPrefix(customer)))
    {
      var n := GetNextInvoiceNumber(UdhaarPrefix(customer));
      id := "UDH-" + Digits(year) + "-" + (IntToString(customer) + "-" + ZeroPad(n, 3));
    }
  }

  /** The item loop of save_purchase and of the bill updates: one INSERT per item, in order, after the rows there are. */
  method AppendRows(rows: seq<Item>, items: seq<Item>) returns (r: seq<Item>)
    ensures r == rows + items
  {
    r := rows;
    var i := 0;
    while i < |items|
      invariant 0 <= i <= |items|
      invariant r == rows + items[..i]
    {
      r := r + [items[i]];
      i := i + 1;
    }
    assert items[..i] == items;
  }

  /** save_sale's check of the items, one by one: quantity, net weight and amount all positive. */
  method CheckItems(items: seq<Item>) returns (ok: bool)
    ensures ok <==> ItemsPositive(items)
  {
    var i := 0;
    while i < |items|
      invariant 0 <= i <= |items|
      invariant forall j :: 0 <= j < i ==> items[j].qty > 0.0 && items[j].netWt > 0.0 && items[j].amount > 0.0
    {
      if items[i].qty <= 0.0 || items[i].netWt <= 0.0 || items[i].amount <= 0.0 {
        return false;
      }
      i := i + 1;
    }
    return true;
  }
}
