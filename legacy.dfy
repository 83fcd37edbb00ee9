/**
 * The two single-file snapshots of the shop, app.py and app_19_04_2025.py
 * (the April snapshot).  They keep an older, simpler ledger: `udhaar` rows
 * have an AUTOINCREMENT id and no UNIQUE sell invoice, a deposit may not
 * exceed what is pending and deletes the row it pays off, and bills are
 * deleted without giving any balance back.  Their counters, id formats and
 * the receivable rule of save_sale differ from each other in small ways,
 * which `Snapshot` selects.
 */
module Legacy {
  import opened Wrappers
  import opened Text
  import Numbering

  type InvoiceId = string

  /** app.py, or the April snapshot app_19_04_2025.py. */
  datatype Snapshot = Main | April19

  // ---------------------------------------------------------------------
  // Invoice numbers and ids
  // ---------------------------------------------------------------------

  /** The value get_next_invoice_number seeds a missing sequence row with. */
  function Seed(v: Snapshot): int
  {
    if v == Main then 0 else 1
  }

  /** The number get_next_invoice_number hands out: the seeded or stored value, plus one. */
  function Bumped(v: Snapshot, counters: map<string, int>, name: string): int
  {
    (if name in counters then counters[name] else Seed(v)) + 1
  }

  /** The first number of a fresh sequence is 1 in app.py and 2 in the April snapshot. */
  lemma FirstNumber(v: Snapshot, counters: map<string, int>, name: string)
    requires name !in counters
    ensures Bumped(v, counters, name) == (if v == Main then 1 else 2)
  {
  }

  /** Storing the number just handed out makes the next one exactly one more. */
  lemma NumbersConsecutive(v: Snapshot, counters: map<string, int>, name: string)
    ensures var n := Bumped(v, counters, name);
      Bumped(v, counters[name := n], name) == n + 1
  {
  }

  /** `{prefix}{yymm}-{n:04d}`, the shape of every legacy invoice id. */
  function Formatted(prefix: string, yymm: string, n: int): string
  {
    prefix + yymm + "-" + ZeroPad(n, 4)
  }

  /** The prefix a Silver sale gets: "IS-" in app.py, "IG-" (as Gold) in the April snapshot. */
  function SilverPrefix(v: Snapshot): string
  {
    if v == Main then "IS-" else "IG-"
  }

  /**
   * generate_sales_invoice_id once the number `n` (-1 on a database error)
   * is drawn: Gold and Silver are formatted, a Gold bill without a number
   * and any other metal get "INV-ERROR", and a Silver bill without a number
   * falls off the end of the function (`None`).
   */
  function SalesId(v: Snapshot, metal: string, n: int, yymm: string): (r: Option<string>)
    ensures r == None <==> metal == "Silver" && n == -1
    ensures r == Some("INV-ERROR") <==> (metal == "Gold" && n == -1) || (metal != "Gold" && metal != "Silver")
    ensures metal == "Gold" && n != -1 ==> r == Some(Formatted("IG-", yymm, n))
    ensures metal == "Silver" && n != -1 ==> r == Some(Formatted(SilverPrefix(v), yymm, n))
  {
    if metal == "Gold" && n != -1 then
      assert Formatted("IG-", yymm, n)[1] == 'G';
      Some(Formatted("IG-", yymm, n))
    else if metal == "Silver" then
      if n != -1 then
        assert Formatted(SilverPrefix(v), yymm, n)[1] != 'N';
        Some(Formatted(SilverPrefix(v), yymm, n))
      else None
    else Some("INV-ERROR")
  }

  /** generate_purchase_invoice_id once the number is drawn. */
  function PurchaseId(n: int, yymm: string): string
  {
    if n != -1 then Formatted("IP-", yymm, n) else "IP-ERROR"
  }

  /** generate_udhaar_invoice_id once the number is drawn. */
  function UdhaarId(n: int, yymm: string): string
  {
    if n != -1 then Formatted("UD-", yymm, n) else "UD-ERROR"
  }

  /** Within one month and one prefix, different numbers give different ids. */
  lemma FormattedInjective(prefix: string, yymm: string, n: int, m: int)
    requires Formatted(prefix, yymm, n) == Formatted(prefix, yymm, m)
    ensures n == m
  {
    Numbering.SuffixOfEqual(prefix + yymm + "-", ZeroPad(n, 4), ZeroPad(m, 4));
    ZeroPadInjective(n, m, 4);
  }

  /** An id formatted from a `%y%m` month is never the error id of the same kind. */
  lemma ErrorIdsStandApart(yymm: string, n: int)
    requires |yymm| == 4 && AllDigits(yymm)
    ensures PurchaseId(n, yymm) == "IP-ERROR" <==> n == -1
    ensures UdhaarId(n, yymm) == "UD-ERROR" <==> n == -1
  {
    if n != -1 {
      assert Formatted("IP-", yymm, n)[3] == yymm[0];
      assert Formatted("UD-", yymm, n)[3] == yymm[0];
      assert "IP-ERROR"[3] == 'E' && "UD-ERROR"[3] == 'E';
    }
  }

  /** In app.py the id tells the metal: a Gold id is never a Silver id. */
  lemma MainIdsTellTheMetal(yymm: string, n: int, m: int)
    requires n != -1 && m != -1
    ensures SalesId(Main, "Gold", n, yymm) != SalesId(Main, "Silver", m, yymm)
  {
    assert Formatted("IG-", yymm, n)[1] == 'G';
    assert Formatted("IS-", yymm, m)[1] == 'S';
  }

  /** In the April snapshot a Silver bill gets exactly the id a Gold bill with its number would. */
  lemma AprilSilverLooksGold(yymm: string, n: int)
    requires n != -1
    ensures SalesId(April19, "Silver", n, yymm) == SalesId(April19, "Gold", n, yymm)
  {
  }

  // ---------------------------------------------------------------------
  // Rows
  // ---------------------------------------------------------------------

  datatype Customer = Customer(id: nat, name: string, phone: string, address: string, pan: string, aadhaar: string)

  /** A `sales` row; the April table has no payment split and no sale date, kept as 0.0 and "". */
  datatype Sale = Sale(
    customer: int, total: real, cheque: real, online: real, upi: real, cash: real, oldGold: real,
    balance: real, mode: string, info: string, saleDate: string)

  /**
   * An item as the sale form hands it over.  The six keys the validation
   * asks for are always there; `purity` and the tax fields may be missing.
   */
  datatype ItemIn = ItemIn(
    metal: string, rate: real, description: string, qty: int, netWt: real, amount: real,
    purity: Option<string>, cgstRate: Option<real>, sgstRate: Option<real>, hsn: Option<string>)

  /** A `sale_items` row. */
  datatype Item = Item(
    metal: string, rate: real, description: string, qty: int, netWt: real, purity: string, amount: real,
    cgstRate: real, sgstRate: real, hsn: string)

  datatype Purchase = Purchase(customer: int, total: real, mode: string, info: string)

  datatype PurchaseItem = PurchaseItem(metal: string, qty: int, netWt: real, price: real, amount: real)

  /** An `udhaar` row: an AUTOINCREMENT id, and nothing makes the sell invoice unique. */
  datatype PendingRow = PendingRow(id: nat, sellInvoice: InvoiceId, customer: int, pending: real)

  /** An `udhaar_deposits` row. */
  datatype Deposit = Deposit(sellInvoice: InvoiceId, customer: int, amount: real, remaining: real,
                             mode: string, info: string)

  /** The defaults save_sale fills in for a missing tax rate or HSN code. */
  function Stored(x: ItemIn): Item
    requires x.purity.Some?
  {
    Item(x.metal, x.rate, x.description, x.qty, x.netWt, x.purity.value, x.amount,
         if x.cgstRate.Some? then x.cgstRate.value else 0.015,
         if x.sgstRate.Some? then x.sgstRate.value else 0.015,
         if x.hsn.Some? then x.hsn.value else "7113")
  }

  predicate HasPurity(items: seq<ItemIn>)
  {
    forall i :: 0 <= i < |items| ==> items[i].purity.Some?
  }

  /** The `sale_items` rows of a sale whose items all have a purity, in order. */
  function StoredAll(items: seq<ItemIn>): (r: seq<Item>)
    requires HasPurity(items)
    ensures |r| == |items| && forall i :: 0 <= i < |items| ==> r[i] == Stored(items[i])
  {
    seq(|items|, i requires 0 <= i < |items| => Stored(items[i]))
  }

  /** save_sale's checks before the database is opened. */
  predicate SaleInputOk(customer: int, total: real, items: seq<ItemIn>)
  {
    customer != 0 && items != [] && total > 0.0
    && forall i :: 0 <= i < |items| ==> items[i].qty > 0 && items[i].netWt > 0.0 && items[i].amount > 0.0
  }

  /** Whether save_sale opens a receivable: any non-zero balance in app.py, only a positive one in April. */
  predicate OpensReceivable(v: Snapshot, balance: real)
  {
    if v == Main then balance != 0.0 else balance > 0.0
  }

  /**
   * The loop of save_sale that inserts one `sale_items` row per item.  An
   * item without a purity raises a KeyError, and the whole sale is rolled back.
   */
  method InsertItems(items: seq<ItemIn>) returns (rows: Option<seq<Item>>)
    ensures rows.Some? <==> HasPurity(items)
    ensures rows.Some? ==> HasPurity(items) && rows.value == StoredAll(items)
  {
    var acc: seq<Item> := [];
    var i := 0;
    while i < |items|
      invariant 0 <= i <= |items| && |acc| == i
      invariant forall j :: 0 <= j < i ==> items[j].purity.Some? && acc[j] == Stored(items[j])
    {
      if items[i].purity.None? {
        return None;
      }
      acc := acc + [Stored(items[i])];
      i := i + 1;
    }
    assert acc == StoredAll(items);
    return Some(acc);
  }

  // ---------------------------------------------------------------------
  // The `udhaar` table under SQL's WHERE clauses
  // ---------------------------------------------------------------------

  /** The WHERE clause of an `udhaar` statement: the sell invoice, and perhaps the customer too. */
  datatype Where = BySell(sell: InvoiceId) | BySellAndCustomer(sell: InvoiceId, customer: int)

  predicate Selects(w: Where, r: PendingRow)
  {
    r.sellInvoice == w.sell && (w.BySellAndCustomer? ==> r.customer == w.customer)
  }

  /** The row `fetchone()` returns: the first selected one, in id order. */
  function FirstSelected(rows: seq<PendingRow>, w: Where): (k: Option<nat>)
    ensures k.None? <==> forall i :: 0 <= i < |rows| ==> !Selects(w, rows[i])
    ensures k.Some? ==> k.value < |rows| && Selects(w, rows[k.value])
                        && forall i :: 0 <= i < k.value ==> !Selects(w, rows[i])
  {
    if rows == [] then None
    else if Selects(w, rows[0]) then Some(0)
    else match FirstSelected(rows[1..], w)
      case None => None
      case Some(k) => Some(k + 1)
  }

  /** `UPDATE udhaar SET pending_amount = p WHERE ...`. */
  function Repriced(rows: seq<PendingRow>, w: Where, p: real): seq<PendingRow>
  {
    seq(|rows|, i requires 0 <= i < |rows| => if Selects(w, rows[i]) then rows[i].(pending := p) else rows[i])
  }

  /** `DELETE FROM udhaar WHERE ...`: the other rows stay, in their order. */
  function Dropped(rows: seq<PendingRow>, w: Where): (r: seq<PendingRow>)
    ensures |r| <= |rows|
    ensures forall x :: x in r <==> x in rows && !Selects(w, x)
  {
    if rows == [] then []
    else if Selects(w, rows[0]) then Dropped(rows[1..], w)
    else [rows[0]] + Dropped(rows[1..], w)
  }

  /** AUTOINCREMENT: ids grow in row order. */
  predicate IdsIncreasing(rows: seq<PendingRow>)
  {
    forall i, j :: 0 <= i < j < |rows| ==> rows[i].id < rows[j].id
  }

  lemma {:induction false} DroppedIncreasing(rows: seq<PendingRow>, w: Where)
    requires IdsIncreasing(rows)
    ensures IdsIncreasing(Dropped(rows, w))
  {
    if rows != [] {
      DroppedIncreasing(rows[1..], w);
      var tail := Dropped(rows[1..], w);
      if !Selects(w, rows[0]) {
        var r := [rows[0]] + tail;
        forall i, j | 0 <= i < j < |r|
          ensures r[i].id < r[j].id
        {
          if i == 0 {
            assert r[j] in tail;
            assert r[j] in rows[1..];
          }
        }
      }
    }
  }

  /** Rows that no WHERE clause selects are left alone by a DELETE. */
  lemma {:induction false} DroppedNothing(rows: seq<PendingRow>, w: Where)
    requires forall i :: 0 <= i < |rows| ==> !Selects(w, rows[i])
    ensures Dropped(rows, w) == rows
  {
    if rows != [] {
      DroppedNothing(rows[1..], w);
    }
  }

  // ---------------------------------------------------------------------
  // Deposits against a receivable
  // ---------------------------------------------------------------------

  /** save_udhaar_deposit's checks, up to the insert of the deposit row. */
  predicate DepositAllowed(rows: seq<PendingRow>, sell: InvoiceId, customer: int, amount: real)
  {
    sell != "" && customer != 0 && amount > 0.0
    && var k := FirstSelected(rows, BySellAndCustomer(sell, customer));
       k.Some? && amount <= rows[k.value].pending
  }

  /** What is pending on the receivable a deposit pays, before it. */
  function PendingBefore(rows: seq<PendingRow>, sell: InvoiceId, customer: int): real
    requires FirstSelected(rows, BySellAndCustomer(sell, customer)).Some?
  {
    rows[FirstSelected(rows, BySellAndCustomer(sell, customer)).value].pending
  }

  /**
   * The `udhaar` writes of save_udhaar_deposit: every row of the invoice
   * and customer is deleted when the deposit pays off the first one, and
   * set to what is left of it otherwise.
   */
  function Deposited(rows: seq<PendingRow>, sell: InvoiceId, customer: int, amount: real): seq<PendingRow>
    requires DepositAllowed(rows, sell, customer, amount)
  {
    Settled(rows, BySellAndCustomer(sell, customer), PendingBefore(rows, sell, customer) - amount)
  }

  /** The selected rows are deleted when nothing is left on them, and set to what is left otherwise. */
  function Settled(rows: seq<PendingRow>, w: Where, left: real): seq<PendingRow>
  {
    if left <= 0.0 then Dropped(rows, w) else Repriced(rows, w, left)
  }

  /**
   * After a deposit, the rows of its invoice and customer hold what is left
   * of the first one, which is positive, or are gone when nothing is left;
   * every other row stays.
   */
  lemma DepositSettles(rows: seq<PendingRow>, sell: InvoiceId, customer: int, amount: real)
    requires DepositAllowed(rows, sell, customer, amount)
    ensures var r := Deposited(rows, sell, customer, amount);
      var left := PendingBefore(rows, sell, customer) - amount;
      && (forall x :: x in r && Selects(BySellAndCustomer(sell, customer), x) ==> x.pending == left && left > 0.0)
      && (forall x :: !Selects(BySellAndCustomer(sell, customer), x) ==> (x in r <==> x in rows))
      && (left == 0.0 ==> forall x :: x in r ==> !Selects(BySellAndCustomer(sell, customer), x))
  {
    var w := BySellAndCustomer(sell, customer);
    var left := PendingBefore(rows, sell, customer) - amount;
    if left > 0.0 {
      var r := Repriced(rows, w, left);
      forall x | x in r && Selects(w, x)
        ensures x.pending == left
      {
        var i :| 0 <= i < |r| && r[i] == x;
      }
      forall x | !Selects(w, x)
        ensures x in r <==> x in rows
      {
        if x in r {
          var i :| 0 <= i < |r| && r[i] == x;
        }
        if x in rows {
          var i :| 0 <= i < |rows| && rows[i] == x;
          assert r[i] == x;
        }
      }
    }
  }

  /** The deposit row save_udhaar_deposit stores. */
  function DepositRow(rows: seq<PendingRow>, sell: InvoiceId, customer: int, amount: real, mode: string, info: string): Deposit
    requires DepositAllowed(rows, sell, customer, amount)
  {
    Deposit(sell, customer, amount, PendingBefore(rows, sell, customer) - amount, mode, info)
  }

  /**
   * The `udhaar` writes of delete_udhaar_bill in app.py: the deposit's
   * amount is added to the first row of its sell invoice and written to
   * every row of that invoice.  With no such row the function rolls back:
   * the customer it would open a new row for is read from the deposit row
   * it has just deleted.
   */
  function Reinstated(rows: seq<PendingRow>, sell: InvoiceId, amount: real): (r: Option<seq<PendingRow>>)
    ensures r.None? <==> FirstSelected(rows, BySell(sell)).None?
  {
    match FirstSelected(rows, BySell(sell))
    case None => None
    case Some(k) => Some(Repriced(rows, BySell(sell), rows[k].pending + amount))
  }

  /** delete_udhaar_bill as it evidently means to work: with no row left, a new one is opened for the deposit's customer. */
  function ReinstatedOrReopened(rows: seq<PendingRow>, d: Deposit, nextId: nat): (r: seq<PendingRow>)
    ensures FirstSelected(rows, BySell(d.sellInvoice)).None? ==> r == rows + [PendingRow(nextId, d.sellInvoice, d.customer, d.amount)]
    ensures FirstSelected(rows, BySell(d.sellInvoice)).Some? ==> Some(r) == Reinstated(rows, d.sellInvoice, d.amount)
  {
    match Reinstated(rows, d.sellInvoice, d.amount)
    case None => rows + [PendingRow(nextId, d.sellInvoice, d.customer, d.amount)]
    case Some(r) => r
  }

  /** A receivable that has only this one row of its sell invoice, at index k. */
  predicate OnlyRow(rows: seq<PendingRow>, k: nat, sell: InvoiceId, customer: int)
  {
    k < |rows| && rows[k].sellInvoice == sell && rows[k].customer == customer
    && forall i :: 0 <= i < |rows| && i != k ==> rows[i].sellInvoice != sell
  }

  lemma OnlyRowIsFirst(rows: seq<PendingRow>, k: nat, sell: InvoiceId, customer: int)
    requires sell != "" && OnlyRow(rows, k, sell, customer)
    ensures FirstSelected(rows, BySellAndCustomer(sell, customer)) == Some(k)
    ensures FirstSelected(rows, BySell(sell)) == Some(k)
  {
  }

  /** A part payment rewrites the pending amount of the only row of its invoice. */
  lemma PartPaymentRewrites(rows: seq<PendingRow>, k: nat, sell: InvoiceId, customer: int, amount: real, left: real)
    requires sell != "" && customer != 0 && OnlyRow(rows, k, sell, customer)
    requires 0.0 < amount < rows[k].pending && left == rows[k].pending - amount
    ensures DepositAllowed(rows, sell, customer, amount)
    ensures Deposited(rows, sell, customer, amount) == Repriced(rows, BySellAndCustomer(sell, customer), left)
  {
    OnlyRowIsFirst(rows, k, sell, customer);
    DepositLeaves(rows, sell, customer, amount, left);
  }

  /** A deposit that leaves something pending rewrites the rows it selects to what is left. */
  lemma DepositLeaves(rows: seq<PendingRow>, sell: InvoiceId, customer: int, amount: real, left: real)
    requires DepositAllowed(rows, sell, customer, amount)
    requires left == PendingBefore(rows, sell, customer) - amount && left > 0.0
    ensures Deposited(rows, sell, customer, amount) == Repriced(rows, BySellAndCustomer(sell, customer), left)
  {
  }

  /** delete_udhaar_bill on an invoice whose first row is at k sets them all to that row plus the amount. */
  lemma ReinstatedAt(rows: seq<PendingRow>, k: nat, sell: InvoiceId, amount: real)
    requires FirstSelected(rows, BySell(sell)) == Some(k)
    ensures Reinstated(rows, sell, amount) == Some(Repriced(rows, BySell(sell), rows[k].pending + amount))
  {
  }

  /** Rewriting the only row of an invoice keeps it the only one, at the same place. */
  lemma RepricedOnlyRow(rows: seq<PendingRow>, k: nat, sell: InvoiceId, customer: int, w: Where, p: real)
    requires OnlyRow(rows, k, sell, customer) && w.sell == sell
    requires w.BySellAndCustomer? ==> w.customer == customer
    ensures var r := Repriced(rows, w, p);
      OnlyRow(r, k, sell, customer) && r[k] == rows[k].(pending := p)
  {
  }

  /** Rewriting the only row of an invoice twice leaves the second amount. */
  lemma RepricedTwice(rows: seq<PendingRow>, k: nat, sell: InvoiceId, customer: int, p: real, q: real)
    requires OnlyRow(rows, k, sell, customer) && q == rows[k].pending
    ensures Repriced(Repriced(rows, BySellAndCustomer(sell, customer), p), BySell(sell), q) == rows
  {
    var r1 := Repriced(rows, BySellAndCustomer(sell, customer), p);
    var r2 := Repriced(r1, BySell(sell), q);
    assert |r2| == |rows|;
    forall i | 0 <= i < |rows|
      ensures r2[i] == rows[i]
    {
      if i == k {
        assert r1[i] == rows[i].(pending := p);
      }
    }
  }

  /**
   * A part payment and its deletion cancel out: when the receivable has a
   * single row and the deposit leaves something pending, deleting the
   * deposit with delete_udhaar_bill puts back the table as it was.
   */
  lemma PartPaymentRoundTrip(rows: seq<PendingRow>, k: nat, sell: InvoiceId, customer: int, amount: real)
    requires sell != "" && customer != 0 && OnlyRow(rows, k, sell, customer)
    requires 0.0 < amount < rows[k].pending
    ensures DepositAllowed(rows, sell, customer, amount)
    ensures Reinstated(Deposited(rows, sell, customer, amount), sell, amount) == Some(rows)
  {
    var left := rows[k].pending - amount;
    PartPaymentRewrites(rows, k, sell, customer, amount, left);
    var paid := Repriced(rows, BySellAndCustomer(sell, customer), left);
    RepricedOnlyRow(rows, k, sell, customer, BySellAndCustomer(sell, customer), left);
    OnlyRowIsFirst(paid, k, sell, customer);
    ReinstatedAt(paid, k, sell, amount);
    RepricedTwice(rows, k, sell, customer, left, paid[k].pending + amount);
  }

  /**
   * What is pending never goes negative through a deposit, and the deposit
   * row records exactly what is left.
   */
  lemma DepositNeverOverdraws(rows: seq<PendingRow>, sell: InvoiceId, customer: int, amount: real, mode: string, info: string)
    requires DepositAllowed(rows, sell, customer, amount)
    ensures var d := DepositRow(rows, sell, customer, amount, mode, info);
      d.remaining >= 0.0 && d.remaining + d.amount == PendingBefore(rows, sell, customer)
    ensures forall x :: x in Deposited(rows, sell, customer, amount) && Selects(BySellAndCustomer(sell, customer), x)
                        ==> 0.0 < x.pending < PendingBefore(rows, sell, customer)
  {
    DepositSettles(rows, sell, customer, amount);
  }

  /**
   * As written, a deposit that pays off a single-row receivable can never be
   * deleted: its row is gone, and delete_udhaar_bill rolls back.
   */
  lemma PaidOffDepositCannotBeDeleted(rows: seq<PendingRow>, k: nat, sell: InvoiceId, customer: int)
    requires sell != "" && customer != 0 && OnlyRow(rows, k, sell, customer) && rows[k].pending > 0.0
    ensures DepositAllowed(rows, sell, customer, rows[k].pending)
    ensures Reinstated(Deposited(rows, sell, customer, rows[k].pending), sell, rows[k].pending) == None
  {
    OnlyRowIsFirst(rows, k, sell, customer);
    var after := Deposited(rows, sell, customer, rows[k].pending);
    assert after == Dropped(rows, BySellAndCustomer(sell, customer));
    forall i | 0 <= i < |after|
      ensures !Selects(BySell(sell), after[i])
    {
      assert after[i] in rows;
    }
  }

  /**
   * The corrected deletion gives the paid-off receivable back: the customer
   * again owes the whole amount on that invoice.
   */
  lemma PaidOffDepositReopens(rows: seq<PendingRow>, k: nat, sell: InvoiceId, customer: int,
                              mode: string, info: string, nextId: nat)
    requires sell != "" && customer != 0 && OnlyRow(rows, k, sell, customer) && rows[k].pending > 0.0
    ensures DepositAllowed(rows, sell, customer, rows[k].pending)
    ensures var d := DepositRow(rows, sell, customer, rows[k].pending, mode, info);
      ReinstatedOrReopened(Deposited(rows, sell, customer, rows[k].pending), d, nextId)
      == Dropped(rows, BySell(sell)) + [PendingRow(nextId, sell, customer, rows[k].pending)]
  {
    PaidOffDepositCannotBeDeleted(rows, k, sell, customer);
    assert Dropped(rows, BySellAndCustomer(sell, customer)) == Dropped(rows, BySell(sell)) by {
      SameSelection(rows, BySellAndCustomer(sell, customer), BySell(sell));
    }
  }

  /** Two WHERE clauses that pick the same rows delete the same rows. */
  lemma {:induction false} SameSelection(rows: seq<PendingRow>, w1: Where, w2: Where)
    requires forall i :: 0 <= i < |rows| ==> (Selects(w1, rows[i]) <==> Selects(w2, rows[i]))
    ensures Dropped(rows, w1) == Dropped(rows, w2)
  {
    if rows != [] {
      SameSelection(rows[1..], w1, w2);
    }
  }

  // ---------------------------------------------------------------------
  // delete_bill
  // ---------------------------------------------------------------------

  /** Whether delete_bill finds the bill: app.py also looks among the deposits, the April snapshot does not. */
  predicate BillFound(v: Snapshot, inv: InvoiceId, isSale: bool, isPurchase: bool, isDeposit: bool)
  {
    inv != "" && (isSale || isPurchase || (v == Main && isDeposit))
  }

  /** The deposits delete_bill keeps: those of other sell invoices and, in app.py, with another id. */
  function DepositsKept(v: Snapshot, deposits: map<InvoiceId, Deposit>, inv: InvoiceId): map<InvoiceId, Deposit>
  {
    map k | k in deposits && deposits[k].sellInvoice != inv && (v == Main ==> k != inv) :: deposits[k]
  }

  lemma DepositsOkKept(v: Snapshot, deposits: map<InvoiceId, Deposit>, inv: InvoiceId)
    requires DepositsOk(deposits)
    ensures DepositsOk(DepositsKept(v, deposits, inv))
  {
  }

  // ---------------------------------------------------------------------
  // What every table keeps
  // ---------------------------------------------------------------------

  /** Customers sit under their (UNIQUE) phone, with ids below the next AUTOINCREMENT id. */
  predicate CustomersOk(customers: map<string, Customer>, nextId: nat)
  {
    forall p :: p in customers ==> customers[p].phone == p && customers[p].id < nextId
  }

  /** Every sequence row is past its seed, so a number handed out is at least 1. */
  predicate CountersOk(v: Snapshot, counters: map<string, int>)
  {
    forall name :: name in counters ==> counters[name] > Seed(v)
  }

  /**
   * `udhaar` ids grow in row order and stay below the next one; in the
   * April snapshot, which opens only positive receivables and deletes a
   * row once it is paid off, every pending amount is positive.
   */
  predicate RowsOk(v: Snapshot, rows: seq<PendingRow>, nextId: nat)
  {
    IdsIncreasing(rows)
    && (forall i :: 0 <= i < |rows| ==> rows[i].id < nextId)
    && (v == April19 ==> forall i :: 0 <= i < |rows| ==> rows[i].pending > 0.0)
  }

  /** Every deposit is of a positive amount. */
  predicate DepositsOk(deposits: map<InvoiceId, Deposit>)
  {
    forall d :: d in deposits ==> deposits[d].amount > 0.0
  }

  lemma RowsOkAppend(v: Snapshot, rows: seq<PendingRow>, nextId: nat, row: PendingRow)
    requires RowsOk(v, rows, nextId) && row.id == nextId && (v == April19 ==> row.pending > 0.0)
    ensures RowsOk(v, rows + [row], nextId + 1)
  {
  }

  lemma RowsOkDropped(v: Snapshot, rows: seq<PendingRow>, nextId: nat, w: Where)
    requires RowsOk(v, rows, nextId)
    ensures RowsOk(v, Dropped(rows, w), nextId)
  {
    DroppedIncreasing(rows, w);
    var r := Dropped(rows, w);
    forall i | 0 <= i < |r|
      ensures r[i].id < nextId && (v == April19 ==> r[i].pending > 0.0)
    {
      assert r[i] in rows;
    }
  }

  lemma RowsOkRepriced(v: Snapshot, rows: seq<PendingRow>, nextId: nat, w: Where, p: real)
    requires RowsOk(v, rows, nextId) && (v == April19 ==> p > 0.0)
    ensures RowsOk(v, Repriced(rows, w, p), nextId)
  {
  }

  lemma RowsOkReinstated(v: Snapshot, rows: seq<PendingRow>, nextId: nat, sell: InvoiceId, amount: real)
    requires RowsOk(v, rows, nextId) && amount > 0.0 && Reinstated(rows, sell, amount).Some?
    ensures RowsOk(v, Reinstated(rows, sell, amount).value, nextId)
  {
    var k := FirstSelected(rows, BySell(sell)).value;
    ReinstatedAt(rows, k, sell, amount);
    RowsOkRepriced(v, rows, nextId, BySell(sell), rows[k].pending + amount);
  }

  lemma RowsOkDeposited(v: Snapshot, rows: seq<PendingRow>, nextId: nat, sell: InvoiceId, customer: int, amount: real)
    requires RowsOk(v, rows, nextId) && DepositAllowed(rows, sell, customer, amount)
    ensures RowsOk(v, Deposited(rows, sell, customer, amount), nextId)
  {
    var w := BySellAndCustomer(sell, customer);
    var left := PendingBefore(rows, sell, customer) - amount;
    if left <= 0.0 {
      RowsOkDropped(v, rows, nextId, w);
    } else {
      RowsOkRepriced(v, rows, nextId, w, left);
    }
  }

  // ---------------------------------------------------------------------
  // The database of one snapshot
  // ---------------------------------------------------------------------

  class LegacyStore {
    const snapshot: Snapshot
    var customers: map<string, Customer>
    var nextCustomerId: nat
    var counters: map<string, int>
    var sales: map<InvoiceId, Sale>
    var saleItems: map<InvoiceId, seq<Item>>
    var purchases: map<InvoiceId, Purchase>
    var purchaseItems: map<InvoiceId, seq<PurchaseItem>>
    var udhaar: seq<PendingRow>
    var nextUdhaarId: nat
    var deposits: map<InvoiceId, Deposit>

    /**
     * Customers sit under their (UNIQUE) phone with ids below the next one;
     * counters are past their seed; the `udhaar` rows keep their id order
     * (and, in April, positive amounts); deposits are positive.
     */
    ghost predicate Valid()
      reads this
    {
      CustomersOk(customers, nextCustomerId) && CountersOk(snapshot, counters)
      && RowsOk(snapshot, udhaar, nextUdhaarId) && DepositsOk(deposits)
    }

    constructor (v: Snapshot)
      ensures Valid() && snapshot == v
      ensures customers == map[] && counters == map[] && sales == map[] && saleItems == map[]
      ensures purchases == map[] && purchaseItems == map[] && udhaar == [] && deposits == map[]
      ensures nextCustomerId == 1 && nextUdhaarId == 1
    {
      snapshot := v;
      customers := map[];
      nextCustomerId := 1;
      counters := map[];
      sales := map[];
      saleItems := map[];
      purchases := map[];
      purchaseItems := map[];
      udhaar := [];
      nextUdhaarId := 1;
      deposits := map[];
    }

    /**
     * add_new_customer (the same in both snapshots): name and phone are
     * required, the phone must be at least ten digits, and a phone already
     * on file is refused.  The new AUTOINCREMENT id is returned.
     */
    method AddNewCustomer(name: string, phone: string, address: string, pan: string, aadhaar: string)
      returns (id: Option<nat>)
      requires Valid()
      modifies this
      ensures Valid()
      ensures id.Some? <==> name != "" && IsDigits(phone) && |phone| >= 10 && phone !in old(customers)
      ensures id.Some? ==> id.value == old(nextCustomerId) && nextCustomerId == old(nextCustomerId) + 1
                           && customers == old(customers)[phone := Customer(id.value, name, phone, address, pan, aadhaar)]
      ensures id.None? ==> customers == old(customers) && nextCustomerId == old(nextCustomerId)
      ensures counters == old(counters) && sales == old(sales) && saleItems == old(saleItems)
      ensures purchases == old(purchases) && purchaseItems == old(purchaseItems)
      ensures udhaar == old(udhaar) && nextUdhaarId == old(nextUdhaarId) && deposits == old(deposits)
    {
      if name == "" || phone == "" {
        return None;
      }
      if !IsDigits(phone) || |phone| < 10 {
        return None;
      }
      if phone in customers {
        return None;
      }
      id := Some(nextCustomerId);
      customers := customers[phone := Customer(nextCustomerId, name, phone, address, pan, aadhaar)];
      nextCustomerId := nextCustomerId + 1;
    }

    /**
     * update_customer of app.py: a PAN or an Aadhaar number that is given
     * must have at least ten characters.  Then name, address, PAN and
     * Aadhaar of the customer with this phone are rewritten, and the answer
     * is `true` whether or not such a customer exists.
     */
    method UpdateCustomer(phone: string, name: string, address: string, pan: string, aadhaar: string)
      returns (ok: bool)
      requires Valid() && snapshot == Main
      modifies this
      ensures Valid()
      ensures ok <==> (pan == "" || |pan| >= 10) && (aadhaar == "" || |aadhaar| >= 10)
      ensures ok && phone in old(customers) ==>
        customers == old(customers)[phone := Customer(old(customers)[phone].id, name, phone, address, pan, aadhaar)]
      ensures !ok || phone !in old(customers) ==> customers == old(customers)
      ensures nextCustomerId == old(nextCustomerId) && counters == old(counters) && sales == old(sales)
      ensures saleItems == old(saleItems) && purchases == old(purchases) && purchaseItems == old(purchaseItems)
      ensures udhaar == old(udhaar) && nextUdhaarId == old(nextUdhaarId) && deposits == old(deposits)
    {
      if pan != "" && |pan| < 10 {
        return false;
      }
      if aadhaar != "" && |aadhaar| < 10 {
        return false;
      }
      if phone in customers {
        customers := customers[phone := Customer(customers[phone].id, name, phone, address, pan, aadhaar)];
      }
      return true;
    }

    /**
     * get_next_invoice_number: the sequence row is seeded if missing, then
     * incremented, and the new value is returned; a database error leaves
     * the table as it was and gives -1.  Any other result is a real number,
     * at least 1.
     */
    method GetNextInvoiceNumber(name: string, dbError: bool) returns (n: int)
      requires Valid()
      modifies this
      ensures Valid()
      ensures n == -1 <==> dbError
      ensures !dbError ==> n == Bumped(snapshot, old(counters), name) && n >= 1
                           && counters == old(counters)[name := n]
      ensures dbError ==> counters == old(counters)
      ensures customers == old(customers) && nextCustomerId == old(nextCustomerId) && sales == old(sales)
      ensures saleItems == old(saleItems) && purchases == old(purchases) && purchaseItems == old(purchaseItems)
      ensures udhaar == old(udhaar) && nextUdhaarId == old(nextUdhaarId) && deposits == old(deposits)
    {
      if dbError {
        return -1;
      }
      var seeded := if name in counters then counters[name] else Seed(snapshot);
      n := seeded + 1;
      counters := counters[name := n];
    }

    /** generate_sales_invoice_id: a sales number is drawn whatever the metal. */
    method GenerateSalesInvoiceId(metal: string, yymm: string, dbError: bool) returns (id: Option<string>)
      requires Valid()
      modifies this
      ensures Valid()
      ensures id == SalesId(snapshot, metal, if dbError then -1 else Bumped(snapshot, old(counters), "sales"), yymm)
      ensures counters == if dbError then old(counters)
                          else old(counters)["sales" := Bumped(snapshot, old(counters), "sales")]
      ensures customers == old(customers) && nextCustomerId == old(nextCustomerId) && sales == old(sales)
      ensures saleItems == old(saleItems) && purchases == old(purchases) && purchaseItems == old(purchaseItems)
      ensures udhaar == old(udhaar) && nextUdhaarId == old(nextUdhaarId) && deposits == old(deposits)
    {
      var n := GetNextInvoiceNumber("sales", dbError);
      id := SalesId(snapshot, metal, n, yymm);
    }

    /** generate_purchase_invoice_id. */
    method GeneratePurchaseInvoiceId(yymm: string, dbError: bool) returns (id: string)
      requires Valid()
      modifies this
      ensures Valid()
      ensures id == PurchaseId(if dbError then -1 else Bumped(snapshot, old(counters), "purchase"), yymm)
      ensures counters == if dbError then old(counters)
                          else old(counters)["purchase" := Bumped(snapshot, old(counters), "purchase")]
      ensures customers == old(customers) && nextCustomerId == old(nextCustomerId) && sales == old(sales)
      ensures saleItems == old(saleItems) && purchases == old(purchases) && purchaseItems == old(purchaseItems)
      ensures udhaar == old(udhaar) && nextUdhaarId == old(nextUdhaarId) && deposits == old(deposits)
    {
      var n := GetNextInvoiceNumber("purchase", dbError);
      id := PurchaseId(n, yymm);
    }

    /** generate_udhaar_invoice_id. */
    method GenerateUdhaarInvoiceId(yymm: string, dbError: bool) returns (id: string)
      requires Valid()
      modifies this
      ensures Valid()
      ensures id == UdhaarId(if dbError then -1 else Bumped(snapshot, old(counters), "udhaar_deposit"), yymm)
      ensures counters == if dbError then old(counters)
                          else old(counters)["udhaar_deposit" := Bumped(snapshot, old(counters), "udhaar_deposit")]
      ensures customers == old(customers) && nextCustomerId == old(nextCustomerId) && sales == old(sales)
      ensures saleItems == old(saleItems) && purchases == old(purchases) && purchaseItems == old(purchaseItems)
      ensures udhaar == old(udhaar) && nextUdhaarId == old(nextUdhaarId) && deposits == old(deposits)
    {
      var n := GetNextInvoiceNumber("udhaar_deposit", dbError);
      id := UdhaarId(n, yymm);
    }

    /**
     * The inserts save_sale makes once its checks pass and the invoice id is
     * known: the header (a duplicate id raises and rolls back), the items
     * (a missing purity raises and rolls back), and a receivable when the
     * snapshot's rule says so.
     */
    method InsertSale(inv: InvoiceId, s: Sale, items: seq<ItemIn>) returns (ok: bool)
      requires Valid()
      modifies this
      ensures Valid()
      ensures ok <==> inv !in old(sales) && HasPurity(items)
      ensures ok ==> sales == old(sales)[inv := s]
                     && saleItems == old(saleItems)[inv := (if inv in old(saleItems) then old(saleItems)[inv] else [])
                                                          + StoredAll(items)]
      ensures ok && OpensReceivable(snapshot, s.balance) ==>
        udhaar == old(udhaar) + [PendingRow(old(nextUdhaarId), inv, s.customer, s.balance)]
        && nextUdhaarId == old(nextUdhaarId) + 1
      ensures !(ok && OpensReceivable(snapshot, s.balance)) ==> udhaar == old(udhaar) && nextUdhaarId == old(nextUdhaarId)
      ensures !ok ==> sales == old(sales) && saleItems == old(saleItems)
      ensures customers == old(customers) && nextCustomerId == old(nextCustomerId) && counters == old(counters)
      ensures purchases == old(purchases) && purchaseItems == old(purchaseItems) && deposits == old(deposits)
    {
      if inv in sales {
        return false;
      }
      var rows := InsertItems(items);
      if rows.None? {
        return false;
      }
      var before := if inv in saleItems then saleItems[inv] else [];
      sales := sales[inv := s];
      saleItems := saleItems[inv := before + rows.value];
      if OpensReceivable(snapshot, s.balance) {
        OpenReceivable(inv, s.customer, s.balance);
      }
      ok := true;
    }

    /** The `udhaar` insert of save_sale: a new row, with the next id, for the unpaid balance. */
    method OpenReceivable(inv: InvoiceId, customer: int, balance: real)
      requires Valid() && OpensReceivable(snapshot, balance)
      modifies this
      ensures Valid()
      ensures udhaar == old(udhaar) + [PendingRow(old(nextUdhaarId), inv, customer, balance)]
      ensures nextUdhaarId == old(nextUdhaarId) + 1
      ensures sales == old(sales) && saleItems == old(saleItems)
      ensures customers == old(customers) && nextCustomerId == old(nextCustomerId) && counters == old(counters)
      ensures purchases == old(purchases) && purchaseItems == old(purchaseItems) && deposits == old(deposits)
    {
      RowsOkAppend(snapshot, udhaar, nextUdhaarId, PendingRow(nextUdhaarId, inv, customer, balance));
      udhaar := udhaar + [PendingRow(nextUdhaarId, inv, customer, balance)];
      nextUdhaarId := nextUdhaarId + 1;
    }

    /**
     * save_sale of app.py: the invoice id is the caller's.  `None` when a
     * check fails or an insert raises; everything is then rolled back.
     */
    method SaveSale(inv: InvoiceId, customer: int, total: real, cheque: real, online: real, upi: real,
                    cash: real, oldGold: real, balance: real, mode: string, info: string, saleDate: string,
                    items: seq<ItemIn>)
      returns (r: Option<InvoiceId>)
      requires Valid() && snapshot == Main
      modifies this
      ensures Valid()
      ensures r.Some? <==> SaleInputOk(customer, total, items) && inv !in old(sales) && HasPurity(items)
      ensures r.Some? ==> r.value == inv
                          && sales == old(sales)[inv := Sale(customer, total, cheque, online, upi, cash, oldGold,
                                                             balance, mode, info, saleDate)]
                          && saleItems == old(saleItems)[inv := (if inv in old(saleItems) then old(saleItems)[inv] else [])
                                                                + StoredAll(items)]
      ensures r.Some? && balance != 0.0 ==>
        udhaar == old(udhaar) + [PendingRow(old(nextUdhaarId), inv, customer, balance)]
        && nextUdhaarId == old(nextUdhaarId) + 1
      ensures r.None? || balance == 0.0 ==> udhaar == old(udhaar) && nextUdhaarId == old(nextUdhaarId)
      ensures r.None? ==> sales == old(sales) && saleItems == old(saleItems)
      ensures customers == old(customers) && nextCustomerId == old(nextCustomerId)
      ensures counters == old(counters) && deposits == old(deposits)
      ensures purchases == old(purchases) && purchaseItems == old(purchaseItems)
    {
      if !SaleInputOk(customer, total, items) {
        return None;
      }
      var ok := InsertSale(inv, Sale(customer, total, cheque, online, upi, cash, oldGold, balance, mode, info, saleDate), items);
      r := if ok then Some(inv) else None;
    }

    /**
     * save_sale of the April snapshot: once the checks pass, the id is drawn
     * from the sales counter by the first item's metal (the number stays
     * used even if an insert then fails), and a receivable is opened only
     * for a positive balance.  On a counter error the sale is saved under
     * "INV-ERROR", except for Silver, whose id is NULL: the header takes it,
     * but the first item row cannot (its invoice id is NOT NULL), so all is
     * rolled back.
     */
    method SaveSaleApril(customer: int, total: real, oldGold: real, balance: real, mode: string, info: string,
                         items: seq<ItemIn>, yymm: string, dbError: bool)
      returns (r: Option<InvoiceId>)
      requires Valid() && snapshot == April19
      modifies this
      ensures Valid()
      ensures !SaleInputOk(customer, total, items) ==>
        r.None? && counters == old(counters) && sales == old(sales) && udhaar == old(udhaar)
      ensures r.None? ==> sales == old(sales) && saleItems == old(saleItems)
      ensures SaleInputOk(customer, total, items) ==>
        var n := Bumped(April19, old(counters), "sales");
        var id := SalesId(April19, items[0].metal, if dbError then -1 else n, yymm);
        && counters == (if dbError then old(counters) else old(counters)["sales" := n])
        && (r.Some? <==> id.Some? && id.value !in old(sales) && HasPurity(items))
        && (r.Some? ==> r.value == id.value
                        && sales == old(sales)[id.value := Sale(customer, total, 0.0, 0.0, 0.0, 0.0, oldGold,
                                                                balance, mode, info, "")]
                        && saleItems == old(saleItems)[id.value := (if id.value in old(saleItems)
                                                                    then old(saleItems)[id.value] else [])
                                                                   + StoredAll(items)])
        && (r.Some? && balance > 0.0 ==>
              udhaar == old(udhaar) + [PendingRow(old(nextUdhaarId), id.value, customer, balance)]
              && nextUdhaarId == old(nextUdhaarId) + 1)
        && (r.None? || balance <= 0.0 ==> udhaar == old(udhaar) && nextUdhaarId == old(nextUdhaarId))
      ensures !SaleInputOk(customer, total, items) ==> nextUdhaarId == old(nextUdhaarId)
      ensures customers == old(customers) && nextCustomerId == old(nextCustomerId) && deposits == old(deposits)
      ensures purchases == old(purchases) && purchaseItems == old(purchaseItems)
    {
      if !SaleInputOk(customer, total, items) {
        return None;
      }
      var id := GenerateSalesInvoiceId(items[0].metal, yymm, dbError);
      if id.None? {
        return None;
      }
      var ok := InsertSale(id.value, Sale(customer, total, 0.0, 0.0, 0.0, 0.0, oldGold, balance, mode, info, ""), items);
      r := if ok then Some(id.value) else None;
    }

    /**
     * The writes of save_udhaar_deposit once its checks pass and the
     * deposit id is known: the deposit row (a duplicate id raises and rolls
     * back), then the receivable's rows.
     */
    method InsertDeposit(depositId: InvoiceId, sell: InvoiceId, customer: int, amount: real, mode: string, info: string)
      returns (ok: bool)
      requires Valid() && DepositAllowed(udhaar, sell, customer, amount)
      modifies this
      ensures Valid()
      ensures ok <==> depositId !in old(deposits)
      ensures ok ==> deposits == old(deposits)[depositId := DepositRow(old(udhaar), sell, customer, amount, mode, info)]
                     && udhaar == Deposited(old(udhaar), sell, customer, amount)
      ensures !ok ==> deposits == old(deposits) && udhaar == old(udhaar)
      ensures customers == old(customers) && nextCustomerId == old(nextCustomerId) && counters == old(counters)
      ensures sales == old(sales) && saleItems == old(saleItems) && purchases == old(purchases)
      ensures purchaseItems == old(purchaseItems) && nextUdhaarId == old(nextUdhaarId)
    {
      if depositId in deposits {
        return false;
      }
      RowsOkDeposited(snapshot, udhaar, nextUdhaarId, sell, customer, amount);
      deposits := deposits[depositId := DepositRow(udhaar, sell, customer, amount, mode, info)];
      udhaar := Deposited(udhaar, sell, customer, amount);
      ok := true;
    }

    /**
     * save_udhaar_deposit of app.py: the deposit id is the caller's.  It
     * needs a sell invoice, a customer and a positive amount, a pending row
     * of that invoice and customer, and an amount no larger than what the
     * row says is pending.
     */
    method SaveUdhaarDeposit(depositId: InvoiceId, sell: InvoiceId, customer: int, amount: real,
                             mode: string, info: string)
      returns (r: Option<InvoiceId>)
      requires Valid() && snapshot == Main
      modifies this
      ensures Valid()
      ensures r.Some? <==> DepositAllowed(old(udhaar), sell, customer, amount) && depositId !in old(deposits)
      ensures r.Some? ==> r.value == depositId
                          && deposits == old(deposits)[depositId := DepositRow(old(udhaar), sell, customer, amount, mode, info)]
                          && udhaar == Deposited(old(udhaar), sell, customer, amount)
      ensures r.None? ==> deposits == old(deposits) && udhaar == old(udhaar)
      ensures counters == old(counters)
      ensures customers == old(customers) && nextCustomerId == old(nextCustomerId) && sales == old(sales)
      ensures saleItems == old(saleItems) && purchases == old(purchases) && purchaseItems == old(purchaseItems)
      ensures nextUdhaarId == old(nextUdhaarId)
    {
      if !DepositAllowed(udhaar, sell, customer, amount) {
        return None;
      }
      var ok := InsertDeposit(depositId, sell, customer, amount, mode, info);
      r := if ok then Some(depositId) else None;
    }

    /**
     * save_udhaar_deposit of the April snapshot: the same checks, then the
     * deposit id is drawn from the deposit counter; on a counter error the
     * deposit is saved under "UD-ERROR".
     */
    method SaveUdhaarDepositApril(sell: InvoiceId, customer: int, amount: real, mode: string, info: string,
                                  yymm: string, dbError: bool)
      returns (r: Option<InvoiceId>)
      requires Valid() && snapshot == April19
      modifies this
      ensures Valid()
      ensures !DepositAllowed(old(udhaar), sell, customer, amount) ==>
        r.None? && counters == old(counters) && deposits == old(deposits) && udhaar == old(udhaar)
      ensures DepositAllowed(old(udhaar), sell, customer, amount) ==>
        var n := Bumped(April19, old(counters), "udhaar_deposit");
        var id := UdhaarId(if dbError then -1 else n, yymm);
        && counters == (if dbError then old(counters) else old(counters)["udhaar_deposit" := n])
        && (r.Some? <==> id !in old(deposits))
        && (r.Some? ==> r.value == id
                        && deposits == old(deposits)[id := DepositRow(old(udhaar), sell, customer, amount, mode, info)]
                        && udhaar == Deposited(old(udhaar), sell, customer, amount))
        && (r.None? ==> deposits == old(deposits) && udhaar == old(udhaar))
      ensures customers == old(customers) && nextCustomerId == old(nextCustomerId) && sales == old(sales)
      ensures saleItems == old(saleItems) && purchases == old(purchases) && purchaseItems == old(purchaseItems)
      ensures nextUdhaarId == old(nextUdhaarId)
    {
      if !DepositAllowed(udhaar, sell, customer, amount) {
        return None;
      }
      var id := GenerateUdhaarInvoiceId(yymm, dbError);
      var ok := InsertDeposit(id, sell, customer, amount, mode, info);
      r := if ok then Some(id) else None;
    }

    /**
     * delete_bill: once the bill is found, the rows of that invoice id go
     * from all the tables, and no balance is given back anywhere.
     */
    method DeleteBill(inv: InvoiceId) returns (deleted: bool)
      requires Valid()
      modifies this
      ensures Valid()
      ensures deleted <==> BillFound(snapshot, inv, inv in old(sales), inv in old(purchases), inv in old(deposits))
      ensures deleted ==>
        && sales == old(sales) - {inv} && saleItems == old(saleItems) - {inv}
        && purchases == old(purchases) - {inv} && purchaseItems == old(purchaseItems) - {inv}
        && udhaar == Dropped(old(udhaar), BySell(inv))
        && deposits == DepositsKept(snapshot, old(deposits), inv)
      ensures !deleted ==> sales == old(sales) && saleItems == old(saleItems) && purchases == old(purchases)
                           && purchaseItems == old(purchaseItems) && udhaar == old(udhaar) && deposits == old(deposits)
      ensures customers == old(customers) && nextCustomerId == old(nextCustomerId) && counters == old(counters)
      ensures nextUdhaarId == old(nextUdhaarId)
    {
      if !BillFound(snapshot, inv, inv in sales, inv in purchases, inv in deposits) {
        return false;
      }
      sales := sales - {inv};
      saleItems := saleItems - {inv};
      purchases := purchases - {inv};
      purchaseItems := purchaseItems - {inv};
      DropReceivable(inv);
      deleted := true;
    }

    /** The `udhaar` and deposit deletes of delete_bill. */
    method DropReceivable(inv: InvoiceId)
      requires Valid()
      modifies this
      ensures Valid()
      ensures udhaar == Dropped(old(udhaar), BySell(inv)) && deposits == DepositsKept(snapshot, old(deposits), inv)
      ensures sales == old(sales) && saleItems == old(saleItems)
      ensures purchases == old(purchases) && purchaseItems == old(purchaseItems)
      ensures customers == old(customers) && nextCustomerId == old(nextCustomerId) && counters == old(counters)
      ensures nextUdhaarId == old(nextUdhaarId)
    {
      RowsOkDropped(snapshot, udhaar, nextUdhaarId, BySell(inv));
      DepositsOkKept(snapshot, deposits, inv);
      udhaar := Dropped(udhaar, BySell(inv));
      deposits := DepositsKept(snapshot, deposits, inv);
    }

    /**
     * delete_udhaar_bill of app.py: the deposit's amount goes back onto its
     * receivable.  `false`, with nothing changed, when the deposit is
     * unknown or its receivable has no row left.
     */
    method DeleteUdhaarBill(depositId: InvoiceId) returns (ok: bool)
      requires Valid() && snapshot == Main
      modifies this
      ensures Valid()
      ensures ok <==> depositId in old(deposits)
                      && Reinstated(old(udhaar), old(deposits)[depositId].sellInvoice, old(deposits)[depositId].amount).Some?
      ensures ok ==> deposits == old(deposits) - {depositId}
                     && Some(udhaar) == Reinstated(old(udhaar), old(deposits)[depositId].sellInvoice,
                                                   old(deposits)[depositId].amount)
      ensures !ok ==> deposits == old(deposits) && udhaar == old(udhaar)
      ensures customers == old(customers) && nextCustomerId == old(nextCustomerId) && counters == old(counters)
      ensures sales == old(sales) && saleItems == old(saleItems)
      ensures purchases == old(purchases) && purchaseItems == old(purchaseItems)
      ensures nextUdhaarId == old(nextUdhaarId)
    {
      if depositId !in deposits {
        return false;
      }
      var d := deposits[depositId];
      var back := Reinstated(udhaar, d.sellInvoice, d.amount);
      if back.None? {
        return false;
      }
      RowsOkReinstated(snapshot, udhaar, nextUdhaarId, d.sellInvoice, d.amount);
      deposits := deposits - {depositId};
      udhaar := back.value;
      ok := true;
    }
  }

  /**
   * In app.py, deleting a deposit's own bill with delete_bill gives nothing
   * back to its receivable (unlike delete_udhaar_bill): when no receivable
   * row carries the deposit id as its sell invoice, `udhaar` is unchanged.
   */
  lemma DepositBillDeletionKeepsPending(rows: seq<PendingRow>, depositId: InvoiceId)
    requires forall i :: 0 <= i < |rows| ==> rows[i].sellInvoice != depositId
    ensures Dropped(rows, BySell(depositId)) == rows
  {
    DroppedNothing(rows, BySell(depositId));
  }
}
