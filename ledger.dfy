/**
 * The two credit ledgers of the shop: `udhaar` (what customers owe on sale
 * bills, keyed by sale invoice) and `purchase_udhaar` (what the shop owes
 * suppliers, keyed by purchase invoice).  Both tables have the same row
 * shape, so one row type and one set of row transitions serve both.  The
 * functions here are the specifications that the state-changing methods of
 * `Store.Database` are proved against.
 */
module Ledger {
  import opened Money

  type InvoiceId = string

  /** The `status` column: 'pending', 'partially_paid' or 'paid'. */
  datatype Status = Pending | PartiallyPaid | Paid

  /**
   * One ledger row: its AUTOINCREMENT id, the customer (or supplier) it is
   * owed by (or to), the balance it was opened with and the balance now.
   */
  datatype Row = Row(id: nat, party: int, initial: real, current: real, status: Status)

  /** One row of `udhaar_transactions` / `purchase_udhaar_transactions`. */
  datatype Txn = Txn(rowId: nat, amount: real, mode: string, info: string)

  type Table = map<InvoiceId, Row>

  /** The status given to a freshly computed balance: pending while something is owed. */
  function Settled(balance: real): (s: Status)
    ensures s == Pending <==> balance > 0.0
    ensures s != PartiallyPaid
  {
    if balance > 0.0 then Pending else Paid
  }

  // ---------------------------------------------------------------- rows

  /**
   * A payment against a row, clamped at zero (update_udhaar_balance,
   * update_purchase_udhaar and the receivable step of save_udhaar_deposit).
   */
  function Pay(r: Row, amount: real): (p: Row)
    ensures p.id == r.id && p.party == r.party && p.initial == r.initial
    ensures p.current >= 0.0 && p.current >= r.current - amount
    ensures p.current == r.current - amount || p.current == 0.0
    ensures p.status == Paid <==> p.current == 0.0
    ensures p.status != Pending
  {
    var left := r.current - amount;
    if left <= 0.0 then r.(current := 0.0, status := Paid)
    else r.(current := left, status := PartiallyPaid)
  }

  /** A payment takes off the whole amount, or the whole balance when it is smaller. */
  lemma PayAbsorbs(r: Row, amount: real)
    requires r.current >= 0.0 && amount >= 0.0
    ensures r.current - Pay(r, amount).current == Min(amount, r.current)
  {
  }

  /** Deleting a deposit gives its amount back (delete_udhaar_deposit_and_reverse). */
  function Restore(r: Row, amount: real): (p: Row)
    ensures p.id == r.id && p.party == r.party && p.initial == r.initial
    ensures p.current - r.current == amount
    ensures p.status == Settled(p.current)
  {
    var back := r.current + amount;
    r.(current := back, status := Settled(back))
  }

  /** First step of editing a deposit: the old amount goes back and the row is reopened. */
  function Reopen(r: Row, amount: real): (p: Row)
    ensures p.id == r.id && p.party == r.party && p.initial == r.initial
    ensures p.current - r.current == amount && p.status == Pending
  {
    r.(current := r.current + amount, status := Pending)
  }

  /** Last step of editing a deposit: the new amount comes off, without a floor. */
  function Deduct(r: Row, amount: real): (p: Row)
    ensures p.id == r.id && p.party == r.party && p.initial == r.initial
    ensures r.current - p.current == amount
    ensures p.status == Settled(p.current)
  {
    var left := r.current - amount;
    r.(current := left, status := Settled(left))
  }

  /** A row as inserted for a new bill with an outstanding balance. */
  function Opened(id: nat, party: int, balance: real): (p: Row)
    ensures p.id == id && p.party == party
    ensures p.initial == balance && p.current == balance && p.status == Pending
  {
    Row(id, party, balance, balance, Pending)
  }

  /**
   * update_sale_bill: the row is re-pointed at the (possibly new) customer and
   * both balances are set to the recomputed pending amount.  The status
   * chain is kept as written, including its middle test of a value against
   * itself.
   */
  function Reset(r: Row, party: int, balance: real): (p: Row)
    ensures p.id == r.id && p.party == party
    ensures p.initial == balance && p.current == balance
  {
    var status := if balance <= 0.0 then Paid else if balance < balance then PartiallyPaid else Pending;
    r.(party := party, initial := balance, current := balance, status := status)
  }

  /** The 'partially_paid' branch of update_sale_bill is dead: an edited bill is pending or paid. */
  lemma ResetNeverPartial(r: Row, party: int, balance: real)
    ensures Reset(r, party, balance).status == Settled(balance)
  {
  }

  /** update_purchase_bill on an existing payable: new balance, opening balance kept. */
  function Rebalance(r: Row, balance: real): (p: Row)
    ensures p.id == r.id && p.party == r.party && p.initial == r.initial
    ensures p.current == balance && p.status == Settled(balance)
  {
    r.(current := balance, status := Settled(balance))
  }

  /** save_purchase on an invoice that already has a payable: the balance is added on top. */
  function Accrue(r: Row, amount: real): (p: Row)
    ensures p.id == r.id && p.party == r.party && p.initial == r.initial && p.status == r.status
    ensures p.current - r.current == amount
  {
    r.(current := r.current + amount)
  }

  // ---------------------------------------------------------------- tables

  /** Every balance in the table is non-negative. */
  ghost predicate NonNegative(t: Table)
  {
    forall k :: k in t ==> t[k].current >= 0.0
  }

  /**
   * The row a deposit for (invoice, customer) is applied to:
   * `WHERE sell_invoice_id = ? AND customer_id = ?` with a non-empty invoice.
   */
  predicate Linked(t: Table, inv: InvoiceId, party: int)
  {
    inv != "" && inv in t && t[inv].party == party
  }

  /** Every row present before and after keeps its id. */
  predicate KeepsIds(t: Table, u: Table)
  {
    forall k :: k in t && k in u ==> u[k].id == t[k].id
  }

  /** The receivable after save_udhaar_deposit has applied a deposit. */
  function ApplyDeposit(t: Table, inv: InvoiceId, party: int, amount: real): (u: Table)
    ensures KeepsIds(t, u)
    ensures u.Keys == t.Keys
    ensures forall k :: k in t && k != inv ==> u[k] == t[k]
    ensures Linked(t, inv, party) ==> u[inv] == Pay(t[inv], amount)
    ensures !Linked(t, inv, party) ==> u == t
  {
    if Linked(t, inv, party) then t[inv := Pay(t[inv], amount)] else t
  }

  /**
   * The receivable after delete_udhaar_deposit_and_reverse: the amount goes
   * back onto the row of the sale (found by invoice alone), or a new pending
   * row is opened for it when that row is gone.
   */
  function ReverseDeposit(t: Table, inv: InvoiceId, party: int, amount: real, freshId: nat): (u: Table)
    ensures KeepsIds(t, u)
    ensures inv != "" ==> u.Keys == t.Keys + {inv}
    ensures inv == "" ==> u == t
    ensures forall k :: k in t && k != inv ==> u[k] == t[k]
    ensures inv != "" && inv in t ==> u[inv] == Restore(t[inv], amount)
    ensures inv != "" && inv !in t ==> u[inv] == Opened(freshId, party, amount)
  {
    if inv == "" then t
    else if inv in t then t[inv := Restore(t[inv], amount)]
    else t[inv := Opened(freshId, party, amount)]
  }

  /**
   * Deleting a deposit undoes saving it: when the deposit did not exceed the
   * balance, the row comes back with its old balance, marked pending.
   */
  lemma DepositThenDeleteRestores(t: Table, inv: InvoiceId, party: int, amount: real, freshId: nat)
    requires Linked(t, inv, party) && 0.0 < amount <= t[inv].current
    ensures ReverseDeposit(ApplyDeposit(t, inv, party, amount), inv, party, amount, freshId)
         == t[inv := t[inv].(status := Pending)]
  {
    var u := ApplyDeposit(t, inv, party, amount);
    assert u[inv].current == t[inv].current - amount;
  }

  /**
   * A deposit larger than the balance (allowed when it is linked to a purchase)
   * is clamped on the way in but restored in full on the way out.
   */
  lemma OverpaidDepositIsNotRestored(t: Table, inv: InvoiceId, party: int, amount: real, freshId: nat)
    requires Linked(t, inv, party) && 0.0 <= t[inv].current < amount
    ensures ReverseDeposit(ApplyDeposit(t, inv, party, amount), inv, party, amount, freshId)[inv].current
         == amount > t[inv].current
  {
  }

  /** Applying and reversing deposits keep every balance non-negative. */
  lemma DepositsKeepNonNegative(t: Table, inv: InvoiceId, party: int, amount: real, freshId: nat)
    requires NonNegative(t) && amount > 0.0
    ensures NonNegative(ApplyDeposit(t, inv, party, amount))
    ensures NonNegative(ReverseDeposit(t, inv, party, amount, freshId))
  {
  }

  /**
   * The receivable after update_udhaar_deposit: the old amount is given back to
   * the old (invoice, customer) row, then the new amount is taken off the new
   * (invoice, customer) row.
   */
  function RelinkDeposit(t: Table, oldInv: InvoiceId, oldParty: int, oldAmount: real,
                         newInv: InvoiceId, newParty: int, newAmount: real): (u: Table)
    ensures KeepsIds(t, u)
    ensures u.Keys == t.Keys
    ensures forall k :: k in t && k != oldInv && k != newInv ==> u[k] == t[k]
    // two different invoices: each step acts on its own row, or leaves it alone when unlinked
    ensures oldInv != newInv && Linked(t, oldInv, oldParty) ==> u[oldInv] == Reopen(t[oldInv], oldAmount)
    ensures oldInv != newInv && !Linked(t, oldInv, oldParty) && oldInv in t ==> u[oldInv] == t[oldInv]
    ensures oldInv != newInv && Linked(t, newInv, newParty) ==> u[newInv] == Deduct(t[newInv], newAmount)
    ensures oldInv != newInv && !Linked(t, newInv, newParty) && newInv in t ==> u[newInv] == t[newInv]
    // the same invoice: the reopen and the deduction apply one after the other
    ensures oldInv == newInv && Linked(t, oldInv, oldParty) && Linked(t, newInv, newParty) ==>
      u[oldInv] == Deduct(Reopen(t[oldInv], oldAmount), newAmount)
    ensures oldInv == newInv && Linked(t, oldInv, oldParty) && !Linked(t, newInv, newParty) ==>
      u[oldInv] == Reopen(t[oldInv], oldAmount)
    ensures oldInv == newInv && !Linked(t, oldInv, oldParty) && Linked(t, newInv, newParty) ==>
      u[oldInv] == Deduct(t[oldInv], newAmount)
    ensures oldInv == newInv && !Linked(t, oldInv, oldParty) && !Linked(t, newInv, newParty) ==> u == t
  {
    var t1 := if Linked(t, oldInv, oldParty) then t[oldInv := Reopen(t[oldInv], oldAmount)] else t;
    if Linked(t1, newInv, newParty) then t1[newInv := Deduct(t1[newInv], newAmount)] else t1
  }

  /** Re-saving a deposit unchanged leaves the balance where it was. */
  lemma RelinkUnchangedKeepsBalance(t: Table, inv: InvoiceId, party: int, amount: real)
    requires Linked(t, inv, party)
    ensures var u := RelinkDeposit(t, inv, party, amount, inv, party, amount);
      u[inv].current == t[inv].current && u[inv].status == Settled(t[inv].current)
  {
  }

  /** Moving a deposit to another bill gives it back to the first and takes it off the second. */
  lemma RelinkMoves(t: Table, inv1: InvoiceId, inv2: InvoiceId, party: int, a1: real, a2: real)
    requires Linked(t, inv1, party) && Linked(t, inv2, party) && inv1 != inv2
    ensures var u := RelinkDeposit(t, inv1, party, a1, inv2, party, a2);
      u[inv1].current == t[inv1].current + a1 && u[inv2].current == t[inv2].current - a2
  {
  }

  /** Unlike saving a deposit, editing one can drive a balance below zero. */
  lemma RelinkCanGoNegative()
    ensures var t := map["SAL-2025-00001" := Opened(1, 7, 100.0)];
      NonNegative(t) && RelinkDeposit(t, "", 7, 0.0, "SAL-2025-00001", 7, 150.0)["SAL-2025-00001"].current == -50.0
  {
  }

  /** The receivable after save_sale: a balance other than zero opens a pending row. */
  function OpenSaleBalance(t: Table, inv: InvoiceId, party: int, balance: real, freshId: nat): (u: Table)
    ensures inv !in t ==> KeepsIds(t, u)
    ensures balance != 0.0 ==> u == t[inv := Opened(freshId, party, balance)]
    ensures balance == 0.0 ==> u == t
  {
    if balance != 0.0 then t[inv := Opened(freshId, party, balance)] else t
  }

  /**
   * The receivable after update_sale_bill: an existing row (found by invoice
   * alone) takes the recomputed balance and customer; otherwise a positive
   * balance opens a row.
   */
  function ResetSaleBalance(t: Table, inv: InvoiceId, party: int, pending: real, freshId: nat): (u: Table)
    ensures KeepsIds(t, u)
    ensures forall k :: k in t && k != inv ==> k in u && u[k] == t[k]
    ensures inv in u <==> inv in t || pending > 0.0
    ensures inv in u ==> u[inv].current == pending && u[inv].initial == pending && u[inv].party == party
  {
    if inv in t then t[inv := Reset(t[inv], party, pending)]
    else if pending > 0.0 then t[inv := Opened(freshId, party, pending)]
    else t
  }

  /** Submitting the same sale edit twice changes nothing the second time. */
  lemma ResetSaleBalanceIdempotent(t: Table, inv: InvoiceId, party: int, pending: real, id1: nat, id2: nat)
    ensures var u := ResetSaleBalance(t, inv, party, pending, id1);
      ResetSaleBalance(u, inv, party, pending, id2) == u
  {
  }

  /** The payable after save_purchase: a positive balance is added to the invoice's row or opens one. */
  function AddPurchaseBalance(t: Table, inv: InvoiceId, party: int, balance: real, freshId: nat): (u: Table)
    ensures KeepsIds(t, u)
    ensures forall k :: k in t && k != inv ==> k in u && u[k] == t[k]
    ensures balance <= 0.0 ==> u == t
    ensures balance > 0.0 ==> inv in u && u[inv].current == (if inv in t then t[inv].current else 0.0) + balance
  {
    if balance <= 0.0 then t
    else if inv in t then t[inv := Accrue(t[inv], balance)]
    else t[inv := Opened(freshId, party, balance)]
  }

  /**
   * The payable after update_purchase_bill: a non-zero balance is written to
   * the invoice's row (or a new one); a zero balance removes the row only if
   * it no longer shows anything owed.
   */
  function RebalancePurchase(t: Table, inv: InvoiceId, party: int, balance: real, freshId: nat): (u: Table)
    ensures KeepsIds(t, u)
    ensures forall k :: k in t && k != inv ==> k in u && u[k] == t[k]
    ensures balance != 0.0 ==> inv in u && u[inv].current == balance && u[inv].status == Settled(balance)
    ensures balance == 0.0 ==> (inv in u <==> inv in t && t[inv].current > 0.0)
    ensures inv in u && inv in t ==> u[inv].initial == t[inv].initial && u[inv].party == t[inv].party
  {
    if balance != 0.0 then
      if inv in t then t[inv := Rebalance(t[inv], balance)]
      else t[inv := Row(freshId, party, balance, balance, Settled(balance))]
    else if inv in t && t[inv].current <= 0.0 then t - {inv}
    else t
  }

  /** Submitting the same purchase edit twice changes nothing the second time. */
  lemma RebalancePurchaseIdempotent(t: Table, inv: InvoiceId, party: int, balance: real, id1: nat, id2: nat)
    ensures var u := RebalancePurchase(t, inv, party, balance, id1);
      RebalancePurchase(u, inv, party, balance, id2) == u
  {
  }

  // ---------------------------------------------------------------- totals

  /** What one row contributes to a party's total. */
  function Share(t: Table, k: InvoiceId, party: int): real
    requires k in t
  {
    if t[k].party == party then t[k].current else 0.0
  }

  /** The sum of the party's balances over the rows named by `keys`. */
  ghost function SumOver(t: Table, keys: set<InvoiceId>, party: int): real
    requires keys <= t.Keys
    decreases |keys|
  {
    if keys == {} then 0.0
    else
      var k :| k in keys;
      Share(t, k, party) + SumOver(t, keys - {k}, party)
  }

  /** get_pending_udhaar / get_pending_purchase_udhaar: `SUM(current_balance)` for one party, 0.0 for none. */
  ghost function PendingTotal(t: Table, party: int): real
  {
    SumOver(t, t.Keys, party)
  }

  /** The sum does not depend on which row is taken first. */
  lemma {:induction false} SumOverRemove(t: Table, keys: set<InvoiceId>, party: int, k: InvoiceId)
    requires keys <= t.Keys && k in keys
    ensures SumOver(t, keys, party) == Share(t, k, party) + SumOver(t, keys - {k}, party)
    decreases |keys|
  {
    var j :| j in keys && SumOver(t, keys, party) == Share(t, j, party) + SumOver(t, keys - {j}, party);
    if j != k {
      SumOverRemove(t, keys - {j}, party, k);
      SumOverRemove(t, keys - {k}, party, j);
      assert keys - {j} - {k} == keys - {k} - {j};
    }
  }

  /** Rows outside `keys` do not matter to the sum over `keys`. */
  lemma {:induction false} SumOverFrame(t: Table, u: Table, keys: set<InvoiceId>, party: int)
    requires keys <= t.Keys && keys <= u.Keys
    requires forall k :: k in keys ==> u[k] == t[k]
    ensures SumOver(u, keys, party) == SumOver(t, keys, party)
    decreases |keys|
  {
    if keys != {} {
      var k :| k in keys;
      SumOverRemove(t, keys, party, k);
      SumOverRemove(u, keys, party, k);
      SumOverFrame(t, u, keys - {k}, party);
    }
  }

  /**
   * Changing one row changes the party's pending total by exactly the change
   * in that row's share: a payment of x that is absorbed in full lowers the
   * customer's total by x.
   */
  lemma PendingTotalAfterUpdate(t: Table, k: InvoiceId, r: Row, party: int)
    requires k in t
    ensures PendingTotal(t[k := r], party)
         == PendingTotal(t, party) - Share(t, k, party) + Share(t[k := r], k, party)
  {
    var u := t[k := r];
    assert u.Keys == t.Keys;
    SumOverRemove(t, t.Keys, party, k);
    SumOverRemove(u, u.Keys, party, k);
    SumOverFrame(t, u, t.Keys - {k}, party);
  }

  /** A customer whose balances are all non-negative has a non-negative pending total. */
  lemma {:induction false} SumOverNonNegative(t: Table, keys: set<InvoiceId>, party: int)
    requires keys <= t.Keys && NonNegative(t)
    ensures SumOver(t, keys, party) >= 0.0
    decreases |keys|
  {
    if keys != {} {
      var k :| k in keys;
      SumOverRemove(t, keys, party, k);
      SumOverNonNegative(t, keys - {k}, party);
    }
  }

  /** get_all_pending_udhaar / get_all_pending_purchase_udhaar: the rows with a positive balance. */
  function PendingRows(t: Table): (p: Table)
    ensures forall k :: k in p <==> k in t && t[k].current > 0.0
    ensures forall k :: k in p ==> p[k] == t[k]
  {
    map k | k in t && t[k].current > 0.0 :: t[k]
  }

  /** A payment that covers the balance takes the bill off the pending list; other bills stay. */
  lemma PaidOffLeavesPendingList(t: Table, k: InvoiceId, amount: real)
    requires k in t && amount >= t[k].current
    ensures k !in PendingRows(t[k := Pay(t[k], amount)])
    ensures forall j :: j != k ==> (j in PendingRows(t[k := Pay(t[k], amount)]) <==> j in PendingRows(t))
  {
  }

  // ---------------------------------------------------------------- greedy offset

  /** The balances of the rows named in `order`, added up front to back. */
  function SumAt(t: Table, order: seq<InvoiceId>): real
    requires forall i :: 0 <= i < |order| ==> order[i] in t
  {
    if order == [] then 0.0 else t[order[0]].current + SumAt(t, order[1..])
  }

  predicate Distinct(order: seq<InvoiceId>)
  {
    forall i, j :: 0 <= i < j < |order| ==> order[i] != order[j]
  }

  /**
   * `order` is what save_sale's query returns: the party's rows with a
   * positive balance, each once (the query sorts them oldest first).
   */
  predicate PendingOrder(t: Table, party: int, order: seq<InvoiceId>)
  {
    Distinct(order)
    && (forall i :: 0 <= i < |order| ==> order[i] in t && t[order[i]].party == party && t[order[i]].current > 0.0)
    && (forall k :: k in t && k !in order && t[k].party == party ==> t[k].current <= 0.0)
  }

  /**
   * save_sale's offset of a purchase credit against a supplier's payables:
   * the rows are taken oldest first, each paid `min(remaining, balance)`,
   * until nothing remains.
   */
  function Greedy(t: Table, order: seq<InvoiceId>, remaining: real): (u: Table)
    requires forall i :: 0 <= i < |order| ==> order[i] in t
    ensures KeepsIds(t, u)
    ensures u.Keys == t.Keys
    decreases |order|
  {
    if order == [] || remaining <= 0.0 then t
    else
      var k := order[0];
      var take := Min(remaining, t[k].current);
      Greedy(t[k := Pay(t[k], take)], order[1..], remaining - take)
  }

  /** The transactions logged by the offset, one per row paid. */
  function GreedyLog(t: Table, order: seq<InvoiceId>, remaining: real): seq<Txn>
    requires forall i :: 0 <= i < |order| ==> order[i] in t
    decreases |order|
  {
    if order == [] || remaining <= 0.0 then []
    else
      var k := order[0];
      var take := Min(remaining, t[k].current);
      [Txn(t[k].id, take, "Adjustment (Sale)", "Adjusted against sale invoice")]
        + GreedyLog(t[k := Pay(t[k], take)], order[1..], remaining - take)
  }

  /** What is left of the credit once the offset has run. */
  function GreedyLeft(t: Table, order: seq<InvoiceId>, remaining: real): real
    requires forall i :: 0 <= i < |order| ==> order[i] in t
    decreases |order|
  {
    if order == [] || remaining <= 0.0 then remaining
    else
      var k := order[0];
      var take := Min(remaining, t[k].current);
      GreedyLeft(t[k := Pay(t[k], take)], order[1..], remaining - take)
  }

  /**
   * One step of the greedy pass: the first row is paid
   * `take = min(remaining, balance)`, giving `u`, and the pass goes on over `rest`.
   */
  lemma GreedyUnfold(t: Table, order: seq<InvoiceId>, remaining: real, take: real, u: Table, rest: seq<InvoiceId>)
    requires forall i :: 0 <= i < |order| ==> order[i] in t
    requires order != [] && remaining > 0.0 && rest == order[1..]
    requires take == Min(remaining, t[order[0]].current) && u == t[order[0] := Pay(t[order[0]], take)]
    ensures Greedy(t, order, remaining) == Greedy(u, rest, remaining - take)
    ensures GreedyLog(t, order, remaining)
            == [Txn(t[order[0]].id, take, "Adjustment (Sale)", "Adjusted against sale invoice")] + GreedyLog(u, rest, remaining - take)
    ensures GreedyLeft(t, order, remaining) == GreedyLeft(u, rest, remaining - take)
  {
  }

  lemma AppendAssociates<T>(a: seq<T>, b: seq<T>, c: seq<T>)
    ensures a + b + c == a + (b + c)
  {
  }

  /**
   * Where the offset loop stands after the first `i` rows of `order`, with
   * `remaining` still to apply, starting from the payables `p0` and their
   * log `log0`: the rows not yet reached hold the balances the query read,
   * and finishing the greedy pass from here gives what one pass over the
   * whole order gives.
   */
  ghost predicate OffsetProgress(p0: Table, log0: seq<Txn>, p: Table, log: seq<Txn>, order: seq<InvoiceId>,
                                 applied: real, i: nat, remaining: real)
  {
    && i <= |order|
    && (forall j :: 0 <= j < |order| ==> order[j] in p0)
    && p.Keys == p0.Keys
    && (forall j :: i <= j < |order| ==> p[order[j]] == p0[order[j]])
    && Greedy(p, order[i..], remaining) == Greedy(p0, order, applied)
    && log + GreedyLog(p, order[i..], remaining) == log0 + GreedyLog(p0, order, applied)
    && GreedyLeft(p, order[i..], remaining) == GreedyLeft(p0, order, applied)
  }

  lemma OffsetProgressStarts(p0: Table, log0: seq<Txn>, order: seq<InvoiceId>, applied: real)
    requires forall j :: 0 <= j < |order| ==> order[j] in p0
    ensures OffsetProgress(p0, log0, p0, log0, order, applied, 0, applied)
  {
    assert order[0..] == order;
  }

  /** One row paid `min(remaining, balance)`, and its log row, keep the loop on the greedy pass. */
  lemma OffsetProgressStep(p0: Table, log0: seq<Txn>, p: Table, log: seq<Txn>, order: seq<InvoiceId>,
                           applied: real, i: nat, remaining: real, amount: real, p': Table, log': seq<Txn>)
    requires OffsetProgress(p0, log0, p, log, order, applied, i, remaining)
    requires Distinct(order) && i < |order| && remaining > 0.0
    requires amount == Min(remaining, p0[order[i]].current)
    requires order[i] in p && p' == p[order[i] := Pay(p[order[i]], amount)]
    requires log' == log + [Txn(p[order[i]].id, amount, "Adjustment (Sale)", "Adjusted against sale invoice")]
    ensures OffsetProgress(p0, log0, p', log', order, applied, i + 1, remaining - amount)
  {
    var k := order[i];
    var txn := Txn(p[k].id, amount, "Adjustment (Sale)", "Adjusted against sale invoice");
    assert p[k] == p0[k];
    assert forall j :: i + 1 <= j < |order| ==> p'[order[j]] == p[order[j]] by {
      forall j | i + 1 <= j < |order|
        ensures p'[order[j]] == p[order[j]]
      {
        assert order[j] != k;
      }
    }
    assert order[i..][1..] == order[i + 1..];
    GreedyUnfold(p, order[i..], remaining, amount, p', order[i + 1..]);
    AppendAssociates(log, [txn], GreedyLog(p', order[i + 1..], remaining - amount));
  }

  /** When the loop stops, the payables and their log are the greedy pass's, and `remaining` is what it left over. */
  lemma OffsetProgressDone(p0: Table, log0: seq<Txn>, p: Table, log: seq<Txn>, order: seq<InvoiceId>,
                           applied: real, i: nat, remaining: real)
    requires OffsetProgress(p0, log0, p, log, order, applied, i, remaining)
    requires i == |order| || remaining <= 0.0
    ensures p == Greedy(p0, order, applied)
    ensures log == log0 + GreedyLog(p0, order, applied)
    ensures remaining == GreedyLeft(p0, order, applied)
  {
    assert order[i..] == [] || remaining <= 0.0;
  }

  lemma {:induction false} SumAtFrame(t: Table, order: seq<InvoiceId>, k: InvoiceId, r: Row)
    requires forall i :: 0 <= i < |order| ==> order[i] in t
    requires k !in order
    ensures SumAt(t[k := r], order) == SumAt(t, order)
    decreases |order|
  {
    if order != [] {
      SumAtFrame(t, order[1..], k, r);
    }
  }

  lemma {:induction false} GreedyFrame(t: Table, order: seq<InvoiceId>, remaining: real, k: InvoiceId)
    requires forall i :: 0 <= i < |order| ==> order[i] in t
    requires k in t && k !in order
    ensures Greedy(t, order, remaining)[k] == t[k]
    decreases |order|
  {
    if order != [] && remaining > 0.0 {
      var j := order[0];
      var take := Min(remaining, t[j].current);
      GreedyFrame(t[j := Pay(t[j], take)], order[1..], remaining - take, k);
    }
  }

  lemma {:induction false} SumAtPositive(t: Table, order: seq<InvoiceId>)
    requires forall i :: 0 <= i < |order| ==> order[i] in t && t[order[i]].current > 0.0
    ensures SumAt(t, order) >= 0.0
    decreases |order|
  {
    if order != [] {
      SumAtPositive(t, order[1..]);
    }
  }

  /** The offset never drives one of the rows it visits below zero. */
  lemma {:induction false} GreedyKeepsNonNegative(t: Table, order: seq<InvoiceId>, remaining: real)
    requires forall i :: 0 <= i < |order| ==> order[i] in t && t[order[i]].current > 0.0
    requires Distinct(order)
    ensures var u := Greedy(t, order, remaining);
      forall i :: 0 <= i < |order| ==> u[order[i]].current >= 0.0
    decreases |order|
  {
    if order != [] && remaining > 0.0 {
      var k := order[0];
      var rest := order[1..];
      var take := Min(remaining, t[k].current);
      var t1 := t[k := Pay(t[k], take)];
      assert forall i :: 0 <= i < |rest| ==> rest[i] == order[i + 1];
      assert k !in rest;
      GreedyKeepsNonNegative(t1, rest, remaining - take);
      GreedyFrame(t1, rest, remaining - take, k);
      var u := Greedy(t, order, remaining);
      assert u == Greedy(t1, rest, remaining - take);
      forall i | 0 <= i < |order| ensures u[order[i]].current >= 0.0 {
        if i > 0 { assert order[i] == rest[i - 1]; }
      }
    }
  }

  /**
   * The offset takes off exactly `min(credit, total of the rows)`, leaves the
   * rest of the credit over, and never drives a row below zero.
   */
  lemma {:induction false} GreedyDeducts(t: Table, order: seq<InvoiceId>, remaining: real)
    requires forall i :: 0 <= i < |order| ==> order[i] in t && t[order[i]].current > 0.0
    requires Distinct(order) && remaining >= 0.0
    ensures var u := Greedy(t, order, remaining);
      SumAt(u, order) == SumAt(t, order) - Min(remaining, SumAt(t, order))
      && GreedyLeft(t, order, remaining) == remaining - Min(remaining, SumAt(t, order))
      && forall i :: 0 <= i < |order| ==> u[order[i]].current >= 0.0
  {
    GreedyTakesMin(t, order, remaining);
    GreedyKeepsNonNegative(t, order, remaining);
  }

  lemma {:induction false} GreedyTakesMin(t: Table, order: seq<InvoiceId>, remaining: real)
    requires forall i :: 0 <= i < |order| ==> order[i] in t && t[order[i]].current > 0.0
    requires Distinct(order) && remaining >= 0.0
    ensures var u := Greedy(t, order, remaining);
      SumAt(u, order) == SumAt(t, order) - Min(remaining, SumAt(t, order))
      && GreedyLeft(t, order, remaining) == remaining - Min(remaining, SumAt(t, order))
    decreases |order|
  {
    SumAtPositive(t, order);
    if order != [] && remaining > 0.0 {
      var k := order[0];
      var rest := order[1..];
      var take := Min(remaining, t[k].current);
      var t1 := t[k := Pay(t[k], take)];
      assert forall i :: 0 <= i < |rest| ==> rest[i] == order[i + 1];
      assert k !in rest;
      SumAtFrame(t, rest, k, Pay(t[k], take));
      GreedyTakesMin(t1, rest, remaining - take);
      GreedyFrame(t1, rest, remaining - take, k);
      var u := Greedy(t, order, remaining);
      assert u == Greedy(t1, rest, remaining - take);
      assert u[k].current == t[k].current - take;
    }
  }

  /**
   * Sum over the rows of the map, for a party, is at most the sum over an
   * enumeration of its positive rows: the rows left out owe nothing.
   */
  lemma {:induction false} SumOverAtMostSumAt(t: Table, keys: set<InvoiceId>, order: seq<InvoiceId>, party: int)
    requires keys <= t.Keys && Distinct(order)
    requires forall i :: 0 <= i < |order| ==> order[i] in keys && t[order[i]].party == party
    requires forall k :: k in keys && k !in order && t[k].party == party ==> t[k].current <= 0.0
    ensures SumOver(t, keys, party) <= SumAt(t, order)
    decreases |keys|
  {
    if order == [] {
      if keys != {} {
        var k :| k in keys;
        SumOverRemove(t, keys, party, k);
        SumOverAtMostSumAt(t, keys - {k}, order, party);
      }
    } else {
      var k := order[0];
      var rest := order[1..];
      assert forall i :: 0 <= i < |rest| ==> rest[i] == order[i + 1];
      assert k !in rest by {
        forall i | 0 <= i < |rest| ensures rest[i] != k {
          assert rest[i] == order[i + 1];
        }
      }
      SumOverRemove(t, keys, party, k);
      forall j | j in keys - {k} && j !in rest && t[j].party == party
        ensures t[j].current <= 0.0
      {
        assert j !in order;
      }
      SumOverAtMostSumAt(t, keys - {k}, rest, party);
    }
  }

  /**
   * The sale screen never offers more than the supplier's pending total, and
   * that much is always absorbed in full: no credit is left over.
   */
  lemma OffsetWithinPendingIsAbsorbed(t: Table, order: seq<InvoiceId>, party: int, applied: real)
    requires PendingOrder(t, party, order)
    requires 0.0 <= applied <= PendingTotal(t, party)
    ensures GreedyLeft(t, order, applied) == 0.0
    ensures SumAt(Greedy(t, order, applied), order) == SumAt(t, order) - applied
  {
    SumOverAtMostSumAt(t, t.Keys, order, party);
    GreedyDeducts(t, order, applied);
  }
}
