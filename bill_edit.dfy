/**
 * The sale and purchase tabs of the modify-bill screen: the on-screen
 * running total of the edited item table, and the submit handler that
 * filters the rows, recomputes each kept row's amount and the bill total,
 * and decides whether the edit may be passed on to the bill update.
 *
 * Cells left empty in the editor are read as 0 (numbers) or "" (names),
 * which is what the handlers' `float(x) if x is not None else 0.0` and
 * truthiness tests amount to.
 */
module BillEdit {
  import opened Money

  /** Which tab: the purchase tab has one more fallback for the base amount. */
  datatype Tab = SaleTab | PurchaseTab

  /** One row of the item editor, as the handlers read it. */
  datatype EditRow = EditRow(
    itemName: string, metal: string, qty: real, net: real, rate: real,
    price: real, amount: real, making: real, stone: real, wastagePct: real)

  /** A row kept for the bill update, with the amount recomputed for it. */
  datatype KeptRow = KeptRow(row: EditRow, amount: real)

  /** The submit filter: an item name, a metal and a positive quantity. */
  predicate Kept(r: EditRow)
  {
    r.itemName != "" && r.metal != "" && r.qty > 0.0
  }

  /**
   * The submitted base amount: the editor amount when positive, else net
   * weight times rate when both are positive, else (purchase tab only)
   * price times quantity when both are positive, else 0.
   */
  function SubmittedBase(tab: Tab, r: EditRow): real
  {
    if r.amount > 0.0 then r.amount
    else if r.net > 0.0 && r.rate > 0.0 then r.net * r.rate
    else if tab == PurchaseTab && r.price > 0.0 && r.qty > 0.0 then r.price * r.qty
    else 0.0
  }

  /**
   * The base amount of the on-screen total: the editor amount, replaced by
   * the same fallbacks only when it is not positive, so a negative amount
   * with no fallback is kept as it is.
   */
  function DisplayedBase(tab: Tab, r: EditRow): real
  {
    if r.amount > 0.0 then r.amount
    else if r.net > 0.0 && r.rate > 0.0 then r.net * r.rate
    else if tab == PurchaseTab && r.price > 0.0 && r.qty > 0.0 then r.price * r.qty
    else r.amount
  }

  /**
   * A row's amount from its base: making and stone charges added as
   * stored (whatever the making-charge type), plus wastage on the base when
   * the wastage percentage is positive, and no GST.
   */
  function RowAmount(base: real, r: EditRow): real
  {
    if r.wastagePct > 0.0 then base + r.making + r.stone + base * (r.wastagePct / 100.0)
    else base + r.making + r.stone
  }

  /** The rows the submit handler keeps, in editor order, with their amounts. */
  function KeptRows(tab: Tab, rows: seq<EditRow>): (k: seq<KeptRow>)
    ensures |k| <= |rows|
  {
    if rows == [] then []
    else
      var last := rows[|rows| - 1];
      KeptRows(tab, rows[..|rows| - 1])
      + (if Kept(last) then [KeptRow(last, RowAmount(SubmittedBase(tab, last), last))] else [])
  }

  function KeptAmount(k: KeptRow): real
  {
    k.amount
  }

  /** The amounts the on-screen total adds up: every row, no filter. */
  function DisplayedAmounts(tab: Tab, rows: seq<EditRow>): (a: seq<real>)
    ensures |a| == |rows|
    ensures forall i :: 0 <= i < |rows| ==> a[i] == RowAmount(DisplayedBase(tab, rows[i]), rows[i])
  {
    seq(|rows|, i requires 0 <= i < |rows| => RowAmount(DisplayedBase(tab, rows[i]), rows[i]))
  }

  /**
   * The submit loop: walks the editor rows, keeps the valid ones with their
   * recomputed amounts and accumulates the bill total.
   */
  method CollectRows(tab: Tab, rows: seq<EditRow>) returns (total: real, kept: seq<KeptRow>)
    ensures kept == KeptRows(tab, rows)
    ensures total == Sum(Column(kept, KeptAmount))
  {
    total := 0.0;
    kept := [];
    var i := 0;
    while i < |rows|
      invariant 0 <= i <= |rows|
      invariant kept == KeptRows(tab, rows[..i])
      invariant total == Sum(Column(kept, KeptAmount))
    {
      var r := rows[i];
      assert rows[..i + 1][..i] == rows[..i];
      if Kept(r) {
        var amount := RowAmount(SubmittedBase(tab, r), r);
        assert Column(kept + [KeptRow(r, amount)], KeptAmount) == Column(kept, KeptAmount) + [amount];
        total := total + amount;
        kept := kept + [KeptRow(r, amount)];
      }
      i := i + 1;
    }
    assert rows[..i] == rows;
  }

  /** The display loop: the running total shown above the submit button. */
  method DisplayedTotal(tab: Tab, rows: seq<EditRow>) returns (total: real)
    ensures total == Sum(DisplayedAmounts(tab, rows))
  {
    total := 0.0;
    var i := 0;
    while i < |rows|
      invariant 0 <= i <= |rows|
      invariant total == Sum(DisplayedAmounts(tab, rows[..i]))
    {
      assert DisplayedAmounts(tab, rows[..i + 1]) == DisplayedAmounts(tab, rows[..i]) + [RowAmount(DisplayedBase(tab, rows[i]), rows[i])];
      total := total + RowAmount(DisplayedBase(tab, rows[i]), rows[i]);
      i := i + 1;
    }
    assert rows[..i] == rows;
  }

  /** Every kept row passed the filter and its amount is computed from the submitted base. */
  lemma {:induction false} KeptRowsAreValid(tab: Tab, rows: seq<EditRow>)
    ensures forall i :: 0 <= i < |KeptRows(tab, rows)| ==>
      Kept(KeptRows(tab, rows)[i].row) && KeptRows(tab, rows)[i].row in rows
      && KeptRows(tab, rows)[i].amount == RowAmount(SubmittedBase(tab, KeptRows(tab, rows)[i].row), KeptRows(tab, rows)[i].row)
    decreases |rows|
  {
    if rows != [] {
      var init := rows[..|rows| - 1];
      KeptRowsAreValid(tab, init);
      forall x | x in init ensures x in rows {
        var j :| 0 <= j < |init| && init[j] == x;
        assert rows[j] == x;
      }
    }
  }

  /** Every valid row is kept: the filter drops exactly the rows that fail it. */
  lemma {:induction false} ValidRowsAreKept(tab: Tab, rows: seq<EditRow>, j: int)
    requires 0 <= j < |rows| && Kept(rows[j])
    ensures KeptRow(rows[j], RowAmount(SubmittedBase(tab, rows[j]), rows[j])) in KeptRows(tab, rows)
    decreases |rows|
  {
    if j < |rows| - 1 {
      var init := rows[..|rows| - 1];
      ValidRowsAreKept(tab, init, j);
    }
  }

  /** Filtering commutes with splitting the table, so the submitted total adds up piecewise. */
  lemma {:induction false} KeptRowsAppend(tab: Tab, xs: seq<EditRow>, ys: seq<EditRow>)
    ensures KeptRows(tab, xs + ys) == KeptRows(tab, xs) + KeptRows(tab, ys)
    decreases |ys|
  {
    if ys == [] {
      assert xs + ys == xs;
    } else {
      var init := ys[..|ys| - 1];
      assert (xs + ys)[..|xs + ys| - 1] == xs + init;
      KeptRowsAppend(tab, xs, init);
    }
  }

  /**
   * When every row passes the filter and no editor amount is negative, the
   * on-screen total is the total that is submitted.
   */
  lemma {:induction false} DisplayMatchesSubmitted(tab: Tab, rows: seq<EditRow>)
    requires forall i :: 0 <= i < |rows| ==> Kept(rows[i]) && rows[i].amount >= 0.0
    ensures Sum(DisplayedAmounts(tab, rows)) == Sum(Column(KeptRows(tab, rows), KeptAmount))
    decreases |rows|
  {
    if rows != [] {
      var init := rows[..|rows| - 1];
      var last := rows[|rows| - 1];
      DisplayMatchesSubmitted(tab, init);
      var d := DisplayedAmounts(tab, rows);
      assert d[..|rows| - 1] == DisplayedAmounts(tab, init);
      assert SubmittedBase(tab, last) == DisplayedBase(tab, last);
      var amount := RowAmount(SubmittedBase(tab, last), last);
      var k := KeptRows(tab, init);
      assert KeptRows(tab, rows) == k + [KeptRow(last, amount)];
      var a := Column(KeptRows(tab, rows), KeptAmount);
      assert a[..|a| - 1] == Column(k, KeptAmount);
      assert Sum(a) == Sum(Column(k, KeptAmount)) + amount;
      assert Sum(d) == Sum(DisplayedAmounts(tab, init)) + amount;
    }
  }

  /** A row with no quantity is shown in the on-screen total but not submitted. */
  lemma DisplayCanDifferFromSubmitted(tab: Tab)
    ensures var rows := [EditRow("Ring", "Gold", 0.0, 0.0, 0.0, 0.0, 500.0, 0.0, 0.0, 0.0)];
      Sum(DisplayedAmounts(tab, rows)) == 500.0 && Sum(Column(KeptRows(tab, rows), KeptAmount)) == 0.0
  {
    var rows := [EditRow("Ring", "Gold", 0.0, 0.0, 0.0, 0.0, 500.0, 0.0, 0.0, 0.0)];
    assert KeptRows(tab, rows) == KeptRows(tab, []);
    assert DisplayedAmounts(tab, rows) == [500.0];
    assert Sum([500.0]) == Sum([]) + 500.0;
  }

  /** The submit handler's outcome. */
  datatype Verdict = NoItems | NonPositiveTotal | Overpaid | Accepted

  /**
   * The submit checks in order: at least one kept row, a positive total,
   * and an amount paid not above the total.
   */
  function SubmitVerdict(keptCount: nat, total: real, paid: real): (v: Verdict)
    ensures v == Accepted <==> keptCount > 0 && total > 0.0 && paid <= total
    ensures v == NoItems <==> keptCount == 0
  {
    if keptCount == 0 then NoItems
    else if total <= 0.0 then NonPositiveTotal
    else if paid > total then Overpaid
    else Accepted
  }

  /**
   * The submit handler: the rows and total it would pass to the bill
   * update, and whether it passes them.
   */
  method SubmitEdit(tab: Tab, rows: seq<EditRow>, paid: real) returns (v: Verdict, total: real, kept: seq<KeptRow>)
    ensures kept == KeptRows(tab, rows) && total == Sum(Column(kept, KeptAmount))
    ensures v == Accepted <==> |kept| > 0 && total > 0.0 && paid <= total
  {
    total, kept := CollectRows(tab, rows);
    v := SubmitVerdict(|kept|, total, paid);
  }

  /**
   * An accepted edit pays at most the new total and keeps at least one of
   * the editor's rows.  (The balance stored by the bill update also takes
   * off the bill's old gold, and can still go below zero.)
   */
  lemma AcceptedEditPaysAtMostTotal(tab: Tab, rows: seq<EditRow>, paid: real)
    requires SubmitVerdict(|KeptRows(tab, rows)|, Sum(Column(KeptRows(tab, rows), KeptAmount)), paid) == Accepted
    ensures Sum(Column(KeptRows(tab, rows), KeptAmount)) - paid >= 0.0
    ensures exists j :: 0 <= j < |rows| && Kept(rows[j])
  {
    KeptRowsAreValid(tab, rows);
    var k := KeptRows(tab, rows);
    assert Kept(k[0].row) && k[0].row in rows;
  }
}
