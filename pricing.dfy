/**
 * Item pricing and bill totals of the new-sale and new-purchase screens:
 * the add-item handlers, the running item lists they append to, and the
 * grand total, purchase-credit offset and balance shown before saving.
 */
module Pricing {
  import opened Wrappers
  import opened Money

  /** The making-charge types the item form offers. */
  datatype MakingType = Fixed | PerGram | Percentage

  /** What the sale item form holds when "Add Item" is pressed. */
  datatype SaleItemForm = SaleItemForm(
    qty: int, gross: real, loss: real, rate: real, amount: real,
    making: real, makingType: MakingType, wastagePct: real, stoneCharge: real,
    cgstRate: real, sgstRate: real)

  /** A priced sale item as appended to the bill's item list. */
  datatype SaleLine = SaleLine(
    qty: int, netWt: real, rate: real, amount: real, making: real,
    wastage: real, stoneCharge: real, cgstRate: real, sgstRate: real, gst: real, total: real)

  function NetWeight(gross: real, loss: real): real
  {
    gross - loss
  }

  /** The form bounds of the item screens: every number non-negative, percentages at most 100. */
  predicate FormBounds(f: SaleItemForm)
  {
    f.qty >= 1 && f.gross >= 0.0 && f.loss >= 0.0 && f.rate >= 0.0 && f.amount >= 0.0
    && f.making >= 0.0 && 0.0 <= f.wastagePct <= 100.0 && f.stoneCharge >= 0.0
    && 0.0 <= f.cgstRate <= 100.0 && 0.0 <= f.sgstRate <= 100.0
  }

  /** The first guard of the sale handler: no weight and no amount, or no rate and no amount. */
  predicate SaleInputMissing(f: SaleItemForm)
  {
    var net := NetWeight(f.gross, f.loss);
    (net <= 0.0 && f.amount <= 0.0) || (f.rate <= 0.0 && f.amount == 0.0)
  }

  /** The item's base amount: the entered amount, or weight times rate when no amount was entered. */
  function SaleBase(f: SaleItemForm): real
  {
    var net := NetWeight(f.gross, f.loss);
    if f.rate > 0.0 && net > 0.0 && f.amount == 0.0 then net * f.rate else f.amount
  }

  /** The making charge by type: a fixed sum, a rate per gram of net weight, or a percentage of the base. */
  function MakingCharge(t: MakingType, making: real, base: real, net: real): real
  {
    match t
    case Fixed => making
    case PerGram => making * net
    case Percentage => base * (making / 100.0)
  }

  /** The item's pre-GST subtotal: base, making charge, stone charge and wastage (a share of the base). */
  function SaleSubtotal(f: SaleItemForm): real
  {
    var base := SaleBase(f);
    base + MakingCharge(f.makingType, f.making, base, NetWeight(f.gross, f.loss))
    + f.stoneCharge + base * (f.wastagePct / 100.0)
  }

  /** The item's total with GST: the subtotal plus CGST and SGST on it. */
  function SaleTotal(f: SaleItemForm): real
  {
    var subtotal := SaleSubtotal(f);
    subtotal + subtotal * ((f.cgstRate + f.sgstRate) / 100.0)
  }

  /**
   * The add-item handler of the sale screen: `None` when the item is
   * rejected, otherwise the priced item.  Base, making charge, stone charge
   * and wastage make the subtotal, and GST is added on top.
   */
  function PriceSaleItem(f: SaleItemForm): (r: Option<SaleLine>)
    ensures SaleInputMissing(f) ==> r == None
    // for every input: accepted exactly when the first guard passes and the GST-inclusive total is positive
    ensures r.Some? <==>
      !SaleInputMissing(f) && SaleTotal(f) > 0.0
    ensures r.Some? ==> r.value.total > 0.0 && r.value.amount == SaleBase(f)
    ensures r.Some? ==> r.value.netWt == NetWeight(f.gross, f.loss) && r.value.qty == f.qty && r.value.rate == f.rate
    // the three making-charge rules
    ensures r.Some? && f.makingType == Fixed ==> r.value.making == f.making
    ensures r.Some? && f.makingType == PerGram ==> r.value.making == f.making * r.value.netWt
    ensures r.Some? && f.makingType == Percentage ==> r.value.making == r.value.amount * (f.making / 100.0)
    // wastage is a percentage of the base, and the stone charge is taken as entered
    ensures r.Some? ==> r.value.wastage == r.value.amount * (f.wastagePct / 100.0)
    ensures r.Some? ==> r.value.stoneCharge == f.stoneCharge
    ensures r.Some? ==> r.value.cgstRate == f.cgstRate && r.value.sgstRate == f.sgstRate
    ensures r.Some? ==>
      r.value.gst == (r.value.amount + r.value.making + r.value.stoneCharge + r.value.wastage)
                     * ((f.cgstRate + f.sgstRate) / 100.0)
    ensures r.Some? ==>
      r.value.total == (r.value.amount + r.value.making + r.value.stoneCharge + r.value.wastage)
                       * (1.0 + (f.cgstRate + f.sgstRate) / 100.0)
  {
    if SaleInputMissing(f) then None
    else
      var net := NetWeight(f.gross, f.loss);
      var base := SaleBase(f);
      var making := MakingCharge(f.makingType, f.making, base, net);
      var wastage := base * (f.wastagePct / 100.0);
      var subtotal := SaleSubtotal(f);
      var gst := subtotal * ((f.cgstRate + f.sgstRate) / 100.0);
      var total := SaleTotal(f);
      if total <= 0.0 then None
      else Some(SaleLine(f.qty, net, f.rate, base, making, wastage, f.stoneCharge,
                         f.cgstRate, f.sgstRate, gst, total))
  }

  /** Within the form bounds, an item that passes the first guard has a positive base amount. */
  lemma AcceptedSaleBasePositive(f: SaleItemForm)
    requires FormBounds(f) && !SaleInputMissing(f)
    ensures SaleBase(f) > 0.0
  {
    var net := NetWeight(f.gross, f.loss);
    if f.amount == 0.0 {
      assert net > 0.0 && f.rate > 0.0;
      assert net * f.rate > 0.0;
    }
  }

  /**
   * Within the form bounds the second guard only fires for a per-gram making
   * charge on a negative net weight (loss above gross): every other item
   * that passes the first guard is added.
   */
  lemma SecondGuardOnlyForNegativeNet(f: SaleItemForm)
    requires FormBounds(f) && !SaleInputMissing(f)
    requires f.makingType != PerGram || NetWeight(f.gross, f.loss) >= 0.0
    ensures PriceSaleItem(f).Some?
  {
    AcceptedSaleBasePositive(f);
    var net := NetWeight(f.gross, f.loss);
    var base := SaleBase(f);
    var making := MakingCharge(f.makingType, f.making, base, net);
    assert making >= 0.0 by {
      if f.makingType == PerGram {
        assert f.making * net >= 0.0;
      } else if f.makingType == Percentage {
        assert base * (f.making / 100.0) >= 0.0;
      }
    }
    var wastage := base * (f.wastagePct / 100.0);
    assert wastage >= 0.0;
    var subtotal := base + making + f.stoneCharge + wastage;
    assert subtotal > 0.0;
    var g := (f.cgstRate + f.sgstRate) / 100.0;
    assert subtotal * g >= 0.0;
  }

  /** An item whose loss exceeds its gross weight, priced per gram, is turned away by the second guard. */
  lemma SecondGuardReachable()
    ensures PriceSaleItem(SaleItemForm(1, 0.0, 5.0, 0.0, 100.0, 30.0, PerGram, 0.0, 0.0, 1.5, 1.5)) == None
  {
    var f := SaleItemForm(1, 0.0, 5.0, 0.0, 100.0, 30.0, PerGram, 0.0, 0.0, 1.5, 1.5);
    assert !SaleInputMissing(f);
    assert SaleBase(f) == 100.0;
    assert MakingCharge(PerGram, 30.0, 100.0, -5.0) == -150.0;
  }

  function LineTotals(items: seq<SaleLine>): (ts: seq<real>)
    ensures |ts| == |items| && forall i :: 0 <= i < |items| ==> ts[i] == items[i].total
  {
    if items == [] then [] else LineTotals(items[..|items| - 1]) + [items[|items| - 1].total]
  }

  /** The sale's grand total: the sum of the items' GST-inclusive totals. */
  function SaleGrandTotal(items: seq<SaleLine>): real
  {
    Sum(LineTotals(items))
  }

  /** The bill's item list, kept across reruns of the screen. */
  class SaleDraft {
    var items: seq<SaleLine>

    /** Every item on the list was priced by the handler, so each total is positive. */
    ghost predicate Valid()
      reads this
    {
      forall i :: 0 <= i < |items| ==> items[i].total > 0.0
    }

    constructor ()
      ensures Valid() && items == []
    {
      items := [];
    }

    /** The add-item handler: the priced item is appended, a rejected one leaves the list as it was. */
    method AddItem(f: SaleItemForm) returns (added: bool)
      requires Valid()
      modifies this
      ensures Valid()
      ensures added <==> PriceSaleItem(f).Some?
      ensures items == if added then old(items) + [PriceSaleItem(f).value] else old(items)
    {
      var priced := PriceSaleItem(f);
      added := priced.Some?;
      if added {
        items := items + [priced.value];
      }
    }
  }

  /** A list of priced items has a grand total above zero. */
  lemma GrandTotalPositive(items: seq<SaleLine>)
    requires |items| > 0 && forall i :: 0 <= i < |items| ==> items[i].total > 0.0
    ensures SaleGrandTotal(items) > 0.0
  {
    SumPositive(LineTotals(items));
  }

  /**
   * The purchase credit applied to a sale: the supplier's pending total,
   * capped at the grand total, when the customer has one and opts in.
   */
  function AppliedOffset(pending: real, grand: real, optIn: bool): (a: real)
    ensures a == 0.0 || (a <= pending && a <= grand)
    ensures pending > 0.0 && optIn ==> a == pending || a == grand
    ensures !(pending > 0.0 && optIn) ==> a == 0.0
  {
    if pending > 0.0 && optIn then Min(pending, grand) else 0.0
  }

  /** The balance left on a sale: grand total less every payment, old gold and the applied credit. */
  function SaleBalance(grand: real, cash: real, online: real, cheque: real, upi: real,
                       oldGold: real, applied: real): (b: real)
    ensures b + cash + online + cheque + upi + oldGold + applied == grand
  {
    grand - (cash + online + cheque + upi + oldGold + applied)
  }

  /** Applying the purchase credit alone never leaves the customer owed money. */
  lemma OffsetNeverOverpays(grand: real, pending: real)
    requires grand >= 0.0 && pending > 0.0
    ensures var b := SaleBalance(grand, 0.0, 0.0, 0.0, 0.0, 0.0, AppliedOffset(pending, grand, true));
      b >= 0.0 && (pending >= grand ==> b == 0.0) && (pending < grand ==> b == grand - pending)
  {
  }

  // ---------------------------------------------------------------- purchases

  /** What the purchase item form holds when "Add Item" is pressed. */
  datatype PurchaseItemForm = PurchaseItemForm(qty: int, gross: real, loss: real, rate: real, price: real, amount: real)

  /** The purchase handler's guard: no weight and no amount, or no rate and no amount. */
  predicate PurchaseInputMissing(f: PurchaseItemForm)
  {
    var net := NetWeight(f.gross, f.loss);
    (net <= 0.0 && f.amount <= 0.0) || (f.rate <= 0.0 && f.amount <= 0.0)
  }

  /**
   * The add-item handler of the purchase screen: the entered amount, else
   * weight times rate, else price times quantity; `None` when rejected.
   * Making, stone and wastage are stored with the item but not priced.
   */
  function PurchaseAmount(f: PurchaseItemForm): (r: Option<real>)
    ensures PurchaseInputMissing(f) ==> r == None
    ensures r.Some? ==> r.value > 0.0
    ensures r.Some? && f.amount != 0.0 ==> r.value == f.amount
    // past the guard: an entered amount is taken as it is, no amount means weight times rate,
    // and a negative amount is refused by the second check
    ensures !PurchaseInputMissing(f) && f.amount > 0.0 ==> r == Some(f.amount)
    ensures !PurchaseInputMissing(f) && f.amount == 0.0 ==> r == Some(NetWeight(f.gross, f.loss) * f.rate)
    ensures !PurchaseInputMissing(f) && f.amount < 0.0 ==> r == None
  {
    if PurchaseInputMissing(f) then None
    else
      var net := NetWeight(f.gross, f.loss);
      var calculated :=
        if f.rate > 0.0 && net > 0.0 && f.amount == 0.0 then net * f.rate
        else if f.price > 0.0 && f.qty > 0 && f.amount == 0.0 then f.price * (f.qty as real)
        else f.amount;
      if calculated <= 0.0 then None else Some(calculated)
  }

  /**
   * The price-times-quantity fallback is never taken: an item without an
   * amount only passes the guard with a weight and a rate, and those are
   * used first.  An item with only a price and a quantity is rejected.
   */
  lemma PriceFallbackUnreachable(f: PurchaseItemForm)
    requires f.amount == 0.0
    ensures PurchaseAmount(f).Some? ==> PurchaseAmount(f).value == NetWeight(f.gross, f.loss) * f.rate
    ensures NetWeight(f.gross, f.loss) <= 0.0 || f.rate <= 0.0 ==> PurchaseAmount(f) == None
  {
  }

  /** The purchase's item list, kept across reruns of the screen. */
  class PurchaseDraft {
    var amounts: seq<real>

    ghost predicate Valid()
      reads this
    {
      forall i :: 0 <= i < |amounts| ==> amounts[i] > 0.0
    }

    constructor ()
      ensures Valid() && amounts == []
    {
      amounts := [];
    }

    method AddItem(f: PurchaseItemForm) returns (added: bool)
      requires Valid()
      modifies this
      ensures Valid()
      ensures added <==> PurchaseAmount(f).Some?
      ensures amounts == if added then old(amounts) + [PurchaseAmount(f).value] else old(amounts)
    {
      var priced := PurchaseAmount(f);
      added := priced.Some?;
      if added {
        amounts := amounts + [priced.value];
      }
    }
  }

  /** The purchase totals block: taxable sum, one CGST/SGST pair for all items, and the rounded total. */
  datatype PurchaseTotals = PurchaseTotals(taxable: real, cgst: real, sgst: real, grand: real, roundOff: real, rounded: int)

  function PurchaseBillTotals(amounts: seq<real>, cgstRate: real, sgstRate: real): (t: PurchaseTotals)
    ensures t.taxable == Sum(amounts)
    ensures t.cgst == t.taxable * (cgstRate / 100.0) && t.sgst == t.taxable * (sgstRate / 100.0)
    ensures t.grand == t.taxable + t.cgst + t.sgst
    ensures t.rounded == RoundHalfEven(t.grand)
    ensures t.rounded as real == t.grand + t.roundOff && -0.5 <= t.roundOff <= 0.5
  {
    var taxable := Sum(amounts);
    var cgst := taxable * (cgstRate / 100.0);
    var sgst := taxable * (sgstRate / 100.0);
    var grand := taxable + cgst + sgst;
    var rounded := RoundHalfEven(grand);
    PurchaseTotals(taxable, cgst, sgst, grand, rounded as real - grand, rounded)
  }

  /** The purchase balance: the rounded GST-inclusive total less the four payments. */
  function PurchaseBalance(rounded: int, cash: real, online: real, cheque: real, upi: real): (b: real)
    ensures b + cash + online + cheque + upi == rounded as real
  {
    rounded as real - (cash + online + cheque + upi)
  }

  /**
   * The purchase is saved with the pre-GST taxable sum as its total but a
   * balance worked out from the rounded GST-inclusive total, so "total less
   * paid" and the stored balance differ by the GST to within half a rupee.
   */
  lemma SavedTotalAndBalanceDisagree(amounts: seq<real>, cgstRate: real, sgstRate: real,
                                     cash: real, online: real, cheque: real, upi: real)
    ensures var t := PurchaseBillTotals(amounts, cgstRate, sgstRate);
      var stored := PurchaseBalance(t.rounded, cash, online, cheque, upi);
      var implied := t.taxable - (cash + online + cheque + upi);
      -0.5 <= (stored - implied) - (t.cgst + t.sgst) <= 0.5
      && (t.cgst + t.sgst > 0.5 ==> stored != implied)
  {
  }
}
