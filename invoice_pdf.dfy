/**
 * The computed parts of the sale and purchase invoice PDFs: the download
 * file name, the per-item GST columns and their running totals, the
 * integer round-off, and which totals and payment lines are printed.
 * Page layout, fonts and the file itself are not modelled.
 */
module InvoicePdf {
  import opened Wrappers
  import opened Money
  import opened Text

  /**
   * The file name "<kind>_<party>_<invoice>.pdf": the party's name with
   * spaces turned into underscores (a fallback word when the record has no
   * name), and the invoice id with slashes turned into underscores
   * ("unknown_invoice" when there is no bill row).
   */
  function Filename(kind: string, fallback: string, name: Option<string>, invoice: Option<string>): string
  {
    var party := Replace(if name.Some? then name.value else fallback, ' ', '_');
    var id := if invoice.Some? then Replace(invoice.value, '/', '_') else "unknown_invoice";
    kind + "_" + party + "_" + id + ".pdf"
  }

  function SaleFilename(name: Option<string>, invoice: Option<string>): string
  {
    Filename("sale", "customer", name, invoice)
  }

  function PurchaseFilename(name: Option<string>, invoice: Option<string>): string
  {
    Filename("purchase", "supplier", name, invoice)
  }

  /**
   * The sale file name is "sale_", then a party part of the name's length
   * with no space in it, "_", an id part with no slash in it, and ".pdf".
   */
  lemma SaleFilenameShape(name: string, invoice: string)
    ensures exists party: string, id: string ::
      SaleFilename(Some(name), Some(invoice)) == "sale_" + party + "_" + id + ".pdf"
      && |party| == |name| && ' ' !in party && |id| == |invoice| && '/' !in id
  {
    var party := Replace(name, ' ', '_');
    var id := Replace(invoice, '/', '_');
    ReplaceRemoves(name, ' ', '_');
    ReplaceRemoves(invoice, '/', '_');
    assert SaleFilename(Some(name), Some(invoice)) == "sale_" + party + "_" + id + ".pdf";
  }

  /** Customers whose names differ only in a space and an underscore share a file name. */
  lemma SaleFilenamesCanCollide()
    ensures SaleFilename(Some("A B"), Some("SAL-2025-00001")) == SaleFilename(Some("A_B"), Some("SAL-2025-00001"))
  {
    assert Replace("A B", ' ', '_') == "A_B";
    assert Replace("A_B", ' ', '_') == "A_B";
  }

  /** The purchase file name of a supplier with a name and a bill row. */
  lemma PurchaseFilenameShape(name: string, invoice: string)
    ensures exists party: string, id: string ::
      PurchaseFilename(Some(name), Some(invoice)) == "purchase_" + party + "_" + id + ".pdf"
      && |party| == |name| && ' ' !in party && |id| == |invoice| && '/' !in id
  {
    var party := Replace(name, ' ', '_');
    var id := Replace(invoice, '/', '_');
    ReplaceRemoves(name, ' ', '_');
    ReplaceRemoves(invoice, '/', '_');
    assert PurchaseFilename(Some(name), Some(invoice)) == "purchase_" + party + "_" + id + ".pdf";
  }

  /** HSN 7113 (articles of jewellery) stands in for a missing HSN code. */
  function HsnOrDefault(hsn: string): (r: string)
    ensures r != "" && (hsn != "" ==> r == hsn)
  {
    if hsn != "" then hsn else "7113"
  }

  /** A stored sale item as the PDF reads it: the taxable amount and the two GST rates, possibly missing. */
  datatype PdfItem = PdfItem(amount: real, cgstRate: Option<real>, sgstRate: Option<real>, hsn: string)

  function RateOrZero(rate: Option<real>): real
  {
    if rate.Some? then rate.value else 0.0
  }

  function ItemAmount(item: PdfItem): real
  {
    item.amount
  }

  function ItemCgst(items: seq<PdfItem>): (a: seq<real>)
    ensures |a| == |items|
    ensures forall i :: 0 <= i < |items| ==> a[i] == items[i].amount * (RateOrZero(items[i].cgstRate) / 100.0)
  {
    seq(|items|, i requires 0 <= i < |items| => items[i].amount * (RateOrZero(items[i].cgstRate) / 100.0))
  }

  function ItemSgst(items: seq<PdfItem>): (a: seq<real>)
    ensures |a| == |items|
    ensures forall i :: 0 <= i < |items| ==> a[i] == items[i].amount * (RateOrZero(items[i].sgstRate) / 100.0)
  {
    seq(|items|, i requires 0 <= i < |items| => items[i].amount * (RateOrZero(items[i].sgstRate) / 100.0))
  }

  /** The "Total" column: each item's amount with its own CGST and SGST. */
  function ItemTotals(items: seq<PdfItem>): (a: seq<real>)
    ensures |a| == |items|
    ensures forall i :: 0 <= i < |items| ==> a[i] == Column(items, ItemAmount)[i] + ItemCgst(items)[i] + ItemSgst(items)[i]
  {
    seq(|items|, i requires 0 <= i < |items| =>
      items[i].amount + ItemCgst(items)[i] + ItemSgst(items)[i])
  }

  /** The sale PDF's item loop with its four running totals. */
  method SaleTotals(items: seq<PdfItem>) returns (taxable: real, cgst: real, sgst: real, grand: real)
    ensures taxable == Sum(Column(items, ItemAmount))
    ensures cgst == Sum(ItemCgst(items)) && sgst == Sum(ItemSgst(items))
    ensures grand == Sum(ItemTotals(items))
    ensures grand == taxable + cgst + sgst
  {
    ghost var a, c, g, t := Column(items, ItemAmount), ItemCgst(items), ItemSgst(items), ItemTotals(items);
    taxable, cgst, sgst, grand := 0.0, 0.0, 0.0, 0.0;
    var i := 0;
    while i < |items|
      invariant 0 <= i <= |items|
      invariant taxable == Sum(a[..i]) && cgst == Sum(c[..i])
      invariant sgst == Sum(g[..i]) && grand == Sum(t[..i])
    {
      var item := items[i];
      var itemCgst := item.amount * (RateOrZero(item.cgstRate) / 100.0);
      var itemSgst := item.amount * (RateOrZero(item.sgstRate) / 100.0);
      assert a[..i + 1][..i] == a[..i] && c[..i + 1][..i] == c[..i];
      assert g[..i + 1][..i] == g[..i] && t[..i + 1][..i] == t[..i];
      assert a[i] == item.amount && c[i] == itemCgst && g[i] == itemSgst;
      taxable := taxable + item.amount;
      cgst := cgst + itemCgst;
      sgst := sgst + itemSgst;
      grand := grand + (item.amount + itemCgst + itemSgst);
      i := i + 1;
    }
    assert a[..i] == a && c[..i] == c && g[..i] == g && t[..i] == t;
    SumOfPointwiseSum(a, c, g, t);
  }

  /** The purchase PDF's item loop: every item is taxed at CGST 1.5% and SGST 1.5%, whatever its stored rates. */
  method PurchaseTotals(amounts: seq<real>) returns (taxable: real, cgst: real, sgst: real, grand: real)
    ensures taxable == Sum(amounts)
    ensures cgst == taxable * (1.5 / 100.0) && sgst == taxable * (1.5 / 100.0)
    ensures grand == taxable * 1.03
  {
    taxable, cgst, sgst, grand := 0.0, 0.0, 0.0, 0.0;
    var i := 0;
    while i < |amounts|
      invariant 0 <= i <= |amounts|
      invariant taxable == Sum(amounts[..i])
      invariant cgst == taxable * (1.5 / 100.0) && sgst == taxable * (1.5 / 100.0)
      invariant grand == taxable + cgst + sgst
    {
      assert amounts[..i + 1][..i] == amounts[..i];
      var amount := amounts[i];
      var itemCgst := amount * (1.5 / 100.0);
      var itemSgst := amount * (1.5 / 100.0);
      taxable := taxable + amount;
      cgst := cgst + itemCgst;
      sgst := sgst + itemSgst;
      grand := grand + (amount + itemCgst + itemSgst);
      i := i + 1;
    }
    assert amounts[..i] == amounts;
  }

  /**
   * The printed grand total: the item total plus its round-off, which is
   * the nearest whole rupee (ties to even), never more than half a rupee off.
   */
  function RoundOff(grand: real): (off: real)
    ensures -0.5 <= off <= 0.5
    ensures (grand + off).Floor as real == grand + off
  {
    RoundHalfEven(grand) as real - grand
  }

  /** The printed total is the whole rupee nearest to the item total. */
  lemma PrintedTotalIsNearestRupee(grand: real, n: int)
    ensures Abs(grand + RoundOff(grand) - grand) <= Abs(n as real - grand)
  {
    RoundIsNearest(grand, n);
  }

  /** One printed line of the totals or payment block. */
  datatype Line = Line(caption: string, amount: real)

  /** The separate totals table is printed only for a bill of more than one item. */
  function TotalsTable(itemCount: nat, cgst: real, sgst: real, grand: real): (r: seq<Line>)
    ensures r == [] <==> itemCount <= 1
    ensures r != [] ==> |r| == 4 && r[3].amount == grand + RoundOff(grand) && r[2].amount == RoundOff(grand)
  {
    if itemCount <= 1 then []
    else [Line("Total CGST:", cgst), Line("Total SGST:", sgst),
          Line("Round Off:", RoundOff(grand)), Line("Grand Total:", grand + RoundOff(grand))]
  }

  /** The payment lines printed: only those with a positive amount, in order. */
  function PaymentLines(payments: seq<Line>): (r: seq<Line>)
    ensures |r| <= |payments|
  {
    if payments == [] then []
    else
      var rest := PaymentLines(payments[..|payments| - 1]);
      var last := payments[|payments| - 1];
      if last.amount > 0.0 then rest + [last] else rest
  }

  /** A payment line is printed exactly when its amount is positive. */
  lemma {:induction false} PaymentLinesArePositive(payments: seq<Line>, p: Line)
    ensures p in PaymentLines(payments) <==> p in payments && p.amount > 0.0
    decreases |payments|
  {
    if payments != [] {
      var init := payments[..|payments| - 1];
      PaymentLinesArePositive(init, p);
      assert payments == init + [payments[|payments| - 1]];
    }
  }

  /** The sale PDF's payment block: cheque, online, UPI, cash and old gold. */
  function SalePaymentLines(cheque: real, online: real, upi: real, cash: real, oldGold: real): seq<Line>
  {
    PaymentLines([Line("Cheque Amount", cheque), Line("Online Amount", online), Line("UPI Amount", upi),
                  Line("Cash Amount", cash), Line("Old Gold Value", oldGold)])
  }

  /** The purchase PDF's payment block: cheque, online, UPI and cash; there is no old gold. */
  function PurchasePaymentLines(cheque: real, online: real, upi: real, cash: real): seq<Line>
  {
    PaymentLines([Line("Cheque Amount", cheque), Line("Online Amount", online), Line("UPI Amount", upi),
                  Line("Cash Amount", cash)])
  }
}
