/**
 * Invoice numbering: a per-prefix counter in `invoice_numbers` and the three
 * invoice id formats built from it (sale, purchase, deposit).
 */
module Numbering {
  import opened Text

  type Counters = map<string, int>

  const SalesPrefix := "SALES"
  const PurchasePrefix := "PURCHASE"

  /** The counter of a customer's deposit ids, `UDHAAR-{customer_id}`. */
  function UdhaarPrefix(customer: int): string
  {
    "UDHAAR-" + IntToString(customer)
  }

  /** The number last issued under a prefix, 0 when none was. */
  function Stored(counters: Counters, prefix: string): int
  {
    if prefix in counters then counters[prefix] else 0
  }

  /** get_next_invoice_number: one past the stored number. */
  function NextNumber(counters: Counters, prefix: string): (n: int)
    ensures n == Stored(counters, prefix) + 1
  {
    (if prefix in counters then counters[prefix] else 0) + 1
  }

  /** The counters after a number has been issued under a prefix. */
  function Issued(counters: Counters, prefix: string): (c: Counters)
    ensures prefix in c && c[prefix] == NextNumber(counters, prefix)
    ensures forall p :: p != prefix ==> (p in c <==> p in counters) && (p in counters ==> c[p] == counters[p])
  {
    counters[prefix := NextNumber(counters, prefix)]
  }

  /** Issuing k numbers in a row under one prefix: the numbers, and the counters after. */
  function IssueMany(counters: Counters, prefix: string, k: nat): (Counters, seq<int>)
  {
    if k == 0 then (counters, [])
    else
      var (c, ns) := IssueMany(counters, prefix, k - 1);
      (Issued(c, prefix), ns + [NextNumber(c, prefix)])
  }

  /**
   * Numbers under one prefix are issued without gaps or repeats: the i-th of
   * k requests gets the stored number plus i + 1, and other prefixes are untouched.
   */
  lemma {:induction false} IssueManyConsecutive(counters: Counters, prefix: string, k: nat)
    ensures var (c, ns) := IssueMany(counters, prefix, k);
      |ns| == k
      && (forall i :: 0 <= i < k ==> ns[i] == Stored(counters, prefix) + i + 1)
      && Stored(c, prefix) == Stored(counters, prefix) + k
      && forall p :: p != prefix ==> (p in c <==> p in counters) && (p in counters ==> c[p] == counters[p])
  {
    if k > 0 {
      IssueManyConsecutive(counters, prefix, k - 1);
    }
  }

  /** delete_bill's counter step: `invoice_number - 1` on an existing prefix. */
  function Decremented(counters: Counters, prefix: string): (c: Counters)
    ensures prefix in counters ==> c == counters[prefix := counters[prefix] - 1]
    ensures prefix !in counters ==> c == counters
  {
    if prefix in counters then counters[prefix := counters[prefix] - 1] else counters
  }

  /** Deleting the latest bill hands its number out again to the next bill. */
  lemma DeleteReissuesNumber(counters: Counters, prefix: string)
    ensures NextNumber(Decremented(Issued(counters, prefix), prefix), prefix) == NextNumber(counters, prefix)
  {
  }

  /** generate_sales_invoice_id: `SAL-{year}-{n:05d}`. */
  function SalesInvoiceId(year: nat, n: int): string
  {
    "SAL-" + Digits(year) + "-" + ZeroPad(n, 5)
  }

  /** generate_purchase_invoice_id: `PUR-{year}-{n:05d}`. */
  function PurchaseInvoiceId(year: nat, n: int): string
  {
    "PUR-" + Digits(year) + "-" + ZeroPad(n, 5)
  }

  /** generate_udhaar_invoice_id: `UDH-{year}-{customer_id}-{n:03d}`. */
  function UdhaarInvoiceId(year: nat, customer: int, n: int): string
  {
    "UDH-" + Digits(year) + "-" + (IntToString(customer) + "-" + ZeroPad(n, 3))
  }

  lemma SuffixOfEqual(p: string, a: string, b: string)
    requires p + a == p + b
    ensures a == b
  {
    assert a == (p + a)[|p|..];
    assert b == (p + b)[|p|..];
  }

  /** Within one year, different numbers give different sale ids. */
  lemma SalesIdsDistinct(year: nat, n: int, m: int)
    requires SalesInvoiceId(year, n) == SalesInvoiceId(year, m)
    ensures n == m
  {
    SuffixOfEqual("SAL-" + Digits(year) + "-", ZeroPad(n, 5), ZeroPad(m, 5));
    ZeroPadInjective(n, m, 5);
  }

  /** Within one year, different numbers give different purchase ids. */
  lemma PurchaseIdsDistinct(year: nat, n: int, m: int)
    requires PurchaseInvoiceId(year, n) == PurchaseInvoiceId(year, m)
    ensures n == m
  {
    SuffixOfEqual("PUR-" + Digits(year) + "-", ZeroPad(n, 5), ZeroPad(m, 5));
    ZeroPadInjective(n, m, 5);
  }

  /** A sale id is never a purchase id or a deposit id. */
  lemma KindsNeverCollide(year: nat, n: int, m: int, customer: int)
    ensures SalesInvoiceId(year, n) != PurchaseInvoiceId(year, m)
    ensures SalesInvoiceId(year, n) != UdhaarInvoiceId(year, customer, m)
    ensures PurchaseInvoiceId(year, n) != UdhaarInvoiceId(year, customer, m)
  {
    assert SalesInvoiceId(year, n)[0] == 'S';
    assert PurchaseInvoiceId(year, m)[0] == 'P';
    assert UdhaarInvoiceId(year, customer, m)[0] == 'U';
    assert PurchaseInvoiceId(year, n)[0] == 'P';
  }

  /** Digits followed by a dash: where the dash is tells where the digits end. */
  lemma SplitAtDash(d1: string, x: string, d2: string, y: string)
    requires AllDigits(d1) && AllDigits(d2)
    requires d1 + "-" + x == d2 + "-" + y
    ensures d1 == d2 && x == y
  {
    var s1, s2 := d1 + "-" + x, d2 + "-" + y;
    assert |d1| == |d2| by {
      assert forall i :: 0 <= i < |d1| ==> s1[i] == d1[i];
      assert forall i :: 0 <= i < |d2| ==> s2[i] == d2[i];
      assert |d1| < |s1| && s1[|d1|] == '-';
      assert |d2| < |s2| && s2[|d2|] == '-';
    }
    assert d1 == s1[..|d1|];
    assert d2 == s2[..|d2|];
    SuffixOfEqual(d1 + "-", x, y);
  }

  /**
   * Deposit ids of one year are distinct across customers and numbers: the
   * customer id ends at the first '-' after the year.
   */
  lemma UdhaarIdsDistinct(year: nat, c1: nat, n1: int, c2: nat, n2: int)
    requires UdhaarInvoiceId(year, c1, n1) == UdhaarInvoiceId(year, c2, n2)
    ensures c1 == c2 && n1 == n2
  {
    var p := "UDH-" + Digits(year) + "-";
    assert IntToString(c1) == Digits(c1) && IntToString(c2) == Digits(c2);
    var s1 := Digits(c1) + "-" + ZeroPad(n1, 3);
    var s2 := Digits(c2) + "-" + ZeroPad(n2, 3);
    SuffixOfEqual(p, s1, s2);
    SplitAtDash(Digits(c1), ZeroPad(n1, 3), Digits(c2), ZeroPad(n2, 3));
    ValueOfDigits(c1);
    ValueOfDigits(c2);
    ZeroPadInjective(n1, n2, 3);
  }

  /** Each customer has a counter of its own. */
  lemma UdhaarPrefixesDistinct(c1: int, c2: int)
    requires UdhaarPrefix(c1) == UdhaarPrefix(c2)
    ensures c1 == c2
  {
    SuffixOfEqual("UDHAAR-", IntToString(c1), IntToString(c2));
    ZeroPadInjective(c1, c2, 0);
  }

  /** Customer counters never clash with the sale and purchase counters. */
  lemma UdhaarPrefixIsNotShared(c: int)
    ensures UdhaarPrefix(c) != SalesPrefix && UdhaarPrefix(c) != PurchasePrefix
  {
    assert UdhaarPrefix(c)[0] == 'U';
  }
}
