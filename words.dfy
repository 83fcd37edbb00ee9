/**
 * convert_amount_to_words: an amount in rupees and paise written out in the
 * Indian numbering system (crore, lakh, thousand, hundred).
 */
module Words {
  import opened Wrappers
  import opened Money
  import opened Text

  const Ones: seq<string> := ["", "One", "Two", "Three", "Four", "Five", "Six", "Seven", "Eight", "Nine"]
  const Teens: seq<string> := ["Ten", "Eleven", "Twelve", "Thirteen", "Fourteen", "Fifteen", "Sixteen",
                               "Seventeen", "Eighteen", "Nineteen"]
  const Tens: seq<string> := ["", "", "Twenty", "Thirty", "Forty", "Fifty", "Sixty", "Seventy", "Eighty", "Ninety"]

  /** `twodigits`: a number below one hundred in words; 0 gives the empty word. */
  function TwoDigits(n: nat): string
    requires n < 100
  {
    if n < 10 then Ones[n]
    else if n < 20 then Teens[n - 10]
    else Tens[n / 10] + " " + Ones[n % 10]
  }

  /** Every non-zero number below one hundred has a word that starts with a letter. */
  lemma TwoDigitsNonBlank(n: nat)
    requires 0 < n < 100
    ensures |TwoDigits(n)| > 0 && TwoDigits(n)[0] != ' '
  {
    if n >= 20 {
      assert 2 <= n / 10 < 10;
      var t := Tens[n / 10];
      assert |t| > 0 && t[0] != ' ';
      assert TwoDigits(n)[0] == t[0];
    }
  }

  /** Round tens keep the separator after the tens word: "Twenty ", "Thirty ", ... */
  lemma RoundTensTrailingSpace(k: nat)
    requires 2 <= k <= 9
    ensures TwoDigits(10 * k) == Tens[k] + " "
  {
    assert (10 * k) / 10 == k && (10 * k) % 10 == 0;
  }

  /** The groups of `process`: crores, lakhs, thousands, hundreds and the last two digits. */
  datatype Groups = Groups(crores: nat, lakhs: nat, thousands: nat, hundreds: nat, rest: nat)

  function Split(n: nat): (g: Groups)
    ensures n == g.crores * 10000000 + g.lakhs * 100000 + g.thousands * 1000 + g.hundreds * 100 + g.rest
    ensures g.lakhs < 100 && g.thousands < 100 && g.hundreds < 10 && g.rest < 100
    ensures n < 1000000000 ==> g.crores < 100
  {
    var c := n / 10000000;
    var m1 := n % 10000000;
    var l := m1 / 100000;
    var m2 := m1 % 100000;
    var t := m2 / 1000;
    var m3 := m2 % 1000;
    var h := m3 / 100;
    var r := m3 % 100;
    Groups(c, l, t, h, r)
  }

  /** The leading groups of `process`, each a word followed by its unit. */
  function Scaled(g: Groups): seq<string>
    requires g.crores < 100 && g.lakhs < 100 && g.thousands < 100 && g.hundreds < 10
  {
    (if g.crores > 0 then [TwoDigits(g.crores) + " Crore"] else [])
    + (if g.lakhs > 0 then [TwoDigits(g.lakhs) + " Lakh"] else [])
    + (if g.thousands > 0 then [TwoDigits(g.thousands) + " Thousand"] else [])
    + (if g.hundreds > 0 then [TwoDigits(g.hundreds) + " Hundred"] else [])
  }

  /** The parts `process` joins: the leading groups, then "and" and the last two digits. */
  function Parts(n: nat): seq<string>
    requires n < 1000000000
  {
    var g := Split(n);
    var lead := Scaled(g);
    if g.rest == 0 then lead
    else if lead == [] then [TwoDigits(g.rest)]
    else lead + ["and", TwoDigits(g.rest)]
  }

  /**
   * "and" stands before the last two digits when a crore, lakh, thousand or
   * hundred was written before them.
   */
  lemma AndBeforeLastTwoDigits(n: nat)
    requires n < 1000000000 && n % 100 != 0 && n >= 100
    ensures |Parts(n)| >= 3 && Parts(n)[|Parts(n)| - 2] == "and" && Parts(n)[|Parts(n)| - 1] == TwoDigits(n % 100)
  {
    var g := Split(n);
    assert g.rest == n % 100;
    assert g.crores > 0 || g.lakhs > 0 || g.thousands > 0 || g.hundreds > 0;
    assert Scaled(g) != [];
  }

  /** A number below one hundred is its two-digit word alone, without "and". */
  lemma BelowHundredAlone(n: nat)
    requires n < 100
    ensures Parts(n) == (if n == 0 then [] else [TwoDigits(n)])
  {
    var g := Split(n);
    assert g.crores == 0 && g.lakhs == 0 && g.thousands == 0 && g.hundreds == 0 && g.rest == n;
  }

  /** Without last two digits there is no "and". */
  lemma NoAndOnRoundHundreds(n: nat)
    requires n < 1000000000 && n % 100 == 0
    ensures "and" !in Parts(n)
  {
    var g := Split(n);
    assert g.rest == 0;
    forall i | 0 <= i < |Scaled(g)| ensures Scaled(g)[i] != "and" {
      assert |Scaled(g)[i]| > 4;
    }
  }

  /** One when a group is written, zero when it is skipped. */
  function Present(k: nat): nat
  {
    if k > 0 then 1 else 0
  }

  /**
   * One part per non-zero group, in the order Crore, Lakh, Thousand,
   * Hundred: each written group stands after exactly the written groups of
   * larger units.
   */
  lemma OnePartPerGroup(n: nat)
    requires n < 1000000000
    ensures var g := Split(n);
      |Scaled(g)| == Present(g.crores) + Present(g.lakhs) + Present(g.thousands) + Present(g.hundreds)
    ensures var g := Split(n);
      g.crores > 0 ==> Scaled(g)[0] == TwoDigits(g.crores) + " Crore"
    ensures var g := Split(n);
      g.lakhs > 0 ==> Scaled(g)[Present(g.crores)] == TwoDigits(g.lakhs) + " Lakh"
    ensures var g := Split(n);
      g.thousands > 0 ==> Scaled(g)[Present(g.crores) + Present(g.lakhs)] == TwoDigits(g.thousands) + " Thousand"
    ensures var g := Split(n);
      g.hundreds > 0 ==>
        Scaled(g)[Present(g.crores) + Present(g.lakhs) + Present(g.thousands)] == TwoDigits(g.hundreds) + " Hundred"
  {
  }

  /** The rupee part of the words: the parts joined by spaces and stripped. */
  function RupeeWords(n: nat): string
    requires n < 1000000000
  {
    Strip(JoinSpaces(Parts(n)))
  }

  /**
   * `process`: the parts list is built up group by group while the number is
   * reduced with `%=`; the joined parts are stripped.
   */
  method Process(num: nat) returns (words: string)
    requires num < 1000000000
    ensures words == RupeeWords(num)
  {
    var n := num;
    var crores := n / 10000000;
    n := n % 10000000;
    var lakhs := n / 100000;
    n := n % 100000;
    var thousands := n / 1000;
    n := n % 1000;
    var hundreds := n / 100;
    n := n % 100;
    ghost var g := Split(num);
    assert Groups(crores, lakhs, thousands, hundreds, n) == g;
    var parts := LeadingParts(crores, lakhs, thousands, hundreds);
    if n > 0 {
      if |parts| > 0 {
        parts := parts + ["and"];
      }
      parts := parts + [TwoDigits(n)];
    }
    assert parts == Parts(num);
    words := Strip(JoinSpaces(parts));
  }

  /** The first half of `process`: one part per non-zero group, largest first. */
  method LeadingParts(crores: nat, lakhs: nat, thousands: nat, hundreds: nat) returns (parts: seq<string>)
    requires crores < 100 && lakhs < 100 && thousands < 100 && hundreds < 10
    ensures parts == Scaled(Groups(crores, lakhs, thousands, hundreds, 0))
  {
    parts := [];
    if crores > 0 {
      parts := parts + [TwoDigits(crores) + " Crore"];
    }
    if lakhs > 0 {
      parts := parts + [TwoDigits(lakhs) + " Lakh"];
    }
    if thousands > 0 {
      parts := parts + [TwoDigits(thousands) + " Thousand"];
    }
    if hundreds > 0 {
      parts := parts + [TwoDigits(hundreds) + " Hundred"];
    }
  }

  lemma {:induction false} JoinNonBlank(parts: seq<string>, i: nat)
    requires i < |parts| && |parts[i]| > 0 && parts[i][0] != ' '
    ensures exists j :: 0 <= j < |JoinSpaces(parts)| && JoinSpaces(parts)[j] != ' '
    decreases |parts|
  {
    var s := JoinSpaces(parts);
    if |parts| == 1 {
      assert s[0] == parts[0][0];
    } else if i == |parts| - 1 {
      var pre := JoinSpaces(parts[..|parts| - 1]) + " ";
      assert s == pre + parts[i];
      assert s[|pre|] == parts[i][0];
    } else {
      JoinNonBlank(parts[..|parts| - 1], i);
      var j :| 0 <= j < |JoinSpaces(parts[..|parts| - 1])| && JoinSpaces(parts[..|parts| - 1])[j] != ' ';
      assert s[j] == JoinSpaces(parts[..|parts| - 1])[j];
    }
  }

  lemma StripKeepsNonBlank(s: string, j: nat)
    requires j < |s| && s[j] != ' '
    ensures Strip(s) != []
  {
    var e := TrimEnd(s);
    assert j < |e| && e[j] != ' ';
  }

  /** Every amount of one rupee or more gets a non-empty rupee part. */
  lemma WordsForEveryRupeeAmount(n: nat)
    requires 0 < n < 1000000000
    ensures RupeeWords(n) != []
  {
    var g := Split(n);
    var ps := Parts(n);
    var i: nat;
    if g.crores > 0 {
      TwoDigitsNonBlank(g.crores);
      i := 0;
    } else if g.lakhs > 0 {
      TwoDigitsNonBlank(g.lakhs);
      i := 0;
    } else if g.thousands > 0 {
      TwoDigitsNonBlank(g.thousands);
      i := 0;
    } else if g.hundreds > 0 {
      TwoDigitsNonBlank(g.hundreds);
      i := 0;
    } else {
      assert g.rest > 0;
      TwoDigitsNonBlank(g.rest);
      i := 0;
    }
    assert i < |ps| && |ps[i]| > 0 && ps[i][0] != ' ';
    JoinNonBlank(ps, i);
    var j :| 0 <= j < |JoinSpaces(ps)| && JoinSpaces(ps)[j] != ' ';
    StripKeepsNonBlank(JoinSpaces(ps), j);
  }

  /** The paise of an amount: Python's `round((amount - int(amount)) * 100)`. */
  function Paise(amount: real): (p: int)
    requires amount >= 0.0
    ensures 0 <= p <= 100
  {
    RoundHalfEven((amount - amount.Floor as real) * 100.0)
  }

  /**
   * convert_amount_to_words.  `None` stands for the IndexError `twodigits`
   * raises on a group of one hundred or more: a rupee part of 10^9 or more, or
   * a fraction that rounds up to one hundred paise.
   */
  method ConvertAmountToWords(amount: real) returns (r: Option<string>)
    requires amount >= 0.0
    ensures amount == 0.0 ==> r == Some("Zero")
    ensures amount != 0.0 ==> (r.None? <==> amount.Floor >= 1000000000 || Paise(amount) == 100)
    ensures amount != 0.0 && r.Some? ==>
      var p := Paise(amount);
      r.value == if p > 0 then RupeeWords(amount.Floor) + " and " + TwoDigits(p) + " Paise" else RupeeWords(amount.Floor)
  {
    if amount == 0.0 {
      return Some("Zero");
    }
    var integerPart := amount.Floor;
    var decimalPart := RoundHalfEven((amount - integerPart as real) * 100.0);
    assert decimalPart == Paise(amount);
    if integerPart >= 1000000000 || decimalPart == 100 {
      return None;
    }
    var words := Process(integerPart);
    if decimalPart > 0 {
      words := words + " and " + TwoDigits(decimalPart) + " Paise";
    }
    r := Some(words);
  }
}
