/** The "Shop Complete Look" total of `app/lookbook/page.jsx`: each piece of a look
    carries its price as text such as "$89"; the button adds up
    `Number.parseInt(price.slice(1))` over the pieces, starting from 0. A price that
    does not parse is `NaN`, and `NaN` plus anything is `NaN`, so one bad price makes
    the whole total `NaN` (written `None`). */
module Lookbook {
  import opened Wrappers
  import Text

  datatype Piece = Piece(name: string, price: string, id: int)

  /** `Number.parseInt(p.price.slice(1))`. */
  function PriceValue(p: Piece): Option<int> {
    Text.ParseInt(Text.DropFirst(p.price))
  }

  /** `a + b` on numbers where `NaN` is `None`. */
  function Plus(a: Option<int>, b: Option<int>): Option<int> {
    if a.Some? && b.Some? then Some(a.value + b.value) else None
  }

  /** The parsed prices of the pieces, in order. */
  function Prices(pieces: seq<Piece>): (r: seq<Option<int>>)
    ensures |r| == |pieces|
    ensures forall i :: 0 <= i < |pieces| ==> r[i] == PriceValue(pieces[i])
  {
    seq(|pieces|, i requires 0 <= i < |pieces| => PriceValue(pieces[i]))
  }

  /** The left-to-right `reduce` of `+` from 0 over parsed values; a number exactly
      when every value is one. */
  function NaNSum(vs: seq<Option<int>>): (r: Option<int>)
    ensures r.Some? <==> forall i :: 0 <= i < |vs| ==> vs[i].Some?
    decreases |vs|
  {
    if vs == [] then Some(0)
    else Plus(NaNSum(vs[..|vs| - 1]), vs[|vs| - 1])
  }

  /** The total on the button. */
  function LookTotal(pieces: seq<Piece>): Option<int> {
    NaNSum(Prices(pieces))
  }

  /** The sum of a list of whole numbers. */
  function Sum(ns: seq<int>): int
    decreases |ns|
  {
    if ns == [] then 0 else Sum(ns[..|ns| - 1]) + ns[|ns| - 1]
  }

  /** A price as the catalog writes it: a dollar sign and the decimal amount. */
  function PriceText(n: int): (r: string)
    ensures |r| >= 2 && r[0] == '$'
  {
    "$" + Text.IntText(n)
  }

  /** The pieces of the "Urban Chic" look. */
  const UrbanChic := [Piece("Oversized Blazer", "$89", 1),
                      Piece("High-Waist Jeans", "$65", 2),
                      Piece("White Sneakers", "$120", 3)]

  // ---------------------------------------------------------------- lemmas

  /** Every price written as `PriceText` reads back as its amount. */
  lemma PriceTextValue(n: int)
    ensures Text.ParseInt(Text.DropFirst(PriceText(n))) == Some(n)
  {
    assert Text.DropFirst(PriceText(n)) == Text.IntText(n);
    Text.ParseIntText(n);
  }

  /** The total splits over any division of the values. */
  lemma {:induction false} NaNSumAppend(a: seq<Option<int>>, b: seq<Option<int>>)
    ensures NaNSum(a + b) == Plus(NaNSum(a), NaNSum(b))
    decreases |b|
  {
    if b == [] {
      assert a + b == a;
    } else {
      var c := b[..|b| - 1];
      assert (a + b)[..|a + b| - 1] == a + c;
      assert (a + b)[|a + b| - 1] == b[|b| - 1];
      NaNSumAppend(a, c);
    }
  }

  /** The button's total is a number exactly when every price parses, and the total
      of a look split in two is the sum of the totals of the parts. */
  lemma LookTotalSpec(a: seq<Piece>, b: seq<Piece>)
    ensures LookTotal(a).Some? <==> forall i :: 0 <= i < |a| ==> PriceValue(a[i]).Some?
    ensures LookTotal(a + b) == Plus(LookTotal(a), LookTotal(b))
  {
    assert Prices(a + b) == Prices(a) + Prices(b);
    NaNSumAppend(Prices(a), Prices(b));
  }

  /** When every value is a number, the total is their sum. */
  lemma {:induction false} NaNSumOfNumbers(vs: seq<Option<int>>, amounts: seq<int>)
    requires |vs| == |amounts|
    requires forall i :: 0 <= i < |vs| ==> vs[i] == Some(amounts[i])
    ensures NaNSum(vs) == Some(Sum(amounts))
    decreases |vs|
  {
    if vs != [] {
      var k := |vs| - 1;
      NaNSumOfNumbers(vs[..k], amounts[..k]);
    }
  }

  /** When every price is written as `PriceText` of an amount, the button shows the
      sum of the amounts. */
  lemma LookTotalOfPrices(pieces: seq<Piece>, amounts: seq<int>)
    requires |pieces| == |amounts|
    requires forall i :: 0 <= i < |pieces| ==> pieces[i].price == PriceText(amounts[i])
    ensures LookTotal(pieces) == Some(Sum(amounts))
  {
    var vs := Prices(pieces);
    forall i | 0 <= i < |vs| ensures vs[i] == Some(amounts[i]) {
      PriceTextValue(amounts[i]);
    }
    NaNSumOfNumbers(vs, amounts);
  }

  /** A dollar sign followed by decimal digits reads as the value of the digits. */
  lemma DollarDigits(price: string, d: string)
    requires price == "$" + d && |d| >= 1 && Text.AllDigits(d)
    ensures Text.ParseInt(Text.DropFirst(price)) == Some(Text.DigitsValue(d) as int)
  {
    assert Text.DropFirst(price) == d;
    Text.ParseIntDigits(d);
  }

  /** The digit strings of the "Urban Chic" prices. */
  lemma UrbanChicDigits()
    ensures Text.DigitsValue("89") == 89
    ensures Text.DigitsValue("65") == 65
    ensures Text.DigitsValue("120") == 120
    ensures Text.AllDigits("89") && Text.AllDigits("65") && Text.AllDigits("120")
    ensures "$89" == "$" + "89" && "$65" == "$" + "65" && "$120" == "$" + "120"
  {
    assert "89"[..1] == "8" && "8"[..0] == "";
    assert "65"[..1] == "6" && "6"[..0] == "";
    assert "120"[..2] == "12" && "12"[..1] == "1" && "1"[..0] == "";
  }

  /** A price "$" followed by digits worth `n` reads as `n`. */
  lemma DollarValue(price: string, d: string, n: int)
    requires price == "$" + d && |d| >= 1 && Text.AllDigits(d) && Text.DigitsValue(d) == n
    ensures Text.ParseInt(Text.DropFirst(price)) == Some(n)
  {
    DollarDigits(price, d);
  }

  /** A look priced like "Urban Chic" (lines 16 to 18) parses to 89, 65 and 120. */
  lemma UrbanChicPrices(pieces: seq<Piece>)
    requires |pieces| == 3
    requires pieces[0].price == "$89" && pieces[1].price == "$65" && pieces[2].price == "$120"
    ensures Prices(pieces)[0] == Some(89) && Prices(pieces)[1] == Some(65)
    ensures Prices(pieces)[2] == Some(120)
  {
    UrbanChicDigits();
    DollarValue(pieces[0].price, "89", 89);
    DollarValue(pieces[1].price, "65", 65);
    DollarValue(pieces[2].price, "120", 120);
  }

  /** A three-piece total is the sum of the three values. */
  lemma NaNSumOfThree(vs: seq<Option<int>>)
    requires |vs| == 3 && vs[0].Some? && vs[1].Some? && vs[2].Some?
    ensures NaNSum(vs) == Some(vs[0].value + vs[1].value + vs[2].value)
  {
    var two := vs[..2];
    var one := two[..1];
    assert one[..0] == [] && one[0] == vs[0] && two[1] == vs[1];
    assert NaNSum(one) == Plus(NaNSum([]), vs[0]) == Some(vs[0].value);
    assert NaNSum(two) == Plus(NaNSum(one), vs[1]);
    assert NaNSum(vs) == Plus(NaNSum(two), vs[2]);
  }

  /** A look priced like "Urban Chic" shows $274. */
  lemma UrbanChicTotal(pieces: seq<Piece>)
    requires |pieces| == 3
    requires pieces[0].price == "$89" && pieces[1].price == "$65" && pieces[2].price == "$120"
    ensures LookTotal(pieces) == Some(274)
  {
    UrbanChicPrices(pieces);
    NaNSumOfThree(Prices(pieces));
  }

  /** The button of the "Urban Chic" look itself. */
  lemma UrbanChicButton()
    ensures LookTotal(UrbanChic) == Some(274)
  {
    UrbanChicTotal(UrbanChic);
  }
}
