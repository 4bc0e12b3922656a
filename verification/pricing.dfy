/** The pricing rule, written four times in the source (the cart drawer, the checkout
    page, the Express backend and the serverless checkout) and defined once here.
    Every amount is in centavos. */
module Pricing {
  import opened Cart

  /** Strictly above R$ 199,90 shipping is free. */
  const FreeShippingThreshold: int := 19990
  /** Otherwise shipping costs R$ 14,90. */
  const BaseShipping: int := 1490
  /** The order bump (the make-up sponge offer) costs R$ 9,90. */
  const OrderBumpPrice: int := 990

  /** `Number(item.qty || 1)`: a missing or zero quantity counts as one. */
  function EffectiveQty(qty: int): int {
    if qty == 0 then 1 else qty
  }

  /** `Number(item.price) * Number(item.qty || 1)` */
  function LineTotal(item: CartItem): int {
    item.price * EffectiveQty(item.qty)
  }

  /** The checkout subtotal: the `cart.reduce` of the checkout page and of both handlers. */
  function Subtotal(cart: seq<CartItem>): int {
    SumBy(cart, LineTotal)
  }

  /** `subtotal > SHIPPING_THRESHOLD ? 0 : BASE_SHIPPING` */
  function ShippingCost(subtotal: int): (r: int)
    ensures r == 0 <==> subtotal > FreeShippingThreshold
    ensures r == BaseShipping <==> subtotal <= FreeShippingThreshold
  {
    if subtotal > FreeShippingThreshold then 0 else BaseShipping
  }

  /** `bumpAdded ? ORDER_BUMP_PRICE : 0` */
  function BumpCost(bumpAdded: bool): int {
    if bumpAdded then OrderBumpPrice else 0
  }

  datatype Totals = Totals(subtotal: int, shipping: int, bump: int, amountInCents: int)

  /** Subtotal, shipping, bump and `amountInCents = Math.round(total * 100)`. */
  function ComputeTotals(cart: seq<CartItem>, bumpAdded: bool): (t: Totals)
    ensures t.subtotal == Subtotal(cart)
    ensures t.shipping == 0 <==> t.subtotal > FreeShippingThreshold
    ensures t.shipping == BaseShipping <==> t.subtotal <= FreeShippingThreshold
    ensures t.bump == OrderBumpPrice <==> bumpAdded
    ensures t.bump == 0 <==> !bumpAdded
    ensures t.amountInCents == t.subtotal + t.shipping + t.bump
    ensures t.amountInCents >= t.subtotal
  {
    var subtotal := Subtotal(cart);
    var shipping := ShippingCost(subtotal);
    var bump := BumpCost(bumpAdded);
    Totals(subtotal, shipping, bump, subtotal + shipping + bump)
  }

  /** The amount charged exceeds the subtotal by one of exactly four surcharges. */
  lemma SurchargeValues(cart: seq<CartItem>, bumpAdded: bool)
    ensures var t := ComputeTotals(cart, bumpAdded);
      t.amountInCents - t.subtotal in {0, OrderBumpPrice, BaseShipping, BaseShipping + OrderBumpPrice}
  {
  }

  /** The bump adds exactly R$ 9,90 whatever the cart holds, and changes nothing else. */
  lemma BumpIndependence(cart: seq<CartItem>)
    ensures ComputeTotals(cart, true).amountInCents == ComputeTotals(cart, false).amountInCents + OrderBumpPrice
    ensures ComputeTotals(cart, true).shipping == ComputeTotals(cart, false).shipping
  {
  }

  /** A subtotal of exactly R$ 199,90 still pays shipping; one centavo more does not.
      So the amount charged is not monotone in the subtotal. */
  lemma ThresholdIsExclusive()
    ensures ShippingCost(FreeShippingThreshold) == BaseShipping
    ensures ShippingCost(FreeShippingThreshold + 1) == 0
    ensures ComputeTotals([CartItem("a", "a", "x", 19990, 1)], false).amountInCents == 21480
    ensures ComputeTotals([CartItem("a", "a", "x", 19991, 1)], false).amountInCents == 19991
  {
    var c := [CartItem("a", "a", "x", 19990, 1)];
    assert Subtotal(c) == 19990 by { assert c[1..] == []; }
    var d := [CartItem("a", "a", "x", 19991, 1)];
    assert Subtotal(d) == 19991 by { assert d[1..] == []; }
  }

  /** One product at R$ 87,00: subtotal 87,00, shipping 14,90, total 101,90. */
  lemma SingleItemExample()
    ensures ComputeTotals([CartItem("1", "1", "VF Desodorante", 8700, 1)], false)
      == Totals(8700, 1490, 0, 10190)
  {
    var c := [CartItem("1", "1", "VF Desodorante", 8700, 1)];
    assert c[1..] == [];
  }

  /** The subtotal is additive over concatenated carts. */
  lemma SubtotalAppend(a: seq<CartItem>, b: seq<CartItem>)
    ensures Subtotal(a + b) == Subtotal(a) + Subtotal(b)
  {
    SumByAppend(a, b, LineTotal);
  }

  /** With non-negative prices, no line can lower the subtotal, so the amount is positive. */
  lemma {:induction false} AmountPositive(cart: seq<CartItem>, bumpAdded: bool)
    requires forall i :: 0 <= i < |cart| ==> cart[i].price >= 0 && cart[i].qty >= 0
    ensures Subtotal(cart) >= 0
    ensures ComputeTotals(cart, bumpAdded).amountInCents > 0
    decreases |cart|
  {
    if |cart| > 0 {
      AmountPositive(cart[1..], bumpAdded);
    }
  }

  /** The cart drawer's `cartSubTotal` (stored qty) and the checkout's subtotal
      (`qty || 1`) agree on every cart whose quantities are non-zero, in particular on
      every cart the UI builds. */
  lemma {:induction false} DisplayAgreesWithCheckout(cart: seq<CartItem>)
    requires forall i :: 0 <= i < |cart| ==> cart[i].qty != 0
    ensures DisplaySubtotal(cart) == Subtotal(cart)
    decreases |cart|
  {
    if |cart| > 0 {
      DisplayAgreesWithCheckout(cart[1..]);
    }
  }

  /** On a quantity of 0 the two copies part: the drawer adds nothing for the line, the
      checkout counts one unit (`0 || 1`). */
  lemma DisplayDiffersOnMissingQty()
    ensures DisplaySubtotal([CartItem("a", "a", "x", 8700, 0)]) == 0
    ensures Subtotal([CartItem("a", "a", "x", 8700, 0)]) == 8700
  {
    var c := [CartItem("a", "a", "x", 8700, 0)];
    assert c[1..] == [];
  }

  // ---------------------------------------------------------------------------
  // The cart drawer's free-shipping progress
  // ---------------------------------------------------------------------------

  /** `faltaFreteGratis = Math.max(0, SHIPPING_THRESHOLD - cartSubTotal)` */
  function FaltaFreteGratis(subtotal: int): (r: int)
    ensures r >= 0
    ensures r == 0 <==> subtotal >= FreeShippingThreshold
    ensures r > 0 ==> subtotal + r == FreeShippingThreshold
  {
    if FreeShippingThreshold - subtotal > 0 then FreeShippingThreshold - subtotal else 0
  }

  /** `freteProgress = Math.min(100, (cartSubTotal / SHIPPING_THRESHOLD) * 100)`, a
      percentage computed on exact rationals. */
  function FreteProgress(subtotal: int): (r: real)
    ensures r <= 100.0
    ensures subtotal >= 0 ==> r >= 0.0
    ensures r == 100.0 <==> subtotal >= FreeShippingThreshold
  {
    var p := (subtotal as real / FreeShippingThreshold as real) * 100.0;
    if p < 100.0 then p else 100.0
  }

  /** `finalTotal = cartSubTotal + shippingCost`, the total the drawer and the checkout
      summary display. */
  function FinalTotal(subtotal: int): (r: int)
    ensures r >= subtotal
    ensures r == subtotal <==> subtotal > FreeShippingThreshold
  {
    subtotal + ShippingCost(subtotal)
  }

  /** As written, the drawer shows "you already got free shipping" when nothing is
      missing, `faltaFreteGratis > 0` being false. */
  predicate FreeShippingBannerAsWritten(subtotal: int) {
    !(FaltaFreteGratis(subtotal) > 0)
  }

  /** At exactly R$ 199,90 the drawer announces free shipping while R$ 14,90 is charged. */
  lemma FreeShippingBannerAtThreshold()
    ensures FreeShippingBannerAsWritten(FreeShippingThreshold)
    ensures ShippingCost(FreeShippingThreshold) == BaseShipping
    ensures FinalTotal(FreeShippingThreshold) == FreeShippingThreshold + BaseShipping
  {
  }

  /** Corrected remainder: what is still missing before shipping becomes free, one
      centavo above the threshold being the first free subtotal. */
  function RemainingForFreeShipping(subtotal: int): (r: int)
    ensures r >= 0
    ensures r > 0 <==> ShippingCost(subtotal) == BaseShipping
    ensures r > 0 ==> ShippingCost(subtotal + r) == 0
    ensures r > 0 ==> ShippingCost(subtotal + r - 1) == BaseShipping
  {
    if FreeShippingThreshold + 1 - subtotal > 0 then FreeShippingThreshold + 1 - subtotal else 0
  }

  /** Corrected banner: free shipping is announced exactly when it is granted. */
  predicate FreeShippingBanner(subtotal: int) {
    RemainingForFreeShipping(subtotal) == 0
  }

  lemma FreeShippingBannerMatchesCharge(subtotal: int)
    ensures FreeShippingBanner(subtotal) <==> ShippingCost(subtotal) == 0
    ensures FreeShippingBanner(subtotal) <==> FinalTotal(subtotal) == subtotal
  {
  }
}
