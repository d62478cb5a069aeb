/** `ProductSerializer.get_final_price`. */
module Pricing {

  import opened Wrappers

  /** Python truthiness of the nullable `discount_percent`: neither None nor 0. */
  predicate IsTruthy(discountPercent: Option<int>)
  {
    discountPercent.Some? && discountPercent.value != 0
  }

  /** The final price of a product. The discounted branch is floating-point
      arithmetic with rounding to two places, kept opaque as `discounted`. */
  function FinalPrice(price: real, discountPercent: Option<int>, discounted: (real, int) -> real): (r: real)
    ensures discountPercent == None ==> r == price
    ensures discountPercent == Some(0) ==> r == price
    ensures IsTruthy(discountPercent) ==> r == discounted(price, discountPercent.value)
    ensures r != price ==> IsTruthy(discountPercent)
  {
    if IsTruthy(discountPercent) then discounted(price, discountPercent.value)
    else price
  }

  /** Without a discount the discounted-price computation is never consulted. */
  lemma UndiscountedIgnoresDiscountRule(price: real, discountPercent: Option<int>, f: (real, int) -> real, g: (real, int) -> real)
    requires !IsTruthy(discountPercent)
    ensures FinalPrice(price, discountPercent, f) == FinalPrice(price, discountPercent, g) == price
  {
  }
}
