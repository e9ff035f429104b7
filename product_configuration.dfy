/**
 * The product page's configuration panel (`ProductConfiguration`): colour
 * and size choice and a quantity kept between one and the stock count (one
 * when the stock count is zero).
 */
module ProductConfiguration {
  import opened Wrappers
  import opened ProductTypes
  import Text

  /** `stockCount || 1`: the largest quantity the panel allows. */
  function Cap(product: ProductDetails): (c: nat)
    ensures c >= 1
    ensures product.stockCount > 0 ==> c == product.stockCount
    ensures product.stockCount == 0 ==> c == 1
  {
    if product.stockCount == 0 then 1 else product.stockCount
  }

  /** `Math.min(prev + 1, cap)`. */
  function Incremented(q: int, cap: int): (r: int)
    ensures q < cap ==> r == q + 1
    ensures r <= cap && (q <= cap ==> q <= r)
  {
    if q + 1 < cap then q + 1 else cap
  }

  /** `Math.max(prev - 1, 1)`. */
  function Decremented(q: int): (r: int)
    ensures r >= 1
    ensures q >= 2 ==> r == q - 1
    ensures q <= 1 ==> r == 1
  {
    if q - 1 > 1 then q - 1 else 1
  }

  /** The typed entry is taken only when it is a number in `[1, cap]`; `None` is `NaN`. */
  function Entered(q: int, typed: Option<int>, cap: int): (r: int)
    ensures 1 <= q <= cap ==> 1 <= r <= cap
    ensures r != q ==> typed == Some(r)
    ensures typed.None? ==> r == q
  {
    if typed.Some? && 1 <= typed.value <= cap then typed.value else q
  }

  /** A user action on the quantity controls. */
  datatype QuantityAction = Increment | Decrement | Enter(typed: Option<int>)

  function Step(q: int, a: QuantityAction, cap: int): int {
    match a
    case Increment => Incremented(q, cap)
    case Decrement => Decremented(q)
    case Enter(typed) => Entered(q, typed, cap)
  }

  /** The quantity after a sequence of actions. */
  function Run(q: int, actions: seq<QuantityAction>, cap: int): int
    decreases |actions|
  {
    if actions == [] then q else Run(Step(q, actions[0], cap), actions[1..], cap)
  }

  /** Whatever the user does, the quantity stays between one and the cap. */
  lemma {:induction false} QuantityStaysInRange(q: int, actions: seq<QuantityAction>, cap: int)
    requires 1 <= q <= cap
    ensures 1 <= Run(q, actions, cap) <= cap
    decreases |actions|
  {
    if actions != [] {
      QuantityStaysInRange(Step(q, actions[0], cap), actions[1..], cap);
    }
  }

  /** `n` presses of plus from `q` reach `min(q + n, cap)`. */
  lemma {:induction false} IncrementsSaturate(q: int, n: nat, cap: int)
    requires 1 <= q <= cap
    ensures Run(q, seq(n, _ => Increment), cap) == if q + n < cap then q + n else cap
    decreases n
  {
    if n > 0 {
      var actions := seq(n, _ => Increment);
      assert actions[0] == Increment && actions[1..] == seq(n - 1, _ => Increment);
      IncrementsSaturate(Incremented(q, cap), n - 1, cap);
    }
  }

  /** Minus undoes plus below the cap, and plus undoes minus above one. */
  lemma IncrementDecrementInverse(q: int, cap: int)
    requires 1 <= q <= cap
    ensures q < cap ==> Decremented(Incremented(q, cap)) == q
    ensures q > 1 ==> Incremented(Decremented(q), cap) == q
  {
  }

  /** What `handleAddToCart` hands to `onAddToCart`. */
  datatype ConfiguredProduct = ConfiguredProduct(
    product: ProductDetails, quantity: int, selectedColor: Option<string>, selectedSize: Option<string>)

  /** `colors[0]`: the first entry, if any. */
  function First(s: seq<string>): (r: Option<string>)
    ensures r.Some? <==> s != []
    ensures r.Some? ==> r.value == s[0]
  {
    if s == [] then None else Some(s[0])
  }

  class Configurator {
    const product: ProductDetails
    var quantity: int
    var selectedColor: Option<string>
    var selectedSize: Option<string>

    function Colors(): seq<string> {
      product.colors.GetOr([])
    }

    function Sizes(): seq<string> {
      product.sizes.GetOr([])
    }

    /** The quantity is in range and each choice is one of the offered values, present when any is offered. */
    predicate Valid()
      reads this
    {
      1 <= quantity <= Cap(product) &&
      (selectedColor.Some? ==> selectedColor.value in Colors()) && (Colors() != [] ==> selectedColor.Some?) &&
      (selectedSize.Some? ==> selectedSize.value in Sizes()) && (Sizes() != [] ==> selectedSize.Some?)
    }

    constructor (product: ProductDetails)
      ensures this.product == product
      ensures quantity == 1
      ensures selectedColor == First(product.colors.GetOr([])) && selectedSize == First(product.sizes.GetOr([]))
      ensures Valid()
    {
      this.product := product;
      quantity := 1;
      selectedColor := First(product.colors.GetOr([]));
      selectedSize := First(product.sizes.GetOr([]));
    }

    method IncrementQuantity()
      modifies this
      ensures quantity == Incremented(old(quantity), Cap(product))
      ensures selectedColor == old(selectedColor) && selectedSize == old(selectedSize)
      ensures old(Valid()) ==> Valid()
    {
      quantity := Incremented(quantity, Cap(product));
    }

    method DecrementQuantity()
      modifies this
      ensures quantity == Decremented(old(quantity))
      ensures selectedColor == old(selectedColor) && selectedSize == old(selectedSize)
      ensures old(Valid()) ==> Valid()
    {
      quantity := Decremented(quantity);
    }

    /** The quantity input's `onChange`. */
    method EnterQuantity(typed: Option<int>)
      modifies this
      ensures quantity == Entered(old(quantity), typed, Cap(product))
      ensures selectedColor == old(selectedColor) && selectedSize == old(selectedSize)
      ensures old(Valid()) ==> Valid()
    {
      quantity := Entered(quantity, typed, Cap(product));
    }

    /** A click on one of the colour buttons. */
    method SelectColor(color: string)
      requires color in Colors()
      modifies this
      ensures selectedColor == Some(color)
      ensures quantity == old(quantity) && selectedSize == old(selectedSize)
      ensures old(Valid()) ==> Valid()
    {
      selectedColor := Some(color);
    }

    /** A click on one of the size buttons. */
    method SelectSize(size: string)
      requires size in Sizes()
      modifies this
      ensures selectedSize == Some(size)
      ensures quantity == old(quantity) && selectedColor == old(selectedColor)
      ensures old(Valid()) ==> Valid()
    {
      selectedSize := Some(size);
    }

    /** `handleAddToCart`: nothing for a product out of stock, else the product with the current choices. */
    method HandleAddToCart() returns (r: Option<ConfiguredProduct>)
      ensures r.None? <==> !product.inStock
      ensures r.Some? ==> r.value == ConfiguredProduct(product, quantity, selectedColor, selectedSize)
    {
      if !product.inStock {
        return None;
      }
      r := Some(ConfiguredProduct(product, quantity, selectedColor, selectedSize));
    }
  }

  /** The minus button is disabled at one, the plus button at the cap. */
  predicate MinusDisabled(q: int) {
    q <= 1
  }

  predicate PlusDisabled(q: int, product: ProductDetails) {
    q >= Cap(product)
  }

  /** A disabled button would not have changed the quantity anyway. */
  lemma DisabledButtonsAreNoOps(q: int, product: ProductDetails)
    requires 1 <= q <= Cap(product)
    ensures MinusDisabled(q) <==> Decremented(q) == q
    ensures PlusDisabled(q, product) <==> Incremented(q, Cap(product)) == q
  {
  }

  /** The stock line under the quantity. */
  function StockLabel(product: ProductDetails): (s: string)
    ensures product.stockCount == 0 <==> s == "Out of stock"
  {
    if product.stockCount > 0 then "Maximum " + Text.NatToString(product.stockCount) + " items available" else "Out of stock"
  }
}
