/**
 * `useCart`: the cart page's view of the store. It derives the subtotal,
 * tax, shipping, coupon discount and total, keeps the coupon state, and
 * turns a typed quantity into a single `increaseQty` or `decreaseQty`.
 */
module CartHook {
  import opened Wrappers
  import opened Text
  import opened CartStore

  const TaxRate: real := 0.08
  const ShippingCost: real := 9.99

  /** `items.reduce((sum, item) => sum + item.price * item.quantity, 0)`: line discounts are not applied. */
  function Subtotal(items: seq<CartItem>): (r: real)
    ensures (forall k :: 0 <= k < |items| ==> items[k].info.price >= 0.0 && items[k].quantity >= 0) ==> r >= 0.0
  {
    if items == [] then 0.0 else items[0].info.price * items[0].quantity as real + Subtotal(items[1..])
  }

  /** The line discounts the store's `getTotalPrice` subtracts and the hook's subtotal does not. */
  function LineDiscounts(items: seq<CartItem>): (r: real)
    ensures (forall k :: 0 <= k < |items| ==> items[k].info.discount.GetOr(0.0) >= 0.0 && items[k].quantity >= 0) ==> r >= 0.0
  {
    if items == [] then 0.0 else items[0].info.discount.GetOr(0.0) * items[0].quantity as real + LineDiscounts(items[1..])
  }

  /** Eight percent of the subtotal. */
  function Tax(subtotal: real): (r: real)
    ensures subtotal >= 0.0 ==> 0.0 <= r <= subtotal
    ensures subtotal > 0.0 ==> r > 0.0
  {
    subtotal * TaxRate
  }

  /** Free shipping above 50, else the flat rate. */
  function Shipping(subtotal: real): (r: real)
    ensures r == 0.0 <==> subtotal > 50.0
    ensures r == 0.0 || r == ShippingCost
  {
    if subtotal > 50.0 then 0.0 else ShippingCost
  }

  predicate IsKnownCoupon(code: string) {
    code == "SAVE10" || code == "SAVE20" || code == "FREESHIP"
  }

  /** The discount of the applied coupon, zero when its threshold is not met. */
  function Discount(applied: Option<string>, subtotal: real): (r: real)
    ensures applied.None? || !IsKnownCoupon(applied.value) ==> r == 0.0
    ensures subtotal >= 0.0 ==> 0.0 <= r
    ensures subtotal >= 0.0 ==> r <= subtotal * 0.2 || r == Shipping(subtotal)
  {
    if applied.None? || applied.value == "" then 0.0
    else if applied.value == "SAVE10" && subtotal > 100.0 then subtotal * 0.1
    else if applied.value == "SAVE20" && subtotal > 200.0 then subtotal * 0.2
    else if applied.value == "FREESHIP" then Shipping(subtotal)
    else 0.0
  }

  /** `subtotal + tax + shipping - discount`. */
  function Total(items: seq<CartItem>, applied: Option<string>): (r: real)
    ensures Discount(applied, Subtotal(items)) == 0.0 ==> r == Subtotal(items) * 1.08 + Shipping(Subtotal(items))
  {
    var s := Subtotal(items);
    s + Tax(s) + Shipping(s) - Discount(applied, s)
  }

  /** The store's total is the hook's subtotal less the line discounts. */
  lemma {:induction false} StoreTotalIsSubtotalLessDiscounts(items: seq<CartItem>)
    ensures TotalPrice(items) == Subtotal(items) - LineDiscounts(items)
  {
    if items != [] {
      StoreTotalIsSubtotalLessDiscounts(items[1..]);
      var i := items[0];
      assert LinePrice(i) == i.info.price * i.quantity as real - i.info.discount.GetOr(0.0) * i.quantity as real;
    }
  }

  /** Example: the two totals disagree as soon as a line carries a discount. */
  lemma StoreAndHookDisagreeOnDiscountedLine()
    ensures var line := CartItem(ItemInfo("p", "P", "C", 100.0, Some(10.0), None, None, None, None, None), 1);
      TotalPrice([line]) == 90.0 && Subtotal([line]) == 100.0
  {
  }

  /** What each coupon does to the total of a cart. */
  lemma CouponTotals(items: seq<CartItem>, applied: Option<string>)
    ensures var s := Subtotal(items);
      (applied == Some("FREESHIP") ==> Total(items, applied) == s * 1.08) &&
      (applied == Some("SAVE10") && s > 100.0 ==> Total(items, applied) == s * 0.98) &&
      (applied == Some("SAVE20") && s > 200.0 ==> Total(items, applied) == s * 0.88) &&
      (applied == Some("SAVE10") && s <= 100.0 ==> Total(items, applied) == s * 1.08 + Shipping(s)) &&
      (applied == Some("SAVE20") && s <= 200.0 ==> Total(items, applied) == s * 1.08 + Shipping(s)) &&
      (applied == None ==> Total(items, applied) == s * 1.08 + Shipping(s))
  {
  }

  /** The total never goes below zero and no coupon raises it. */
  lemma TotalBounds(items: seq<CartItem>, applied: Option<string>)
    requires Subtotal(items) >= 0.0
    ensures 0.0 <= Total(items, applied) <= Subtotal(items) * 1.08 + Shipping(Subtotal(items))
  {
  }

  /** `buildCartKey`: the React list key of a line. */
  function BuildCartKey(line: CartItem): (r: string)
    ensures |r| > |line.info.id| && r[..|line.info.id|] == line.info.id && r[|line.info.id|] == '-'
  {
    line.info.id + "-" + ColorOf(line.info.configuration).GetOr("") + "-" + SizeOf(line.info.configuration).GetOr("")
  }

  /** Lines of the same identity get the same list key. */
  lemma BuildCartKeyFollowsIdentity(a: CartItem, b: CartItem)
    requires KeyOf(a) == KeyOf(b)
    ensures BuildCartKey(a) == BuildCartKey(b)
  {
  }

  /** Distinct lines can share a list key: the id may itself contain the separator, and an empty colour reads as none. */
  lemma BuildCartKeyCollisions()
    ensures var info := ItemInfo("p-1", "", "", 0.0, None, None, None, None, None, None);
      var a := CartItem(info, 1);
      var b := CartItem(info.(id := "p", configuration := Some(Config(Some("1-"), None))), 1);
      var c := CartItem(info.(configuration := Some(Config(Some(""), None))), 1);
      KeyOf(a) != KeyOf(b) && BuildCartKey(a) == BuildCartKey(b) &&
      KeyOf(a) != KeyOf(c) && BuildCartKey(a) == BuildCartKey(c)
  {
    var info := ItemInfo("p-1", "", "", 0.0, None, None, None, None, None, None);
    assert BuildCartKey(CartItem(info, 1)) == "p-1--";
    var b := CartItem(info.(id := "p", configuration := Some(Config(Some("1-"), None))), 1);
    assert ColorOf(b.info.configuration).GetOr("") == "1-";
    assert "p" + "-" + "1-" + "-" + "" == "p-1--";
  }

  /** `updateQuantity(id, newQty, config)`: one step towards `newQty` on the matching line, or nothing. */
  function UpdateQuantityIn(items: seq<CartItem>, id: string, newQty: int, config: Option<Config>): (r: seq<CartItem>)
    ensures !HasLine(items, id, config) ==> r == items
    ensures forall line :: line in r ==> line in items || Matches(line, id, config)
  {
    var k := FirstMatch(items, id, config);
    if k == -1 then items
    else if newQty > items[k].quantity then IncreaseIn(items, id, config)
    else if newQty < items[k].quantity then DecreaseIn(items, id, config)
    else items
  }

  function Sign(x: int): int {
    if x > 0 then 1 else if x < 0 then -1 else 0
  }

  /**
   * On a well-formed cart, `updateQuantity` moves the line's quantity exactly
   * one step towards the typed value (removing the line when it reaches
   * zero), leaves every other line alone and keeps the cart well formed.
   */
  lemma UpdateQuantityStep(items: seq<CartItem>, id: string, newQty: int, config: Option<Config>, other: LineKey)
    requires WellFormed(items)
    requires other != KeyFor(id, config)
    ensures var key := KeyFor(id, config);
      var after := UpdateQuantityIn(items, id, newQty, config);
      (HasLine(items, id, config) ==>
        QuantityOf(after, key) == QuantityOf(items, key) + Sign(newQty - QuantityOf(items, key))) &&
      (!HasLine(items, id, config) ==> after == items) &&
      QuantityOf(after, other) == QuantityOf(items, other) &&
      WellFormed(after)
  {
    var key := KeyFor(id, config);
    var k := FirstMatch(items, id, config);
    if k >= 0 {
      QuantityOfUniqueLine(items, k, key);
      IncreaseQtyQuantities(items, id, config, key);
      IncreaseQtyQuantities(items, id, config, other);
      DecreaseQtyQuantities(items, id, config, key);
      DecreaseQtyQuantities(items, id, config, other);
      IncreaseQtyWellFormed(items, id, config);
      DecreaseQtyWellFormed(items, id, config);
    }
  }

  /** The coupon and checkout state of the hook, over the shared store. */
  class CartPage {
    const store: Cart
    var couponCode: string
    var appliedCoupon: Option<string>
    var isCheckoutOpen: bool

    /** Only a known coupon is ever applied. */
    predicate Valid()
      reads this
    {
      appliedCoupon.None? || IsKnownCoupon(appliedCoupon.value)
    }

    constructor (store: Cart)
      ensures this.store == store
      ensures couponCode == "" && appliedCoupon == None && !isCheckoutOpen
      ensures Valid()
    {
      this.store := store;
      couponCode := "";
      appliedCoupon := None;
      isCheckoutOpen := false;
    }

    method SetCouponCode(code: string)
      modifies this
      ensures couponCode == code
      ensures appliedCoupon == old(appliedCoupon) && isCheckoutOpen == old(isCheckoutOpen)
    {
      couponCode := code;
    }

    /** `applyCoupon`: the upper-cased code is applied when known; otherwise the alert is raised and nothing changes. */
    method ApplyCoupon() returns (alerted: bool)
      modifies this
      ensures var code := Upper(old(couponCode));
        (IsKnownCoupon(code) ==> appliedCoupon == Some(code) && !alerted) &&
        (!IsKnownCoupon(code) ==> appliedCoupon == old(appliedCoupon) && alerted)
      ensures couponCode == old(couponCode) && isCheckoutOpen == old(isCheckoutOpen)
      ensures old(Valid()) ==> Valid()
    {
      var code := Upper(couponCode);
      if IsKnownCoupon(code) {
        appliedCoupon := Some(code);
        alerted := false;
      } else {
        alerted := true;
      }
    }

    method SetCheckoutOpen(open: bool)
      modifies this
      ensures isCheckoutOpen == open
      ensures couponCode == old(couponCode) && appliedCoupon == old(appliedCoupon)
    {
      isCheckoutOpen := open;
    }

    /** `updateQuantity`: reads the first matching line, then calls the store once. */
    method UpdateQuantity(id: string, newQty: int, config: Option<Config>)
      modifies store
      ensures store.items == UpdateQuantityIn(old(store.items), id, newQty, config)
    {
      var k := FirstMatch(store.items, id, config);
      if k == -1 {
        return;
      }
      var current := store.items[k];
      if newQty > current.quantity {
        store.IncreaseQty(id, config);
      } else if newQty < current.quantity {
        store.DecreaseQty(id, config);
      }
    }
  }

  /** Example: a lower-case entry applies the coupon. */
  lemma ApplyCouponIgnoresCase()
    ensures Upper("save10") == "SAVE10" && IsKnownCoupon(Upper("save10"))
    ensures Upper("FreeShip") == "FREESHIP"
    ensures !IsKnownCoupon(Upper("save5"))
  {
    UpperSave10();
    UpperFreeShip();
    UpperSave5();
  }

  lemma UpperSave10()
    ensures Upper("save10") == "SAVE10"
  {
  }

  lemma UpperFreeShip()
    ensures Upper("FreeShip") == "FREESHIP"
  {
  }

  lemma UpperSave5()
    ensures Upper("save5") == "SAVE5"
  {
  }
}
