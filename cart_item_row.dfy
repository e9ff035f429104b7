/**
 * One row of the cart page (`CartItemRow`): the stock flags it derives from
 * its line, the typed quantity it turns into store calls, and the
 * once-a-second auto-increment that stops at the line's stock count.
 *
 * A line may carry no stock count (the store's seed lines do not); every
 * comparison with it is then false and `Math.min` with it is `NaN`.
 */
module CartItemRow {
  import opened Wrappers
  import opened CartStore

  /** `item.quantity >= item.stockCount`. */
  predicate ReachedStockLimit(line: CartItem) {
    line.info.stockCount.Some? && line.quantity >= line.info.stockCount.value
  }

  /** The minus button is disabled at quantity one or below. */
  predicate MinusDisabled(line: CartItem) {
    line.quantity <= 1
  }

  /** The "Only n left in stock" note: shown with `n = stockCount - quantity` when `n <= 3`. */
  function LowStockNote(line: CartItem): (r: Option<int>)
    ensures r.Some? <==> line.info.stockCount.Some? && line.info.stockCount.value - line.quantity <= 3
    ensures r.Some? ==> r.value + line.quantity == line.info.stockCount.value && r.value <= 3
  {
    if line.info.stockCount.Some? && line.info.stockCount.value - line.quantity <= 3
    then Some(line.info.stockCount.value - line.quantity)
    else None
  }

  /**
   * The plus button and the auto button are disabled exactly when the line
   * has reached its stock, and the low-stock note is then always shown; a
   * line without a stock count shows no note and never disables plus.
   */
  lemma StockFlagsAgree(line: CartItem)
    ensures ReachedStockLimit(line) ==> LowStockNote(line).Some? && LowStockNote(line).value <= 0
    ensures LowStockNote(line).Some? && LowStockNote(line).value <= 0 ==> ReachedStockLimit(line)
    ensures line.info.stockCount.None? ==> LowStockNote(line).None? && !ReachedStockLimit(line)
  {
  }

  /** Example: because the store does not cap quantities, the note can show a negative count. */
  lemma LowStockNoteCanBeNegative(info: ItemInfo)
    requires info.stockCount == Some(2)
    ensures LowStockNote(CartItem(info, 5)) == Some(-3)
  {
  }

  /**
   * `Math.min(value, item.stockCount)` for a positive typed value: `None`
   * stands for the `NaN` a missing stock count gives, which makes both
   * `diff > 0` and `diff < 0` false.
   */
  function AsWrittenTarget(value: int, stock: Option<nat>): (r: Option<nat>)
    requires value > 0
    ensures r.Some? <==> stock.Some?
    ensures r.Some? ==> r.value <= value && r.value <= stock.value && (r.value == value || r.value == stock.value)
  {
    if stock.None? then None else Some(if value < stock.value then value else stock.value)
  }

  /** The evidently intended target: the typed value, capped by the stock count when there is one. */
  function IntendedTarget(value: int, stock: Option<nat>): (r: nat)
    requires value > 0
    ensures r <= value
    ensures stock.Some? ==> r <= stock.value && (r == value || r == stock.value)
    ensures stock.None? ==> r == value
  {
    if stock.Some? && stock.value < value then stock.value else value
  }

  /** Where the two agree: whenever the line carries a stock count. */
  lemma TargetsAgreeWithStock(value: int, stock: Option<nat>)
    requires value > 0
    ensures stock.Some? <==> AsWrittenTarget(value, stock) == Some(IntendedTarget(value, stock))
  {
  }

  /** A seed line (no stock count) ignores a typed quantity as written; the intended target is the typed value. */
  lemma SeedLineIgnoresTypedQuantity()
    ensures SeedItems()[0].info.stockCount.None?
    ensures AsWrittenTarget(5, SeedItems()[0].info.stockCount) == None
    ensures IntendedTarget(5, SeedItems()[0].info.stockCount) == 5
  {
  }

  /**
   * The store calls `handleQuantityChange` makes once it has a target: one
   * `addItem(baseItem, diff)` to raise the line, or `|diff|` calls of
   * `decreaseQty` to lower it (the last removing it when the target is zero).
   * Every other line stays the same object in the same order, and the row's
   * own line keeps its product data.
   */
  method StepTo(cart: Cart, item: CartItem, target: nat)
    requires WellFormed(cart.items) && item in cart.items
    modifies cart
    ensures WellFormed(cart.items)
    ensures QuantityOf(cart.items, KeyOf(item)) == target
    ensures forall other :: other != KeyOf(item) ==> QuantityOf(cart.items, other) == old(QuantityOf(cart.items, other))
    ensures Others(cart.items, KeyOf(item)) == Others(old(cart.items), KeyOf(item))
    ensures forall line :: line in cart.items && KeyOf(line) == KeyOf(item) ==> line.info == item.info
  {
    if target > item.quantity {
      RaiseTo(cart, item, target);
    } else if target < item.quantity {
      LowerTo(cart, item, target);
    } else {
      var k :| 0 <= k < |cart.items| && cart.items[k] == item;
      QuantityOfUniqueLine(cart.items, k, KeyOf(item));
      KeyLinesAreLine(cart.items, item);
    }
  }

  /** `addItem(baseItem, diff)` for a target above the line's quantity. */
  method RaiseTo(cart: Cart, item: CartItem, target: nat)
    requires WellFormed(cart.items) && item in cart.items && target > item.quantity
    modifies cart
    ensures WellFormed(cart.items)
    ensures QuantityOf(cart.items, KeyOf(item)) == target
    ensures forall other :: other != KeyOf(item) ==> QuantityOf(cart.items, other) == old(QuantityOf(cart.items, other))
    ensures Others(cart.items, KeyOf(item)) == Others(old(cart.items), KeyOf(item))
    ensures forall line :: line in cart.items && KeyOf(line) == KeyOf(item) ==> line.info == item.info
  {
    var key := KeyOf(item);
    var diff := target - item.quantity;
    ghost var before := cart.items;
    ghost var k :| 0 <= k < |before| && before[k] == item;
    QuantityOfUniqueLine(before, k, key);
    KeyLinesAreLine(before, item);
    assert Matches(before[k], item.info.id, item.info.configuration);
    AddItemQuantities(before, item.info, diff, key);
    AddItemWellFormed(before, item.info, diff);
    AddItemKeepsOthers(before, item.info, diff);
    forall other | other != key
      ensures QuantityOf(AddItemTo(before, item.info, diff), other) == QuantityOf(before, other)
    {
      AddItemQuantities(before, item.info, diff, other);
    }
    ghost var after := AddItemTo(before, item.info, diff);
    forall line | line in after && KeyOf(line) == key
      ensures line.info == item.info
    {
      var j :| 0 <= j < |after| && after[j] == line;
      assert before[j] in before;
    }
    cart.AddItem(item.info, diff);
  }

  /** `|diff|` calls of `decreaseQty` for a target below the line's quantity. */
  method LowerTo(cart: Cart, item: CartItem, target: nat)
    requires WellFormed(cart.items) && item in cart.items && target < item.quantity
    modifies cart
    ensures WellFormed(cart.items)
    ensures QuantityOf(cart.items, KeyOf(item)) == target
    ensures forall other :: other != KeyOf(item) ==> QuantityOf(cart.items, other) == old(QuantityOf(cart.items, other))
    ensures Others(cart.items, KeyOf(item)) == Others(old(cart.items), KeyOf(item))
    ensures forall line :: line in cart.items && KeyOf(line) == KeyOf(item) ==> line.info == item.info
  {
    var key := KeyOf(item);
    var id := item.info.id;
    var config := item.info.configuration;
    var k :| 0 <= k < |cart.items| && cart.items[k] == item;
    QuantityOfUniqueLine(cart.items, k, key);
    KeyLinesAreLine(cart.items, item);
    var n := item.quantity - target;
    var i := 0;
    while i < n
      invariant 0 <= i <= n
      invariant WellFormed(cart.items)
      invariant QuantityOf(cart.items, key) == item.quantity - i
      invariant forall other :: other != key ==> QuantityOf(cart.items, other) == old(QuantityOf(cart.items, other))
      invariant Others(cart.items, key) == Others(old(cart.items), key)
      invariant forall line :: line in cart.items && KeyOf(line) == key ==> line.info == item.info
    {
      ghost var before := cart.items;
      DecreaseStep(before, item);
      cart.DecreaseQty(id, config);
      i := i + 1;
    }
  }

  /** One `decreaseQty` on the row's line of a well-formed cart, while the line is above zero. */
  lemma DecreaseStep(before: seq<CartItem>, item: CartItem)
    requires WellFormed(before) && QuantityOf(before, KeyOf(item)) > 0
    requires forall line :: line in before && KeyOf(line) == KeyOf(item) ==> line.info == item.info
    ensures var after := DecreaseIn(before, item.info.id, item.info.configuration);
      WellFormed(after) &&
      QuantityOf(after, KeyOf(item)) == QuantityOf(before, KeyOf(item)) - 1 &&
      (forall other :: other != KeyOf(item) ==> QuantityOf(after, other) == QuantityOf(before, other)) &&
      Others(after, KeyOf(item)) == Others(before, KeyOf(item)) &&
      (forall line :: line in after && KeyOf(line) == KeyOf(item) ==> line.info == item.info)
  {
    var key := KeyOf(item);
    var id := item.info.id;
    var config := item.info.configuration;
    WellFormedQuantityPositive(before, key);
    HasLineCount(before, id, config);
    DecreaseQtyQuantities(before, id, config, key);
    DecreaseQtyWellFormed(before, id, config);
    DecreaseKeepsOthers(before, id, config);
    forall other | other != key
      ensures QuantityOf(DecreaseIn(before, id, config), other) == QuantityOf(before, other)
    {
      DecreaseQtyQuantities(before, id, config, other);
    }
    var bumped := BumpMatching(before, id, config, -1);
    forall line | line in DecreaseIn(before, id, config) && KeyOf(line) == key
      ensures line.info == item.info
    {
      var j :| 0 <= j < |bumped| && bumped[j] == line;
      assert before[j] in before;
    }
  }

  /**
   * `handleQuantityChange(value)` as written. `None` is a typed value that is
   * not a finite number. A non-positive value, or a line without a stock
   * count, leaves the cart as it was; otherwise the line ends at
   * `min(value, stockCount)` and no other line changes.
   */
  method HandleQuantityChange(cart: Cart, item: CartItem, value: Option<int>)
    requires WellFormed(cart.items) && item in cart.items
    modifies cart
    ensures value.None? || value.value <= 0 || item.info.stockCount.None? ==> cart.items == old(cart.items)
    ensures value.Some? && value.value > 0 && item.info.stockCount.Some? ==>
      QuantityOf(cart.items, KeyOf(item)) == AsWrittenTarget(value.value, item.info.stockCount).value
    ensures forall other :: other != KeyOf(item) ==> QuantityOf(cart.items, other) == old(QuantityOf(cart.items, other))
    ensures Others(cart.items, KeyOf(item)) == Others(old(cart.items), KeyOf(item))
    ensures forall line :: line in cart.items && KeyOf(line) == KeyOf(item) ==> line.info == item.info
    ensures WellFormed(cart.items)
  {
    KeyLinesAreLine(cart.items, item);
    if value.None? || value.value <= 0 {
      return;
    }
    var target := AsWrittenTarget(value.value, item.info.stockCount);
    if target.None? {
      return;
    }
    StepTo(cart, item, target.value);
  }

  /** `handleQuantityChange` as evidently intended: a line without a stock count takes the typed value. */
  method HandleQuantityChangeIntended(cart: Cart, item: CartItem, value: Option<int>)
    requires WellFormed(cart.items) && item in cart.items
    modifies cart
    ensures value.None? || value.value <= 0 ==> cart.items == old(cart.items)
    ensures value.Some? && value.value > 0 ==>
      QuantityOf(cart.items, KeyOf(item)) == IntendedTarget(value.value, item.info.stockCount)
    ensures forall other :: other != KeyOf(item) ==> QuantityOf(cart.items, other) == old(QuantityOf(cart.items, other))
    ensures Others(cart.items, KeyOf(item)) == Others(old(cart.items), KeyOf(item))
    ensures forall line :: line in cart.items && KeyOf(line) == KeyOf(item) ==> line.info == item.info
    ensures WellFormed(cart.items)
  {
    KeyLinesAreLine(cart.items, item);
    if value.None? || value.value <= 0 {
      return;
    }
    StepTo(cart, item, IntendedTarget(value.value, item.info.stockCount));
  }

  /** One tick of the interval: the new lines, and whether the interval stopped itself. */
  function TickIn(items: seq<CartItem>, id: string, config: Option<Config>): (seq<CartItem>, bool) {
    var k := FirstMatch(items, id, config);
    if k == -1 then (items, false)
    else if ReachedStockLimit(items[k]) then (items, true)
    else (IncreaseIn(items, id, config), false)
  }

  /**
   * A tick stops the interval exactly when the row's line is at its stock
   * count, and then changes nothing; otherwise it adds one to every
   * matching line, and with no matching line it changes nothing.
   */
  lemma TickInSpec(items: seq<CartItem>, id: string, config: Option<Config>)
    ensures var t := TickIn(items, id, config);
      (t.1 <==> HasLine(items, id, config) && ReachedStockLimit(items[FirstMatch(items, id, config)])) &&
      (t.1 || !HasLine(items, id, config) ==> t.0 == items) &&
      (!t.1 && HasLine(items, id, config) ==> t.0 == IncreaseIn(items, id, config))
  {
  }

  /** `n` ticks, none after the interval has stopped. */
  function RunTicks(items: seq<CartItem>, id: string, config: Option<Config>, n: nat): (seq<CartItem>, bool)
    decreases n
  {
    if n == 0 then (items, false)
    else
      var t := TickIn(items, id, config);
      if t.1 then t else RunTicks(t.0, id, config, n - 1)
  }

  /**
   * The quantity of a line at `q` after `n` ticks: one unit per tick until a
   * tick finds it at (or above) its stock count, then no more.
   */
  function TickedQuantity(q: int, n: nat, stock: Option<nat>): int {
    if stock.Some? && q + n > stock.value then
      (if q > stock.value then q else stock.value)
    else
      q + n
  }

  /**
   * Auto-increment reaches the stock count and stops there: `n` ticks take
   * the line from `q` to `min(q + n, s)` (a line already above `s` keeps its
   * quantity), and the interval has stopped exactly when some tick found the
   * line at `s` or more; a line without a stock count gains one unit per
   * tick and the interval never stops.
   */
  lemma AutoIncrementStopsAtStock(items: seq<CartItem>, id: string, config: Option<Config>, n: nat,
                                  q: int, stock: Option<nat>)
    requires WellFormed(items) && RowAt(items, id, config, q, stock)
    ensures QuantityOf(RunTicks(items, id, config, n).0, KeyFor(id, config)) == TickedQuantity(q, n, stock)
    ensures RunTicks(items, id, config, n).1 <==> n > 0 && stock.Some? && q + n > stock.value
  {
    RunFrom(items, id, config, n, q, stock);
    RunKeepsWellFormed(items, id, config, n);
    RowQuantity(RunTicks(items, id, config, n).0, id, config);
  }

  /** The line the row reads (the first match) is there, with quantity `q` and stock count `stock`. */
  predicate RowAt(items: seq<CartItem>, id: string, config: Option<Config>, q: int, stock: Option<nat>) {
    FirstMatch(items, id, config) >= 0 &&
    items[FirstMatch(items, id, config)].quantity == q &&
    items[FirstMatch(items, id, config)].info.stockCount == stock
  }

  /** In a well-formed cart the line the row reads carries the whole quantity of its (id, configuration). */
  lemma RowQuantity(items: seq<CartItem>, id: string, config: Option<Config>)
    requires WellFormed(items) && HasLine(items, id, config)
    ensures QuantityOf(items, KeyFor(id, config)) == items[FirstMatch(items, id, config)].quantity
  {
    var k := FirstMatch(items, id, config);
    MatchesMeansSameKey(items[k], id, config);
    QuantityOfUniqueLine(items, k, KeyFor(id, config));
  }

  /** Ticking never breaks the cart: a run of ticks keeps it well formed. */
  lemma {:induction false} RunKeepsWellFormed(items: seq<CartItem>, id: string, config: Option<Config>, n: nat)
    requires WellFormed(items)
    decreases n
    ensures WellFormed(RunTicks(items, id, config, n).0)
  {
    if n > 0 && !TickIn(items, id, config).1 {
      IncreaseQtyWellFormed(items, id, config);
      RunKeepsWellFormed(TickIn(items, id, config).0, id, config, n - 1);
    }
  }

  /**
   * The `n` ticks from quantity `q` leave the line the row reads at
   * `TickedQuantity(q, n, stock)`, and stop exactly when a tick finds it at
   * its stock count.
   */
  lemma {:induction false} RunFrom(items: seq<CartItem>, id: string, config: Option<Config>, n: nat,
                                   q: int, stock: Option<nat>)
    requires RowAt(items, id, config, q, stock)
    decreases n, 2
    ensures RowAt(RunTicks(items, id, config, n).0, id, config, TickedQuantity(q, n, stock), stock)
    ensures RunTicks(items, id, config, n).1 <==> n > 0 && stock.Some? && q + n > stock.value
  {
    if n == 0 || (stock.Some? && q >= stock.value) {
      RunDone(items, id, config, n, q, stock);
    } else {
      RunStep(items, id, config, n, q, stock);
    }
  }

  /** No tick left, or a line at its stock count: the run stops at once and changes nothing. */
  lemma RunDone(items: seq<CartItem>, id: string, config: Option<Config>, n: nat,
                q: int, stock: Option<nat>)
    requires RowAt(items, id, config, q, stock)
    requires n == 0 || (stock.Some? && q >= stock.value)
    ensures RowAt(RunTicks(items, id, config, n).0, id, config, TickedQuantity(q, n, stock), stock)
    ensures RunTicks(items, id, config, n).1 <==> n > 0 && stock.Some? && q + n > stock.value
  {
    if n == 0 {
      assert RunTicks(items, id, config, n) == (items, false);
    } else {
      RunTicksStopped(items, id, config, n);
    }
  }

  /** A line below its stock count: one tick adds a unit and the rest of the run follows. */
  lemma RunStep(items: seq<CartItem>, id: string, config: Option<Config>, n: nat,
                q: int, stock: Option<nat>)
    requires RowAt(items, id, config, q, stock)
    requires n > 0 && !(stock.Some? && q >= stock.value)
    decreases n, 1
    ensures RowAt(RunTicks(items, id, config, n).0, id, config, TickedQuantity(q, n, stock), stock)
    ensures RunTicks(items, id, config, n).1 <==> n > 0 && stock.Some? && q + n > stock.value
  {
    RunStepRow(items, id, config, n, q, stock);
    RunStepStops(items, id, config, n, q, stock);
  }

  /** The line after a run that starts below the stock count. */
  lemma {:induction false} RunStepRow(items: seq<CartItem>, id: string, config: Option<Config>, n: nat,
                                      q: int, stock: Option<nat>)
    requires RowAt(items, id, config, q, stock)
    requires n > 0 && !(stock.Some? && q >= stock.value)
    decreases n, 0
    ensures RowAt(RunTicks(items, id, config, n).0, id, config, TickedQuantity(q, n, stock), stock)
  {
    var next := TickAdvancesRow(items, id, config, n, q, stock);
    RunFrom(next, id, config, n - 1, q + 1, stock);
    TickedQuantityStep(q, n, stock);
  }

  /** Whether a run that starts below the stock count has stopped. */
  lemma {:induction false} RunStepStops(items: seq<CartItem>, id: string, config: Option<Config>, n: nat,
                                        q: int, stock: Option<nat>)
    requires RowAt(items, id, config, q, stock)
    requires n > 0 && !(stock.Some? && q >= stock.value)
    decreases n, 0
    ensures RunTicks(items, id, config, n).1 <==> n > 0 && stock.Some? && q + n > stock.value
  {
    var next := TickAdvancesRow(items, id, config, n, q, stock);
    RunFrom(next, id, config, n - 1, q + 1, stock);
    TickedQuantityStep(q, n, stock);
  }

  /** One unit added below the stock count leaves the same target and the same stopping condition. */
  lemma TickedQuantityStep(q: int, n: nat, stock: Option<nat>)
    requires n > 0 && !(stock.Some? && q >= stock.value)
    ensures TickedQuantity(q + 1, n - 1, stock) == TickedQuantity(q, n, stock)
    ensures (n - 1 > 0 && stock.Some? && q + 1 + (n - 1) > stock.value) <==> (stock.Some? && q + n > stock.value)
  {
  }

  /** A tick below the stock count: the run goes on from the increased cart, where the line has one more unit. */
  lemma TickAdvancesRow(items: seq<CartItem>, id: string, config: Option<Config>, n: nat, q: int, stock: Option<nat>)
    returns (next: seq<CartItem>)
    requires RowAt(items, id, config, q, stock) && n > 0 && !(stock.Some? && q >= stock.value)
    ensures RunTicks(items, id, config, n) == RunTicks(next, id, config, n - 1)
    ensures RowAt(next, id, config, q + 1, stock)
  {
    next := IncreaseIn(items, id, config);
    RunTicksAdvances(items, id, config, n);
    var k := FirstMatch(items, id, config);
    FirstMatchIgnoresQuantities(items, IncreaseIn(items, id, config), id, config);
    assert Matches(IncreaseIn(items, id, config)[k], id, config);
  }

  /** A tick that finds the line below its stock count adds one and the run goes on. */
  lemma RunTicksAdvances(items: seq<CartItem>, id: string, config: Option<Config>, n: nat)
    requires HasLine(items, id, config) && n > 0
    requires !ReachedStockLimit(items[FirstMatch(items, id, config)])
    ensures RunTicks(items, id, config, n) == RunTicks(IncreaseIn(items, id, config), id, config, n - 1)
  {
    assert TickIn(items, id, config) == (IncreaseIn(items, id, config), false);
  }

  /** A tick that finds the line at its stock count stops the run and changes nothing. */
  lemma RunTicksStopped(items: seq<CartItem>, id: string, config: Option<Config>, n: nat)
    requires HasLine(items, id, config) && n > 0
    requires ReachedStockLimit(items[FirstMatch(items, id, config)])
    ensures RunTicks(items, id, config, n) == (items, true)
  {
  }

  /** A tick that increases: the cart stays well formed and the same line gains one. */
  lemma IncreasingTick(items: seq<CartItem>, id: string, config: Option<Config>)
    requires WellFormed(items) && HasLine(items, id, config)
    ensures var k := FirstMatch(items, id, config);
      var next := IncreaseIn(items, id, config);
      WellFormed(next) && HasLine(next, id, config) && FirstMatch(next, id, config) == k &&
      next[k].info == items[k].info && next[k].quantity == items[k].quantity + 1
  {
    var k := FirstMatch(items, id, config);
    var next := IncreaseIn(items, id, config);
    IncreaseQtyWellFormed(items, id, config);
    FirstMatchIgnoresQuantities(items, next, id, config);
    assert Matches(next[k], id, config);
  }

  /** The interval (`intervalRef.current`) and the `isAutoRunning` flag of one row. */
  class AutoIncrement {
    var intervalActive: bool
    var isAutoRunning: bool

    predicate Valid()
      reads this
    {
      intervalActive == isAutoRunning
    }

    constructor ()
      ensures !intervalActive && !isAutoRunning && Valid()
    {
      intervalActive := false;
      isAutoRunning := false;
    }

    /** `toggleAutoIncrement`: stop a running interval, or start one unless the line is at its stock. */
    method Toggle(item: CartItem)
      modifies this
      ensures old(intervalActive) ==> !intervalActive && !isAutoRunning
      ensures !old(intervalActive) && ReachedStockLimit(item) ==> !intervalActive && isAutoRunning == old(isAutoRunning)
      ensures !old(intervalActive) && !ReachedStockLimit(item) ==> intervalActive && isAutoRunning
      ensures old(Valid()) ==> Valid()
    {
      if intervalActive {
        intervalActive := false;
        isAutoRunning := false;
        return;
      }
      if ReachedStockLimit(item) {
        return;
      }
      intervalActive := true;
      isAutoRunning := true;
    }

    /** One run of the interval callback, reading the line afresh from the store. */
    method Tick(cart: Cart, item: CartItem)
      requires intervalActive
      modifies this, cart
      ensures (cart.items, !intervalActive) == TickIn(old(cart.items), item.info.id, item.info.configuration)
      ensures intervalActive ==> isAutoRunning == old(isAutoRunning)
      ensures !intervalActive ==> !isAutoRunning
    {
      var k := FirstMatch(cart.items, item.info.id, item.info.configuration);
      if k == -1 {
        return;
      }
      var current := cart.items[k];
      if ReachedStockLimit(current) {
        intervalActive := false;
        isAutoRunning := false;
        return;
      }
      cart.IncreaseQty(item.info.id, item.info.configuration);
    }
  }
}
