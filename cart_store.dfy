/**
 * The cart store (`useCartStore`): an ordered list of cart lines and the
 * operations that replace it. A line is identified by its product id and its
 * configuration, compared field by field by `isSameConfig`.
 *
 * The store adds quantities as asked: neither `addItem` nor `increaseQty`
 * looks at a line's stock count.
 */
module CartStore {
  import opened Wrappers
  import opened Seqs

  /** `CartConfiguration`: an optional colour and an optional size. */
  datatype Config = Config(color: Option<string>, size: Option<string>)

  /** `c?.color` for an optional configuration. */
  function ColorOf(c: Option<Config>): Option<string> {
    if c.Some? then c.value.color else None
  }

  /** `c?.size` for an optional configuration. */
  function SizeOf(c: Option<Config>): Option<string> {
    if c.Some? then c.value.size else None
  }

  /** `isSameConfig`: colours equal and sizes equal, an absent configuration reading as neither set. */
  predicate IsSameConfig(a: Option<Config>, b: Option<Config>) {
    ColorOf(a) == ColorOf(b) && SizeOf(a) == SizeOf(b)
  }

  /** The identity of a line once the optional configuration is read field by field. */
  datatype LineKey = LineKey(id: string, color: Option<string>, size: Option<string>)

  function KeyFor(id: string, config: Option<Config>): LineKey {
    LineKey(id, ColorOf(config), SizeOf(config))
  }

  /** A cart line without its quantity: what `addItem` receives (`Omit<CartItem, "quantity">`). */
  datatype ItemInfo = ItemInfo(
    id: string,
    name: string,
    category: string,
    price: real,
    discount: Option<real>,
    image: Option<string>,
    imageAlt: Option<string>,
    inStock: Option<bool>,
    stockCount: Option<nat>,
    configuration: Option<Config>)

  /** `CartItem`: a line and its quantity. */
  datatype CartItem = CartItem(info: ItemInfo, quantity: int)

  function KeyOf(line: CartItem): LineKey {
    KeyFor(line.info.id, line.info.configuration)
  }

  /** The test every store operation applies: `i.id === id && isSameConfig(i.configuration, config)`. */
  predicate Matches(line: CartItem, id: string, config: Option<Config>) {
    line.info.id == id && IsSameConfig(line.info.configuration, config)
  }

  /** Two configurations match exactly when they give the same key; so no configuration, `{}` and `{color: undefined}` all match. */
  lemma SameConfigMeansSameKey(id: string, a: Option<Config>, b: Option<Config>)
    ensures IsSameConfig(a, b) <==> KeyFor(id, a) == KeyFor(id, b)
    ensures IsSameConfig(None, Some(Config(None, None)))
    ensures IsSameConfig(a, b) <==> a.GetOr(Config(None, None)) == b.GetOr(Config(None, None))
  {
  }

  lemma MatchesMeansSameKey(line: CartItem, id: string, config: Option<Config>)
    ensures Matches(line, id, config) <==> KeyOf(line) == KeyFor(id, config)
  {
  }

  /** One line of `items.map(i => matches ? {...i, quantity: i.quantity + delta} : i)`. */
  function Bump(line: CartItem, id: string, config: Option<Config>, delta: int): CartItem {
    if Matches(line, id, config) then line.(quantity := line.quantity + delta) else line
  }

  /** The map step shared by `addItem`, `increaseQty` and `decreaseQty`. */
  function BumpMatching(items: seq<CartItem>, id: string, config: Option<Config>, delta: int): (r: seq<CartItem>)
    ensures |r| == |items|
    ensures forall k {:trigger r[k]} :: 0 <= k < |items| ==> r[k].info == items[k].info
    ensures forall k {:trigger r[k]} :: 0 <= k < |items| ==>
      r[k].quantity == items[k].quantity + (if Matches(items[k], id, config) then delta else 0)
  {
    if items == [] then [] else [Bump(items[0], id, config, delta)] + BumpMatching(items[1..], id, config, delta)
  }

  /** `Math.max(1, quantity)`: `addItem` never adds fewer than one. */
  function SafeQty(quantity: int): (q: int)
    ensures q >= 1 && q >= quantity
    ensures q == quantity || q == 1
  {
    if quantity > 1 then quantity else 1
  }

  /** Some line matches: `items.find(...)` is defined. */
  predicate HasLine(items: seq<CartItem>, id: string, config: Option<Config>) {
    exists k :: 0 <= k < |items| && Matches(items[k], id, config)
  }

  /** The index of the line `items.find(...)` returns: the first match, or -1. */
  function FirstMatch(items: seq<CartItem>, id: string, config: Option<Config>): (k: int)
    ensures -1 <= k < |items|
    ensures k >= 0 ==> Matches(items[k], id, config) && forall j :: 0 <= j < k ==> !Matches(items[j], id, config)
    ensures k == -1 <==> !HasLine(items, id, config)
  {
    if items == [] then -1
    else if Matches(items[0], id, config) then 0
    else
      var k := FirstMatch(items[1..], id, config);
      assert forall j :: 1 <= j < |items| ==> items[j] == items[1..][j - 1];
      if k == -1 then -1 else k + 1
  }

  /** Lines with the same product data, whatever their quantities, have the same first match. */
  lemma {:induction false} FirstMatchIgnoresQuantities(a: seq<CartItem>, b: seq<CartItem>, id: string, config: Option<Config>)
    requires |a| == |b|
    requires forall k :: 0 <= k < |a| ==> a[k].info == b[k].info
    ensures FirstMatch(a, id, config) == FirstMatch(b, id, config)
  {
    if a != [] {
      FirstMatchIgnoresQuantities(a[1..], b[1..], id, config);
    }
  }

  /** In a well-formed cart a key has a line exactly when its quantity is positive. */
  lemma {:induction false} WellFormedQuantityPositive(items: seq<CartItem>, key: LineKey)
    requires forall k :: 0 <= k < |items| ==> items[k].quantity >= 1
    ensures QuantityOf(items, key) >= Count(items, key)
    ensures QuantityOf(items, key) > 0 <==> Count(items, key) > 0
  {
    if items != [] {
      assert forall k :: 0 <= k < |items[1..]| ==> items[1..][k].quantity >= 1 by {
        forall k | 0 <= k < |items[1..]| ensures items[1..][k].quantity >= 1 {
          assert items[1..][k] == items[k + 1];
        }
      }
      WellFormedQuantityPositive(items[1..], key);
    }
  }

  /** `addItem(item, quantity)`. */
  function AddItemTo(items: seq<CartItem>, item: ItemInfo, quantity: int): (r: seq<CartItem>)
    ensures HasLine(items, item.id, item.configuration) ==>
      |r| == |items| &&
      (forall k {:trigger r[k]} :: 0 <= k < |items| ==> r[k].info == items[k].info) &&
      (forall k {:trigger r[k]} :: 0 <= k < |items| ==>
        r[k].quantity == items[k].quantity + (if Matches(items[k], item.id, item.configuration) then SafeQty(quantity) else 0))
    ensures !HasLine(items, item.id, item.configuration) ==>
      r == items + [CartItem(item, SafeQty(quantity))]
  {
    if HasLine(items, item.id, item.configuration) then BumpMatching(items, item.id, item.configuration, SafeQty(quantity))
    else items + [CartItem(item, SafeQty(quantity))]
  }

  /** `removeItem(id, config)`. */
  function RemoveFrom(items: seq<CartItem>, id: string, config: Option<Config>): (r: seq<CartItem>)
    ensures forall line :: line in r <==> line in items && !Matches(line, id, config)
  {
    Filter((line: CartItem) => !Matches(line, id, config), items)
  }

  /** `increaseQty(id, config)`: one more on every matching line, whatever its stock. */
  function IncreaseIn(items: seq<CartItem>, id: string, config: Option<Config>): (r: seq<CartItem>)
    ensures |r| == |items|
    ensures forall k {:trigger r[k]} :: 0 <= k < |items| ==> r[k].info == items[k].info
    ensures forall k {:trigger r[k]} :: 0 <= k < |items| ==>
      r[k].quantity == items[k].quantity + (if Matches(items[k], id, config) then 1 else 0)
  {
    BumpMatching(items, id, config, 1)
  }

  /** A line the cart keeps: `quantity > 0`. */
  predicate Positive(line: CartItem) {
    line.quantity > 0
  }

  /** `decreaseQty(id, config)`: one fewer on every matching line, then every line at zero or below is dropped. */
  function DecreaseIn(items: seq<CartItem>, id: string, config: Option<Config>): (r: seq<CartItem>)
    ensures forall line :: line in r <==> line in BumpMatching(items, id, config, -1) && line.quantity > 0
    ensures IsSubsequence(r, BumpMatching(items, id, config, -1))
  {
    FilterIsSubsequence(Positive, BumpMatching(items, id, config, -1));
    Filter(Positive, BumpMatching(items, id, config, -1))
  }

  /** `getTotalItems()`: the sum of the quantities. */
  function TotalItems(items: seq<CartItem>): int {
    if items == [] then 0 else items[0].quantity + TotalItems(items[1..])
  }

  /** The price of one line after its own discount: `(price - (discount ?? 0)) * quantity`. */
  function LinePrice(line: CartItem): real {
    (line.info.price - line.info.discount.GetOr(0.0)) * line.quantity as real
  }

  /** `getTotalPrice()`. */
  function TotalPrice(items: seq<CartItem>): real {
    if items == [] then 0.0 else LinePrice(items[0]) + TotalPrice(items[1..])
  }

  // ---------------------------------------------------------------------------
  // The line view: how much of one (id, configuration) the cart holds.
  // ---------------------------------------------------------------------------

  /** Number of lines with the given key. */
  function Count(items: seq<CartItem>, key: LineKey): nat {
    if items == [] then 0 else (if KeyOf(items[0]) == key then 1 else 0) + Count(items[1..], key)
  }

  /** Total quantity on lines with the given key. */
  function QuantityOf(items: seq<CartItem>, key: LineKey): int {
    if items == [] then 0
    else (if KeyOf(items[0]) == key then items[0].quantity else 0) + QuantityOf(items[1..], key)
  }

  /** No two lines share an (id, configuration). */
  predicate UniqueKeys(items: seq<CartItem>) {
    forall i, j :: 0 <= i < j < |items| ==> KeyOf(items[i]) != KeyOf(items[j])
  }

  /** The shape every reachable cart has: unique lines, each with a positive quantity. */
  predicate WellFormed(items: seq<CartItem>) {
    UniqueKeys(items) && forall k :: 0 <= k < |items| ==> items[k].quantity >= 1
  }

  lemma {:induction false} CountPositive(items: seq<CartItem>, key: LineKey)
    ensures Count(items, key) > 0 <==> exists k :: 0 <= k < |items| && KeyOf(items[k]) == key
  {
    if items != [] {
      CountPositive(items[1..], key);
      if Count(items[1..], key) > 0 {
        var k :| 0 <= k < |items[1..]| && KeyOf(items[1..][k]) == key;
        assert KeyOf(items[k + 1]) == key;
      }
      if exists k :: 0 <= k < |items| && KeyOf(items[k]) == key {
        var k :| 0 <= k < |items| && KeyOf(items[k]) == key;
        if k > 0 {
          assert KeyOf(items[1..][k - 1]) == key;
        }
      }
    }
  }

  lemma {:induction false} UniqueCountAtMostOne(items: seq<CartItem>, key: LineKey)
    requires UniqueKeys(items)
    ensures Count(items, key) <= 1
  {
    if items != [] {
      assert UniqueKeys(items[1..]) by {
        forall i, j | 0 <= i < j < |items[1..]| ensures KeyOf(items[1..][i]) != KeyOf(items[1..][j]) {
          assert items[1..][i] == items[i + 1] && items[1..][j] == items[j + 1];
        }
      }
      UniqueCountAtMostOne(items[1..], key);
      if KeyOf(items[0]) == key {
        forall k | 0 <= k < |items[1..]| ensures KeyOf(items[1..][k]) != key {
          assert items[1..][k] == items[k + 1];
        }
        NoKeyNoQuantity(items[1..], key);
      }
    }
  }

  /** In a cart with unique lines, the quantity of a key is the quantity on its one line. */
  lemma {:induction false} QuantityOfUniqueLine(items: seq<CartItem>, k: nat, key: LineKey)
    requires UniqueKeys(items)
    requires k < |items| && KeyOf(items[k]) == key
    ensures QuantityOf(items, key) == items[k].quantity
  {
    assert UniqueKeys(items[1..]) by {
      forall i, j | 0 <= i < j < |items[1..]| ensures KeyOf(items[1..][i]) != KeyOf(items[1..][j]) {
        assert items[1..][i] == items[i + 1] && items[1..][j] == items[j + 1];
      }
    }
    if k == 0 {
      forall j | 0 <= j < |items[1..]| ensures KeyOf(items[1..][j]) != key {
        assert items[1..][j] == items[j + 1];
      }
      NoKeyNoQuantity(items[1..], key);
    } else {
      assert KeyOf(items[0]) != key;
      assert items[1..][k - 1] == items[k];
      QuantityOfUniqueLine(items[1..], k - 1, key);
    }
  }

  lemma HasLineCount(items: seq<CartItem>, id: string, config: Option<Config>)
    ensures HasLine(items, id, config) <==> Count(items, KeyFor(id, config)) > 0
  {
    CountPositive(items, KeyFor(id, config));
  }

  lemma {:induction false} BumpQuantity(items: seq<CartItem>, id: string, config: Option<Config>, delta: int, key: LineKey)
    decreases |items|, 1
    ensures Count(BumpMatching(items, id, config, delta), key) == Count(items, key)
    ensures QuantityOf(BumpMatching(items, id, config, delta), key) ==
      QuantityOf(items, key) + (if key == KeyFor(id, config) then delta * Count(items, key) else 0)
  {
    if items != [] {
      BumpQuantityStep(items, id, config, delta, key);
    }
  }

  /** One line of the sums: the head keeps its key and gains `delta` exactly when it matches. */
  lemma {:induction false} BumpQuantityStep(items: seq<CartItem>, id: string, config: Option<Config>, delta: int, key: LineKey)
    requires items != []
    decreases |items|, 0
    ensures Count(BumpMatching(items, id, config, delta), key) == Count(items, key)
    ensures QuantityOf(BumpMatching(items, id, config, delta), key) ==
      QuantityOf(items, key) + (if key == KeyFor(id, config) then delta * Count(items, key) else 0)
  {
    var r := BumpMatching(items, id, config, delta);
    assert r[0] == Bump(items[0], id, config, delta);
    assert r[1..] == BumpMatching(items[1..], id, config, delta);
    BumpQuantity(items[1..], id, config, delta, key);
    MatchesMeansSameKey(items[0], id, config);
    var c0 := if KeyOf(items[0]) == key then 1 else 0;
    assert Count(items, key) == c0 + Count(items[1..], key);
    Distribute(delta, c0, Count(items[1..], key));
  }

  lemma {:induction false} FilterQuantity(p: CartItem -> bool, items: seq<CartItem>, key: LineKey)
    requires forall line :: KeyOf(line) == key ==> p(line)
    ensures QuantityOf(Filter(p, items), key) == QuantityOf(items, key)
    ensures Count(Filter(p, items), key) == Count(items, key)
  {
    if items != [] {
      FilterQuantity(p, items[1..], key);
      var r := Filter(p, items);
      if p(items[0]) {
        assert r[0] == items[0] && r[1..] == Filter(p, items[1..]);
      } else {
        assert r == Filter(p, items[1..]);
      }
    }
  }

  lemma {:induction false} FilterDropsKey(p: CartItem -> bool, items: seq<CartItem>, key: LineKey)
    requires forall line :: KeyOf(line) == key ==> !p(line)
    ensures QuantityOf(Filter(p, items), key) == 0
    ensures Count(Filter(p, items), key) == 0
  {
    if items != [] {
      FilterDropsKey(p, items[1..], key);
      var r := Filter(p, items);
      if p(items[0]) {
        assert r[0] == items[0] && r[1..] == Filter(p, items[1..]);
      } else {
        assert r == Filter(p, items[1..]);
      }
    }
  }

  /** Lines kept by a filter keep their keys unique. */
  lemma {:induction false} FilterUnique(p: CartItem -> bool, items: seq<CartItem>)
    requires UniqueKeys(items)
    ensures UniqueKeys(Filter(p, items))
  {
    if items != [] {
      assert UniqueKeys(items[1..]) by {
        forall i, j | 0 <= i < j < |items[1..]| ensures KeyOf(items[1..][i]) != KeyOf(items[1..][j]) {
          assert items[1..][i] == items[i + 1] && items[1..][j] == items[j + 1];
        }
      }
      FilterUnique(p, items[1..]);
      var rest := Filter(p, items[1..]);
      if p(items[0]) {
        var r := Filter(p, items);
        assert r == [items[0]] + rest;
        forall i, j | 0 <= i < j < |r| ensures KeyOf(r[i]) != KeyOf(r[j]) {
          if i == 0 {
            assert r[j] == rest[j - 1];
            assert r[j] in items[1..];
            var k :| 0 <= k < |items[1..]| && items[1..][k] == r[j];
            assert items[k + 1] == r[j];
          } else {
            assert r[i] == rest[i - 1] && r[j] == rest[j - 1];
          }
        }
      }
    }
  }

  lemma BumpUnique(items: seq<CartItem>, id: string, config: Option<Config>, delta: int)
    requires UniqueKeys(items)
    ensures UniqueKeys(BumpMatching(items, id, config, delta))
  {
    var r := BumpMatching(items, id, config, delta);
    forall i, j | 0 <= i < j < |r| ensures KeyOf(r[i]) != KeyOf(r[j]) {
      assert KeyOf(r[i]) == KeyOf(items[i]) && KeyOf(r[j]) == KeyOf(items[j]);
    }
  }

  // ---------------------------------------------------------------------------
  // What each operation does to the lines, and the shape it preserves.
  // ---------------------------------------------------------------------------

  /** `addItem` raises the (id, configuration) line by `max(1, quantity)`, or adds it, and touches no other line. */
  lemma AddItemQuantities(items: seq<CartItem>, item: ItemInfo, quantity: int, key: LineKey)
    requires UniqueKeys(items)
    ensures QuantityOf(AddItemTo(items, item, quantity), key) ==
      QuantityOf(items, key) + (if key == KeyFor(item.id, item.configuration) then SafeQty(quantity) else 0)
    ensures TotalItems(AddItemTo(items, item, quantity)) == TotalItems(items) + SafeQty(quantity)
  {
    if HasLine(items, item.id, item.configuration) {
      AddItemToLine(items, item, quantity, key);
    } else {
      AddItemAsNewLine(items, item, quantity, key);
    }
  }

  /** `addItem` on a cart that has the line: the one line with that key gains the quantity. */
  lemma AddItemToLine(items: seq<CartItem>, item: ItemInfo, quantity: int, key: LineKey)
    requires UniqueKeys(items) && HasLine(items, item.id, item.configuration)
    ensures QuantityOf(AddItemTo(items, item, quantity), key) ==
      QuantityOf(items, key) + (if key == KeyFor(item.id, item.configuration) then SafeQty(quantity) else 0)
    ensures TotalItems(AddItemTo(items, item, quantity)) == TotalItems(items) + SafeQty(quantity)
  {
    HasLineCount(items, item.id, item.configuration);
    UniqueCountAtMostOne(items, KeyFor(item.id, item.configuration));
    BumpQuantity(items, item.id, item.configuration, SafeQty(quantity), key);
    BumpTotal(items, item.id, item.configuration, SafeQty(quantity));
  }

  /** `addItem` on a cart without the line: a new line with the quantity goes at the end. */
  lemma AddItemAsNewLine(items: seq<CartItem>, item: ItemInfo, quantity: int, key: LineKey)
    requires !HasLine(items, item.id, item.configuration)
    ensures QuantityOf(AddItemTo(items, item, quantity), key) ==
      QuantityOf(items, key) + (if key == KeyFor(item.id, item.configuration) then SafeQty(quantity) else 0)
    ensures TotalItems(AddItemTo(items, item, quantity)) == TotalItems(items) + SafeQty(quantity)
  {
    var k0 := KeyFor(item.id, item.configuration);
    AppendQuantity(items, [CartItem(item, SafeQty(quantity))], key);
    AppendTotal(items, [CartItem(item, SafeQty(quantity))]);
    assert QuantityOf([CartItem(item, SafeQty(quantity))], key) == if key == k0 then SafeQty(quantity) else 0;
  }

  lemma AddItemWellFormed(items: seq<CartItem>, item: ItemInfo, quantity: int)
    requires WellFormed(items)
    ensures WellFormed(AddItemTo(items, item, quantity))
  {
    var r := AddItemTo(items, item, quantity);
    if HasLine(items, item.id, item.configuration) {
      BumpUnique(items, item.id, item.configuration, SafeQty(quantity));
    } else {
      forall i, j | 0 <= i < j < |r| ensures KeyOf(r[i]) != KeyOf(r[j]) {
        if j == |items| {
          assert !Matches(items[i], item.id, item.configuration);
        }
      }
    }
  }

  /** `removeItem` deletes every line of that (id, configuration) and keeps the rest in order. */
  lemma RemoveItemQuantities(items: seq<CartItem>, id: string, config: Option<Config>, key: LineKey)
    ensures QuantityOf(RemoveFrom(items, id, config), key) == if key == KeyFor(id, config) then 0 else QuantityOf(items, key)
    ensures IsSubsequence(RemoveFrom(items, id, config), items)
    ensures !HasLine(items, id, config) ==> RemoveFrom(items, id, config) == items
  {
    var p := (line: CartItem) => !Matches(line, id, config);
    if key == KeyFor(id, config) {
      FilterDropsKey(p, items, key);
    } else {
      FilterQuantity(p, items, key);
    }
    FilterIsSubsequence(p, items);
    if !HasLine(items, id, config) {
      FilterKeepsAll(p, items);
    }
  }

  lemma RemoveItemWellFormed(items: seq<CartItem>, id: string, config: Option<Config>)
    requires WellFormed(items)
    ensures WellFormed(RemoveFrom(items, id, config))
  {
    var p := (line: CartItem) => !Matches(line, id, config);
    FilterUnique(p, items);
    var r := RemoveFrom(items, id, config);
    forall k | 0 <= k < |r| ensures r[k].quantity >= 1 {
      assert r[k] in items;
    }
  }

  /** `increaseQty` adds exactly one to the (id, configuration) line when there is one, with no stock check. */
  lemma IncreaseQtyQuantities(items: seq<CartItem>, id: string, config: Option<Config>, key: LineKey)
    requires UniqueKeys(items)
    ensures QuantityOf(IncreaseIn(items, id, config), key) ==
      QuantityOf(items, key) + (if key == KeyFor(id, config) && HasLine(items, id, config) then 1 else 0)
    ensures UniqueKeys(IncreaseIn(items, id, config))
  {
    HasLineCount(items, id, config);
    UniqueCountAtMostOne(items, KeyFor(id, config));
    BumpQuantity(items, id, config, 1, key);
    BumpUnique(items, id, config, 1);
  }

  lemma IncreaseQtyWellFormed(items: seq<CartItem>, id: string, config: Option<Config>)
    requires WellFormed(items)
    ensures WellFormed(IncreaseIn(items, id, config))
  {
    BumpUnique(items, id, config, 1);
  }

  /** `decreaseQty` takes one from the (id, configuration) line and drops the line when it reaches zero. */
  lemma DecreaseQtyQuantities(items: seq<CartItem>, id: string, config: Option<Config>, key: LineKey)
    requires WellFormed(items)
    ensures QuantityOf(DecreaseIn(items, id, config), key) ==
      if key == KeyFor(id, config) && HasLine(items, id, config) then QuantityOf(items, key) - 1 else QuantityOf(items, key)
    ensures Count(DecreaseIn(items, id, config), key) ==
      if key == KeyFor(id, config) && QuantityOf(items, key) == 1 then 0 else Count(items, key)
  {
    var k0 := KeyFor(id, config);
    var bumped := BumpMatching(items, id, config, -1);
    var p := Positive;
    HasLineCount(items, id, config);
    UniqueCountAtMostOne(items, k0);
    BumpQuantity(items, id, config, -1, key);
    if key != k0 {
      // lines of another key keep their positive quantities
      FilterOnlyDropsZero(items, id, config, key);
    } else {
      DecreaseOwnLine(items, id, config);
    }
  }

  /** On a key other than the decreased one, the zero filter removes nothing. */
  lemma FilterOnlyDropsZero(items: seq<CartItem>, id: string, config: Option<Config>, key: LineKey)
    requires forall k :: 0 <= k < |items| ==> items[k].quantity >= 1
    requires key != KeyFor(id, config)
    ensures QuantityOf(DecreaseIn(items, id, config), key) == QuantityOf(items, key)
    ensures Count(DecreaseIn(items, id, config), key) == Count(items, key)
  {
    OtherKeysSurvive(items, id, config, key);
  }

  /** `FilterOnlyDropsZero` on the filter itself, so the proof does not unfold `DecreaseIn`. */
  lemma {:induction false} OtherKeysSurvive(items: seq<CartItem>, id: string, config: Option<Config>, key: LineKey)
    requires forall k :: 0 <= k < |items| ==> items[k].quantity >= 1
    requires key != KeyFor(id, config)
    decreases |items|, 1
    ensures QuantityOf(Filter(Positive, BumpMatching(items, id, config, -1)), key) == QuantityOf(items, key)
    ensures Count(Filter(Positive, BumpMatching(items, id, config, -1)), key) == Count(items, key)
  {
    if items == [] {
      assert BumpMatching(items, id, config, -1) == [];
    } else if BumpMatching(items, id, config, -1)[0].quantity > 0 {
      OtherKeysSurviveKept(items, id, config, key);
    } else {
      OtherKeysSurviveDropped(items, id, config, key);
    }
  }

  /** The head stays: it adds the same to both sides. */
  lemma {:induction false} OtherKeysSurviveKept(items: seq<CartItem>, id: string, config: Option<Config>, key: LineKey)
    requires forall k :: 0 <= k < |items| ==> items[k].quantity >= 1
    requires key != KeyFor(id, config) && items != []
    requires BumpMatching(items, id, config, -1)[0].quantity > 0
    decreases |items|, 0
    ensures QuantityOf(Filter(Positive, BumpMatching(items, id, config, -1)), key) == QuantityOf(items, key)
    ensures Count(Filter(Positive, BumpMatching(items, id, config, -1)), key) == Count(items, key)
  {
    var bumped := BumpMatching(items, id, config, -1);
    assert bumped[1..] == BumpMatching(items[1..], id, config, -1);
    OtherKeysSurvive(items[1..], id, config, key);
    var r := Filter(Positive, bumped);
    assert r[0] == bumped[0] && r[1..] == Filter(Positive, bumped[1..]);
    MatchesMeansSameKey(items[0], id, config);
  }

  /** The head goes: it was a line of the decreased key at one, so of no other key. */
  lemma {:induction false} OtherKeysSurviveDropped(items: seq<CartItem>, id: string, config: Option<Config>, key: LineKey)
    requires forall k :: 0 <= k < |items| ==> items[k].quantity >= 1
    requires key != KeyFor(id, config) && items != []
    requires BumpMatching(items, id, config, -1)[0].quantity <= 0
    decreases |items|, 0
    ensures QuantityOf(Filter(Positive, BumpMatching(items, id, config, -1)), key) == QuantityOf(items, key)
    ensures Count(Filter(Positive, BumpMatching(items, id, config, -1)), key) == Count(items, key)
  {
    var bumped := BumpMatching(items, id, config, -1);
    assert bumped[1..] == BumpMatching(items[1..], id, config, -1);
    OtherKeysSurvive(items[1..], id, config, key);
    assert Filter(Positive, bumped) == Filter(Positive, bumped[1..]);
    MatchesMeansSameKey(items[0], id, config);
  }

  /** The decreased line: one fewer, or gone when it was at one. */
  lemma DecreaseOwnLine(items: seq<CartItem>, id: string, config: Option<Config>)
    requires WellFormed(items)
    ensures QuantityOf(DecreaseIn(items, id, config), KeyFor(id, config)) ==
      if HasLine(items, id, config) then QuantityOf(items, KeyFor(id, config)) - 1 else QuantityOf(items, KeyFor(id, config))
    ensures Count(DecreaseIn(items, id, config), KeyFor(id, config)) ==
      if QuantityOf(items, KeyFor(id, config)) == 1 then 0 else Count(items, KeyFor(id, config))
  {
    DecreaseOwnLineFiltered(items, id, config);
  }

  /** `DecreaseOwnLine` on the filter itself, so the proof does not unfold `DecreaseIn`. */
  lemma {:induction false} DecreaseOwnLineFiltered(items: seq<CartItem>, id: string, config: Option<Config>)
    requires WellFormed(items)
    decreases |items|, 1
    ensures QuantityOf(Filter(Positive, BumpMatching(items, id, config, -1)), KeyFor(id, config)) ==
      if HasLine(items, id, config) then QuantityOf(items, KeyFor(id, config)) - 1 else QuantityOf(items, KeyFor(id, config))
    ensures Count(Filter(Positive, BumpMatching(items, id, config, -1)), KeyFor(id, config)) ==
      if QuantityOf(items, KeyFor(id, config)) == 1 then 0 else Count(items, KeyFor(id, config))
  {
    if items == [] {
      assert BumpMatching(items, id, config, -1) == [];
    } else if KeyOf(items[0]) == KeyFor(id, config) {
      DecreaseOwnLineAtHead(items, id, config);
    } else {
      DecreaseOwnLineInTail(items, id, config);
    }
  }

  /** The decreased line is the first: the tail holds no other line of its key. */
  lemma DecreaseOwnLineAtHead(items: seq<CartItem>, id: string, config: Option<Config>)
    requires WellFormed(items) && items != [] && KeyOf(items[0]) == KeyFor(id, config)
    ensures QuantityOf(Filter(Positive, BumpMatching(items, id, config, -1)), KeyFor(id, config)) ==
      if HasLine(items, id, config) then QuantityOf(items, KeyFor(id, config)) - 1 else QuantityOf(items, KeyFor(id, config))
    ensures Count(Filter(Positive, BumpMatching(items, id, config, -1)), KeyFor(id, config)) ==
      if QuantityOf(items, KeyFor(id, config)) == 1 then 0 else Count(items, KeyFor(id, config))
  {
    var k0 := KeyFor(id, config);
    var p := Positive;
    var bumped := BumpMatching(items, id, config, -1);
    assert bumped[1..] == BumpMatching(items[1..], id, config, -1);
    MatchesMeansSameKey(items[0], id, config);
    assert forall k :: 0 <= k < |items[1..]| ==> KeyOf(items[1..][k]) != k0 by {
      forall k | 0 <= k < |items[1..]| ensures KeyOf(items[1..][k]) != k0 {
        assert items[1..][k] == items[k + 1];
      }
    }
    NoKeyNoQuantity(items[1..], k0);
    FilterOnlyDropsZeroTail(items[1..], id, config);
    var r := Filter(p, bumped);
    if p(bumped[0]) {
      assert r[0] == bumped[0] && r[1..] == Filter(p, bumped[1..]);
    } else {
      assert r == Filter(p, bumped[1..]);
    }
  }

  /** The first line has another key: it passes through, and the rest follows from the tail. */
  lemma {:induction false} DecreaseOwnLineInTail(items: seq<CartItem>, id: string, config: Option<Config>)
    requires WellFormed(items) && items != [] && KeyOf(items[0]) != KeyFor(id, config)
    decreases |items|, 0
    ensures QuantityOf(Filter(Positive, BumpMatching(items, id, config, -1)), KeyFor(id, config)) ==
      if HasLine(items, id, config) then QuantityOf(items, KeyFor(id, config)) - 1 else QuantityOf(items, KeyFor(id, config))
    ensures Count(Filter(Positive, BumpMatching(items, id, config, -1)), KeyFor(id, config)) ==
      if QuantityOf(items, KeyFor(id, config)) == 1 then 0 else Count(items, KeyFor(id, config))
  {
    var p := Positive;
    var bumped := BumpMatching(items, id, config, -1);
    assert bumped[1..] == BumpMatching(items[1..], id, config, -1);
    assert WellFormed(items[1..]) by {
      forall i, j | 0 <= i < j < |items[1..]| ensures KeyOf(items[1..][i]) != KeyOf(items[1..][j]) {
        assert items[1..][i] == items[i + 1] && items[1..][j] == items[j + 1];
      }
    }
    DecreaseOwnLineFiltered(items[1..], id, config);
    HasLineCount(items, id, config);
    HasLineCount(items[1..], id, config);
    MatchesMeansSameKey(items[0], id, config);
    assert bumped[0] == items[0];
    var r := Filter(p, bumped);
    assert r[0] == bumped[0] && r[1..] == Filter(p, bumped[1..]);
  }

  lemma {:induction false} NoKeyNoQuantity(items: seq<CartItem>, key: LineKey)
    requires forall k :: 0 <= k < |items| ==> KeyOf(items[k]) != key
    ensures QuantityOf(items, key) == 0 && Count(items, key) == 0
  {
    if items != [] {
      assert forall k :: 0 <= k < |items[1..]| ==> KeyOf(items[1..][k]) != key by {
        forall k | 0 <= k < |items[1..]| ensures KeyOf(items[1..][k]) != key {
          assert items[1..][k] == items[k + 1];
        }
      }
      NoKeyNoQuantity(items[1..], key);
    }
  }

  /** A tail without the decreased key: nothing of that key appears after decreasing. */
  lemma {:induction false} FilterOnlyDropsZeroTail(items: seq<CartItem>, id: string, config: Option<Config>)
    requires forall k :: 0 <= k < |items| ==> KeyOf(items[k]) != KeyFor(id, config)
    ensures QuantityOf(Filter(Positive, BumpMatching(items, id, config, -1)), KeyFor(id, config)) == 0
    ensures Count(Filter(Positive, BumpMatching(items, id, config, -1)), KeyFor(id, config)) == 0
  {
    var r := Filter(Positive, BumpMatching(items, id, config, -1));
    var bumped := BumpMatching(items, id, config, -1);
    forall k | 0 <= k < |r| ensures KeyOf(r[k]) != KeyFor(id, config) {
      assert r[k] in bumped;
      var j :| 0 <= j < |bumped| && bumped[j] == r[k];
      assert KeyOf(bumped[j]) == KeyOf(items[j]);
    }
    NoKeyNoQuantity(r, KeyFor(id, config));
  }

  lemma DecreaseQtyWellFormed(items: seq<CartItem>, id: string, config: Option<Config>)
    requires WellFormed(items)
    ensures WellFormed(DecreaseIn(items, id, config))
  {
    BumpUnique(items, id, config, -1);
    FilterUnique(Positive, BumpMatching(items, id, config, -1));
  }

  /** `decreaseQty` on a line at quantity one removes the line. */
  lemma DecreaseAtOneRemovesLine(items: seq<CartItem>, id: string, config: Option<Config>)
    requires WellFormed(items)
    requires QuantityOf(items, KeyFor(id, config)) == 1
    ensures !HasLine(DecreaseIn(items, id, config), id, config)
  {
    DecreaseOwnLine(items, id, config);
    HasLineCount(DecreaseIn(items, id, config), id, config);
  }

  // ---------------------------------------------------------------------------
  // The other lines: every store operation keys on one (id, configuration) and
  // leaves the lines of every other key as they were, objects and order alike.
  // ---------------------------------------------------------------------------

  /** The lines whose key is not `key`, in cart order. */
  function Others(items: seq<CartItem>, key: LineKey): seq<CartItem> {
    Filter((line: CartItem) => KeyOf(line) != key, items)
  }

  /** The map step leaves every line of another key untouched and in place. */
  lemma {:induction false} BumpKeepsOthers(items: seq<CartItem>, id: string, config: Option<Config>, delta: int)
    ensures Others(BumpMatching(items, id, config, delta), KeyFor(id, config)) == Others(items, KeyFor(id, config))
  {
    if items != [] {
      BumpKeepsOthers(items[1..], id, config, delta);
      MatchesMeansSameKey(items[0], id, config);
      var r := BumpMatching(items, id, config, delta);
      assert r[0] == Bump(items[0], id, config, delta) && r[1..] == BumpMatching(items[1..], id, config, delta);
    }
  }

  /** `addItem` keeps the lines of every other key, objects and order. */
  lemma AddItemKeepsOthers(items: seq<CartItem>, item: ItemInfo, quantity: int)
    ensures Others(AddItemTo(items, item, quantity), KeyFor(item.id, item.configuration)) ==
      Others(items, KeyFor(item.id, item.configuration))
  {
    var key := KeyFor(item.id, item.configuration);
    if HasLine(items, item.id, item.configuration) {
      BumpKeepsOthers(items, item.id, item.configuration, SafeQty(quantity));
    } else {
      var added := CartItem(item, SafeQty(quantity));
      FilterAppend((line: CartItem) => KeyOf(line) != key, items, [added]);
      assert Others([added], key) == [];
    }
  }

  /** `decreaseQty` keeps the lines of every other key of a well-formed cart: only its own line can reach zero. */
  lemma DecreaseKeepsOthers(items: seq<CartItem>, id: string, config: Option<Config>)
    requires WellFormed(items)
    ensures Others(DecreaseIn(items, id, config), KeyFor(id, config)) == Others(items, KeyFor(id, config))
  {
    var key := KeyFor(id, config);
    var bumped := BumpMatching(items, id, config, -1);
    var other := (line: CartItem) => KeyOf(line) != key;
    var both := (line: CartItem) => Positive(line) && KeyOf(line) != key;
    FilterFilter(Positive, other, both, bumped);
    forall i | 0 <= i < |bumped|
      ensures both(bumped[i]) == other(bumped[i])
    {
      MatchesMeansSameKey(items[i], id, config);
    }
    FilterAgree(both, other, bumped);
    BumpKeepsOthers(items, id, config, -1);
  }

  /** In a well-formed cart a line is the only one of its key. */
  lemma KeyLinesAreLine(items: seq<CartItem>, item: CartItem)
    requires WellFormed(items) && item in items
    ensures forall line :: line in items && KeyOf(line) == KeyOf(item) ==> line == item
  {
  }

  /** Example: `addItem` adds any quantity asked for; a line with a stock count of 2 can be added five times over. */
  lemma AddItemIgnoresStock(item: ItemInfo)
    requires item.stockCount == Some(2)
    ensures AddItemTo([], item, 5) == [CartItem(item, 5)]
  {
  }

  lemma {:induction false} AppendQuantity(a: seq<CartItem>, b: seq<CartItem>, key: LineKey)
    ensures QuantityOf(a + b, key) == QuantityOf(a, key) + QuantityOf(b, key)
  {
    if a == [] {
      assert a + b == b;
    } else {
      assert (a + b)[0] == a[0] && (a + b)[1..] == a[1..] + b;
      AppendQuantity(a[1..], b, key);
    }
  }

  /** The badge count is at least the number of lines when every line holds a unit, and never negative when none is below zero. */
  lemma {:induction false} TotalItemsBounds(items: seq<CartItem>)
    ensures (forall k :: 0 <= k < |items| ==> items[k].quantity >= 0) ==> TotalItems(items) >= 0
    ensures (forall k :: 0 <= k < |items| ==> items[k].quantity > 0) ==> TotalItems(items) >= |items|
  {
    if items != [] {
      TotalItemsBounds(items[1..]);
    }
  }

  lemma {:induction false} AppendTotal(a: seq<CartItem>, b: seq<CartItem>)
    ensures TotalItems(a + b) == TotalItems(a) + TotalItems(b)
  {
    if a == [] {
      assert a + b == b;
    } else {
      assert (a + b)[0] == a[0] && (a + b)[1..] == a[1..] + b;
      AppendTotal(a[1..], b);
    }
  }

  lemma {:induction false} BumpTotal(items: seq<CartItem>, id: string, config: Option<Config>, delta: int)
    decreases |items|, 1
    ensures TotalItems(BumpMatching(items, id, config, delta)) ==
      TotalItems(items) + delta * Count(items, KeyFor(id, config))
  {
    if items != [] {
      BumpTotalStep(items, id, config, delta);
    }
  }

  /** One line of the sum: the head gains `delta` exactly when it has the key. */
  lemma {:induction false} BumpTotalStep(items: seq<CartItem>, id: string, config: Option<Config>, delta: int)
    requires items != []
    decreases |items|, 0
    ensures TotalItems(BumpMatching(items, id, config, delta)) ==
      TotalItems(items) + delta * Count(items, KeyFor(id, config))
  {
    var r := BumpMatching(items, id, config, delta);
    var k0 := KeyFor(id, config);
    var rest := Count(items[1..], k0);
    assert r[1..] == BumpMatching(items[1..], id, config, delta);
    BumpTotal(items[1..], id, config, delta);
    MatchesMeansSameKey(items[0], id, config);
    var c0 := if KeyOf(items[0]) == k0 then 1 else 0;
    assert r[0].quantity == items[0].quantity + delta * c0;
    assert Count(items, k0) == c0 + rest;
    Distribute(delta, c0, rest);
  }

  lemma Distribute(d: int, a: int, b: int)
    ensures d * (a + b) == d * a + d * b
  {
  }

  /** Example: `clearCart` followed by the totals leaves nothing. */
  lemma ClearedCartTotals()
    ensures TotalItems([]) == 0 && TotalPrice([]) == 0.0
  {
  }

  // ---------------------------------------------------------------------------
  // The store itself.
  // ---------------------------------------------------------------------------

  /** The images of the demonstration lines. */
  const HeadphonesImage: string := "https://img.rocket.new/generatedImages/rocket_gen_img_13e126511-1765030295691.png"
  const KeyboardImage: string := "https://images.unsplash.com/photo-1619683322755-4545503f1afa"
  const LaptopStandImage: string := "https://img.rocket.new/generatedImages/rocket_gen_img_1f9ea2001-1764658995251.png"
  const MouseImage: string := "https://images.unsplash.com/photo-1604080214833-df65352fb97a"

  /** The four demonstration lines the store starts with. */
  function SeedItems(): seq<CartItem> {
    [ CartItem(ItemInfo("product-1", "Professional Wireless Noise-Cancelling Headphones", "Electronics > Audio", 299.99,
                        None, Some(HeadphonesImage),
                        Some("Wireless headphones"), None, None, None), 2),
      CartItem(ItemInfo("product-2", "Mechanical Gaming Keyboard RGB", "Electronics > Computers", 149.99,
                        None, Some(KeyboardImage),
                        Some("RGB keyboard"), None, None, None), 1),
      CartItem(ItemInfo("product-3", "Adjustable Laptop Stand", "Electronics > Accessories", 49.99,
                        None, Some(LaptopStandImage),
                        Some("Laptop stand"), None, None, None), 1),
      CartItem(ItemInfo("product-4", "Wireless Gaming Mouse", "Electronics > Gaming", 79.99,
                        None, Some(MouseImage),
                        Some("Gaming mouse"), None, None, None), 3) ]
  }

  /** The seed cart is well formed and holds seven items worth 1039.93. */
  lemma SeedFacts()
    ensures WellFormed(SeedItems())
    ensures TotalItems(SeedItems()) == 7
    ensures TotalPrice(SeedItems()) == 1039.93
  {
    SeedWellFormed();
    SeedTotals();
  }

  lemma SeedWellFormed()
    ensures WellFormed(SeedItems())
  {
  }

  lemma SeedTotals()
    ensures TotalItems(SeedItems()) == 7
    ensures TotalPrice(SeedItems()) == 1039.93
  {
    var s := SeedItems();
    assert s[1..][1..][1..][1..] == [];
  }

  class Cart {
    var items: seq<CartItem>

    constructor ()
      ensures items == SeedItems()
    {
      items := SeedItems();
    }

    method AddItem(item: ItemInfo, quantity: int)
      modifies this
      ensures items == AddItemTo(old(items), item, quantity)
      ensures WellFormed(old(items)) ==> WellFormed(items)
    {
      AddItemWellFormedIf(items, item, quantity);
      items := AddItemTo(items, item, quantity);
    }

    method RemoveItem(id: string, config: Option<Config>)
      modifies this
      ensures items == RemoveFrom(old(items), id, config)
      ensures WellFormed(old(items)) ==> WellFormed(items)
    {
      if WellFormed(items) {
        RemoveItemWellFormed(items, id, config);
      }
      items := RemoveFrom(items, id, config);
    }

    method IncreaseQty(id: string, config: Option<Config>)
      modifies this
      ensures items == IncreaseIn(old(items), id, config)
      ensures WellFormed(old(items)) ==> WellFormed(items)
    {
      if WellFormed(items) {
        IncreaseQtyWellFormed(items, id, config);
      }
      items := IncreaseIn(items, id, config);
    }

    method DecreaseQty(id: string, config: Option<Config>)
      modifies this
      ensures items == DecreaseIn(old(items), id, config)
      ensures WellFormed(old(items)) ==> WellFormed(items)
    {
      if WellFormed(items) {
        DecreaseQtyWellFormed(items, id, config);
      }
      items := DecreaseIn(items, id, config);
    }

    method ClearCart()
      modifies this
      ensures items == []
    {
      items := [];
    }

    method GetTotalItems() returns (n: int)
      ensures n == TotalItems(items)
    {
      n := TotalItems(items);
    }

    method GetTotalPrice() returns (total: real)
      ensures total == TotalPrice(items)
    {
      total := TotalPrice(items);
    }
  }

  lemma AddItemWellFormedIf(items: seq<CartItem>, item: ItemInfo, quantity: int)
    ensures WellFormed(items) ==> WellFormed(AddItemTo(items, item, quantity))
  {
    if WellFormed(items) {
      AddItemWellFormed(items, item, quantity);
    }
  }
}
