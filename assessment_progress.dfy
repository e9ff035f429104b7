/**
 * The assessment progress record: per route, how many of its problems have
 * been identified and resolved out of a fixed total, and the percentage the
 * header's indicator shows for it.
 */
module AssessmentProgress {
  import opened Wrappers
  import opened Text

  datatype ProgressItem = ProgressItem(identified: int, resolved: int, total: int)

  predicate ItemValid(item: ProgressItem) {
    item.total > 0 && 0 <= item.identified <= item.total && 0 <= item.resolved <= item.total
  }

  /** `initialProgress` as written: the product entry is keyed "/products". */
  const InitialProgress: map<string, ProgressItem> := map[
    "/dashboard" := ProgressItem(0, 0, 8),
    "/products" := ProgressItem(0, 0, 6),
    "/shopping-cart" := ProgressItem(0, 0, 7),
    "/user-authentication" := ProgressItem(0, 0, 5)]

  /** The initial progress with the product entry under the path the pages and the indicator use. */
  const IntendedInitialProgress: map<string, ProgressItem> := map[
    "/dashboard" := ProgressItem(0, 0, 8),
    "/products/:productId" := ProgressItem(0, 0, 6),
    "/shopping-cart" := ProgressItem(0, 0, 7),
    "/user-authentication" := ProgressItem(0, 0, 5)]

  /** The paths of the indicator's four items, in order. */
  const NavigationPaths: seq<string> := ["/dashboard", "/products/:productId", "/shopping-cart", "/user-authentication"]

  function Identify(item: ProgressItem): (r: ProgressItem)
    requires ItemValid(item)
    ensures ItemValid(r) && r.resolved == item.resolved && r.total == item.total
    ensures item.identified < item.total ==> r.identified == item.identified + 1
    ensures item.identified == item.total ==> r == item
  {
    item.(identified := if item.identified + 1 < item.total then item.identified + 1 else item.total)
  }

  function Resolve(item: ProgressItem): (r: ProgressItem)
    requires ItemValid(item)
    ensures ItemValid(r) && r.identified == item.identified && r.total == item.total
    ensures item.resolved < item.total ==> r.resolved == item.resolved + 1
    ensures item.resolved == item.total ==> r == item
  {
    item.(resolved := if item.resolved + 1 < item.total then item.resolved + 1 else item.total)
  }

  /** `Math.round(resolved / total * 100)`: round half up of `100 * resolved / total`. */
  function Percentage(item: ProgressItem): (p: int)
    requires ItemValid(item)
    ensures 0 <= p <= 100
    ensures item.resolved == item.total ==> p == 100
    ensures item.resolved == 0 ==> p == 0
    ensures 2 * item.total * p <= 200 * item.resolved + item.total < 2 * item.total * (p + 1)
  {
    var t := item.total;
    var p := (200 * item.resolved + t) / (2 * t);
    PercentageBounds(item.resolved, t, p);
    p
  }

  lemma PercentageBounds(r: int, t: int, p: int)
    requires t > 0 && 0 <= r <= t && p == (200 * r + t) / (2 * t)
    ensures 2 * t * p <= 200 * r + t < 2 * t * (p + 1)
    ensures 0 <= p <= 100
    ensures r == t ==> p == 100
    ensures r == 0 ==> p == 0
  {
    var q := 2 * t;
    var n := 200 * r + t;
    assert q * p <= n < q * p + q by {
      var m := n % q;
      assert n == q * p + m && 0 <= m < q;
    }
    assert q * p + q == q * (p + 1);
    QuotientRange(n, q, p, t, r);
  }

  /** The quotient facts, with the divisor `q = 2t` and the dividend `n = 200r + t` kept abstract. */
  lemma QuotientRange(n: int, q: int, p: int, t: int, r: int)
    requires t > 0 && q == 2 * t && n == 200 * r + t && 0 <= r <= t
    requires q * p <= n < q * (p + 1)
    ensures 0 <= p <= 100
    ensures r == t ==> p == 100
    ensures r == 0 ==> p == 0
  {
    assert n < q * 101;
    LessCancel(q, p, 101);
    assert q * 0 == 0;
    LessCancel(q, 0, p + 1);
    if r == t {
      assert q * 100 <= n;
      LessCancel(q, 99, p + 1);
    }
    if r == 0 {
      assert n < q * 1;
      LessCancel(q, p, 1);
    }
  }

  /** A positive factor can be cancelled from a strict inequality. */
  lemma LessCancel(q: int, a: int, b: int)
    requires q > 0 && q * a < q * b
    ensures a < b
  {
    assert q * (b - a) == q * b - q * a;
  }

  /** `getProgressPercentage(path)`; `None` where the lookup finds no entry and reading it throws. */
  function PercentageAt(progress: map<string, ProgressItem>, path: string): (r: Option<int>)
    requires forall p :: p in progress ==> ItemValid(progress[p])
    ensures r.Some? <==> path in progress
    ensures r.Some? ==> 0 <= r.value <= 100
  {
    if path in progress then Some(Percentage(progress[path])) else None
  }

  /** As written, the indicator's product item has no entry, so computing its percentage throws. */
  lemma IndicatorFailsAsWritten()
    ensures NavigationPaths[1] == "/products/:productId"
    ensures forall p :: p in InitialProgress ==> ItemValid(InitialProgress[p])
    ensures PercentageAt(InitialProgress, NavigationPaths[1]).None?
  {
  }

  /** With the intended keys every item of the indicator has a percentage, starting at 0. */
  lemma IntendedIndicatorReadsEveryItem()
    ensures forall p :: p in IntendedInitialProgress ==> ItemValid(IntendedInitialProgress[p])
    ensures forall i :: 0 <= i < |NavigationPaths| ==> PercentageAt(IntendedInitialProgress, NavigationPaths[i]) == Some(0)
  {
  }

  /** The provider's `progress` state. */
  class ProgressProvider {
    var progress: map<string, ProgressItem>

    /** Every entry is in range and every indicator path has an entry. */
    predicate Valid()
      reads this
    {
      (forall p :: p in progress ==> ItemValid(progress[p])) &&
      forall i :: 0 <= i < |NavigationPaths| ==> NavigationPaths[i] in progress
    }

    constructor ()
      ensures Valid() && progress == IntendedInitialProgress
    {
      progress := IntendedInitialProgress;
    }

    /** `markProblemIdentified(path)`: one more identified, capped at the total; nothing else changes. */
    method MarkProblemIdentified(path: string)
      requires Valid() && path in progress
      modifies this
      ensures Valid()
      ensures progress == old(progress)[path := Identify(old(progress)[path])]
    {
      progress := progress[path := Identify(progress[path])];
    }

    /** `markProblemResolved(path)`: one more resolved, capped at the total; nothing else changes. */
    method MarkProblemResolved(path: string)
      requires Valid() && path in progress
      modifies this
      ensures Valid()
      ensures progress == old(progress)[path := Resolve(old(progress)[path])]
    {
      progress := progress[path := Resolve(progress[path])];
    }

    /** `getProgressPercentage(path)` for an indicator path: always defined and in [0, 100]. */
    function GetProgressPercentage(i: nat): (p: int)
      requires Valid() && i < |NavigationPaths|
      reads this
      ensures 0 <= p <= 100
      ensures PercentageAt(progress, NavigationPaths[i]) == Some(p)
    {
      Percentage(progress[NavigationPaths[i]])
    }
  }

  /** Marking `n` times from zero, as the pages do on mount, reaches min(n, total). */
  function MarkTimes(item: ProgressItem, n: nat): (r: ProgressItem)
    requires ItemValid(item)
    ensures ItemValid(r) && r.total == item.total
    decreases n
  {
    if n == 0 then item else MarkTimes(Resolve(Identify(item)), n - 1)
  }

  lemma {:induction false} MarkTimesCaps(item: ProgressItem, n: nat)
    requires ItemValid(item) && item.identified == item.resolved
    ensures var r := MarkTimes(item, n);
      r.identified == r.resolved == (if item.resolved + n < item.total then item.resolved + n else item.total)
    decreases n
  {
    if n > 0 {
      MarkTimesCaps(Resolve(Identify(item)), n - 1);
    }
  }

  /** The product page's six marks on its entry complete it: the indicator shows 100. */
  lemma ProductPageCompletesItsEntry()
    ensures Percentage(MarkTimes(IntendedInitialProgress["/products/:productId"], 6)) == 100
  {
    MarkTimesCaps(ProgressItem(0, 0, 6), 6);
  }
}

/** The header's progress indicator: path normalisation, the active item, and the dot colour. */
module ProgressIndicator {
  import opened Text
  import opened AssessmentProgress

  /** `normalizePath`. */
  function NormalizePath(path: string): (r: string)
    ensures StartsWith(path, "/products/") ==> r == "/products/:productId"
    ensures !StartsWith(path, "/products/") ==> r == path
  {
    if StartsWith(path, "/products/") && path != "/products" then "/products/:productId" else path
  }

  /** `isActive` for the item at `itemPath` on `pathname`. */
  predicate IsActive(itemPath: string, pathname: string) {
    if itemPath == "/products/:productId" then StartsWith(pathname, "/products") else NormalizePath(pathname) == itemPath
  }

  datatype DotStatus = Success | Warning | Muted

  function Status(percentage: int): (s: DotStatus)
    ensures s == Success <==> percentage == 100
    ensures s == Warning <==> percentage > 0 && percentage != 100
    ensures s == Muted <==> percentage <= 0
  {
    if percentage == 100 then Success else if percentage > 0 then Warning else Muted
  }

  /** Example: the product item is active on the listing page as well as on a product page; the others only on their own path. */
  lemma ActiveItems()
    ensures IsActive("/products/:productId", "/products")
    ensures IsActive("/products/:productId", "/products/product-7")
    ensures !IsActive("/dashboard", "/products")
    ensures IsActive("/dashboard", "/dashboard")
  {
    assert "/products/product-7"[..|"/products"|] == "/products";
    assert "/dashboard"[1] != "/products/"[1];
  }

  /** A non-product item is active exactly on its own path. */
  lemma NonProductItemActiveIff(i: nat, pathname: string)
    requires i < |NavigationPaths| && i != 1
    ensures IsActive(NavigationPaths[i], pathname) <==> pathname == NavigationPaths[i]
  {
    var path := NavigationPaths[i];
    assert path[1] != "/products/"[1];
    assert !StartsWith(path, "/products/");
  }
}
