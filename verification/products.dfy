/**
 * The product store of lib/products.ts: the array of product records and the
 * array of sales figures, both module state that the store changes in place.
 * They are the fields of the class `Catalog`. The queries that only read them
 * are functions of the product sequence; the operations that write them, and
 * the ranking queries that sort the sales array in place, are methods.
 *
 * Dates are milliseconds since the epoch; `new Date()` is the parameter `now`.
 * Prices are reals and stocks integers.
 */
module Products {
  import opened Common
  import opened JsText

  datatype Product = Product(
    id: string,
    name: string,
    supplier: string,
    price: real,
    stock: int,
    minStock: int,
    image: string,
    characteristics: string,
    isDeleted: bool,
    createdAt: int,
    updatedAt: int)

  /** One entry of the sales figures. */
  datatype Sale = Sale(productId: string, sales: int)

  datatype Notification = Notification(product: Product, message: string)

  datatype Stats = Stats(
    totalProducts: nat,
    totalValue: real,
    lowStockCount: nat,
    outOfStockCount: nat,
    availableCount: nat,
    deletedCount: nat)

  /** How many entries the rankings keep. */
  const RankingSize: nat := 5

  predicate IsActive(p: Product) { !p.isDeleted }

  predicate IsDeleted(p: Product) { p.isDeleted }

  /** Listed by the low-stock query and notified about. */
  predicate NeedsRestock(p: Product) { !p.isDeleted && p.stock <= p.minStock }

  function StockKey(p: Product): int { p.stock }

  // ---- queries ----

  /** `getProducts()` */
  function GetProducts(ps: seq<Product>): seq<Product>
  {
    Filter(ps, IsActive)
  }

  /** `getDeletedProducts()` */
  function GetDeletedProducts(ps: seq<Product>): seq<Product>
  {
    Filter(ps, IsDeleted)
  }

  /** Where `find` stops: the first record with the id. */
  function FindIndex(ps: seq<Product>, id: string): (r: Option<nat>)
    ensures r.Some? ==> r.value < |ps| && ps[r.value].id == id
    ensures r.Some? ==> forall k :: 0 <= k < r.value ==> ps[k].id != id
    ensures r.None? ==> forall k :: 0 <= k < |ps| ==> ps[k].id != id
  {
    if ps == [] then None
    else if ps[0].id == id then Some(0)
    else
      match FindIndex(ps[1..], id)
      case None => None
      case Some(i) => Some(i + 1)
  }

  /** `getProductById(id)`: the first record with the id, deleted or not. */
  function GetProductById(ps: seq<Product>, id: string): (r: Option<Product>)
    ensures r.Some? <==> exists k :: 0 <= k < |ps| && ps[k].id == id
    ensures r.Some? ==> r.value.id == id && r.value in ps
    ensures r.Some? ==> exists k :: 0 <= k < |ps| && r.value == ps[k] && forall j :: 0 <= j < k ==> ps[j].id != id
  {
    match FindIndex(ps, id)
    case None => None
    case Some(i) => Some(ps[i])
  }

  /** `getLowStockProducts()`: the products that need restocking, fewest in stock first. */
  function GetLowStockProducts(ps: seq<Product>): (r: seq<Product>)
    ensures SortedBy(r, StockKey)
    ensures forall p :: p in r <==> p in ps && NeedsRestock(p)
    ensures multiset(r) == multiset(Filter(ps, NeedsRestock))
  {
    var low := Filter(ps, NeedsRestock);
    var r := SortBy(low, StockKey);
    assert forall p :: p in r <==> p in multiset(r);
    assert forall p :: p in low <==> p in multiset(low);
    r
  }

  /** The entry `checkLowStockNotifications` pushes for a product. */
  function NotificationFor(p: Product): Notification
  {
    Notification(p,
      if p.stock == 0 then p.name + " está agotado"
      else p.name + " tiene stock bajo (" + IntToString(p.stock) + " unidades)")
  }

  /** One notification per product, in order. */
  function NotificationsOf(low: seq<Product>): (r: seq<Notification>)
    ensures |r| == |low|
    ensures forall k :: 0 <= k < |r| ==> r[k] == NotificationFor(low[k])
  {
    if low == [] then [] else [NotificationFor(low[0])] + NotificationsOf(low[1..])
  }

  /** `reduce((sum, p) => sum + p.price * p.stock, 0)` */
  function TotalValue(ps: seq<Product>): real
  {
    if ps == [] then 0.0
    else TotalValue(ps[..|ps| - 1]) + ps[|ps| - 1].price * (ps[|ps| - 1].stock as real)
  }

  predicate IsLowStock(p: Product) { p.stock <= p.minStock && p.stock > 0 }

  predicate IsOutOfStock(p: Product) { p.stock == 0 }

  predicate IsAvailable(p: Product) { p.stock > p.minStock }

  /** `getInventoryStats()` */
  function GetInventoryStats(ps: seq<Product>): Stats
  {
    var active := GetProducts(ps);
    Stats(
      |active|,
      TotalValue(active),
      Count(active, IsLowStock),
      Count(active, IsOutOfStock),
      Count(active, IsAvailable),
      |GetDeletedProducts(ps)|)
  }

  // ---- the writes, as functions of the product sequence ----

  /** Both sequences hold records with the same ids in the same places. */
  predicate SameIds(a: seq<Product>, b: seq<Product>)
  {
    |a| == |b| && forall k :: 0 <= k < |a| ==> a[k].id == b[k].id
  }

  /** `updateProductStock(id, newStock)`: the first record with the id gets `max(0, newStock)`. */
  function StockUpdated(ps: seq<Product>, id: string, newStock: int, now: int): (r: seq<Product>)
    ensures SameIds(ps, r)
    ensures forall k :: 0 <= k < |ps| && FindIndex(ps, id) != Some(k) ==> r[k] == ps[k]
    ensures FindIndex(ps, id).Some? ==>
              var i := FindIndex(ps, id).value;
              r[i] == ps[i].(stock := Max(0, newStock), updatedAt := now)
  {
    match FindIndex(ps, id)
    case None => ps
    case Some(i) => ps[i := ps[i].(stock := Max(0, newStock), updatedAt := now)]
  }

  /** `deleteProduct(id)` with `deleted`, `restoreProduct(id)` without. */
  function DeletedFlagSet(ps: seq<Product>, id: string, deleted: bool, now: int): (r: seq<Product>)
    ensures SameIds(ps, r)
    ensures forall k :: 0 <= k < |ps| && FindIndex(ps, id) != Some(k) ==> r[k] == ps[k]
    ensures FindIndex(ps, id).Some? ==>
              var i := FindIndex(ps, id).value;
              r[i] == ps[i].(isDeleted := deleted, updatedAt := now)
  {
    match FindIndex(ps, id)
    case None => ps
    case Some(i) => ps[i := ps[i].(isDeleted := deleted, updatedAt := now)]
  }

  // ---- rankings ----

  /** `(a, b) => b.sales - a.sales` as a key: most sales first. */
  function DescendingSales(s: Sale): int { -s.sales }

  /** `(a, b) => a.sales - b.sales` as a key: fewest sales first. */
  function AscendingSales(s: Sale): int { s.sales }

  /** `.map(sale => find(...)).filter(Boolean)`: the records found for the entries, in order. */
  function Lookup(ss: seq<Sale>, ps: seq<Product>): (r: seq<Product>)
    ensures |r| <= |ss|
    ensures forall k :: 0 <= k < |r| ==> r[k] in ps
  {
    if ss == [] then []
    else
      var found := match GetProductById(ps, ss[0].productId)
        case None => []
        case Some(p) => [p];
      found + Lookup(ss[1..], ps)
  }

  /** The first five sorted entries, looked up, without the deleted products. */
  function Ranked(sorted: seq<Sale>, ps: seq<Product>): seq<Product>
  {
    GetProducts(Lookup(Take(sorted, RankingSize), ps))
  }

  /** An entry whose product is found and not deleted. */
  predicate Listed(ps: seq<Product>, s: Sale)
  {
    var p := GetProductById(ps, s.productId);
    p.Some? && !p.value.isDeleted
  }

  function Shown(ps: seq<Product>): Sale -> bool
  {
    (s: Sale) => Listed(ps, s)
  }

  // ---- the store ----

  class Catalog {
    var products: seq<Product>
    var sales: seq<Sale>

    constructor (products: seq<Product>, sales: seq<Sale>)
      ensures this.products == products && this.sales == sales
    {
      this.products := products;
      this.sales := sales;
    }

    method UpdateProductStock(id: string, newStock: int, now: int) returns (ok: bool)
      modifies this`products
      ensures ok <==> FindIndex(old(products), id).Some?
      ensures products == StockUpdated(old(products), id, newStock, now)
    {
      var found := FindIndex(products, id);
      if found.None? {
        return false;
      }
      var i := found.value;
      products := products[i := products[i].(stock := Max(0, newStock), updatedAt := now)];
      return true;
    }

    method DeleteProduct(id: string, now: int) returns (ok: bool)
      modifies this`products
      ensures ok <==> FindIndex(old(products), id).Some?
      ensures products == DeletedFlagSet(old(products), id, true, now)
    {
      var found := FindIndex(products, id);
      if found.None? {
        return false;
      }
      var i := found.value;
      products := products[i := products[i].(isDeleted := true, updatedAt := now)];
      return true;
    }

    method RestoreProduct(id: string, now: int) returns (ok: bool)
      modifies this`products
      ensures ok <==> FindIndex(old(products), id).Some?
      ensures products == DeletedFlagSet(old(products), id, false, now)
    {
      var found := FindIndex(products, id);
      if found.None? {
        return false;
      }
      var i := found.value;
      products := products[i := products[i].(isDeleted := false, updatedAt := now)];
      return true;
    }

    /** Sorts the sales figures in place, most sales first, and ranks the first five. */
    method GetTopSellingProducts() returns (r: seq<Product>)
      modifies this`sales
      ensures sales == SortBy(old(sales), DescendingSales)
      ensures r == Ranked(sales, products)
    {
      sales := SortBy(sales, DescendingSales);
      r := GetProducts(Lookup(Take(sales, RankingSize), products));
    }

    /** Sorts the sales figures in place, fewest sales first, and ranks the first five. */
    method GetLeastSellingProducts() returns (r: seq<Product>)
      modifies this`sales
      ensures sales == SortBy(old(sales), AscendingSales)
      ensures r == Ranked(sales, products)
    {
      sales := SortBy(sales, AscendingSales);
      r := GetProducts(Lookup(Take(sales, RankingSize), products));
    }

    /** Walks the products in order and pushes an entry for each one that needs restocking. */
    method CheckLowStockNotifications() returns (notifications: seq<Notification>)
      ensures notifications == NotificationsOf(Filter(products, NeedsRestock))
    {
      notifications := [];
      var i := 0;
      while i < |products|
        invariant 0 <= i <= |products|
        invariant notifications == NotificationsOf(Filter(products[..i], NeedsRestock))
      {
        var product := products[i];
        assert products[..i + 1] == products[..i] + [product];
        FilterAppend(products[..i], product, NeedsRestock);
        if NeedsRestock(product) {
          NotificationsAppend(Filter(products[..i], NeedsRestock), product);
          notifications := notifications + [NotificationFor(product)];
        }
        i := i + 1;
      }
      assert products[..i] == products;
    }
  }

  lemma NotificationsAppend(low: seq<Product>, p: Product)
    ensures NotificationsOf(low + [p]) == NotificationsOf(low) + [NotificationFor(p)]
  {
    var a, b := NotificationsOf(low + [p]), NotificationsOf(low) + [NotificationFor(p)];
    assert |a| == |b|;
    forall k | 0 <= k < |a| ensures a[k] == b[k] {
      if k < |low| {
        assert (low + [p])[k] == low[k];
      }
    }
  }

  // ---- what the store promises ----

  /**
   * The active and the deleted products split the store: every record is in
   * exactly one of the two lists, each list keeps the store's order.
   */
  lemma ActiveDeletedPartition(ps: seq<Product>)
    ensures |GetProducts(ps)| + |GetDeletedProducts(ps)| == |ps|
    ensures multiset(GetProducts(ps)) + multiset(GetDeletedProducts(ps)) == multiset(ps)
    ensures Subsequence(GetProducts(ps), ps) && Subsequence(GetDeletedProducts(ps), ps)
    ensures forall p :: p in ps ==> (p in GetProducts(ps) <==> !(p in GetDeletedProducts(ps)))
  {
    FilterSplit(ps, IsActive, IsDeleted);
    FilterIsSubsequence(ps, IsActive);
    FilterIsSubsequence(ps, IsDeleted);
  }

  /** Two sequences with the same ids in the same places find the same record. */
  lemma {:induction false} FindIndexSameIds(a: seq<Product>, b: seq<Product>, id: string)
    requires SameIds(a, b)
    ensures FindIndex(a, id) == FindIndex(b, id)
    decreases |a|
  {
    if a != [] {
      FindIndexSameIds(a[1..], b[1..], id);
    }
  }

  /**
   * A stock update writes `max(0, newStock)` into the first record with the
   * id; so a store whose stocks are never negative stays that way. An
   * unknown id changes nothing.
   */
  lemma StockUpdateClamps(ps: seq<Product>, id: string, newStock: int, now: int)
    requires forall k :: 0 <= k < |ps| ==> ps[k].stock >= 0
    ensures forall k :: 0 <= k < |ps| ==> StockUpdated(ps, id, newStock, now)[k].stock >= 0
    ensures FindIndex(ps, id).Some? ==>
              StockUpdated(ps, id, newStock, now)[FindIndex(ps, id).value].stock
                == (if newStock < 0 then 0 else newStock)
    ensures FindIndex(ps, id).None? ==> StockUpdated(ps, id, newStock, now) == ps
  {
  }

  /**
   * Deleting an active product moves exactly one record from the active list
   * to the deleted one; the store keeps its size.
   */
  lemma DeleteMovesOneRecord(ps: seq<Product>, id: string, now: int)
    requires FindIndex(ps, id).Some? && !ps[FindIndex(ps, id).value].isDeleted
    ensures |GetProducts(DeletedFlagSet(ps, id, true, now))| + 1 == |GetProducts(ps)|
    ensures |GetDeletedProducts(DeletedFlagSet(ps, id, true, now))| == |GetDeletedProducts(ps)| + 1
    ensures var moved := ps[FindIndex(ps, id).value].(isDeleted := true, updatedAt := now);
            moved in GetDeletedProducts(DeletedFlagSet(ps, id, true, now))
            && moved !in GetProducts(DeletedFlagSet(ps, id, true, now))
  {
    var i := FindIndex(ps, id).value;
    var q := ps[i].(isDeleted := true, updatedAt := now);
    CountUpdate(ps, i, q, IsActive);
    CountUpdate(ps, i, q, IsDeleted);
    assert q == DeletedFlagSet(ps, id, true, now)[i];
  }

  /**
   * Deleting an active product and restoring it gives back the store as it
   * was, except for the record's `updatedAt`: the product is active again
   * with all its other fields intact.
   */
  lemma DeleteThenRestore(ps: seq<Product>, id: string, deletedAt: int, restoredAt: int)
    requires FindIndex(ps, id).Some? && !ps[FindIndex(ps, id).value].isDeleted
    ensures var i := FindIndex(ps, id).value;
            DeletedFlagSet(DeletedFlagSet(ps, id, true, deletedAt), id, false, restoredAt)
              == ps[i := ps[i].(updatedAt := restoredAt)]
    ensures var after := DeletedFlagSet(DeletedFlagSet(ps, id, true, deletedAt), id, false, restoredAt);
            |GetProducts(after)| == |GetProducts(ps)|
  {
    var i := FindIndex(ps, id).value;
    var deleted := DeletedFlagSet(ps, id, true, deletedAt);
    FindIndexSameIds(ps, deleted, id);
    var after := DeletedFlagSet(deleted, id, false, restoredAt);
    assert after == ps[i := ps[i].(updatedAt := restoredAt)];
    CountUpdate(ps, i, ps[i].(updatedAt := restoredAt), IsActive);
  }

  /** Looking up and dropping deleted products is looking up the entries that are shown. */
  lemma {:induction false} LookupThenFilter(ss: seq<Sale>, ps: seq<Product>)
    ensures GetProducts(Lookup(ss, ps)) == Lookup(Filter(ss, Shown(ps)), ps)
    decreases |ss|
  {
    if ss != [] {
      var x, tail := ss[0], ss[1..];
      var found := GetProductById(ps, x.productId);
      var head: seq<Product> := if found.Some? then [found.value] else [];
      var shownTail := Filter(tail, Shown(ps));
      var shownHead := if Listed(ps, x) then [x] else [];
      assert Filter(head, IsActive) == if Listed(ps, x) then head else [];
      calc {
        GetProducts(Lookup(ss, ps));
        Filter(head + Lookup(tail, ps), IsActive);
        { FilterConcat(head, Lookup(tail, ps), IsActive); }
        Filter(head, IsActive) + GetProducts(Lookup(tail, ps));
        { LookupThenFilter(tail, ps); }
        Filter(head, IsActive) + Lookup(shownTail, ps);
        { LookupHead(shownHead, shownTail, ps); }
        Lookup(shownHead + shownTail, ps);
        { assert Shown(ps)(x) == Listed(ps, x); }
        Lookup(Filter(ss, Shown(ps)), ps);
      }
    }
  }

  /** Where ids are unique, `getProductById` finds each record by its own id. */
  lemma FoundByUniqueId(ps: seq<Product>, k: nat)
    requires forall i, j :: 0 <= i < j < |ps| ==> ps[i].id != ps[j].id
    requires k < |ps|
    ensures GetProductById(ps, ps[k].id) == Some(ps[k])
  {
  }

  /** Looking up a shown entry in front of others puts its product in front. */
  lemma LookupHead(h: seq<Sale>, t: seq<Sale>, ps: seq<Product>)
    requires |h| <= 1
    requires h != [] ==> Listed(ps, h[0])
    ensures Lookup(h + t, ps)
            == (if h == [] then [] else [GetProductById(ps, h[0].productId).value]) + Lookup(t, ps)
  {
    if h != [] {
      assert (h + t)[0] == h[0] && (h + t)[1..] == t;
    } else {
      assert h + t == t;
    }
  }

  /** Entries whose products are all found look up to one product each, in order. */
  lemma {:induction false} LookupListed(ss: seq<Sale>, ps: seq<Product>)
    requires forall k :: 0 <= k < |ss| ==> Listed(ps, ss[k])
    ensures |Lookup(ss, ps)| == |ss|
    ensures forall k :: 0 <= k < |ss| ==> GetProductById(ps, ss[k].productId) == Some(Lookup(ss, ps)[k])
    decreases |ss|
  {
    if ss != [] {
      assert Listed(ps, ss[0]);
      assert forall k :: 0 <= k < |ss[1..]| ==> ss[1..][k] == ss[k + 1];
      LookupListed(ss[1..], ps);
      var r := Lookup(ss, ps);
      assert r == [GetProductById(ps, ss[0].productId).value] + Lookup(ss[1..], ps);
    }
  }

  /**
   * A ranking holds at most five products, none deleted, and each is the
   * product of one of the first five sorted entries: the kept entries, in
   * order, are a subsequence of those five and keep their sort order.
   */
  lemma RankedInOrder(sorted: seq<Sale>, ps: seq<Product>, key: Sale -> int)
    requires SortedBy(sorted, key)
    ensures |Ranked(sorted, ps)| <= RankingSize
    ensures forall k :: 0 <= k < |Ranked(sorted, ps)| ==>
              Ranked(sorted, ps)[k] in ps && !Ranked(sorted, ps)[k].isDeleted
    ensures var kept := Filter(Take(sorted, RankingSize), Shown(ps));
            Subsequence(kept, Take(sorted, RankingSize))
            && SortedBy(kept, key)
            && |Ranked(sorted, ps)| == |kept|
            && forall k :: 0 <= k < |kept| ==>
                 GetProductById(ps, kept[k].productId) == Some(Ranked(sorted, ps)[k])
  {
    var top := Take(sorted, RankingSize);
    var kept := Filter(top, Shown(ps));
    LookupThenFilter(top, ps);
    assert Ranked(sorted, ps) == Lookup(kept, ps);
    FilterIsSubsequence(top, Shown(ps));
    assert SortedBy(top, key) by {
      forall i, j | 0 <= i < j < |top| ensures key(top[i]) <= key(top[j]) {
        assert top[i] == sorted[i] && top[j] == sorted[j];
      }
    }
    SubsequenceOfSorted(kept, top, key);
    assert forall k :: 0 <= k < |kept| ==> Listed(ps, kept[k]) by {
      forall k | 0 <= k < |kept| ensures Listed(ps, kept[k]) {
        assert Shown(ps)(kept[k]);
      }
    }
    LookupListed(kept, ps);
  }

  /** The low-stock query and the notifications list the same products in two orders. */
  lemma NotificationsMatchLowStock(ps: seq<Product>)
    ensures var ns := NotificationsOf(Filter(ps, NeedsRestock));
            |ns| == |GetLowStockProducts(ps)|
            && (forall k :: 0 <= k < |ns| ==> ns[k].product in ps && NeedsRestock(ns[k].product))
            && (forall p :: p in GetLowStockProducts(ps) ==> exists k :: 0 <= k < |ns| && ns[k].product == p)
  {
    var low := Filter(ps, NeedsRestock);
    var ns := NotificationsOf(low);
    forall p | p in GetLowStockProducts(ps) ensures exists k :: 0 <= k < |ns| && ns[k].product == p {
      var k :| 0 <= k < |low| && low[k] == p;
      assert ns[k].product == p;
    }
  }

  /** A notification says "está agotado" exactly when the product's stock is zero. */
  lemma OutOfStockMessage(p: Product)
    ensures NotificationFor(p).message == p.name + " está agotado" <==> p.stock == 0
  {
    if p.stock != 0 {
      var m := NotificationFor(p).message;
      assert m[|p.name| + 1] == 't';
      assert (p.name + " está agotado")[|p.name| + 1] == 'e';
    }
  }

  /** With no negative stock or threshold, every active product is in exactly one category. */
  lemma StatsAddUp(ps: seq<Product>)
    requires forall k :: 0 <= k < |ps| ==> ps[k].stock >= 0 && ps[k].minStock >= 0
    ensures var stats := GetInventoryStats(ps);
            stats.lowStockCount + stats.outOfStockCount + stats.availableCount == stats.totalProducts
            && stats.deletedCount == Count(ps, IsDeleted)
            && stats.totalProducts + stats.deletedCount == |ps|
  {
    var active := GetProducts(ps);
    forall p | p in active ensures p in ps {
    }
    CountThreeWay(active, IsLowStock, IsOutOfStock, IsAvailable);
    FilterSplit(ps, IsActive, IsDeleted);
  }

  /** With no negative price or stock the inventory value is not negative. */
  lemma {:induction false} TotalValueNonNegative(ps: seq<Product>)
    requires forall k :: 0 <= k < |ps| ==> ps[k].price >= 0.0 && ps[k].stock >= 0
    ensures TotalValue(ps) >= 0.0
    decreases |ps|
  {
    if ps != [] {
      var last := ps[|ps| - 1];
      TotalValueNonNegative(ps[..|ps| - 1]);
      assert last.price * (last.stock as real) >= 0.0;
    }
  }
}
