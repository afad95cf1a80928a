/**
 * The quick stock update page of app/quick-update/page.tsx: two short lists,
 * the best and the worst sellers, and the handler every card of the page
 * calls with a product's new stock. The handler catches every failure and
 * reports it in the page's banner, so it never throws back to the card.
 */
module QuickUpdatePage {
  import opened Common
  import opened JsText
  import opened Products

  /** The banner after a stock update: success names the product and the new stock. */
  function StockUpdateMessage(updated: bool, productName: string, newStock: int): Message
  {
    if updated then
      Message(Success, "Stock de \"" + productName + "\" actualizado a " + IntToString(newStock) + " unidades")
    else
      Message(Error, "Error al actualizar el stock de \"" + productName + "\"")
  }

  class Page {
    const catalog: Catalog
    var topSelling: seq<Product>
    var leastSelling: seq<Product>
    var message: Option<Message>

    constructor (catalog: Catalog)
      ensures this.catalog == catalog
      ensures topSelling == [] && leastSelling == [] && message == None
    {
      this.catalog := catalog;
      topSelling := [];
      leastSelling := [];
      message := None;
    }

    /**
     * `loadProducts()`: ranks the best sellers, then sorts the sales figures
     * the other way round and ranks the worst sellers. Both sorts are in
     * place, so the figures stay in the second order.
     */
    method LoadProducts()
      modifies catalog`sales, this`topSelling, this`leastSelling
      ensures catalog.sales == SortBy(SortBy(old(catalog.sales), DescendingSales), AscendingSales)
      ensures topSelling == GetProducts(Ranked(SortBy(old(catalog.sales), DescendingSales), catalog.products))
      ensures leastSelling == Ranked(catalog.sales, catalog.products)
    {
      var top := catalog.GetTopSellingProducts();
      catalog.sales := SortBy(catalog.sales, AscendingSales);
      var least := Lookup(Take(catalog.sales, RankingSize), catalog.products);
      topSelling := GetProducts(top);
      leastSelling := GetProducts(least);
    }

    /**
     * `handleStockUpdate(productId, newStock, productName)`: writes the new
     * stock; on success reloads the lists, otherwise only reports the error.
     * Nothing escapes to the caller.
     */
    method HandleStockUpdate(productId: string, newStock: int, productName: string, now: int)
      modifies catalog, this`topSelling, this`leastSelling, this`message
      ensures catalog.products == StockUpdated(old(catalog.products), productId, newStock, now)
      ensures var updated := FindIndex(old(catalog.products), productId).Some?;
              message == Some(StockUpdateMessage(updated, productName, newStock))
              && (updated ==>
                    catalog.sales == SortBy(SortBy(old(catalog.sales), DescendingSales), AscendingSales)
                    && topSelling == GetProducts(Ranked(SortBy(old(catalog.sales), DescendingSales), catalog.products))
                    && leastSelling == Ranked(catalog.sales, catalog.products))
              && (!updated ==>
                    catalog.sales == old(catalog.sales)
                    && topSelling == old(topSelling) && leastSelling == old(leastSelling))
    {
      var success := catalog.UpdateProductStock(productId, newStock, now);
      if success {
        LoadProducts();
        message := Some(StockUpdateMessage(true, productName, newStock));
      } else {
        message := Some(StockUpdateMessage(false, productName, newStock));
      }
    }
  }

  /** Dropping deleted products a second time changes nothing. */
  lemma ListsFilteredOnce(ps: seq<Product>)
    ensures GetProducts(GetProducts(ps)) == GetProducts(ps)
  {
    FilterFilter(ps, IsActive, IsActive, IsActive);
  }

  /**
   * The worst-seller list is at most five products, none deleted, each the
   * product of one of the five lowest entries, in ascending order of sales.
   */
  lemma LeastSellingRanking(sales: seq<Sale>, ps: seq<Product>)
    ensures var least := GetProducts(Lookup(Take(SortBy(sales, AscendingSales), RankingSize), ps));
            var kept := Filter(Take(SortBy(sales, AscendingSales), RankingSize), Shown(ps));
            |least| <= RankingSize
            && (forall k :: 0 <= k < |least| ==> least[k] in ps && !least[k].isDeleted)
            && SortedBy(kept, AscendingSales)
            && |least| == |kept|
            && forall k :: 0 <= k < |kept| ==> GetProductById(ps, kept[k].productId) == Some(least[k])
  {
    RankedInOrder(SortBy(sales, AscendingSales), ps, AscendingSales);
  }

  /** Both banners name the product; the success banner also shows the new stock. */
  lemma MessageNamesProduct(updated: bool, productName: string, newStock: int)
    ensures Includes(StockUpdateMessage(updated, productName, newStock).text, productName)
    ensures updated ==> Includes(StockUpdateMessage(updated, productName, newStock).text, IntToString(newStock))
    ensures StockUpdateMessage(updated, productName, newStock).kind == if updated then Success else Error
  {
    var text := StockUpdateMessage(updated, productName, newStock).text;
    var lead := if updated then "Stock de \"" else "Error al actualizar el stock de \"";
    assert text[|lead|..][..|productName|] == productName;
    IncludesAt(text, productName);
    if updated {
      var number := IntToString(newStock);
      var before := lead + productName + "\" actualizado a ";
      assert text == before + number + " unidades";
      assert text[|before|..][..|number|] == number;
      IncludesAt(text, number);
    }
  }
}
