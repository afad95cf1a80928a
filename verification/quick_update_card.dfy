/**
 * One product card of the quick stock update page
 * (components/quick-update-card.tsx): a stock badge, five adjust buttons and
 * the handler behind them. The handler sends the card's product, its id and
 * the ABSOLUTE new stock `max(0, stock + increment)` to the page, waits for
 * it, and then writes that stock into the card's product; `isUpdating` is
 * set for as long as the page's handler runs.
 *
 * The wait is split in two events: `Press` starts the change and
 * `FinishStockChange` settles it, with or without an exception.
 */
module QuickUpdateCard {
  import opened Common
  import opened Products
  import opened QuickUpdatePage

  /** The badge `getStockStatus` picks. */
  datatype StockStatus = Unavailable | LowStock | Available

  function StatusLabel(s: StockStatus): string
  {
    match s
    case Unavailable => "No disponible"
    case LowStock => "Stock bajo"
    case Available => "Disponible"
  }

  /** `getStockStatus()`: out of stock first, then at or under the threshold, else available. */
  function GetStockStatus(p: Product): (s: StockStatus)
    ensures s == Unavailable <==> p.stock == 0
    ensures s == LowStock <==> p.stock != 0 && p.stock <= p.minStock
    ensures s == Available <==> p.stock != 0 && p.stock > p.minStock
  {
    if p.stock == 0 then Unavailable
    else if p.stock <= p.minStock then LowStock
    else Available
  }

  /** The five adjust buttons, in the order the card shows them. */
  datatype Button = MinusOne | PlusOne | PlusFive | PlusTen | MinusFive

  function Increment(b: Button): (inc: int)
    ensures inc in {-1, 1, 5, 10, -5}
    ensures inc < 0 <==> b == MinusOne || b == MinusFive
  {
    match b
    case MinusOne => -1
    case PlusOne => 1
    case PlusFive => 5
    case PlusTen => 10
    case MinusFive => -5
  }

  /** The `disabled` condition of each button. */
  predicate Disabled(b: Button, isUpdating: bool, stock: int)
  {
    match b
    case MinusOne => isUpdating || stock == 0
    case MinusFive => isUpdating || stock < 5
    case _ => isUpdating
  }

  /** `Math.max(0, product.stock + increment)` */
  function ProposedStock(stock: int, increment: int): (n: int)
    ensures n >= 0
    ensures n >= stock + increment
    ensures stock + increment >= 0 ==> n == stock + increment
    ensures stock + increment < 0 ==> n == 0
  {
    Max(0, stock + increment)
  }

  /** What the card passes to `onStockUpdate`. */
  datatype StockRequest = StockRequest(productId: string, newStock: int, productName: string)

  class Card {
    var product: Product
    var isUpdating: bool
    /** The stock a started change will write once the page's handler returns. */
    var pending: Option<int>

    /** A change is pending exactly while the card shows it is updating. */
    predicate Valid()
      reads this
    {
      pending.Some? <==> isUpdating
    }

    constructor (product: Product)
      ensures this.product == product && !isUpdating && pending == None
      ensures Valid()
    {
      this.product := product;
      isUpdating := false;
      pending := None;
    }

    /**
     * The first half of `handleStockChange(increment)`: computes the new
     * stock, sets `isUpdating` and issues the call to the page.
     */
    method BeginStockChange(increment: int) returns (request: StockRequest)
      requires Valid()
      modifies this`isUpdating, this`pending
      ensures Valid() && isUpdating
      ensures pending == Some(ProposedStock(product.stock, increment))
      ensures request == StockRequest(product.id, ProposedStock(product.stock, increment), product.name)
    {
      var newStock := Max(0, product.stock + increment);
      isUpdating := true;
      pending := Some(newStock);
      request := StockRequest(product.id, newStock, product.name);
    }

    /**
     * The second half: the stock is written only when the call did not throw;
     * `isUpdating` is cleared either way.
     */
    method FinishStockChange(threw: bool)
      requires Valid() && isUpdating
      modifies this
      ensures Valid() && !isUpdating && pending == None
      ensures product == if threw then old(product) else old(product).(stock := old(pending).value)
    {
      if !threw {
        product := product.(stock := pending.value);
      }
      isUpdating := false;
      pending := None;
    }

    /** A click: a disabled button does nothing, an enabled one starts a change. */
    method Press(b: Button) returns (request: Option<StockRequest>)
      requires Valid()
      modifies this`isUpdating, this`pending
      ensures Valid()
      ensures Disabled(b, old(isUpdating), product.stock) ==>
                request == None && isUpdating == old(isUpdating) && pending == old(pending)
      ensures !Disabled(b, old(isUpdating), product.stock) ==>
                isUpdating
                && pending == Some(ProposedStock(product.stock, Increment(b)))
                && request == Some(StockRequest(product.id, ProposedStock(product.stock, Increment(b)), product.name))
    {
      if Disabled(b, isUpdating, product.stock) {
        return None;
      }
      var r := BeginStockChange(Increment(b));
      request := Some(r);
    }
  }

  /**
   * A click on an enabled button of a card on the quick update page, run to
   * the end: the page writes the store and sets its banner, and because the
   * page's handler never throws, the card always writes the proposed stock
   * into its own product, even when the store had no product with that id.
   */
  method AdjustStock(card: Card, page: Page, b: Button, now: int)
    requires card.Valid() && !card.isUpdating
    requires !Disabled(b, false, card.product.stock)
    modifies card, page, page.catalog
    ensures card.Valid() && !card.isUpdating
    ensures card.product == old(card.product).(stock := ProposedStock(old(card.product.stock), Increment(b)))
    ensures page.catalog.products
              == StockUpdated(old(page.catalog.products), old(card.product.id),
                              ProposedStock(old(card.product.stock), Increment(b)), now)
    ensures page.message == Some(StockUpdateMessage(
              FindIndex(old(page.catalog.products), old(card.product.id)).Some?,
              old(card.product.name),
              ProposedStock(old(card.product.stock), Increment(b))))
  {
    var request := card.Press(b);
    page.HandleStockUpdate(request.value.productId, request.value.newStock, request.value.productName, now);
    card.FinishStockChange(false);
  }

  /** Every button is disabled while a change is pending. */
  lemma AllDisabledWhileUpdating(b: Button, stock: int)
    ensures Disabled(b, true, stock)
  {
  }

  /**
   * An enabled decrement never reaches below zero, so on a card whose stock
   * is not negative the clamp to zero never acts for an enabled button.
   */
  lemma EnabledButtonsNeverClamp(b: Button, stock: int)
    requires stock >= 0
    requires !Disabled(b, false, stock)
    ensures stock + Increment(b) >= 0
    ensures ProposedStock(stock, Increment(b)) == stock + Increment(b)
  {
  }

  /**
   * The badge agrees with the store's restock rule for an active product
   * whose threshold is not negative: "No disponible" or "Stock bajo" exactly
   * when the store notifies about it, and "No disponible" exactly when the
   * notification says it is out of stock.
   */
  lemma StatusAgreesWithNotifications(p: Product)
    requires !p.isDeleted && p.minStock >= 0
    ensures GetStockStatus(p) != Available <==> NeedsRestock(p)
    ensures GetStockStatus(p) == Unavailable <==> NotificationFor(p).message == p.name + " está agotado"
  {
    OutOfStockMessage(p);
  }
}
