/**
 * The product management page of app/products/page.tsx: the active and
 * deleted products, the search box and category select that narrow the
 * table, four stat cards, and the delete, restore and create handlers.
 *
 * `toLowerCase` is the page's parameter `lower`. The backend calls
 * `deleteProductAPI`, `createProduct`, `fetchProducts` and
 * `convertBackendToFrontend` are not part of this model: each handler that
 * uses them receives their joint outcome as a parameter, either the
 * converted product list that `fetchProducts` returned or what one of the
 * calls threw.
 */
module ProductsPage {
  import opened Common
  import opened JsText
  import opened Products
  import opened CreateProductDialog

  const InvalidIdMessage: string := "ID de producto inválido"
  const DeletedMessage: string := "Producto eliminado exitosamente"
  const DeleteFallback: string := "Error al eliminar el producto"
  const RestoredMessage: string := "Producto recuperado exitosamente"
  const RestoreFailedMessage: string := "Error al recuperar el producto"
  const CreatedMessage: string := "Producto creado exitosamente"
  const CreateFallback: string := "Error al crear el producto"

  // ---- search and category filter ----

  /** The search matches the name, the supplier or the characteristics, all lower-cased. */
  predicate MatchesSearch(p: Product, term: string, lower: string -> string)
  {
    Includes(lower(p.name), lower(term))
    || Includes(lower(p.supplier), lower(term))
    || Includes(lower(p.characteristics), lower(term))
  }

  function Matches(term: string, lower: string -> string): Product -> bool
  {
    (p: Product) => MatchesSearch(p, term, lower)
  }

  /** The "low-stock" category: at or under the threshold, out of stock included. */
  predicate AtOrUnderMinimum(p: Product) { p.stock <= p.minStock }

  /** The search step of the filter effect: skipped when the term is blank once trimmed. */
  function Searched(ps: seq<Product>, term: string, lower: string -> string): seq<Product>
  {
    if Blank(term) then ps else Filter(ps, Matches(term, lower))
  }

  /** The category step; a value other than the three categories filters nothing. */
  function Categorized(ps: seq<Product>, filterBy: string): seq<Product>
  {
    if filterBy == "low-stock" then Filter(ps, AtOrUnderMinimum)
    else if filterBy == "out-of-stock" then Filter(ps, IsOutOfStock)
    else if filterBy == "available" then Filter(ps, IsAvailable)
    else ps
  }

  /** The filter effect: search, then category. */
  function ApplyFilters(ps: seq<Product>, term: string, filterBy: string, lower: string -> string): seq<Product>
  {
    Categorized(Searched(ps, term, lower), filterBy)
  }

  /** The category step keeps products that satisfy one fixed predicate. */
  function CategoryTest(filterBy: string): Product -> bool
  {
    if filterBy == "low-stock" then AtOrUnderMinimum
    else if filterBy == "out-of-stock" then IsOutOfStock
    else if filterBy == "available" then IsAvailable
    else (p: Product) => true
  }

  // ---- the delete guard and the create payload ----

  /** `parseInt(productId)`, with NaN rejected before any backend call. */
  function DeleteCode(productId: string): Result<int, string>
  {
    match ParseInt(productId)
    case None => Failure(InvalidIdMessage)
    case Some(codigo) => Ok(codigo)
  }

  /** The body sent to `createProduct`; an absent key is None. */
  datatype BackendCreate = BackendCreate(
    nombre: string,
    cantidad: int,
    precio: real,
    idProveedor: int,
    umbralMinimo: Option<int>,
    imagen: Option<string>,
    descripcion: Option<string>)

  /**
   * The frontend-to-backend mapping. The supplier is always text, so the
   * `typeof supplier === 'number'` test always picks the default 1.
   */
  function ToBackendPayload(p: NewProduct): (b: BackendCreate)
    ensures b.nombre == p.name && b.cantidad == p.stock && b.precio == p.price
    ensures b.idProveedor == 1
    ensures b.umbralMinimo.None? <==> p.minStock <= 0
    ensures b.umbralMinimo.Some? ==> b.umbralMinimo.value == p.minStock
    ensures b.imagen.None? <==> p.image == ""
    ensures b.imagen.Some? ==> b.imagen.value == p.image
    ensures b.descripcion.None? <==> p.characteristics == ""
    ensures b.descripcion.Some? ==> b.descripcion.value == p.characteristics
  {
    BackendCreate(
      p.name,
      p.stock,
      p.price,
      1,
      if p.minStock > 0 then Some(p.minStock) else None,
      if p.image != "" then Some(p.image) else None,
      if p.characteristics != "" then Some(p.characteristics) else None)
  }

  // ---- the stat cards ----

  datatype StatCards = StatCards(total: nat, lowStock: nat, outOfStock: nat, deleted: nat)

  /** "Total Productos", "Stock Bajo", "Agotados" and "Eliminados". */
  function Cards(products: seq<Product>, deleted: seq<Product>): StatCards
  {
    StatCards(|products|, Count(products, IsLowStock), Count(products, IsOutOfStock), |deleted|)
  }

  // ---- the page ----

  class Page {
    const catalog: Catalog
    const lower: string -> string
    var products: seq<Product>
    var deletedProducts: seq<Product>
    var filteredProducts: seq<Product>
    var searchTerm: string
    var filterBy: string
    var message: Option<Message>

    /** The filter effect has run on the current products, term and category. */
    predicate Valid()
      reads this`products, this`searchTerm, this`filterBy, this`filteredProducts
    {
      filteredProducts == ApplyFilters(products, searchTerm, filterBy, lower)
    }

    constructor (catalog: Catalog, lower: string -> string)
      ensures this.catalog == catalog && this.lower == lower
      ensures products == [] && deletedProducts == [] && searchTerm == "" && filterBy == "all"
      ensures message == None
      ensures Valid()
    {
      this.catalog := catalog;
      this.lower := lower;
      products := [];
      deletedProducts := [];
      filteredProducts := [];
      searchTerm := "";
      filterBy := "all";
      message := None;
    }

    /**
     * Runs the filter effect, as React does after a change of products, term
     * or category. React applies a handler's state updates together and runs
     * the effect after them, so the handlers below call it last.
     */
    method RunFilterEffect()
      modifies this`filteredProducts
      ensures Valid()
    {
      var filtered := products;
      if !Blank(searchTerm) {
        filtered := Filter(filtered, Matches(searchTerm, lower));
      }
      if filterBy != "all" {
        if filterBy == "low-stock" {
          filtered := Filter(filtered, AtOrUnderMinimum);
        } else if filterBy == "out-of-stock" {
          filtered := Filter(filtered, IsOutOfStock);
        } else if filterBy == "available" {
          filtered := Filter(filtered, IsAvailable);
        }
      }
      filteredProducts := filtered;
    }

    /** `loadProducts()`: the store's active and deleted products. */
    method LoadProducts()
      modifies this`products, this`deletedProducts, this`filteredProducts
      ensures products == GetProducts(catalog.products)
      ensures deletedProducts == GetDeletedProducts(catalog.products)
      ensures Valid()
    {
      var active, gone := GetProducts(catalog.products), GetDeletedProducts(catalog.products);
      products, deletedProducts := active, gone;
      RunFilterEffect();
    }

    method SetSearchTerm(term: string)
      modifies this`searchTerm, this`filteredProducts
      ensures searchTerm == term
      ensures Valid()
    {
      searchTerm := term;
      RunFilterEffect();
    }

    method SetFilterBy(category: string)
      modifies this`filterBy, this`filteredProducts
      ensures filterBy == category
      ensures Valid()
    {
      filterBy := category;
      RunFilterEffect();
    }

    /**
     * `handleDeleteProduct(productId)`: an id `parseInt` cannot read is
     * reported before any backend call; otherwise the backend outcome decides
     * between the reloaded list and the error. `called` is the code passed to
     * `deleteProductAPI`, if it was called.
     */
    method HandleDeleteProduct(productId: string, backend: Result<seq<Product>, Thrown>)
      returns (called: Option<int>)
      modifies this`products, this`filteredProducts, this`message
      ensures DeleteCode(productId).Failure? ==>
                called == None && message == Some(Message(Error, InvalidIdMessage))
                && products == old(products) && filteredProducts == old(filteredProducts)
      ensures DeleteCode(productId).Ok? ==> called == Some(DeleteCode(productId).value)
      ensures DeleteCode(productId).Ok? && backend.Ok? ==>
                products == backend.value && message == Some(Message(Success, DeletedMessage)) && Valid()
      ensures DeleteCode(productId).Ok? && backend.Failure? ==>
                products == old(products) && filteredProducts == old(filteredProducts)
                && message == Some(Message(Error, ErrorText(backend.error, DeleteFallback)))
    {
      var code := DeleteCode(productId);
      if code.Failure? {
        message := Some(Message(Error, InvalidIdMessage));
        return None;
      }
      called := Some(code.value);
      ShowBackendOutcome(backend, DeletedMessage, DeleteFallback);
    }

    /**
     * The end of the delete and create handlers: the list `fetchProducts`
     * returned replaces the products and a success banner shows, or the
     * `catch` clause shows what was thrown. The handlers also set the
     * filtered list to the fetched one, but the filter effect that follows
     * overwrites it, so only the effect's result is kept here.
     */
    method ShowBackendOutcome(backend: Result<seq<Product>, Thrown>, success: string, fallback: string)
      modifies this`products, this`filteredProducts, this`message
      ensures backend.Ok? ==>
                products == backend.value && message == Some(Message(Success, success)) && Valid()
      ensures backend.Failure? ==>
                products == old(products) && filteredProducts == old(filteredProducts)
                && message == Some(Message(Error, ErrorText(backend.error, fallback)))
    {
      if backend.Failure? {
        message := Some(Message(Error, ErrorText(backend.error, fallback)));
      } else {
        products := backend.value;
        message := Some(Message(Success, success));
        RunFilterEffect();
      }
    }

    /** `handleRestoreProduct(productId)`: restores in the store and reloads, or reports the failure. */
    method HandleRestoreProduct(productId: string, now: int)
      modifies catalog`products, this`products, this`deletedProducts, this`filteredProducts, this`message
      ensures catalog.products == DeletedFlagSet(old(catalog.products), productId, false, now)
      ensures FindIndex(old(catalog.products), productId).Some? ==>
                products == GetProducts(catalog.products)
                && deletedProducts == GetDeletedProducts(catalog.products)
                && message == Some(Message(Success, RestoredMessage))
                && Valid()
      ensures FindIndex(old(catalog.products), productId).None? ==>
                products == old(products) && deletedProducts == old(deletedProducts)
                && filteredProducts == old(filteredProducts)
                && message == Some(Message(Error, RestoreFailedMessage))
    {
      var success := catalog.RestoreProduct(productId, now);
      if success {
        message := Some(Message(Success, RestoredMessage));
        LoadProducts();
      } else {
        message := Some(Message(Error, RestoreFailedMessage));
      }
    }

    /**
     * `handleCreateProduct(newProduct)`: always builds the backend payload
     * (returned here); the backend outcome decides between the reloaded list
     * and the error.
     */
    method HandleCreateProduct(newProduct: NewProduct, backend: Result<seq<Product>, Thrown>)
      returns (payload: BackendCreate)
      modifies this`products, this`filteredProducts, this`message
      ensures payload == ToBackendPayload(newProduct)
      ensures backend.Ok? ==>
                products == backend.value && message == Some(Message(Success, CreatedMessage)) && Valid()
      ensures backend.Failure? ==>
                products == old(products) && filteredProducts == old(filteredProducts)
                && message == Some(Message(Error, ErrorText(backend.error, CreateFallback)))
    {
      payload := ToBackendPayload(newProduct);
      ShowBackendOutcome(backend, CreatedMessage, CreateFallback);
    }
  }

  // ---- what the filters promise ----

  /** A blank search and a value other than the three categories leave the list as it is. */
  lemma NoFilterIsIdentity(ps: seq<Product>, term: string, filterBy: string, lower: string -> string)
    requires Blank(term)
    requires filterBy != "low-stock" && filterBy != "out-of-stock" && filterBy != "available"
    ensures ApplyFilters(ps, term, filterBy, lower) == ps
  {
  }

  /** A non-blank search keeps exactly the matching products, in their order. */
  lemma SearchKeepsMatches(ps: seq<Product>, term: string, lower: string -> string)
    requires !Blank(term)
    ensures forall p :: p in Searched(ps, term, lower) <==> p in ps && MatchesSearch(p, term, lower)
    ensures Subsequence(Searched(ps, term, lower), ps)
  {
    FilterIsSubsequence(ps, Matches(term, lower));
  }

  /**
   * The filtered table is the products that pass the search and the category
   * test, in the order of the full list.
   */
  lemma FilteredIsOrderedSubsequence(ps: seq<Product>, term: string, filterBy: string, lower: string -> string)
    ensures Subsequence(ApplyFilters(ps, term, filterBy, lower), ps)
    ensures forall p :: p in ApplyFilters(ps, term, filterBy, lower) <==>
              p in ps && (Blank(term) || MatchesSearch(p, term, lower)) && CategoryTest(filterBy)(p)
  {
    var searched := Searched(ps, term, lower);
    var test := CategoryTest(filterBy);
    var both := (p: Product) => (Blank(term) || MatchesSearch(p, term, lower)) && test(p);
    if Blank(term) {
      FilterFilter(ps, (p: Product) => true, test, both);
      FilterKeepsAll(ps, (p: Product) => true);
    } else {
      FilterFilter(ps, Matches(term, lower), test, both);
    }
    FilterIsSubsequence(ps, both);
    assert Categorized(searched, filterBy) == Filter(searched, test) by {
      if filterBy != "low-stock" && filterBy != "out-of-stock" && filterBy != "available" {
        FilterKeepsAll(searched, test);
      }
    }
  }

  /** The "low-stock" and "available" results split the searched list between them. */
  lemma LowAndAvailablePartition(ps: seq<Product>, term: string, lower: string -> string)
    ensures |ApplyFilters(ps, term, "low-stock", lower)| + |ApplyFilters(ps, term, "available", lower)|
            == |Searched(ps, term, lower)|
    ensures multiset(ApplyFilters(ps, term, "low-stock", lower)) + multiset(ApplyFilters(ps, term, "available", lower))
            == multiset(Searched(ps, term, lower))
  {
    FilterSplit(Searched(ps, term, lower), AtOrUnderMinimum, IsAvailable);
  }

  /**
   * The "Stock Bajo" card counts only products with some stock left, while
   * the "low-stock" filter also lists the out-of-stock ones: with no negative
   * stock or threshold, the filter's count is the card's plus "Agotados".
   */
  lemma LowStockCardExcludesOutOfStock(ps: seq<Product>, deleted: seq<Product>)
    requires forall k :: 0 <= k < |ps| ==> ps[k].stock >= 0 && ps[k].minStock >= 0
    ensures |Categorized(ps, "low-stock")| == Cards(ps, deleted).lowStock + Cards(ps, deleted).outOfStock
  {
    var low := Filter(ps, AtOrUnderMinimum);
    forall p | p in low ensures (IsOutOfStock(p) <==> !IsLowStock(p)) {
      assert p in ps;
    }
    FilterSplit(low, IsLowStock, IsOutOfStock);
    forall p | p in ps ensures (IsLowStock(p) <==> AtOrUnderMinimum(p) && IsLowStock(p)) {
    }
    forall p | p in ps ensures (IsOutOfStock(p) <==> AtOrUnderMinimum(p) && IsOutOfStock(p)) {
      var k :| 0 <= k < |ps| && ps[k] == p;
    }
    FilterFilter(ps, AtOrUnderMinimum, IsLowStock, IsLowStock);
    FilterFilter(ps, AtOrUnderMinimum, IsOutOfStock, IsOutOfStock);
  }

  /** After a load, the cards agree with the store's inventory statistics. */
  lemma CardsMatchInventoryStats(ps: seq<Product>)
    ensures var cards := Cards(GetProducts(ps), GetDeletedProducts(ps));
            var stats := GetInventoryStats(ps);
            cards.total == stats.totalProducts && cards.lowStock == stats.lowStockCount
            && cards.outOfStock == stats.outOfStockCount && cards.deleted == stats.deletedCount
  {
  }

  /** Every id written as an integer passes the guard, as that integer. */
  lemma DeleteCodeOfWrittenId(n: int)
    ensures DeleteCode(IntToString(n)) == Ok(n)
  {
    ParseIntOfIntToString(n);
  }

  /** An id without a single decimal digit is rejected with "ID de producto inválido". */
  lemma DeleteCodeRejectsNonNumeric(productId: string)
    requires forall i :: 0 <= i < |productId| ==> !IsDecimalDigit(productId[i])
    ensures DeleteCode(productId) == Failure(InvalidIdMessage)
  {
    ParseIntNeedsADigit(productId);
  }

  /**
   * A product accepted by the creation dialog always sends an image and a
   * description, and omits the threshold exactly when it is zero.
   */
  lemma DialogProductPayload(form: FormData, parseFloat: string -> Option<real>)
    requires Validate(form, parseFloat).Ok?
    ensures var payload := ToBackendPayload(Validate(form, parseFloat).value);
            payload.imagen.Some? && payload.descripcion.Some?
            && (payload.umbralMinimo.None? <==> Validate(form, parseFloat).value.minStock == 0)
  {
    AcceptedProductIsClean(form, parseFloat);
  }
}
