/**
 * The records the store starts with (`MOCK_PRODUCTS` and `SALES_DATA` of
 * lib/products.ts), and what the queries answer on them before anything
 * has been written. Dates are milliseconds since the epoch at UTC midnight,
 * which is how `new Date("YYYY-MM-DD")` reads a date-only string.
 */
module SeedData {
  import opened Common
  import opened Products

  const DogFood: Product := Product(
    "1", "Alimento Premium para Perros", "Pet Food Co.", 45.99, 25, 10, "/dog-food-bag.jpg",
    "Alimento balanceado para perros adultos, rico en proteínas y vitaminas",
    false, 1705276800000, 1705708800000)

  const CatCollar: Product := Product(
    "2", "Collar Ajustable para Gatos", "Pet Accessories Ltd.", 12.5, 8, 15, "/placeholder-1i1wf.png",
    "Collar ajustable de nylon con cascabel, disponible en varios colores",
    false, 1704844800000, 1705536000000)

  const DogToy: Product := Product(
    "3", "Juguete Interactivo para Perros", "Fun Pet Toys", 18.75, 32, 20, "/placeholder-nnijs.png",
    "Juguete de goma resistente con sonido, ideal para perros medianos y grandes",
    false, 1705017600000, 1705881600000)

  const CatLitter: Product := Product(
    "4", "Arena para Gatos Premium", "Clean Litter Inc.", 22.3, 5, 12, "/placeholder-c2ocr.png",
    "Arena aglomerante con control de olores, 10kg",
    false, 1704672000000, 1706140800000)

  const PetBed: Product := Product(
    "5", "Cama Ortopédica para Mascotas", "Comfort Pet Beds", 89.99, 15, 8, "/placeholder-e0etb.png",
    "Cama de espuma viscoelástica, lavable, tamaño mediano",
    false, 1704412800000, 1705622400000)

  /** `MOCK_PRODUCTS` */
  const MockProducts: seq<Product> := [DogFood, CatCollar, DogToy, CatLitter, PetBed]

  /** `SALES_DATA` */
  const SalesData: seq<Sale> := [Sale("3", 45), Sale("1", 38), Sale("5", 22), Sale("2", 15), Sale("4", 12)]

  /** No seed product is deleted: all five are listed, none is in the bin. */
  lemma SeedIsWellFormed()
    ensures GetProducts(MockProducts) == MockProducts && GetDeletedProducts(MockProducts) == []
  {
    FilterKeepsAll(MockProducts, IsActive);
    ActiveDeletedPartition(MockProducts);
  }

  /** Each seed product is found by its own id. */
  lemma SeedFoundById()
    ensures forall k :: 0 <= k < |MockProducts| ==>
              GetProductById(MockProducts, MockProducts[k].id) == Some(MockProducts[k])
  {
    SeedIdsAreDistinct();
    forall k | 0 <= k < |MockProducts|
      ensures GetProductById(MockProducts, MockProducts[k].id) == Some(MockProducts[k])
    {
      FoundByUniqueId(MockProducts, k);
    }
  }

  /** The sales figures are already listed with the most sales first. */
  lemma SeedSalesAreDescending()
    ensures SortBy(SalesData, DescendingSales) == SalesData
  {
    SortBySorted(SalesData, DescendingSales);
  }

  /** The sales figures read backwards. */
  lemma SeedSalesReversed()
    ensures Reverse(SalesData) == [Sale("4", 12), Sale("2", 15), Sale("5", 22), Sale("1", 38), Sale("3", 45)]
  {
    var r := Reverse(SalesData);
    assert |r| == 5;
  }

  /** Fewest sales first, the figures come out in the reverse order. */
  lemma SeedSalesAscending()
    ensures SortBy(SalesData, AscendingSales) == Reverse(SalesData)
  {
    var s := SalesData;
    assert forall i, j :: 0 <= i < j < |s| ==> AscendingSales(s[i]) > AscendingSales(s[j]);
    SortByFalling(s, AscendingSales);
  }

  /** The distinct ids of the seed products. */
  lemma SeedIdsAreDistinct()
    ensures forall i, j :: 0 <= i < j < |MockProducts| ==> MockProducts[i].id != MockProducts[j].id
  {
  }

  /** Each sales entry names a seed product; looking them up gives the products in sales order. */
  lemma SeedLookup()
    ensures Lookup(SalesData, MockProducts) == [DogToy, DogFood, PetBed, CatCollar, CatLitter]
  {
    var ps, ss := MockProducts, SalesData;
    var looked := [DogToy, DogFood, PetBed, CatCollar, CatLitter];
    SeedFoundById();
    forall k | 0 <= k < |ss|
      ensures GetProductById(ps, ss[k].productId) == Some(looked[k])
    {
      var at := [2, 0, 4, 1, 3];
      assert ss[k].productId == looked[k].id && looked[k] == ps[at[k]];
    }
    LookupListed(ss, ps);
  }

  /** Before any write, the dashboard ranks the toy, food, bed, collar and litter, in that order. */
  lemma SeedTopSelling()
    ensures Ranked(SortBy(SalesData, DescendingSales), MockProducts) ==
            [DogToy, DogFood, PetBed, CatCollar, CatLitter]
  {
    SeedSalesAreDescending();
    SeedLookup();
    assert Take(SalesData, RankingSize) == SalesData;
    var looked := Lookup(SalesData, MockProducts);
    SeedIsWellFormed();
    assert forall p :: p in looked ==> p in MockProducts;
    FilterKeepsAll(looked, IsActive);
  }

  /** Before any write, the collar (8 of 15) and the litter (5 of 12) need restocking. */
  lemma SeedNeedsRestock()
    ensures Filter(MockProducts, NeedsRestock) == [CatCollar, CatLitter]
  {
    assert Filter([PetBed], NeedsRestock) == [] by {
      assert [PetBed][1..] == [];
    }
    assert Filter([CatLitter, PetBed], NeedsRestock) == [CatLitter] by {
      assert [CatLitter, PetBed][1..] == [PetBed];
    }
    assert Filter([DogToy, CatLitter, PetBed], NeedsRestock) == [CatLitter] by {
      assert [DogToy, CatLitter, PetBed][1..] == [CatLitter, PetBed];
    }
    assert Filter([CatCollar, DogToy, CatLitter, PetBed], NeedsRestock) == [CatCollar, CatLitter] by {
      assert [CatCollar, DogToy, CatLitter, PetBed][1..] == [DogToy, CatLitter, PetBed];
    }
    assert MockProducts[1..] == [CatCollar, DogToy, CatLitter, PetBed];
  }

  /** The low-stock list puts the litter before the collar: fewest in stock first. */
  lemma SeedLowStock()
    ensures GetLowStockProducts(MockProducts) == [CatLitter, CatCollar]
  {
    SeedNeedsRestock();
    LowStockOfTwo(MockProducts, CatCollar, CatLitter);
  }

  /** Two products that need restocking, listed with the larger stock first, swap places. */
  lemma LowStockOfTwo(ps: seq<Product>, a: Product, b: Product)
    requires Filter(ps, NeedsRestock) == [a, b]
    requires a.stock > b.stock
    ensures GetLowStockProducts(ps) == [b, a]
  {
    var r := Reverse([a, b]);
    assert r == [b, a] by {
      assert |r| == 2 && r[0] == b && r[1] == a;
    }
    SortByFalling([a, b], StockKey);
    assert GetLowStockProducts(ps) == SortBy([a, b], StockKey);
  }
}
