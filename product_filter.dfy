/**
 * The product listing page's filters: category (empty means any), an inclusive price range
 * and a customisable-only switch, combined with AND over the catalog in catalog order.
 */
module ProductFilter {
  import Seqs
  import Catalog

  /** The smallest element of a non-empty list (`Math.min(...xs)`). */
  function MinOf(xs: seq<int>): (m: int)
    requires |xs| > 0
    ensures m in xs && forall j :: 0 <= j < |xs| ==> m <= xs[j]
  {
    if |xs| == 1 then xs[0]
    else
      var rest := MinOf(xs[1..]);
      if xs[0] <= rest then xs[0] else rest
  }

  /** The largest element of a non-empty list (`Math.max(...xs)`). */
  function MaxOf(xs: seq<int>): (m: int)
    requires |xs| > 0
    ensures m in xs && forall j :: 0 <= j < |xs| ==> xs[j] <= m
  {
    if |xs| == 1 then xs[0]
    else
      var rest := MaxOf(xs[1..]);
      if xs[0] >= rest then xs[0] else rest
  }

  function Prices(products: seq<Catalog.Product>): (r: seq<int>)
    ensures |r| == |products| && forall j :: 0 <= j < |products| ==> r[j] == products[j].price
  {
    seq(|products|, j requires 0 <= j < |products| => products[j].price)
  }

  /** The whole filter as one condition on a product, written independently of the steps. */
  predicate Passes(category: string, low: int, high: int, customizableOnly: bool, p: Catalog.Product) {
    && (category == "" || p.category == category)
    && low <= p.price <= high
    && (!customizableOnly || p.isCustomizable)
  }

  function PassesAll(category: string, low: int, high: int, customizableOnly: bool): Catalog.Product -> bool {
    (p: Catalog.Product) => Passes(category, low, high, customizableOnly, p)
  }

  function ByCategory(category: string): Catalog.Product -> bool {
    (p: Catalog.Product) => category == "" || p.category == category
  }

  function InPriceRange(low: int, high: int): Catalog.Product -> bool {
    (p: Catalog.Product) => low <= p.price <= high
  }

  function ByCategoryAndPrice(category: string, low: int, high: int): Catalog.Product -> bool {
    (p: Catalog.Product) => (category == "" || p.category == category) && low <= p.price <= high
  }

  function IsCustomizable(): Catalog.Product -> bool {
    (p: Catalog.Product) => p.isCustomizable
  }

  /** The products of `catalog` the page lists for these filter settings. */
  function Listed(catalog: seq<Catalog.Product>, category: string, low: int, high: int,
                  customizableOnly: bool): seq<Catalog.Product> {
    Seqs.Filter(PassesAll(category, low, high, customizableOnly), catalog)
  }

  /**
   * The filter effect: start from the whole catalog and narrow it down step by step,
   * by category when one is selected, then by price, then by the customisable switch.
   * The page runs it on the storefront catalog.
   */
  method ApplyFilters(catalog: seq<Catalog.Product>, category: string, low: int, high: int, customizableOnly: bool)
    returns (filtered: seq<Catalog.Product>)
    ensures filtered == Listed(catalog, category, low, high, customizableOnly)
  {
    filtered := catalog;
    if category != "" {
      filtered := Seqs.Filter(Catalog.InCategory(category), filtered);
      Seqs.FilterAgrees(Catalog.InCategory(category), ByCategory(category), catalog);
    } else {
      Seqs.FilterKeepsAll(ByCategory(category), catalog);
    }
    assert filtered == Seqs.Filter(ByCategory(category), catalog);
    filtered := Seqs.Filter(InPriceRange(low, high), filtered);
    Seqs.FilterTwice(ByCategory(category), InPriceRange(low, high),
                     ByCategoryAndPrice(category, low, high), catalog);
    if customizableOnly {
      filtered := Seqs.Filter(IsCustomizable(), filtered);
      Seqs.FilterTwice(ByCategoryAndPrice(category, low, high), IsCustomizable(),
                       PassesAll(category, low, high, customizableOnly), catalog);
    } else {
      Seqs.FilterAgrees(ByCategoryAndPrice(category, low, high),
                        PassesAll(category, low, high, customizableOnly), catalog);
    }
  }

  /** The listing keeps catalog order and holds exactly the catalog products that pass. */
  lemma ListedExactly(catalog: seq<Catalog.Product>, category: string, low: int, high: int,
                      customizableOnly: bool)
    ensures var r := Listed(catalog, category, low, high, customizableOnly);
            && Seqs.IsSubsequence(r, catalog)
            && (forall j :: 0 <= j < |catalog| ==>
                  (catalog[j] in r <==> Passes(category, low, high, customizableOnly, catalog[j])))
            && multiset(r) <= multiset(catalog)
            && forall x | x in catalog ::
                 multiset(r)[x] == if Passes(category, low, high, customizableOnly, x) then multiset(catalog)[x] else 0
  {
    var r := Listed(catalog, category, low, high, customizableOnly);
    Seqs.FilterCounts(PassesAll(category, low, high, customizableOnly), catalog);
    forall j | 0 <= j < |catalog| && catalog[j] in r
      ensures Passes(category, low, high, customizableOnly, catalog[j])
    {
      var i :| 0 <= i < |r| && r[i] == catalog[j];
    }
  }

  /** With no category selected the category puts no restriction on the listing. */
  lemma EmptyCategoryRestrictsNothing(low: int, high: int, customizableOnly: bool, p: Catalog.Product)
    ensures Passes("", low, high, customizableOnly, p) <==>
            low <= p.price <= high && (!customizableOnly || p.isCustomizable)
  {
  }

  /** A lower bound above the upper bound lists nothing. */
  lemma InvertedRangeListsNothing(catalog: seq<Catalog.Product>, category: string, low: int,
                                  high: int, customizableOnly: bool)
    requires low > high
    ensures Listed(catalog, category, low, high, customizableOnly) == []
  {
  }

  /** The reset range runs from the cheapest to the dearest product, so everything is listed. */
  lemma ResetListsEverything(catalog: seq<Catalog.Product>, low: int, high: int)
    requires |catalog| > 0
    requires low == MinOf(Prices(catalog)) && high == MaxOf(Prices(catalog))
    ensures Listed(catalog, "", low, high, false) == catalog
  {
    var prices := Prices(catalog);
    assert forall j :: 0 <= j < |catalog| ==> low <= prices[j] <= high;
    Seqs.FilterKeepsAll(PassesAll("", low, high, false), catalog);
  }

  /**
   * The listing page. `catalog` is the product table it reads (the storefront's `products`);
   * the settings are its state, and `filteredProducts` is what the filter effect last listed.
   */
  class ProductsPage {
    const catalog: seq<Catalog.Product>
    var selectedCategory: string
    var priceLow: int
    var priceHigh: int
    var customizableOnly: bool
    var filteredProducts: seq<Catalog.Product>

    /** The listing shown is always the one the current settings select. */
    ghost predicate Valid()
      reads this
    {
      && |catalog| > 0
      && filteredProducts == Listed(catalog, selectedCategory, priceLow, priceHigh, customizableOnly)
    }

    /** `minPrice` and `maxPrice`: the cheapest and dearest catalog prices. */
    function MinPrice(): int
      requires |catalog| > 0
    {
      MinOf(Prices(catalog))
    }

    function MaxPrice(): int
      requires |catalog| > 0
    {
      MaxOf(Prices(catalog))
    }

    /** Opens with the category from the query string (or none) and the range 0 to 5000. */
    constructor (initialCategory: string)
      ensures catalog == Catalog.Products
      ensures selectedCategory == initialCategory && priceLow == 0 && priceHigh == 5000
      ensures !customizableOnly && Valid()
    {
      catalog := Catalog.Products;
      selectedCategory := initialCategory;
      priceLow, priceHigh := 0, 5000;
      customizableOnly := false;
      new;
      filteredProducts := ApplyFilters(catalog, selectedCategory, priceLow, priceHigh, customizableOnly);
    }

    /** Choosing the selected category again clears it; any other choice selects it. */
    method HandleCategoryChange(categoryId: string)
      requires Valid()
      modifies this
      ensures selectedCategory == if categoryId == old(selectedCategory) then "" else categoryId
      ensures priceLow == old(priceLow) && priceHigh == old(priceHigh)
      ensures customizableOnly == old(customizableOnly) && Valid()
    {
      selectedCategory := if categoryId == selectedCategory then "" else categoryId;
      filteredProducts := ApplyFilters(catalog, selectedCategory, priceLow, priceHigh, customizableOnly);
    }

    /** The input named `minPrice` sets the lower bound; any other input sets the upper one. */
    method HandlePriceChange(inputName: string, value: int)
      requires Valid()
      modifies this
      ensures inputName == "minPrice" ==> priceLow == value && priceHigh == old(priceHigh)
      ensures inputName != "minPrice" ==> priceHigh == value && priceLow == old(priceLow)
      ensures selectedCategory == old(selectedCategory)
      ensures customizableOnly == old(customizableOnly) && Valid()
    {
      if inputName == "minPrice" {
        priceLow := value;
      } else {
        priceHigh := value;
      }
      filteredProducts := ApplyFilters(catalog, selectedCategory, priceLow, priceHigh, customizableOnly);
    }

    method HandleCustomizableChange(checked: bool)
      requires Valid()
      modifies this
      ensures customizableOnly == checked
      ensures selectedCategory == old(selectedCategory)
      ensures priceLow == old(priceLow) && priceHigh == old(priceHigh) && Valid()
    {
      customizableOnly := checked;
      filteredProducts := ApplyFilters(catalog, selectedCategory, priceLow, priceHigh, customizableOnly);
    }

    /** Back to no category, the full catalog price range and no switch: the whole catalog. */
    method ResetFilters()
      requires Valid()
      modifies this
      ensures selectedCategory == "" && priceLow == MinPrice() && priceHigh == MaxPrice()
      ensures !customizableOnly && Valid()
      ensures filteredProducts == catalog
    {
      var low, high := MinPrice(), MaxPrice();
      ResetListsEverything(catalog, low, high);
      selectedCategory := "";
      priceLow, priceHigh := low, high;
      customizableOnly := false;
      filteredProducts := ApplyFilters(catalog, selectedCategory, priceLow, priceHigh, customizableOnly);
    }
  }
}
