/**
 * The mock product catalog: the fixed product and category tables and the three queries
 * the pages run against them (lookup by id, filter by category, related products).
 */
module Catalog {
  import opened Wrappers
  import Seqs

  /** Outer dimensions of a catalog product; the table uses fractional millimetres. */
  datatype Dimensions = Dimensions(width: real, height: real, depth: real)

  datatype Product = Product(
    id: string,
    name: string,
    category: string,
    description: string,
    price: int,
    images: seq<string>,
    isCustomizable: bool,
    weight: int,
    dimensions: Dimensions,
    material: string)

  datatype CategoryInfo = CategoryInfo(id: string, name: string, customizable: bool)

  const Categories: seq<CategoryInfo> := [
    CategoryInfo("keychains", "Keychains", true),
    CategoryInfo("lithoframes", "Lithoframes", true),
    CategoryInfo("lightboxes", "Lightboxes", true),
    CategoryInfo("lamps", "Lamps", false),
    CategoryInfo("tablelamps", "Showcase Side Table Lamps", false),
    CategoryInfo("accessories", "Accessories", false)
  ]

  /** The catalog entries, one constant per product. */
  const Product1: Product :=
    Product(id := "1", name := "Custom Name Keychain", category := "keychains",
      description := "Personalized keychain with your name or text. Perfect gift for friends and family.",
      price := 299,
      images := ["https://images.unsplash.com/photo-1631631480669-535cc43f2327?ixlib=rb-1.2.1&auto=format&fit=crop&w=800&q=80",
                 "https://images.unsplash.com/photo-1631631480669-535cc43f2327?ixlib=rb-1.2.1&auto=format&fit=crop&w=800&q=80"],
      isCustomizable := true, weight := 15,
      dimensions := Dimensions(5.0, 2.0, 0.5), material := "PLA Plastic")

  const Product2: Product :=
    Product(id := "2", name := "Geometric Shape Keychain", category := "keychains",
      description := "Modern geometric design keychain. Minimalist and stylish.",
      price := 249,
      images := ["https://images.unsplash.com/photo-1611235115922-72bd53d27990?ixlib=rb-1.2.1&auto=format&fit=crop&w=800&q=80",
                 "https://images.unsplash.com/photo-1611235115922-72bd53d27990?ixlib=rb-1.2.1&auto=format&fit=crop&w=800&q=80"],
      isCustomizable := true, weight := 12,
      dimensions := Dimensions(4.0, 4.0, 0.5), material := "PLA Plastic")

  const Product3: Product :=
    Product(id := "3", name := "Family Photo Lithoframe", category := "lithoframes",
      description := "Turn your favorite family photo into a beautiful 3D printed lithoframe.",
      price := 699,
      images := ["https://images.unsplash.com/photo-1616088886430-caaae4b1af9d?ixlib=rb-1.2.1&auto=format&fit=crop&w=800&q=80",
                 "https://images.unsplash.com/photo-1616088886430-caaae4b1af9d?ixlib=rb-1.2.1&auto=format&fit=crop&w=800&q=80"],
      isCustomizable := true, weight := 120,
      dimensions := Dimensions(15.0, 10.0, 0.3), material := "White PLA")

  const Product4: Product :=
    Product(id := "4", name := "Landscape Lithoframe", category := "lithoframes",
      description := "Beautiful landscape scene transformed into a 3D printed lithoframe.",
      price := 799,
      images := ["https://images.unsplash.com/photo-1579541591970-e5f6efa5ba87?ixlib=rb-1.2.1&auto=format&fit=crop&w=800&q=80",
                 "https://images.unsplash.com/photo-1579541591970-e5f6efa5ba87?ixlib=rb-1.2.1&auto=format&fit=crop&w=800&q=80"],
      isCustomizable := true, weight := 150,
      dimensions := Dimensions(20.0, 15.0, 0.3), material := "White PLA")

  const Product5: Product :=
    Product(id := "5", name := "Custom Photo Lightbox", category := "lightboxes",
      description := "Illuminated lightbox with your custom photo. Includes LED light strip and USB cable.",
      price := 1499,
      images := ["https://images.unsplash.com/photo-1565344462042-e3c7b9e5e23f?ixlib=rb-1.2.1&auto=format&fit=crop&w=800&q=80",
                 "https://images.unsplash.com/photo-1565344462042-e3c7b9e5e23f?ixlib=rb-1.2.1&auto=format&fit=crop&w=800&q=80"],
      isCustomizable := true, weight := 350,
      dimensions := Dimensions(25.0, 20.0, 5.0), material := "PLA Plastic with LED")

  const Product6: Product :=
    Product(id := "6", name := "Geometric Table Lamp", category := "lamps",
      description := "Modern geometric design table lamp. Creates beautiful light patterns.",
      price := 1999,
      images := ["https://images.unsplash.com/photo-1513506003901-1e6a229e2d15?ixlib=rb-1.2.1&auto=format&fit=crop&w=800&q=80",
                 "https://images.unsplash.com/photo-1513506003901-1e6a229e2d15?ixlib=rb-1.2.1&auto=format&fit=crop&w=800&q=80"],
      isCustomizable := false, weight := 500,
      dimensions := Dimensions(15.0, 30.0, 15.0), material := "PLA Plastic with LED")

  const Product7: Product :=
    Product(id := "7", name := "Voronoi Pattern Lamp", category := "lamps",
      description := "Inspired by natural patterns, this lamp creates stunning light and shadow effects.",
      price := 2499,
      images := ["https://images.unsplash.com/photo-1507919909716-c8262e491cde?ixlib=rb-1.2.1&auto=format&fit=crop&w=800&q=80",
                 "https://images.unsplash.com/photo-1507919909716-c8262e491cde?ixlib=rb-1.2.1&auto=format&fit=crop&w=800&q=80"],
      isCustomizable := false, weight := 450,
      dimensions := Dimensions(18.0, 25.0, 18.0), material := "PLA Plastic with LED")

  const Product8: Product :=
    Product(id := "8", name := "Showcase Side Table Lamp", category := "tablelamps",
      description := "Elegant side table lamp with showcase space for small items or plants.",
      price := 3499,
      images := ["https://images.unsplash.com/photo-1543198126-a4d0ade7cf83?ixlib=rb-1.2.1&auto=format&fit=crop&w=800&q=80",
                 "https://images.unsplash.com/photo-1543198126-a4d0ade7cf83?ixlib=rb-1.2.1&auto=format&fit=crop&w=800&q=80"],
      isCustomizable := false, weight := 850,
      dimensions := Dimensions(30.0, 45.0, 30.0), material := "PLA Plastic with LED")

  const Product9: Product :=
    Product(id := "9", name := "Minimalist Phone Stand", category := "accessories",
      description := "Simple and elegant phone stand for your desk or bedside table.",
      price := 399,
      images := ["https://images.unsplash.com/photo-1586495777744-4413f21062fa?ixlib=rb-1.2.1&auto=format&fit=crop&w=800&q=80",
                 "https://images.unsplash.com/photo-1586495777744-4413f21062fa?ixlib=rb-1.2.1&auto=format&fit=crop&w=800&q=80"],
      isCustomizable := false, weight := 75,
      dimensions := Dimensions(10.0, 12.0, 8.0), material := "PLA Plastic")

  const Product10: Product :=
    Product(id := "10", name := "Custom Text Lightbox", category := "lightboxes",
      description := "Personalized lightbox with your custom text or message. Great for gifts or home decor.",
      price := 1299,
      images := ["https://images.unsplash.com/photo-1618760439048-865c29244c3e?ixlib=rb-1.2.1&auto=format&fit=crop&w=800&q=80",
                 "https://images.unsplash.com/photo-1618760439048-865c29244c3e?ixlib=rb-1.2.1&auto=format&fit=crop&w=800&q=80"],
      isCustomizable := true, weight := 300,
      dimensions := Dimensions(20.0, 15.0, 5.0), material := "PLA Plastic with LED")

  const Product11: Product :=
    Product(id := "11", name := "Honeycomb Wall Lamp", category := "lamps",
      description := "Modular honeycomb wall lamp that can be arranged in different patterns.",
      price := 1799,
      images := ["https://images.unsplash.com/photo-1507919909716-c8262e491cde?ixlib=rb-1.2.1&auto=format&fit=crop&w=800&q=80",
                 "https://images.unsplash.com/photo-1507919909716-c8262e491cde?ixlib=rb-1.2.1&auto=format&fit=crop&w=800&q=80"],
      isCustomizable := false, weight := 350,
      dimensions := Dimensions(25.0, 22.0, 5.0), material := "PLA Plastic with LED")

  const Product12: Product :=
    Product(id := "12", name := "Desk Organizer", category := "accessories",
      description := "Keep your desk tidy with this stylish 3D printed organizer.",
      price := 599,
      images := ["https://images.unsplash.com/photo-1589584649628-b597067e07a3?ixlib=rb-1.2.1&auto=format&fit=crop&w=800&q=80",
                 "https://images.unsplash.com/photo-1589584649628-b597067e07a3?ixlib=rb-1.2.1&auto=format&fit=crop&w=800&q=80"],
      isCustomizable := false, weight := 200,
      dimensions := Dimensions(15.0, 10.0, 10.0), material := "PLA Plastic")

  /** The catalog table, in the order the listing shows it. */
  const Products: seq<Product> := [
    Product1, Product2, Product3, Product4, Product5, Product6,
    Product7, Product8, Product9, Product10, Product11, Product12
  ]

  /** The number of related products a product page shows when no limit is given. */
  const DefaultRelatedLimit: int := 4

  /** The filter predicates the queries use, named so that equal uses are equal terms. */
  function HasId(id: string): Product -> bool {
    (p: Product) => p.id == id
  }

  function InCategory(category: string): Product -> bool {
    (p: Product) => p.category == category
  }

  function RelatedTo(product: Product): Product -> bool {
    (p: Product) => p.category == product.category && p.id != product.id
  }

  /** `products.find(p => p.id === id)` over any product table. */
  function FindById(catalog: seq<Product>, id: string): (r: Option<Product>)
    ensures r.Some? ==> r.value.id == id && r.value in catalog
    ensures r.None? <==> forall j :: 0 <= j < |catalog| ==> catalog[j].id != id
    ensures r.Some? ==> exists k :: 0 <= k < |catalog| && catalog[k] == r.value &&
                                    forall j :: 0 <= j < k ==> catalog[j].id != id
  {
    var k := Seqs.FindIndex(HasId(id), catalog);
    if k < 0 then None else Some(catalog[k])
  }

  /** `getProductById`: the first catalog product with this id, or nothing. */
  function GetProductById(id: string): Option<Product> {
    FindById(Products, id)
  }

  /** `getProductsByCategory`: the catalog products of one category, in catalog order. */
  function GetProductsByCategory(category: string): seq<Product> {
    Seqs.Filter(InCategory(category), Products)
  }

  /** Lists exactly the products of the category, in catalog order. */
  lemma ProductsByCategoryExactly(category: string)
    ensures var r := GetProductsByCategory(category);
            && Seqs.IsSubsequence(r, Products)
            && (forall j :: 0 <= j < |r| ==> r[j].category == category)
            && (forall j :: 0 <= j < |Products| && Products[j].category == category ==> Products[j] in r)
  {
  }

  /** The products `getRelatedProducts` chooses from before truncating to the limit. */
  function RelatedCandidates(catalog: seq<Product>, product: Product): seq<Product> {
    Seqs.Filter(RelatedTo(product), catalog)
  }

  /**
   * `getRelatedProducts` over any product table: the other products of the same category as
   * `productId`, in table order, cut with `slice(0, limit)`; nothing for an unknown id.
   */
  function RelatedIn(catalog: seq<Product>, productId: string, limit: int): (r: seq<Product>)
    ensures FindById(catalog, productId).None? ==> r == []
    ensures forall j :: 0 <= j < |r| ==> r[j].id != productId && r[j] in catalog
    ensures FindById(catalog, productId).Some? ==>
              var product := FindById(catalog, productId).value;
              && (forall j :: 0 <= j < |r| ==> r[j].category == product.category)
              && (0 <= limit ==> Seqs.IsPrefix(r, RelatedCandidates(catalog, product)))
              && (0 <= limit ==> |r| == if limit < |RelatedCandidates(catalog, product)| then limit
                                        else |RelatedCandidates(catalog, product)|)
  {
    match FindById(catalog, productId)
    case None => []
    case Some(product) => Seqs.SliceTo(RelatedCandidates(catalog, product), limit)
  }

  /**
   * `getRelatedProducts(productId, limit)` on the storefront's own catalog; an omitted
   * limit (none) takes the default.
   */
  function GetRelatedProducts(productId: string, limit: Option<int>): seq<Product> {
    RelatedIn(Products, productId, limit.GetOr(DefaultRelatedLimit))
  }

  /** Omitting the limit is asking for 4, and never lists more than 4. */
  lemma OmittedLimitIsFour(productId: string)
    ensures GetRelatedProducts(productId, None) == GetRelatedProducts(productId, Some(4))
    ensures |GetRelatedProducts(productId, None)| <= 4
  {
  }

  /** Catalog ids are pairwise distinct and every product has at least one image. */
  lemma CatalogWellFormed()
    ensures forall i, j :: 0 <= i < j < |Products| ==> Products[i].id != Products[j].id
    ensures forall j :: 0 <= j < |Products| ==> |Products[j].images| > 0
  {
  }

  /** Because ids are distinct, any catalog product with the requested id is the one found. */
  lemma GetProductByIdFindsTheProduct(k: nat)
    requires k < |Products|
    ensures GetProductById(Products[k].id) == Some(Products[k])
  {
    CatalogWellFormed();
    var r := GetProductById(Products[k].id);
    var i :| 0 <= i < |Products| && Products[i] == r.value &&
             forall j :: 0 <= j < i ==> Products[j].id != Products[k].id;
    assert i == k;
  }

  /** A product found in the catalog always has a first image to show. */
  lemma FoundProductHasImage(id: string)
    ensures GetProductById(id).Some? ==> |GetProductById(id).value.images| > 0
  {
    CatalogWellFormed();
  }
}
