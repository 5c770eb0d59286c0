/** The product page: the quantity picker, the line it adds to the cart and related products. */
module ProductDetail {
  import opened Wrappers
  import Catalog
  import CartContext
  import Customize

  /** The plain line the page submits for `quantity` of `product`. */
  function DetailItem(product: Catalog.Product, quantity: int): (r: CartContext.CartItem)
    requires |product.images| > 0
    ensures r.productId == product.id && r.name == product.name && r.price == product.price
    ensures r.image == product.images[0] && r.quantity == quantity
    ensures !r.isCustom && r.customOptions.None? && r.weight.None?
  {
    CartContext.CartItem(
      id := "",
      productId := product.id,
      name := product.name,
      price := product.price,
      quantity := quantity,
      image := product.images[0],
      isCustom := false,
      customOptions := None,
      weight := None)
  }

  /** Two adds of one product from this page end on one line holding both quantities. */
  lemma RepeatedAddsMerge(items: seq<CartContext.CartItem>, product: Catalog.Product,
                          q1: int, q2: int, t1: nat, t2: nat)
    requires |product.images| > 0
    requires forall j :: 0 <= j < |items| ==> !CartContext.SameLine(items[j], DetailItem(product, q1))
    ensures var r := CartContext.Added(CartContext.Added(items, DetailItem(product, q1), t1),
                                       DetailItem(product, q2), t2);
            && |r| == |items| + 1
            && r[|items|].quantity == q1 + q2
            && r[|items|].price == product.price
  {
    CartContext.PlainAddsMerge(items, DetailItem(product, q1), DetailItem(product, q2), t1, t2);
  }

  class ProductDetailPage {
    const productId: Option<string>
    var quantity: int

    ghost predicate Valid()
      reads this
    {
      quantity >= 1
    }

    constructor (productId: Option<string>)
      ensures this.productId == productId && quantity == 1 && Valid()
    {
      this.productId := productId;
      quantity := 1;
    }

    /** The product shown; none means the page renders its not-found state. */
    function Product(): (r: Option<Catalog.Product>)
      ensures r.Some? ==> |r.value.images| > 0
    {
      Customize.ProductFor(productId)
    }

    /** The related products listed under the product: none without a route id. */
    function Related(): (r: seq<Catalog.Product>)
      ensures !Customize.HasRouteId(productId) ==> r == []
      ensures |r| <= 4
      ensures forall j :: 0 <= j < |r| ==> Some(r[j].id) != productId && r[j] in Catalog.Products
    {
      if Customize.HasRouteId(productId)
      then Catalog.GetRelatedProducts(productId.value, Some(4))
      else []
    }

    /** "-" lowers the quantity only while it is above 1. */
    method Decrement()
      modifies this
      ensures quantity == if old(quantity) > 1 then old(quantity) - 1 else old(quantity)
      ensures old(Valid()) ==> Valid()
    {
      if quantity > 1 {
        quantity := quantity - 1;
      }
    }

    /** "+" raises the quantity by one. */
    method Increment()
      modifies this
      ensures quantity == old(quantity) + 1
      ensures old(Valid()) ==> Valid()
    {
      quantity := quantity + 1;
    }

    /**
     * A typed quantity, already parsed (none when it is not a number), is taken only when
     * it is positive.
     */
    method HandleQuantityChange(value: Option<int>)
      modifies this
      ensures value.Some? && value.value > 0 ==> quantity == value.value
      ensures !(value.Some? && value.value > 0) ==> quantity == old(quantity)
      ensures old(Valid()) ==> Valid()
    {
      if value.Some? && value.value > 0 {
        quantity := value.value;
      }
    }

    /** Adds the chosen quantity of the product; with no product the page offers no add. */
    method HandleAddToCart(cart: CartContext.Cart, now: nat)
      modifies cart
      ensures Product().None? ==> cart.items == old(cart.items)
      ensures Product().Some? ==>
                cart.items == CartContext.Added(old(cart.items), DetailItem(Product().value, quantity), now)
    {
      var product := Product();
      if product.None? {
        return;
      }
      cart.AddToCart(DetailItem(product.value, quantity), now);
    }
  }
}
