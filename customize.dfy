/**
 * The customisation page: the weight and price estimator, the three-step wizard and the
 * custom line it submits to the cart.
 */
module Customize {
  import opened Wrappers
  import Catalog
  import CartContext

  type Size = CartContext.Size

  /**
   * `Math.round(n / d)` for a positive divisor, computed exactly: JavaScript rounds halves
   * up (towards positive infinity), so the result is the floor of `n / d + 1/2`.
   */
  function RoundDiv(n: int, d: int): (r: int)
    requires d > 0
    ensures 2 * d * r <= 2 * n + d < 2 * d * (r + 1)
  {
    (2 * n + d) / (2 * d)
  }

  function Volume(size: Size): int {
    size.width * size.height * size.depth
  }

  /**
   * `estimatedWeight`: `Math.round(volume * 0.00125 * (infill / 100))` grams. Since
   * 0.00125 / 100 = 1 / 80000 this is the rounded quotient of `volume * infill` by 80000.
   */
  function EstimatedWeight(size: Size, infillDensity: int): (w: int)
    ensures (w as real) - 0.5 <= (Volume(size) as real) * 0.00125 * ((infillDensity as real) / 100.0)
    ensures (Volume(size) as real) * 0.00125 * ((infillDensity as real) / 100.0) < (w as real) + 0.5
  {
    var n := Volume(size) * infillDensity;
    var w := RoundDiv(n, 80000);
    assert (Volume(size) as real) * 0.00125 * ((infillDensity as real) / 100.0) == (n as real) / 80000.0;
    w
  }

  const BaseRate: int := 12
  const SetupFee: int := 100
  const MinimumPrice: int := 250

  /** `estimatedPrice`: twelve per gram plus a setup fee of 100, and never below 250. */
  function EstimatedPrice(weight: int): (p: int)
    ensures p >= MinimumPrice && p >= weight * BaseRate + SetupFee
    ensures p == MinimumPrice || p == weight * BaseRate + SetupFee
    ensures p == MinimumPrice <==> weight <= 12
    ensures weight >= 13 ==> p == 12 * weight + 100
  {
    var baseCost := weight * BaseRate;
    if MinimumPrice < baseCost + SetupFee then baseCost + SetupFee else MinimumPrice
  }

  /** More infill never makes a print of the same size lighter or cheaper. */
  lemma MoreInfillNeverCheaper(size: Size, low: int, high: int)
    requires Volume(size) >= 0 && low <= high
    ensures EstimatedWeight(size, low) <= EstimatedWeight(size, high)
    ensures EstimatedPrice(EstimatedWeight(size, low)) <= EstimatedPrice(EstimatedWeight(size, high))
  {
    var v := Volume(size);
    assert v * low <= v * high by {
      assert v * high - v * low == v * (high - low);
    }
    RoundDivMonotone(v * low, v * high, 80000);
  }

  lemma RoundDivMonotone(m: int, n: int, d: int)
    requires d > 0 && m <= n
    ensures RoundDiv(m, d) <= RoundDiv(n, d)
  {
    var a, b := RoundDiv(m, d), RoundDiv(n, d);
    CancelPositiveFactor(2 * d, a, b + 1);
  }

  /** A positive factor can be cancelled from a strict inequality. */
  lemma CancelPositiveFactor(c: int, x: int, y: int)
    requires c > 0 && c * x < c * y
    ensures x < y
  {
    assert c * (y - x) > 0;
  }

  const InitialColor: string := "#3f83f8"
  const InitialSize: Size := CartContext.Size(50, 50, 10)
  const InitialInfillDensity: int := 20
  const PlaceholderImage: string := "https://images.unsplash.com/photo-1631631480669-535cc43f2327?ixlib=rb-1.2.1&auto=format&fit=crop&w=800&q=80"

  /** The estimate on first render: 50 x 50 x 10 mm at 20 % infill is 6 g and costs 250. */
  lemma InitialEstimate()
    ensures EstimatedWeight(InitialSize, InitialInfillDensity) == 6
    ensures EstimatedPrice(EstimatedWeight(InitialSize, InitialInfillDensity)) == 250
  {
  }

  /** A 100 x 100 x 50 mm solid print weighs 625 g and costs 7600. */
  lemma SolidBlockEstimate()
    ensures EstimatedWeight(CartContext.Size(100, 100, 50), 100) == 625
    ensures EstimatedPrice(625) == 7600
  {
  }

  /** A route id counts only when it is present and non-empty, as JavaScript truthiness has it. */
  predicate HasRouteId(productId: Option<string>) {
    productId.Some? && productId.value != ""
  }

  /** The catalog product the page customises, if the route names one. */
  function ProductFor(productId: Option<string>): (r: Option<Catalog.Product>)
    ensures r.Some? ==> |r.value.images| > 0
  {
    Catalog.FoundProductHasImage(productId.GetOr(""));
    if HasRouteId(productId) then Catalog.GetProductById(productId.value) else None
  }

  /** The line `handleAddToCart` submits, given the route id and the product it resolves to. */
  function CustomItem(productId: Option<string>, product: Option<Catalog.Product>, color: string,
                      size: Size, infillDensity: int, modelFile: string): (r: CartContext.CartItem)
    requires product.Some? ==> |product.value.images| > 0
    ensures r.productId == if HasRouteId(productId) then productId.value else "custom"
    ensures r.quantity == 1 && r.isCustom
    ensures r.weight == Some(EstimatedWeight(size, infillDensity))
    ensures r.price == EstimatedPrice(EstimatedWeight(size, infillDensity)) && r.price >= 250
    ensures r.customOptions == Some(CartContext.CustomizationOptions(
              Some(color), Some(size), None, Some(infillDensity), Some(modelFile)))
    ensures match product
            case Some(p) => r.name == "Custom " + p.name && r.image == p.images[0]
            case None => r.name == "Custom 3D Print" && r.image == PlaceholderImage
  {
    var weight := EstimatedWeight(size, infillDensity);
    CartContext.CartItem(
      id := "",
      productId := if HasRouteId(productId) then productId.value else "custom",
      name := if product.Some? then "Custom " + product.value.name else "Custom 3D Print",
      price := EstimatedPrice(weight),
      quantity := 1,
      image := if product.Some? then product.value.images[0] else PlaceholderImage,
      isCustom := true,
      customOptions := Some(CartContext.CustomizationOptions(
        Some(color), Some(size), None, Some(infillDensity), Some(modelFile))),
      weight := Some(weight))
  }

  /** Submitting the same configuration twice lands on one line with quantity raised by one. */
  lemma SameConfigurationMerges(items: seq<CartContext.CartItem>, productId: Option<string>,
                                product: Option<Catalog.Product>, color: string, size: Size, infillDensity: int, modelFile: string,
                                t1: nat, t2: nat)
    requires product.Some? ==> |product.value.images| > 0
    requires forall j :: 0 <= j < |items| ==>
               !CartContext.SameLine(items[j], CustomItem(productId, product, color, size, infillDensity, modelFile))
    ensures var item := CustomItem(productId, product, color, size, infillDensity, modelFile);
            var r := CartContext.Added(CartContext.Added(items, item, t1), item, t2);
            && |r| == |items| + 1
            && r[|items|].quantity == 2
            && r[|items|].id == CartContext.NewLineId(item.productId, t1)
  {
    var item := CustomItem(productId, product, color, size, infillDensity, modelFile);
    var once := CartContext.Added(items, item, t1);
    CartContext.AddAppendsWhenNoMatch(items, item, t1);
    assert forall j :: 0 <= j < |items| ==> once[j] == items[j];
    CartContext.AddMergesIntoFirstMatch(once, item, t2, |items|);
  }

  class Wizard {
    const productId: Option<string>
    var currentStep: int
    var selectedColor: string
    var selectedSize: Size
    var infillDensity: int
    var hasUploadedFile: bool
    var uploadedFileName: string

    ghost predicate Valid()
      reads this
    {
      1 <= currentStep <= 3
    }

    /**
     * The wizard is past its upload step only with something to print: the step-1 "Next"
     * button stays disabled until there is a catalog product or an uploaded file.
     */
    ghost predicate Gated()
      reads this
    {
      currentStep > 1 ==> CanAddToCart()
    }

    constructor (productId: Option<string>)
      ensures this.productId == productId && Valid() && Gated()
      ensures currentStep == 1 && selectedColor == InitialColor
      ensures selectedSize == InitialSize && infillDensity == InitialInfillDensity
      ensures !hasUploadedFile && uploadedFileName == ""
    {
      this.productId := productId;
      currentStep := 1;
      selectedColor := InitialColor;
      selectedSize := InitialSize;
      infillDensity := InitialInfillDensity;
      hasUploadedFile := false;
      uploadedFileName := "";
    }

    method NextStep()
      modifies this
      ensures currentStep == if old(currentStep) < 3 then old(currentStep) + 1 else old(currentStep)
      ensures old(Valid()) ==> Valid()
      ensures selectedColor == old(selectedColor) && selectedSize == old(selectedSize)
      ensures infillDensity == old(infillDensity)
      ensures hasUploadedFile == old(hasUploadedFile) && uploadedFileName == old(uploadedFileName)
    {
      if currentStep < 3 {
        currentStep := currentStep + 1;
      }
    }

    method PrevStep()
      modifies this
      ensures currentStep == if old(currentStep) > 1 then old(currentStep) - 1 else old(currentStep)
      ensures old(Valid()) ==> Valid()
      ensures old(Gated()) ==> Gated()
      ensures selectedColor == old(selectedColor) && selectedSize == old(selectedSize)
      ensures infillDensity == old(infillDensity)
      ensures hasUploadedFile == old(hasUploadedFile) && uploadedFileName == old(uploadedFileName)
    {
      if currentStep > 1 {
        currentStep := currentStep - 1;
      }
    }

    /**
     * The "Next" buttons: on step 1 the button is disabled while there is neither a catalog
     * product nor an uploaded file; on step 2 it always works.
     */
    method ClickNext()
      modifies this
      ensures old(currentStep) == 1 && !old(CanAddToCart()) ==> currentStep == 1
      ensures !(old(currentStep) == 1 && !old(CanAddToCart())) ==>
                currentStep == if old(currentStep) < 3 then old(currentStep) + 1 else old(currentStep)
      ensures old(Valid()) ==> Valid()
      ensures old(Gated()) ==> Gated()
      ensures selectedColor == old(selectedColor) && selectedSize == old(selectedSize)
      ensures infillDensity == old(infillDensity)
      ensures hasUploadedFile == old(hasUploadedFile) && uploadedFileName == old(uploadedFileName)
    {
      if currentStep == 1 && !CanAddToCart() {
        return;
      }
      NextStep();
    }

    /** A chosen file (given by its name) marks the upload done; no file changes nothing. */
    method HandleFileUpload(file: Option<string>)
      modifies this
      ensures file.Some? ==> hasUploadedFile && uploadedFileName == file.value
      ensures file.None? ==> hasUploadedFile == old(hasUploadedFile) && uploadedFileName == old(uploadedFileName)
      ensures currentStep == old(currentStep) && selectedColor == old(selectedColor)
      ensures selectedSize == old(selectedSize) && infillDensity == old(infillDensity)
      ensures old(Gated()) ==> Gated()
    {
      if file.Some? {
        hasUploadedFile := true;
        uploadedFileName := file.value;
      }
    }

    method SelectColor(color: string)
      modifies this`selectedColor
      ensures selectedColor == color
    {
      selectedColor := color;
    }

    method SelectSize(size: Size)
      modifies this`selectedSize
      ensures selectedSize == size
    {
      selectedSize := size;
    }

    method SelectInfillDensity(density: int)
      modifies this`infillDensity
      ensures infillDensity == density
    {
      infillDensity := density;
    }

    /** The add button works only with a catalog product or an uploaded file. */
    predicate CanAddToCart()
      reads this
    {
      ProductFor(productId).Some? || hasUploadedFile
    }

    /**
     * The "Add to Cart" button of the last step. On a wizard that keeps `Gated`, as the
     * buttons do, the guard always lets the custom line through at that step.
     */
    method HandleAddToCart(cart: CartContext.Cart, now: nat)
      modifies cart
      ensures !CanAddToCart() ==> cart.items == old(cart.items)
      ensures CanAddToCart() ==>
                cart.items == CartContext.Added(old(cart.items),
                  CustomItem(productId, ProductFor(productId), selectedColor, selectedSize, infillDensity, uploadedFileName), now)
    {
      if !(ProductFor(productId).Some? || hasUploadedFile) {
        return;
      }
      cart.AddToCart(CustomItem(productId, ProductFor(productId), selectedColor, selectedSize, infillDensity, uploadedFileName), now);
    }
  }
}
