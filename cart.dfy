/**
 * The cart aggregator: an ordered list of line items with a merge rule on insertion,
 * removal and quantity update by line id, and the two totals the pages display.
 */
module CartContext {
  import opened Wrappers
  import Seqs

  datatype Size = Size(width: int, height: int, depth: int)

  /** What a customised line records about the print; every field may be absent. */
  datatype CustomizationOptions = CustomizationOptions(
    color: Option<string>,
    size: Option<Size>,
    material: Option<string>,
    infillDensity: Option<int>,
    modelFile: Option<string>)

  datatype CartItem = CartItem(
    id: string,
    productId: string,
    name: string,
    price: int,
    quantity: int,
    image: string,
    isCustom: bool,
    customOptions: Option<CustomizationOptions>,
    weight: Option<int>)

  /**
   * The identity rule of `addToCart`: same product, and either both plain or both custom
   * with equal options. The source compares the options' JSON text; here they are compared
   * as values.
   */
  predicate SameLine(existing: CartItem, item: CartItem) {
    && existing.productId == item.productId
    && ((!existing.isCustom && !item.isCustom) ||
        (existing.isCustom && item.isCustom && existing.customOptions == item.customOptions))
  }

  function MatchesLine(item: CartItem): CartItem -> bool {
    (existing: CartItem) => SameLine(existing, item)
  }

  function HasOtherId(id: string): CartItem -> bool {
    (item: CartItem) => item.id != id
  }

  function Digit(d: nat): (c: char)
    requires d < 10
    ensures '0' <= c <= '9' && c as int - '0' as int == d
  {
    "0123456789"[d]
  }

  /** The number a string of decimal digits denotes. */
  function DigitsValue(s: string): int {
    if s == [] then 0 else DigitsValue(s[..|s| - 1]) * 10 + (s[|s| - 1] as int - '0' as int)
  }

  /** The decimal text of `n`, as a template literal prints a timestamp. */
  function NatToString(n: nat): (s: string)
    ensures |s| > 0
    ensures forall k :: 0 <= k < |s| ==> '0' <= s[k] <= '9'
  {
    if n < 10 then [Digit(n)] else NatToString(n / 10) + [Digit(n % 10)]
  }

  /** Reading the printed timestamp back gives the timestamp. */
  lemma {:induction false} NatToStringRoundTrip(n: nat)
    ensures DigitsValue(NatToString(n)) == n
  {
    var s := NatToString(n);
    if n >= 10 {
      NatToStringRoundTrip(n / 10);
      assert s[..|s| - 1] == NatToString(n / 10);
    }
  }

  /**
   * The id a new line gets: `${productId}-${Date.now()}`, with the clock passed in. It is the
   * product id, a dash, and decimal digits that read back as the timestamp.
   */
  function NewLineId(productId: string, now: nat): (id: string)
    ensures |id| > |productId| + 1 && id[..|productId| + 1] == productId + "-"
    ensures forall k :: |productId| + 1 <= k < |id| ==> '0' <= id[k] <= '9'
    ensures DigitsValue(id[|productId| + 1..]) == now
  {
    NatToStringRoundTrip(now);
    var id := productId + "-" + NatToString(now);
    assert id[|productId| + 1..] == NatToString(now);
    id
  }

  /** The index `addToCart` merges into: the first line with the same identity, or -1. */
  function MergeIndex(items: seq<CartItem>, item: CartItem): (k: int)
    ensures -1 <= k < |items|
    ensures 0 <= k ==> SameLine(items[k], item) && forall j :: 0 <= j < k ==> !SameLine(items[j], item)
    ensures k < 0 <==> forall j :: 0 <= j < |items| ==> !SameLine(items[j], item)
  {
    Seqs.FindIndex(MatchesLine(item), items)
  }

  /** The list after `addToCart(item)` at time `now`. */
  function Added(items: seq<CartItem>, item: CartItem, now: nat): (r: seq<CartItem>)
    ensures |r| == if 0 <= MergeIndex(items, item) then |items| else |items| + 1
  {
    var k := MergeIndex(items, item);
    if 0 <= k then
      items[k := items[k].(quantity := items[k].quantity + item.quantity)]
    else
      items + [item.(id := NewLineId(item.productId, now))]
  }

  /**
   * Adding an item whose identity matches line `k` first raises that line's quantity by the
   * added quantity; the line keeps its own id, name, price, image and options, and the
   * other lines and the length are unchanged.
   */
  lemma AddMergesIntoFirstMatch(items: seq<CartItem>, item: CartItem, now: nat, k: nat)
    requires k < |items| && SameLine(items[k], item)
    requires forall j :: 0 <= j < k ==> !SameLine(items[j], item)
    ensures var r := Added(items, item, now);
            && |r| == |items|
            && r[k].quantity == items[k].quantity + item.quantity
            && r[k] == items[k].(quantity := r[k].quantity)
            && forall j :: 0 <= j < |items| && j != k ==> r[j] == items[j]
  {
  }

  /**
   * Adding an item that matches no line appends it at the end with the id
   * `productId-now`; every other field is the caller's, and the caller's id is dropped.
   */
  lemma AddAppendsWhenNoMatch(items: seq<CartItem>, item: CartItem, now: nat)
    requires forall j :: 0 <= j < |items| ==> !SameLine(items[j], item)
    ensures var r := Added(items, item, now);
            && |r| == |items| + 1
            && r[..|items|] == items
            && r[|items|] == item.(id := NewLineId(item.productId, now))
  {
  }

  /** The list after `removeFromCart(id)`. */
  function Removed(items: seq<CartItem>, id: string): (r: seq<CartItem>)
    ensures Seqs.IsSubsequence(r, items)
    ensures forall j :: 0 <= j < |r| ==> r[j].id != id
    ensures forall j :: 0 <= j < |items| && items[j].id != id ==> items[j] in r
    ensures multiset(r) <= multiset(items)
    ensures forall x | x in items :: multiset(r)[x] == if x.id != id then multiset(items)[x] else 0
  {
    Seqs.FilterCounts(HasOtherId(id), items);
    Seqs.Filter(HasOtherId(id), items)
  }

  /** The list after `updateQuantity(id, quantity)`. */
  function Updated(items: seq<CartItem>, id: string, quantity: int): (r: seq<CartItem>)
    ensures quantity <= 0 ==> r == Removed(items, id)
    ensures 0 < quantity ==> |r| == |items|
    ensures 0 < quantity ==> forall j :: 0 <= j < |items| ==>
              r[j] == if items[j].id == id then items[j].(quantity := quantity) else items[j]
  {
    if quantity <= 0 then Removed(items, id)
    else seq(|items|, j requires 0 <= j < |items| =>
               if items[j].id == id then items[j].(quantity := quantity) else items[j])
  }

  function LineTotal(item: CartItem): int {
    item.price * item.quantity
  }

  /** `getCartTotal`: the sum of price times quantity over all lines. */
  function Total(items: seq<CartItem>): int {
    if items == [] then 0 else LineTotal(items[0]) + Total(items[1..])
  }

  /** `getItemCount`: the sum of the quantities (not the number of lines). */
  function ItemCount(items: seq<CartItem>): int {
    if items == [] then 0 else items[0].quantity + ItemCount(items[1..])
  }

  /** No two lines share an identity: the merge rule has always been applied. */
  ghost predicate Canonical(items: seq<CartItem>) {
    forall i, j :: 0 <= i < j < |items| ==> !SameLine(items[i], items[j])
  }

  /** Every line has a quantity of at least one. */
  ghost predicate AllPositive(items: seq<CartItem>) {
    forall j :: 0 <= j < |items| ==> items[j].quantity >= 1
  }

  class Cart {
    var items: seq<CartItem>

    ghost predicate Valid()
      reads this
    {
      Canonical(items) && AllPositive(items)
    }

    constructor ()
      ensures items == [] && Valid()
    {
      items := [];
    }

    /** Merge into the first line with the same identity, or append with a fresh id. */
    method AddToCart(item: CartItem, now: nat)
      modifies this
      ensures items == Added(old(items), item, now)
      ensures old(Valid()) && item.quantity >= 1 ==> Valid()
    {
      ghost var prevItems := items;
      var k := MergeIndex(items, item);
      if 0 <= k {
        var updatedItems := items;
        updatedItems := updatedItems[k := updatedItems[k].(quantity := updatedItems[k].quantity + item.quantity)];
        items := updatedItems;
      } else {
        items := items + [item.(id := NewLineId(item.productId, now))];
      }
      assert items == Added(prevItems, item, now);
      AddedKeepsValid(prevItems, item, now);
    }

    method RemoveFromCart(id: string)
      modifies this
      ensures items == Removed(old(items), id)
      ensures old(Valid()) ==> Valid()
    {
      items := Seqs.Filter(HasOtherId(id), items);
      RemovedKeepsValid(old(items), id);
    }

    /** A quantity of zero or less removes the line; otherwise matching lines take it. */
    method UpdateQuantity(id: string, quantity: int)
      modifies this
      ensures items == Updated(old(items), id, quantity)
      ensures old(Valid()) ==> Valid()
    {
      if quantity <= 0 {
        RemoveFromCart(id);
        return;
      }
      var prevItems := items;
      items := seq(|prevItems|, j requires 0 <= j < |prevItems| =>
                     if prevItems[j].id == id then prevItems[j].(quantity := quantity) else prevItems[j]);
      UpdatedKeepsValid(old(items), id, quantity);
    }

    method ClearCart()
      modifies this
      ensures items == [] && Valid()
    {
      items := [];
    }

    /** `getCartTotal`, the left fold the source runs, is the sum `Total` of the lines. */
    function GetCartTotal(): (t: int)
      reads this
      ensures t == Total(items)
    {
      FoldsMatchTotals(items, 0, 0);
      FoldTotal(items, 0)
    }

    /** `getItemCount`, the left fold the source runs, is the sum `ItemCount` of the quantities. */
    function GetItemCount(): (n: int)
      reads this
      ensures n == ItemCount(items)
    {
      FoldsMatchTotals(items, 0, 0);
      FoldCount(items, 0)
    }
  }

  // ---------------------------------------------------------------------------------------
  // Invariants the operations keep

  lemma {:induction false} AddedKeepsValid(items: seq<CartItem>, item: CartItem, now: nat)
    ensures Canonical(items) ==> Canonical(Added(items, item, now))
    ensures AllPositive(items) && item.quantity >= 1 ==> AllPositive(Added(items, item, now))
  {
    var r := Added(items, item, now);
    var k := MergeIndex(items, item);
    if 0 <= k {
      assert forall j :: 0 <= j < |r| ==> SameLine(r[j], r[j]) == SameLine(items[j], items[j]);
      assert forall i, j :: 0 <= i < |r| && 0 <= j < |r| ==> SameLine(r[i], r[j]) == SameLine(items[i], items[j]);
    } else {
      assert forall j :: 0 <= j < |items| ==> !SameLine(items[j], r[|items|]);
    }
  }

  lemma RemovedKeepsValid(items: seq<CartItem>, id: string)
    ensures Canonical(items) ==> Canonical(Removed(items, id))
    ensures AllPositive(items) ==> AllPositive(Removed(items, id))
  {
    SubsequenceKeepsValid(Removed(items, id), items);
  }

  lemma {:induction false} SubsequenceKeepsValid(r: seq<CartItem>, s: seq<CartItem>)
    requires Seqs.IsSubsequence(r, s)
    ensures Canonical(s) ==> Canonical(r)
    ensures AllPositive(s) ==> AllPositive(r)
    decreases |s|
  {
    if r != [] {
      if r[0] == s[0] && Seqs.IsSubsequence(r[1..], s[1..]) {
        SubsequenceKeepsValid(r[1..], s[1..]);
        SubsequenceElements(r[1..], s[1..]);
        if Canonical(s) {
          forall i, j | 0 <= i < j < |r| ensures !SameLine(r[i], r[j]) {
            if i == 0 {
              assert r[j] == r[1..][j - 1];
              assert r[j] in r[1..];
              var m :| 0 <= m < |s[1..]| && s[1..][m] == r[j];
              assert s[m + 1] == r[j];
            } else {
              assert r[i] == r[1..][i - 1] && r[j] == r[1..][j - 1];
            }
          }
        }
      } else {
        SubsequenceKeepsValid(r, s[1..]);
      }
    }
  }

  lemma {:induction false} SubsequenceElements<T>(r: seq<T>, s: seq<T>)
    requires Seqs.IsSubsequence(r, s)
    ensures forall x :: x in r ==> x in s
    decreases |s|
  {
    if r != [] {
      if r[0] == s[0] && Seqs.IsSubsequence(r[1..], s[1..]) {
        SubsequenceElements(r[1..], s[1..]);
        assert forall x :: x in r ==> x == r[0] || x in r[1..];
      } else {
        SubsequenceElements(r, s[1..]);
      }
    }
  }

  lemma UpdatedKeepsValid(items: seq<CartItem>, id: string, quantity: int)
    ensures Canonical(items) ==> Canonical(Updated(items, id, quantity))
    ensures AllPositive(items) ==> AllPositive(Updated(items, id, quantity))
  {
    if quantity <= 0 {
      RemovedKeepsValid(items, id);
    } else {
      var r := Updated(items, id, quantity);
      assert forall i, j :: 0 <= i < |r| && 0 <= j < |r| ==> SameLine(r[i], r[j]) == SameLine(items[i], items[j]);
    }
  }

  // ---------------------------------------------------------------------------------------
  // The totals

  /** The quantity held by the lines with this id. */
  function QuantityOf(items: seq<CartItem>, id: string): int {
    if items == [] then 0
    else (if items[0].id == id then items[0].quantity else 0) + QuantityOf(items[1..], id)
  }

  /** `reduce((total, item) => total + item.price * item.quantity, acc)`. */
  function FoldTotal(items: seq<CartItem>, acc: int): int {
    if items == [] then acc else FoldTotal(items[1..], acc + LineTotal(items[0]))
  }

  /** `reduce((count, item) => count + item.quantity, acc)`. */
  function FoldCount(items: seq<CartItem>, acc: int): int {
    if items == [] then acc else FoldCount(items[1..], acc + items[0].quantity)
  }

  /** The left folds from any start add that start to the sums. */
  lemma {:induction false} FoldsMatchTotals(items: seq<CartItem>, accTotal: int, accCount: int)
    ensures FoldTotal(items, accTotal) == accTotal + Total(items)
    ensures FoldCount(items, accCount) == accCount + ItemCount(items)
  {
    if items != [] {
      FoldsMatchTotals(items[1..], accTotal + LineTotal(items[0]), accCount + items[0].quantity);
    }
  }

  lemma EmptyCartTotals()
    ensures Total([]) == 0 && ItemCount([]) == 0
  {
  }

  lemma {:induction false} TotalsOfConcat(s: seq<CartItem>, t: seq<CartItem>)
    ensures Total(s + t) == Total(s) + Total(t)
    ensures ItemCount(s + t) == ItemCount(s) + ItemCount(t)
  {
    if s != [] {
      assert (s + t)[1..] == s[1..] + t;
      TotalsOfConcat(s[1..], t);
    } else {
      assert s + t == t;
    }
  }

  /** Replacing one line changes the totals by the difference of that line alone. */
  lemma {:induction false} TotalsOfReplace(s: seq<CartItem>, k: nat, y: CartItem)
    requires k < |s|
    ensures Total(s[k := y]) == Total(s) - LineTotal(s[k]) + LineTotal(y)
    ensures ItemCount(s[k := y]) == ItemCount(s) - s[k].quantity + y.quantity
  {
    if k > 0 {
      assert s[k := y][1..] == s[1..][k - 1 := y];
      TotalsOfReplace(s[1..], k - 1, y);
    } else {
      assert s[k := y][1..] == s[1..];
    }
  }

  /** Every add raises the item count by exactly the added quantity. */
  lemma AddedItemCount(items: seq<CartItem>, item: CartItem, now: nat)
    ensures ItemCount(Added(items, item, now)) == ItemCount(items) + item.quantity
  {
    var k := MergeIndex(items, item);
    if 0 <= k {
      TotalsOfReplace(items, k, items[k].(quantity := items[k].quantity + item.quantity));
    } else {
      TotalsOfConcat(items, [item.(id := NewLineId(item.productId, now))]);
    }
  }

  /**
   * Every add raises the cart total by the added quantity times the unit price of the line
   * it lands on: the existing line's price on a merge, the item's own price otherwise.
   */
  lemma AddedTotal(items: seq<CartItem>, item: CartItem, now: nat)
    ensures var k := MergeIndex(items, item);
            var unitPrice := if 0 <= k then items[k].price else item.price;
            Total(Added(items, item, now)) == Total(items) + unitPrice * item.quantity
  {
    var k := MergeIndex(items, item);
    if 0 <= k {
      var y := items[k].(quantity := items[k].quantity + item.quantity);
      TotalsOfReplace(items, k, y);
      assert LineTotal(y) - LineTotal(items[k]) == items[k].price * item.quantity;
    } else {
      TotalsOfConcat(items, [item.(id := NewLineId(item.productId, now))]);
    }
  }

  /** Removing by id takes away exactly the quantity the lines with that id held. */
  lemma {:induction false} RemovedItemCount(items: seq<CartItem>, id: string)
    ensures ItemCount(Removed(items, id)) == ItemCount(items) - QuantityOf(items, id)
  {
    if items != [] {
      RemovedItemCount(items[1..], id);
      if items[0].id != id {
        assert Removed(items, id) == [items[0]] + Removed(items[1..], id);
        TotalsOfConcat([items[0]], Removed(items[1..], id));
      }
    }
  }

  /** Removing an id no line has changes nothing. */
  lemma RemoveAbsentIsNoop(items: seq<CartItem>, id: string)
    requires forall j :: 0 <= j < |items| ==> items[j].id != id
    ensures Removed(items, id) == items
  {
    Seqs.FilterKeepsAll(HasOtherId(id), items);
  }

  /** Setting the quantity of the one line with this id changes the count by the difference. */
  lemma UpdatedItemCount(items: seq<CartItem>, k: nat, quantity: int)
    requires k < |items| && 0 < quantity
    requires forall j :: 0 <= j < |items| && j != k ==> items[j].id != items[k].id
    ensures ItemCount(Updated(items, items[k].id, quantity)) ==
            ItemCount(items) - items[k].quantity + quantity
  {
    assert Updated(items, items[k].id, quantity) == items[k := items[k].(quantity := quantity)];
    TotalsOfReplace(items, k, items[k].(quantity := quantity));
  }

  /** With positive quantities and non-negative prices both totals are non-negative. */
  lemma {:induction false} TotalsNonNegative(items: seq<CartItem>)
    requires AllPositive(items)
    requires forall j :: 0 <= j < |items| ==> items[j].price >= 0
    ensures Total(items) >= 0
    ensures ItemCount(items) >= |items|
  {
    if items != [] {
      TotalsNonNegative(items[1..]);
    }
  }

  // ---------------------------------------------------------------------------------------
  // The merge rule on two adds

  /** Two plain adds of one product make one line whose quantity is the sum. */
  lemma PlainAddsMerge(items: seq<CartItem>, a: CartItem, b: CartItem, t1: nat, t2: nat)
    requires !a.isCustom && !b.isCustom && a.productId == b.productId
    requires forall j :: 0 <= j < |items| ==> !SameLine(items[j], a)
    ensures var r := Added(Added(items, a, t1), b, t2);
            r == items + [a.(id := NewLineId(a.productId, t1), quantity := a.quantity + b.quantity)]
  {
    var once := Added(items, a, t1);
    AddAppendsWhenNoMatch(items, a, t1);
    assert forall j :: 0 <= j < |items| ==> !SameLine(once[j], b);
    AddMergesIntoFirstMatch(once, b, t2, |items|);
    var r := Added(once, b, t2);
    assert r[..|items|] == items;
  }

  /** Two custom adds of one product with different options make two lines. */
  lemma CustomAddsWithDifferentOptionsStaySeparate(items: seq<CartItem>, a: CartItem, b: CartItem, t1: nat, t2: nat)
    requires a.isCustom && b.isCustom && a.customOptions != b.customOptions
    requires forall j :: 0 <= j < |items| ==> !SameLine(items[j], a) && !SameLine(items[j], b)
    ensures |Added(Added(items, a, t1), b, t2)| == |items| + 2
  {
    var once := Added(items, a, t1);
    AddAppendsWhenNoMatch(items, a, t1);
    assert forall j :: 0 <= j < |once| ==> !SameLine(once[j], b) by {
      assert forall j :: 0 <= j < |items| ==> once[j] == items[j];
    }
    AddAppendsWhenNoMatch(once, b, t2);
  }

  /** A custom line and a plain line never merge, whatever their product. */
  lemma CustomNeverMergesWithPlain(a: CartItem, b: CartItem)
    requires a.isCustom != b.isCustom
    ensures !SameLine(a, b) && !SameLine(b, a)
  {
  }
}
