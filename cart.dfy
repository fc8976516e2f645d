/**
 * The cart: an ordered list of product references with insertion, removal
 * of the first entry with a given id, a base-field view, and the two-phase
 * total (line totals plus shipping, then the discount fold).
 */
module Carts {
  import opened Wrappers
  import opened Products
  import opened Discounts

  /**
   * Position of the first entry whose id is `id`, or None; this is the
   * search behind the cart's item lookup.
   */
  function IndexOfId(ps: seq<Product>, id: int): (r: Option<nat>)
    ensures r.None? <==> forall j :: 0 <= j < |ps| ==> ps[j].productId != id
    ensures r.Some? ==> r.value < |ps| && ps[r.value].productId == id
    ensures r.Some? ==> forall j :: 0 <= j < r.value ==> ps[j].productId != id
  {
    if ps == [] then None
    else if ps[0].productId == id then Some(0)
    else match IndexOfId(ps[1..], id)
      case None => None
      case Some(k) => Some(k + 1)
  }

  /**
   * Position of the first occurrence of the reference `p`, or None; this is
   * the search a list performs when asked to remove an element (products
   * have no equality of their own, so it compares identities).
   */
  function IndexOf(ps: seq<Product>, p: Product): (r: Option<nat>)
    ensures r.None? <==> p !in ps
    ensures r.Some? ==> r.value < |ps| && ps[r.value] == p
    ensures r.Some? ==> forall j :: 0 <= j < r.value ==> ps[j] != p
  {
    if ps == [] then None
    else if ps[0] == p then Some(0)
    else match IndexOf(ps[1..], p)
      case None => None
      case Some(k) => Some(k + 1)
  }

  /** The list with the entry at position i taken out. */
  function DeleteAt(ps: seq<Product>, i: nat): (r: seq<Product>)
    requires i < |ps|
    ensures |r| == |ps| - 1
    ensures forall j :: 0 <= j < i ==> r[j] == ps[j]
    ensures forall j :: i <= j < |r| ==> r[j] == ps[j + 1]
  {
    ps[..i] + ps[i + 1..]
  }

  /**
   * Reference definition of removal by id: walk the list and drop the first
   * entry with that id; a list without one comes back as it was.
   */
  function WithoutFirst(ps: seq<Product>, id: int): seq<Product>
  {
    if ps == [] then []
    else if ps[0].productId == id then ps[1..]
    else [ps[0]] + WithoutFirst(ps[1..], id)
  }

  /**
   * Removal by id deletes exactly the entry at the first position holding
   * that id, and nothing when there is none; the other entries keep their
   * order.
   */
  lemma {:induction false} WithoutFirstDeletesFirstMatch(ps: seq<Product>, id: int)
    ensures IndexOfId(ps, id).None? ==> WithoutFirst(ps, id) == ps
    ensures IndexOfId(ps, id).Some? ==> WithoutFirst(ps, id) == DeleteAt(ps, IndexOfId(ps, id).value)
  {
    if ps != [] && ps[0].productId != id {
      var tail := ps[1..];
      WithoutFirstDeletesFirstMatch(tail, id);
      match IndexOfId(tail, id)
      case None =>
        assert ps == [ps[0]] + tail;
      case Some(k) =>
        DeleteAtCons(ps, k);
    }
  }

  /** Deleting past the head keeps the head in front. */
  lemma DeleteAtCons(ps: seq<Product>, k: nat)
    requires k + 1 < |ps|
    ensures DeleteAt(ps, k + 1) == [ps[0]] + DeleteAt(ps[1..], k)
  {
  }

  /** Deleting an entry takes exactly that one product reference out of the multiset. */
  lemma DeleteAtMultiset(ps: seq<Product>, i: nat)
    requires i < |ps|
    ensures multiset(DeleteAt(ps, i)) + multiset{ps[i]} == multiset(ps)
  {
    assert ps == ps[..i] + [ps[i]] + ps[i + 1..];
  }

  /**
   * The entry found by id is also the one the list's own removal finds when
   * given that reference: no earlier entry can be the same object, since it
   * would carry the same id.
   */
  lemma FoundEntryIsFirstOccurrence(ps: seq<Product>, id: int)
    requires IndexOfId(ps, id).Some?
    ensures IndexOf(ps, ps[IndexOfId(ps, id).value]) == IndexOfId(ps, id)
  {
  }

  /** One line of the cart view: exactly the base four attributes of an entry. */
  datatype LineItem = LineItem(productId: int, name: string, price: real, quantity: int)
  {
    /** The same record as a dictionary over the base keys. */
    function AsInfo(): (r: Info)
      ensures r.Keys == BaseKeys
    {
      map[ProductIdKey := IntVal(productId), NameKey := TextVal(name),
          PriceKey := RealVal(price), QuantityKey := IntVal(quantity)]
    }
  }

  /** The cart's summary of one entry, with the entry's current values. */
  function FormatItem(item: Product): LineItem
    reads item
  {
    LineItem(item.productId, item.name, item.price, item.quantity)
  }

  /**
   * Whatever the variant, the cart's summary of an entry is its info
   * dictionary cut down to the base four keys.
   */
  lemma FormatItemIsBaseOfInfo(item: Product)
    ensures FormatItem(item).AsInfo() == map k | k in BaseKeys :: item.GetProductInfo()[k]
  {
  }

  /** One summary per entry, in list order. */
  function Summaries(ps: seq<Product>): (r: seq<LineItem>)
    reads ps
    ensures |r| == |ps|
    ensures forall i :: 0 <= i < |ps| ==> r[i] == FormatItem(ps[i])
  {
    if ps == [] then [] else [FormatItem(ps[0])] + Summaries(ps[1..])
  }

  /**
   * The sum of the entries' line totals: price times quantity, plus shipping
   * for a physical entry. It is non-negative when every line total is.
   */
  function Subtotal(ps: seq<Product>): (r: real)
    reads ps
    ensures (forall i :: 0 <= i < |ps| ==> ps[i].LineTotal() >= 0.0) ==> r >= 0.0
  {
    if ps == [] then 0.0 else ps[0].LineTotal() + Subtotal(ps[1..])
  }

  /** The sum of price times quantity over the entries. */
  function Merchandise(ps: seq<Product>): real
    reads ps
  {
    if ps == [] then 0.0 else ps[0].price * ps[0].quantity as real + Merchandise(ps[1..])
  }

  /**
   * The sum of shipping costs over the physical entries, one per entry. It
   * reads no mutable field: quantities and prices cannot change it.
   */
  function ShippingTotal(ps: seq<Product>): real
  {
    if ps == [] then 0.0
    else (if ps[0].variant.Physical? then ps[0].variant.shippingCost else 0.0) + ShippingTotal(ps[1..])
  }

  /** The undiscounted total is the merchandise sum plus one shipping cost per physical entry. */
  lemma {:induction false} SubtotalSplits(ps: seq<Product>)
    ensures Subtotal(ps) == Merchandise(ps) + ShippingTotal(ps)
  {
    if ps != [] {
      SubtotalSplits(ps[1..]);
    }
  }

  /** Without physical entries the undiscounted total is just the merchandise sum. */
  lemma {:induction false} NoPhysicalNoShipping(ps: seq<Product>)
    requires forall i :: 0 <= i < |ps| ==> !ps[i].variant.Physical?
    ensures Subtotal(ps) == Merchandise(ps)
  {
    if ps != [] {
      NoPhysicalNoShipping(ps[1..]);
    }
  }

  /** Appending an entry adds its line total to the undiscounted total. */
  lemma {:induction false} SubtotalAppend(ps: seq<Product>, p: Product)
    ensures Subtotal(ps + [p]) == Subtotal(ps) + p.LineTotal()
  {
    if ps == [] {
      assert ps + [p] == [p];
    } else {
      assert (ps + [p])[1..] == ps[1..] + [p];
      SubtotalAppend(ps[1..], p);
    }
  }

  /** Removing by id takes the removed entry's line total off the undiscounted total. */
  lemma {:induction false} SubtotalWithoutFirst(ps: seq<Product>, id: int)
    ensures IndexOfId(ps, id).None? ==> Subtotal(WithoutFirst(ps, id)) == Subtotal(ps)
    ensures IndexOfId(ps, id).Some? ==>
      Subtotal(WithoutFirst(ps, id)) + ps[IndexOfId(ps, id).value].LineTotal() == Subtotal(ps)
  {
    if ps != [] && ps[0].productId != id {
      SubtotalWithoutFirst(ps[1..], id);
      assert WithoutFirst(ps, id)[1..] == WithoutFirst(ps[1..], id);
    }
  }

  class Cart {
    var items: seq<Product>

    constructor ()
      ensures items == []
    {
      items := [];
    }

    /** Appends the product at the end; duplicates are accepted. */
    method AddProduct(product: Product)
      modifies this
      ensures items == old(items) + [product]
    {
      items := items + [product];
    }

    /** The first entry with the given id, or None. */
    function FindItemById(productId: int): (r: Option<Product>)
      reads this
      ensures r.None? <==> forall j :: 0 <= j < |items| ==> items[j].productId != productId
      ensures r.Some? ==> r.value.productId == productId
      ensures r.Some? ==>
        exists i :: 0 <= i < |items| && items[i] == r.value
                    && forall j :: 0 <= j < i ==> items[j].productId != productId
    {
      match IndexOfId(items, productId)
      case None => None
      case Some(i) => Some(items[i])
    }

    /**
     * Removes the first entry with the given id; without one the cart stays
     * as it was and nothing is signalled.
     */
    method RemoveProduct(productId: int)
      modifies this
      ensures items == WithoutFirst(old(items), productId)
    {
      WithoutFirstDeletesFirstMatch(items, productId);
      var item := FindItemById(productId);
      if item.Some? {
        FoundEntryIsFirstOccurrence(items, productId);
        var i := IndexOf(items, item.value).value;
        items := DeleteAt(items, i);
      }
    }

    /** One base-field record per entry, in cart order, whatever each entry's variant. */
    function ViewCart(): (r: seq<LineItem>)
      reads this, items
      ensures |r| == |items|
      ensures forall i :: 0 <= i < |items| ==>
        r[i] == LineItem(items[i].productId, items[i].name, items[i].price, items[i].quantity)
    {
      Summaries(items)
    }

    /**
     * The two-phase total: the undiscounted sum, then the discounts folded
     * over it. Without discounts it is the merchandise sum plus one shipping
     * cost per physical entry.
     */
    method CalculateTotal(discounts: Option<seq<Discount>> := None) returns (total: real)
      ensures total == ApplyAll(Subtotal(items), discounts)
      ensures discounts == None || discounts == Some([]) ==>
        total == Merchandise(items) + ShippingTotal(items)
    {
      var baseTotal := Subtotal(items);
      SubtotalSplits(items);
      total := ApplyDiscounts(baseTotal, discounts);
    }

    /** Applies each discount in list order to the running total. */
    method ApplyDiscounts(baseTotal: real, discounts: Option<seq<Discount>>) returns (total: real)
      ensures total == ApplyAll(baseTotal, discounts)
    {
      total := baseTotal;
      if discounts.Some? {
        var ds := discounts.value;
        var i := 0;
        while i < |ds|
          invariant 0 <= i <= |ds|
          invariant total == Fold(baseTotal, ds[..i])
        {
          FoldStep(baseTotal, ds, i);
          total := ds[i].ApplyDiscount(total);
          i := i + 1;
        }
        assert ds[..i] == ds;
      }
    }
  }
}
