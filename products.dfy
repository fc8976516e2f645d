/**
 * Products: the generic, digital and physical variants of a store item.
 *
 * A product is an object: carts hold references to it, so a change of
 * price or quantity made after it was added is seen through every cart
 * holding it. The identifying attributes and the variant-specific ones are
 * never reassigned by any operation, so they are constant fields; price and
 * quantity have setters and are mutable fields.
 */
module Products {

  /** One value of a product's info dictionary. */
  datatype Field =
    | IntVal(i: int)
    | RealVal(x: real)
    | TextVal(s: string)
    | DimsVal(d: seq<real>)

  /**
   * The keys of an info dictionary, one per attribute name the dictionaries
   * use: product_id, name, price, quantity, file_size, product_link, weight,
   * dimensions and shipping_cost.
   */
  datatype Key =
    | ProductIdKey | NameKey | PriceKey | QuantityKey
    | FileSizeKey | ProductLinkKey
    | WeightKey | DimensionsKey | ShippingCostKey

  /** A product's info dictionary: attribute name to value. */
  type Info = map<Key, Field>

  /** The four keys every product reports, whatever its variant. */
  const BaseKeys: set<Key> := {ProductIdKey, NameKey, PriceKey, QuantityKey}

  /**
   * The variant of a product and the attributes only that variant carries.
   * Only a physical product has a shipping cost.
   */
  datatype Variant =
    | Plain
    | Digital(fileSize: real, productLink: string)
    | Physical(weight: real, dimensions: seq<real>, shippingCost: real)
  {
    /** The keys the variant adds to the base four in its info dictionary. */
    function ExtraKeys(): set<Key>
    {
      match this
      case Plain => {}
      case Digital(_, _) => {FileSizeKey, ProductLinkKey}
      case Physical(_, _, _) => {WeightKey, DimensionsKey, ShippingCostKey}
    }

    /** What one cart entry of this variant adds for shipping: nothing unless physical. */
    function Shipping(): real
    {
      if Physical? then shippingCost else 0.0
    }
  }

  class Product {
    const productId: int
    const name: string
    var price: real
    var quantity: int
    const variant: Variant

    /** A generic product; the quantity defaults to one. */
    constructor (productId: int, name: string, price: real, quantity: int := 1)
      ensures this.productId == productId && this.name == name
      ensures this.price == price && this.quantity == quantity
      ensures variant == Plain
    {
      this.productId := productId;
      this.name := name;
      this.price := price;
      this.quantity := quantity;
      this.variant := Plain;
    }

    constructor DigitalProduct(productId: int, name: string, price: real, quantity: int,
                               fileSize: real, productLink: string)
      ensures this.productId == productId && this.name == name
      ensures this.price == price && this.quantity == quantity
      ensures variant == Digital(fileSize, productLink)
    {
      this.productId := productId;
      this.name := name;
      this.price := price;
      this.quantity := quantity;
      this.variant := Digital(fileSize, productLink);
    }

    constructor PhysicalProduct(productId: int, name: string, price: real, quantity: int,
                                weight: real, dimensions: seq<real>, shippingCost: real)
      ensures this.productId == productId && this.name == name
      ensures this.price == price && this.quantity == quantity
      ensures variant == Physical(weight, dimensions, shippingCost)
    {
      this.productId := productId;
      this.name := name;
      this.price := price;
      this.quantity := quantity;
      this.variant := Physical(weight, dimensions, shippingCost);
    }

    /** Replaces the quantity unconditionally (negative values included); the price is kept. */
    method UpdateQuantity(newQuantity: int)
      modifies this`quantity
      ensures quantity == newQuantity && price == old(price)
    {
      quantity := newQuantity;
    }

    /** Replaces the price unconditionally (negative values included); the quantity is kept. */
    method UpdatePrice(newPrice: real)
      modifies this`price
      ensures price == newPrice && quantity == old(quantity)
    {
      price := newPrice;
    }

    /**
     * The info dictionary: the base four fields with their current values,
     * plus exactly the fields of this product's variant.
     */
    function GetProductInfo(): (r: Info)
      reads this
      ensures r.Keys == BaseKeys + variant.ExtraKeys()
      ensures r[ProductIdKey] == IntVal(productId) && r[NameKey] == TextVal(name)
      ensures r[PriceKey] == RealVal(price) && r[QuantityKey] == IntVal(quantity)
      ensures variant.Digital? ==>
        r[FileSizeKey] == RealVal(variant.fileSize) && r[ProductLinkKey] == TextVal(variant.productLink)
      ensures variant.Physical? ==>
        && r[WeightKey] == RealVal(variant.weight)
        && r[DimensionsKey] == DimsVal(variant.dimensions)
        && r[ShippingCostKey] == RealVal(variant.shippingCost)
    {
      match variant
      case Plain =>
        map[ProductIdKey := IntVal(productId), NameKey := TextVal(name),
            PriceKey := RealVal(price), QuantityKey := IntVal(quantity)]
      case Digital(fileSize, productLink) =>
        map[ProductIdKey := IntVal(productId), NameKey := TextVal(name),
            PriceKey := RealVal(price), QuantityKey := IntVal(quantity),
            FileSizeKey := RealVal(fileSize), ProductLinkKey := TextVal(productLink)]
      case Physical(weight, dimensions, shippingCost) =>
        map[ProductIdKey := IntVal(productId), NameKey := TextVal(name),
            PriceKey := RealVal(price), QuantityKey := IntVal(quantity),
            WeightKey := RealVal(weight), DimensionsKey := DimsVal(dimensions),
            ShippingCostKey := RealVal(shippingCost)]
    }

    /**
     * The term one cart entry contributes to the cart's total before
     * discounts: price times quantity, plus the shipping cost only for a
     * physical product.
     */
    function LineTotal(): (r: real)
      reads this
      ensures variant.Physical? ==> r == price * quantity as real + variant.shippingCost
      ensures !variant.Physical? ==> r == price * quantity as real
    {
      price * quantity as real + variant.Shipping()
    }
  }
}
