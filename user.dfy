/**
 * The user: owns one cart and a default discount list, forwards cart edits,
 * and checks out by reading the total and then replacing the cart.
 */
module Users {
  import opened Wrappers
  import opened Products
  import opened Discounts
  import opened Carts

  class User {
    const userId: int
    const name: string
    var cart: Cart
    const discounts: Option<seq<Discount>>

    /** Uses the given cart when there is one, otherwise a fresh empty cart. */
    constructor (userId: int, name: string, cart: Cart? := null,
                 discounts: Option<seq<Discount>> := None)
      ensures this.userId == userId && this.name == name && this.discounts == discounts
      ensures cart != null ==> this.cart == cart
      ensures cart == null ==> fresh(this.cart) && this.cart.items == []
    {
      this.userId := userId;
      this.name := name;
      this.discounts := discounts;
      if cart == null {
        this.cart := new Cart();
      } else {
        this.cart := cart;
      }
    }

    /** Appends the product to the user's cart. */
    method AddToCart(product: Product)
      modifies cart
      ensures cart.items == old(cart.items) + [product]
    {
      cart.AddProduct(product);
    }

    /** Removes the first entry with the given id from the user's cart, if any. */
    method RemoveFromCart(productId: int)
      modifies cart
      ensures cart.items == WithoutFirst(old(cart.items), productId)
    {
      cart.RemoveProduct(productId);
    }

    /**
     * Returns the total of the current cart under the user's own discounts,
     * then rebinds the user to a new empty cart. The old cart object is not
     * cleared: it keeps its entries, so a reference to it still sees them.
     */
    method Checkout() returns (total: real)
      modifies this
      ensures total == old(ApplyAll(Subtotal(cart.items), discounts))
      ensures fresh(cart) && cart.items == []
      ensures old(cart).items == old(cart.items)
    {
      total := cart.CalculateTotal(discounts);
      cart := new Cart();
    }
  }
}
