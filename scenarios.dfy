/**
 * Concrete scenarios stated as methods whose postconditions are the expected
 * figures: most are the ones the repository's own test routines walk
 * through; a few add properties of checkout and of shared products that
 * follow from the code but that no test checks.
 */
module Scenarios {
  import opened Wrappers
  import opened Products
  import opened Discounts
  import opened Carts
  import opened Users

  /** The info dictionary holding just these base values. */
  function BaseInfo(id: int, name: string, price: real, quantity: int): Info
  {
    LineItem(id, name, price, quantity).AsInfo()
  }

  /** Creating a product, changing its quantity, and reading its info dictionary. */
  method ProductInfoScenario() returns (info: Info)
    ensures info == BaseInfo(1, "Test Product", 10.0, 5)
  {
    var product := new Product(1, "Test Product", 10.0, 2);
    product.UpdateQuantity(5);
    info := product.GetProductInfo();
  }

  /** A digital product's info dictionary adds its file size and link to the base four. */
  method DigitalInfoScenario() returns (info: Info)
    ensures info == BaseInfo(101, "E-Book", 12.99, 1)
      [FileSizeKey := RealVal(5.0)][ProductLinkKey := TextVal("www.example.com/download")]
  {
    var digital := new Product.DigitalProduct(101, "E-Book", 12.99, 1, 5.0, "www.example.com/download");
    info := digital.GetProductInfo();
  }

  /** A physical product's info dictionary adds weight, dimensions and shipping cost. */
  method PhysicalInfoScenario() returns (info: Info)
    ensures info == BaseInfo(202, "Laptop", 999.99, 1)
      [WeightKey := RealVal(2.5)][DimensionsKey := DimsVal([15.0, 10.0, 2.0])]
      [ShippingCostKey := RealVal(25.0)]
  {
    var physical := new Product.PhysicalProduct(202, "Laptop", 999.99, 1, 2.5, [15.0, 10.0, 2.0], 25.0);
    info := physical.GetProductInfo();
  }

  /** Adding two products and viewing the cart, then removing the first of them by id. */
  method CartEditScenario() returns (afterAdd: seq<LineItem>, afterRemove: seq<LineItem>)
    ensures afterAdd == [LineItem(1, "Book", 10.0, 2), LineItem(2, "Notebook", 5.0, 1)]
    ensures afterRemove == [LineItem(2, "Notebook", 5.0, 1)]
  {
    var book := new Product(1, "Book", 10.0, 2);
    var notebook := new Product(2, "Notebook", 5.0, 1);
    var cart := new Cart();
    cart.AddProduct(book);
    cart.AddProduct(notebook);
    assert cart.items == [book, notebook];
    afterAdd := cart.ViewCart();
    cart.RemoveProduct(1);
    assert cart.items == [notebook];
    afterRemove := cart.ViewCart();
  }

  /**
   * The edits the cart tests make on an empty cart: add Book and Notebook,
   * remove id 1, then add Book and Pen.
   */
  method FillTestCart(cart: Cart, book: Product, notebook: Product, pen: Product)
    requires cart.items == [] && book.productId == 1 && notebook.productId == 2
    modifies cart
    ensures cart.items == [notebook, book, pen]
  {
    cart.AddProduct(book);
    cart.AddProduct(notebook);
    cart.RemoveProduct(1);
    assert cart.items == [notebook];
    cart.AddProduct(book);
    cart.AddProduct(pen);
  }

  /** The test routines' cart of Notebook 5 x 1, Book 10 x 2, Pen 2 x 3 is worth 31 before discounts. */
  lemma TestCartSubtotal(notebook: Product, book: Product, pen: Product)
    requires notebook.variant == Plain && notebook.price == 5.0 && notebook.quantity == 1
    requires book.variant == Plain && book.price == 10.0 && book.quantity == 2
    requires pen.variant == Plain && pen.price == 2.0 && pen.quantity == 3
    ensures Subtotal([notebook, book, pen]) == 31.0
  {
    assert Subtotal([pen]) == 6.0;
    assert Subtotal([book, pen]) == 26.0;
  }

  /** Re-adding after a removal puts the product at the end, in insertion order. */
  method CartReAddScenario() returns (view: seq<LineItem>)
    ensures view == [LineItem(2, "Notebook", 5.0, 1), LineItem(1, "Book", 10.0, 2),
                     LineItem(3, "Pen", 2.0, 3)]
  {
    var book := new Product(1, "Book", 10.0, 2);
    var notebook := new Product(2, "Notebook", 5.0, 1);
    var pen := new Product(3, "Pen", 2.0, 3);
    var cart := new Cart();
    FillTestCart(cart, book, notebook, pen);
    view := cart.ViewCart();
  }

  /** That cart totals 31 without discounts. */
  method CartTotalScenario() returns (total: real)
    ensures total == 31.0
  {
    var book := new Product(1, "Book", 10.0, 2);
    var notebook := new Product(2, "Notebook", 5.0, 1);
    var pen := new Product(3, "Pen", 2.0, 3);
    var cart := new Cart();
    FillTestCart(cart, book, notebook, pen);
    TestCartSubtotal(notebook, book, pen);
    total := cart.CalculateTotal();
  }

  /**
   * The first edits of the checkout test, through the user's own operations
   * on the user's empty cart: add Book and Notebook, then remove id 1.
   * Returns the cart view after the adds.
   */
  method UserAddThenRemove(user: User, book: Product, notebook: Product)
      returns (afterAdd: seq<LineItem>)
    requires user.cart.items == []
    requires book.productId == 1 && book.name == "Book" && book.price == 10.0 && book.quantity == 2
    requires notebook.productId == 2 && notebook.name == "Notebook" && notebook.price == 5.0
    requires notebook.quantity == 1
    modifies user.cart
    ensures user.cart.items == [notebook]
    ensures afterAdd == [LineItem(1, "Book", 10.0, 2), LineItem(2, "Notebook", 5.0, 1)]
  {
    user.AddToCart(book);
    user.AddToCart(notebook);
    afterAdd := user.cart.ViewCart();
    user.RemoveFromCart(1);
  }

  /**
   * The next edits of the checkout test: view the cart holding only
   * Notebook, then add Book and Pen back through the user.
   */
  method UserViewThenReAdd(user: User, notebook: Product, book: Product, pen: Product)
      returns (afterRemove: seq<LineItem>)
    requires user.cart.items == [notebook]
    requires notebook.productId == 2 && notebook.name == "Notebook" && notebook.price == 5.0
    requires notebook.quantity == 1
    modifies user.cart
    ensures user.cart.items == [notebook, book, pen]
    ensures afterRemove == [LineItem(2, "Notebook", 5.0, 1)]
  {
    afterRemove := user.cart.ViewCart();
    user.AddToCart(book);
    user.AddToCart(pen);
  }

  /**
   * A user with a 10% default discount edits the cart and checks out:
   * the views after adding and after removing list the expected entries,
   * checkout returns 27.9, and the user's cart is empty afterwards.
   */
  method CheckoutScenario() returns (afterAdd: seq<LineItem>, afterRemove: seq<LineItem>,
                                     total: real, viewAfter: seq<LineItem>)
    ensures afterAdd == [LineItem(1, "Book", 10.0, 2), LineItem(2, "Notebook", 5.0, 1)]
    ensures afterRemove == [LineItem(2, "Notebook", 5.0, 1)]
    ensures total == 27.9
    ensures viewAfter == []
  {
    var book := new Product(1, "Book", 10.0, 2);
    var notebook := new Product(2, "Notebook", 5.0, 1);
    var pen := new Product(3, "Pen", 2.0, 3);
    var user := new User(1, "John Doe", discounts := Some([PercentageDiscount(10.0)]));
    afterAdd := UserAddThenRemove(user, book, notebook);
    afterRemove := UserViewThenReAdd(user, notebook, book, pen);
    TestCartSubtotal(notebook, book, pen);
    assert Fold(31.0, [PercentageDiscount(10.0)]) == 27.9;
    total := user.Checkout();
    viewAfter := user.cart.ViewCart();
  }

  /**
   * Checkout replaces the user's cart rather than emptying it: a cart object
   * held from before checkout keeps its entry, even after the user adds to
   * the new cart.
   */
  method HeldCartScenario() returns (total: real, heldView: seq<LineItem>, userView: seq<LineItem>)
    ensures total == 20.0
    ensures heldView == [LineItem(1, "Book", 10.0, 2)]
    ensures userView == [LineItem(3, "Pen", 2.0, 3)]
  {
    var book := new Product(1, "Book", 10.0, 2);
    var pen := new Product(3, "Pen", 2.0, 3);
    var user := new User(1, "John Doe");
    user.AddToCart(book);
    var held := user.cart;
    assert Subtotal([book]) == 20.0;
    total := user.Checkout();
    user.AddToCart(pen);
    heldView := held.ViewCart();
    userView := user.cart.ViewCart();
  }

  /**
   * A generic entry followed by a physical Laptop (1000 each, shipping 20)
   * is worth the generic entry's price times quantity, plus 1000 per laptop,
   * plus a single shipping cost of 20.
   */
  lemma BookAndLaptopSubtotal(book: Product, laptop: Product)
    requires book.variant == Plain
    requires laptop.variant.Physical? && laptop.variant.shippingCost == 20.0
    requires laptop.price == 1000.0
    ensures Subtotal([book, laptop])
         == book.price * book.quantity as real + 1000.0 * laptop.quantity as real + 20.0
  {
    assert Subtotal([laptop]) == 1000.0 * laptop.quantity as real + 20.0;
  }

  /**
   * A cart holds references: quantities changed after the products were
   * added change the cart's total, and a physical entry adds its shipping
   * once, whatever its quantity (shipping per unit would give 2060 and 3110).
   */
  method SharedProductScenario() returns (before: real, after: real)
    ensures before == 20.0 + 2000.0 + 20.0
    ensures after == 50.0 + 3000.0 + 20.0
  {
    var book := new Product(1, "Book", 10.0, 2);
    var laptop := new Product.PhysicalProduct(3, "Laptop", 1000.0, 2, 2.5, [15.0, 10.0, 1.0], 20.0);
    var cart := new Cart();
    cart.AddProduct(book);
    cart.AddProduct(laptop);
    assert cart.items == [book, laptop];
    BookAndLaptopSubtotal(book, laptop);
    before := cart.CalculateTotal();
    book.UpdateQuantity(5);
    laptop.UpdateQuantity(3);
    BookAndLaptopSubtotal(book, laptop);
    after := cart.CalculateTotal();
  }
}
