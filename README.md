# Checkout model: products, cart, discount strategies, user

A Dafny model of a small e-commerce checkout (`main.py`). It covers:

- **Products.** Three variants: generic, digital and physical. Only physical products carry a shipping cost.
- **The cart.** An ordered list of product references. You can append to it, remove the first entry with a given id, view each entry's base fields, and compute a total. The total is Σ price × quantity, plus one shipping cost per physical entry. The discounts are then folded left to right over that number.
- **Discount strategies.** Two of them: a percentage off (unclamped) and a fixed amount off (never below zero).
- **The user.** A user owns one cart and a default discount list. Checkout reads the total and then rebinds the user to a new empty cart.

Modules, one per component:

- `Wrappers` (`wrappers.dfy`): `Option`.
- `Products` (`products.dfy`): the `Product` class, its `Variant` datatype and the info dictionary.
- `Discounts` (`discounts.dfy`): the `Discount` datatype and the fold `Fold` / `ApplyAll`.
- `Carts` (`cart.dfy`): the `Cart` class and the list functions it is proved against.
- `Users` (`user.dfy`): the `User` class.
- `Scenarios` (`scenarios.dfy`): concrete runs proved as postconditions. Most restate the figures the repository's test routines check. These go beyond what any test checks, stating properties that follow from the code:
  - `HeldCartScenario`: a cart held from before checkout survives it.
  - `SharedProductScenario` with its helper lemma `BookAndLaptopSubtotal`: quantities changed after adding change the total, and shipping is added once per physical entry, not per unit.
  - In `Discounts`: `DiscountEdgeExamples` (0 and −50) and the reverse-order figure 56 of `OrderMatters`.

How the source's state is modelled:

- **Products are objects.** A cart holds references to them, so a quantity (or price) changed after a product was added shows up in the cart's total. `Scenarios.SharedProductScenario` shows this for quantities.
- **Fixed versus mutable fields.** The id, name and variant attributes are never reassigned by any operation, so they are `const` fields. Price and quantity have setters, so they are `var` fields.
- **The cart's list** is a `seq<Product>` field that the cart's methods reassign.
- **Checkout rebinds the cart field.** It does not clear the old cart, so the old cart object keeps its entries.
- **A user's cart.** A cart object is always truthy in Python, since it defines no truth value. So the constructor replaces only a missing cart (`null` here) with a new one.
- **Money is `real`.** The arithmetic is exact, so the tests' figures are exact equalities: 31 × 0.9 = 27.9.

## Model

| member | source | states |
|---|---|---|
| `Products.Product.constructor` | main.py:16-20 | a generic product holds the given id, name, price and quantity (quantity defaults to 1) |
| `Products.Product.DigitalProduct` | main.py:28-53 | a digital product holds the base attributes plus its file size and link |
| `Products.Product.PhysicalProduct` | main.py:79-83 | a physical product holds the base attributes plus weight, dimensions and shipping cost |
| `Products.Product.UpdateQuantity` | main.py:21-22 | the quantity becomes the argument, any value accepted; only the quantity field may change |
| `Products.Product.UpdatePrice` | main.py:23-24 | the price becomes the argument, any value accepted; only the price field may change |
| `Products.Product.GetProductInfo` | main.py:25-85 | the key set is the base four plus exactly the variant's extra keys, each holding the current attribute value |
| `Products.Product.LineTotal` | main.py:131 | reference definition of an entry's term in the sum: price × quantity, plus the shipping cost exactly when the product is physical |
| `Discounts.Discount.ApplyDiscount` | main.py:220-237 | percentage: the amount taken off is that percentage of the total, unclamped; fixed: the result is the larger of 0 and total minus amount, so it is never negative |
| `Discounts.ApplyAll` | main.py:147-150 | with no discount list, or an empty one, the total is returned unchanged |
| `Discounts.Fold` | main.py:148-149 | reference definition of the discount loop: each discount is applied, in list order, to the result of the one before |
| `Discounts.FoldSnoc` | main.py:147-149 | appending a discount applies it last, to the result of all earlier ones |
| `Discounts.FoldStep` | main.py:148-149 | the result of discount i is the input of discount i + 1 |
| `Discounts.FoldConcat` | main.py:148-149 | folding a concatenated list folds the second part over the first part's result |
| `Discounts.FoldWithinTotal` | main.py:207-237 | if every strategy is in its expected range, a non-negative total stays between 0 and the original total |
| `Discounts.FixedLastNeverNegative` | main.py:236-237 | a discount list ending with a fixed amount never yields a negative total |
| `Discounts.SingleDiscountExamples` | main.py:374-385 | 10% of 100 leaves 90; 15 off 100 leaves 85 |
| `Discounts.DiscountEdgeExamples` | main.py:220-237 | 50 off 10 leaves 0, because the fixed amount stops at zero; 150% of 100 leaves -50, because the percentage is not clamped |
| `Discounts.OrderMatters` | main.py:387-392 | 20% then 30 off turns 100 into 50; the reverse order gives 56 |
| `Carts.IndexOfId` | main.py:137-139 | None exactly when no entry has the id; otherwise the entry at the result has the id and no earlier entry does |
| `Carts.IndexOf` | main.py:112 | the list's own removal search: the first position holding that very reference, or None when it is absent |
| `Carts.DeleteAt` | main.py:112 | one entry fewer; entries before the position are unchanged and entries after it shift down by one |
| `Carts.WithoutFirst` | main.py:108-112 | reference definition of removal by id: drop the first entry with that id, keeping the rest in order |
| `Carts.WithoutFirstDeletesFirstMatch` | main.py:108-112 | removing by id deletes exactly the first entry with that id; with no such entry the list is unchanged |
| `Carts.DeleteAtMultiset` | main.py:112 | deleting an entry removes exactly one occurrence of that reference from the multiset |
| `Carts.FoundEntryIsFirstOccurrence` | main.py:110-112 | removing the found object removes it at the position the id search found |
| `Carts.FormatItem` | main.py:119-121 | reference definition of one view record: the entry's current id, name, price and quantity |
| `Carts.LineItem.AsInfo` | main.py:119-121 | a view record as a dictionary has exactly the base four keys |
| `Carts.FormatItemIsBaseOfInfo` | main.py:119-122 | for every variant, the view record is the product's info dictionary restricted to the base keys |
| `Carts.Summaries` | main.py:122 | one record per entry, in entry order |
| `Carts.Subtotal` | main.py:130-133 | reference definition of the undiscounted total as the sum of the entries' line totals; it is non-negative when every line total is |
| `Carts.SubtotalSplits` | main.py:130-133 | the undiscounted total is Σ price × quantity plus Σ shipping cost over physical entries |
| `Carts.NoPhysicalNoShipping` | main.py:130-133 | with no physical entries, the undiscounted total is Σ price × quantity |
| `Carts.SubtotalAppend` | main.py:130-133 | appending an entry adds its line total to the undiscounted total |
| `Carts.SubtotalWithoutFirst` | main.py:108-112 | removing by id subtracts the removed entry's line total, or nothing if no entry matched |
| `Carts.Cart.constructor` | main.py:101-102 | a new cart is empty |
| `Carts.Cart.AddProduct` | main.py:104-106 | the product is appended at the end; earlier entries and their order are unchanged |
| `Carts.Cart.FindItemById` | main.py:137-139 | None exactly when no entry has the id; otherwise the first entry carrying that id |
| `Carts.Cart.RemoveProduct` | main.py:108-112 | the new list is the old list without its first entry having that id; unchanged, with no error, if there is none |
| `Carts.Cart.ViewCart` | main.py:114-122 | one record per entry, in cart order, holding exactly that entry's id, name, price and quantity |
| `Carts.Cart.CalculateTotal` | main.py:124-135 | the discounts folded over the undiscounted total; the discount list defaults to none, and with none the total is Σ price × quantity plus one shipping cost per physical entry |
| `Carts.Cart.ApplyDiscounts` | main.py:140-150 | the loop returns the left fold of the discounts in list order, or the total itself when there are none |
| `Users.User.constructor` | main.py:171-177 | the user keeps the cart it is given, or gets a fresh empty cart when none is given |
| `Users.User.AddToCart` | main.py:178-179 | the product is appended to the user's cart |
| `Users.User.RemoveFromCart` | main.py:180-181 | the first entry with the id is removed from the user's cart |
| `Users.User.Checkout` | main.py:182-185 | returns the pre-checkout cart's total under the user's discounts; the user's cart is then a fresh empty cart and the old cart object still holds its entries |
| `Scenarios.ProductInfoScenario` | main.py:239-257 | after its quantity is updated to 5, the product's info dictionary reports the new quantity |
| `Scenarios.DigitalInfoScenario` | main.py:258-283 | a digital product's info dictionary is the base four plus file size and link |
| `Scenarios.PhysicalInfoScenario` | main.py:285-316 | a physical product's info dictionary is the base four plus weight, dimensions and shipping cost |
| `Scenarios.CartEditScenario` | main.py:317-340 | the view after two adds lists both entries in order; after removing id 1 only Notebook is left |
| `Scenarios.CartReAddScenario` | main.py:342-353 | after re-adding, the view is Notebook, Book, Pen, in that order |
| `Scenarios.TestCartSubtotal` | main.py:355-358 | Notebook 5 × 1, Book 10 × 2 and Pen 2 × 3 sum to 31 |
| `Scenarios.CartTotalScenario` | main.py:355-359 | that cart's total with no discounts is 31 |
| `Scenarios.CheckoutScenario` | main.py:394-433 | editing through the user: the view after two adds is Book then Notebook, after removing id 1 it is Notebook alone; after re-adding, checkout with a 10% discount returns 27.9 and leaves the user's cart empty |
| `Scenarios.HeldCartScenario` | main.py:182-185 | with no discounts checkout returns the cart's total (20); a cart held from before checkout keeps its entry, and the user's later add goes only to the new cart |
| `Scenarios.BookAndLaptopSubtotal` | main.py:130-133 | a generic entry and a physical Laptop (1000 each, shipping 20) sum to the generic entry's line total plus 1000 per laptop plus a single 20 for shipping |
| `Scenarios.SharedProductScenario` | main.py:130-133 | book 10 × 2 with laptop 1000 × 2 (shipping 20) totals 2040; after the quantities change to 5 and 3 the same cart totals 3070, so later changes reach the total and shipping counts once per physical entry, not per unit (which would give 2060 and 3110) |

## Left out

- Floating point. Money is `real`, so there is no rounding and no float error. The tests compare floats with `==`; here those comparisons are exact equalities of reals.
- The scripted demonstration and its console output (main.py:435-480).
- The test functions themselves. Their figures are restated in `Scenarios` and in the `Discounts` example lemmas; the scenarios and lemmas that go beyond the tests are listed under `Scenarios` at the top.
- The failure when the abstract `Discount` is instantiated (main.py:188-206, 368-372). The model's `Discount` datatype has only the two concrete variants, so there is no abstract value to construct.
- The check that the cart's list attribute is private (main.py:361-366). Python name privacy has nothing to model.
- The `isinstance` test (main.py:131). It becomes the `Physical?` test on the product's variant.
- The `cart_items` argument of `apply_discount`. Both strategies ignore it, so `ApplyDiscount` takes only the total. The cart's entries are still never changed while a total is computed: `CalculateTotal` has no `modifies` clause.
- Product ids of other types. A product id is modelled as an `int`, the only kind the tests use.
- Dictionary keys as strings. The info dictionaries are keyed by an enumeration `Key` with one constructor per attribute name, not by text.
- Dictionaries in the cart view. Each entry is a `LineItem` record with the four base fields; `LineItem.AsInfo` converts it to the dictionary form.
- `Users.User.discounts`: the discount list is held as a value. Python's `User.__init__` stores the caller's list object (main.py:177), so a caller that later changes that list in place changes what checkout applies; the model does not capture that aliasing. Nothing in the core changes the list.
- Reassigning other attributes. Python code could reassign any attribute of a product or user directly. Only the setters (`update_quantity`, `update_price`) and checkout's cart rebinding are modelled; the other attributes are constants.
- Uses of the file size, link, weight and dimensions attributes. Nothing computes with them; they are only carried through `GetProductInfo`.
- Validation. Prices and quantities are meant to be non-negative, but the code never checks this, and the model follows the code. None is added: negative prices and quantities, percentages above 100 and duplicate ids are all accepted. The range in `Discount.Expected` is used only as the premise of the lemma `FoldWithinTotal`.
