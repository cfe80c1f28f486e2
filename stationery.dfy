/** The stationery shop (`Stationery`): six products in three categories, a
    category filter and a cart of `{id, quantity}` lines whose only derived
    figure is the item count shown on the cart button. */
module Stationery {
  import opened Lists
  import opened Carts
  import opened Catalog

  /** A product: numeric id, name, price in cents and category. */
  datatype Product = Product(id: int, name: string, price: int, category: string)

  /** A line of the stationery cart, `{id, quantity}`: the payload is empty. */
  type CartLine = Line<int, ()>

  const Products: seq<Product> := [
    Product(1, "Premium Notebook", 1599, "Books"),
    Product(2, "Cruise Ship Model", 2999, "Gifts"),
    Product(3, "Ocean View Postcard Set", 899, "Stationery"),
    Product(4, "Luxury Pen Set", 1999, "Stationery"),
    Product(5, "Travel Journal", 1299, "Books"),
    Product(6, "Voyage Memories Photo Frame", 2499, "Gifts")
  ]

  function CategoryOf(p: Product): string
  {
    p.category
  }

  /** Each line counts once per unit. */
  function Unit(u: ()): int
  {
    1
  }

  /** `cartItems.reduce((acc, item) => acc + item.quantity, 0)`. */
  function CartCount(cart: seq<CartLine>): int
  {
    Sum(cart, Unit)
  }

  /** The new cart `handleAddToCart(productId)` sets. */
  function AddedToCart(cart: seq<CartLine>, productId: int): seq<CartLine>
  {
    Add(cart, productId, ())
  }

  /** `filteredProducts` for a selected category. */
  function FilteredProducts(selected: string): seq<Product>
  {
    ByCategory(Products, CategoryOf, selected)
  }

  /** "Books" shows the notebook and the journal, in catalog order. */
  lemma BooksFilter()
    ensures FilteredProducts("Books") == [Products[0], Products[4]]
  {
    var p := (x: Product) => CategoryOf(x) == "Books";
    assert Filter(Products[5..], p) == [];
    assert Filter(Products[4..], p) == [Products[4]];
    assert Filter(Products[3..], p) == [Products[4]];
    assert Filter(Products[2..], p) == [Products[4]];
    assert Filter(Products[1..], p) == [Products[4]];
  }

  /** "Gifts" shows the ship model and the photo frame, in catalog order. */
  lemma GiftsFilter()
    ensures FilteredProducts("Gifts") == [Products[1], Products[5]]
  {
    var p := (x: Product) => CategoryOf(x) == "Gifts";
    assert Filter(Products[5..], p) == [Products[5]];
    assert Filter(Products[4..], p) == [Products[5]];
    assert Filter(Products[3..], p) == [Products[5]];
    assert Filter(Products[2..], p) == [Products[5]];
    assert Filter(Products[1..], p) == [Products[1], Products[5]];
  }

  /** "Stationery" shows the postcards and the pen set, in catalog order. */
  lemma StationeryFilter()
    ensures FilteredProducts("Stationery") == [Products[2], Products[3]]
  {
    var p := (x: Product) => CategoryOf(x) == "Stationery";
    assert Filter(Products[5..], p) == [];
    assert Filter(Products[4..], p) == [];
    assert Filter(Products[3..], p) == [Products[3]];
    assert Filter(Products[2..], p) == [Products[2], Products[3]];
    assert Filter(Products[1..], p) == [Products[2], Products[3]];
  }

  /** Any other selection shows exactly the products of that category, each
      once and in catalog order. */
  lemma FilteredProductsExact(selected: string)
    ensures SubsequenceOf(FilteredProducts(selected), Products)
    ensures forall p :: p in FilteredProducts(selected) <==> p in Products && (selected == "All" || p.category == selected)
  {
    ByCategoryExact(Products, CategoryOf, selected);
  }

  /** The count of a cart is the sum of its quantities, so a valid cart's count is at least its number of lines. */
  lemma {:induction false} CountAtLeastLines(cart: seq<CartLine>)
    requires Valid(cart)
    ensures CartCount(cart) >= |cart|
  {
    if cart != [] {
      assert Valid(cart[1..]) by {
        forall i | 0 <= i < |cart| - 1
          ensures cart[1..][i] == cart[i + 1]
        {
        }
      }
      CountAtLeastLines(cart[1..]);
    }
  }

  /** Each add raises the count by exactly one, keeps the invariant and never
      removes a line: the old cart's lines keep their ids and order. */
  lemma AddedToCartFacts(cart: seq<CartLine>, productId: int)
    requires Valid(cart)
    ensures var r := AddedToCart(cart, productId);
      && Valid(r)
      && CartCount(r) == CartCount(cart) + 1
      && |r| >= |cart|
      && (forall i :: 0 <= i < |cart| ==> r[i].id == cart[i].id)
  {
    AddPreservesValid(cart, productId, ());
    SumAfterAdd(cart, productId, (), Unit);
  }

  /** The page's state: the cart and the category selection. */
  class StationeryPage {
    var cartItems: seq<CartLine>
    var selectedCategory: string

    /** The cart invariant the page keeps. */
    ghost predicate Valid()
      reads this
    {
      Carts.Valid(cartItems)
    }

    constructor ()
      ensures cartItems == [] && selectedCategory == "All"
      ensures Valid()
    {
      cartItems := [];
      selectedCategory := "All";
    }

    /** The products the page lists now. */
    function Shown(): (r: seq<Product>)
      reads this
      ensures forall p :: p in r <==> p in Products && (selectedCategory == "All" || p.category == selectedCategory)
    {
      FilteredProductsExact(selectedCategory);
      FilteredProducts(selectedCategory)
    }

    /** `handleAddToCart(productId)`. */
    method HandleAddToCart(productId: int)
      requires Valid()
      modifies this
      ensures cartItems == AddedToCart(old(cartItems), productId)
      ensures selectedCategory == old(selectedCategory)
      ensures Valid()
      ensures CartCount(cartItems) == CartCount(old(cartItems)) + 1
    {
      AddedToCartFacts(cartItems, productId);
      cartItems := AddedToCart(cartItems, productId);
    }
  }
}
