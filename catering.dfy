/** The in-room dining page (`Catering`): a fixed menu in four sections, a
    cart of dishes, a room-number field and checkout. Prices are integer
    cents (24.99 is 2499). */
module Catering {
  import opened Lists
  import opened Carts

  /** A menu entry: id, name and price in cents. */
  datatype MenuItem = MenuItem(id: string, name: string, price: int)

  /** What a cart line copies from the menu entry besides its id (`CartItem`'s name and price). */
  datatype Dish = Dish(name: string, price: int)

  /** A line of the catering cart: `{id, name, price, quantity}`. */
  type CartItem = Line<string, Dish>

  const Meals: seq<MenuItem> := [
    MenuItem("m1", "Grilled Salmon", 2499),
    MenuItem("m2", "Steak & Potatoes", 2999),
    MenuItem("m3", "Vegetarian Pasta", 1899),
    MenuItem("m4", "Seafood Platter", 3299)
  ]

  const Snacks: seq<MenuItem> := [
    MenuItem("s1", "Cheese Platter", 1499),
    MenuItem("s2", "Fruit Bowl", 999),
    MenuItem("s3", "Nachos & Dip", 1299),
    MenuItem("s4", "Mixed Nuts", 899)
  ]

  const Beverages: seq<MenuItem> := [
    MenuItem("b1", "Premium Coffee", 499),
    MenuItem("b2", "Fresh Juice", 599),
    MenuItem("b3", "Craft Cocktail", 1299),
    MenuItem("b4", "Wine Selection", 999)
  ]

  const Desserts: seq<MenuItem> := [
    MenuItem("d1", "Chocolate Cake", 799),
    MenuItem("d2", "Cheesecake", 899),
    MenuItem("d3", "Ice Cream", 699),
    MenuItem("d4", "Fruit Tart", 749)
  ]

  /** Every dish the page offers, section by section. */
  const Menu: seq<MenuItem> := Meals + Snacks + Beverages + Desserts

  /** The menu's ids are pairwise distinct and every price is positive. */
  lemma MenuWellFormed()
    ensures |Menu| == 16
    ensures forall i, j :: 0 <= i < j < |Menu| ==> Menu[i].id != Menu[j].id
    ensures forall i :: 0 <= i < |Menu| ==> Menu[i].price > 0
  {
  }

  /** The line payload for a menu entry (`{ ...item, quantity: 1 }` minus id and quantity). */
  function DishOf(item: MenuItem): Dish
  {
    Dish(item.name, item.price)
  }

  /** The weight the total multiplies each quantity by. */
  function PriceOf(d: Dish): int
  {
    d.price
  }

  /** `getTotalPrice()`: the sum of price × quantity over the cart, in cents. */
  function TotalPrice(cart: seq<CartItem>): int
  {
    Sum(cart, PriceOf)
  }

  /** The `addToCart` updater. */
  function AddedToCart(cart: seq<CartItem>, item: MenuItem): seq<CartItem>
  {
    Add(cart, item.id, DishOf(item))
  }

  /** The `removeFromCart` updater. */
  function RemovedFromCart(cart: seq<CartItem>, id: string): seq<CartItem>
  {
    Remove(cart, id)
  }

  /** Every line of the cart was made from the menu entry with its id. */
  ghost predicate FromMenu(cart: seq<CartItem>)
  {
    forall i :: 0 <= i < |cart| ==> exists k :: 0 <= k < |Menu| && Menu[k].id == cart[i].id && DishOf(Menu[k]) == cart[i].info
  }

  /** Adding keeps both invariants, and a menu item keeps the cart made from the menu. */
  lemma AddToCartInvariant(cart: seq<CartItem>, k: nat)
    requires Valid(cart) && FromMenu(cart) && k < |Menu|
    ensures Valid(AddedToCart(cart, Menu[k])) && FromMenu(AddedToCart(cart, Menu[k]))
  {
    AddPreservesValid(cart, Menu[k].id, DishOf(Menu[k]));
  }

  /** Removing keeps both invariants. */
  lemma RemoveFromCartInvariant(cart: seq<CartItem>, id: string)
    requires Valid(cart) && FromMenu(cart)
    ensures Valid(RemovedFromCart(cart, id)) && FromMenu(RemovedFromCart(cart, id))
  {
    RemovePreservesValid(cart, id);
    var r := RemovedFromCart(cart, id);
    forall i | 0 <= i < |r|
      ensures exists k :: 0 <= k < |Menu| && Menu[k].id == r[i].id && DishOf(Menu[k]) == r[i].info
    {
      match Lookup(cart, id)
      case None =>
      case Some(line) =>
        if line.quantity <= 1 {
          assert r[i] in r;
          var j :| 0 <= j < |cart| && cart[j] == r[i];
        }
    }
  }

  /** Adding a menu dish raises the total by exactly its price, whether the
      dish was already in the cart or not. */
  lemma TotalAfterAdd(cart: seq<CartItem>, k: nat)
    requires Valid(cart) && FromMenu(cart) && k < |Menu|
    ensures TotalPrice(AddedToCart(cart, Menu[k])) == TotalPrice(cart) + Menu[k].price
  {
    var item := Menu[k];
    SumAfterAdd(cart, item.id, DishOf(item), PriceOf);
    match Lookup(cart, item.id)
    case None =>
    case Some(line) =>
      var j :| 0 <= j < |cart| && cart[j] == line;
      var k' :| 0 <= k' < |Menu| && Menu[k'].id == cart[j].id && DishOf(Menu[k']) == cart[j].info;
      MenuWellFormed();
      assert k' == k;
  }

  /** Removing a dish lowers the total by its price when it is in the cart, and not at all otherwise. */
  lemma TotalAfterRemove(cart: seq<CartItem>, id: string)
    requires Valid(cart)
    ensures Lookup(cart, id).Some? ==>
              TotalPrice(RemovedFromCart(cart, id)) == TotalPrice(cart) - Lookup(cart, id).value.info.price
    ensures Lookup(cart, id).None? ==> TotalPrice(RemovedFromCart(cart, id)) == TotalPrice(cart)
  {
    SumAfterRemove(cart, id, PriceOf);
  }

  /** Adding a menu dish and removing it again restores the cart and its total. */
  lemma AddThenRemove(cart: seq<CartItem>, k: nat)
    requires Valid(cart) && k < |Menu|
    ensures RemovedFromCart(AddedToCart(cart, Menu[k]), Menu[k].id) == cart
    ensures TotalPrice(RemovedFromCart(AddedToCart(cart, Menu[k]), Menu[k].id)) == TotalPrice(cart)
  {
    RemoveAfterAdd(cart, Menu[k].id, DishOf(Menu[k]));
  }

  /** A cart of positive prices and quantities has a positive total once it is not empty. */
  lemma {:induction false} TotalPositive(cart: seq<CartItem>)
    requires Valid(cart) && FromMenu(cart)
    ensures cart == [] <==> TotalPrice(cart) == 0
    ensures TotalPrice(cart) >= 0
  {
    if cart != [] {
      TailFromMenu(cart);
      TotalPositive(cart[1..]);
      FromMenuPricePositive(cart, 0);
      var price, quantity := cart[0].info.price, cart[0].quantity;
      assert price * quantity >= price;
      assert TotalPrice(cart) == price * quantity + TotalPrice(cart[1..]);
    }
  }

  /** The tail of a valid menu cart is a valid menu cart. */
  lemma TailFromMenu(cart: seq<CartItem>)
    requires Valid(cart) && FromMenu(cart) && cart != []
    ensures Valid(cart[1..]) && FromMenu(cart[1..])
  {
    var tail := cart[1..];
    forall i | 0 <= i < |tail|
      ensures exists k :: 0 <= k < |Menu| && Menu[k].id == tail[i].id && DishOf(Menu[k]) == tail[i].info
    {
      assert tail[i] == cart[i + 1];
      var k :| 0 <= k < |Menu| && Menu[k].id == cart[i + 1].id && DishOf(Menu[k]) == cart[i + 1].info;
    }
    assert forall i, j :: 0 <= i < j < |tail| ==> tail[i] == cart[i + 1] && tail[j] == cart[j + 1];
  }

  /** Every line of a menu cart carries a positive price. */
  lemma FromMenuPricePositive(cart: seq<CartItem>, i: nat)
    requires FromMenu(cart) && i < |cart|
    ensures cart[i].info.price > 0
  {
    MenuWellFormed();
    var k :| 0 <= k < |Menu| && Menu[k].id == cart[i].id && DishOf(Menu[k]) == cart[i].info;
  }

  /** What `handleCheckout` does: the room-number check comes first, then the empty-cart check. */
  datatype Checkout =
    | RoomNumberRequired
    | EmptyCart
    | OrderPlaced(items: seq<CartItem>, roomNumber: string, totalPrice: int)

  /** The outcome of checkout for a cart and a room-number field. */
  function CheckoutOutcome(cart: seq<CartItem>, roomNumber: string): (o: Checkout)
    ensures o == RoomNumberRequired <==> roomNumber == ""
    ensures o == EmptyCart <==> roomNumber != "" && cart == []
    ensures o.OrderPlaced? <==> roomNumber != "" && cart != []
    ensures o.OrderPlaced? ==> o.items == cart && o.roomNumber == roomNumber && o.totalPrice == TotalPrice(cart)
  {
    if roomNumber == "" then RoomNumberRequired
    else if |cart| == 0 then EmptyCart
    else OrderPlaced(cart, roomNumber, TotalPrice(cart))
  }

  /** A placed order of a cart made from the menu always charges a positive amount. */
  lemma PlacedOrderCharges(cart: seq<CartItem>, roomNumber: string)
    requires Valid(cart) && FromMenu(cart)
    requires CheckoutOutcome(cart, roomNumber).OrderPlaced?
    ensures CheckoutOutcome(cart, roomNumber).totalPrice > 0
  {
    TotalPositive(cart);
  }

  /** The page's state. */
  class CateringPage {
    var cart: seq<CartItem>
    var roomNumber: string

    /** The cart invariants the page keeps. */
    ghost predicate Valid()
      reads this
    {
      Carts.Valid(cart) && FromMenu(cart)
    }

    constructor ()
      ensures cart == [] && roomNumber == ""
      ensures Valid()
    {
      cart := [];
      roomNumber := "";
    }

    /** "Place Order" is disabled while the cart is empty. */
    function PlaceOrderDisabled(): (d: bool)
      reads this
      ensures d <==> cart == []
    {
      |cart| == 0
    }

    /** An "add" button on a menu card. */
    method AddToCart(k: nat)
      requires Valid() && k < |Menu|
      modifies this
      ensures cart == AddedToCart(old(cart), Menu[k]) && roomNumber == old(roomNumber)
      ensures Valid()
      ensures TotalPrice(cart) == TotalPrice(old(cart)) + Menu[k].price
    {
      AddToCartInvariant(cart, k);
      TotalAfterAdd(cart, k);
      cart := AddedToCart(cart, Menu[k]);
    }

    /** The minus button on a cart line. */
    method RemoveFromCart(id: string)
      requires Valid()
      modifies this
      ensures cart == RemovedFromCart(old(cart), id) && roomNumber == old(roomNumber)
      ensures Valid()
    {
      RemoveFromCartInvariant(cart, id);
      cart := RemovedFromCart(cart, id);
    }

    /** `handleCheckout`: on either failure nothing changes; a placed order
        empties the cart and clears the room number. */
    method HandleCheckout() returns (outcome: Checkout)
      modifies this
      ensures outcome == CheckoutOutcome(old(cart), old(roomNumber))
      ensures outcome.OrderPlaced? ==> cart == [] && roomNumber == ""
      ensures !outcome.OrderPlaced? ==> cart == old(cart) && roomNumber == old(roomNumber)
    {
      if roomNumber == "" {
        return RoomNumberRequired;
      }
      if |cart| == 0 {
        return EmptyCart;
      }
      outcome := OrderPlaced(cart, roomNumber, TotalPrice(cart));
      cart := [];
      roomNumber := "";
    }
  }
}
