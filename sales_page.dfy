/** The point-of-sale screen (src/components/wholesaler/SalesPage.tsx): a
    product search, a cart of keyed lines and the checkout guard. */
module SalesPage {

  import opened Types
  import opened Text
  import Seqs

  /** A cart entry: the product as it was when added, plus a quantity. */
  datatype CartLine = CartLine(item: Product, quantity: int)

  datatype CheckoutOutcome = CartEmpty | CustomerMissing | Completed

  // ---------------------------------------------------------------------------
  // The product search.

  /** Name or SKU contains the term ignoring ASCII case, or the barcode contains it verbatim. */
  predicate SearchHit(term: string, p: Product)
  {
    Contains(Lower(p.name), Lower(term)) || Contains(Lower(p.sku), Lower(term)) || Contains(p.barcode, term)
  }

  function SearchResults(products: seq<Product>, term: string): (r: seq<Product>)
    ensures |r| <= |products|
    ensures forall i :: 0 <= i < |r| ==> r[i] in products && SearchHit(term, r[i])
    ensures forall i :: 0 <= i < |products| && SearchHit(term, products[i]) ==> products[i] in r
  {
    Seqs.Filter(products, (p: Product) => SearchHit(term, p))
  }

  /** An empty search shows every product, in order. */
  lemma EmptySearchKeepsAll(products: seq<Product>)
    ensures SearchResults(products, "") == products
  {
    forall i | 0 <= i < |products| ensures SearchHit("", products[i]) {
      assert [] <= products[i].barcode;
    }
    Seqs.FilterKeepsAll(products, (p: Product) => SearchHit("", p));
  }

  // ---------------------------------------------------------------------------
  // The cart as a value.

  /** No two lines share a product id and every quantity is at least one. */
  ghost predicate WellFormed(cart: seq<CartLine>)
  {
    (forall i, j :: 0 <= i < j < |cart| ==> cart[i].item.id != cart[j].item.id)
    && forall i :: 0 <= i < |cart| ==> cart[i].quantity >= 1
  }

  predicate HasLine(cart: seq<CartLine>, id: string)
  {
    exists i :: 0 <= i < |cart| && cart[i].item.id == id
  }

  /** `cart.map(item => item.id === id ? { ...item, quantity: item.quantity + 1 } : item)`. */
  function Bump(cart: seq<CartLine>, id: string): (r: seq<CartLine>)
    ensures |r| == |cart|
    ensures forall i :: 0 <= i < |cart| ==>
      r[i] == if cart[i].item.id == id then cart[i].(quantity := cart[i].quantity + 1) else cart[i]
  {
    if cart == [] then []
    else [if cart[0].item.id == id then cart[0].(quantity := cart[0].quantity + 1) else cart[0]] + Bump(cart[1..], id)
  }

  /** `cart.map(item => item.id === id ? { ...item, quantity } : item)`. */
  function SetQuantity(cart: seq<CartLine>, id: string, quantity: int): (r: seq<CartLine>)
    ensures |r| == |cart|
    ensures forall i :: 0 <= i < |cart| ==>
      r[i] == if cart[i].item.id == id then cart[i].(quantity := quantity) else cart[i]
  {
    if cart == [] then []
    else [if cart[0].item.id == id then cart[0].(quantity := quantity) else cart[0]] + SetQuantity(cart[1..], id, quantity)
  }

  function NotFor(id: string): CartLine -> bool
  {
    (l: CartLine) => l.item.id != id
  }

  /** `cart.filter(item => item.id !== id)`. */
  function Remove(cart: seq<CartLine>, id: string): (r: seq<CartLine>)
    ensures |r| <= |cart|
    ensures forall i :: 0 <= i < |r| ==> r[i].item.id != id && r[i] in cart
    ensures forall i :: 0 <= i < |cart| && cart[i].item.id != id ==> cart[i] in r
  {
    Seqs.Filter(cart, NotFor(id))
  }

  /** `addToCart`: one more of a product already in the cart, or a new line of one. */
  function Add(cart: seq<CartLine>, p: Product): seq<CartLine>
  {
    if HasLine(cart, p.id) then Bump(cart, p.id) else cart + [CartLine(p, 1)]
  }

  /** `updateQuantity`: a quantity of zero or less removes the line. */
  function Update(cart: seq<CartLine>, id: string, quantity: int): (r: seq<CartLine>)
    ensures quantity <= 0 ==> forall i :: 0 <= i < |r| ==> r[i].item.id != id && r[i] in cart
    ensures quantity <= 0 ==> forall i :: 0 <= i < |cart| && cart[i].item.id != id ==> cart[i] in r
    ensures quantity > 0 ==> |r| == |cart| && forall i :: 0 <= i < |cart| ==>
      r[i] == if cart[i].item.id == id then cart[i].(quantity := quantity) else cart[i]
  {
    if quantity <= 0 then Remove(cart, id) else SetQuantity(cart, id, quantity)
  }

  function LineAmount(l: CartLine): real { l.item.price * l.quantity as real }
  function LineQuantity(l: CartLine): int { l.quantity }

  /** Σ price x quantity. */
  function CartTotal(cart: seq<CartLine>): real { Seqs.Sum(cart, LineAmount) }

  /** Σ quantity, the number on the cart button. */
  function CartQuantity(cart: seq<CartLine>): int { Seqs.SumInt(cart, LineQuantity) }

  /** The checkout guard: an empty cart first, then a blank customer name. */
  function Checkout(cart: seq<CartLine>, customerName: string): (r: CheckoutOutcome)
    ensures r == CartEmpty <==> cart == []
    ensures r == CustomerMissing <==> cart != [] && IsBlank(customerName)
    ensures r == Completed <==> cart != [] && !IsBlank(customerName)
  {
    if cart == [] then CartEmpty else if IsBlank(customerName) then CustomerMissing else Completed
  }

  // ---------------------------------------------------------------------------
  // Properties of the cart operations.

  /** Adding a product already in the cart raises that line by one and keeps the length. */
  lemma AddExisting(cart: seq<CartLine>, p: Product, k: int)
    requires 0 <= k < |cart| && cart[k].item.id == p.id
    ensures |Add(cart, p)| == |cart|
    ensures Add(cart, p)[k].quantity == cart[k].quantity + 1 && Add(cart, p)[k].item == cart[k].item
    ensures forall i :: 0 <= i < |cart| && cart[i].item.id != p.id ==> Add(cart, p)[i] == cart[i]
  {
  }

  /** Adding a product not in the cart appends one line of quantity one. */
  lemma AddNew(cart: seq<CartLine>, p: Product)
    requires forall i :: 0 <= i < |cart| ==> cart[i].item.id != p.id
    ensures Add(cart, p) == cart + [CartLine(p, 1)]
  {
  }

  lemma AddKeepsWellFormed(cart: seq<CartLine>, p: Product)
    requires WellFormed(cart)
    ensures WellFormed(Add(cart, p))
  {
  }

  lemma {:induction false} RemoveKeepsWellFormed(cart: seq<CartLine>, id: string)
    requires WellFormed(cart)
    ensures WellFormed(Remove(cart, id))
  {
    if cart != [] {
      RemoveKeepsWellFormed(cart[1..], id);
      var rest := Remove(cart[1..], id);
      assert forall i :: 0 <= i < |rest| ==> rest[i] in cart[1..];
      if cart[0].item.id != id {
        assert Remove(cart, id) == [cart[0]] + rest;
      } else {
        assert Remove(cart, id) == rest;
      }
    }
  }

  lemma UpdateKeepsWellFormed(cart: seq<CartLine>, id: string, quantity: int)
    requires WellFormed(cart)
    ensures WellFormed(Update(cart, id, quantity))
  {
    if quantity <= 0 {
      RemoveKeepsWellFormed(cart, id);
    }
  }

  /** `updateQuantity` with a positive quantity sets exactly that line. */
  lemma UpdateSets(cart: seq<CartLine>, id: string, quantity: int, i: int)
    requires quantity > 0 && 0 <= i < |cart|
    ensures |Update(cart, id, quantity)| == |cart|
    ensures cart[i].item.id == id ==> Update(cart, id, quantity)[i] == cart[i].(quantity := quantity)
    ensures cart[i].item.id != id ==> Update(cart, id, quantity)[i] == cart[i]
  {
  }

  /** Every add raises the item count by exactly one. */
  lemma {:induction false} AddCountsOne(cart: seq<CartLine>, p: Product)
    requires WellFormed(cart)
    ensures CartQuantity(Add(cart, p)) == CartQuantity(cart) + 1
  {
    if HasLine(cart, p.id) {
      BumpCountsOne(cart, p.id);
    } else {
      Seqs.SumIntAppend(cart, [CartLine(p, 1)], LineQuantity);
    }
  }

  lemma {:induction false} BumpCountsOne(cart: seq<CartLine>, id: string)
    requires WellFormed(cart) && HasLine(cart, id)
    ensures CartQuantity(Bump(cart, id)) == CartQuantity(cart) + 1
  {
    var b := Bump(cart, id);
    assert b[1..] == Bump(cart[1..], id);
    if cart[0].item.id == id {
      assert forall i :: 0 <= i < |cart[1..]| ==> cart[1..][i].item.id != id;
      BumpAbsent(cart[1..], id);
    } else {
      BumpCountsOne(cart[1..], id);
    }
  }

  lemma {:induction false} BumpAbsent(cart: seq<CartLine>, id: string)
    requires forall i :: 0 <= i < |cart| ==> cart[i].item.id != id
    ensures Bump(cart, id) == cart
  {
    if cart != [] {
      BumpAbsent(cart[1..], id);
    }
  }

  /** Removing a line takes its quantity and its amount off the totals. */
  lemma {:induction false} RemoveSubtracts(cart: seq<CartLine>, id: string, k: int)
    requires WellFormed(cart)
    requires 0 <= k < |cart| && cart[k].item.id == id
    ensures CartQuantity(Remove(cart, id)) == CartQuantity(cart) - cart[k].quantity
    ensures CartTotal(Remove(cart, id)) == CartTotal(cart) - LineAmount(cart[k])
  {
    if k == 0 {
      assert forall i :: 0 <= i < |cart[1..]| ==> NotFor(id)(cart[1..][i]);
      Seqs.FilterKeepsAll(cart[1..], NotFor(id));
      assert Remove(cart, id) == cart[1..];
    } else {
      assert cart[0].item.id != id;
      var rest := Remove(cart[1..], id);
      assert Remove(cart, id) == [cart[0]] + rest;
      assert ([cart[0]] + rest)[1..] == rest;
      RemoveSubtracts(cart[1..], id, k - 1);
    }
  }

  /** One more line adds its amount to the total and its quantity to the count. */
  lemma CartTotalsAppend(cart: seq<CartLine>, l: CartLine)
    ensures CartTotal(cart + [l]) == CartTotal(cart) + l.item.price * l.quantity as real
    ensures CartQuantity(cart + [l]) == CartQuantity(cart) + l.quantity
  {
    Seqs.SumAppend(cart, [l], LineAmount);
    Seqs.SumIntAppend(cart, [l], LineQuantity);
    assert [l][1..] == [];
  }

  /** A quick sale leaves a cart of exactly that product, once. */
  lemma QuickSaleTotals(p: Product)
    ensures CartQuantity([CartLine(p, 1)]) == 1 && CartTotal([CartLine(p, 1)]) == p.price
    ensures WellFormed([CartLine(p, 1)])
  {
    var c := [CartLine(p, 1)];
    assert c[1..] == [];
    assert Seqs.SumInt(c, LineQuantity) == LineQuantity(c[0]) + Seqs.SumInt(c[1..], LineQuantity);
    assert Seqs.Sum(c, LineAmount) == LineAmount(c[0]) + Seqs.Sum(c[1..], LineAmount);
  }

  // ---------------------------------------------------------------------------
  // The page state.

  class Register {
    var cart: seq<CartLine>
    var customerName: string
    var showCart: bool

    ghost predicate Valid()
      reads this
    {
      WellFormed(cart)
    }

    constructor ()
      ensures Valid() && cart == [] && customerName == "" && !showCart
    {
      cart := [];
      customerName := "";
      showCart := false;
    }

    method AddToCart(product: Product)
      requires Valid()
      modifies this
      ensures Valid()
      ensures cart == Add(old(cart), product)
      ensures customerName == old(customerName) && showCart == old(showCart)
    {
      AddKeepsWellFormed(cart, product);
      if HasLine(cart, product.id) {
        cart := Bump(cart, product.id);
      } else {
        cart := cart + [CartLine(product, 1)];
      }
    }

    method UpdateQuantity(id: string, quantity: int)
      requires Valid()
      modifies this
      ensures Valid()
      ensures cart == Update(old(cart), id, quantity)
      ensures customerName == old(customerName) && showCart == old(showCart)
    {
      UpdateKeepsWellFormed(cart, id, quantity);
      if quantity <= 0 {
        cart := Remove(cart, id);
      } else {
        cart := SetQuantity(cart, id, quantity);
      }
    }

    method RemoveFromCart(id: string)
      requires Valid()
      modifies this
      ensures Valid()
      ensures cart == Remove(old(cart), id)
      ensures customerName == old(customerName) && showCart == old(showCart)
    {
      RemoveKeepsWellFormed(cart, id);
      cart := Remove(cart, id);
    }

    /** Completing a sale empties the cart and the customer name and hides the cart;
        a refused checkout changes nothing. */
    method HandleCheckout() returns (outcome: CheckoutOutcome)
      requires Valid()
      modifies this
      ensures Valid()
      ensures outcome == Checkout(old(cart), old(customerName))
      ensures outcome == Completed ==> cart == [] && customerName == "" && !showCart
      ensures outcome != Completed ==>
        cart == old(cart) && customerName == old(customerName) && showCart == old(showCart)
    {
      if |cart| == 0 {
        return CartEmpty;
      }
      if IsBlank(customerName) {
        return CustomerMissing;
      }
      cart := [];
      customerName := "";
      showCart := false;
      outcome := Completed;
    }

    method HandleQuickSale(product: Product)
      modifies this
      ensures Valid()
      ensures cart == [CartLine(product, 1)] && showCart
      ensures customerName == old(customerName)
    {
      cart := [CartLine(product, 1)];
      showCart := true;
    }
  }
}
