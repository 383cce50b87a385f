/**
 * The client-side shopping cart of src/app/services/cart.service.ts: a list
 * of product snapshots with quantities, updated in place by the service's
 * methods and copied to local storage after every change.
 *
 * The pure functions below (AddedCart, IncrementedCart, ...) say what each
 * operation does to the list of entries; the class CartService performs the
 * operations step by step and is proved to agree with them; the lemmas state
 * what the source promises about the functions.
 */
module Cart {
  import opened Wrappers

  /** The product snapshot the client keeps (the `Product` type of the service). */
  datatype Product = Product(
    id: int,
    name: string,
    price: int,          // in cents
    imgUrls: string,
    description: string,
    category: seq<string>)

  /** A cart entry: a product snapshot together with its quantity. */
  datatype CartProduct = CartProduct(product: Product, quantity: int)

  // ---------------------------------------------------------------------------
  // Properties of a list of entries

  predicate HasId(cart: seq<CartProduct>, id: int) {
    exists j :: 0 <= j < |cart| && cart[j].product.id == id
  }

  /** No two entries share a product id. */
  ghost predicate DistinctIds(cart: seq<CartProduct>) {
    forall i, j :: 0 <= i < j < |cart| ==> cart[i].product.id != cart[j].product.id
  }

  /** Every quantity is at least one. */
  ghost predicate PositiveQuantities(cart: seq<CartProduct>) {
    forall i :: 0 <= i < |cart| ==> cart[i].quantity >= 1
  }

  /**
   * The shape every cart built by the service's own methods has. A cart read
   * back from storage is not checked against it, so the lemmas below take it
   * as a precondition.
   */
  ghost predicate WellFormed(cart: seq<CartProduct>) {
    DistinctIds(cart) && PositiveQuantities(cart)
  }

  // ---------------------------------------------------------------------------
  // Folds (`reduce` from the left)

  function Quantity(e: CartProduct): int { e.quantity }

  function LineTotal(e: CartProduct): int { e.product.price * e.quantity }

  /** The left fold `reduce((acc, e) => acc + w(e), 0)`. */
  function Sum(cart: seq<CartProduct>, w: CartProduct -> int): int {
    if cart == [] then 0 else Sum(cart[..|cart| - 1], w) + w(cart[|cart| - 1])
  }

  /** `getCartItemCount`: the sum of the quantities. */
  function ItemCount(cart: seq<CartProduct>): int { Sum(cart, Quantity) }

  /** `getTotal`: the sum of price times quantity. */
  function Total(cart: seq<CartProduct>): int { Sum(cart, LineTotal) }

  // ---------------------------------------------------------------------------
  // What each operation does to the list

  /** The index `Array.prototype.find` stops at: the first entry with `id`. */
  function FindIndex(cart: seq<CartProduct>, id: int): (r: Option<nat>)
    ensures r.Some? ==> r.value < |cart| && cart[r.value].product.id == id
    ensures forall j :: 0 <= j < |cart| && (r.None? || j < r.value) ==> cart[j].product.id != id
    ensures r.None? <==> !HasId(cart, id)
  {
    if cart == [] then None
    else if cart[0].product.id == id then Some(0)
    else
      match FindIndex(cart[1..], id)
      case None => None
      case Some(i) => Some(i + 1)
  }

  /** The entry at `i` with its quantity changed by `delta`, the rest as it was. */
  function Bumped(cart: seq<CartProduct>, i: nat, delta: int): seq<CartProduct>
    requires i < |cart|
  {
    cart[i := cart[i].(quantity := cart[i].quantity + delta)]
  }

  /**
   * `filter((item) => item._id !== id)`. It is written from the end, not
   * with `Seqs.Filter`, so that one more element of the input extends the
   * result by at most that element, which is the step of the loop in
   * `DeleteProduct` and matches the shape of `Sum`.
   */
  function Without(cart: seq<CartProduct>, id: int): seq<CartProduct> {
    if cart == [] then []
    else
      var last := cart[|cart| - 1];
      Without(cart[..|cart| - 1], id) + (if last.product.id != id then [last] else [])
  }

  /** `addToCart(product)`. */
  function AddedCart(cart: seq<CartProduct>, product: Product): (r: seq<CartProduct>)
    ensures |r| == |cart| + (if HasId(cart, product.id) then 0 else 1)
    ensures HasId(r, product.id)
  {
    match FindIndex(cart, product.id)
    case Some(i) =>
      assert Bumped(cart, i, 1)[i].product.id == product.id;
      Bumped(cart, i, 1)
    case None =>
      assert (cart + [CartProduct(product, 1)])[|cart|].product.id == product.id;
      cart + [CartProduct(product, 1)]
  }

  /** `incrementProduct(id)`. */
  function IncrementedCart(cart: seq<CartProduct>, id: int): (r: seq<CartProduct>)
    ensures |r| == |cart|
    ensures forall k :: 0 <= k < |r| ==> r[k].product == cart[k].product
  {
    match FindIndex(cart, id)
    case Some(i) => Bumped(cart, i, 1)
    case None => cart
  }

  /**
   * `decrementProduct(id)`: lower the first entry with `id`; once its
   * quantity is at most zero, `deleteProduct` drops every entry with that id.
   */
  function DecrementedCart(cart: seq<CartProduct>, id: int): (r: seq<CartProduct>)
    ensures |r| <= |cart|
  {
    match FindIndex(cart, id)
    case Some(i) =>
      if cart[i].quantity - 1 <= 0 then
        WithoutLength(Bumped(cart, i, -1), id);
        Without(Bumped(cart, i, -1), id)
      else Bumped(cart, i, -1)
    case None => cart
  }

  // ---------------------------------------------------------------------------
  // Lemmas about the folds

  lemma {:induction false} SumConcat(a: seq<CartProduct>, b: seq<CartProduct>, w: CartProduct -> int)
    ensures Sum(a + b, w) == Sum(a, w) + Sum(b, w)
  {
    if b == [] {
      assert a + b == a;
    } else {
      var b' := b[..|b| - 1];
      assert (a + b)[..|a + b| - 1] == a + b';
      SumConcat(a, b', w);
    }
  }

  lemma SumSingle(e: CartProduct, w: CartProduct -> int)
    ensures Sum([e], w) == w(e)
  {
    assert [e][..0] == [];
  }

  lemma SumSplice(head: seq<CartProduct>, e: CartProduct, tail: seq<CartProduct>, w: CartProduct -> int)
    ensures Sum(head + [e] + tail, w) == Sum(head, w) + w(e) + Sum(tail, w)
  {
    SumConcat(head + [e], tail, w);
    SumConcat(head, [e], w);
    SumSingle(e, w);
  }

  /** Replacing one entry changes the fold by the difference of the two weights. */
  lemma SumUpdate(cart: seq<CartProduct>, i: nat, e: CartProduct, w: CartProduct -> int)
    requires i < |cart|
    ensures Sum(cart[i := e], w) == Sum(cart, w) - w(cart[i]) + w(e)
  {
    var head, tail := cart[..i], cart[i + 1..];
    assert cart == head + [cart[i]] + tail;
    assert cart[i := e] == head + [e] + tail;
    SumSplice(head, cart[i], tail, w);
    SumSplice(head, e, tail, w);
  }

  /** Removing one entry lowers the fold by its weight. */
  lemma SumRemove(cart: seq<CartProduct>, i: nat, w: CartProduct -> int)
    requires i < |cart|
    ensures Sum(cart[..i] + cart[i + 1..], w) == Sum(cart, w) - w(cart[i])
  {
    SpliceAt(cart, i);
    SumRemoveSplice(cart[..i], cart[i], cart[i + 1..], w);
  }

  lemma SpliceAt(cart: seq<CartProduct>, i: nat)
    requires i < |cart|
    ensures cart[..i] + [cart[i]] + cart[i + 1..] == cart
  {
  }

  lemma SumRemoveSplice(head: seq<CartProduct>, e: CartProduct, tail: seq<CartProduct>, w: CartProduct -> int)
    ensures Sum(head + tail, w) == Sum(head + [e] + tail, w) - w(e)
  {
    SumSplice(head, e, tail, w);
    SumConcat(head, tail, w);
  }

  // ---------------------------------------------------------------------------
  // Lemmas about the filter

  lemma {:induction false} WithoutConcat(a: seq<CartProduct>, b: seq<CartProduct>, id: int)
    ensures Without(a + b, id) == Without(a, id) + Without(b, id)
  {
    if b == [] {
      assert a + b == a;
    } else {
      var b' := b[..|b| - 1];
      assert (a + b)[..|a + b| - 1] == a + b';
      WithoutConcat(a, b', id);
    }
  }

  lemma {:induction false} WithoutNoMatch(cart: seq<CartProduct>, id: int)
    requires !HasId(cart, id)
    ensures Without(cart, id) == cart
  {
    if cart != [] {
      var n := |cart| - 1;
      assert cart[n].product.id != id;
      assert !HasId(cart[..n], id) by {
        forall j | 0 <= j < n ensures cart[..n][j].product.id != id {
          assert cart[..n][j] == cart[j];
        }
      }
      WithoutNoMatch(cart[..n], id);
      assert cart == cart[..n] + [cart[n]];
    }
  }

  /**
   * `deleteProduct` keeps exactly the entries whose id differs, in their
   * original order: the filter distributes over concatenation and keeps or
   * drops each single entry by its id.
   */
  lemma {:induction false} WithoutKeepsOrder(a: seq<CartProduct>, b: seq<CartProduct>, e: CartProduct, id: int)
    ensures Without(a + b, id) == Without(a, id) + Without(b, id)
    ensures Without([e], id) == if e.product.id == id then [] else [e]
  {
    WithoutConcat(a, b, id);
    assert [e][..0] == [];
  }

  /** An entry survives the filter if and only if it was there and has another id. */
  lemma {:induction false} WithoutMembers(cart: seq<CartProduct>, id: int, e: CartProduct)
    ensures e in Without(cart, id) <==> e in cart && e.product.id != id
  {
    if cart != [] {
      var n := |cart| - 1;
      WithoutMembers(cart[..n], id, e);
      assert cart == cart[..n] + [cart[n]];
    }
  }

  /** No entry with `id` is left. */
  lemma WithoutRemovesAll(cart: seq<CartProduct>, id: int)
    ensures !HasId(Without(cart, id), id)
    ensures |Without(cart, id)| <= |cart|
  {
    WithoutLength(cart, id);
    var r := Without(cart, id);
    forall j | 0 <= j < |r| ensures r[j].product.id != id {
      WithoutMembers(cart, id, r[j]);
    }
  }

  lemma {:induction false} WithoutLength(cart: seq<CartProduct>, id: int)
    ensures |Without(cart, id)| <= |cart|
  {
    if cart != [] {
      WithoutLength(cart[..|cart| - 1], id);
    }
  }

  /** In a cart with distinct ids, the id at `i` occurs nowhere else. */
  lemma IdOnlyAt(cart: seq<CartProduct>, i: nat)
    requires DistinctIds(cart)
    requires i < |cart|
    ensures !HasId(cart[..i], cart[i].product.id)
    ensures !HasId(cart[i + 1..], cart[i].product.id)
  {
    var head, tail := cart[..i], cart[i + 1..];
    forall j | 0 <= j < |head| ensures head[j].product.id != cart[i].product.id {
      assert head[j] == cart[j];
    }
    forall j | 0 <= j < |tail| ensures tail[j].product.id != cart[i].product.id {
      assert tail[j] == cart[i + 1 + j];
    }
  }

  /** In a cart with distinct ids, deleting the id at `i` removes just that entry. */
  lemma WithoutDistinct(cart: seq<CartProduct>, i: nat)
    requires DistinctIds(cart)
    requires i < |cart|
    ensures Without(cart, cart[i].product.id) == cart[..i] + cart[i + 1..]
  {
    IdOnlyAt(cart, i);
    WithoutOnlyAt(cart[..i], cart[i], cart[i + 1..]);
    assert cart == cart[..i] + [cart[i]] + cart[i + 1..];
  }

  lemma WithoutOnlyAt(head: seq<CartProduct>, e: CartProduct, tail: seq<CartProduct>)
    requires !HasId(head, e.product.id) && !HasId(tail, e.product.id)
    ensures Without(head + [e] + tail, e.product.id) == head + tail
  {
    var id := e.product.id;
    WithoutConcat(head + [e], tail, id);
    WithoutConcat(head, [e], id);
    assert Without([e], id) == [] by {
      assert [e][..0] == [];
    }
    WithoutNoMatch(head, id);
    WithoutNoMatch(tail, id);
    assert Without(head + [e], id) == head;
  }

  /** The filter does not look at the quantity of the entries it drops. */
  lemma WithoutIgnoresDropped(cart: seq<CartProduct>, i: nat, e: CartProduct)
    requires i < |cart|
    requires e.product.id == cart[i].product.id
    ensures Without(cart[i := e], e.product.id) == Without(cart, e.product.id)
  {
    var id := e.product.id;
    assert cart == cart[..i] + [cart[i]] + cart[i + 1..];
    assert cart[i := e] == cart[..i] + [e] + cart[i + 1..];
    WithoutKeepsOrder(cart[..i] + [cart[i]], cart[i + 1..], cart[i], id);
    WithoutKeepsOrder(cart[..i] + [e], cart[i + 1..], e, id);
    WithoutKeepsOrder(cart[..i], [cart[i]], cart[i], id);
    WithoutKeepsOrder(cart[..i], [e], e, id);
  }

  /** Filtering keeps a cart well formed. */
  lemma {:induction false} WithoutWellFormed(cart: seq<CartProduct>, id: int)
    requires WellFormed(cart)
    ensures WellFormed(Without(cart, id))
  {
    if cart != [] {
      var n := |cart| - 1;
      var last := cart[n];
      WithoutWellFormed(cart[..n], id);
      var w := Without(cart[..n], id);
      if last.product.id != id {
        forall j | 0 <= j < |w| ensures w[j].product.id != last.product.id {
          WithoutMembers(cart[..n], id, w[j]);
          var k :| 0 <= k < n && cart[..n][k] == w[j];
          assert cart[k] == w[j];
        }
        assert Without(cart, id) == w + [last];
      }
    }
  }

  // ---------------------------------------------------------------------------
  // Lemmas about the operations

  /** Adding a product whose id is not in the cart appends one entry with quantity 1. */
  lemma AddNewAppends(cart: seq<CartProduct>, product: Product)
    requires !HasId(cart, product.id)
    ensures |AddedCart(cart, product)| == |cart| + 1
    ensures AddedCart(cart, product)[..|cart|] == cart
    ensures AddedCart(cart, product)[|cart|] == CartProduct(product, 1)
  {
  }

  /**
   * Adding a product whose id is at `i` raises that entry's quantity by one
   * and keeps its stored snapshot, even if the argument's fields differ.
   */
  lemma AddExistingBumps(cart: seq<CartProduct>, product: Product, i: nat)
    requires DistinctIds(cart)
    requires i < |cart| && cart[i].product.id == product.id
    ensures |AddedCart(cart, product)| == |cart|
    ensures AddedCart(cart, product)[i].product == cart[i].product
    ensures AddedCart(cart, product)[i].quantity == cart[i].quantity + 1
    ensures forall j :: 0 <= j < |cart| && j != i ==> AddedCart(cart, product)[j] == cart[j]
  {
    assert FindIndex(cart, product.id) == Some(i);
  }

  /** Incrementing the id at `i` raises that entry's quantity by one and changes nothing else. */
  lemma IncrementPresentBumps(cart: seq<CartProduct>, i: nat)
    requires DistinctIds(cart)
    requires i < |cart|
    ensures |IncrementedCart(cart, cart[i].product.id)| == |cart|
    ensures IncrementedCart(cart, cart[i].product.id)[i] == cart[i].(quantity := cart[i].quantity + 1)
    ensures forall j :: 0 <= j < |cart| && j != i ==> IncrementedCart(cart, cart[i].product.id)[j] == cart[j]
  {
    assert FindIndex(cart, cart[i].product.id) == Some(i);
  }

  /** Incrementing or decrementing an id that is not in the cart changes nothing. */
  lemma AbsentIdUnchanged(cart: seq<CartProduct>, id: int)
    requires !HasId(cart, id)
    ensures IncrementedCart(cart, id) == cart
    ensures DecrementedCart(cart, id) == cart
  {
  }

  /** Decrementing an entry with quantity 1 removes that entry and nothing else. */
  lemma DecrementAtOneRemoves(cart: seq<CartProduct>, i: nat)
    requires DistinctIds(cart)
    requires i < |cart| && cart[i].quantity == 1
    ensures DecrementedCart(cart, cart[i].product.id) == cart[..i] + cart[i + 1..]
  {
    var id := cart[i].product.id;
    assert FindIndex(cart, id) == Some(i);
    var lowered := cart[i].(quantity := 0);
    WithoutIgnoresDropped(cart, i, lowered);
    WithoutDistinct(cart, i);
  }

  /** Decrementing an entry with quantity above 1 lowers it by exactly one. */
  lemma DecrementAboveOneLowers(cart: seq<CartProduct>, i: nat)
    requires DistinctIds(cart)
    requires i < |cart| && cart[i].quantity > 1
    ensures |DecrementedCart(cart, cart[i].product.id)| == |cart|
    ensures DecrementedCart(cart, cart[i].product.id)[i] == cart[i].(quantity := cart[i].quantity - 1)
    ensures forall j :: 0 <= j < |cart| && j != i ==> DecrementedCart(cart, cart[i].product.id)[j] == cart[j]
  {
    var id := cart[i].product.id;
    assert FindIndex(cart, id) == Some(i);
  }

  lemma BumpedWellFormed(cart: seq<CartProduct>, i: nat)
    requires WellFormed(cart) && i < |cart|
    ensures WellFormed(Bumped(cart, i, 1))
  {
    var r := Bumped(cart, i, 1);
    assert forall j :: 0 <= j < |cart| ==> r[j].product == cart[j].product;
  }

  lemma AddPreservesWellFormed(cart: seq<CartProduct>, product: Product)
    requires WellFormed(cart)
    ensures WellFormed(AddedCart(cart, product))
  {
    match FindIndex(cart, product.id)
    case Some(i) => BumpedWellFormed(cart, i);
    case None =>
  }

  lemma IncrementPreservesWellFormed(cart: seq<CartProduct>, id: int)
    requires WellFormed(cart)
    ensures WellFormed(IncrementedCart(cart, id))
  {
    match FindIndex(cart, id)
    case Some(i) => BumpedWellFormed(cart, i);
    case None =>
  }

  lemma DecrementPreservesWellFormed(cart: seq<CartProduct>, id: int)
    requires WellFormed(cart)
    ensures WellFormed(DecrementedCart(cart, id))
  {
    match FindIndex(cart, id)
    case Some(i) =>
      WithoutIgnoresDropped(cart, i, cart[i].(quantity := cart[i].quantity - 1));
      WithoutWellFormed(cart, id);
      var r := Bumped(cart, i, -1);
      assert forall j :: 0 <= j < |cart| ==> r[j].product == cart[j].product;
    case None =>
  }

  lemma DeletePreservesWellFormed(cart: seq<CartProduct>, product: Product)
    requires WellFormed(cart)
    ensures WellFormed(Without(cart, product.id))
  {
    WithoutWellFormed(cart, product.id);
  }

  /** `addToCart` raises the item count by one, whether it appends or bumps. */
  lemma AddRaisesCount(cart: seq<CartProduct>, product: Product)
    ensures ItemCount(AddedCart(cart, product)) == ItemCount(cart) + 1
  {
    match FindIndex(cart, product.id)
    case Some(i) =>
      SumUpdate(cart, i, cart[i].(quantity := cart[i].quantity + 1), Quantity);
    case None =>
      SumConcat(cart, [CartProduct(product, 1)], Quantity);
      SumSingle(CartProduct(product, 1), Quantity);
  }

  /**
   * `addToCart` raises the total by one unit price: that of the snapshot
   * already in the cart when the id is present, else that of the argument.
   */
  lemma AddRaisesTotal(cart: seq<CartProduct>, product: Product)
    ensures Total(AddedCart(cart, product)) ==
      Total(cart) + match FindIndex(cart, product.id)
                    case Some(i) => cart[i].product.price
                    case None => product.price
  {
    match FindIndex(cart, product.id)
    case Some(i) =>
      var e := cart[i];
      SumUpdate(cart, i, e.(quantity := e.quantity + 1), LineTotal);
      assert LineTotal(e.(quantity := e.quantity + 1)) == LineTotal(e) + e.product.price;
    case None =>
      SumConcat(cart, [CartProduct(product, 1)], LineTotal);
      SumSingle(CartProduct(product, 1), LineTotal);
  }

  /** `incrementProduct` raises the item count by one when the id is present. */
  lemma IncrementRaisesCount(cart: seq<CartProduct>, id: int)
    ensures ItemCount(IncrementedCart(cart, id)) == ItemCount(cart) + (if HasId(cart, id) then 1 else 0)
  {
    match FindIndex(cart, id)
    case Some(i) =>
      SumUpdate(cart, i, cart[i].(quantity := cart[i].quantity + 1), Quantity);
    case None =>
  }

  /** In a well-formed cart `decrementProduct` lowers the item count by one when the id is present. */
  lemma DecrementLowersCount(cart: seq<CartProduct>, id: int)
    requires WellFormed(cart)
    ensures ItemCount(DecrementedCart(cart, id)) == ItemCount(cart) - (if HasId(cart, id) then 1 else 0)
  {
    match FindIndex(cart, id)
    case Some(i) =>
      if cart[i].quantity == 1 {
        DecrementAtOneRemoves(cart, i);
        SumRemove(cart, i, Quantity);
      } else {
        SumUpdate(cart, i, cart[i].(quantity := cart[i].quantity - 1), Quantity);
      }
    case None =>
  }

  // ---------------------------------------------------------------------------
  // The service

  class CartService {
    /** The entries, in the order they were first added. */
    var cart: seq<CartProduct>
    /** What local storage holds under the key 'cart'. */
    ghost var persisted: seq<CartProduct>

    /** Local storage mirrors the in-memory cart. */
    ghost predicate Valid()
      reads this
    {
      persisted == cart
    }

    /**
     * Loads the cart from storage; nothing stored means an empty cart. The
     * loaded list is taken as it is, unchecked.
     */
    constructor (stored: Option<seq<CartProduct>>)
      ensures Valid()
      ensures cart == stored.GetOr([])
    {
      cart := stored.GetOr([]);
      // Nothing is written here: a missing key reads back as '[]', so an
      // empty `persisted` is what storage already means.
      persisted := stored.GetOr([]);
    }

    /** `saveCartToLocalStorage`: copies the whole cart to storage. */
    method SaveCartToLocalStorage()
      modifies this`persisted
      ensures Valid()
    {
      persisted := cart;
    }

    /** `this.cart.find((item) => item._id === id)`, as the index of the entry found. */
    method Find(id: int) returns (r: Option<nat>)
      ensures r.Some? ==> r.value < |cart| && cart[r.value].product.id == id
      ensures r.Some? ==> forall j :: 0 <= j < r.value ==> cart[j].product.id != id
      ensures r.None? <==> !HasId(cart, id)
    {
      var k := 0;
      while k < |cart| && cart[k].product.id != id
        invariant 0 <= k <= |cart|
        invariant forall j :: 0 <= j < k ==> cart[j].product.id != id
      {
        k := k + 1;
      }
      r := if k < |cart| then Some(k) else None;
    }

    method AddToCart(product: Product)
      requires Valid()
      modifies this
      ensures Valid()
      ensures cart == AddedCart(old(cart), product)
    {
      var found := Find(product.id);
      assert found == FindIndex(cart, product.id) by { FindAgrees(cart, product.id, found); }
      if found.Some? {
        var i := found.value;
        cart := cart[i := cart[i].(quantity := cart[i].quantity + 1)];
      } else {
        cart := cart + [CartProduct(product, 1)];
      }
      SaveCartToLocalStorage();
    }

    /** `getCartItemCount`. */
    method GetCartItemCount() returns (count: int)
      ensures count == ItemCount(cart)
    {
      count := 0;
      var k := 0;
      while k < |cart|
        invariant 0 <= k <= |cart|
        invariant count == ItemCount(cart[..k])
      {
        assert cart[..k + 1][..k] == cart[..k];
        count := count + cart[k].quantity;
        k := k + 1;
      }
      assert cart[..k] == cart;
    }

    method IncrementProduct(id: int)
      requires Valid()
      modifies this
      ensures Valid()
      ensures cart == IncrementedCart(old(cart), id)
      ensures !HasId(old(cart), id) ==> unchanged(this)
    {
      var found := Find(id);
      assert found == FindIndex(cart, id) by { FindAgrees(cart, id, found); }
      if found.Some? {
        var i := found.value;
        cart := cart[i := cart[i].(quantity := cart[i].quantity + 1)];
        SaveCartToLocalStorage();
      }
    }

    method DecrementProduct(id: int)
      requires Valid()
      modifies this
      ensures Valid()
      ensures cart == DecrementedCart(old(cart), id)
      ensures !HasId(old(cart), id) ==> unchanged(this)
    {
      var found := Find(id);
      assert found == FindIndex(cart, id) by { FindAgrees(cart, id, found); }
      if found.Some? {
        var i := found.value;
        cart := cart[i := cart[i].(quantity := cart[i].quantity - 1)];
        if cart[i].quantity <= 0 {
          DeleteProduct(cart[i].product);
        }
        SaveCartToLocalStorage();
      }
    }

    method DeleteProduct(product: Product)
      modifies this
      ensures Valid()
      ensures cart == Without(old(cart), product.id)
    {
      var kept: seq<CartProduct> := [];
      var k := 0;
      while k < |cart|
        invariant 0 <= k <= |cart|
        invariant kept == Without(cart[..k], product.id)
      {
        assert cart[..k + 1][..k] == cart[..k];
        if cart[k].product.id != product.id {
          kept := kept + [cart[k]];
        }
        k := k + 1;
      }
      assert cart[..k] == cart;
      cart := kept;
      SaveCartToLocalStorage();
    }

    /** `getTotal`. */
    method GetTotal() returns (total: int)
      ensures total == Total(cart)
    {
      total := 0;
      var k := 0;
      while k < |cart|
        invariant 0 <= k <= |cart|
        invariant total == Total(cart[..k])
      {
        assert cart[..k + 1][..k] == cart[..k];
        total := total + cart[k].product.price * cart[k].quantity;
        k := k + 1;
      }
      assert cart[..k] == cart;
    }
  }

  /** What `Find` returns is the index `FindIndex` names. */
  lemma FindAgrees(cart: seq<CartProduct>, id: int, r: Option<nat>)
    requires r.Some? ==> r.value < |cart| && cart[r.value].product.id == id
    requires r.Some? ==> forall j :: 0 <= j < r.value ==> cart[j].product.id != id
    requires r.None? <==> !HasId(cart, id)
    ensures r == FindIndex(cart, id)
  {
  }

  /**
   * A fresh session with an empty store: adding a 10.00 product twice and a
   * 5.00 product once gives two entries, three items and a total of 25.00.
   */
  method TwoProductsScenario(a: Product, b: Product) returns (entries: nat, count: int, total: int)
    requires a.id != b.id && a.price == 1000 && b.price == 500
    ensures entries == 2 && count == 3 && total == 2500
  {
    var service := new CartService(None);
    service.AddToCart(a);
    service.AddToCart(a);
    service.AddToCart(b);
    entries := |service.cart|;
    count := service.GetCartItemCount();
    total := service.GetTotal();
    var c := [CartProduct(a, 2), CartProduct(b, 1)];
    assert service.cart == c;
    assert c[..1] == [CartProduct(a, 2)];
    SumSingle(CartProduct(a, 2), Quantity);
    SumSingle(CartProduct(a, 2), LineTotal);
    assert ItemCount(c) == Sum(c[..1], Quantity) + 1;
    assert Total(c) == Sum(c[..1], LineTotal) + 500;
  }
}
