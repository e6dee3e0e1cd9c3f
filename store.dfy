/**
 * The client store (`frontend/store/useStore.ts`): a local cart and
 * wishlist keyed by product id, the signed-in user with the flags of the
 * auth flow, and the part of the state that is persisted across reloads.
 * Every action is atomic; API calls are represented by their outcome.
 */
module Store {
  import opened Wrappers
  import Api

  datatype Product = Product(id: int, name: string, price: real, discount: int, salePrice: real,
                             reviewsCount: int, rating: real, image: string)

  /** A product with a quantity (`{ ...product, quantity }`). */
  datatype CartItem = CartItem(product: Product, quantity: int)

  datatype Role = Customer | Admin | Seller

  datatype User = User(id: string, email: string, firstName: string, lastName: string, role: Role, avatar: Option<string>)

  // ---------- cart ----------

  predicate InCart(cart: seq<CartItem>, id: int)
  {
    exists i :: 0 <= i < |cart| && cart[i].product.id == id
  }

  /** No two items share a product id. */
  ghost predicate DistinctIds(cart: seq<CartItem>)
  {
    forall i, j :: 0 <= i < j < |cart| ==> cart[i].product.id != cart[j].product.id
  }

  /** `cart.map(item => item.id === id ? { ...item, quantity: f(item.quantity) } : item)`. */
  function MapQuantity(cart: seq<CartItem>, id: int, add: bool, q: int): (r: seq<CartItem>)
    ensures |r| == |cart|
    ensures forall i :: 0 <= i < |cart| ==> r[i].product == cart[i].product
    ensures forall i :: 0 <= i < |cart| ==>
              r[i].quantity == if cart[i].product.id != id then cart[i].quantity
                               else if add then cart[i].quantity + q else q
  {
    if cart == [] then []
    else
      var item := cart[0];
      var head := if item.product.id != id then item
                  else item.(quantity := if add then item.quantity + q else q);
      [head] + MapQuantity(cart[1..], id, add, q)
  }

  /** `cart.filter(item => item.id !== id)`. */
  function Without(cart: seq<CartItem>, id: int): (r: seq<CartItem>)
    ensures |r| <= |cart|
    ensures !InCart(r, id)
    ensures forall x :: x in r <==> x in cart && x.product.id != id
  {
    if cart == [] then []
    else if cart[0].product.id != id then [cart[0]] + Without(cart[1..], id)
    else Without(cart[1..], id)
  }

  /** The cart after `addToCart(product, quantity)`. */
  function Added(cart: seq<CartItem>, product: Product, quantity: int): seq<CartItem>
  {
    if InCart(cart, product.id) then MapQuantity(cart, product.id, true, quantity)
    else cart + [CartItem(product, quantity)]
  }

  /** The cart after `updateCartQuantity(id, quantity)`. */
  function Updated(cart: seq<CartItem>, id: int, quantity: int): seq<CartItem>
  {
    if quantity < 1 then Without(cart, id) else MapQuantity(cart, id, false, quantity)
  }

  /** `cartTotal`: the sum of sale price times quantity (exact sums do not depend on the fold's direction). */
  function Total(cart: seq<CartItem>): real
  {
    if cart == [] then 0.0 else SubTotal(cart[0]) + Total(cart[1..])
  }

  function SubTotal(item: CartItem): real
  {
    item.product.salePrice * item.quantity as real
  }

  lemma SubTotalBump(item: CartItem, q: int)
    ensures SubTotal(item.(quantity := item.quantity + q)) == SubTotal(item) + item.product.salePrice * q as real
  {
    assert (item.quantity + q) as real == item.quantity as real + q as real;
  }

  /** Quantity of the first item for `id`, 0 when there is none. */
  function QuantityOf(cart: seq<CartItem>, id: int): int
  {
    if cart == [] then 0
    else if cart[0].product.id == id then cart[0].quantity
    else QuantityOf(cart[1..], id)
  }

  lemma {:induction false} QuantityOfAt(cart: seq<CartItem>, k: nat)
    requires DistinctIds(cart) && k < |cart|
    ensures QuantityOf(cart, cart[k].product.id) == cart[k].quantity
  {
    if k > 0 {
      QuantityOfAt(cart[1..], k - 1);
    }
  }

  lemma {:induction false} QuantityOfAbsent(cart: seq<CartItem>, id: int)
    requires !InCart(cart, id)
    ensures QuantityOf(cart, id) == 0
  {
    if cart != [] {
      assert cart[0].product.id != id;
      assert !InCart(cart[1..], id) by {
        forall i | 0 <= i < |cart| - 1 ensures cart[1..][i].product.id != id {
          assert cart[1..][i] == cart[i + 1];
        }
      }
      QuantityOfAbsent(cart[1..], id);
    }
  }

  /**
   * Adding an absent product appends one item with the given quantity;
   * adding a present one keeps the length and adds the quantity to that
   * product's item only.
   */
  lemma AddedEffect(cart: seq<CartItem>, product: Product, quantity: int)
    ensures !InCart(cart, product.id) ==> Added(cart, product, quantity) == cart + [CartItem(product, quantity)]
    ensures InCart(cart, product.id) ==>
              |Added(cart, product, quantity)| == |cart| &&
              forall i :: 0 <= i < |cart| ==>
                Added(cart, product, quantity)[i] ==
                  if cart[i].product.id == product.id then cart[i].(quantity := cart[i].quantity + quantity) else cart[i]
  {
  }

  /** Adding keeps product ids pairwise distinct. */
  lemma AddedKeepsDistinct(cart: seq<CartItem>, product: Product, quantity: int)
    requires DistinctIds(cart)
    ensures DistinctIds(Added(cart, product, quantity))
    ensures InCart(Added(cart, product, quantity), product.id)
  {
    var r := Added(cart, product, quantity);
    if !InCart(cart, product.id) {
      assert r[|cart|].product.id == product.id;
    }
  }

  /** Adding one product twice leaves one item for it whose quantity grew by both amounts. */
  lemma AddedTwice(cart: seq<CartItem>, product: Product, q1: int, q2: int)
    requires DistinctIds(cart)
    ensures DistinctIds(Added(Added(cart, product, q1), product, q2))
    ensures QuantityOf(Added(Added(cart, product, q1), product, q2), product.id) == QuantityOf(cart, product.id) + q1 + q2
    ensures !InCart(cart, product.id) ==> Added(Added(cart, product, q1), product, q2) == cart + [CartItem(product, q1 + q2)]
  {
    var once := Added(cart, product, q1);
    var twice := Added(once, product, q2);
    AddedKeepsDistinct(cart, product, q1);
    AddedKeepsDistinct(once, product, q2);
    if InCart(cart, product.id) {
      var k :| 0 <= k < |cart| && cart[k].product.id == product.id;
      QuantityOfAt(twice, k);
      QuantityOfAt(cart, k);
    } else {
      QuantityOfAbsent(cart, product.id);
      assert once == cart + [CartItem(product, q1)];
      assert twice == cart + [CartItem(product, q1 + q2)];
      QuantityOfAt(twice, |cart|);
    }
  }

  /** Removal keeps the order of the other items: it distributes over concatenation. */
  lemma {:induction false} WithoutAppend(a: seq<CartItem>, b: seq<CartItem>, id: int)
    ensures Without(a + b, id) == Without(a, id) + Without(b, id)
  {
    if a == [] {
      assert a + b == b;
    } else {
      assert (a + b)[1..] == a[1..] + b;
      WithoutAppend(a[1..], b, id);
    }
  }

  /** Removing an absent id leaves the cart unchanged. */
  lemma {:induction false} WithoutAbsent(cart: seq<CartItem>, id: int)
    requires !InCart(cart, id)
    ensures Without(cart, id) == cart
  {
    if cart != [] {
      assert cart[0].product.id != id;
      assert !InCart(cart[1..], id) by {
        forall i | 0 <= i < |cart| - 1 ensures cart[1..][i].product.id != id {
          assert cart[1..][i] == cart[i + 1];
        }
      }
      WithoutAbsent(cart[1..], id);
    }
  }

  /** The tail of a cart with distinct ids has distinct ids and lacks the head's id. */
  lemma TailLacksHead(cart: seq<CartItem>)
    requires DistinctIds(cart) && cart != []
    ensures DistinctIds(cart[1..]) && !InCart(cart[1..], cart[0].product.id)
  {
    forall i | 0 <= i < |cart| - 1 ensures cart[1..][i].product.id != cart[0].product.id {
      assert cart[1..][i] == cart[i + 1];
    }
  }

  /** In a cart with distinct ids, a slice that skips item k does not hold its id. */
  lemma SliceLacks(cart: seq<CartItem>, k: nat, lo: nat, hi: nat)
    requires DistinctIds(cart) && k < |cart| && lo <= hi <= |cart| && (k < lo || hi <= k)
    ensures !InCart(cart[lo..hi], cart[k].product.id)
  {
    forall i | 0 <= i < hi - lo ensures cart[lo..hi][i].product.id != cart[k].product.id {
      assert cart[lo..hi][i] == cart[lo + i];
      if lo + i < k {
        assert cart[lo + i].product.id != cart[k].product.id;
      } else {
        assert cart[k].product.id != cart[lo + i].product.id;
      }
    }
  }

  /** A cart is its items before k, item k, and its items after k. */
  lemma Around(cart: seq<CartItem>, k: nat)
    requires k < |cart|
    ensures cart == cart[0..k] + ([cart[k]] + cart[k + 1..|cart|])
    ensures cart[..k] + cart[k + 1..] == cart[0..k] + cart[k + 1..|cart|]
  {
  }

  /** In a cart with distinct ids, removing the id of item k takes out exactly that item. */
  lemma WithoutAt(cart: seq<CartItem>, k: nat)
    requires DistinctIds(cart) && k < |cart|
    ensures Without(cart, cart[k].product.id) == cart[..k] + cart[k + 1..]
  {
    var id := cart[k].product.id;
    var before, after := cart[0..k], cart[k + 1..|cart|];
    Around(cart, k);
    SliceLacks(cart, k, 0, k);
    SliceLacks(cart, k, k + 1, |cart|);
    WithoutAppend(before, [cart[k]] + after, id);
    WithoutAppend([cart[k]], after, id);
    assert Without([cart[k]], id) == [];
    WithoutAbsent(before, id);
    WithoutAbsent(after, id);
  }

  /**
   * `updateCartQuantity`: below 1 it is `removeFromCart`; otherwise only
   * that product's quantity becomes `quantity`; an absent id changes nothing.
   */
  lemma UpdatedEffect(cart: seq<CartItem>, id: int, quantity: int)
    ensures quantity < 1 ==> Updated(cart, id, quantity) == Without(cart, id)
    ensures quantity >= 1 ==>
              |Updated(cart, id, quantity)| == |cart| &&
              forall i :: 0 <= i < |cart| ==>
                Updated(cart, id, quantity)[i] == if cart[i].product.id == id then cart[i].(quantity := quantity) else cart[i]
    ensures !InCart(cart, id) ==> Updated(cart, id, quantity) == cart
  {
    if !InCart(cart, id) {
      if quantity < 1 {
        WithoutAbsent(cart, id);
      } else {
        var r := Updated(cart, id, quantity);
        assert forall i :: 0 <= i < |cart| ==> r[i] == cart[i];
      }
    }
  }

  lemma {:induction false} TotalAppend(a: seq<CartItem>, b: seq<CartItem>)
    ensures Total(a + b) == Total(a) + Total(b)
  {
    if a == [] {
      assert a + b == b;
    } else {
      assert (a + b)[1..] == a[1..] + b;
      TotalAppend(a[1..], b);
    }
  }

  /** `cartTotal` after bumping the quantity of product `id` by q grows by q times that item's sale price. */
  lemma {:induction false} TotalMapAdd(cart: seq<CartItem>, k: nat, q: int)
    requires DistinctIds(cart) && k < |cart|
    ensures Total(MapQuantity(cart, cart[k].product.id, true, q)) == Total(cart) + cart[k].product.salePrice * q as real
  {
    var id := cart[k].product.id;
    var r := MapQuantity(cart, id, true, q);
    TailLacksHead(cart);
    assert r[1..] == MapQuantity(cart[1..], id, true, q);
    if k == 0 {
      assert r[0] == cart[0].(quantity := cart[0].quantity + q);
      SubTotalBump(cart[0], q);
      assert MapQuantity(cart[1..], id, true, q) == cart[1..];
    } else {
      assert r[0] == cart[0];
      assert cart[1..][k - 1] == cart[k];
      TotalMapAdd(cart[1..], k - 1, q);
    }
  }

  /** `cartTotal` after adding an absent product grows by q times the given product's sale price. */
  lemma TotalAddedAbsent(cart: seq<CartItem>, product: Product, q: int)
    requires !InCart(cart, product.id)
    ensures Total(Added(cart, product, q)) == Total(cart) + product.salePrice * q as real
  {
    var item := CartItem(product, q);
    TotalAppend(cart, [item]);
    assert Total([item]) == SubTotal(item) + Total([]);
  }

  /**
   * `cartTotal` after adding a product already present as item k grows by
   * q times the sale price stored in that item, not the given product's.
   */
  lemma TotalAddedPresent(cart: seq<CartItem>, product: Product, q: int, k: nat)
    requires DistinctIds(cart) && k < |cart| && cart[k].product.id == product.id
    ensures Total(Added(cart, product, q)) == Total(cart) + cart[k].product.salePrice * q as real
  {
    TotalMapAdd(cart, k, q);
  }

  /** With positive quantities and non-negative sale prices the total is non-negative. */
  lemma {:induction false} TotalNonNegative(cart: seq<CartItem>)
    ensures (forall i :: 0 <= i < |cart| ==> cart[i].quantity >= 1 && cart[i].product.salePrice >= 0.0) ==> Total(cart) >= 0.0
  {
    if cart != [] {
      TotalNonNegative(cart[1..]);
    }
  }

  // ---------- the cartTotal property as zustand stores it ----------

  /**
   * The `cartTotal` property of the store object. The creator returns it
   * as a getter (`Live`). zustand's `set` builds each next state with
   * `Object.assign({}, state, partial)`, which reads the getter once and
   * stores the number it returned as a plain property (`Frozen`).
   */
  datatype TotalProperty = Live | Frozen(value: real)

  /** `state.cartTotal`, the state's cart being `cart`. */
  function ReadTotal(p: TotalProperty, cart: seq<CartItem>): real
  {
    match p
    case Live => Total(cart)
    case Frozen(v) => v
  }

  /**
   * The `cartTotal` property after one `set`, as written: the getter calls
   * `get()`, which during the copy is still the state before the update,
   * so the next state holds that earlier total as a number.
   */
  function SetAsWritten(p: TotalProperty, cartBefore: seq<CartItem>): (q: TotalProperty)
    ensures q.Frozen?
    ensures forall cart :: ReadTotal(q, cart) == ReadTotal(p, cartBefore)
  {
    Frozen(ReadTotal(p, cartBefore))
  }

  /**
   * As written, the first `addToCart` on the empty initial store leaves
   * `cartTotal` at 0 although the cart now holds one item of positive
   * price, and every later `set` copies that 0 on.
   */
  lemma CartTotalStaleAfterAdd(product: Product, later: seq<CartItem>)
    requires product.salePrice > 0.0
    ensures var cart := Added([], product, 1);
            var p := SetAsWritten(Live, []);
            && Total(cart) == product.salePrice
            && ReadTotal(p, cart) == 0.0 != Total(cart)
            && ReadTotal(SetAsWritten(p, cart), later) == 0.0
  {
    TotalAddedAbsent([], product, 1);
  }

  // ---------- wishlist ----------

  /** `wishlist.some(item => item.id === id)`. */
  predicate Listed(wishlist: seq<Product>, id: int)
  {
    exists i :: 0 <= i < |wishlist| && wishlist[i].id == id
  }

  ghost predicate DistinctProducts(wishlist: seq<Product>)
  {
    forall i, j :: 0 <= i < j < |wishlist| ==> wishlist[i].id != wishlist[j].id
  }

  /** The wishlist after `addToWishlist(product)`. */
  function Wished(wishlist: seq<Product>, product: Product): seq<Product>
  {
    if Listed(wishlist, product.id) then wishlist else wishlist + [product]
  }

  /** `wishlist.filter(item => item.id !== id)`. */
  function Unwished(wishlist: seq<Product>, id: int): (r: seq<Product>)
    ensures forall x :: x in r <==> x in wishlist && x.id != id
  {
    if wishlist == [] then []
    else if wishlist[0].id != id then [wishlist[0]] + Unwished(wishlist[1..], id)
    else Unwished(wishlist[1..], id)
  }

  /** Adding to the wishlist is idempotent, never duplicates an id, and makes `isInWishlist` hold. */
  lemma WishedEffect(wishlist: seq<Product>, product: Product)
    requires DistinctProducts(wishlist)
    ensures Wished(Wished(wishlist, product), product) == Wished(wishlist, product)
    ensures DistinctProducts(Wished(wishlist, product))
    ensures Listed(Wished(wishlist, product), product.id)
    ensures |Wished(wishlist, product)| == |wishlist| + (if Listed(wishlist, product.id) then 0 else 1)
  {
    var w := Wished(wishlist, product);
    if !Listed(wishlist, product.id) {
      assert w[|wishlist|].id == product.id;
    }
  }

  /** After `removeFromWishlist(id)`, `isInWishlist(id)` is false and every other entry is kept. */
  lemma UnwishedEffect(wishlist: seq<Product>, id: int)
    ensures !Listed(Unwished(wishlist, id), id)
    ensures forall p :: p in wishlist && p.id != id ==> p in Unwished(wishlist, id)
  {
  }

  // ---------- auth ----------

  const LoginFailedMessage := "Invalid credentials. Please try again."
  const SignupFailedMessage := "Failed to create account. Please try again."
  const NetworkFailureMessage := "Network error. Please check your connection."

  /** The settled outcome of an awaited API call. */
  datatype Awaited<T> = Returned(response: Api.ApiResponse<T>) | Threw(thrown: Api.Thrown)

  /** The user part of a login or sign-up response. */
  datatype AuthData = AuthData(access: string, refresh: string, user: User)

  predicate Succeeded<T>(a: Awaited<T>)
  {
    a.Returned? && a.response.success && a.response.data.Some?
  }

  /** The error a failed login or sign-up leaves: the response's error, or `fallback`, or the exception's message. */
  function FailureMessage<T>(a: Awaited<T>, fallback: string): (m: string)
    requires !Succeeded(a)
    ensures a.Returned? && Truthy(a.response.error) ==> m == a.response.error.value
    ensures a.Returned? && !Truthy(a.response.error) ==> m == fallback
    ensures a.Threw? && a.thrown.ErrorInstance? ==> m == a.thrown.message
    ensures a.Threw? && a.thrown.OtherValue? ==> m == NetworkFailureMessage
  {
    match a
    case Returned(response) => OrElse(response.error, fallback)
    case Threw(thrown) => if thrown.ErrorInstance? then thrown.message else NetworkFailureMessage
  }

  /** The fields `partialize` keeps across reloads. */
  datatype Persisted = Persisted(cart: seq<CartItem>, wishlist: seq<Product>, user: Option<User>, isLoggedIn: bool)

  /** The persisted fields of the state the store creator returns. */
  const InitialPersisted := Persisted([], [], None, false)

  /**
   * The spread in persist's merge, `{...currentState, ...saved}`, reads the
   * `cartTotal` property `p` of `currentState`, `get()` returning `stored`.
   * The creator's getter calls `get().cart`, which throws a TypeError while
   * the store has no state yet (`None`); a frozen number reads as itself.
   */
  function ReadTotalInMerge(p: TotalProperty, stored: Option<Persisted>): (v: Option<real>)
    ensures p.Frozen? ==> v == Some(p.value)
    ensures p.Live? ==> (v.None? <==> stored.None?)
    ensures p.Live? && stored.Some? ==> v == Some(Total(stored.value.cart))
  {
    match p
    case Frozen(v) => Some(v)
    case Live => if stored.Some? then Some(Total(stored.value.cart)) else None
  }

  /**
   * persist's `hydrate` as written, the storage answering `saved`. The
   * state merged into is `get() ?? configResult`: `stored`, or `initial`
   * while the store has no state, which is the case on the first hydrate,
   * run inside the store creator. When reading `cartTotal` throws, the
   * `.catch` at the end of persist's promise chain swallows the error and
   * the state stays as it was; otherwise the saved fields override it.
   */
  function HydrateAsWritten(initial: Persisted, p: TotalProperty, stored: Option<Persisted>, saved: Option<Persisted>): (r: Persisted)
    ensures var current := if stored.Some? then stored.value else initial;
            r == current || (saved.Some? && r == saved.value)
    ensures ReadTotalInMerge(p, stored).None? ==> r == initial
  {
    var current := if stored.Some? then stored.value else initial;
    if ReadTotalInMerge(p, stored).None? then current
    else if saved.Some? then saved.value else current
  }

  /**
   * As written, the first hydrate restores nothing: the store starts from
   * the creator's state, and a saved state that differs from it is lost.
   */
  lemma FirstHydrateRestoresNothing(saved: Persisted)
    ensures HydrateAsWritten(InitialPersisted, Live, None, Some(saved)) == InitialPersisted
    ensures saved != InitialPersisted ==> HydrateAsWritten(InitialPersisted, Live, None, Some(saved)) != saved
  {
  }

  /** Once the store has a state, a later `rehydrate()` restores the saved fields. */
  lemma LaterHydrateRestores(initial: Persisted, p: TotalProperty, stored: Persisted, saved: Persisted)
    ensures HydrateAsWritten(initial, p, Some(stored), Some(saved)) == saved
  {
  }

  class StoreState {
    var cart: seq<CartItem>
    var wishlist: seq<Product>
    var user: Option<User>
    var isLoggedIn: bool
    var isLoading: bool
    var isAuthChecked: bool
    var error: Option<string>

    /** The initial state. */
    constructor ()
      ensures cart == [] && wishlist == [] && user == None
      ensures !isLoggedIn && !isLoading && !isAuthChecked && error == None
    {
      cart, wishlist, user := [], [], None;
      isLoggedIn, isLoading, isAuthChecked, error := false, false, false, None;
    }

    /** The initial state with a persisted state merged into it, as on a reload. */
    constructor Rehydrate(saved: Persisted)
      ensures cart == saved.cart && wishlist == saved.wishlist && user == saved.user && isLoggedIn == saved.isLoggedIn
      ensures !isLoading && !isAuthChecked && error == None
    {
      cart, wishlist, user, isLoggedIn := saved.cart, saved.wishlist, saved.user, saved.isLoggedIn;
      isLoading, isAuthChecked, error := false, false, None;
    }

    /** `partialize`. */
    function Partialize(): Persisted
      reads this
    {
      Persisted(cart, wishlist, user, isLoggedIn)
    }

    /**
     * Saving and reloading the corrected store, whose `cartTotal` reads the
     * state's own cart (`CartTotal`) and so cannot fail during the merge:
     * the four persisted fields are restored and the flags start over.
     */
    static method Reload(s: StoreState) returns (t: StoreState)
      ensures fresh(t)
      ensures t.Partialize() == s.Partialize()
      ensures !t.isLoading && !t.isAuthChecked && t.error == None
    {
      t := new StoreState.Rehydrate(s.Partialize());
    }

    method AddToCart(product: Product, quantity: int)
      modifies this
      ensures cart == Added(old(cart), product, quantity)
      ensures wishlist == old(wishlist) && user == old(user) && isLoggedIn == old(isLoggedIn)
      ensures isLoading == old(isLoading) && isAuthChecked == old(isAuthChecked) && error == old(error)
      ensures !InCart(old(cart), product.id) ==> CartTotal() == old(CartTotal()) + product.salePrice * quantity as real
    {
      if !InCart(cart, product.id) {
        TotalAddedAbsent(cart, product, quantity);
      }
      cart := Added(cart, product, quantity);
    }

    method RemoveFromCart(id: int)
      modifies this
      ensures cart == Without(old(cart), id)
      ensures wishlist == old(wishlist) && user == old(user) && isLoggedIn == old(isLoggedIn)
      ensures isLoading == old(isLoading) && isAuthChecked == old(isAuthChecked) && error == old(error)
    {
      cart := Without(cart, id);
    }

    method UpdateCartQuantity(id: int, quantity: int)
      modifies this
      ensures cart == Updated(old(cart), id, quantity)
      ensures wishlist == old(wishlist) && user == old(user) && isLoggedIn == old(isLoggedIn)
      ensures isLoading == old(isLoading) && isAuthChecked == old(isAuthChecked) && error == old(error)
    {
      if quantity < 1 {
        RemoveFromCart(id);
        return;
      }
      cart := MapQuantity(cart, id, false, quantity);
    }

    method ClearCart()
      modifies this
      ensures cart == [] && Total(cart) == 0.0
      ensures wishlist == old(wishlist) && user == old(user) && isLoggedIn == old(isLoggedIn)
      ensures isLoading == old(isLoading) && isAuthChecked == old(isAuthChecked) && error == old(error)
    {
      cart := [];
    }

    /**
     * The `cartTotal` getter as intended: evaluated on the current cart at
     * every read, never a copy taken at an earlier update.
     */
    function CartTotal(): (t: real)
      reads this
      ensures cart == [] ==> t == 0.0
      ensures (forall i :: 0 <= i < |cart| ==> cart[i].quantity >= 1 && cart[i].product.salePrice >= 0.0) ==> t >= 0.0
    {
      TotalNonNegative(cart);
      Total(cart)
    }

    method AddToWishlist(product: Product)
      modifies this
      ensures wishlist == Wished(old(wishlist), product)
      ensures cart == old(cart) && user == old(user) && isLoggedIn == old(isLoggedIn)
      ensures isLoading == old(isLoading) && isAuthChecked == old(isAuthChecked) && error == old(error)
    {
      if Listed(wishlist, product.id) {
        return;
      }
      wishlist := wishlist + [product];
    }

    method RemoveFromWishlist(id: int)
      modifies this
      ensures wishlist == Unwished(old(wishlist), id)
      ensures cart == old(cart) && user == old(user) && isLoggedIn == old(isLoggedIn)
      ensures isLoading == old(isLoading) && isAuthChecked == old(isAuthChecked) && error == old(error)
    {
      wishlist := Unwished(wishlist, id);
    }

    method IsInWishlist(id: int) returns (listed: bool)
      ensures listed <==> exists i :: 0 <= i < |wishlist| && wishlist[i].id == id
    {
      listed := Listed(wishlist, id);
    }

    /** `login` and `signup` share this shape; they differ in the fallback message only. */
    method Authenticate(outcome: Awaited<AuthData>, fallback: string) returns (ok: bool)
      modifies this
      ensures ok <==> Succeeded(outcome)
      ensures !isLoading
      ensures ok ==> user == Some(outcome.response.data.value.user) && isLoggedIn && error == None
      ensures !ok ==> user == old(user) && isLoggedIn == old(isLoggedIn) && error == Some(FailureMessage(outcome, fallback))
      ensures cart == old(cart) && wishlist == old(wishlist) && isAuthChecked == old(isAuthChecked)
    {
      isLoading, error := true, None;
      match outcome {
        case Returned(response) =>
          if response.success && response.data.Some? {
            user, isLoggedIn, isLoading, error := Some(response.data.value.user), true, false, None;
            return true;
          } else {
            error, isLoading := Some(OrElse(response.error, fallback)), false;
            return false;
          }
        case Threw(thrown) =>
          error := Some(if thrown.ErrorInstance? then thrown.message else NetworkFailureMessage);
          isLoading := false;
          return false;
      }
    }

    method Login(outcome: Awaited<AuthData>) returns (ok: bool)
      modifies this
      ensures ok <==> Succeeded(outcome)
      ensures !isLoading
      ensures ok ==> user == Some(outcome.response.data.value.user) && isLoggedIn && error == None
      ensures !ok ==> user == old(user) && isLoggedIn == old(isLoggedIn) && error == Some(FailureMessage(outcome, LoginFailedMessage))
      ensures cart == old(cart) && wishlist == old(wishlist) && isAuthChecked == old(isAuthChecked)
    {
      ok := Authenticate(outcome, LoginFailedMessage);
    }

    method Signup(outcome: Awaited<AuthData>) returns (ok: bool)
      modifies this
      ensures ok <==> Succeeded(outcome)
      ensures !isLoading
      ensures ok ==> user == Some(outcome.response.data.value.user) && isLoggedIn && error == None
      ensures !ok ==> user == old(user) && isLoggedIn == old(isLoggedIn) && error == Some(FailureMessage(outcome, SignupFailedMessage))
      ensures cart == old(cart) && wishlist == old(wishlist) && isAuthChecked == old(isAuthChecked)
    {
      ok := Authenticate(outcome, SignupFailedMessage);
    }

    /** `logout`: whatever the API call did (`apiThrew` or not), the user is signed out; cart and wishlist stay. */
    method Logout(apiThrew: bool)
      modifies this
      ensures user == None && !isLoggedIn && !isLoading && error == None
      ensures cart == old(cart) && wishlist == old(wishlist) && isAuthChecked == old(isAuthChecked)
    {
      isLoading := true;
      if apiThrew {
        // the exception is logged and swallowed
      }
      user, isLoggedIn, isLoading, error := None, false, false, None;
    }

    /**
     * `initializeAuth`: with a token cookie (`hasToken`) it asks for the
     * current user (`me`); every path ends checked and not loading.
     */
    method InitializeAuth(hasToken: bool, me: Awaited<User>)
      modifies this
      ensures isAuthChecked && !isLoading
      ensures isLoggedIn <==> hasToken && Succeeded(me)
      ensures isLoggedIn ==> user == Some(me.response.data.value)
      ensures !isLoggedIn ==> user == None
      ensures cart == old(cart) && wishlist == old(wishlist) && error == old(error)
    {
      isLoading := true;
      if hasToken {
        match me {
          case Returned(response) =>
            if response.success && response.data.Some? {
              user, isLoggedIn, isLoading, isAuthChecked := Some(response.data.value), true, false, true;
            } else {
              isLoggedIn, user, isLoading, isAuthChecked := false, None, false, true;
            }
          case Threw(_) =>
            isLoggedIn, user, isLoading, isAuthChecked := false, None, false, true;
        }
      } else {
        isLoggedIn, user, isLoading, isAuthChecked := false, None, false, true;
      }
    }

    method ClearError()
      modifies this
      ensures error == None
      ensures cart == old(cart) && wishlist == old(wishlist) && user == old(user) && isLoggedIn == old(isLoggedIn)
      ensures isLoading == old(isLoading) && isAuthChecked == old(isAuthChecked)
    {
      error := None;
    }
  }
}
