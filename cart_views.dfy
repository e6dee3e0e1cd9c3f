/**
 * The cart handlers of the backend (`backend/api/views.py`) on an
 * in-memory cart table: cart code -> the cart's items in creation order.
 * Each handler validates its input, answers 400 or 404 on failure, and
 * otherwise changes the table and answers with the serialized cart.
 */
module CartViews {
  import opened Wrappers
  import Serializers

  /** A `CartItem` row of one cart. */
  datatype Line = Line(productId: int, quantity: int)

  /** The `quantity` field of a request body, as `int(quantity)` sees it. */
  datatype QuantityArg =
    | Missing            // the key is absent
    | Null               // JSON null
    | IntValue(n: int)   // any value `int()` accepts (3, "3", 3.7 -> 3, true -> 1)
    | NotAnInt           // any value on which `int()` raises

  datatype ItemView = ItemView(productId: int, quantity: int, subTotal: real)
  datatype CartView = CartView(cartCode: string, items: seq<ItemView>, cartTotal: real)

  /** A handler's answer: 200 with the cart, 400 with a message, or 404. */
  datatype Reply = Success(cart: CartView) | BadRequest(error: string) | NotFound

  const MissingIdsMessage := "cart_code and product_id are required"
  const MissingFieldsMessage := "cart_code, product_id, and quantity are required"
  const MissingCodeMessage := "cart_code is required"
  const InvalidQuantityMessage := "Invalid quantity format"
  const NonPositiveQuantityMessage := "Quantity must be greater than zero"

  /** Python truthiness of a product id: absent and 0 are falsy. */
  predicate IdGiven(productId: Option<int>)
  {
    productId.Some? && productId.value != 0
  }

  /** `int(request.data.get("quantity", 1))` of `add_to_cart`; None when `int()` raises. */
  function AddQuantity(q: QuantityArg): Option<int>
  {
    match q
    case Missing => Some(1)
    case IntValue(n) => Some(n)
    case _ => None
  }

  /** Position of the item for `productId`, or `|lines|` when the cart has none. */
  function IndexOf(lines: seq<Line>, productId: int): (k: nat)
    ensures k <= |lines|
    ensures k < |lines| ==> lines[k].productId == productId
    ensures forall i :: 0 <= i < k ==> lines[i].productId != productId
  {
    if lines == [] then 0
    else if lines[0].productId == productId then 0
    else 1 + IndexOf(lines[1..], productId)
  }

  /** Quantity of `productId` in the cart, 0 when it has no item for it. */
  function QuantityOf(lines: seq<Line>, productId: int): int
  {
    var k := IndexOf(lines, productId);
    if k < |lines| then lines[k].quantity else 0
  }

  /** The invariant the handlers keep: one item per product, positive quantities, existing products. */
  ghost predicate WellFormed(lines: seq<Line>, prices: map<int, real>)
  {
    && (forall i, j :: 0 <= i < j < |lines| ==> lines[i].productId != lines[j].productId)
    && (forall i :: 0 <= i < |lines| ==> lines[i].quantity >= 1 && lines[i].productId in prices)
  }

  /** `get_or_create` of the item, then `quantity += q` for an existing one or `quantity = q` for a new one. */
  function AddLine(lines: seq<Line>, productId: int, q: int): seq<Line>
  {
    var k := IndexOf(lines, productId);
    if k < |lines| then lines[k := lines[k].(quantity := lines[k].quantity + q)]
    else lines + [Line(productId, q)]
  }

  /** `cartitem.quantity = q` of the found item. */
  function SetLine(lines: seq<Line>, k: nat, q: int): seq<Line>
    requires k < |lines|
  {
    lines[k := lines[k].(quantity := q)]
  }

  /** `cartitem.delete()` of the found item. */
  function DeleteLine(lines: seq<Line>, k: nat): seq<Line>
    requires k < |lines|
  {
    lines[..k] + lines[k + 1..]
  }

  /** The items as the cart serializer reads them. */
  function ToItems(lines: seq<Line>, prices: map<int, real>): (items: seq<Serializers.Item>)
    requires forall i :: 0 <= i < |lines| ==> lines[i].productId in prices
    ensures |items| == |lines|
  {
    seq(|lines|, i requires 0 <= i < |lines| => Serializers.Item(prices[lines[i].productId], lines[i].quantity))
  }

  /** `CartSerializer(cart).data`. */
  function Serialize(code: string, lines: seq<Line>, prices: map<int, real>): (v: CartView)
    requires forall i :: 0 <= i < |lines| ==> lines[i].productId in prices
  {
    var items := ToItems(lines, prices);
    CartView(code,
             seq(|lines|, i requires 0 <= i < |lines| => ItemView(lines[i].productId, lines[i].quantity, Serializers.SubTotal(items[i]))),
             Serializers.CartTotal(items))
  }

  // ---------- properties of the item operations ----------

  lemma QuantityOfAt(lines: seq<Line>, k: nat)
    requires forall i, j :: 0 <= i < j < |lines| ==> lines[i].productId != lines[j].productId
    requires k < |lines|
    ensures IndexOf(lines, lines[k].productId) == k
    ensures QuantityOf(lines, lines[k].productId) == lines[k].quantity
  {
  }

  lemma QuantityOfAbsent(lines: seq<Line>, productId: int)
    requires forall i :: 0 <= i < |lines| ==> lines[i].productId != productId
    ensures IndexOf(lines, productId) == |lines| && QuantityOf(lines, productId) == 0
  {
  }

  /** Adding keeps one item per product; the named product's quantity grows by q, every other product's is unchanged. */
  lemma AddLineEffect(lines: seq<Line>, prices: map<int, real>, productId: int, q: int, other: int)
    requires WellFormed(lines, prices) && productId in prices && q >= 1
    ensures WellFormed(AddLine(lines, productId, q), prices)
    ensures QuantityOf(AddLine(lines, productId, q), productId) == QuantityOf(lines, productId) + q
    ensures other != productId ==> QuantityOf(AddLine(lines, productId, q), other) == QuantityOf(lines, other)
  {
    var r := AddLine(lines, productId, q);
    var k := IndexOf(lines, productId);
    assert forall i :: 0 <= i < |lines| ==> r[i].productId == lines[i].productId;
    QuantityOfAt(r, k);
    if k == |lines| {
      QuantityOfAbsent(lines, productId);
    }
    if other != productId {
      var m := IndexOf(lines, other);
      if m < |lines| {
        QuantityOfAt(r, m);
      } else {
        assert forall i :: 0 <= i < |r| ==> r[i].productId != other;
        QuantityOfAbsent(r, other);
      }
    }
  }

  /** Setting a positive quantity keeps the invariant and changes that product's quantity only. */
  lemma SetLineEffect(lines: seq<Line>, prices: map<int, real>, k: nat, q: int, other: int)
    requires WellFormed(lines, prices) && k < |lines| && q >= 1
    ensures WellFormed(SetLine(lines, k, q), prices)
    ensures QuantityOf(SetLine(lines, k, q), lines[k].productId) == q
    ensures other != lines[k].productId ==> QuantityOf(SetLine(lines, k, q), other) == QuantityOf(lines, other)
  {
    var r := SetLine(lines, k, q);
    QuantityOfAt(r, k);
    if other != lines[k].productId {
      var m := IndexOf(lines, other);
      if m < |lines| {
        QuantityOfAt(r, m);
      } else {
        QuantityOfAbsent(r, other);
      }
    }
  }

  /** The position in the cart before a delete at `k` of the item now at `i`. */
  function Source(i: nat, k: nat): (j: nat)
    ensures j == i || j == i + 1
  {
    if i < k then i else i + 1
  }

  /** The cart after a delete at `k` is the cart without its k-th item. */
  lemma DeleteLineShift(lines: seq<Line>, k: nat)
    requires k < |lines|
    ensures |DeleteLine(lines, k)| == |lines| - 1
    ensures forall i :: 0 <= i < |lines| - 1 ==> DeleteLine(lines, k)[i] == lines[Source(i, k)]
  {
    var r := DeleteLine(lines, k);
    forall i | 0 <= i < |r| ensures r[i] == lines[Source(i, k)] {
      if i < k { assert r[i] == lines[..k][i]; } else { assert r[i] == lines[k + 1..][i - k]; }
    }
  }

  /** Deleting the found item keeps the invariant and leaves no item for its product. */
  lemma DeleteLineWellFormed(lines: seq<Line>, prices: map<int, real>, k: nat)
    requires WellFormed(lines, prices) && k < |lines|
    ensures WellFormed(DeleteLine(lines, k), prices)
    ensures forall i :: 0 <= i < |DeleteLine(lines, k)| ==> DeleteLine(lines, k)[i].productId != lines[k].productId
  {
    DeleteLineShift(lines, k);
    var r := DeleteLine(lines, k);
    forall i, j | 0 <= i < j < |r| ensures r[i].productId != r[j].productId {
      assert Source(i, k) < Source(j, k);
    }
    forall i | 0 <= i < |r| ensures r[i].productId != lines[k].productId {
      assert Source(i, k) != k;
    }
  }

  /** Deleting the found item keeps the invariant, removes that product and leaves every other product's quantity. */
  lemma DeleteLineEffect(lines: seq<Line>, prices: map<int, real>, k: nat, other: int)
    requires WellFormed(lines, prices) && k < |lines|
    ensures WellFormed(DeleteLine(lines, k), prices)
    ensures QuantityOf(DeleteLine(lines, k), lines[k].productId) == 0
    ensures other != lines[k].productId ==> QuantityOf(DeleteLine(lines, k), other) == QuantityOf(lines, other)
  {
    DeleteLineWellFormed(lines, prices, k);
    var r := DeleteLine(lines, k);
    QuantityOfAbsent(r, lines[k].productId);
    if other != lines[k].productId {
      var m := IndexOf(lines, other);
      if m < |lines| {
        DeleteLineShift(lines, k);
        var m' := if m < k then m else m - 1;
        assert Source(m', k) == m;
        QuantityOfAt(r, m');
      } else {
        DeleteLineShift(lines, k);
        assert forall i :: 0 <= i < |r| ==> r[i] == lines[Source(i, k)];
        QuantityOfAbsent(r, other);
      }
    }
  }

  lemma {:induction false} TotalQuantityUpdate(items: seq<Serializers.Item>, k: nat, x: Serializers.Item)
    requires k < |items|
    ensures Serializers.TotalQuantity(items[k := x]) == Serializers.TotalQuantity(items) - items[k].quantity + x.quantity
    ensures Serializers.CartTotal(items[k := x]) ==
              Serializers.CartTotal(items) - items[k].quantity as real * items[k].salePrice + x.quantity as real * x.salePrice
  {
    if k > 0 {
      assert items[k := x][1..] == items[1..][k - 1 := x];
      TotalQuantityUpdate(items[1..], k - 1, x);
    } else {
      assert items[k := x][1..] == items[1..];
    }
  }

  /** Raising one item's quantity by q raises the total quantity by q and the cart total by q times its price. */
  lemma BumpTotals(items: seq<Serializers.Item>, k: nat, q: int)
    requires k < |items|
    ensures var bumped := items[k := items[k].(quantity := items[k].quantity + q)];
            Serializers.TotalQuantity(bumped) == Serializers.TotalQuantity(items) + q &&
            Serializers.CartTotal(bumped) == Serializers.CartTotal(items) + q as real * items[k].salePrice
  {
    var x := items[k].(quantity := items[k].quantity + q);
    TotalQuantityUpdate(items, k, x);
    var p, a := items[k].salePrice, items[k].quantity;
    assert (a + q) as real * p == a as real * p + q as real * p;
  }

  /** Appending an item adds its quantity and its quantity times its price. */
  lemma AppendTotals(items: seq<Serializers.Item>, x: Serializers.Item)
    ensures Serializers.TotalQuantity(items + [x]) == Serializers.TotalQuantity(items) + x.quantity
    ensures Serializers.CartTotal(items + [x]) == Serializers.CartTotal(items) + x.quantity as real * x.salePrice
  {
    Serializers.TotalQuantityAppend(items, [x]);
    Serializers.CartTotalAppend(items, [x]);
  }

  lemma ToItemsSet(lines: seq<Line>, prices: map<int, real>, k: nat, q: int)
    requires forall i :: 0 <= i < |lines| ==> lines[i].productId in prices
    requires k < |lines|
    ensures ToItems(lines[k := lines[k].(quantity := q)], prices) ==
              ToItems(lines, prices)[k := Serializers.Item(prices[lines[k].productId], q)]
  {
  }

  lemma ToItemsAppend(lines: seq<Line>, prices: map<int, real>, line: Line)
    requires forall i :: 0 <= i < |lines| ==> lines[i].productId in prices
    requires line.productId in prices
    ensures ToItems(lines + [line], prices) == ToItems(lines, prices) + [Serializers.Item(prices[line.productId], line.quantity)]
  {
  }

  /** The reported totals after a successful add: quantity grows by q, the total by q times the product's sale price. */
  lemma AddLineTotals(lines: seq<Line>, prices: map<int, real>, productId: int, q: int)
    requires WellFormed(lines, prices) && productId in prices && q >= 1
    ensures WellFormed(AddLine(lines, productId, q), prices)
    ensures Serializers.TotalQuantity(ToItems(AddLine(lines, productId, q), prices)) ==
              Serializers.TotalQuantity(ToItems(lines, prices)) + q
    ensures Serializers.CartTotal(ToItems(AddLine(lines, productId, q), prices)) ==
              Serializers.CartTotal(ToItems(lines, prices)) + q as real * prices[productId]
  {
    AddLineEffect(lines, prices, productId, q, productId);
    var k := IndexOf(lines, productId);
    var before := ToItems(lines, prices);
    var after := ToItems(AddLine(lines, productId, q), prices);
    if k < |lines| {
      ToItemsSet(lines, prices, k, lines[k].quantity + q);
      assert before[k] == Serializers.Item(prices[productId], lines[k].quantity);
      BumpTotals(before, k, q);
    } else {
      ToItemsAppend(lines, prices, Line(productId, q));
      AppendTotals(before, Serializers.Item(prices[productId], q));
    }
  }

  /** The cart table: carts by their unique `cart_code`, and the sale price of every existing product. */
  class CartTable {
    var carts: map<string, seq<Line>>
    var prices: map<int, real>

    ghost predicate Valid()
      reads this
    {
      forall code :: code in carts ==> WellFormed(carts[code], prices)
    }

    constructor (prices: map<int, real>)
      ensures Valid() && carts == map[] && this.prices == prices
    {
      carts := map[];
      this.prices := prices;
    }

    /** `add_to_cart`. */
    method AddToCart(cartCode: Option<string>, productId: Option<int>, quantity: QuantityArg) returns (r: Reply)
      requires Valid()
      modifies this
      ensures Valid() && prices == old(prices)
      ensures !Truthy(cartCode) || !IdGiven(productId) ==> r == BadRequest(MissingIdsMessage) && carts == old(carts)
      ensures Truthy(cartCode) && IdGiven(productId) && AddQuantity(quantity).None? ==>
                r == BadRequest(InvalidQuantityMessage) && carts == old(carts)
      ensures Truthy(cartCode) && IdGiven(productId) && AddQuantity(quantity).Some? && AddQuantity(quantity).value <= 0 ==>
                r == BadRequest(NonPositiveQuantityMessage) && carts == old(carts)
      ensures Truthy(cartCode) && IdGiven(productId) && AddQuantity(quantity).Some? && AddQuantity(quantity).value > 0 ==>
                var code, lines := cartCode.value, if cartCode.value in old(carts) then old(carts)[cartCode.value] else [];
                if productId.value !in prices then
                  r == NotFound && carts == old(carts)[code := lines]
                else
                  carts == old(carts)[code := AddLine(lines, productId.value, AddQuantity(quantity).value)] &&
                  r == Success(Serialize(code, carts[code], prices))
    {
      if !Truthy(cartCode) || !IdGiven(productId) {
        return BadRequest(MissingIdsMessage);
      }
      var q;
      match quantity {
        case Missing => q := 1;
        case IntValue(n) => q := n;
        case Null => return BadRequest(InvalidQuantityMessage);
        case NotAnInt => return BadRequest(InvalidQuantityMessage);
      }
      if q <= 0 {
        return BadRequest(NonPositiveQuantityMessage);
      }
      // `Cart.objects.get_or_create`: the cart exists from here on, whether or not the product does.
      var code := cartCode.value;
      var lines := if code in carts then carts[code] else [];
      var pid := productId.value;
      if pid !in prices {
        carts := carts[code := lines];
        return NotFound;
      }
      AddLineEffect(lines, prices, pid, q, pid);
      carts := carts[code := AddLine(lines, pid, q)];
      r := Success(Serialize(code, carts[code], prices));
    }

    /** `get_cart`: read-only. */
    method GetCart(cartCode: Option<string>) returns (r: Reply)
      requires Valid()
      ensures !Truthy(cartCode) ==> r == BadRequest(MissingCodeMessage)
      ensures Truthy(cartCode) && cartCode.value !in carts ==> r == NotFound
      ensures Truthy(cartCode) && cartCode.value in carts ==>
                r == Success(Serialize(cartCode.value, carts[cartCode.value], prices)) &&
                r.cart.cartCode == cartCode.value &&
                |r.cart.items| == |carts[cartCode.value]| &&
                (forall i :: 0 <= i < |r.cart.items| ==>
                   r.cart.items[i].productId == carts[cartCode.value][i].productId &&
                   r.cart.items[i].quantity == carts[cartCode.value][i].quantity &&
                   r.cart.items[i].subTotal == prices[carts[cartCode.value][i].productId] * carts[cartCode.value][i].quantity as real) &&
                r.cart.cartTotal == Serializers.CartTotal(ToItems(carts[cartCode.value], prices))
    {
      if !Truthy(cartCode) {
        return BadRequest(MissingCodeMessage);
      }
      var code := cartCode.value;
      if code !in carts {
        return NotFound;
      }
      r := Success(Serialize(code, carts[code], prices));
    }

    /** `remove_from_cart`: deletes the named product's item only. */
    method RemoveFromCart(cartCode: Option<string>, productId: Option<int>) returns (r: Reply)
      requires Valid()
      modifies this
      ensures Valid() && prices == old(prices)
      ensures !Truthy(cartCode) || !IdGiven(productId) ==> r == BadRequest(MissingIdsMessage) && carts == old(carts)
      ensures Truthy(cartCode) && IdGiven(productId) && cartCode.value !in old(carts) ==> r == NotFound && carts == old(carts)
      ensures Truthy(cartCode) && IdGiven(productId) && cartCode.value in old(carts) ==>
                var code, lines := cartCode.value, old(carts)[cartCode.value];
                var k := IndexOf(lines, productId.value);
                if k == |lines| then r == NotFound && carts == old(carts)
                else carts == old(carts)[code := DeleteLine(lines, k)] && r == Success(Serialize(code, carts[code], prices))
    {
      if !Truthy(cartCode) || !IdGiven(productId) {
        return BadRequest(MissingIdsMessage);
      }
      var code := cartCode.value;
      if code !in carts {
        return NotFound;
      }
      var k := IndexOf(carts[code], productId.value);
      if k == |carts[code]| {
        return NotFound;
      }
      DeleteLineEffect(carts[code], prices, k, 0);
      carts := carts[code := DeleteLine(carts[code], k)];
      r := Success(Serialize(code, carts[code], prices));
    }

    /** `update_cart_item`: a quantity <= 0 deletes the item, a positive one replaces its quantity. */
    method UpdateCartItem(cartCode: Option<string>, productId: Option<int>, quantity: QuantityArg) returns (r: Reply)
      requires Valid()
      modifies this
      ensures Valid() && prices == old(prices)
      ensures !Truthy(cartCode) || !IdGiven(productId) || quantity.Missing? || quantity.Null? ==>
                r == BadRequest(MissingFieldsMessage) && carts == old(carts)
      ensures Truthy(cartCode) && IdGiven(productId) && quantity.NotAnInt? ==>
                r == BadRequest(InvalidQuantityMessage) && carts == old(carts)
      ensures Truthy(cartCode) && IdGiven(productId) && quantity.IntValue? ==>
                if cartCode.value !in old(carts) then r == NotFound && carts == old(carts)
                else
                  var code, lines := cartCode.value, old(carts)[cartCode.value];
                  var k := IndexOf(lines, productId.value);
                  if k == |lines| then r == NotFound && carts == old(carts)
                  else
                    carts == old(carts)[code := if quantity.n <= 0 then DeleteLine(lines, k) else SetLine(lines, k, quantity.n)] &&
                    r == Success(Serialize(code, carts[code], prices))
    {
      if !Truthy(cartCode) || !IdGiven(productId) || quantity.Missing? || quantity.Null? {
        return BadRequest(MissingFieldsMessage);
      }
      if quantity.NotAnInt? {
        return BadRequest(InvalidQuantityMessage);
      }
      var q := quantity.n;
      var code := cartCode.value;
      if code !in carts {
        return NotFound;
      }
      var k := IndexOf(carts[code], productId.value);
      if k == |carts[code]| {
        return NotFound;
      }
      if q <= 0 {
        DeleteLineEffect(carts[code], prices, k, 0);
        carts := carts[code := DeleteLine(carts[code], k)];
      } else {
        SetLineEffect(carts[code], prices, k, q, 0);
        carts := carts[code := SetLine(carts[code], k, q)];
      }
      r := Success(Serialize(code, carts[code], prices));
    }

    /** `clear_cart`: the cart stays, with no items. */
    method ClearCart(cartCode: Option<string>) returns (r: Reply)
      requires Valid()
      modifies this
      ensures Valid() && prices == old(prices)
      ensures !Truthy(cartCode) ==> r == BadRequest(MissingCodeMessage) && carts == old(carts)
      ensures Truthy(cartCode) && cartCode.value !in old(carts) ==> r == NotFound && carts == old(carts)
      ensures Truthy(cartCode) && cartCode.value in old(carts) ==>
                carts == old(carts)[cartCode.value := []] &&
                r == Success(CartView(cartCode.value, [], 0.0))
    {
      if !Truthy(cartCode) {
        return BadRequest(MissingCodeMessage);
      }
      var code := cartCode.value;
      if code !in carts {
        return NotFound;
      }
      carts := carts[code := []];
      r := Success(Serialize(code, carts[code], prices));
    }
  }
}
