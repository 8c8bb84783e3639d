/**
 * The local shopping-cart store: whole-value updates of a cart record built
 * from the server's reply or from optimistic local edits, with the total
 * recomputed as a sum over the lines.
 *
 * Prices, quantities and totals are integers. Product ids, names and SKUs
 * keep the JavaScript value they arrived with.
 */
module CartStore {
  import opened Wrappers
  import opened JsValue

  datatype CartItem = CartItem(productId: Value, sku: Value, name: Value, price: Option<int>, quantity: int)

  datatype Cart = Cart(id: Value, items: seq<CartItem>, total: int, currency: Value, createdAt: Value)

  /** The empty cart the store starts from and `clear` restores. */
  const InitialCart := Cart(Null, [], 0, Str("TWD"), Null)

  /** `(i.price || 0)`: a missing price counts as zero. */
  function UnitPrice(i: CartItem): int {
    if i.price.Some? then i.price.value else 0
  }

  /**
   * `items.reduce((sum, i) => sum + (i.price || 0) * i.quantity, 0)`. The
   * contract gives the empty and one-line cases; `TotalAppend` proves the
   * fold step and `TotalReplace` the effect of replacing one line.
   */
  function Total(items: seq<CartItem>): (r: int)
    ensures items == [] ==> r == 0
    ensures |items| == 1 ==> r == UnitPrice(items[0]) * items[0].quantity
  {
    if items == [] then 0
    else Total(items[..|items| - 1]) + UnitPrice(items[|items| - 1]) * items[|items| - 1].quantity
  }

  /**
   * `items.reduce((sum, item) => sum + item.quantity, 0)`: `getItemCount` and
   * `cartItemCount`. The contract gives the empty and one-line cases;
   * `ItemCountAppend` proves the fold step and `ItemCountReplace` the effect
   * of replacing one line.
   */
  function ItemCount(items: seq<CartItem>): (r: int)
    ensures items == [] ==> r == 0
    ensures |items| == 1 ==> r == items[0].quantity
  {
    if items == [] then 0 else ItemCount(items[..|items| - 1]) + items[|items| - 1].quantity
  }

  /** The stored total agrees with the lines, as after every local edit. */
  predicate Consistent(c: Cart) {
    c.total == Total(c.items)
  }

  // ---------------------------------------------------------------------------
  // Sums over lines
  // ---------------------------------------------------------------------------

  lemma TotalAppend(items: seq<CartItem>, x: CartItem)
    ensures Total(items + [x]) == Total(items) + UnitPrice(x) * x.quantity
  {
    assert (items + [x])[..|items|] == items;
  }

  lemma ItemCountAppend(items: seq<CartItem>, x: CartItem)
    ensures ItemCount(items + [x]) == ItemCount(items) + x.quantity
  {
    assert (items + [x])[..|items|] == items;
  }

  /** Replacing one line changes the total by the difference of the two lines. */
  lemma {:induction false} TotalReplace(items: seq<CartItem>, k: nat, x: CartItem)
    requires k < |items|
    ensures Total(items[k := x]) == Total(items) - UnitPrice(items[k]) * items[k].quantity + UnitPrice(x) * x.quantity
  {
    var n := |items|;
    var upd := items[k := x];
    if k < n - 1 {
      assert upd[..n - 1] == items[..n - 1][k := x];
      TotalReplace(items[..n - 1], k, x);
    } else {
      assert upd[..n - 1] == items[..n - 1];
    }
  }

  /** Replacing one line changes the item count by the difference of the two quantities. */
  lemma {:induction false} ItemCountReplace(items: seq<CartItem>, k: nat, x: CartItem)
    requires k < |items|
    ensures ItemCount(items[k := x]) == ItemCount(items) - items[k].quantity + x.quantity
  {
    var n := |items|;
    var upd := items[k := x];
    if k < n - 1 {
      assert upd[..n - 1] == items[..n - 1][k := x];
      ItemCountReplace(items[..n - 1], k, x);
    } else {
      assert upd[..n - 1] == items[..n - 1];
    }
  }

  /** With no negative price or quantity, the total is not negative. */
  lemma {:induction false} TotalNonNegative(items: seq<CartItem>)
    requires forall j :: 0 <= j < |items| ==> UnitPrice(items[j]) >= 0 && items[j].quantity >= 0
    ensures Total(items) >= 0
  {
    if items != [] {
      TotalNonNegative(items[..|items| - 1]);
    }
  }

  /** With no negative quantity, the item count is not negative and is at least each line's quantity. */
  lemma {:induction false} ItemCountBounds(items: seq<CartItem>)
    requires forall j :: 0 <= j < |items| ==> items[j].quantity >= 0
    ensures ItemCount(items) >= 0
    ensures forall j :: 0 <= j < |items| ==> items[j].quantity <= ItemCount(items)
  {
    if items != [] {
      var pre := items[..|items| - 1];
      ItemCountBounds(pre);
      assert forall j :: 0 <= j < |pre| ==> pre[j] == items[j];
    }
  }

  /** With every quantity at least one, the item count is at least the number of lines. */
  lemma {:induction false} ItemCountAtLeastLines(items: seq<CartItem>)
    requires forall j :: 0 <= j < |items| ==> items[j].quantity >= 1
    ensures ItemCount(items) >= |items|
  {
    if items != [] {
      ItemCountAtLeastLines(items[..|items| - 1]);
    }
  }

  // ---------------------------------------------------------------------------
  // Local edits
  // ---------------------------------------------------------------------------

  /** `items.findIndex(i => i.product_id === productId)` */
  function FindProduct(items: seq<CartItem>, productId: Value): (r: Option<nat>)
    ensures r.Some? ==> r.value < |items| && items[r.value].productId == productId
    ensures r.Some? ==> forall j :: 0 <= j < r.value ==> items[j].productId != productId
    ensures r.None? ==> forall j :: 0 <= j < |items| ==> items[j].productId != productId
  {
    if items == [] then None
    else if items[0].productId == productId then Some(0)
    else
      match FindProduct(items[1..], productId)
      case None => None
      case Some(i) => Some(i + 1)
  }

  /**
   * `addItem`: merges into the first line with the same product id (that
   * line keeps its own price) or appends the item, then recomputes the total.
   */
  function AddItem(c: Cart, item: CartItem): (r: Cart)
    ensures r.id == c.id && r.currency == c.currency && r.createdAt == c.createdAt
    ensures Consistent(r)
    ensures ItemCount(r.items) == ItemCount(c.items) + item.quantity
    ensures FindProduct(c.items, item.productId).None? ==> r.items == c.items + [item]
    ensures FindProduct(c.items, item.productId).Some? ==>
              var k := FindProduct(c.items, item.productId).value;
              && |r.items| == |c.items|
              && r.items[k] == c.items[k].(quantity := c.items[k].quantity + item.quantity)
              && forall j :: 0 <= j < |c.items| && j != k ==> r.items[j] == c.items[j]
  {
    match FindProduct(c.items, item.productId)
    case Some(k) =>
      var line := c.items[k].(quantity := c.items[k].quantity + item.quantity);
      ItemCountReplace(c.items, k, line);
      c.(items := c.items[k := line], total := Total(c.items[k := line]))
    case None =>
      ItemCountAppend(c.items, item);
      c.(items := c.items + [item], total := Total(c.items + [item]))
  }

  /** After `addItem` the total grows by the price of the line that received the quantity, times that quantity. */
  lemma AddItemTotal(c: Cart, item: CartItem)
    requires Consistent(c)
    ensures FindProduct(c.items, item.productId).None? ==>
              AddItem(c, item).total == c.total + UnitPrice(item) * item.quantity
    ensures FindProduct(c.items, item.productId).Some? ==>
              AddItem(c, item).total == c.total + UnitPrice(c.items[FindProduct(c.items, item.productId).value]) * item.quantity
  {
    var r := AddItem(c, item);
    match FindProduct(c.items, item.productId)
    case Some(k) =>
      var line := c.items[k].(quantity := c.items[k].quantity + item.quantity);
      assert r.total == Total(c.items[k := line]);
      MergeTotal(c.items, k, item.quantity);
    case None =>
      assert r.total == Total(c.items + [item]);
      TotalAppend(c.items, item);
  }

  /** Adding `q` to the quantity of line `k` adds `q` times that line's price to the total. */
  lemma MergeTotal(items: seq<CartItem>, k: nat, q: int)
    requires k < |items|
    ensures Total(items[k := items[k].(quantity := items[k].quantity + q)]) == Total(items) + UnitPrice(items[k]) * q
  {
    var line := items[k].(quantity := items[k].quantity + q);
    TotalReplace(items, k, line);
    var p, n := UnitPrice(items[k]), items[k].quantity;
    assert UnitPrice(line) * line.quantity == p * n + p * q by {
      assert UnitPrice(line) == p && line.quantity == n + q;
      assert p * (n + q) == p * n + p * q;
    }
  }

  /** `items.filter(i => i.product_id !== productId)` */
  function Without(items: seq<CartItem>, productId: Value): (r: seq<CartItem>)
    ensures |r| <= |items|
  {
    if items == [] then []
    else
      var pre, last := items[..|items| - 1], items[|items| - 1];
      assert items == pre + [last];
      Without(pre, productId) + (if last.productId != productId then [last] else [])
  }

  /** The filter keeps exactly the lines of other products. */
  lemma {:induction false} WithoutMembership(items: seq<CartItem>, productId: Value)
    ensures forall x :: x in Without(items, productId) <==> x in items && x.productId != productId
  {
    if items != [] {
      var pre, last := items[..|items| - 1], items[|items| - 1];
      assert items == pre + [last];
      WithoutMembership(pre, productId);
    }
  }

  /** Filtering a list grown by one line filters the list and then keeps or drops that line. */
  lemma WithoutSnoc(items: seq<CartItem>, x: CartItem, productId: Value)
    ensures Without(items + [x], productId) == Without(items, productId) + (if x.productId != productId then [x] else [])
  {
    assert (items + [x])[..|items|] == items;
  }

  /** Filtering out a product no line has keeps every line. */
  lemma {:induction false} WithoutAbsent(items: seq<CartItem>, productId: Value)
    ensures (forall j :: 0 <= j < |items| ==> items[j].productId != productId) ==> Without(items, productId) == items
  {
    if items != [] {
      var pre := items[..|items| - 1];
      assert items == pre + [items[|items| - 1]];
      WithoutAbsent(pre, productId);
    }
  }

  /** Filtering distributes over concatenation, so the kept lines stay in their original order. */
  lemma {:induction false} WithoutConcat(a: seq<CartItem>, b: seq<CartItem>, productId: Value)
    ensures Without(a + b, productId) == Without(a, productId) + Without(b, productId)
    decreases |b|
  {
    if b == [] {
      assert a + b == a;
    } else {
      var pre, last := b[..|b| - 1], b[|b| - 1];
      var tail := if last.productId != productId then [last] else [];
      calc {
        Without(a + b, productId);
        { assert a + b == (a + pre) + [last]; }
        Without((a + pre) + [last], productId);
        { WithoutSnoc(a + pre, last, productId); }
        Without(a + pre, productId) + tail;
        { WithoutConcat(a, pre, productId); }
        Without(a, productId) + Without(pre, productId) + tail;
        { assert b == pre + [last]; WithoutSnoc(pre, last, productId); }
        Without(a, productId) + Without(b, productId);
      }
    }
  }

  /** `removeItem`: drops every line of that product and recomputes the total. */
  function RemoveItem(c: Cart, productId: Value): (r: Cart)
    ensures r.id == c.id && r.currency == c.currency && r.createdAt == c.createdAt
    ensures Consistent(r)
    ensures forall x :: x in r.items <==> x in c.items && x.productId != productId
    ensures (forall j :: 0 <= j < |c.items| ==> c.items[j].productId != productId) ==> r.items == c.items
  {
    WithoutMembership(c.items, productId);
    WithoutAbsent(c.items, productId);
    var items := Without(c.items, productId);
    c.(items := items, total := Total(items))
  }

  /** Removing a product twice is the same as removing it once. */
  lemma RemoveItemIdempotent(c: Cart, productId: Value)
    ensures RemoveItem(RemoveItem(c, productId), productId) == RemoveItem(c, productId)
  {
  }

  /** Changing a line of the filtered product does not change what the filter keeps. */
  lemma {:induction false} WithoutReplaceFiltered(items: seq<CartItem>, k: nat, x: CartItem, productId: Value)
    requires k < |items| && items[k].productId == productId && x.productId == productId
    ensures Without(items[k := x], productId) == Without(items, productId)
  {
    var n := |items|;
    var upd := items[k := x];
    if k < n - 1 {
      assert upd[..n - 1] == items[..n - 1][k := x];
      WithoutReplaceFiltered(items[..n - 1], k, x, productId);
    } else {
      assert upd[..n - 1] == items[..n - 1];
    }
  }

  /** Adding an item and then removing its product leaves the cart as removing the product alone does. */
  lemma AddThenRemove(c: Cart, item: CartItem)
    ensures RemoveItem(AddItem(c, item), item.productId) == RemoveItem(c, item.productId)
  {
    var pid := item.productId;
    var added := AddItem(c, item);
    match FindProduct(c.items, pid)
    case None =>
      var ext := c.items + [item];
      assert ext[..|ext| - 1] == c.items;
      assert Without(added.items, pid) == Without(c.items, pid);
    case Some(k) =>
      var line := c.items[k].(quantity := c.items[k].quantity + item.quantity);
      assert added.items == c.items[k := line];
      WithoutReplaceFiltered(c.items, k, line, pid);
  }

  /** `Math.max(1, quantity)` */
  function AtLeastOne(q: int): (r: int)
    ensures r >= 1 && r >= q && (q >= 1 ==> r == q)
  {
    if q < 1 then 1 else q
  }

  /** `updateQuantity`: every line of that product gets `max(1, quantity)`; the total is recomputed. */
  function UpdateQuantity(c: Cart, productId: Value, quantity: int): (r: Cart)
    ensures r.id == c.id && r.currency == c.currency && r.createdAt == c.createdAt
    ensures Consistent(r)
    ensures |r.items| == |c.items|
    ensures forall j :: 0 <= j < |c.items| && c.items[j].productId == productId ==>
              r.items[j] == c.items[j].(quantity := AtLeastOne(quantity)) && r.items[j].quantity >= 1
    ensures forall j :: 0 <= j < |c.items| && c.items[j].productId != productId ==> r.items[j] == c.items[j]
  {
    var items := seq(|c.items|, j requires 0 <= j < |c.items| =>
      if c.items[j].productId == productId then c.items[j].(quantity := AtLeastOne(quantity)) else c.items[j]);
    c.(items := items, total := Total(items))
  }

  /** Setting the same quantity twice is the same as setting it once. */
  lemma UpdateQuantityIdempotent(c: Cart, productId: Value, quantity: int)
    ensures UpdateQuantity(UpdateQuantity(c, productId, quantity), productId, quantity) == UpdateQuantity(c, productId, quantity)
  {
    var once := UpdateQuantity(c, productId, quantity);
    var twice := UpdateQuantity(once, productId, quantity);
    assert twice.items == once.items;
  }

  /** `clear`: back to the initial cart. */
  function Clear(c: Cart): (r: Cart)
    ensures r.id == Null && r.items == [] && r.total == 0 && r.currency == Str("TWD") && r.createdAt == Null
    ensures Consistent(r) && ItemCount(r.items) == 0
  {
    InitialCart
  }

  // ---------------------------------------------------------------------------
  // Loading a server reply
  // ---------------------------------------------------------------------------

  /** `a || b`: the first operand when truthy, else the second. */
  function Or(a: Value, b: Value): (r: Value)
    ensures Truthy(a) ==> r == a
    ensures !Truthy(a) ==> r == b
  {
    if Truthy(a) then a else b
  }

  /** A price field: a number, or an object's `amount` (an amount that is not a number is dropped). */
  function PriceOf(v: Value): (r: Option<int>)
    ensures v.Num? ==> r == Some(v.n)
    ensures !v.Num? && IsObject(v) && Get(v, "amount").Num? ==> r == Some(Get(v, "amount").n)
    ensures r.None? <==> !v.Num? && !(IsObject(v) && Get(v, "amount").Num?)
  {
    if v.Num? then Some(v.n)
    else if IsObject(v) && Get(v, "amount").Num? then Some(Get(v, "amount").n)
    else None
  }

  /** One line of a server cart; reading a property of `null` throws. */
  function ItemFrom(v: Value): (r: Result<CartItem, string>)
    ensures r.Err? <==> v.Null? || v.Undefined?
    ensures r.Ok? ==> r.value.quantity == (if Get(v, "quantity").Num? then Get(v, "quantity").n else 1)
    ensures r.Ok? ==> r.value.productId == Or(Get(v, "product_id"), Get(v, "id"))
    ensures r.Ok? ==> r.value.price == PriceOf(Get(v, "price"))
    ensures r.Ok? ==> r.value.sku == Get(v, "sku") && r.value.name == Get(v, "name")
  {
    if v.Null? || v.Undefined? then Err("TypeError: cannot read properties of " + if v.Null? then "null" else "undefined")
    else
      Ok(CartItem(
        Or(Get(v, "product_id"), Get(v, "id")),
        Get(v, "sku"),
        Get(v, "name"),
        PriceOf(Get(v, "price")),
        if Get(v, "quantity").Num? then Get(v, "quantity").n else 1))
  }

  /** `items.map(...)` over the server's lines; the first line that throws aborts the whole update. */
  function ItemsFrom(vs: seq<Value>): (r: Result<seq<CartItem>, string>)
    ensures r.Ok? <==> forall j :: 0 <= j < |vs| ==> ItemFrom(vs[j]).Ok?
    ensures r.Ok? ==> |r.value| == |vs| && forall j :: 0 <= j < |vs| ==> r.value[j] == ItemFrom(vs[j]).value
  {
    if vs == [] then Ok([])
    else
      match ItemFrom(vs[0])
      case Err(e) => Err(e)
      case Ok(x) =>
        match ItemsFrom(vs[1..])
        case Err(e) => Err(e)
        case Ok(xs) => Ok([x] + xs)
  }

  /** A total field: a number, or an object's `amount`; anything else keeps the current total. */
  function TotalFrom(v: Value, current: int): int {
    if v.Num? then v.n
    else if IsObject(v) && Get(v, "amount").Num? then Get(v, "amount").n
    else current
  }

  /**
   * `setCart`: a falsy or non-object reply leaves the cart as it is; otherwise
   * each field is taken from the reply when present and kept otherwise, and
   * the lines are replaced only when the reply's `items` is an array.
   * `Err` is the TypeError `setCart` throws when an item is `null` or `undefined`,
   * which leaves the cart unchanged.
   */
  function SetCart(state: Cart, reply: Value): (r: Result<Cart, string>)
    ensures !Truthy(reply) || !IsObject(reply) ==> r == Ok(state)
    ensures r.Err? <==> IsObject(reply) && Get(reply, "items").Arr? && !ItemsFrom(Get(reply, "items").elems).Ok?
    ensures r.Ok? && !Get(reply, "items").Arr? ==> r.value.items == state.items
    ensures r.Ok? && Get(reply, "items").Arr? ==>
              && |r.value.items| == |Get(reply, "items").elems|
              && forall j :: 0 <= j < |r.value.items| ==> r.value.items[j] == ItemFrom(Get(reply, "items").elems[j]).value
    ensures r.Ok? && !Truthy(Get(reply, "id")) && !Truthy(Get(reply, "cart_id")) ==> r.value.id == state.id
    ensures r.Ok? && !Truthy(Get(reply, "currency")) ==> r.value.currency == state.currency
    ensures r.Ok? && !Truthy(Get(reply, "created_at")) ==> r.value.createdAt == state.createdAt
    ensures r.Ok? && IsObject(reply) && Truthy(Get(reply, "id")) ==> r.value.id == Get(reply, "id")
    ensures r.Ok? && IsObject(reply) && !Truthy(Get(reply, "id")) && Truthy(Get(reply, "cart_id")) ==> r.value.id == Get(reply, "cart_id")
    ensures r.Ok? && IsObject(reply) && Truthy(Get(reply, "currency")) ==> r.value.currency == Get(reply, "currency")
    ensures r.Ok? && IsObject(reply) && Truthy(Get(reply, "created_at")) ==> r.value.createdAt == Get(reply, "created_at")
    ensures r.Ok? && IsObject(reply) && Get(reply, "total").Num? ==> r.value.total == Get(reply, "total").n
    ensures r.Ok? && IsObject(reply) && Get(Get(reply, "total"), "amount").Num? ==> r.value.total == Get(Get(reply, "total"), "amount").n
    ensures r.Ok? && !Get(reply, "total").Num? && !Get(Get(reply, "total"), "amount").Num? ==> r.value.total == state.total
  {
    if !Truthy(reply) || !IsObject(reply) then Ok(state)
    else
      var items := Get(reply, "items");
      var lines := if items.Arr? then ItemsFrom(items.elems) else Ok(state.items);
      match lines
      case Err(e) => Err(e)
      case Ok(ls) =>
        Ok(Cart(
          Or(Get(reply, "id"), Or(Get(reply, "cart_id"), state.id)),
          ls,
          TotalFrom(Get(reply, "total"), state.total),
          Or(Get(reply, "currency"), state.currency),
          Or(Get(reply, "created_at"), state.createdAt)))
  }

  /** Loading the same reply twice is the same as loading it once. */
  lemma SetCartIdempotent(state: Cart, reply: Value)
    requires SetCart(state, reply).Ok?
    ensures SetCart(SetCart(state, reply).value, reply) == SetCart(state, reply)
  {
  }
}
