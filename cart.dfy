/**
 * The session shopping cart. The cart maps `str(product_id)` to an entry
 * holding the quantity and a snapshot of the product's name and price; the
 * catalogue maps product ids to product rows. The handlers answer with a
 * status: `NotFound` where Flask aborts with 404, `Rejected` where they flash
 * a validation message and redirect, `Ok` otherwise.
 */
module Cart {
  import opened Common
  import opened Keys
  import opened Catalog

  datatype CartEntry = CartEntry(quantity: int, name: string, price: int)

  type CartMap = map<string, CartEntry>

  type Catalogue = map<nat, ProductRecord>

  datatype Status = Ok | Rejected | NotFound

  /** What a handler answers and the cart it leaves in the session. */
  datatype Step = Step(status: Status, cart: CartMap)

  /** One row of the cart page: the live product, the quantity and the line total. */
  datatype CartItem = CartItem(key: string, product: ProductRecord, quantity: int, total: int)

  /** Every key is one `str` produced and every quantity is at least 1. */
  predicate WellFormed(cart: CartMap) {
    forall k :: k in cart ==> IsKey(k) && cart[k].quantity >= 1
  }

  /** The product a cart key refers to, looked up in the live catalogue. */
  function ProductAt(catalog: Catalogue, key: string): Option<ProductRecord> {
    match ParseDecimal(key)
    case None => None
    case Some(id) => if id in catalog then Some(catalog[id]) else None
  }

  lemma ProductAtKey(catalog: Catalogue, id: nat)
    ensures ProductAt(catalog, Key(id)) == if id in catalog then Some(catalog[id]) else None
  {
    ParseKey(id);
  }

  // ---------------------------------------------------------------------
  // The three cart-changing handlers

  /** Adding `quantity` of a product. */
  function Add(cart: CartMap, catalog: Catalogue, productId: nat, quantity: int): (r: Step)
    ensures productId !in catalog ==> r == Step(NotFound, cart)
    ensures productId in catalog && (quantity < 1 || quantity > catalog[productId].stock) ==>
      r == Step(Rejected, cart)
    ensures r.status == Ok <==> productId in catalog && 1 <= quantity <= catalog[productId].stock
    ensures r.status == Ok ==> r.cart.Keys == cart.Keys + {Key(productId)}
    ensures r.status == Ok && Key(productId) in cart ==>
      r.cart[Key(productId)] == cart[Key(productId)].(quantity := cart[Key(productId)].quantity + quantity)
    ensures r.status == Ok && Key(productId) !in cart ==>
      r.cart[Key(productId)] == CartEntry(quantity, catalog[productId].name, catalog[productId].price)
    ensures r.cart - {Key(productId)} == cart - {Key(productId)}
    ensures WellFormed(cart) ==> WellFormed(r.cart)
  {
    if productId !in catalog then Step(NotFound, cart)
    else
      var product := catalog[productId];
      if quantity < 1 || quantity > product.stock then Step(Rejected, cart)
      else
        var key := Key(productId);
        ParseKey(productId);
        var entry := if key in cart then cart[key].(quantity := cart[key].quantity + quantity)
                     else CartEntry(quantity, product.name, product.price);
        Step(Ok, cart[key := entry])
  }

  /** Removing a product's entry. */
  function Remove(cart: CartMap, productId: nat): (r: Step)
    ensures r.status == Ok <==> Key(productId) in cart
    ensures r.status != Ok ==> r == Step(NotFound, cart)
    ensures Key(productId) !in r.cart
    ensures r.cart - {Key(productId)} == cart - {Key(productId)}
    ensures WellFormed(cart) ==> WellFormed(r.cart)
  {
    var key := Key(productId);
    if key !in cart then Step(NotFound, cart) else Step(Ok, cart - {key})
  }

  /** Setting a product's quantity; below 1 it removes the entry. */
  function Update(cart: CartMap, catalog: Catalogue, productId: nat, quantity: int): (r: Step)
    ensures Key(productId) !in cart || productId !in catalog ==> r == Step(NotFound, cart)
    ensures Key(productId) in cart && productId in catalog && quantity < 1 ==>
      r == Remove(cart, productId)
    ensures Key(productId) in cart && productId in catalog && 1 <= quantity && quantity > catalog[productId].stock ==>
      r == Step(Rejected, cart)
    ensures r.status == Ok <==>
      Key(productId) in cart && productId in catalog && (quantity < 1 || quantity <= catalog[productId].stock)
    ensures r.status == Ok && quantity >= 1 ==>
      r.cart.Keys == cart.Keys &&
      r.cart[Key(productId)].quantity == quantity &&
      r.cart[Key(productId)].name == cart[Key(productId)].name &&
      r.cart[Key(productId)].price == cart[Key(productId)].price
    ensures r.cart - {Key(productId)} == cart - {Key(productId)}
    ensures WellFormed(cart) ==> WellFormed(r.cart)
  {
    var key := Key(productId);
    if key !in cart || productId !in catalog then Step(NotFound, cart)
    else if quantity < 1 then Remove(cart, productId)
    else if quantity > catalog[productId].stock then Step(Rejected, cart)
    else Step(Ok, cart[key := cart[key].(quantity := quantity)])
  }

  // ---------------------------------------------------------------------
  // The cart total

  /** What one entry adds to the total: live price times quantity, or nothing if the product is gone. */
  function Line(catalog: Catalogue, key: string, entry: CartEntry): int {
    match ProductAt(catalog, key)
    case None => 0
    case Some(p) => p.price * entry.quantity
  }

  /** The line of `str(id)`: the catalogue price of product `id` times the quantity, or 0 if it is gone. */
  lemma LineAtKey(catalog: Catalogue, id: nat, entry: CartEntry)
    ensures Line(catalog, Key(id), entry) == if id in catalog then catalog[id].price * entry.quantity else 0
  {
    ProductAtKey(catalog, id);
  }

  /** The sum of the lines of the given entries, in no particular order. */
  ghost function SumLines(cart: CartMap, catalog: Catalogue, keys: set<string>): (r: int)
    requires keys <= cart.Keys
    decreases keys
  {
    if keys == {} then 0
    else
      var k :| k in keys;
      Line(catalog, k, cart[k]) + SumLines(cart, catalog, keys - {k})
  }

  /** The total the cart page shows; an empty cart totals 0. */
  ghost function Total(cart: CartMap, catalog: Catalogue): (r: int)
    ensures cart == map[] ==> r == 0
  {
    SumLines(cart, catalog, cart.Keys)
  }

  /** Any entry can be taken out of the sum first: the order of the entries does not matter. */
  lemma {:induction false} SumLinesRemove(cart: CartMap, catalog: Catalogue, keys: set<string>, k: string)
    requires keys <= cart.Keys && k in keys
    ensures SumLines(cart, catalog, keys) == Line(catalog, k, cart[k]) + SumLines(cart, catalog, keys - {k})
    decreases keys
  {
    var j :| j in keys && SumLines(cart, catalog, keys) ==
      Line(catalog, j, cart[j]) + SumLines(cart, catalog, keys - {j});
    if j != k {
      SumLinesRemove(cart, catalog, keys - {j}, k);
      SumLinesRemove(cart, catalog, keys - {k}, j);
      assert keys - {j} - {k} == keys - {k} - {j};
    }
  }

  /** The sum depends only on the entries it ranges over. */
  lemma {:induction false} SumLinesFrame(c1: CartMap, c2: CartMap, catalog: Catalogue, keys: set<string>)
    requires keys <= c1.Keys && keys <= c2.Keys
    requires forall k :: k in keys ==> c1[k] == c2[k]
    ensures SumLines(c1, catalog, keys) == SumLines(c2, catalog, keys)
    decreases keys
  {
    if keys != {} {
      var k :| k in keys;
      SumLinesRemove(c1, catalog, keys, k);
      SumLinesRemove(c2, catalog, keys, k);
      SumLinesFrame(c1, c2, catalog, keys - {k});
    }
  }

  /** A sum of lines that are all 0 is 0, and a sum of lines none of which is negative is not negative. */
  lemma {:induction false} SumLinesBounds(cart: CartMap, catalog: Catalogue, keys: set<string>)
    requires keys <= cart.Keys
    ensures (forall k :: k in keys ==> Line(catalog, k, cart[k]) == 0) ==> SumLines(cart, catalog, keys) == 0
    ensures (forall k :: k in keys ==> Line(catalog, k, cart[k]) >= 0) ==> SumLines(cart, catalog, keys) >= 0
    decreases keys
  {
    if keys != {} {
      var k :| k in keys;
      SumLinesRemove(cart, catalog, keys, k);
      SumLinesBounds(cart, catalog, keys - {k});
    }
  }

  /** A cart whose products have all left the catalogue totals 0. */
  lemma TotalAllMissing(cart: CartMap, catalog: Catalogue)
    requires forall k :: k in cart ==> ProductAt(catalog, k) == None
    ensures Total(cart, catalog) == 0
  {
    SumLinesBounds(cart, catalog, cart.Keys);
  }

  /** With no negative price and no negative quantity, the total is not negative. */
  lemma TotalNonNegative(cart: CartMap, catalog: Catalogue)
    requires forall k :: k in cart ==> cart[k].quantity >= 0
    requires forall id :: id in catalog ==> catalog[id].price >= 0
    ensures Total(cart, catalog) >= 0
  {
    forall k | k in cart
      ensures Line(catalog, k, cart[k]) >= 0
    {
    }
    SumLinesBounds(cart, catalog, cart.Keys);
  }

  /** The total is one entry's line plus the total of the rest of the cart. */
  lemma TotalSplit(cart: CartMap, catalog: Catalogue, k: string)
    requires k in cart
    ensures Total(cart, catalog) == Line(catalog, k, cart[k]) + Total(cart - {k}, catalog)
  {
    SumLinesRemove(cart, catalog, cart.Keys, k);
    assert (cart - {k}).Keys == cart.Keys - {k};
    SumLinesFrame(cart, cart - {k}, catalog, cart.Keys - {k});
  }

  /** An entry whose product has left the catalogue contributes nothing. */
  lemma TotalSkipsMissing(cart: CartMap, catalog: Catalogue, k: string)
    requires k in cart && ProductAt(catalog, k) == None
    ensures Total(cart, catalog) == Total(cart - {k}, catalog)
  {
    TotalSplit(cart, catalog, k);
  }

  /** A successful add raises the total by the live price times the quantity added. */
  lemma TotalAfterAdd(cart: CartMap, catalog: Catalogue, productId: nat, quantity: int)
    requires Add(cart, catalog, productId, quantity).status == Ok
    ensures Total(Add(cart, catalog, productId, quantity).cart, catalog) ==
            Total(cart, catalog) + catalog[productId].price * quantity
  {
    var after := Add(cart, catalog, productId, quantity).cart;
    var key := Key(productId);
    ProductAtKey(catalog, productId);
    TotalSplit(after, catalog, key);
    if key in cart {
      TotalSplit(cart, catalog, key);
      var q0 := cart[key].quantity;
      assert catalog[productId].price * (q0 + quantity) ==
             catalog[productId].price * q0 + catalog[productId].price * quantity;
    } else {
      assert after - {key} == cart;
    }
  }

  /** A successful remove lowers the total by that entry's line. */
  lemma TotalAfterRemove(cart: CartMap, catalog: Catalogue, productId: nat)
    requires Key(productId) in cart
    ensures Total(Remove(cart, productId).cart, catalog) ==
            Total(cart, catalog) - Line(catalog, Key(productId), cart[Key(productId)])
  {
    TotalSplit(cart, catalog, Key(productId));
  }

  /** A successful quantity change replaces that entry's line by live price times the new quantity. */
  lemma TotalAfterUpdate(cart: CartMap, catalog: Catalogue, productId: nat, quantity: int)
    requires quantity >= 1 && Update(cart, catalog, productId, quantity).status == Ok
    ensures Total(Update(cart, catalog, productId, quantity).cart, catalog) ==
            Total(cart, catalog) - catalog[productId].price * cart[Key(productId)].quantity
                                 + catalog[productId].price * quantity
  {
    var key := Key(productId);
    ProductAtKey(catalog, productId);
    TotalSplit(cart, catalog, key);
    TotalSplit(Update(cart, catalog, productId, quantity).cart, catalog, key);
  }

  // ---------------------------------------------------------------------
  // Properties that relate several handlers

  /** Removing a product right after adding it, when it was not in the cart, restores the cart. */
  lemma RemoveUndoesAdd(cart: CartMap, catalog: Catalogue, productId: nat, quantity: int)
    requires Key(productId) !in cart
    requires Add(cart, catalog, productId, quantity).status == Ok
    ensures Remove(Add(cart, catalog, productId, quantity).cart, productId) == Step(Ok, cart)
  {
  }

  /**
   * Adding checks the stock against the quantity being added, not against the
   * quantity already in the cart, so an entry can end up above the stock.
   */
  lemma AddCanExceedStock(cart: CartMap, catalog: Catalogue)
    requires 7 in catalog && catalog[7].stock == 5
    requires Key(7) in cart && cart[Key(7)].quantity == 4
    ensures Add(cart, catalog, 7, 3).status == Ok
    ensures Add(cart, catalog, 7, 3).cart[Key(7)].quantity > catalog[7].stock
  {
  }

  /**
   * Adding 2 of product 3 (price 100, stock 5) to an empty cart gives a total
   * of 200; asking for 6 afterwards is rejected and leaves 2 in the cart;
   * asking for 5 sets 5; then removing it empties the cart.
   */
  lemma CartScenario(catalog: Catalogue)
    requires 3 in catalog && catalog[3].price == 100 && catalog[3].stock == 5
    ensures var added := Add(map[], catalog, 3, 2);
      && added.status == Ok
      && Total(added.cart, catalog) == 200
      && Update(added.cart, catalog, 3, 6) == Step(Rejected, added.cart)
      && added.cart[Key(3)].quantity == 2
      && var updated := Update(added.cart, catalog, 3, 5);
      && updated.status == Ok && updated.cart[Key(3)].quantity == 5
      && Remove(updated.cart, 3) == Step(Ok, map[])
  {
    var added := Add(map[], catalog, 3, 2);
    TotalAfterAdd(map[], catalog, 3, 2);
    var updated := Update(added.cart, catalog, 3, 5);
    assert updated.cart.Keys == {Key(3)};
    assert Remove(updated.cart, 3).cart == map[];
  }

  // ---------------------------------------------------------------------
  // The session

  /** One browser session's cart; a session without a cart is one with the empty cart. */
  class Session {
    var cart: CartMap

    ghost predicate Valid()
      reads this
    {
      WellFormed(cart)
    }

    constructor ()
      ensures cart == map[] && Valid()
    {
      cart := map[];
    }

    /** POST /add/<product_id> */
    method AddToCart(catalog: Catalogue, productId: nat, quantity: int) returns (status: Status)
      modifies this
      ensures Step(status, cart) == Add(old(cart), catalog, productId, quantity)
      ensures old(Valid()) ==> Valid()
    {
      if productId !in catalog {
        return NotFound;
      }
      var product := catalog[productId];
      if quantity < 1 || quantity > product.stock {
        return Rejected;
      }
      var c := cart;
      var key := Key(productId);
      if key in c {
        c := c[key := c[key].(quantity := c[key].quantity + quantity)];
      } else {
        c := c[key := CartEntry(quantity, product.name, product.price)];
      }
      cart := c;
      status := Ok;
    }

    /** POST /update_cart/<product_id> */
    method UpdateCart(catalog: Catalogue, productId: nat, quantity: int) returns (status: Status)
      modifies this
      ensures Step(status, cart) == Update(old(cart), catalog, productId, quantity)
      ensures old(Valid()) ==> Valid()
    {
      var key := Key(productId);
      if key !in cart {
        return NotFound;
      }
      if productId !in catalog {
        return NotFound;
      }
      var product := catalog[productId];
      if quantity < 1 {
        status := RemoveFromCart(productId);
        return;
      }
      if quantity > product.stock {
        return Rejected;
      }
      cart := cart[key := cart[key].(quantity := quantity)];
      status := Ok;
    }

    /** GET /remove_from_cart/<product_id> */
    method RemoveFromCart(productId: nat) returns (status: Status)
      modifies this
      ensures Step(status, cart) == Remove(old(cart), productId)
      ensures old(Valid()) ==> Valid()
    {
      var key := Key(productId);
      if key !in cart {
        return NotFound;
      }
      cart := cart - {key};
      status := Ok;
    }

    /**
     * GET /cart: no rows for an empty cart; otherwise one row per entry whose
     * product still exists, priced at the live price, and the grand total.
     */
    method ViewCart(catalog: Catalogue) returns (items: Option<seq<CartItem>>, total: int)
      ensures items == None <==> cart == map[]
      ensures total == Total(cart, catalog)
      ensures items.Some? ==> forall i :: 0 <= i < |items.value| ==>
        Shows(items.value[i], cart, catalog)
      ensures items.Some? ==> forall i, j :: 0 <= i < j < |items.value| ==>
        items.value[i].key != items.value[j].key
      ensures items.Some? ==> forall k :: k in cart && ProductAt(catalog, k).Some? ==>
        exists i :: 0 <= i < |items.value| && items.value[i].key == k
      ensures items.Some? && Valid() ==> forall i :: 0 <= i < |items.value| ==>
        KeyedBy(items.value[i], catalog)
    {
      if cart == map[] {
        return None, 0;
      }
      var rows: seq<CartItem> := [];
      total := 0;
      var remaining := cart.Keys;
      while remaining != {}
        invariant remaining <= cart.Keys
        invariant total + SumLines(cart, catalog, remaining) == Total(cart, catalog)
        invariant forall i :: 0 <= i < |rows| ==> Shows(rows[i], cart, catalog) && rows[i].key !in remaining
        invariant forall i, j :: 0 <= i < j < |rows| ==> rows[i].key != rows[j].key
        invariant forall k :: k in cart && k !in remaining && ProductAt(catalog, k).Some? ==>
          exists i :: 0 <= i < |rows| && rows[i].key == k
        decreases remaining
      {
        var key :| key in remaining;
        ghost var before := rows;
        var item := cart[key];
        var product := ProductAt(catalog, key);
        SumLinesRemove(cart, catalog, remaining, key);
        if product.Some? {
          var itemTotal := product.value.price * item.quantity;
          rows := rows + [CartItem(key, product.value, item.quantity, itemTotal)];
          total := total + itemTotal;
        }
        remaining := remaining - {key};
        forall k | k in cart && k !in remaining && ProductAt(catalog, k).Some?
          ensures exists i :: 0 <= i < |rows| && rows[i].key == k
        {
          if k == key {
            assert rows[|rows| - 1].key == k;
          } else {
            var i :| 0 <= i < |before| && before[i].key == k;
            assert rows[i].key == k;
          }
        }
      }
      items := Some(rows);
      if Valid() {
        forall i | 0 <= i < |items.value|
          ensures KeyedBy(items.value[i], catalog)
        {
          var item := items.value[i];
          assert Shows(item, cart, catalog);
          var id := ParseDecimal(item.key).value;
          assert item.key == Key(id) && id in catalog && catalog[id] == item.product;
        }
      }
    }
  }

  /** A cart row's key is `str(id)` of the catalogue id its product is filed under. */
  ghost predicate KeyedBy(item: CartItem, catalog: Catalogue) {
    exists id: nat :: id in catalog && item.key == Key(id) && catalog[id] == item.product
  }

  /** A cart row shows an entry of the cart with its live product and line total. */
  predicate Shows(item: CartItem, cart: CartMap, catalog: Catalogue) {
    && item.key in cart
    && ProductAt(catalog, item.key) == Some(item.product)
    && item.quantity == cart[item.key].quantity
    && item.total == item.product.price * item.quantity
  }
}
