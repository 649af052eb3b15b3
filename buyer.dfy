/** The buyer service: browsing, the cart, the balance, checkout and order
    history, over the Users, Inventory, Carts and Orders collections. */
module Buyer {
  import opened Seqs
  import opened Tables
  import opened Store

  /** The status every order is created with. */
  const PLACED := "placed"

  /** A row of the product listing. */
  datatype ProductRow = ProductRow(productId: Id, product: string, price: int, quantity: int)

  /** A row of a cart listing. */
  datatype CartRow = CartRow(cartId: Id, product: string, quantity: int, price: int)

  /** A row of an order listing. */
  datatype OrderRow = OrderRow(orderId: Id, items: seq<OrderLine>, totalPayment: int, status: string)

  function ProductRowOf(it: Item): ProductRow {
    ProductRow(it.id, it.product, it.price, it.quantity)
  }

  function CartRowOf(c: CartEntry): CartRow {
    CartRow(c.id, c.product, c.quantity, c.price)
  }

  function OrderRowOf(o: Order): OrderRow {
    OrderRow(o.id, o.items, o.totalPayment, o.status)
  }

  /** `Orders.find({"buyer": buyer})`. */
  function OrdersOf(orders: seq<Order>, buyer: string): seq<Order> {
    Filter(orders, PlacedBy(buyer))
  }

  // ---------------------------------------------------------------- listings

  /** `view_products`: every Inventory row, in collection order, or the
      "no products" message when there is none. */
  function ViewProducts(inventory: seq<Item>): (r: View<ProductRow>)
    ensures r.NothingFound? <==> inventory == []
    ensures r.Rows? ==> |r.rows| == |inventory|
    ensures r.Rows? ==> forall k :: 0 <= k < |inventory| ==> r.rows[k] == ProductRowOf(inventory[k])
  {
    if inventory == [] then NothingFound
    else Rows(seq(|inventory|, k requires 0 <= k < |inventory| => ProductRowOf(inventory[k])))
  }

  /** `view_cart`: the rows of the buyer's cart, in collection order, or the
      "cart is empty" message when the buyer has none. */
  function ViewCart(carts: seq<CartEntry>, buyer: string): (r: View<CartRow>)
    ensures r.NothingFound? <==> forall j :: 0 <= j < |carts| ==> carts[j].buyer != buyer
    ensures r.Rows? ==> |r.rows| == |CartOf(carts, buyer)|
    ensures r.Rows? ==> forall k :: 0 <= k < |r.rows| ==> r.rows[k] == CartRowOf(CartOf(carts, buyer)[k])
    ensures r.Rows? ==> forall k :: 0 <= k < |r.rows| ==>
      exists j :: 0 <= j < |carts| && carts[j].buyer == buyer && r.rows[k] == CartRowOf(carts[j])
  {
    var mine := CartOf(carts, buyer);
    FilterEmptyIff(carts, InCartOf(buyer));
    if mine == [] then NothingFound
    else Rows(seq(|mine|, k requires 0 <= k < |mine| => CartRowOf(mine[k])))
  }

  /** `view_orders`: the buyer's orders, in collection order, or the
      "no orders" message when the buyer has none. */
  function ViewOrders(orders: seq<Order>, buyer: string): (r: View<OrderRow>)
    ensures r.NothingFound? <==> forall j :: 0 <= j < |orders| ==> orders[j].buyer != buyer
    ensures r.Rows? ==> |r.rows| == |OrdersOf(orders, buyer)|
    ensures r.Rows? ==> forall k :: 0 <= k < |r.rows| ==> r.rows[k] == OrderRowOf(OrdersOf(orders, buyer)[k])
    ensures r.Rows? ==> forall k :: 0 <= k < |r.rows| ==>
      exists j :: 0 <= j < |orders| && orders[j].buyer == buyer && r.rows[k] == OrderRowOf(orders[j])
  {
    var mine := OrdersOf(orders, buyer);
    FilterEmptyIff(orders, PlacedBy(buyer));
    if mine == [] then NothingFound
    else Rows(seq(|mine|, k requires 0 <= k < |mine| => OrderRowOf(mine[k])))
  }

  /** `check_balance`: the first user of that name's savings (0 when the
      field is missing), or an error when there is no such user. */
  function CheckBalance(users: seq<User>, buyer: string): (r: Result<int>)
    ensures r.Err? <==> forall j :: 0 <= j < |users| ==> users[j].username != buyer
    ensures r.Err? ==> r.error == UserNotFound
    ensures r.Ok? ==>
      exists j :: 0 <= j < |users| && users[j].username == buyer && r.value == Balance(users[j])
                  && forall m :: 0 <= m < j ==> users[m].username != buyer
  {
    match FindUser(users, buyer)
    case None => Err(UserNotFound)
    case Some(i) => Ok(Balance(users[i]))
  }

  // ---------------------------------------------------------------- balance

  /** User `i` with `amount` added to its savings (`$inc` on a missing field starts from 0). */
  function Credit(users: seq<User>, i: nat, amount: int): seq<User>
    requires i < |users|
  {
    users[i := users[i].(savings := Some(Balance(users[i]) + amount))]
  }

  /** After crediting the user a balance check finds, the check reports the
      old balance plus the amount, and every other user's check is as before. */
  lemma CheckBalanceAfterCredit(users: seq<User>, buyer: string, other: string, amount: int)
    requires FindUser(users, buyer).Some?
    ensures CheckBalance(Credit(users, FindUser(users, buyer).value, amount), buyer)
              == Ok(Balance(users[FindUser(users, buyer).value]) + amount)
    ensures other != buyer ==>
              CheckBalance(Credit(users, FindUser(users, buyer).value, amount), other) == CheckBalance(users, other)
  {
    var i := FindUser(users, buyer).value;
    CreditKeepsNames(users, i, amount, buyer);
    CreditKeepsNames(users, i, amount, other);
  }

  /** A credit changes no username, so every lookup by name finds the same row. */
  lemma CreditKeepsNames(users: seq<User>, i: nat, amount: int, name: string)
    requires i < |users|
    ensures FindUser(Credit(users, i, amount), name) == FindUser(users, name)
  {
    var after := Credit(users, i, amount);
    assert forall j :: 0 <= j < |users| ==> HasUsername(name)(after[j]) == HasUsername(name)(users[j]);
  }

  /** `add_balance`: refuse a non-positive amount or an unknown buyer;
      otherwise add the amount to that user's savings and report the new balance. */
  method AddBalance(db: Db, buyer: string, amount: int) returns (r: Result<int>)
    requires db.Valid()
    modifies db
    ensures db.Valid()
    ensures amount <= 0 ==> r == Err(NonPositiveAmount) && unchanged(db)
    ensures amount > 0 && FindUser(old(db.users), buyer).None? ==> r == Err(UserNotFound) && unchanged(db)
    ensures amount > 0 && FindUser(old(db.users), buyer).Some? ==>
      var i := FindUser(old(db.users), buyer).value;
      && r == Ok(Balance(old(db.users)[i]) + amount)
      && db.State() == old(db.State()).(users := Credit(old(db.users), i, amount))
  {
    if amount <= 0 {
      return Err(NonPositiveAmount);
    }
    var found := FindUser(db.users, buyer);
    if found.None? {
      return Err(UserNotFound);
    }
    db.users := Credit(db.users, found.value, amount);
    var user := db.users[found.value];
    return Ok(Balance(user));
  }

  // ---------------------------------------------------------------- cart

  /** The cart row `add_to_cart` inserts: the product's current name and price. */
  function Snapshot(id: Id, buyer: string, it: Item, quantity: int): CartEntry {
    CartEntry(id, buyer, it.id, it.product, quantity, it.price)
  }

  /** Adding a row to the cart table adds it at the end of its buyer's cart
      and leaves every other buyer's cart as it was. */
  lemma CartAfterAppend(carts: seq<CartEntry>, e: CartEntry, buyer: string)
    ensures CartOf(carts + [e], buyer) == CartOf(carts, buyer) + (if e.buyer == buyer then [e] else [])
  {
    FilterAppend(carts, [e], InCartOf(buyer));
    assert [e][1..] == [];
  }

  /** `add_to_cart`: refuse a non-positive quantity, an unknown product or a
      quantity above the product's stock; otherwise append one new cart row
      with the product's current name and price. Existing rows are never
      merged, and the inventory is not touched. */
  method AddToCart(db: Db, buyer: string, productId: Id, quantity: int) returns (r: Result<()>)
    requires db.Valid()
    modifies db
    ensures db.Valid()
    ensures var found := FindItem(old(db.inventory), productId);
      r == (if quantity <= 0 then Err(NonPositiveQuantity)
            else if found.None? then Err(ProductNotFound)
            else if old(db.inventory)[found.value].quantity < quantity then Err(InsufficientStock)
            else Ok(()))
    ensures r.Err? ==> unchanged(db)
    ensures r.Ok? ==>
      var it := old(db.inventory)[FindItem(old(db.inventory), productId).value];
      db.State() == old(db.State()).(carts := old(db.carts) + [Snapshot(old(db.nextId), buyer, it, quantity)],
                                     nextId := old(db.nextId) + 1)
  {
    if quantity <= 0 {
      return Err(NonPositiveQuantity);
    }
    var found := FindItem(db.inventory, productId);
    if found.None? {
      return Err(ProductNotFound);
    }
    var product := db.inventory[found.value];
    if product.quantity < quantity {
      return Err(InsufficientStock);
    }
    var id := db.FreshId();
    db.carts := db.carts + [Snapshot(id, buyer, product, quantity)];
    return Ok(());
  }

  /** Removing row `i` from a cart table keeps its ids unique and below the counter. */
  lemma RemoveCartIds(carts: seq<CartEntry>, nextId: Id, i: nat)
    requires i < |carts| && CartIdsFresh(carts, nextId)
    ensures CartIdsFresh(RemoveAt(carts, i), nextId)
  {
    var r := RemoveAt(carts, i);
    forall a, b | 0 <= a < b < |r| ensures r[a].id != r[b].id {
      var a' := if a < i then a else a + 1;
      var b' := if b < i then b else b + 1;
      assert r[a] == carts[a'] && r[b] == carts[b'];
    }
  }

  /** `remove_from_cart`: delete the first cart row of this buyer for this
      product, or report that there is none and change nothing. */
  method RemoveFromCart(db: Db, buyer: string, productId: Id) returns (r: Result<()>)
    requires db.Valid()
    modifies db
    ensures db.Valid()
    ensures FirstIndex(old(db.carts), IsCartLine(buyer, productId)).None? ==>
      r == Err(CartLineNotFound) && unchanged(db)
    ensures FirstIndex(old(db.carts), IsCartLine(buyer, productId)).Some? ==>
      var i := FirstIndex(old(db.carts), IsCartLine(buyer, productId)).value;
      r == Ok(()) && db.State() == old(db.State()).(carts := RemoveAt(old(db.carts), i))
  {
    var found := FirstIndex(db.carts, IsCartLine(buyer, productId));
    if found.None? {
      return Err(CartLineNotFound);
    }
    RemoveCartIds(db.carts, db.nextId, found.value);
    db.carts := RemoveAt(db.carts, found.value);
    return Ok(());
  }

  // ---------------------------------------------------------------- checkout

  /** `sum(price * quantity)` over the cart rows. */
  function Total(lines: seq<CartEntry>): int {
    if lines == [] then 0 else lines[0].price * lines[0].quantity + Total(lines[1..])
  }

  /** How much of product `productId` the rows ask for in all. */
  function Demand(lines: seq<CartEntry>, productId: Id): int {
    if lines == [] then 0
    else (if lines[0].productId == productId then lines[0].quantity else 0) + Demand(lines[1..], productId)
  }

  lemma {:induction false} DemandAppend(lines: seq<CartEntry>, line: CartEntry, productId: Id)
    ensures Demand(lines + [line], productId)
              == Demand(lines, productId) + (if line.productId == productId then line.quantity else 0)
  {
    if lines == [] {
      assert [line][1..] == [];
      assert lines + [line] == [line];
    } else {
      assert (lines + [line])[1..] == lines[1..] + [line];
      DemandAppend(lines[1..], line, productId);
    }
  }

  /** The per-row stock check of checkout: the product exists and has at
      least the row's quantity in stock. */
  predicate LineInStock(inventory: seq<Item>, line: CartEntry) {
    match FindItem(inventory, line.productId)
    case None => false
    case Some(i) => inventory[i].quantity >= line.quantity
  }

  predicate AllInStock(inventory: seq<Item>, lines: seq<CartEntry>) {
    forall k :: 0 <= k < |lines| ==> LineInStock(inventory, lines[k])
  }

  /** `Inventory.update_one({"_id": productId}, {"$inc": {"quantity": -quantity}})`. */
  function DecrementStock(inventory: seq<Item>, productId: Id, quantity: int): seq<Item> {
    match FindItem(inventory, productId)
    case None => inventory
    case Some(i) => inventory[i := inventory[i].(quantity := inventory[i].quantity - quantity)]
  }

  /** `cur` is `inv` with each row's stock lowered by the rows' demand for it;
      nothing else about any row differs. */
  ghost predicate DeductedBy(cur: seq<Item>, inv: seq<Item>, lines: seq<CartEntry>) {
    && |cur| == |inv|
    && forall k :: 0 <= k < |inv| ==>
         cur[k] == inv[k].(quantity := inv[k].quantity - Demand(lines, inv[k].id))
  }

  /** One `$inc` for a further cart row extends the deduction by that row. */
  lemma DecrementStep(inv: seq<Item>, nextId: Id, cur: seq<Item>, lines: seq<CartEntry>, line: CartEntry)
    requires ItemIdsFresh(inv, nextId)
    requires DeductedBy(cur, inv, lines)
    ensures DeductedBy(DecrementStock(cur, line.productId, line.quantity), inv, lines + [line])
  {
    forall id: Id
      ensures Demand(lines + [line], id) == Demand(lines, id) + (if line.productId == id then line.quantity else 0)
    {
      DemandAppend(lines, line, id);
    }
    var next := DecrementStock(cur, line.productId, line.quantity);
    var found := FindItem(cur, line.productId);
    if found.Some? {
      var i := found.value;
      assert inv[i].id == line.productId;
      forall k | 0 <= k < |inv| && k != i ensures inv[k].id != line.productId {
        if k < i {
          assert inv[k].id != inv[i].id;
        } else {
          assert inv[i].id != inv[k].id;
        }
      }
    } else {
      assert forall k :: 0 <= k < |inv| ==> cur[k].id == inv[k].id;
    }
  }

  /** No row asks for a product that no row names. */
  lemma {:induction false} DemandOfAbsentProduct(lines: seq<CartEntry>, productId: Id)
    requires forall k :: 0 <= k < |lines| ==> lines[k].productId != productId
    ensures Demand(lines, productId) == 0
  {
    if lines != [] {
      DemandOfAbsentProduct(lines[1..], productId);
    }
  }

  /** What the per-row stock check does guarantee: when no product is named
      by two cart rows, checkout takes no listing below zero unless the cart
      does not touch it. Two rows for one product escape the check (see
      Scenarios.OversellingCheckout). */
  lemma {:induction false} DistinctRowsDoNotOversell(inventory: seq<Item>, nextId: Id, cart: seq<CartEntry>, k: nat)
    requires ItemIdsFresh(inventory, nextId)
    requires AllInStock(inventory, cart)
    requires forall a, b :: 0 <= a < b < |cart| ==> cart[a].productId != cart[b].productId
    requires k < |inventory|
    ensures Demand(cart, inventory[k].id) == 0 || inventory[k].quantity - Demand(cart, inventory[k].id) >= 0
  {
    if cart != [] {
      var id := inventory[k].id;
      var tail := cart[1..];
      if cart[0].productId == id {
        DemandOfAbsentProduct(tail, id);
        assert LineInStock(inventory, cart[0]);
        FindItemUnique(inventory, nextId, k);
      } else {
        assert AllInStock(inventory, tail) by {
          assert forall m :: 0 <= m < |tail| ==> tail[m] == cart[m + 1];
        }
        DistinctRowsDoNotOversell(inventory, nextId, tail, k);
      }
    }
  }

  /** The copy of a cart row that goes into an order: every field but `_id`. */
  function LineOf(c: CartEntry): OrderLine {
    OrderLine(c.buyer, c.productId, c.product, c.quantity, c.price)
  }

  function Lines(cart: seq<CartEntry>): seq<OrderLine> {
    seq(|cart|, k requires 0 <= k < |cart| => LineOf(cart[k]))
  }

  /** Dropping a buyer's cart rows empties that buyer's cart and leaves every
      other buyer's cart as it was. */
  lemma CheckoutClearsOnlyThatCart(carts: seq<CartEntry>, buyer: string, other: string)
    ensures CartOf(Filter(carts, NotInCartOf(buyer)), buyer) == []
    ensures other != buyer ==> CartOf(Filter(carts, NotInCartOf(buyer)), other) == CartOf(carts, other)
  {
    FilterEmpty(Filter(carts, NotInCartOf(buyer)), InCartOf(buyer));
    if other != buyer {
      FilterFilter(carts, NotInCartOf(buyer), InCartOf(other));
    }
  }

  /** A new order of the buyer is listed after the buyer's earlier orders;
      other buyers' order listings are unchanged. */
  lemma OrdersAfterAppend(orders: seq<Order>, o: Order, buyer: string)
    ensures OrdersOf(orders + [o], buyer) == OrdersOf(orders, buyer) + (if o.buyer == buyer then [o] else [])
  {
    FilterAppend(orders, [o], PlacedBy(buyer));
    assert [o][1..] == [];
  }

  /** The deduction only lowers stock: ids, sellers, products and images stay. */
  lemma DeductedKeepsListings(cur: seq<Item>, inv: seq<Item>, lines: seq<CartEntry>, nextId: Id)
    requires DeductedBy(cur, inv, lines)
    requires UniqueListings(inv) && WebImages(inv) && ItemIdsFresh(inv, nextId)
    ensures UniqueListings(cur) && WebImages(cur) && ItemIdsFresh(cur, nextId + 1)
  {
    assert forall k :: 0 <= k < |cur| ==>
      cur[k].id == inv[k].id && cur[k].seller == inv[k].seller &&
      cur[k].product == inv[k].product && cur[k].imageUrl == inv[k].imageUrl;
  }

  /** The stock-checking loop of checkout: it succeeds exactly when every
      cart row's product exists and has enough stock for that row alone. */
  method CheckStock(inventory: seq<Item>, cart: seq<CartEntry>) returns (ok: bool)
    ensures ok == AllInStock(inventory, cart)
  {
    for k := 0 to |cart|
      invariant forall m :: 0 <= m < k ==> LineInStock(inventory, cart[m])
    {
      var product := FindItem(inventory, cart[k].productId);
      if product.None? || inventory[product.value].quantity < cart[k].quantity {
        return false;
      }
    }
    return true;
  }

  /** The decrementing loop of checkout: one `$inc` per cart row, in cart order.
      Afterwards every row's stock is down by the cart's total demand for it. */
  method ApplyDecrements(inventory: seq<Item>, cart: seq<CartEntry>, ghost nextId: Id) returns (after: seq<Item>)
    requires ItemIdsFresh(inventory, nextId)
    ensures DeductedBy(after, inventory, cart)
  {
    after := inventory;
    for k := 0 to |cart|
      invariant DeductedBy(after, inventory, cart[..k])
    {
      DecrementStep(inventory, nextId, after, cart[..k], cart[k]);
      after := DecrementStock(after, cart[k].productId, cart[k].quantity);
      assert cart[..k + 1] == cart[..k] + [cart[k]];
    }
    assert cart[..|cart|] == cart;
  }

  /** What `place_order` answers in state `s`: the first of its checks that
      fails, in the handler's order, or else the total it charges. */
  function CheckoutAnswer(s: StoreState, buyer: string): Result<int> {
    var cart := CartOf(s.carts, buyer);
    var found := FindUser(s.users, buyer);
    if cart == [] then Err(CartEmpty)
    else if found.None? then Err(UserNotFound)
    else if Balance(s.users[found.value]) < Total(cart) then Err(InsufficientBalance)
    else if !AllInStock(s.inventory, cart) then Err(InsufficientStock)
    else Ok(Total(cart))
  }

  /** `t` is `s` after `buyer` checked out as user row `i`: every listing
      lost what the cart asks of it, the user paid the cart's total, one
      "placed" order of the cart rows (without their ids) was appended with
      a fresh id, and the buyer's cart rows are gone. */
  ghost predicate CheckedOut(s: StoreState, t: StoreState, buyer: string, i: nat) {
    var cart := CartOf(s.carts, buyer);
    && i < |s.users|
    && DeductedBy(t.inventory, s.inventory, cart)
    && t.users == Credit(s.users, i, -Total(cart))
    && t.orders == s.orders + [Order(s.nextId, buyer, Lines(cart), Total(cart), PLACED)]
    && t.carts == Filter(s.carts, NotInCartOf(buyer))
    && t.nextId == s.nextId + 1
  }

  /** Debiting savings that cover the amount keeps usernames unique and
      savings non-negative. */
  lemma DebitKeepsUsers(users: seq<User>, i: nat, amount: int)
    requires UniqueUsernames(users) && SavingsNonNegative(users)
    requires i < |users| && Balance(users[i]) >= amount
    ensures UniqueUsernames(Credit(users, i, -amount)) && SavingsNonNegative(Credit(users, i, -amount))
  {
    var after := Credit(users, i, -amount);
    assert forall j :: 0 <= j < |after| ==> after[j].username == users[j].username;
  }

  /** An order inserted with the next id keeps order ids fresh. */
  lemma AppendOrderIds(orders: seq<Order>, nextId: Id, o: Order)
    requires OrderIdsFresh(orders, nextId) && o.id == nextId
    ensures OrderIdsFresh(orders + [o], nextId + 1)
  {
  }

  /** A checkout that passes its checks keeps the store consistent; in
      particular the buyer's savings stay non-negative because they covered
      the total. */
  lemma CheckoutKeepsConsistent(s: StoreState, t: StoreState, buyer: string, i: nat)
    requires Consistent(s)
    requires i < |s.users| && Balance(s.users[i]) >= Total(CartOf(s.carts, buyer))
    requires CheckedOut(s, t, buyer, i)
    ensures Consistent(t)
  {
    var cart := CartOf(s.carts, buyer);
    DeductedKeepsListings(t.inventory, s.inventory, cart, s.nextId);
    FilterCartIds(s.carts, s.nextId, NotInCartOf(buyer));
    DebitKeepsUsers(s.users, i, Total(cart));
    AppendOrderIds(s.orders, s.nextId, Order(s.nextId, buyer, Lines(cart), Total(cart), PLACED));
  }

  /** The state `Commit` builds from its four writes is the checked-out,
      consistent one. */
  lemma CommittedState(s: StoreState, t: StoreState, buyer: string, i: nat)
    requires Consistent(s)
    requires i < |s.users| && Balance(s.users[i]) >= Total(CartOf(s.carts, buyer))
    requires DeductedBy(t.inventory, s.inventory, CartOf(s.carts, buyer))
    requires t.users == Credit(s.users, i, -Total(CartOf(s.carts, buyer)))
    requires t.orders == s.orders + [Order(s.nextId, buyer, Lines(CartOf(s.carts, buyer)), Total(CartOf(s.carts, buyer)), PLACED)]
    requires t.carts == Filter(s.carts, NotInCartOf(buyer)) && t.nextId == s.nextId + 1
    ensures CheckedOut(s, t, buyer, i) && Consistent(t)
  {
    CheckoutKeepsConsistent(s, t, buyer, i);
  }

  /** The effects of a checkout whose checks have passed, in the order the
      handler makes them: the stock decrements, the savings debit, the order
      insert and the deletion of the buyer's cart rows. */
  method Commit(db: Db, buyer: string, cart: seq<CartEntry>, i: nat, total: int)
    requires db.Valid()
    requires cart == CartOf(db.carts, buyer) && total == Total(cart)
    requires i < |db.users| && Balance(db.users[i]) >= total
    modifies db
    ensures db.Valid()
    ensures CheckedOut(old(db.State()), db.State(), buyer, i)
  {
    ghost var before := db.State();
    var inventory := ApplyDecrements(db.inventory, cart, db.nextId);
    var users := Credit(db.users, i, -total);
    var id := db.FreshId();
    var orders := db.orders + [Order(id, buyer, Lines(cart), total, PLACED)];
    var carts := Filter(db.carts, NotInCartOf(buyer));
    ghost var after := StoreState(users, inventory, carts, orders, id + 1);
    CommittedState(before, after, buyer, i);
    db.inventory := inventory;
    db.users := users;
    db.orders := orders;
    db.carts := carts;
    assert db.State() == after;
  }

  /** `place_order`: every check first (a non-empty cart, a known buyer,
      savings covering the total, then each cart row's stock), then the
      effects: each row's stock lowered, the savings debited, one order
      appended, the buyer's cart cleared. Any error leaves the store as it was. */
  method PlaceOrder(db: Db, buyer: string) returns (r: Result<int>)
    requires db.Valid()
    modifies db
    ensures db.Valid()
    ensures r == CheckoutAnswer(old(db.State()), buyer)
    ensures r.Err? ==> unchanged(db)
    ensures r.Ok? ==> CheckedOut(old(db.State()), db.State(), buyer, FindUser(old(db.users), buyer).value)
  {
    var cart := CartOf(db.carts, buyer);
    if cart == [] {
      return Err(CartEmpty);
    }
    var found := FindUser(db.users, buyer);
    if found.None? {
      return Err(UserNotFound);
    }
    var total := Total(cart);
    if Balance(db.users[found.value]) < total {
      return Err(InsufficientBalance);
    }

    var inStock := CheckStock(db.inventory, cart);
    if !inStock {
      return Err(InsufficientStock);
    }

    Commit(db, buyer, cart, found.value, total);
    return Ok(total);
  }
}
