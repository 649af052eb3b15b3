/** The four collections of the store (Users, Inventory, Carts, Orders), the
    outcomes the handlers report, the query filters they use, and the
    invariants every handler keeps. Documents are records; the store's opaque
    ObjectIds are natural numbers. */
module Tables {
  import opened Seqs

  type Id = nat

  /** A Users document. `role` and `savings` may be missing from the document:
      registration writes no savings, and login tolerates a missing role. */
  datatype User = User(username: string, password: string, role: Option<string>, savings: Option<int>)

  /** An Inventory document. `image_url` may be missing from a document. */
  datatype Item = Item(id: Id, seller: string, product: string, price: int, quantity: int, imageUrl: Option<string>)

  /** A Carts document: the product's name and price as they were when it was added. */
  datatype CartEntry = CartEntry(id: Id, buyer: string, productId: Id, product: string, quantity: int, price: int)

  /** A cart document without its `_id`, as copied into an order. */
  datatype OrderLine = OrderLine(buyer: string, productId: Id, product: string, quantity: int, price: int)

  /** An Orders document. */
  datatype Order = Order(id: Id, buyer: string, items: seq<OrderLine>, totalPayment: int, status: string)

  /** The reasons a handler answers with an `error` payload. */
  datatype Error =
    | UserExists
    | InvalidCredentials
    | UserNotFound
    | NonPositiveAmount
    | NonPositiveQuantity
    | ProductNotFound
    | InsufficientStock
    | CartLineNotFound
    | CartEmpty
    | InsufficientBalance
    | InvalidImageUrl
    | NonPositivePriceOrQuantity
    | ListingExists
    | NegativeUpdate
    | ListingNotFound
    | ImageNotFound
    | UnknownProduct

  /** A handler's answer: its success payload or an error. */
  datatype Result<+T> = Ok(value: T) | Err(error: Error)

  /** A listing handler's answer: the rows, or the `message` payload it gives
      instead of an empty list. */
  datatype View<+T> = Rows(rows: seq<T>) | NothingFound

  /** The whole store at one moment. */
  datatype StoreState = StoreState(users: seq<User>, inventory: seq<Item>, carts: seq<CartEntry>,
                                   orders: seq<Order>, nextId: Id)

  // Query filters, one per query document the handlers send.

  function HasUsername(name: string): User -> bool {
    (u: User) => u.username == name
  }

  function HasCredentials(name: string, password: string): User -> bool {
    (u: User) => u.username == name && u.password == password
  }

  function HasId(id: Id): Item -> bool {
    (it: Item) => it.id == id
  }

  function IsListing(seller: string, product: string): Item -> bool {
    (it: Item) => it.seller == seller && it.product == product
  }

  function HasProduct(product: string): Item -> bool {
    (it: Item) => it.product == product
  }

  function SoldBy(seller: string): Item -> bool {
    (it: Item) => it.seller == seller
  }

  function InCartOf(buyer: string): CartEntry -> bool {
    (c: CartEntry) => c.buyer == buyer
  }

  function NotInCartOf(buyer: string): CartEntry -> bool {
    (c: CartEntry) => c.buyer != buyer
  }

  function IsCartLine(buyer: string, productId: Id): CartEntry -> bool {
    (c: CartEntry) => c.buyer == buyer && c.productId == productId
  }

  function PlacedBy(buyer: string): Order -> bool {
    (o: Order) => o.buyer == buyer
  }

  /** `Users.find_one({"username": name})`, as an index. */
  function FindUser(users: seq<User>, name: string): Option<nat> {
    FirstIndex(users, HasUsername(name))
  }

  /** `Inventory.find_one({"_id": id})`, as an index. */
  function FindItem(inventory: seq<Item>, id: Id): Option<nat> {
    FirstIndex(inventory, HasId(id))
  }

  /** `Inventory.find_one({"seller": seller, "product": product})`, as an index. */
  function FindListing(inventory: seq<Item>, seller: string, product: string): Option<nat> {
    FirstIndex(inventory, IsListing(seller, product))
  }

  /** `Carts.find({"buyer": buyer})`. */
  function CartOf(carts: seq<CartEntry>, buyer: string): seq<CartEntry> {
    Filter(carts, InCartOf(buyer))
  }

  /** A user's balance, a missing `savings` field counting as 0. */
  function Balance(u: User): int {
    u.savings.GetOr(0)
  }

  // The invariants of the store.

  ghost predicate UniqueUsernames(users: seq<User>) {
    forall i, j :: 0 <= i < j < |users| ==> users[i].username != users[j].username
  }

  ghost predicate SavingsNonNegative(users: seq<User>) {
    forall i :: 0 <= i < |users| ==> Balance(users[i]) >= 0
  }

  /** No two Inventory rows share a (seller, product) pair. */
  ghost predicate UniqueListings(inventory: seq<Item>) {
    forall i, j :: 0 <= i < j < |inventory| ==>
      inventory[i].seller != inventory[j].seller || inventory[i].product != inventory[j].product
  }

  /** Every Inventory row has an image URL that starts with `http`. */
  ghost predicate WebImages(inventory: seq<Item>) {
    forall i :: 0 <= i < |inventory| ==>
      inventory[i].imageUrl.Some? && StartsWith(inventory[i].imageUrl.value, WEB_PREFIX)
  }

  ghost predicate ItemIdsFresh(inventory: seq<Item>, nextId: Id) {
    && (forall i :: 0 <= i < |inventory| ==> inventory[i].id < nextId)
    && (forall i, j :: 0 <= i < j < |inventory| ==> inventory[i].id != inventory[j].id)
  }

  ghost predicate CartIdsFresh(carts: seq<CartEntry>, nextId: Id) {
    && (forall i :: 0 <= i < |carts| ==> carts[i].id < nextId)
    && DistinctCartIds(carts)
  }

  ghost predicate DistinctCartIds(carts: seq<CartEntry>) {
    forall i, j :: 0 <= i < j < |carts| ==> carts[i].id != carts[j].id
  }

  ghost predicate OrderIdsFresh(orders: seq<Order>, nextId: Id) {
    && (forall i :: 0 <= i < |orders| ==> orders[i].id < nextId)
    && (forall i, j :: 0 <= i < j < |orders| ==> orders[i].id != orders[j].id)
  }

  /** What holds of every store the handlers build from the empty one. Stock
      is deliberately absent: checkout can drive it below zero. */
  ghost predicate Consistent(s: StoreState) {
    && UniqueUsernames(s.users)
    && SavingsNonNegative(s.users)
    && UniqueListings(s.inventory)
    && WebImages(s.inventory)
    && ItemIdsFresh(s.inventory, s.nextId)
    && CartIdsFresh(s.carts, s.nextId)
    && OrderIdsFresh(s.orders, s.nextId)
  }

  const WEB_PREFIX := "http"

  /** Python's `s.startswith(prefix)`. */
  predicate StartsWith(s: string, prefix: string) {
    |prefix| <= |s| && s[..|prefix|] == prefix
  }

  /** With unique ids, the row found by id is the only one with that id. */
  lemma FindItemUnique(inventory: seq<Item>, nextId: Id, k: nat)
    requires ItemIdsFresh(inventory, nextId)
    requires k < |inventory|
    ensures FindItem(inventory, inventory[k].id) == Some(k)
  {
  }

  /** Filtering a cart table keeps its ids unique and below the counter. */
  lemma FilterCartIds(carts: seq<CartEntry>, nextId: Id, keep: CartEntry -> bool)
    requires CartIdsFresh(carts, nextId)
    ensures CartIdsFresh(Filter(carts, keep), nextId)
  {
    var r := Filter(carts, keep);
    forall k | 0 <= k < |r|
      ensures r[k].id < nextId
    {
      assert r[k] in carts;
    }
    FilterCartIdsDistinct(carts, keep);
  }

  /** Filtering a cart table keeps its ids distinct. */
  lemma {:induction false} FilterCartIdsDistinct(carts: seq<CartEntry>, keep: CartEntry -> bool)
    requires DistinctCartIds(carts)
    ensures DistinctCartIds(Filter(carts, keep))
  {
    if carts != [] {
      var tail := carts[1..];
      assert forall i :: 0 <= i < |tail| ==> tail[i] == carts[i + 1];
      FilterCartIdsDistinct(tail, keep);
      FilterAvoidsId(tail, keep, carts[0].id);
      assert Filter(carts, keep) == (if keep(carts[0]) then [carts[0]] else []) + Filter(tail, keep);
    }
  }

  /** A cart table none of whose rows has id `id` filters to one that has none either. */
  lemma FilterAvoidsId(carts: seq<CartEntry>, keep: CartEntry -> bool, id: Id)
    requires forall k :: 0 <= k < |carts| ==> carts[k].id != id
    ensures var r := Filter(carts, keep); forall k :: 0 <= k < |r| ==> r[k].id != id
  {
    var r := Filter(carts, keep);
    forall k | 0 <= k < |r|
      ensures r[k].id != id
    {
      assert r[k] in carts;
    }
  }
}
