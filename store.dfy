/** The shared document store: one object holding the four collections that
    the auth, buyer and seller services read and write. */
module Store {
  import opened Tables

  class Db {
    var users: seq<User>
    var inventory: seq<Item>
    var carts: seq<CartEntry>
    var orders: seq<Order>
    /** The store's source of fresh ObjectIds: every id handed out so far is below it. */
    var nextId: Id

    function State(): StoreState
      reads this
    {
      StoreState(users, inventory, carts, orders, nextId)
    }

    ghost predicate Valid()
      reads this
    {
      Consistent(State())
    }

    /** An empty store. */
    constructor ()
      ensures Valid()
      ensures State() == StoreState([], [], [], [], 0)
    {
      users, inventory, carts, orders, nextId := [], [], [], [], 0;
    }

    /** The `_id` the store gives the document being inserted. */
    method FreshId() returns (id: Id)
      modifies this
      ensures id == old(nextId)
      ensures State() == old(State()).(nextId := old(nextId) + 1)
    {
      id := nextId;
      nextId := nextId + 1;
    }
  }
}
