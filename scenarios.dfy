/** Request sequences run against a fresh store, using only the handlers'
    contracts: the Pen walkthrough (a refused duplicate listing, a checkout
    refused for lack of funds, then a paid checkout) and a cart whose two
    rows for one product each pass the stock check but together oversell it. */
module Scenarios {
  import opened Seqs
  import opened Tables
  import opened Store
  import Auth
  import Buyer
  import Seller

  const ALICE := User("alice", "a-pass", Some("seller"), None)
  const BOB := User("bob", "b-pass", Some("buyer"), None)
  const URL := "http://x/img.png"
  /** Bob after topping up 100. */
  const FUNDED := BOB.(savings := Some(100))

  /** Alice's Pen listing, id 0, price 10. */
  function Pens(stock: int): Item {
    Item(0, "alice", "Pen", 10, stock, Some(URL))
  }

  /** A row of Bob's cart for the Pen. */
  function PenRow(id: Id, count: int): CartEntry {
    CartEntry(id, "bob", 0, "Pen", count, 10)
  }

  /** The checkout arithmetic for one row of 2 pens against a stock of 5. */
  lemma OneRow()
    ensures CartOf([PenRow(1, 2)], "bob") == [PenRow(1, 2)]
    ensures Buyer.Total([PenRow(1, 2)]) == 20 && Buyer.Demand([PenRow(1, 2)], 0) == 2
    ensures Buyer.AllInStock([Pens(5)], [PenRow(1, 2)])
  {
    assert InCartOf("bob")(PenRow(1, 2));
    assert HasId(0)(Pens(5));
  }

  /** The checkout arithmetic for two rows of 1 pen against a stock of 1. */
  lemma TwoRows()
    ensures CartOf([PenRow(1, 1), PenRow(2, 1)], "bob") == [PenRow(1, 1), PenRow(2, 1)]
    ensures Buyer.Total([PenRow(1, 1), PenRow(2, 1)]) == 20 && Buyer.Demand([PenRow(1, 1), PenRow(2, 1)], 0) == 2
    ensures Buyer.AllInStock([Pens(1)], [PenRow(1, 1), PenRow(2, 1)])
  {
    var rows := [PenRow(1, 1), PenRow(2, 1)];
    assert rows[1..] == [PenRow(2, 1)];
    assert InCartOf("bob")(PenRow(1, 1)) && InCartOf("bob")(PenRow(2, 1));
    assert CartOf([PenRow(2, 1)], "bob") == [PenRow(2, 1)];
    assert Buyer.Total([PenRow(2, 1)]) == 10;
    assert Buyer.Demand([PenRow(2, 1)], 0) == 1;
    assert HasId(0)(Pens(1));
  }

  /** Paying 20 out of Bob's 100 leaves 80. */
  lemma PayTwenty()
    ensures FindUser([ALICE, FUNDED], "bob") == Some(1)
    ensures Buyer.Credit([ALICE, FUNDED], 1, -20) == [ALICE, BOB.(savings := Some(80))]
  {
    FindBob([ALICE, FUNDED]);
  }

  /** Deducting a cart from the single Pen listing lowers its stock by the
      cart's demand. */
  lemma DeductedPens(cur: seq<Item>, stock: int, cart: seq<CartEntry>)
    requires Buyer.DeductedBy(cur, [Pens(stock)], cart)
    ensures cur == [Pens(stock - Buyer.Demand(cart, 0))]
  {
    assert cur[0] == Pens(stock).(quantity := stock - Buyer.Demand(cart, 0));
  }

  /** The stored roles: "Seller" lower-cased, and "buyer" as it is. */
  lemma Roles()
    ensures Auth.NewUser("alice", "a-pass", "Seller") == ALICE
    ensures Auth.NewUser("bob", "b-pass", "buyer") == BOB
  {
    assert Auth.Lower("Seller") == "seller" by {
      var l := Auth.Lower("Seller");
      assert l[0] == 's' && l[1] == 'e' && l[2] == 'l' && l[3] == 'l' && l[4] == 'e' && l[5] == 'r';
    }
    assert Auth.Lower("buyer") == "buyer" by {
      Auth.LowerSpec("buyer");
    }
  }

  /** Alice registers as "Seller" and Bob as "buyer" in an empty store. */
  method SignUp(db: Db)
    requires db.Valid() && db.State() == StoreState([], [], [], [], 0)
    modifies db
    ensures db.Valid() && db.State() == StoreState([ALICE, BOB], [], [], [], 0)
  {
    Roles();
    var r := Auth.RegisterUser(db, "alice", "a-pass", "Seller");
    assert !HasUsername("bob")(ALICE);
    r := Auth.RegisterUser(db, "bob", "b-pass", "buyer");
  }

  /** Alice lists `stock` pens at 10 each; the pen gets id 0. */
  method ListPens(db: Db, stock: int) returns (relist: Result<()>)
    requires stock > 0
    requires db.Valid() && db.State() == StoreState([ALICE, BOB], [], [], [], 0)
    modifies db
    ensures db.Valid() && db.State() == StoreState([ALICE, BOB], [Pens(stock)], [], [], 1)
    ensures relist == Err(ListingExists)
  {
    assert StartsWith(URL, WEB_PREFIX);
    var r := Seller.AddItem(db, "alice", "Pen", 10, stock, URL);
    assert IsListing("alice", "Pen")(db.inventory[0]);
    relist := Seller.AddItem(db, "alice", "Pen", 10, stock, URL);
  }

  /** Bob puts `count` pens in his cart when `stock` are listed. */
  method AddPens(db: Db, stock: int, count: int, cart: seq<CartEntry>)
    requires 0 < count <= stock
    requires db.Valid() && db.State() == StoreState([ALICE, BOB], [Pens(stock)], cart, [], 1 + |cart|)
    modifies db
    ensures db.Valid()
    ensures db.State() == StoreState([ALICE, BOB], [Pens(stock)],
                                     cart + [PenRow(1 + |cart|, count)], [], 2 + |cart|)
  {
    assert HasId(0)(db.inventory[0]);
    var r := Buyer.AddToCart(db, "bob", 0, count);
  }

  /** Bob's balance: Bob is the second user. */
  lemma FindBob(users: seq<User>)
    requires |users| == 2 && users[0].username == "alice" && users[1].username == "bob"
    ensures FindUser(users, "bob") == Some(1)
  {
    assert !HasUsername("bob")(users[0]);
  }

  /** Bob, who has no savings yet, tops up 100; nothing else changes. */
  method TopUp(db: Db)
    requires db.Valid() && db.users == [ALICE, BOB]
    modifies db
    ensures db.Valid() && db.State() == old(db.State()).(users := [ALICE, BOB.(savings := Some(100))])
  {
    FindBob(db.users);
    var topUp := Buyer.AddBalance(db, "bob", 100);
  }

  /** Bob, with 100 in savings, checks out his cart of 2 pens at 10. */
  method Pay(db: Db) returns (paid: Result<int>)
    requires db.Valid()
    requires db.State() == StoreState([ALICE, FUNDED], [Pens(5)], [PenRow(1, 2)], [], 2)
    modifies db
    ensures db.Valid() && paid == Ok(20)
    ensures db.State() == StoreState([ALICE, BOB.(savings := Some(80))], [Pens(3)], [],
                                     [Order(2, "bob", Buyer.Lines([PenRow(1, 2)]), 20, Buyer.PLACED)], 3)
  {
    OneRow();
    PayTwenty();
    paid := Buyer.PlaceOrder(db, "bob");
    DeductedPens(db.inventory, 5, [PenRow(1, 2)]);
    Seqs.FilterEmpty([PenRow(1, 2)], NotInCartOf("bob"));
  }

  /** Alice and Bob sign up, Alice lists 5 pens and fails to list them
      again, Bob puts 2 pens in his cart and his checkout without savings is
      refused, changing nothing. */
  method RefusedCheckout(db: Db) returns (relist: Result<()>, refused: Result<int>)
    requires db.Valid() && db.State() == StoreState([], [], [], [], 0)
    modifies db
    ensures db.Valid() && db.State() == StoreState([ALICE, BOB], [Pens(5)], [PenRow(1, 2)], [], 2)
    ensures relist == Err(ListingExists) && refused == Err(InsufficientBalance)
  {
    SignUp(db);
    relist := ListPens(db, 5);
    AddPens(db, 5, 2, []);
    assert db.carts == [PenRow(1, 2)];
    OneRow();
    FindBob(db.users);
    refused := Buyer.PlaceOrder(db, "bob");
  }

  /** What the read-only handlers report once Bob has paid. */
  lemma ViewsAfterPaying(order: Order)
    requires order == Order(2, "bob", Buyer.Lines([PenRow(1, 2)]), 20, Buyer.PLACED)
    ensures Buyer.CheckBalance([ALICE, BOB.(savings := Some(80))], "bob") == Ok(80)
    ensures Buyer.ViewOrders([order], "bob") == Rows([Buyer.OrderRowOf(order)])
    ensures Buyer.ViewCart([], "bob").NothingFound?
    ensures Auth.LoginUser([ALICE, BOB.(savings := Some(80))], "alice", "a-pass") == Ok("seller")
  {
    FindBob([ALICE, BOB.(savings := Some(80))]);
    assert Buyer.OrdersOf([order], "bob") == [order] by {
      assert PlacedBy("bob")(order);
    }
    assert HasCredentials("alice", "a-pass")(ALICE);
  }

  /** Alice lists 5 pens at 10; listing them again is refused. Bob, with no
      savings, puts 2 pens in his cart; checkout is refused and changes
      nothing. After a top-up of 100 the same checkout charges 20, leaves 3
      pens and 80 in savings, records one order and empties his cart. */
  method PenWalkthrough()
    returns (relist: Result<()>, refused: Result<int>, stockAfterRefusal: int,
             paid: Result<int>, stockAfterOrder: int, balance: Result<int>,
             orders: View<Buyer.OrderRow>, cart: View<Buyer.CartRow>, login: Result<string>)
    ensures relist == Err(ListingExists)
    ensures refused == Err(InsufficientBalance) && stockAfterRefusal == 5
    ensures paid == Ok(20)
    ensures stockAfterOrder == 3
    ensures balance == Ok(80)
    ensures orders.Rows? && |orders.rows| == 1 && orders.rows[0].totalPayment == 20
            && orders.rows[0].status == Buyer.PLACED
    ensures cart.NothingFound?
    ensures login == Ok("seller")
  {
    var db := new Db();
    relist, refused := RefusedCheckout(db);
    stockAfterRefusal := db.inventory[0].quantity;
    TopUp(db);
    paid := Pay(db);
    stockAfterOrder := db.inventory[0].quantity;
    ViewsAfterPaying(db.orders[0]);
    balance := Buyer.CheckBalance(db.users, "bob");
    orders := Buyer.ViewOrders(db.orders, "bob");
    cart := Buyer.ViewCart(db.carts, "bob");
    login := Auth.LoginUser(db.users, "alice", "a-pass");
  }

  /** Bob, with 100 in savings, checks out a cart of two rows of one pen
      each, while one pen is in stock. */
  method Oversell(db: Db) returns (paid: Result<int>)
    requires db.Valid()
    requires db.State() == StoreState([ALICE, FUNDED], [Pens(1)], [PenRow(1, 1), PenRow(2, 1)], [], 3)
    modifies db
    ensures paid == Ok(20)
    ensures db.inventory == [Pens(-1)]
  {
    TwoRows();
    PayTwenty();
    paid := Buyer.PlaceOrder(db, "bob");
    DeductedPens(db.inventory, 1, [PenRow(1, 1), PenRow(2, 1)]);
  }

  /** The stock check looks at one cart row at a time: two rows of one pen
      each, against a stock of one pen, both pass, and the checkout leaves
      the stock at -1. */
  method OversellingCheckout() returns (paid: Result<int>, stock: int)
    ensures paid == Ok(20)
    ensures stock == -1
  {
    var db := new Db();
    SignUp(db);
    var relist := ListPens(db, 1);
    AddPens(db, 1, 1, []);
    AddPens(db, 1, 1, [PenRow(1, 1)]);
    assert [PenRow(1, 1)] + [PenRow(2, 1)] == [PenRow(1, 1), PenRow(2, 1)];
    TopUp(db);
    paid := Oversell(db);
    stock := db.inventory[0].quantity;
  }
}
