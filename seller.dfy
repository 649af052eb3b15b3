/** The seller service: listing management on the Inventory collection, and
    the product image lookups. */
module Seller {
  import opened Seqs
  import opened Tables
  import opened Store

  /** A row of a seller's product listing. */
  datatype SellerRow = SellerRow(productId: Id, product: string, price: int, quantity: int, imageUrl: Option<string>)

  /** The two shapes of `get_product_info_with_image`'s text: with the image
      markdown, or with the "no image" prompt. */
  datatype ProductInfo = WithImage(markdown: string, price: int, stock: int) | WithoutImage(price: int, stock: int)

  function SellerRowOf(it: Item): SellerRow {
    SellerRow(it.id, it.product, it.price, it.quantity, it.imageUrl)
  }

  /** `Inventory.find_one({"product": product})`, as an index. */
  function FindProduct(inventory: seq<Item>, product: string): Option<nat> {
    FirstIndex(inventory, HasProduct(product))
  }

  /** The Inventory document `add_item` inserts. */
  function NewListing(id: Id, seller: string, product: string, price: int, quantity: int, imageUrl: string): Item {
    Item(id, seller, product, price, quantity, Some(imageUrl))
  }

  /** A new listing whose (seller, product) pair is not yet taken, with a web
      image, keeps the inventory consistent; afterwards the pair is taken. */
  lemma AddListingKeepsConsistent(inventory: seq<Item>, nextId: Id, it: Item)
    requires UniqueListings(inventory) && WebImages(inventory) && ItemIdsFresh(inventory, nextId)
    requires FindListing(inventory, it.seller, it.product).None?
    requires it.id == nextId && it.imageUrl.Some? && StartsWith(it.imageUrl.value, WEB_PREFIX)
    ensures UniqueListings(inventory + [it]) && WebImages(inventory + [it]) && ItemIdsFresh(inventory + [it], nextId + 1)
    ensures FindListing(inventory + [it], it.seller, it.product).Some?
  {
    var after := inventory + [it];
    assert IsListing(it.seller, it.product)(after[|inventory|]);
    forall i, j | 0 <= i < j < |after|
      ensures after[i].seller != after[j].seller || after[i].product != after[j].product
    {
      if j == |inventory| {
        assert !IsListing(it.seller, it.product)(inventory[i]);
      }
    }
  }

  /** `add_item`: refuse an image URL not starting with `http`, a non-positive
      price or quantity, or a (seller, product) pair already listed; otherwise
      insert exactly one listing with the given fields. */
  method AddItem(db: Db, username: string, product: string, price: int, quantity: int, imageUrl: string)
    returns (r: Result<()>)
    requires db.Valid()
    modifies db
    ensures db.Valid()
    ensures r == (if !StartsWith(imageUrl, WEB_PREFIX) then Err(InvalidImageUrl)
                  else if price <= 0 || quantity <= 0 then Err(NonPositivePriceOrQuantity)
                  else if FindListing(old(db.inventory), username, product).Some? then Err(ListingExists)
                  else Ok(()))
    ensures r.Err? ==> unchanged(db)
    ensures r.Ok? ==>
      db.State() == old(db.State()).(
        inventory := old(db.inventory) + [NewListing(old(db.nextId), username, product, price, quantity, imageUrl)],
        nextId := old(db.nextId) + 1)
  {
    if !StartsWith(imageUrl, WEB_PREFIX) {
      return Err(InvalidImageUrl);
    }
    if price <= 0 || quantity <= 0 {
      return Err(NonPositivePriceOrQuantity);
    }
    if FindListing(db.inventory, username, product).Some? {
      return Err(ListingExists);
    }
    var id := db.FreshId();
    var listing := NewListing(id, username, product, price, quantity, imageUrl);
    AddListingKeepsConsistent(db.inventory, id, listing);
    db.inventory := db.inventory + [listing];
    return Ok(());
  }

  /** `update_item`: refuse a negative price or quantity (zero is accepted);
      otherwise overwrite price and quantity of the first listing with that
      (seller, product) pair, or report that there is none. */
  method UpdateItem(db: Db, username: string, product: string, price: int, quantity: int) returns (r: Result<()>)
    requires db.Valid()
    modifies db
    ensures db.Valid()
    ensures var found := FindListing(old(db.inventory), username, product);
      r == (if price < 0 || quantity < 0 then Err(NegativeUpdate)
            else if found.None? then Err(ListingNotFound)
            else Ok(()))
    ensures r.Err? ==> unchanged(db)
    ensures r.Ok? ==>
      var i := FindListing(old(db.inventory), username, product).value;
      db.State() == old(db.State()).(
        inventory := old(db.inventory)[i := old(db.inventory)[i].(price := price, quantity := quantity)])
  {
    if price < 0 || quantity < 0 {
      return Err(NegativeUpdate);
    }
    var found := FindListing(db.inventory, username, product);
    if found.None? {
      return Err(ListingNotFound);
    }
    var i := found.value;
    ghost var before := db.inventory;
    db.inventory := db.inventory[i := db.inventory[i].(price := price, quantity := quantity)];
    assert forall k :: 0 <= k < |before| ==>
      db.inventory[k].id == before[k].id && db.inventory[k].seller == before[k].seller &&
      db.inventory[k].product == before[k].product && db.inventory[k].imageUrl == before[k].imageUrl;
    return Ok(());
  }

  /** `view_seller_products`: the rows listed by that seller, in collection
      order, or the "no products" message when there is none. */
  function ViewSellerProducts(inventory: seq<Item>, username: string): (r: View<SellerRow>)
    ensures r.NothingFound? <==> forall j :: 0 <= j < |inventory| ==> inventory[j].seller != username
    ensures r.Rows? ==> |r.rows| == |Filter(inventory, SoldBy(username))|
    ensures r.Rows? ==> forall k :: 0 <= k < |r.rows| ==> r.rows[k] == SellerRowOf(Filter(inventory, SoldBy(username))[k])
    ensures r.Rows? ==> forall k :: 0 <= k < |r.rows| ==>
      exists j :: 0 <= j < |inventory| && inventory[j].seller == username && r.rows[k] == SellerRowOf(inventory[j])
  {
    var mine := Filter(inventory, SoldBy(username));
    FilterEmptyIff(inventory, SoldBy(username));
    if mine == [] then NothingFound
    else Rows(seq(|mine|, k requires 0 <= k < |mine| => SellerRowOf(mine[k])))
  }

  /** Removing a listing keeps the inventory consistent. */
  lemma RemoveListingKeepsConsistent(inventory: seq<Item>, nextId: Id, i: nat)
    requires i < |inventory|
    requires UniqueListings(inventory) && WebImages(inventory) && ItemIdsFresh(inventory, nextId)
    ensures UniqueListings(RemoveAt(inventory, i)) && WebImages(RemoveAt(inventory, i))
    ensures ItemIdsFresh(RemoveAt(inventory, i), nextId)
  {
    var r := RemoveAt(inventory, i);
    forall a, b | 0 <= a < b < |r|
      ensures r[a].id != r[b].id
      ensures r[a].seller != r[b].seller || r[a].product != r[b].product
    {
      var a' := if a < i then a else a + 1;
      var b' := if b < i then b else b + 1;
      assert r[a] == inventory[a'] && r[b] == inventory[b'];
    }
  }

  /** `remove_item`: delete the first listing with that (seller, product)
      pair, or report that there is none and change nothing. */
  method RemoveItem(db: Db, username: string, product: string) returns (r: Result<()>)
    requires db.Valid()
    modifies db
    ensures db.Valid()
    ensures FindListing(old(db.inventory), username, product).None? ==> r == Err(ListingNotFound) && unchanged(db)
    ensures FindListing(old(db.inventory), username, product).Some? ==>
      r == Ok(()) &&
      db.State() == old(db.State()).(inventory := RemoveAt(old(db.inventory), FindListing(old(db.inventory), username, product).value))
  {
    var found := FindListing(db.inventory, username, product);
    if found.None? {
      return Err(ListingNotFound);
    }
    RemoveListingKeepsConsistent(db.inventory, db.nextId, found.value);
    db.inventory := RemoveAt(db.inventory, found.value);
    return Ok(());
  }

  /** The markdown image reference `![product](url)`. */
  function ImageMarkdown(product: string, url: string): string {
    "![" + product + "](" + url + ")"
  }

  /** `get_product_image_url`: the image markdown built from the first row
      with that product name, or an error when there is no such row or it has
      no image URL. */
  function GetProductImageUrl(inventory: seq<Item>, product: string): (r: Result<string>)
    ensures r.Err? ==> r.error == ImageNotFound
    ensures (forall j :: 0 <= j < |inventory| ==> inventory[j].product != product) ==> r.Err?
    ensures var f := FindProduct(inventory, product);
      f.Some? && inventory[f.value].imageUrl.Some? ==> r == Ok(ImageMarkdown(product, inventory[f.value].imageUrl.value))
    ensures r.Ok? ==>
      exists k :: 0 <= k < |inventory| && inventory[k].product == product
                  && (forall j :: 0 <= j < k ==> inventory[j].product != product)
                  && inventory[k].imageUrl.Some? && r.value == ImageMarkdown(product, inventory[k].imageUrl.value)
  {
    match FindProduct(inventory, product)
    case None => Err(ImageNotFound)
    case Some(i) =>
      if inventory[i].imageUrl.None? then Err(ImageNotFound)
      else Ok(ImageMarkdown(product, inventory[i].imageUrl.value))
  }

  /** `get_product_info_with_image`: for the first row with that product name,
      its price and stock with the image markdown when its image URL is
      present and non-empty, and without it otherwise; an error when no row
      has that name. */
  function GetProductInfoWithImage(inventory: seq<Item>, product: string): (r: Result<ProductInfo>)
    ensures r.Err? <==> forall j :: 0 <= j < |inventory| ==> inventory[j].product != product
    ensures r.Err? ==> r.error == UnknownProduct
    ensures r.Ok? ==>
      exists k :: 0 <= k < |inventory| && inventory[k].product == product
                  && (forall j :: 0 <= j < k ==> inventory[j].product != product)
                  && r.value.price == inventory[k].price && r.value.stock == inventory[k].quantity
                  && (r.value.WithImage? <==> inventory[k].imageUrl.GetOr("") != "")
  {
    match FindProduct(inventory, product)
    case None => Err(UnknownProduct)
    case Some(i) =>
      var url := inventory[i].imageUrl.GetOr("");
      if url != "" then Ok(WithImage(ImageMarkdown(product, url), inventory[i].price, inventory[i].quantity))
      else Ok(WithoutImage(inventory[i].price, inventory[i].quantity))
  }

  /** The two image lookups agree: when the info carries an image, it is the
      markdown the image lookup returns, and an image lookup that finds a
      non-empty URL means the info carries that image. */
  lemma ImageLookupsAgree(inventory: seq<Item>, product: string)
    ensures GetProductInfoWithImage(inventory, product).Ok? && GetProductInfoWithImage(inventory, product).value.WithImage?
            ==> GetProductImageUrl(inventory, product) == Ok(GetProductInfoWithImage(inventory, product).value.markdown)
    ensures GetProductImageUrl(inventory, product).Ok? && GetProductImageUrl(inventory, product).value != ImageMarkdown(product, "")
            ==> GetProductInfoWithImage(inventory, product).Ok?
                && GetProductInfoWithImage(inventory, product).value.WithImage?
                && GetProductInfoWithImage(inventory, product).value.markdown == GetProductImageUrl(inventory, product).value
  {
  }

  /** In a consistent inventory every row has a web image, so the image
      lookup fails exactly when no row has that product name, and the info
      always carries the image. */
  lemma ImagesInConsistentInventory(inventory: seq<Item>, product: string)
    requires WebImages(inventory)
    ensures GetProductImageUrl(inventory, product).Ok? <==> exists j :: 0 <= j < |inventory| && inventory[j].product == product
    ensures GetProductInfoWithImage(inventory, product).Ok? ==> GetProductInfoWithImage(inventory, product).value.WithImage?
  {
    var f := FindProduct(inventory, product);
    if f.Some? {
      var url := inventory[f.value].imageUrl.value;
      assert StartsWith(url, WEB_PREFIX);
      assert url[0] == 'h';
    }
  }
}
