/**
 * The user context: the session, the local mirror of the user's cart and
 * orders, and the handlers that turn cart actions into writes to the store.
 *
 * The handlers may change only the store (`modifies db`): the mirror is
 * replaced by snapshots alone, so every handler reads whatever the last
 * snapshot left, which may be stale.
 */
module Context {
  import opened Cart
  import opened CartLaws
  import opened Store
  import opened Listeners

  class UserContext {
    /** The document store the context writes to and listens on. */
    const db: Firestore
    var isLoggedIn: bool
    /** The signed-in user's id, "" for nobody. */
    var uid: string
    /** The user id kept in the browser's local storage, "" for nobody. */
    var persisted: string
    /** The mirror of the user's cart, as the last snapshot delivered it. */
    var cart: seq<Line>
    var grandTotal: real
    /** The mirror of the user's orders, newest first. */
    var orders: seq<Order>
    /** The users whose live queries are open. */
    var listeners: set<string>

    ghost predicate Valid()
      reads this, db
    {
      db.Valid() && listeners == {uid} && grandTotal == Total(cart)
    }

    /** Mounting the context: nobody signed in, empty mirrors, and the live queries opened for "". */
    constructor (db: Firestore, persisted: string)
      requires db.Valid()
      ensures Valid() && this.db == db && this.persisted == persisted
      ensures !isLoggedIn && uid == "" && cart == [] && grandTotal == 0.0 && orders == []
    {
      this.db := db;
      isLoggedIn := false;
      uid := "";
      this.persisted := persisted;
      cart := [];
      grandTotal := 0.0;
      orders := [];
      listeners := Subscribe({}, "");
    }

    // -------------------------------------------------------------------------
    // Session.

    /** On mount: a user id kept in local storage signs that user in, without asking the backend. */
    method Restore()
      requires Valid()
      modifies this
      ensures Valid()
      ensures old(persisted) != "" ==> isLoggedIn && uid == old(persisted)
      ensures old(persisted) == "" ==> isLoggedIn == old(isLoggedIn) && uid == old(uid)
      ensures persisted == old(persisted) && cart == old(cart) && orders == old(orders)
    {
      if persisted != "" {
        isLoggedIn := true;
        uid := persisted;
        listeners := Subscribe(listeners, uid);
      }
    }

    /** Sign-up: account creation is left to the auth service, whose answer is `created`; the session is untouched. */
    method SignUp(created: bool) returns (ok: bool)
      ensures ok == created
    {
      ok := created;
    }

    /**
     * Sign-in: `authenticated` is the auth service's answer, the user's id or None.
     * On success the user is signed in and kept in local storage; on failure nothing changes.
     */
    method SignIn(authenticated: Option<string>) returns (ok: bool)
      requires Valid()
      modifies this
      ensures Valid()
      ensures ok == authenticated.Some?
      ensures ok ==> isLoggedIn && uid == authenticated.value && persisted == authenticated.value
      ensures !ok ==> isLoggedIn == old(isLoggedIn) && uid == old(uid) && persisted == old(persisted)
      ensures cart == old(cart) && orders == old(orders)
    {
      match authenticated {
        case Some(id) =>
          uid := id;
          isLoggedIn := true;
          persisted := id;
          listeners := Subscribe(listeners, uid);
          ok := true;
        case None =>
          ok := false;
      }
    }

    /** Logout: nothing when nobody is signed in; otherwise the session and local storage are cleared. */
    method Logout()
      requires Valid()
      modifies this
      ensures Valid()
      ensures !old(isLoggedIn) ==> isLoggedIn == old(isLoggedIn) && uid == old(uid) && persisted == old(persisted)
      ensures old(isLoggedIn) ==> !isLoggedIn && uid == "" && persisted == ""
      ensures cart == old(cart) && orders == old(orders)
    {
      if isLoggedIn {
        isLoggedIn := false;
        persisted := "";
        uid := "";
        listeners := Subscribe(listeners, uid);
      }
    }

    // -------------------------------------------------------------------------
    // Snapshots: the only way the mirrors change.

    /** A cart snapshot from an open listener replaces the mirror wholesale and recomputes the grand total. */
    method CartSnapshot(from: string)
      requires Valid() && from in listeners
      modifies this`cart, this`grandTotal
      ensures Valid()
      ensures cart == Select(db.carts, ByUser(uid)) && grandTotal == Total(cart)
      ensures forall l :: l in cart <==> l.id in db.carts.docs && db.carts.docs[l.id] == l.item && l.item.userId == uid
    {
      cart := db.GetCarts(ByUser(from));
      grandTotal := Total(cart);
    }

    /** An order snapshot from an open listener replaces the order mirror with the user's orders, newest first. */
    method OrderSnapshot(from: string)
      requires Valid() && from in listeners
      modifies this`orders
      ensures Valid()
      ensures orders == UserOrders(db.orders, uid)
      ensures forall o :: o in orders <==> o in db.orders && o.userId == uid
    {
      orders := UserOrders(db.orders, from);
    }

    // -------------------------------------------------------------------------
    // Cart handlers: they read the mirror and write only to the store.

    /** Add-to-cart: bumps the mirror's line for the product, or creates a line with quantity 1. */
    method HandleAddToCart(product: Product) returns (ok: bool)
      requires Valid()
      modifies db
      ensures Valid()
      ensures ok == AddedToCart(old(db.carts), cart, uid, product).ok
      ensures db.carts == AddedToCart(old(db.carts), cart, uid, product).carts && db.orders == old(db.orders)
    {
      match Find(cart, product.id) {
        case Some(line) =>
          ok := db.UpdateCart(line.id, Bumped(line, 1));
        case None =>
          var id := db.AddCart(NewItem(uid, product));
          ok := true;
      }
    }

    /** Increase: bumps the mirror's line for the product; nothing when there is none. */
    method IncreaseQuantity(productId: string) returns (ok: bool)
      requires Valid()
      modifies db
      ensures Valid()
      ensures ok == Increased(old(db.carts), cart, productId).ok
      ensures db.carts == Increased(old(db.carts), cart, productId).carts && db.orders == old(db.orders)
    {
      var found := Find(cart, productId);
      if found.Some? {
        ok := db.UpdateCart(found.value.id, Bumped(found.value, 1));
      } else {
        ok := true;
      }
    }

    /** Decrease: lowers a quantity above 1, deletes a line at exactly 1, otherwise nothing. */
    method DecreaseQuantity(productId: string) returns (ok: bool)
      requires Valid()
      modifies db
      ensures Valid()
      ensures ok == Decreased(old(db.carts), cart, productId).ok
      ensures db.carts == Decreased(old(db.carts), cart, productId).carts && db.orders == old(db.orders)
    {
      var found := Find(cart, productId);
      if found.Some? && found.value.item.quantity > 1 {
        ok := db.UpdateCart(found.value.id, Bumped(found.value, -1));
      } else if found.Some? && found.value.item.quantity == 1 {
        db.DeleteCart(found.value.id);
        ok := true;
      } else {
        ok := true;
      }
    }

    /** Deletes, one after another, the documents of the given lines. */
    method DeleteEach(lines: seq<Line>)
      requires db.Valid()
      modifies db
      ensures db.Valid()
      ensures db.carts == old(db.carts).(docs := old(db.carts).docs - Ids(lines)) && db.orders == old(db.orders)
    {
      var i := 0;
      while i < |lines|
        invariant 0 <= i <= |lines|
        invariant db.Valid()
        invariant db.carts == old(db.carts).(docs := old(db.carts).docs - Ids(lines[..i]))
        invariant db.orders == old(db.orders)
      {
        db.DeleteCart(lines[i].id);
        assert lines[..i + 1] == lines[..i] + [lines[i]];
        assert Ids(lines[..i + 1]) == Ids(lines[..i]) + {lines[i].id};
        i := i + 1;
      }
      assert lines[..|lines|] == lines;
    }

    /** Remove: queries the store, not the mirror, for the user's lines of the product and deletes each. */
    method HandleRemoveCart(productId: string)
      requires Valid()
      modifies db
      ensures Valid()
      ensures db.carts == Reject(old(db.carts), ByUserAndProduct(uid, productId)) && db.orders == old(db.orders)
    {
      var snapshot := db.GetCarts(ByUserAndProduct(uid, productId));
      DeleteEach(snapshot);
      DeleteSelected(old(db.carts), ByUserAndProduct(uid, productId));
    }

    /**
     * Purchase: with an empty mirror, no write at all. Otherwise the mirror becomes
     * one new order with its grand total, and then every cart line of the user in
     * the store is deleted.
     */
    method HandlePurchase()
      requires Valid()
      modifies db
      ensures Valid()
      ensures cart == [] ==> db.carts == old(db.carts) && db.orders == old(db.orders)
      ensures cart != [] ==> db.orders == old(db.orders) + [Order(uid, cart, Total(cart))]
      ensures cart != [] ==> db.carts == Reject(old(db.carts), ByUser(uid))
      ensures cart != [] && (forall l :: l in cart ==> l.item.price >= 0.0 && l.item.quantity >= 0)
        ==> db.orders[|db.orders| - 1].grandTotal >= 0.0
    {
      if |cart| > 0 {
        db.AddOrder(Order(uid, cart, grandTotal));
        var snapshot := db.GetCarts(ByUser(uid));
        DeleteEach(snapshot);
        DeleteSelected(old(db.carts), ByUser(uid));
      }
    }
  }
}
