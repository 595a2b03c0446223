/**
 * The "carts" and "orders" collections of the document store, the queries the
 * cart handlers run on them, and the effect each handler has on the store as a
 * function of the store and of the local mirror it reads.
 */
module Cart {

  datatype Option<T> = None | Some(value: T)

  /** Document keys: the store hands them out in increasing order. */
  type DocId = nat

  /** A catalogue product as handed to add-to-cart. */
  datatype Product = Product(id: string, title: string, description: string, image: string, price: real)

  /** The data of one document of the "carts" collection. */
  datatype CartItem = CartItem(
    userId: string, productId: string, title: string, description: string,
    image: string, price: real, quantity: int)

  /** A cart line as the mirror holds it: the document key beside the document data. */
  datatype Line = Line(id: DocId, item: CartItem)

  /** A document of the "orders" collection; its date is not modelled. */
  datatype Order = Order(userId: string, myOrder: seq<Line>, grandTotal: real)

  /** The "carts" collection: its documents by key, and the key the next created document gets. */
  datatype Collection = Collection(docs: map<DocId, CartItem>, nextId: DocId)

  /** The outcome of a handler's write: whether the store accepted it, and the collection afterwards. */
  datatype Write = Write(ok: bool, carts: Collection)

  /** The two `where` filters the handlers put on the "carts" collection. */
  datatype Query = ByUser(uid: string) | ByUserAndProduct(uid: string, productId: string)

  predicate Matches(q: Query, item: CartItem) {
    match q
    case ByUser(uid) => item.userId == uid
    case ByUserAndProduct(uid, pid) => item.userId == uid && item.productId == pid
  }

  /** Every key in use lies below the key the next created document gets. */
  predicate WellFormed(c: Collection) {
    forall k :: k in c.docs ==> k < c.nextId
  }

  // ---------------------------------------------------------------------------
  // Store primitives: create, update, delete and query documents.

  /** Creating a document gives it a key no document has, and touches no other document. */
  function Create(c: Collection, item: CartItem): (r: Collection)
    requires WellFormed(c)
    ensures WellFormed(r)
    ensures c.nextId !in c.docs && r.docs.Keys == c.docs.Keys + {c.nextId}
    ensures r.docs[c.nextId] == item
    ensures forall k :: k in c.docs ==> r.docs[k] == c.docs[k]
  {
    Collection(c.docs[c.nextId := item], c.nextId + 1)
  }

  /** Updating a document succeeds only when it exists, and then replaces its data and nothing else. */
  function Update(c: Collection, id: DocId, item: CartItem): (r: Write)
    ensures r.ok <==> id in c.docs
    ensures !r.ok ==> r.carts == c
    ensures r.ok ==> r.carts.nextId == c.nextId && r.carts.docs.Keys == c.docs.Keys && r.carts.docs[id] == item
    ensures forall k :: k in c.docs && k != id ==> r.carts.docs[k] == c.docs[k]
    ensures WellFormed(c) ==> WellFormed(r.carts)
  {
    if id in c.docs then Write(true, c.(docs := c.docs[id := item])) else Write(false, c)
  }

  /** Deleting a document removes that key, if present, and nothing else. */
  function Delete(c: Collection, id: DocId): (r: Collection)
    ensures r.nextId == c.nextId && r.docs.Keys == c.docs.Keys - {id}
    ensures forall k :: k in r.docs ==> r.docs[k] == c.docs[k]
    ensures WellFormed(c) ==> WellFormed(r)
  {
    c.(docs := c.docs - {id})
  }

  /** The documents with keys below n that match q, as lines in ascending key order. */
  function SelectBelow(docs: map<DocId, CartItem>, q: Query, n: nat): (r: seq<Line>)
    ensures forall i :: 0 <= i < |r| ==> r[i].id < n
    ensures forall i, j :: 0 <= i < j < |r| ==> r[i].id < r[j].id
    ensures forall l :: l in r <==> l.id < n && l.id in docs && docs[l.id] == l.item && Matches(q, l.item)
    decreases n
  {
    if n == 0 then []
    else
      var k := n - 1;
      SelectBelow(docs, q, k) + (if k in docs && Matches(q, docs[k]) then [Line(k, docs[k])] else [])
  }

  /**
   * A query result: exactly the documents that match, each once, in ascending key order.
   * Both the one-shot query and every live-query snapshot deliver this.
   */
  function Select(c: Collection, q: Query): (r: seq<Line>)
    requires WellFormed(c)
    ensures forall i, j :: 0 <= i < j < |r| ==> r[i].id < r[j].id
    ensures forall l :: l in r <==> l.id in c.docs && c.docs[l.id] == l.item && Matches(q, l.item)
  {
    SelectBelow(c.docs, q, c.nextId)
  }

  /** The keys of some lines. */
  function Ids(lines: seq<Line>): set<DocId> {
    set l | l in lines :: l.id
  }

  /** The collection once every document matching q is deleted. */
  function Reject(c: Collection, q: Query): (r: Collection)
    ensures r.nextId == c.nextId
    ensures forall k :: k in r.docs <==> k in c.docs && !Matches(q, c.docs[k])
    ensures forall k :: k in r.docs ==> r.docs[k] == c.docs[k]
    ensures WellFormed(c) ==> WellFormed(r)
  {
    Collection(map k | k in c.docs && !Matches(q, c.docs[k]) :: c.docs[k], c.nextId)
  }

  // ---------------------------------------------------------------------------
  // The mirror: lookups, and what the live query delivers into it.

  /** The first mirror line for a product, as `cart.find` returns it. */
  function Find(mirror: seq<Line>, productId: string): (r: Option<Line>)
    ensures r.Some? ==> r.value in mirror && r.value.item.productId == productId
    ensures r.None? <==> forall l :: l in mirror ==> l.item.productId != productId
    ensures r.Some? ==> exists i :: 0 <= i < |mirror| && mirror[i] == r.value
                                    && forall j :: 0 <= j < i ==> mirror[j].item.productId != productId
  {
    if mirror == [] then None
    else if mirror[0].item.productId == productId then Some(mirror[0])
    else
      var r := Find(mirror[1..], productId);
      if r.Some? then
        var i :| 0 <= i < |mirror[1..]| && mirror[1..][i] == r.value
                 && forall j :: 0 <= j < i ==> mirror[1..][j].item.productId != productId;
        assert mirror[i + 1] == r.value;
        r
      else r
  }

  /** The mirror holds exactly what a snapshot of the user's cart delivers now. */
  ghost predicate Synced(c: Collection, mirror: seq<Line>, uid: string)
    requires WellFormed(c)
  {
    mirror == Select(c, ByUser(uid))
  }

  /** The grand total of a cart: the sum of price times quantity, summed from the left. */
  function Total(lines: seq<Line>): (r: real)
    ensures (forall l :: l in lines ==> l.item.price >= 0.0 && l.item.quantity >= 0) ==> r >= 0.0
  {
    if lines == [] then 0.0
    else
      var last := lines[|lines| - 1];
      Total(lines[..|lines| - 1]) + last.item.price * last.item.quantity as real
  }

  /** The orders of a user, newest first. */
  function UserOrders(orders: seq<Order>, uid: string): (r: seq<Order>)
    ensures forall o :: o in r ==> o in orders && o.userId == uid
    ensures forall o :: o in orders && o.userId == uid ==> o in r
  {
    if orders == [] then []
    else
      var last := orders[|orders| - 1];
      (if last.userId == uid then [last] else []) + UserOrders(orders[..|orders| - 1], uid)
  }

  // ---------------------------------------------------------------------------
  // What each cart handler does to the "carts" collection.

  /** The document data add-to-cart creates for a product not yet in the mirror. */
  function NewItem(uid: string, p: Product): CartItem {
    CartItem(uid, p.id, p.title, p.description, p.image, p.price, 1)
  }

  /** A mirror line's data with its quantity moved by delta: what the quantity writes send. */
  function Bumped(line: Line, delta: int): CartItem {
    line.item.(quantity := line.item.quantity + delta)
  }

  /** Add-to-cart: bump the mirror's line for the product, or create a line with quantity 1. */
  function AddedToCart(c: Collection, mirror: seq<Line>, uid: string, p: Product): (r: Write)
    requires WellFormed(c)
    ensures WellFormed(r.carts) && (!r.ok ==> r.carts == c)
    ensures !r.ok <==> Find(mirror, p.id).Some? && Find(mirror, p.id).value.id !in c.docs
    ensures r.carts.docs.Keys == c.docs.Keys || (r.carts.docs.Keys == c.docs.Keys + {c.nextId} && c.nextId !in c.docs)
    ensures var f := Find(mirror, p.id);
      r.ok && f.Some? ==> f.value.id in r.carts.docs && r.carts.docs[f.value.id] == Bumped(f.value, 1)
    ensures Find(mirror, p.id).Some? ==> r.carts.nextId == c.nextId && r.carts.docs.Keys == c.docs.Keys
    ensures var f := Find(mirror, p.id);
      forall k :: k in c.docs && (f.None? || k != f.value.id) ==> k in r.carts.docs && r.carts.docs[k] == c.docs[k]
  {
    match Find(mirror, p.id)
    case Some(line) => Update(c, line.id, Bumped(line, 1))
    case None => Write(true, Create(c, NewItem(uid, p)))
  }

  /** Increase: bump the mirror's line for the product; nothing when there is none. */
  function Increased(c: Collection, mirror: seq<Line>, productId: string): (r: Write)
    ensures (WellFormed(c) ==> WellFormed(r.carts)) && (!r.ok ==> r.carts == c)
    ensures !r.ok <==> Find(mirror, productId).Some? && Find(mirror, productId).value.id !in c.docs
    ensures r.carts.nextId == c.nextId && r.carts.docs.Keys == c.docs.Keys
    ensures var f := Find(mirror, productId);
      r.ok && f.Some? ==> f.value.id in r.carts.docs && r.carts.docs[f.value.id] == Bumped(f.value, 1)
    ensures var f := Find(mirror, productId);
      forall k :: k in c.docs && (f.None? || k != f.value.id) ==> k in r.carts.docs && r.carts.docs[k] == c.docs[k]
  {
    match Find(mirror, productId)
    case Some(line) => Update(c, line.id, Bumped(line, 1))
    case None => Write(true, c)
  }

  /** Decrease: lower a quantity above 1, delete a line at exactly 1, otherwise nothing. */
  function Decreased(c: Collection, mirror: seq<Line>, productId: string): (r: Write)
    ensures (WellFormed(c) ==> WellFormed(r.carts)) && (!r.ok ==> r.carts == c)
    ensures r.carts.nextId == c.nextId && r.carts.docs.Keys <= c.docs.Keys
    ensures forall k :: k in r.carts.docs ==> r.carts.docs[k].quantity >= 1 || r.carts.docs[k] == c.docs[k]
    ensures var f := Find(mirror, productId);
      !r.ok <==> f.Some? && f.value.item.quantity > 1 && f.value.id !in c.docs
    ensures var f := Find(mirror, productId);
      r.ok && f.Some? && f.value.item.quantity > 1 ==> f.value.id in r.carts.docs && r.carts.docs[f.value.id] == Bumped(f.value, -1)
    ensures var f := Find(mirror, productId);
      f.Some? && f.value.item.quantity == 1 ==> f.value.id !in r.carts.docs
    ensures var f := Find(mirror, productId);
      f.Some? && f.value.item.quantity < 1 ==> r == Write(true, c)
    ensures var f := Find(mirror, productId);
      forall k :: k in c.docs && (f.None? || k != f.value.id) ==> k in r.carts.docs && r.carts.docs[k] == c.docs[k]
  {
    match Find(mirror, productId)
    case Some(line) =>
      if line.item.quantity > 1 then Update(c, line.id, Bumped(line, -1))
      else if line.item.quantity == 1 then Write(true, Delete(c, line.id))
      else Write(true, c)
    case None => Write(true, c)
  }

  // ---------------------------------------------------------------------------
  // Invariants of the "carts" collection.

  /** No user has two lines for one product. */
  ghost predicate OneLinePerProduct(c: Collection, uid: string) {
    forall k1, k2 ::
      k1 in c.docs && k2 in c.docs && k1 != k2 &&
      c.docs[k1].userId == uid && c.docs[k2].userId == uid
      ==> c.docs[k1].productId != c.docs[k2].productId
  }

  /** Every line has a quantity of at least 1. */
  ghost predicate AllPositive(c: Collection) {
    forall k :: k in c.docs ==> c.docs[k].quantity >= 1
  }

  /** The quantity of a product in a user's cart; 0 when the user has no line for it. */
  function Quantity(c: Collection, uid: string, productId: string): int
    requires WellFormed(c)
  {
    var s := Select(c, ByUserAndProduct(uid, productId));
    if s == [] then 0 else s[0].item.quantity
  }
}
