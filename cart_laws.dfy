/**
 * Properties of the cart handlers' store effects: what a query returns, what
 * each handler does to a product's quantity when the mirror is current, the
 * duplicate lines a stale mirror lets through, and the invariants kept.
 */
module CartLaws {
  import opened Cart

  // ---------------------------------------------------------------------------
  // Queries and bulk deletes.

  /** Deleting, one by one, every document a query returned leaves what rejecting the query leaves. */
  lemma DeleteSelected(c: Collection, q: Query)
    requires WellFormed(c)
    ensures c.(docs := c.docs - Ids(Select(c, q))) == Reject(c, q)
  {
    var s := Select(c, q);
    var left := c.docs - Ids(s);
    forall k | k in c.docs
      ensures k in left <==> !Matches(q, c.docs[k])
    {
      if Matches(q, c.docs[k]) {
        assert Line(k, c.docs[k]) in s;
      } else {
        assert forall l :: l in s ==> l.id != k;
      }
    }
    assert left == Reject(c, q).docs;
  }

  /** Rejecting a query twice is rejecting it once. */
  lemma RejectIdempotent(c: Collection, q: Query)
    ensures Reject(Reject(c, q), q) == Reject(c, q)
  {
    assert Reject(Reject(c, q), q).docs == Reject(c, q).docs;
  }

  /** A mirror that is current holds a user's line for a product exactly when the store does. */
  lemma FindSynced(c: Collection, uid: string, pid: string)
    requires WellFormed(c)
    ensures var f := Find(Select(c, ByUser(uid)), pid);
      && (f.None? <==> forall k :: k in c.docs ==> !Matches(ByUserAndProduct(uid, pid), c.docs[k]))
      && (f.Some? ==> f.value.id in c.docs && c.docs[f.value.id] == f.value.item
                      && Matches(ByUserAndProduct(uid, pid), f.value.item))
  {
    var mirror := Select(c, ByUser(uid));
    if Find(mirror, pid).None? {
      forall k | k in c.docs && c.docs[k].userId == uid
        ensures c.docs[k].productId != pid
      {
        assert Line(k, c.docs[k]) in mirror;
      }
    }
  }

  /** On a current mirror, with one line per product, the lookup returns the user's document for the product. */
  lemma FindSyncedLine(c: Collection, uid: string, pid: string, k: DocId)
    requires WellFormed(c) && OneLinePerProduct(c, uid)
    requires k in c.docs && c.docs[k].userId == uid && c.docs[k].productId == pid
    ensures Find(Select(c, ByUser(uid)), pid) == Some(Line(k, c.docs[k]))
  {
    FindSynced(c, uid, pid);
  }

  /** A mirror whose line for the product is the store's document k, unchanged: add-to-cart and increase both raise k's quantity by 1. */
  lemma BumpFound(c: Collection, mirror: seq<Line>, pid: string, k: DocId)
    requires WellFormed(c) && k in c.docs && Find(mirror, pid) == Some(Line(k, c.docs[k]))
    ensures var d := Collection(c.docs[k := c.docs[k].(quantity := c.docs[k].quantity + 1)], c.nextId);
      && Increased(c, mirror, pid) == Write(true, d)
      && forall uid: string, p: Product :: p.id == pid ==> AddedToCart(c, mirror, uid, p) == Write(true, d)
  {
  }

  /** In a sequence of lines with strictly increasing keys, the last key is at least the first plus the length less one. */
  lemma {:induction false} KeysSpread(s: seq<Line>)
    requires forall i, j :: 0 <= i < j < |s| ==> s[i].id < s[j].id
    ensures |s| > 0 ==> s[|s| - 1].id >= s[0].id + |s| - 1
    decreases |s|
  {
    if |s| > 1 {
      var t := s[..|s| - 1];
      KeysSpread(t);
      assert t[0] == s[0] && t[|t| - 1] == s[|s| - 2];
      assert s[|s| - 2].id < s[|s| - 1].id;
    }
  }

  /** A key-ordered sequence whose every element is x, and which holds x, is [x]. */
  lemma OnlyLine(s: seq<Line>, x: Line)
    requires forall i, j :: 0 <= i < j < |s| ==> s[i].id < s[j].id
    requires x in s && forall l :: l in s ==> l == x
    ensures s == [x]
  {
    KeysSpread(s);
    assert s[0] in s && s[|s| - 1] in s;
  }

  /** With one line per product, the query for a user's product returns that line alone, or nothing. */
  lemma ProductLine(c: Collection, uid: string, pid: string)
    requires WellFormed(c) && OneLinePerProduct(c, uid)
    ensures var s := Select(c, ByUserAndProduct(uid, pid));
      && (s == [] <==> forall k :: k in c.docs ==> !Matches(ByUserAndProduct(uid, pid), c.docs[k]))
      && forall k :: k in c.docs && Matches(ByUserAndProduct(uid, pid), c.docs[k]) ==> s == [Line(k, c.docs[k])]
  {
    var q := ByUserAndProduct(uid, pid);
    var s := Select(c, q);
    if s != [] {
      assert s[0] in s;
    }
    forall k | k in c.docs && Matches(q, c.docs[k])
      ensures s == [Line(k, c.docs[k])]
    {
      var x := Line(k, c.docs[k]);
      assert x in s;
      forall l | l in s
        ensures l == x
      {
        assert l.id in c.docs && Matches(q, c.docs[l.id]);
      }
      OnlyLine(s, x);
    }
  }

  /** The quantity of a product present in a user's cart is its line's quantity. */
  lemma QuantityOfLine(c: Collection, uid: string, pid: string, k: DocId)
    requires WellFormed(c) && OneLinePerProduct(c, uid)
    requires k in c.docs && c.docs[k].userId == uid && c.docs[k].productId == pid
    ensures Quantity(c, uid, pid) == c.docs[k].quantity
  {
    ProductLine(c, uid, pid);
  }

  /** The quantity of a product absent from a user's cart is 0. */
  lemma QuantityOfNoLine(c: Collection, uid: string, pid: string)
    requires WellFormed(c)
    requires forall k :: k in c.docs ==> !Matches(ByUserAndProduct(uid, pid), c.docs[k])
    ensures Quantity(c, uid, pid) == 0
  {
  }

  /** Two stores that agree on a user's documents for a product agree on its quantity. */
  lemma QuantityAgrees(c: Collection, d: Collection, uid: string, pid: string)
    requires WellFormed(c) && OneLinePerProduct(c, uid)
    requires WellFormed(d) && OneLinePerProduct(d, uid)
    requires forall k :: k in c.docs && Matches(ByUserAndProduct(uid, pid), c.docs[k]) ==> k in d.docs && d.docs[k] == c.docs[k]
    requires forall k :: k in d.docs && Matches(ByUserAndProduct(uid, pid), d.docs[k]) ==> k in c.docs && c.docs[k] == d.docs[k]
    ensures Quantity(c, uid, pid) == Quantity(d, uid, pid)
  {
    ProductLine(c, uid, pid);
    ProductLine(d, uid, pid);
  }

  /** Setting the quantity of the user's line for a product sets that product's quantity and no other. */
  lemma SetQuantityCounts(c: Collection, uid: string, pid: string, k: DocId, q: int)
    requires WellFormed(c) && OneLinePerProduct(c, uid) && AllPositive(c)
    requires k in c.docs && c.docs[k].userId == uid && c.docs[k].productId == pid && q >= 1
    ensures var d := Collection(c.docs[k := c.docs[k].(quantity := q)], c.nextId);
      && WellFormed(d) && OneLinePerProduct(d, uid) && AllPositive(d)
      && Quantity(c, uid, pid) == c.docs[k].quantity && Quantity(d, uid, pid) == q
      && forall other :: other != pid ==> Quantity(d, uid, other) == Quantity(c, uid, other)
  {
    var d := Collection(c.docs[k := c.docs[k].(quantity := q)], c.nextId);
    QuantityOfLine(c, uid, pid, k);
    QuantityOfLine(d, uid, pid, k);
    forall other | other != pid
      ensures Quantity(d, uid, other) == Quantity(c, uid, other)
    {
      QuantityAgrees(c, d, uid, other);
    }
  }

  /** Lowering the quantity of the user's line for a product, above 1, by 1 lowers that product's quantity by 1 and no other. */
  lemma DecreaseLineCounts(c: Collection, uid: string, pid: string, k: DocId)
    requires WellFormed(c) && OneLinePerProduct(c, uid) && AllPositive(c)
    requires k in c.docs && c.docs[k].userId == uid && c.docs[k].productId == pid && c.docs[k].quantity > 1
    ensures var d := Collection(c.docs[k := c.docs[k].(quantity := c.docs[k].quantity - 1)], c.nextId);
      && WellFormed(d) && OneLinePerProduct(d, uid) && AllPositive(d)
      && Quantity(c, uid, pid) > 1 && Quantity(d, uid, pid) == Quantity(c, uid, pid) - 1
      && forall other :: other != pid ==> Quantity(d, uid, other) == Quantity(c, uid, other)
  {
    SetQuantityCounts(c, uid, pid, k, c.docs[k].quantity - 1);
  }

  /** Deleting the user's line for a product takes that product to 0 and no other. */
  lemma DeleteLineCounts(c: Collection, uid: string, pid: string, k: DocId)
    requires WellFormed(c) && OneLinePerProduct(c, uid) && AllPositive(c)
    requires k in c.docs && c.docs[k].userId == uid && c.docs[k].productId == pid
    ensures var d := Delete(c, k);
      && WellFormed(d) && OneLinePerProduct(d, uid) && AllPositive(d)
      && Quantity(c, uid, pid) == c.docs[k].quantity && Quantity(d, uid, pid) == 0
      && forall other :: other != pid ==> Quantity(d, uid, other) == Quantity(c, uid, other)
  {
    var d := Delete(c, k);
    QuantityOfLine(c, uid, pid, k);
    QuantityOfNoLine(d, uid, pid);
    forall other | other != pid
      ensures Quantity(d, uid, other) == Quantity(c, uid, other)
    {
      QuantityAgrees(c, d, uid, other);
    }
  }

  /** Creating the user's first line for a product, with quantity 1, takes that product from 0 to 1 and no other. */
  lemma CreateLineCounts(c: Collection, uid: string, p: Product)
    requires WellFormed(c) && OneLinePerProduct(c, uid) && AllPositive(c)
    requires forall k :: k in c.docs ==> !Matches(ByUserAndProduct(uid, p.id), c.docs[k])
    ensures var d := Create(c, NewItem(uid, p));
      && WellFormed(d) && OneLinePerProduct(d, uid) && AllPositive(d)
      && Quantity(c, uid, p.id) == 0 && Quantity(d, uid, p.id) == 1
      && forall other :: other != p.id ==> Quantity(d, uid, other) == Quantity(c, uid, other)
  {
    var d := Create(c, NewItem(uid, p));
    QuantityOfNoLine(c, uid, p.id);
    QuantityOfLine(d, uid, p.id, c.nextId);
    forall other | other != p.id
      ensures Quantity(d, uid, other) == Quantity(c, uid, other)
    {
      QuantityAgrees(c, d, uid, other);
    }
  }

  // ---------------------------------------------------------------------------
  // Add-to-cart.

  /** A current mirror holding the user's line k for the product: k's quantity goes up by 1, nothing else changes and nothing is created. */
  lemma AddToCartExisting(c: Collection, uid: string, p: Product, k: DocId)
    requires WellFormed(c) && OneLinePerProduct(c, uid)
    requires k in c.docs && c.docs[k].userId == uid && c.docs[k].productId == p.id
    ensures AddedToCart(c, Select(c, ByUser(uid)), uid, p)
         == Write(true, Collection(c.docs[k := c.docs[k].(quantity := c.docs[k].quantity + 1)], c.nextId))
  {
    var mirror := Select(c, ByUser(uid));
    FindSyncedLine(c, uid, p.id, k);
    BumpFound(c, mirror, p.id, k);
  }

  /** No mirror line for the product: one new document with the product's fields and quantity 1, the others untouched. */
  lemma AddToCartNew(c: Collection, mirror: seq<Line>, uid: string, p: Product)
    requires WellFormed(c)
    requires forall l :: l in mirror ==> l.item.productId != p.id
    ensures var r := AddedToCart(c, mirror, uid, p);
      && r.ok && r.carts.nextId == c.nextId + 1
      && c.nextId !in c.docs && r.carts.docs.Keys == c.docs.Keys + {c.nextId}
      && r.carts.docs[c.nextId] == CartItem(uid, p.id, p.title, p.description, p.image, p.price, 1)
      && forall k :: k in c.docs ==> r.carts.docs[k] == c.docs[k]
  {
  }

  /**
   * Two adds of a new product from the same stale mirror, with no snapshot between
   * them, leave the user two lines for that product.
   */
  lemma StaleMirrorDuplicates(c: Collection, mirror: seq<Line>, uid: string, p: Product)
    requires WellFormed(c)
    requires forall l :: l in mirror ==> l.item.productId != p.id
    ensures var first := AddedToCart(c, mirror, uid, p).carts;
      WellFormed(first) && !OneLinePerProduct(AddedToCart(first, mirror, uid, p).carts, uid)
  {
    var first := AddedToCart(c, mirror, uid, p).carts;
    var second := AddedToCart(first, mirror, uid, p).carts;
    assert first.docs[c.nextId].productId == p.id;
    assert second.docs[first.nextId].productId == p.id;
    assert c.nextId in second.docs && first.nextId in second.docs && c.nextId != first.nextId;
  }

  /** After a snapshot that holds the product, add-to-cart raises its quantity by 1 and no other. */
  lemma AddToCartPresentCounts(c: Collection, uid: string, p: Product, k: DocId)
    requires WellFormed(c) && OneLinePerProduct(c, uid) && AllPositive(c)
    requires k in c.docs && c.docs[k].userId == uid && c.docs[k].productId == p.id
    ensures var r := AddedToCart(c, Select(c, ByUser(uid)), uid, p);
      && r.ok && WellFormed(r.carts) && OneLinePerProduct(r.carts, uid) && AllPositive(r.carts)
      && Quantity(r.carts, uid, p.id) == Quantity(c, uid, p.id) + 1
      && forall pid :: pid != p.id ==> Quantity(r.carts, uid, pid) == Quantity(c, uid, pid)
  {
    AddToCartExisting(c, uid, p, k);
    SetQuantityCounts(c, uid, p.id, k, c.docs[k].quantity + 1);
  }

  /** After a snapshot that lacks the product, add-to-cart takes its quantity from 0 to 1 and no other. */
  lemma AddToCartAbsentCounts(c: Collection, uid: string, p: Product)
    requires WellFormed(c) && OneLinePerProduct(c, uid) && AllPositive(c)
    requires forall k :: k in c.docs ==> !Matches(ByUserAndProduct(uid, p.id), c.docs[k])
    ensures var r := AddedToCart(c, Select(c, ByUser(uid)), uid, p);
      && r.ok && WellFormed(r.carts) && OneLinePerProduct(r.carts, uid) && AllPositive(r.carts)
      && Quantity(r.carts, uid, p.id) == Quantity(c, uid, p.id) + 1
      && forall pid :: pid != p.id ==> Quantity(r.carts, uid, pid) == Quantity(c, uid, pid)
  {
    FindSynced(c, uid, p.id);
    assert AddedToCart(c, Select(c, ByUser(uid)), uid, p) == Write(true, Create(c, NewItem(uid, p)));
    CreateLineCounts(c, uid, p);
  }

  /**
   * After a snapshot, add-to-cart succeeds, keeps one line per product and raises the
   * product's quantity by 1; the user's other products keep their quantities.
   */
  lemma AddToCartCounts(c: Collection, uid: string, p: Product)
    requires WellFormed(c) && OneLinePerProduct(c, uid) && AllPositive(c)
    ensures var r := AddedToCart(c, Select(c, ByUser(uid)), uid, p);
      && r.ok && WellFormed(r.carts) && OneLinePerProduct(r.carts, uid) && AllPositive(r.carts)
      && Quantity(r.carts, uid, p.id) == Quantity(c, uid, p.id) + 1
      && forall pid :: pid != p.id ==> Quantity(r.carts, uid, pid) == Quantity(c, uid, pid)
  {
    if k :| k in c.docs && Matches(ByUserAndProduct(uid, p.id), c.docs[k]) {
      AddToCartPresentCounts(c, uid, p, k);
    } else {
      AddToCartAbsentCounts(c, uid, p);
    }
  }

  // ---------------------------------------------------------------------------
  // Increase and decrease.

  /** Increase and decrease on a product the mirror does not hold write nothing. */
  lemma AbsentProductUnchanged(c: Collection, mirror: seq<Line>, pid: string)
    requires forall l :: l in mirror ==> l.item.productId != pid
    ensures Increased(c, mirror, pid) == Write(true, c)
    ensures Decreased(c, mirror, pid) == Write(true, c)
  {
  }

  /** A current mirror holding the user's line k for the product: increase raises k's quantity by 1 and changes nothing else. */
  lemma IncreaseExisting(c: Collection, uid: string, pid: string, k: DocId)
    requires WellFormed(c) && OneLinePerProduct(c, uid)
    requires k in c.docs && c.docs[k].userId == uid && c.docs[k].productId == pid
    ensures Increased(c, Select(c, ByUser(uid)), pid)
         == Write(true, Collection(c.docs[k := c.docs[k].(quantity := c.docs[k].quantity + 1)], c.nextId))
  {
    var mirror := Select(c, ByUser(uid));
    FindSyncedLine(c, uid, pid, k);
    BumpFound(c, mirror, pid, k);
  }

  /**
   * A current mirror holding the user's line k for the product: decrease lowers k's
   * quantity by 1 when it is above 1 and deletes k when it is exactly 1.
   */
  lemma DecreaseExisting(c: Collection, uid: string, pid: string, k: DocId)
    requires WellFormed(c) && OneLinePerProduct(c, uid)
    requires k in c.docs && c.docs[k].userId == uid && c.docs[k].productId == pid
    ensures c.docs[k].quantity > 1 ==>
      Decreased(c, Select(c, ByUser(uid)), pid)
        == Write(true, Collection(c.docs[k := c.docs[k].(quantity := c.docs[k].quantity - 1)], c.nextId))
    ensures c.docs[k].quantity == 1 ==> Decreased(c, Select(c, ByUser(uid)), pid) == Write(true, Delete(c, k))
  {
    FindSyncedLine(c, uid, pid, k);
  }

  /**
   * Two increases from the same stale mirror, with no snapshot between them, raise
   * the quantity by 1, not 2: the second write sends the same data again.
   */
  lemma StaleMirrorLostUpdate(c: Collection, uid: string, pid: string, k: DocId)
    requires WellFormed(c) && OneLinePerProduct(c, uid)
    requires k in c.docs && c.docs[k].userId == uid && c.docs[k].productId == pid
    ensures var mirror := Select(c, ByUser(uid));
      var first := Increased(c, mirror, pid).carts;
      var second := Increased(first, mirror, pid);
      && !Synced(first, mirror, uid)
      && second.ok && second.carts == first
      && k in second.carts.docs && second.carts.docs[k].quantity == c.docs[k].quantity + 1
  {
    var mirror := Select(c, ByUser(uid));
    IncreaseExisting(c, uid, pid, k);
    var first := Increased(c, mirror, pid).carts;
    var line := Find(mirror, pid).value;
    assert line.id == k && line.item == c.docs[k];
    assert Line(k, c.docs[k]) in mirror;
    assert Line(k, c.docs[k]) !in Select(first, ByUser(uid));
  }

  /** After a snapshot that holds the product, increase raises its quantity by 1 and no other. */
  lemma IncreasePresentCounts(c: Collection, uid: string, pid: string, k: DocId)
    requires WellFormed(c) && OneLinePerProduct(c, uid) && AllPositive(c)
    requires k in c.docs && c.docs[k].userId == uid && c.docs[k].productId == pid
    ensures var r := Increased(c, Select(c, ByUser(uid)), pid);
      && r.ok && WellFormed(r.carts) && OneLinePerProduct(r.carts, uid) && AllPositive(r.carts)
      && Quantity(c, uid, pid) != 0 && Quantity(r.carts, uid, pid) == Quantity(c, uid, pid) + 1
      && forall other :: other != pid ==> Quantity(r.carts, uid, other) == Quantity(c, uid, other)
  {
    IncreaseExisting(c, uid, pid, k);
    SetQuantityCounts(c, uid, pid, k, c.docs[k].quantity + 1);
  }

  /** After a snapshot, increase raises a product in the cart by exactly 1 and leaves an absent one absent. */
  lemma IncreaseCounts(c: Collection, uid: string, pid: string)
    requires WellFormed(c) && OneLinePerProduct(c, uid) && AllPositive(c)
    ensures var r := Increased(c, Select(c, ByUser(uid)), pid);
      && r.ok && WellFormed(r.carts) && OneLinePerProduct(r.carts, uid) && AllPositive(r.carts)
      && Quantity(r.carts, uid, pid) == (if Quantity(c, uid, pid) == 0 then 0 else Quantity(c, uid, pid) + 1)
      && forall other :: other != pid ==> Quantity(r.carts, uid, other) == Quantity(c, uid, other)
  {
    if k :| k in c.docs && Matches(ByUserAndProduct(uid, pid), c.docs[k]) {
      IncreasePresentCounts(c, uid, pid, k);
    } else {
      FindSynced(c, uid, pid);
      QuantityOfNoLine(c, uid, pid);
      assert Increased(c, Select(c, ByUser(uid)), pid) == Write(true, c);
    }
  }

  /** After a snapshot, decrease lowers a product in the cart by exactly 1, deleting its line at 0, and leaves an absent one absent. */
  lemma DecreaseCounts(c: Collection, uid: string, pid: string)
    requires WellFormed(c) && OneLinePerProduct(c, uid) && AllPositive(c)
    ensures var r := Decreased(c, Select(c, ByUser(uid)), pid);
      && r.ok && WellFormed(r.carts) && OneLinePerProduct(r.carts, uid) && AllPositive(r.carts)
      && Quantity(r.carts, uid, pid) == (if Quantity(c, uid, pid) == 0 then 0 else Quantity(c, uid, pid) - 1)
      && forall other :: other != pid ==> Quantity(r.carts, uid, other) == Quantity(c, uid, other)
  {
    FindSynced(c, uid, pid);
    if k :| k in c.docs && Matches(ByUserAndProduct(uid, pid), c.docs[k]) {
      DecreaseExisting(c, uid, pid, k);
      if c.docs[k].quantity > 1 {
        DecreaseLineCounts(c, uid, pid, k);
      } else {
        DeleteLineCounts(c, uid, pid, k);
      }
    } else {
      QuantityOfNoLine(c, uid, pid);
    }
  }

  /** Decrease never leaves a quantity below 1, even from a stale mirror. */
  lemma DecreaseKeepsPositive(c: Collection, mirror: seq<Line>, pid: string)
    requires AllPositive(c)
    ensures AllPositive(Decreased(c, mirror, pid).carts)
  {
  }

  /** Increase never leaves a quantity below 1 when the mirror's quantities are at least 1. */
  lemma IncreaseKeepsPositive(c: Collection, mirror: seq<Line>, pid: string)
    requires AllPositive(c)
    requires forall l :: l in mirror ==> l.item.quantity >= 1
    ensures AllPositive(Increased(c, mirror, pid).carts)
  {
  }

  // ---------------------------------------------------------------------------
  // Remove and checkout cleanup.

  /** Removing a product deletes every line of the user for it and nothing else, and removing again changes nothing. */
  lemma RemoveCounts(c: Collection, uid: string, pid: string)
    requires WellFormed(c) && OneLinePerProduct(c, uid)
    ensures var r := Reject(c, ByUserAndProduct(uid, pid));
      && WellFormed(r) && OneLinePerProduct(r, uid)
      && Quantity(r, uid, pid) == 0
      && (forall other :: other != pid ==> Quantity(r, uid, other) == Quantity(c, uid, other))
      && Reject(r, ByUserAndProduct(uid, pid)) == r
  {
    var r := Reject(c, ByUserAndProduct(uid, pid));
    QuantityOfNoLine(r, uid, pid);
    forall other | other != pid
      ensures Quantity(r, uid, other) == Quantity(c, uid, other)
    {
      QuantityAgrees(c, r, uid, other);
    }
    RejectIdempotent(c, ByUserAndProduct(uid, pid));
  }

  /** Clearing a user's cart leaves every product of that user at 0 and every other user's lines as they were. */
  lemma ClearCounts(c: Collection, uid: string)
    requires WellFormed(c)
    ensures var r := Reject(c, ByUser(uid));
      && WellFormed(r) && OneLinePerProduct(r, uid)
      && (forall pid :: Quantity(r, uid, pid) == 0)
      && (forall k :: k in c.docs && c.docs[k].userId != uid ==> k in r.docs && r.docs[k] == c.docs[k])
  {
    var r := Reject(c, ByUser(uid));
    forall pid
      ensures Quantity(r, uid, pid) == 0
    {
      QuantityOfNoLine(r, uid, pid);
    }
  }

  // ---------------------------------------------------------------------------
  // A session of cart actions, each one read from a fresh snapshot.

  datatype Action = Add(product: Product) | Increase(productId: string) | Decrease(productId: string) | Remove(productId: string)

  /** The store after one action taken on a current mirror. */
  function Step(c: Collection, uid: string, a: Action): (r: Collection)
    requires WellFormed(c)
    ensures WellFormed(r)
  {
    var mirror := Select(c, ByUser(uid));
    match a
    case Add(p) => AddedToCart(c, mirror, uid, p).carts
    case Increase(pid) => Increased(c, mirror, pid).carts
    case Decrease(pid) => Decreased(c, mirror, pid).carts
    case Remove(pid) => Reject(c, ByUserAndProduct(uid, pid))
  }

  /** The store after a run of actions with a snapshot before each. */
  function Run(c: Collection, uid: string, actions: seq<Action>): (r: Collection)
    requires WellFormed(c)
    ensures WellFormed(r)
    decreases |actions|
  {
    if actions == [] then c else Run(Step(c, uid, actions[0]), uid, actions[1..])
  }

  /** The quantity a product should have after some actions: +1 per add, +1 or -1 per increase or decrease of a product in the cart, 0 on remove. */
  function Net(q: int, pid: string, actions: seq<Action>): int
    decreases |actions|
  {
    if actions == [] then q
    else
      var next :=
        match actions[0]
        case Add(p) => if p.id == pid then q + 1 else q
        case Increase(id) => if id == pid && q != 0 then q + 1 else q
        case Decrease(id) => if id == pid && q != 0 then q - 1 else q
        case Remove(id) => if id == pid then 0 else q;
      Net(next, pid, actions[1..])
  }

  /** One action keeps the invariants and moves every product's quantity as Net says. */
  lemma StepCounts(c: Collection, uid: string, a: Action, pid: string)
    requires WellFormed(c) && OneLinePerProduct(c, uid) && AllPositive(c)
    ensures OneLinePerProduct(Step(c, uid, a), uid) && AllPositive(Step(c, uid, a))
    ensures Quantity(Step(c, uid, a), uid, pid) == Net(Quantity(c, uid, pid), pid, [a])
  {
    match a
    case Add(p) => AddToCartCounts(c, uid, p);
    case Increase(id) => IncreaseCounts(c, uid, id);
    case Decrease(id) => DecreaseCounts(c, uid, id);
    case Remove(id) =>
      RemoveCounts(c, uid, id);
      var r := Reject(c, ByUserAndProduct(uid, id));
      forall k | k in r.docs
        ensures r.docs[k].quantity >= 1
      {
        assert r.docs[k] == c.docs[k];
      }
  }

  /** Net takes its actions one at a time. */
  lemma NetFirst(q: int, pid: string, actions: seq<Action>)
    requires actions != []
    ensures Net(q, pid, actions) == Net(Net(q, pid, [actions[0]]), pid, actions[1..])
  {
  }

  /** A cart whose quantities are all at least 1 holds no product at a negative quantity. */
  lemma QuantityNonNegative(c: Collection, uid: string, pid: string)
    requires WellFormed(c) && AllPositive(c)
    ensures Quantity(c, uid, pid) >= 0
  {
    var s := Select(c, ByUserAndProduct(uid, pid));
    assert s != [] ==> s[0] in s;
  }

  /**
   * With a snapshot before every action, a product's final quantity is the net of
   * its adds, increases, decreases and removes, never below 0, and the user keeps
   * one line per product.
   */
  lemma {:induction false} RunCounts(c: Collection, uid: string, actions: seq<Action>, pid: string)
    requires WellFormed(c) && OneLinePerProduct(c, uid) && AllPositive(c)
    ensures OneLinePerProduct(Run(c, uid, actions), uid) && AllPositive(Run(c, uid, actions))
    ensures Quantity(Run(c, uid, actions), uid, pid) == Net(Quantity(c, uid, pid), pid, actions)
    ensures Quantity(Run(c, uid, actions), uid, pid) >= 0
    decreases |actions|
  {
    if actions == [] {
      QuantityNonNegative(c, uid, pid);
    } else {
      var a := actions[0];
      var next := Step(c, uid, a);
      StepCounts(c, uid, a, pid);
      RunCounts(next, uid, actions[1..], pid);
      assert Run(c, uid, actions) == Run(next, uid, actions[1..]);
      NetFirst(Quantity(c, uid, pid), pid, actions);
    }
  }

  // ---------------------------------------------------------------------------
  // Totals and order history.

  /** The grand total of two carts put together is the sum of their totals. */
  lemma {:induction false} TotalAppend(a: seq<Line>, b: seq<Line>)
    ensures Total(a + b) == Total(a) + Total(b)
    decreases |b|
  {
    if b != [] {
      var last := b[|b| - 1];
      assert (a + b)[..|a + b| - 1] == a + b[..|b| - 1];
      TotalAppend(a, b[..|b| - 1]);
    } else {
      assert a + b == a;
    }
  }

  /** A user's newest order heads that user's order history. */
  lemma NewestOrderFirst(orders: seq<Order>, o: Order)
    ensures UserOrders(orders + [o], o.userId) == [o] + UserOrders(orders, o.userId)
    ensures forall uid :: uid != o.userId ==> UserOrders(orders + [o], uid) == UserOrders(orders, uid)
  {
    assert (orders + [o])[..|orders + [o]| - 1] == orders;
  }
}
