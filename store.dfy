/**
 * The document store, held in memory: the "carts" and "orders" collections and
 * the create, update, delete and query calls the user context makes on them.
 */
module Store {
  import opened Cart

  class Firestore {
    var carts: Collection
    var orders: seq<Order>

    /** Keys still to be handed out are unused. */
    ghost predicate Valid()
      reads this
    {
      WellFormed(carts)
    }

    constructor (carts: Collection, orders: seq<Order>)
      requires WellFormed(carts)
      ensures Valid() && this.carts == carts && this.orders == orders
    {
      this.carts := carts;
      this.orders := orders;
    }

    /** `addDoc` on "carts": a new document under a key never used before. */
    method AddCart(item: CartItem) returns (id: DocId)
      requires Valid()
      modifies this
      ensures Valid()
      ensures id == old(carts.nextId) && id !in old(carts.docs)
      ensures carts == Create(old(carts), item) && orders == old(orders)
    {
      id := carts.nextId;
      carts := Create(carts, item);
    }

    /** `updateDoc` on "carts": replaces an existing document's data; fails on a missing one. */
    method UpdateCart(id: DocId, item: CartItem) returns (ok: bool)
      requires Valid()
      modifies this
      ensures Valid()
      ensures ok == (id in old(carts.docs))
      ensures carts == Update(old(carts), id, item).carts && orders == old(orders)
    {
      var w := Update(carts, id, item);
      ok := w.ok;
      carts := w.carts;
    }

    /** `deleteDoc` on "carts": removes the document; a missing one is not an error. */
    method DeleteCart(id: DocId)
      requires Valid()
      modifies this
      ensures Valid()
      ensures carts == Delete(old(carts), id) && orders == old(orders)
    {
      carts := Delete(carts, id);
    }

    /** `getDocs` on "carts": the documents matching the query, read once. */
    method GetCarts(q: Query) returns (lines: seq<Line>)
      requires Valid()
      ensures forall l :: l in lines <==> l.id in carts.docs && carts.docs[l.id] == l.item && Matches(q, l.item)
      ensures lines == Select(carts, q)
    {
      lines := Select(carts, q);
    }

    /** `addDoc` on "orders": the order is appended to the collection. */
    method AddOrder(order: Order)
      requires Valid()
      modifies this
      ensures Valid()
      ensures orders == old(orders) + [order] && carts == old(carts)
    {
      orders := orders + [order];
    }
  }
}
