/**
 * The live queries the user context keeps open. Each change of user re-runs the
 * subscription effect; each open listener can deliver a snapshot of its user's
 * cart into the mirror at any time.
 */
module Listeners {
  import opened Cart

  /** The effect as written: it opens a listener for the new user and never closes the earlier ones. */
  function SubscribeAsWritten(active: set<string>, uid: string): (r: set<string>)
    ensures uid in r && active <= r
  {
    active + {uid}
  }

  /** The effect with its cleanup: the earlier listeners are closed, only the new user's stays open. */
  function Subscribe(active: set<string>, uid: string): (r: set<string>)
    ensures uid in r && forall u :: u in r ==> u == uid
  {
    {uid}
  }

  /**
   * As written: after signing in as a and then as b, a's listener is still open.
   * The snapshot it delivers, which becomes b's mirror, holds a line of a and is
   * not b's cart: the mirror is out of step with the store for b.
   */
  lemma LeakedListenerShowsOtherCart(c: Collection, a: string, b: string, k: DocId)
    requires WellFormed(c) && a != b
    requires k in c.docs && c.docs[k].userId == a
    ensures var active := SubscribeAsWritten(SubscribeAsWritten({}, a), b);
      var mirror := Select(c, ByUser(a));
      && a in active && b in active
      && Line(k, c.docs[k]) in mirror && c.docs[k].userId != b
      && !Synced(c, mirror, b)
  {
    var mirror := Select(c, ByUser(a));
    assert Line(k, c.docs[k]) in mirror;
    assert Line(k, c.docs[k]) !in Select(c, ByUser(b));
  }

  /** Corrected: every snapshot any open listener delivers holds only the current user's lines. */
  lemma SubscribedShowsOwnCart(c: Collection, active: set<string>, uid: string, from: string)
    requires WellFormed(c)
    requires from in Subscribe(active, uid)
    ensures forall l :: l in Select(c, ByUser(from)) ==> l.item.userId == uid
  {
  }
}
