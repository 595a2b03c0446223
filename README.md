# BusyBuy user context: cart, checkout and session, in Dafny

BusyBuy is a shop front. Its user context keeps three things:
- the session: who is signed in, and the user id kept in local storage;
- a local mirror of the signed-in user's cart and orders, filled by live queries on the document store;
- the cart handlers: add, increase, decrease, remove and purchase. They read the mirror and write create, update and delete operations to the store.

The product card also shows each product title cut to 30 characters.

The model keeps the store in memory:
- `Cart.Collection`: the "carts" collection, a map from document key to data plus the next auto key;
- `Store.Firestore`: a class over that collection and the "orders" sequence.

`Context.UserContext` is a class with the session and mirror fields. Its handler methods may modify only the store (`modifies db`). So the frame itself shows that no handler assigns the mirror. Only `CartSnapshot` replaces it, with the store's documents for the user.

The mirror can therefore be stale when a handler reads it, as in the code. Each handler's effect on the store is a function of the store and the mirror (`Cart.AddedToCart`, `Cart.Increased`, `Cart.Decreased`, `Cart.Reject`). The handler methods are proved equal to these functions. The lemmas in `CartLaws` state what the handlers mean:
- with a current mirror (a snapshot came in between), the user keeps one line per product;
- a product's quantity moves by exactly +1 or −1, and a line is deleted when its quantity would reach 0;
- two adds of a new product from one stale mirror create duplicate lines (`CartLaws.StaleMirrorDuplicates`);
- two increases from one stale mirror raise the quantity by 1, not 2, because each writes the mirror's line with its quantity plus 1 (`CartLaws.StaleMirrorLostUpdate`).

The model keeps both races and does not fix them.

Files: `title.dfy` (module `Title`), `cart.dfy` (`Cart`), `cart_laws.dfy` (`CartLaws`), `store.dfy` (`Store`), `listeners.dfy` (`Listeners`), `context.dfy` (`Context`).

The model follows the code in these points:
- The handlers catch no errors. A rejected `updateDoc` (the document no longer exists) rejects the handler's promise with nothing written. The model returns `ok == false` with the store unchanged.
- Purchase has no rollback or partial-commit reporting. It adds the order, then queries and deletes the user's lines.
- The live queries are not closed when the user changes. That is the finding below; the class uses the corrected subscription.
- Logout writes `{uid: ""}` to local storage rather than removing the entry. The model keeps the persisted id as a string, "" meaning nobody.

## Model

| member | source | states |
|---|---|---|
| `Title.Shown` | src/components/product-card/ProductCard.js:33 | A title of at most 30 characters is shown unchanged. A longer one is shown as exactly 33 characters ending in "...". The shown text never exceeds 33 characters and starts with the title's first min(30, length) characters. |
| `Title.ShownIdempotent` | src/components/product-card/ProductCard.js:33 | Truncating an already truncated title gives the same string. |
| `Title.ShownCanGrow` | src/components/product-card/ProductCard.js:33 | A title of 31 or 32 characters is shown longer than it is. |
| `Title.ShownAlike` | src/components/product-card/ProductCard.js:33 | Two titles look the same exactly when both are short and equal, or both are long and share their first 30 characters. |
| `Cart.Create` | src/context/userContext.js:128 | `addDoc` gives the new document a key no document has, stores the data under it and leaves every other document as it was. |
| `Cart.Update` | src/context/userContext.js:114-117 | `updateDoc` succeeds exactly when the document exists. It then replaces that document's data only. On failure the collection is unchanged. |
| `Cart.Delete` | src/context/userContext.js:167 | `deleteDoc` removes that key if present and nothing else; a missing key is not an error. |
| `Cart.Select` | src/context/userContext.js:37-46 | A query or snapshot holds each matching document exactly once, with its key and data. It holds nothing else, in strictly ascending key order. |
| `Cart.Reject` | src/context/userContext.js:133-141 | After deleting the documents matching a query, a document remains exactly when it did not match, and its data is unchanged. |
| `Cart.Find` | src/context/userContext.js:109-111 | The lookup `cart.find` returns the first mirror line with the product id: no earlier line has it. It returns nothing exactly when no mirror line has that product. |
| `Cart.UserOrders` | src/context/userContext.js:48-61 | The order mirror holds exactly the user's orders. |
| `Cart.AddedToCart` | src/context/userContext.js:108-131 | Add-to-cart fails exactly when the mirror's line points at a document that no longer exists, and a failure writes nothing. On success, the found document becomes the mirror line's data with quantity plus 1, even when the mirror is stale. Every other document stays as it was. A found line never creates a document, however stale; only a product with no mirror line adds exactly one fresh key. |
| `Cart.Increased` | src/context/userContext.js:145-155 | Increase never creates or deletes a document. It fails, writing nothing, exactly when the mirror's line is gone from the store. On success the found document becomes the mirror line's data with quantity plus 1, even when the mirror is stale. Every other document stays as it was. |
| `Cart.Decreased` | src/context/userContext.js:157-170 | Decrease never creates a document, and every document it writes keeps a quantity of at least 1. A mirror line above 1 makes the document the line's data with quantity minus 1; it fails, writing nothing, exactly when that document is gone. A mirror line at exactly 1 deletes its document, and a mirror line below 1 writes nothing. Every other document stays as it was. |
| `CartLaws.DeleteSelected` | src/context/userContext.js:186-189 | Deleting each document returned by a query one by one leaves the same store as deleting everything that matches the query. |
| `CartLaws.RejectIdempotent` | src/context/userContext.js:133-141 | Running the remove or checkout cleanup twice gives the same store as running it once. |
| `CartLaws.FindSynced` | src/context/userContext.js:146-148 | On a current mirror, the lookup finds a line for a product exactly when the store holds one for the user. The line it finds is that document, with the same key and data. |
| `CartLaws.BumpFound` | src/context/userContext.js:109-117 | Whenever the lookup finds the store's document k unchanged, add-to-cart and increase both leave the store with only k's quantity raised by 1. |
| `CartLaws.ProductLine` | src/context/userContext.js:134-140 | When the user has one line per product, querying a product of the user returns either that single line or nothing. |
| `CartLaws.AddToCartExisting` | src/context/userContext.js:109-117 | With a current mirror and the user's document for the product, add-to-cart raises that document's quantity by 1. All its other fields stay the same, and no document is created or removed. |
| `CartLaws.AddToCartNew` | src/context/userContext.js:118-128 | With no mirror line for the product, add-to-cart creates exactly one new document. It has the user id, the product's id, title, description, image and price, and quantity 1. Existing documents are untouched. |
| `CartLaws.StaleMirrorDuplicates` | src/context/userContext.js:109-128 | Two adds of a new product from the same mirror, with no snapshot between them, leave the user two lines for that product. |
| `CartLaws.AddToCartCounts` | src/context/userContext.js:108-131 | With a current mirror, add-to-cart succeeds and keeps one line per product and all quantities at least 1. It raises that product's quantity by exactly 1 and leaves every other product's quantity alone. |
| `CartLaws.AbsentProductUnchanged` | src/context/userContext.js:145-170 | Increase and decrease of a product the mirror does not hold write nothing. |
| `CartLaws.IncreaseExisting` | src/context/userContext.js:145-154 | With a current mirror and the user's document for the product, increase raises that document's quantity by 1 and changes nothing else. |
| `CartLaws.DecreaseExisting` | src/context/userContext.js:157-169 | With a current mirror and the user's document for the product, decrease lowers its quantity by 1 when above 1, and deletes the document at exactly 1. |
| `CartLaws.StaleMirrorLostUpdate` | src/context/userContext.js:145-154 | Two increases from the same mirror, with no snapshot between them, raise the quantity by 1 only. After the first, the mirror is stale; the second writes the same data again. |
| `CartLaws.IncreaseCounts` | src/context/userContext.js:145-155 | With a current mirror, increase raises a product in the cart by exactly 1 and leaves an absent product absent. It keeps one line per product and leaves other products alone. |
| `CartLaws.DecreaseCounts` | src/context/userContext.js:157-170 | With a current mirror, decrease lowers a product by exactly 1, and at quantity 1 deletes its line. An absent product stays absent, and other products are unchanged. |
| `CartLaws.DecreaseKeepsPositive` | src/context/userContext.js:161-169 | If every quantity starts at 1 or more, decrease never leaves one at 0 or below, even from a stale mirror. |
| `CartLaws.IncreaseKeepsPositive` | src/context/userContext.js:149-154 | If the store and the mirror hold quantities of at least 1, so does the store after increase. |
| `CartLaws.RemoveCounts` | src/context/userContext.js:133-141 | Remove deletes every line of the user for the product. Other products keep their quantities, and removing again changes nothing. |
| `CartLaws.ClearCounts` | src/context/userContext.js:186-189 | After the checkout cleanup the user has no line left, and other users' lines are unchanged. |
| `CartLaws.RunCounts` | src/context/userContext.js:107-170 | With a snapshot before each add, increase, decrease or remove, the user keeps one line per product. Each product's final quantity is the net of those actions, floored at 0, and never negative. |
| `Cart.Total` | src/context/userContext.js:173-175 | The grand total is the left-to-right sum of price times quantity over the cart, before rounding. With non-negative prices and quantities it is non-negative. |
| `CartLaws.TotalAppend` | src/context/userContext.js:174 | The grand total of two carts put together is the sum of their totals. |
| `CartLaws.NewestOrderFirst` | src/context/userContext.js:48-61 | A new order appears at the head of its user's order history. Other users' histories are unchanged. |
| `Store.Firestore.AddCart` | src/context/userContext.js:128 | Creating a cart document uses the next unused key and changes nothing else. |
| `Store.Firestore.UpdateCart` | src/context/userContext.js:150-153 | Updating reports success exactly when the document exists. The collection afterwards is as `Cart.Update` gives it. |
| `Store.Firestore.DeleteCart` | src/context/userContext.js:167 | Deleting leaves the collection as `Cart.Delete` gives it. |
| `Store.Firestore.GetCarts` | src/context/userContext.js:134-140 | The one-shot query returns exactly the matching documents. |
| `Store.Firestore.AddOrder` | src/context/userContext.js:180-185 | Creating an order appends it to the orders collection and leaves the carts alone. |
| `Listeners.SubscribeAsWritten` | src/context/userContext.js:35-62 | As written, a change of user opens the new user's listener and keeps every earlier one open. |
| `Listeners.Subscribe` | src/context/userContext.js:35-62 | Corrected: after a change of user only the new user's listener is open. |
| `Listeners.LeakedListenerShowsOtherCart` | src/context/userContext.js:35-46 | As written, after signing in as a and then as b, both a's and b's listeners are open. The snapshot a's listener delivers into the mirror holds a line of a, and it is not b's cart. |
| `Listeners.SubscribedShowsOwnCart` | src/context/userContext.js:37-46 | Corrected: every snapshot from an open listener holds only the current user's lines. |
| `Context.UserContext.constructor` | src/context/userContext.js:18-22 | On mount nobody is signed in, the mirrors are empty, the grand total is 0 and the persisted id is the one in local storage. |
| `Context.UserContext.Restore` | src/context/userContext.js:26-32 | A non-empty persisted id signs that user in. An empty one changes nothing. |
| `Context.UserContext.SignUp` | src/context/userContext.js:65-75 | Sign-up reports the auth service's answer and changes no state. |
| `Context.UserContext.SignIn` | src/context/userContext.js:78-95 | On success the user is set, marked signed in and persisted. On failure the session is unchanged. The mirrors are not touched. |
| `Context.UserContext.Logout` | src/context/userContext.js:98-105 | Logout when nobody is signed in is a no-op. Otherwise it clears the signed-in flag, the user id and the persisted id. |
| `Context.UserContext.CartSnapshot` | src/context/userContext.js:37-46 | A snapshot sets the mirror to exactly the store's cart documents of the current user and recomputes the grand total from it. |
| `Context.UserContext.OrderSnapshot` | src/context/userContext.js:48-61 | An order snapshot sets the order mirror to exactly the user's orders, newest first. |
| `Context.UserContext.HandleAddToCart` | src/context/userContext.js:108-131 | Writes exactly `Cart.AddedToCart` of the store and the current mirror, reports whether the store accepted it, and touches nothing but the carts collection. |
| `Context.UserContext.IncreaseQuantity` | src/context/userContext.js:145-155 | Writes exactly `Cart.Increased` of the store and the mirror and touches nothing else. |
| `Context.UserContext.DecreaseQuantity` | src/context/userContext.js:157-170 | Writes exactly `Cart.Decreased` of the store and the mirror and touches nothing else. |
| `Context.UserContext.DeleteEach` | src/context/userContext.js:141 | The delete loop over a query's results removes exactly those keys. |
| `Context.UserContext.HandleRemoveCart` | src/context/userContext.js:133-143 | Deletes every store document of the user for the product, found by querying the store rather than the mirror, and nothing else. |
| `Context.UserContext.HandlePurchase` | src/context/userContext.js:178-192 | With an empty mirror, no write. Otherwise it appends exactly one order holding the user, the mirror and its total. Afterwards the user has no cart document, and other users' documents are unchanged. With non-negative prices and quantities the order's grand total is non-negative. |

## Left out

- The Firebase SDK (`getAuth`, `createUserWithEmailAndPassword`, `signInWithEmailAndPassword`, `onSnapshot`, `getDocs`, `addDoc`, `updateDoc`, `deleteDoc`) is replaced by the in-memory `Store.Firestore`. The auth service's answers are parameters of `SignUp` and `SignIn`.
- Network and permission failures of writes are left out. Only the failure of `updateDoc` on a missing document is modelled. `addDoc` and `deleteDoc` always succeed, so purchase never fails half-way.
- Concurrency is left out. The unawaited `forEach(async ...)` deletes (lines 141 and 189) run as a sequential loop. Snapshot delivery is an explicit step, and write acknowledgements do not interleave with other events.
- Store documents get keys from an increasing counter, so query results come in creation order. Firestore's automatic keys are random strings, so its key order is effectively arbitrary.
- `Context.UserContext.CartSnapshot`: the grand total is the exact sum of price times quantity over reals. The `Math.round(... * 100) / 100` over floating-point numbers (line 174) is not modelled.
- `Context.UserContext.OrderSnapshot`: orders are newest first by creation order. The `Timestamp` date (line 184) and `orderBy("date", "desc")` depend on the clock and are not modelled.
- `Context.UserContext.HandleAddToCart`, `Context.UserContext.IncreaseQuantity` and `Context.UserContext.DecreaseQuantity`: each update in the code (lines 114-117, 150-153 and 162-165) spreads the whole mirror line, including its `id`, into the document data. The model writes the line's data without the key, which the next snapshot reads back the same way.
- `Context.UserContext.OrderSnapshot`: the order mirror in the code adds each order document's key (line 57). `Cart.Order` has no key, so two equal orders of a user are not told apart.
- `Title.Shown`: the title is a sequence of Unicode characters. JavaScript's `length` and `substring` count UTF-16 code units, so a title with characters outside the Basic Multilingual Plane (emoji, for example) is cut at a different place, and a surrogate pair may be split in half. The model does not capture that.
- Toast notifications, `console.log`, and the JSON encoding of local storage are left out. The persisted user is kept as its id string.
- React state, hooks, context plumbing and rendering are left out, and so are the navigate-or-add branch of the product card, `src/App.js` (routing) and `src/components/filter/Filter.js` (filter inputs).

## Findings

| source | as written | input that shows it | evidently intended | confidence | as-written member | corrected member |
|---|---|---|---|---|---|---|
| src/context/userContext.js:35-62 | The effect calls `onSnapshot` for carts and orders on every change of user and never returns the unsubscribe functions. Listeners for earlier users stay open. | Sign in as a, log out, sign in as b. Then a's cart documents change, for example from another device: a's listener sets b's mirror to a's lines. | The effect closes its listeners when the user changes, so only the current user's snapshots reach the mirror. | medium, not executed | `Listeners.LeakedListenerShowsOtherCart` | `Listeners.SubscribedShowsOwnCart` |

`Context.UserContext` uses the corrected `Listeners.Subscribe`. Its invariant keeps exactly the current user's listener open.
