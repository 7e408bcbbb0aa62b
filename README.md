# Product store of the `/api/productos` REST service, modelled in Dafny

The service keeps its products in memory: a module-level array `productos`,
seeded with one record (`codProducto` 1, "Producto de prueba", 29.99, stock 10),
and a counter `nextId` that starts at 2. Five handlers act on them: list all,
get by id, create (validate, take `nextId++`, coerce price and stock, push),
partial update (`findIndex`, then assign each field the body names) and delete
(`findIndex`, then `splice`).

The model is split into four parts:

- `Js` (js.dfy) and `Wrappers` (wrappers.dfy): the JSON values a request body
  can carry, JavaScript numbers, and truthiness (the `!nomPro` test).
- `Products` (products.dfy): the data model (`Product`, `Body`, `State`,
  `Response`) and, for each handler, a pure function giving the new state and
  the response. `IndexOf` is `findIndex`, `Merge` is the field assignments of
  the update handler, `RemoveAt` is `splice(i, 1)`. `Valid` is the store
  invariant: ids are unique, positive and below `nextId`.
- `StoreProperties` (properties.dfy): lemmas about those functions. They cover
  each handler's outcome, the invariant each one keeps, and properties of
  request sequences (`Run`). Ids are never reused, a deleted product stays
  gone, and creation keeps insertion order.
- `ProductStore.Store` (store.dfy): the store as a class whose fields the
  handlers change in place. `FindIndex` is a linear search with loop
  invariants. Each handler method is proved to produce exactly the state and
  response of its specification function and to keep `Valid`.

`parseFloat` and `parseInt` are not modelled. They are parameters: a
`Coercions` record of two total functions from a JSON value to an optional
number. `None` stands for a conversion that throws. Converting an object whose
`toString` is not callable raises a TypeError, and a JSON body can carry such
an object. Arrays and objects keep their contents in `Js.Value`, so one
`Coercions` value can store `[5]` as 5, turn `{}` into NaN and throw on
`{"toString": 1}`. This keeps the handlers' 500 branches. It also keeps the order in
which the code does things when a conversion throws:

- create has already run `nextId++`, so that id is used up, and nothing is
  pushed;
- update has already written the fields it assigned before the failing one.

Three behaviours of the code that a reader might not expect, all kept by the
model:

- Update is not all-or-nothing. When a conversion throws, the handler answers
  500, but the fields it assigned before the failing one stay assigned
  (`Products.Merge`).
- Create does not check that price and stock convert to numbers. It only
  checks that the name is truthy and that price and stock are present, so a
  price that `parseFloat` turns into NaN is stored as NaN.
- The first product a client creates gets id 2, not 1, because the array is
  seeded with one record and `nextId` starts at 2
  (`StoreProperties.Walkthrough`).

## Model

| member | source | states |
|---|---|---|
| `Js.Truthy` | index-simple.js:67 | The `!nomPro` test: a JSON value is falsy exactly when it is `null`, `false`, `0`, NaN or the empty string; every array and object is truthy. |
| `Products.MissingFields` | index-simple.js:67 | Create's validation refuses a body exactly when the name is absent or falsy, or price or stock is absent. |
| `Products.Initial` | index-simple.js:17-26 | The start state holds only the seed record, `nextId` is 2, and the store invariant holds. |
| `Products.IndexOf` | index-simple.js:92 | The `findIndex` result is -1 exactly when no product has the id; otherwise it is the position of the first product with that id. |
| `Products.RemoveAt` | index-simple.js:120 | `splice(i, 1)` leaves one record fewer. Records before `i` keep their positions and the ones after move down by one, in order. |
| `Products.ListProducts` | index-simple.js:46-48 | Listing answers with the stored sequence itself, in insertion order. |
| `Products.GetProduct` | index-simple.js:51-60 | Get answers 404 exactly when no product has the id. Otherwise it answers with a stored product with that id, and under unique ids it is the only one. |
| `Products.Merge` | index-simple.js:98-102 | The update keeps the id. Each field the body names is replaced by its value or coerced value and each absent field is kept. If a coercion throws, the fields assigned before it stay assigned and the later ones are untouched. |
| `Products.CreateProduct` | index-simple.js:63-86 | Create answers 201, 400 or 500. `nextId` is unchanged on 400 and one higher otherwise. The stored records are never changed: the old sequence is a prefix of the new one, which has at most one record more. |
| `Products.UpdateProduct` | index-simple.js:89-108 | Update answers 200, 404 or 500. `nextId` and the number of records stay the same, and no record's id changes. |
| `Products.DeleteProduct` | index-simple.js:111-125 | Delete answers with the removed product or 404, and leaves `nextId` as it was. On success the stored records are the old ones less exactly the answered product; on 404 they are unchanged. |
| `Products.Handle` | index-simple.js:46-125 | Dispatching a request to its handler never lowers `nextId`, and list and get leave the store unchanged. |
| `Products.Run` | index-simple.js:46-125 | Serving any sequence of requests in turn never lowers `nextId`. |
| `StoreProperties.CreateOutcome` | index-simple.js:63-86 | Create answers 400 exactly when the name is missing or falsy or price or stock is missing, and then changes nothing. Otherwise `nextId` grows by one. On 201 the product has the old `nextId`, the name as sent and the coerced price and stock, and it is appended. On a throwing coercion nothing is appended. |
| `StoreProperties.CreateKeepsValid` | index-simple.js:73-80 | Create keeps ids unique, positive and below `nextId`, and the new id exceeds every stored id. |
| `StoreProperties.UpdateOutcome` | index-simple.js:89-108 | Update answers 404 exactly when the id is unknown, and then changes nothing. Otherwise only the record with that id changes, to `Merge` of it. Its id, every other record, the order and `nextId` stay the same. A 200 answer carries the rewritten record. |
| `StoreProperties.UpdateKeepsValid` | index-simple.js:98-104 | Update keeps the store invariant. |
| `StoreProperties.EmptyUpdateIsNoOp` | index-simple.js:98-104 | An update with `{}` leaves the store unchanged and answers as a get of that id would: the stored record, or 404. |
| `StoreProperties.DeleteOutcome` | index-simple.js:111-125 | Delete answers 404 exactly when the id is unknown, and then changes nothing. Otherwise it answers with the product that had the id and removes exactly that record; the rest keep their order. No record with that id remains, and `nextId` is not decreased. |
| `StoreProperties.DeleteKeepsValid` | index-simple.js:113-121 | Delete keeps the store invariant. |
| `StoreProperties.DeleteThenGetNotFound` | index-simple.js:111-125 | After a delete, a get by the same id answers 404. |
| `StoreProperties.CreateTwiceKeepsOrder` | index-simple.js:73-80 | Two successful creates leave the two new products last, in creation order, with consecutive ids starting at the old `nextId`. |
| `StoreProperties.ReadsChangeNothing` | index-simple.js:46-60 | List and get leave the store unchanged and answer 200 or 404. |
| `StoreProperties.HandleKeepsValid` | index-simple.js:46-125 | Every handler keeps the invariant and never lowers `nextId`. No id below the old `nextId` appears unless it was already stored. |
| `StoreProperties.RunNeverReusesIds` | index-simple.js:74 | Ids are never reused. An id below `nextId` that is not stored stays absent after any sequence of requests, while the invariant holds and `nextId` only grows. |
| `StoreProperties.DeletedIdNeverReturns` | index-simple.js:111-125 | Once a product is deleted, no later sequence of requests brings its id back. |
| `StoreProperties.Walkthrough` | index-simple.js:63-125 | From the start state: creating a widget gives 201 with id 2, get returns it, `{stockProducto: 3}` changes only the stock, delete returns it, and a second get answers 404. |
| `StoreProperties.WalkthroughCreate` | index-simple.js:63-86 | From the start state, creating the widget answers 201 with id 2, appends it after the seed record and sets `nextId` to 3. |
| `StoreProperties.WalkthroughRest` | index-simple.js:51-125 | With the widget stored, get returns it, `{stockProducto: 3}` changes only its stock, delete returns it and leaves only the seed record, and a second get answers 404. |
| `ProductStore.Store.constructor` | index-simple.js:17-26 | A new store is in the start state and satisfies the invariant. |
| `ProductStore.Store.FindIndex` | index-simple.js:92 | The linear search returns exactly `IndexOf` of the stored products. |
| `ProductStore.Store.List` | index-simple.js:46-48 | Answers with the stored sequence, unchanged. |
| `ProductStore.Store.Get` | index-simple.js:51-60 | Answers exactly as `GetProduct` on the current state, without changing it. |
| `ProductStore.Store.Create` | index-simple.js:63-86 | The in-place create ends in exactly the state and answer of `CreateProduct` and keeps the invariant. |
| `ProductStore.Store.Update` | index-simple.js:89-108 | The in-place field assignments end in exactly the state and answer of `UpdateProduct` and keep the invariant. |
| `ProductStore.Store.Delete` | index-simple.js:111-125 | The in-place splice ends in exactly the state and answer of `DeleteProduct` and keeps the invariant. |

## Left out

- HTTP: Express routing, the CORS and JSON-body middleware, status codes and JSON bodies as bytes, `app.listen`, and the port and environment handling (index-simple.js:2-14, 137-145). `Response` and `Status` carry only the outcome and the product; message texts such as "Producto no encontrado" are not modelled.
- The banner and health routes (index-simple.js:29-41). They only report the clock and a count.
- The string-to-number behaviour of `parseFloat` and `parseInt`. They are the `Coercions` parameters, so no property depends on how a value is parsed. Numbers are exact reals, not IEEE doubles, and no rounding is modelled.
- The id counter: `nextId` is an unbounded integer. In the source it is a double, so once it reaches 2^53 `nextId++` leaves it there and every later create reuses id 2^53. `StoreProperties.CreateKeepsValid`, `StoreProperties.RunNeverReusesIds`, `StoreProperties.DeletedIdNeverReturns` and `StoreProperties.DeleteThenGetNotFound` hold for the unbounded counter only. The source reaches that point only after 2^53 - 2 creates.
- The path parameter is taken as an already-parsed integer. A path that `parseInt` turns into NaN matches no product in the source and gives 404; the model has no NaN id.
- The global error handler (index-simple.js:128-134). No modelled handler reaches it: the modelled handlers throw nothing outside their try blocks.
- Object identity. The source pushes and returns the same object, but every response is serialised at once, so no caller can see the sharing. Products are values here.
- index.js, db.js and test.js: the bootstrap that mounts a routes file, which is not part of this model, the Sequelize/SQLite persistent store with its asynchronous schema sync, and a smoke-test app. They are library calls and I/O with no store logic of their own.
