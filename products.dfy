/**
 * The in-memory product store of the REST service, as pure values: the
 * record kept per product, the request body, the store's state (the
 * `productos` array and the `nextId` counter) and, for each handler of
 * `/api/productos`, the new state and the response it produces.
 *
 * The class `ProductStore.Store` performs the same operations in place and is
 * proved to agree with these functions; the lemmas in `StoreProperties` are
 * about them.
 */
module Products {
  import opened Wrappers
  import opened Js

  /**
   * One stored product. `nomPro` is kept exactly as the client sent it (it
   * is never coerced); price and stock are the results of `parseFloat` and
   * `parseInt`.
   */
  datatype Product = Product(codProducto: int, nomPro: Value, precioProducto: Number, stockProducto: Number)

  /** A request body: each field is `None` when the client left it out (JavaScript `undefined`). */
  datatype Body = Body(nomPro: Option<Value>, precioProducto: Option<Value>, stockProducto: Option<Value>)

  /** The body `{}`. */
  const EmptyBody := Body(None, None, None)

  /**
   * The two string-to-number conversions the handlers call. Each is a total
   * function of the JSON value; `None` stands for a conversion that threw
   * (converting an object whose `toString` is not callable raises a
   * TypeError before any number is produced).
   */
  datatype Coercions = Coercions(parseFloat: Value -> Option<Number>, parseInt: Value -> Option<Number>)

  /** What a handler answers; `Status` gives the HTTP status code. */
  datatype Response =
    | Listing(productos: seq<Product>)
    | Ok(product: Product)
    | Created(product: Product)
    | Deleted(product: Product)
    | BadRequest
    | NotFound
    | InternalError

  function Status(r: Response): int
  {
    match r
    case Listing(_) => 200
    case Ok(_) => 200
    case Created(_) => 201
    case Deleted(_) => 200
    case BadRequest => 400
    case NotFound => 404
    case InternalError => 500
  }

  /** The module-level state: the `productos` array and the `nextId` counter. */
  datatype State = State(productos: seq<Product>, nextId: int)

  /** The requests the route layer maps onto the store. */
  datatype Request =
    | ListAll
    | GetById(id: int)
    | Create(body: Body)
    | Update(id: int, body: Body)
    | Delete(id: int)

  /** No two stored products share a `codProducto`. */
  predicate UniqueIds(ps: seq<Product>)
  {
    forall i, j :: 0 <= i < j < |ps| ==> ps[i].codProducto != ps[j].codProducto
  }

  /**
   * The store invariant: ids are unique, positive and below `nextId`, which is
   * itself positive, so the next id handed out is positive and not in use.
   */
  predicate Valid(s: State)
  {
    1 <= s.nextId &&
    UniqueIds(s.productos) &&
    forall i :: 0 <= i < |s.productos| ==> 1 <= s.productos[i].codProducto < s.nextId
  }

  /** Whether some stored product has the given id. */
  predicate HasId(ps: seq<Product>, id: int)
  {
    exists i :: 0 <= i < |ps| && ps[i].codProducto == id
  }

  /** The record the array is seeded with. */
  const Seed := Product(1, Str("Producto de prueba"), Finite(29.99), Finite(10.0))

  /** The state when the service starts: the seed record and `nextId` 2. */
  function Initial(): (s: State)
    ensures Valid(s)
    ensures s.productos == [Seed] && s.nextId == 2
  {
    State([Seed], 2)
  }

  /**
   * `findIndex(p => p.codProducto === id)`: the position of the first product
   * with that id, or -1 when there is none.
   */
  function IndexOf(ps: seq<Product>, id: int): (i: int)
    ensures -1 <= i < |ps|
    ensures i == -1 <==> !HasId(ps, id)
    ensures 0 <= i ==> ps[i].codProducto == id
    ensures 0 <= i ==> forall k :: 0 <= k < i ==> ps[k].codProducto != id
  {
    if |ps| == 0 then -1
    else if ps[0].codProducto == id then 0
    else
      var j := IndexOf(ps[1..], id);
      assert HasId(ps[1..], id) ==> HasId(ps, id) by {
        if HasId(ps[1..], id) {
          var k :| 0 <= k < |ps[1..]| && ps[1..][k].codProducto == id;
          assert ps[k + 1].codProducto == id;
        }
      }
      assert HasId(ps, id) ==> HasId(ps[1..], id) by {
        if HasId(ps, id) {
          var k :| 0 <= k < |ps| && ps[k].codProducto == id;
          assert k != 0;
          assert ps[1..][k - 1].codProducto == id;
        }
      }
      if j == -1 then -1 else j + 1
  }

  /** `splice(i, 1)`: the sequence without its element at position `i`, the others in their order. */
  function RemoveAt(ps: seq<Product>, i: int): (r: seq<Product>)
    requires 0 <= i < |ps|
    ensures |r| == |ps| - 1
    ensures forall k :: 0 <= k < i ==> r[k] == ps[k]
    ensures forall k :: i <= k < |r| ==> r[k] == ps[k + 1]
  {
    ps[..i] + ps[i + 1..]
  }

  /** The validation of the create handler: the name is missing or falsy, or price or stock is missing. */
  predicate MissingFields(body: Body)
    ensures MissingFields(body) <==>
      body.nomPro.None? || body.nomPro.value in Falsy || body.precioProducto.None? || body.stockProducto.None?
  {
    body.nomPro.None? || !Truthy(body.nomPro.value) || body.precioProducto.None? || body.stockProducto.None?
  }

  /** GET /api/productos. */
  function ListProducts(s: State): (r: Response)
    ensures r.Listing? && r.productos == s.productos
  {
    Listing(s.productos)
  }

  /** GET /api/productos/:codProducto. */
  function GetProduct(s: State, id: int): (r: Response)
    ensures r.Ok? || r.NotFound?
    ensures r.NotFound? <==> !HasId(s.productos, id)
    ensures r.Ok? ==> r.product in s.productos && r.product.codProducto == id
    ensures r.Ok? && UniqueIds(s.productos) ==>
      forall k :: 0 <= k < |s.productos| && s.productos[k].codProducto == id ==> s.productos[k] == r.product
  {
    var i := IndexOf(s.productos, id);
    if i == -1 then NotFound else Ok(s.productos[i])
  }

  /**
   * POST /api/productos. The counter is incremented before price and stock
   * are coerced, so a coercion that throws answers 500 with `nextId` already
   * advanced and nothing appended.
   */
  function CreateProduct(s: State, body: Body, c: Coercions): (r: (State, Response))
    ensures r.1.Created? || r.1.BadRequest? || r.1.InternalError?
    ensures r.0.nextId == if r.1.BadRequest? then s.nextId else s.nextId + 1
    ensures s.productos <= r.0.productos && |r.0.productos| <= |s.productos| + 1
  {
    if MissingFields(body) then (s, BadRequest)
    else
      var id := s.nextId;
      var advanced := s.(nextId := id + 1);
      var precio := c.parseFloat(body.precioProducto.value);
      if precio.None? then (advanced, InternalError)
      else
        var stock := c.parseInt(body.stockProducto.value);
        if stock.None? then (advanced, InternalError)
        else
          var p := Product(id, body.nomPro.value, precio.value, stock.value);
          (advanced.(productos := s.productos + [p]), Created(p))
  }

  /**
   * The field assignments of the update handler, in their order: the name,
   * then the coerced price, then the coerced stock, each only when present in
   * the body. The flag is true when a coercion threw; the fields assigned
   * before it stay assigned.
   */
  function Merge(p: Product, body: Body, c: Coercions): (r: (Product, bool))
    ensures r.0.codProducto == p.codProducto
    ensures r.0.nomPro == if body.nomPro.Some? then body.nomPro.value else p.nomPro
    ensures r.1 <==> (body.precioProducto.Some? && c.parseFloat(body.precioProducto.value).None?) ||
                     (body.stockProducto.Some? && c.parseInt(body.stockProducto.value).None?)
    ensures r.0.precioProducto ==
      if body.precioProducto.Some? && c.parseFloat(body.precioProducto.value).Some?
      then c.parseFloat(body.precioProducto.value).value else p.precioProducto
    ensures r.0.stockProducto ==
      if body.stockProducto.Some? && c.parseInt(body.stockProducto.value).Some? && !r.1
      then c.parseInt(body.stockProducto.value).value else p.stockProducto
  {
    var named := if body.nomPro.Some? then p.(nomPro := body.nomPro.value) else p;
    if body.precioProducto.Some? && c.parseFloat(body.precioProducto.value).None? then (named, true)
    else
      var priced := if body.precioProducto.Some? then named.(precioProducto := c.parseFloat(body.precioProducto.value).value) else named;
      if body.stockProducto.Some? && c.parseInt(body.stockProducto.value).None? then (priced, true)
      else
        var stocked := if body.stockProducto.Some? then priced.(stockProducto := c.parseInt(body.stockProducto.value).value) else priced;
        (stocked, false)
  }

  /** PUT /api/productos/:codProducto: merge the body into the first product with that id. */
  function UpdateProduct(s: State, id: int, body: Body, c: Coercions): (r: (State, Response))
    ensures r.1.Ok? || r.1.NotFound? || r.1.InternalError?
    ensures r.0.nextId == s.nextId && |r.0.productos| == |s.productos|
    ensures forall k :: 0 <= k < |s.productos| ==> r.0.productos[k].codProducto == s.productos[k].codProducto
  {
    var i := IndexOf(s.productos, id);
    if i == -1 then (s, NotFound)
    else
      var m := Merge(s.productos[i], body, c);
      (s.(productos := s.productos[i := m.0]), if m.1 then InternalError else Ok(m.0))
  }

  /** DELETE /api/productos/:codProducto: splice out the first product with that id and answer with it. */
  function DeleteProduct(s: State, id: int): (r: (State, Response))
    ensures r.1.Deleted? || r.1.NotFound?
    ensures r.0.nextId == s.nextId
    ensures r.1.Deleted? ==> multiset(r.0.productos) + multiset{r.1.product} == multiset(s.productos)
    ensures r.1.NotFound? ==> r.0.productos == s.productos
  {
    var i := IndexOf(s.productos, id);
    if i == -1 then (s, NotFound)
    else
      assert s.productos == s.productos[..i] + [s.productos[i]] + s.productos[i + 1..];
      (s.(productos := RemoveAt(s.productos, i)), Deleted(s.productos[i]))
  }

  /** The store operation behind each request. */
  function Handle(s: State, req: Request, c: Coercions): (r: (State, Response))
    ensures s.nextId <= r.0.nextId
    ensures req.ListAll? || req.GetById? ==> r.0 == s
  {
    match req
    case ListAll => (s, ListProducts(s))
    case GetById(id) => (s, GetProduct(s, id))
    case Create(body) => CreateProduct(s, body, c)
    case Update(id, body) => UpdateProduct(s, id, body, c)
    case Delete(id) => DeleteProduct(s, id)
  }

  /** The state after serving the requests one after another. */
  function Run(s: State, reqs: seq<Request>, c: Coercions): (r: State)
    ensures s.nextId <= r.nextId
    decreases |reqs|
  {
    if reqs == [] then s else Run(Handle(s, reqs[0], c).0, reqs[1..], c)
  }
}
