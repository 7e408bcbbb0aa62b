/**
 * What the handlers of the product store promise, proved about the pure
 * specification in `Products`: the outcome of each operation, the store
 * invariant each one keeps, and the properties of request sequences (ids are
 * never reused, a deleted product stays gone, creation keeps insertion order).
 */
module StoreProperties {
  import opened Wrappers
  import opened Js
  import opened Products

  /**
   * Create answers 400 exactly when validation fails, and then changes
   * nothing. Otherwise `nextId` advances by one, and on success the new
   * product carries the old `nextId`, the name as sent and the coerced price
   * and stock, and is appended after the existing records; when a coercion
   * throws, nothing is appended.
   */
  lemma CreateOutcome(s: State, body: Body, c: Coercions)
    ensures var (t, r) := CreateProduct(s, body, c);
      && (r.Created? || r.BadRequest? || r.InternalError?)
      && (r.BadRequest? <==> MissingFields(body))
      && (r.BadRequest? ==> t == s)
      && (!r.BadRequest? ==> t.nextId == s.nextId + 1)
      && (r.InternalError? ==> t.productos == s.productos)
      && (r.Created? <==> !MissingFields(body) && c.parseFloat(body.precioProducto.value).Some?
                                             && c.parseInt(body.stockProducto.value).Some?)
      && (r.Created? ==>
            && t.productos == s.productos + [r.product]
            && r.product.codProducto == s.nextId
            && r.product.nomPro == body.nomPro.value
            && c.parseFloat(body.precioProducto.value) == Some(r.product.precioProducto)
            && c.parseInt(body.stockProducto.value) == Some(r.product.stockProducto))
  {
  }

  /** Create keeps the store invariant, and the id it assigns exceeds every stored id. */
  lemma CreateKeepsValid(s: State, body: Body, c: Coercions)
    requires Valid(s)
    ensures var (t, r) := CreateProduct(s, body, c);
      && Valid(t)
      && (r.Created? ==> forall k :: 0 <= k < |s.productos| ==> s.productos[k].codProducto < r.product.codProducto)
  {
  }

  /**
   * Update answers 404 exactly when no product has the id, and then changes
   * nothing. Otherwise it rewrites only the product with that id, which keeps
   * its id and gets the fields the body names (`Merge`); every other record,
   * the order and `nextId` are unchanged, and a successful update answers
   * with the rewritten record.
   */
  lemma UpdateOutcome(s: State, id: int, body: Body, c: Coercions)
    requires Valid(s)
    ensures var (t, r) := UpdateProduct(s, id, body, c);
      && (r.Ok? || r.NotFound? || r.InternalError?)
      && (r.NotFound? <==> !HasId(s.productos, id))
      && (r.NotFound? ==> t == s)
      && t.nextId == s.nextId
      && |t.productos| == |s.productos|
      && (forall k :: 0 <= k < |s.productos| && s.productos[k].codProducto != id ==> t.productos[k] == s.productos[k])
      && (forall k :: 0 <= k < |s.productos| && s.productos[k].codProducto == id ==>
            && t.productos[k] == Merge(s.productos[k], body, c).0
            && t.productos[k].codProducto == id
            && (r.Ok? <==> !Merge(s.productos[k], body, c).1)
            && (r.Ok? ==> r.product == t.productos[k]))
  {
  }

  /** Update keeps the store invariant. */
  lemma UpdateKeepsValid(s: State, id: int, body: Body, c: Coercions)
    requires Valid(s)
    ensures Valid(UpdateProduct(s, id, body, c).0)
  {
  }

  /**
   * An update with the empty body `{}` changes nothing and answers exactly as
   * a get by the same id would: 200 with the stored record, or 404.
   */
  lemma EmptyUpdateIsNoOp(s: State, id: int, c: Coercions)
    ensures UpdateProduct(s, id, EmptyBody, c) == (s, GetProduct(s, id))
  {
    var i := IndexOf(s.productos, id);
    if i != -1 {
      var m := Merge(s.productos[i], EmptyBody, c);
      assert m.0 == s.productos[i];
      assert s.productos[i := m.0] == s.productos;
    }
  }

  /**
   * Delete answers 404 exactly when no product has the id, and then changes
   * nothing. Otherwise it answers with the product that had the id, removes
   * exactly that record (the others keep their relative order), leaves no
   * product with that id behind and leaves `nextId` as it was.
   */
  lemma DeleteOutcome(s: State, id: int)
    requires Valid(s)
    ensures var (t, r) := DeleteProduct(s, id);
      && (r.Deleted? || r.NotFound?)
      && (r.NotFound? <==> !HasId(s.productos, id))
      && (r.NotFound? ==> t == s)
      && t.nextId == s.nextId
      && (r.Deleted? ==>
            && r.product.codProducto == id
            && !HasId(t.productos, id)
            && exists i :: 0 <= i < |s.productos| && s.productos[i] == r.product &&
                           t.productos == s.productos[..i] + s.productos[i + 1..])
  {
  }

  /** Delete keeps the store invariant. */
  lemma DeleteKeepsValid(s: State, id: int)
    requires Valid(s)
    ensures Valid(DeleteProduct(s, id).0)
  {
  }

  /** After a delete, a get by the same id answers 404. */
  lemma DeleteThenGetNotFound(s: State, id: int)
    requires Valid(s)
    ensures GetProduct(DeleteProduct(s, id).0, id) == NotFound
  {
  }

  /** Two successful creates list the two new products last, in the order they were created, with consecutive ids. */
  lemma CreateTwiceKeepsOrder(s: State, a: Body, b: Body, c: Coercions)
    requires CreateProduct(s, a, c).1.Created?
    requires CreateProduct(CreateProduct(s, a, c).0, b, c).1.Created?
    ensures var (s1, ra) := CreateProduct(s, a, c);
            var (s2, rb) := CreateProduct(s1, b, c);
      && ListProducts(s2) == Listing(s.productos + [ra.product, rb.product])
      && ra.product.codProducto == s.nextId
      && rb.product.codProducto == s.nextId + 1
  {
  }

  /** Reads (list, get) change nothing. */
  lemma ReadsChangeNothing(s: State, req: Request, c: Coercions)
    requires req.ListAll? || req.GetById?
    ensures Handle(s, req, c).0 == s
    ensures Status(Handle(s, req, c).1) == 200 || Status(Handle(s, req, c).1) == 404
  {
  }

  /**
   * Serving one request keeps the store invariant, never lowers `nextId`, and
   * brings back no id below the old `nextId` that was not already stored:
   * every new id is a fresh one.
   */
  lemma HandleKeepsValid(s: State, req: Request, c: Coercions)
    requires Valid(s)
    ensures var t := Handle(s, req, c).0;
      && Valid(t)
      && s.nextId <= t.nextId
      && forall k :: 0 <= k < |t.productos| && t.productos[k].codProducto < s.nextId ==>
           HasId(s.productos, t.productos[k].codProducto)
  {
    match req
    case ListAll =>
    case GetById(_) =>
    case Create(body) =>
      CreateOutcome(s, body, c);
      CreateKeepsValid(s, body, c);
    case Update(id, body) =>
      UpdateOutcome(s, id, body, c);
    case Delete(id) =>
      DeleteKeepsValid(s, id);
  }

  /**
   * Ids are never reused: an id below `nextId` that is not stored (it was
   * deleted, or never survived a failed create) is absent after any
   * sequence of requests, and the invariant and `nextId`'s growth hold
   * throughout.
   */
  lemma {:induction false} RunNeverReusesIds(s: State, reqs: seq<Request>, c: Coercions, id: int)
    requires Valid(s)
    requires id < s.nextId && !HasId(s.productos, id)
    ensures Valid(Run(s, reqs, c))
    ensures s.nextId <= Run(s, reqs, c).nextId
    ensures !HasId(Run(s, reqs, c).productos, id)
    decreases |reqs|
  {
    if reqs != [] {
      var t := Handle(s, reqs[0], c).0;
      HandleKeepsValid(s, reqs[0], c);
      RunNeverReusesIds(t, reqs[1..], c, id);
    }
  }

  /** Once a product is deleted, no later sequence of requests brings its id back. */
  lemma DeletedIdNeverReturns(s: State, id: int, later: seq<Request>, c: Coercions)
    requires Valid(s)
    requires HasId(s.productos, id)
    ensures !HasId(Run(DeleteProduct(s, id).0, later, c).productos, id)
  {
    DeleteOutcome(s, id);
    DeleteKeepsValid(s, id);
    var k :| 0 <= k < |s.productos| && s.productos[k].codProducto == id;
    RunNeverReusesIds(DeleteProduct(s, id).0, later, c, id);
  }

  /** The product the walk-through creates, and the body that creates it. */
  const Widget := Product(2, Str("Widget"), Finite(9.99), Finite(5.0))
  const WidgetBody := Body(Some(Str("Widget")), Some(Num(Finite(9.99))), Some(Num(Finite(5.0))))

  /** First step of the walk-through: from the start state, the widget is created with id 2. */
  lemma WalkthroughCreate(c: Coercions)
    requires c.parseFloat(Num(Finite(9.99))) == Some(Finite(9.99))
    requires c.parseInt(Num(Finite(5.0))) == Some(Finite(5.0))
    ensures CreateProduct(Initial(), WidgetBody, c) == (State([Seed, Widget], 3), Created(Widget))
  {
    assert Truthy(Str("Widget"));
    assert !MissingFields(WidgetBody);
    assert Initial().productos + [Widget] == [Seed, Widget];
  }

  /** The remaining steps: read the widget back, change only its stock, delete it, read it again. */
  lemma WalkthroughRest(c: Coercions)
    requires c.parseInt(Num(Finite(3.0))) == Some(Finite(3.0))
    ensures var s1 := State([Seed, Widget], 3);
            var (s2, updated) := UpdateProduct(s1, 2, Body(None, None, Some(Num(Finite(3.0)))), c);
            var (s3, deleted) := DeleteProduct(s2, 2);
      && GetProduct(s1, 2) == Ok(Widget)
      && updated == Ok(Widget.(stockProducto := Finite(3.0)))
      && deleted == Deleted(Widget.(stockProducto := Finite(3.0)))
      && s3 == State([Seed], 3)
      && GetProduct(s3, 2) == NotFound
  {
    var s1 := State([Seed, Widget], 3);
    assert IndexOf(s1.productos, 2) == 1;
    var s2 := UpdateProduct(s1, 2, Body(None, None, Some(Num(Finite(3.0)))), c).0;
    assert s2.productos == [Seed, Widget.(stockProducto := Finite(3.0))];
    assert IndexOf(s2.productos, 2) == 1;
    var s3 := DeleteProduct(s2, 2).0;
    assert s3.productos == [Seed];
    assert !HasId(s3.productos, 2);
  }

  /**
   * The walk-through of the service from its start: create a widget (201,
   * id 2), read it back, change only its stock, delete it, and read it again
   * (404).
   */
  lemma Walkthrough(c: Coercions)
    requires c.parseFloat(Num(Finite(9.99))) == Some(Finite(9.99))
    requires c.parseInt(Num(Finite(5.0))) == Some(Finite(5.0))
    requires c.parseInt(Num(Finite(3.0))) == Some(Finite(3.0))
    ensures var (s1, created) := CreateProduct(Initial(), WidgetBody, c);
            var (s2, updated) := UpdateProduct(s1, 2, Body(None, None, Some(Num(Finite(3.0)))), c);
            var (s3, deleted) := DeleteProduct(s2, 2);
      && created == Created(Widget) && Status(created) == 201
      && s1.productos == [Seed, Widget] && s1.nextId == 3
      && GetProduct(s1, 2) == Ok(Widget)
      && updated == Ok(Widget.(stockProducto := Finite(3.0)))
      && deleted == Deleted(Widget.(stockProducto := Finite(3.0)))
      && s3.productos == [Seed] && s3.nextId == 3
      && GetProduct(s3, 2) == NotFound && Status(GetProduct(s3, 2)) == 404
  {
    WalkthroughCreate(c);
    var s1 := CreateProduct(Initial(), WidgetBody, c).0;
    assert s1 == State([Seed, Widget], 3);
    WalkthroughRest(c);
  }
}
