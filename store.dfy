/**
 * The product store as the service keeps it: a mutable array of products and
 * an id counter, changed in place by the handlers of `/api/productos`. Each
 * method does what its handler does, step by step, and is proved to agree
 * with the handler's specification in `Products` and to keep the store
 * invariant.
 */
module ProductStore {
  import opened Wrappers
  import opened Js
  import opened Products
  import StoreProperties

  class Store {
    var productos: seq<Product>
    var nextId: int

    /** The store's contents as a value. */
    function Snapshot(): State
      reads this
    {
      Products.State(productos, nextId)
    }

    ghost predicate Valid()
      reads this
    {
      Products.Valid(Snapshot())
    }

    /** The array seeded with one record, and the counter at 2. */
    constructor ()
      ensures Valid()
      ensures Snapshot() == Initial()
    {
      productos := [Seed];
      nextId := 2;
    }

    /** `productos.findIndex(p => p.codProducto === id)`, as a linear search. */
    method FindIndex(id: int) returns (i: int)
      ensures i == IndexOf(productos, id)
    {
      i := 0;
      while i < |productos|
        invariant 0 <= i <= |productos|
        invariant forall k :: 0 <= k < i ==> productos[k].codProducto != id
      {
        if productos[i].codProducto == id {
          return;
        }
        i := i + 1;
      }
      i := -1;
    }

    /** GET /api/productos: the stored products, in insertion order. */
    method List() returns (r: Response)
      ensures r == ListProducts(Snapshot())
      ensures r.productos == productos
    {
      r := Listing(productos);
    }

    /** GET /api/productos/:codProducto. */
    method Get(id: int) returns (r: Response)
      ensures r == GetProduct(Snapshot(), id)
    {
      var i := FindIndex(id);
      if i == -1 {
        r := NotFound;
      } else {
        r := Ok(productos[i]);
      }
    }

    /** POST /api/productos: validate, take the next id, coerce, append. */
    method Create(body: Body, c: Coercions) returns (r: Response)
      requires Valid()
      modifies this
      ensures Valid()
      ensures (Snapshot(), r) == CreateProduct(old(Snapshot()), body, c)
    {
      StoreProperties.CreateKeepsValid(Snapshot(), body, c);
      if MissingFields(body) {
        return BadRequest;
      }
      var id := nextId;
      nextId := nextId + 1;
      var precio := c.parseFloat(body.precioProducto.value);
      if precio.None? {
        return InternalError;
      }
      var stock := c.parseInt(body.stockProducto.value);
      if stock.None? {
        return InternalError;
      }
      var p := Product(id, body.nomPro.value, precio.value, stock.value);
      productos := productos + [p];
      r := Created(p);
    }

    /**
     * PUT /api/productos/:codProducto: assign, in the stored record, each field
     * the body names; a coercion that throws answers 500 and leaves the
     * fields already assigned as they are.
     */
    method Update(id: int, body: Body, c: Coercions) returns (r: Response)
      requires Valid()
      modifies this
      ensures Valid()
      ensures (Snapshot(), r) == UpdateProduct(old(Snapshot()), id, body, c)
    {
      StoreProperties.UpdateKeepsValid(Snapshot(), id, body, c);
      var i := FindIndex(id);
      if i == -1 {
        return NotFound;
      }
      if body.nomPro.Some? {
        productos := productos[i := productos[i].(nomPro := body.nomPro.value)];
      }
      if body.precioProducto.Some? {
        var precio := c.parseFloat(body.precioProducto.value);
        if precio.None? {
          assert productos == old(productos)[i := productos[i]];
          return InternalError;
        }
        productos := productos[i := productos[i].(precioProducto := precio.value)];
      }
      if body.stockProducto.Some? {
        var stock := c.parseInt(body.stockProducto.value);
        if stock.None? {
          assert productos == old(productos)[i := productos[i]];
          return InternalError;
        }
        productos := productos[i := productos[i].(stockProducto := stock.value)];
      }
      assert productos == old(productos)[i := productos[i]];
      r := Ok(productos[i]);
    }

    /** DELETE /api/productos/:codProducto: splice the record out and answer with it. */
    method Delete(id: int) returns (r: Response)
      requires Valid()
      modifies this
      ensures Valid()
      ensures (Snapshot(), r) == DeleteProduct(old(Snapshot()), id)
    {
      StoreProperties.DeleteKeepsValid(Snapshot(), id);
      var i := FindIndex(id);
      if i == -1 {
        return NotFound;
      }
      var eliminado := productos[i];
      productos := productos[..i] + productos[i + 1..];
      r := Deleted(eliminado);
    }
  }
}
