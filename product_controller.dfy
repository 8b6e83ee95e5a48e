/** The catalog handlers (backend/controllers/productController.js).

    The store is an in-memory catalog: a map from id to product document,
    plus a flag for the connection's `readyState`. Each handler first
    checks that flag, then reads or writes the catalog and returns a status
    and a body. A store call that throws for a reason the model does not
    look into (a malformed id that fails to cast, a lost connection, a
    timed-out buffered command) is the `storeFails` argument. */
module ProductController {
  import opened Common
  import opened ProductSchema

  datatype Body =
    | NotConnected(message: string, setupRequired: bool)
    | ProductList(success: bool, count: int, data: map<Id, Product>)
    | ProductItem(success: bool, id: Id, record: Product)
    | Deleted(success: bool, message: string)
    | Message(message: string)

  datatype Response = Response(status: int, body: Body)

  /** The gate every handler starts with. */
  const Unavailable := Response(503, NotConnected("Database not connected", true))
  const NotFound := Response(404, Message("Product not found"))
  /** The catch block of the read and delete handlers. */
  const ServerError := Response(500, Message("Server error"))
  /** The catch block of the create and update handlers. */
  const InvalidData := Response(400, Message("Invalid product data"))

  /** The records `find({ isActive: true })` returns. */
  function ActiveProducts(m: map<Id, Product>): (r: map<Id, Product>)
    ensures forall id :: id in r <==> id in m && m[id].isActive
    ensures forall id :: id in r ==> r[id] == m[id]
  {
    map id | id in m && m[id].isActive :: m[id]
  }

  /** The catalog after `findByIdAndUpdate(id, { isActive: false })` on a
      record that exists: only that record's flag changes. */
  function SoftDeleted(m: map<Id, Product>, id: Id): (r: map<Id, Product>)
    requires id in m
    ensures r.Keys == m.Keys
    ensures r[id] == m[id].(isActive := false)
    ensures forall other :: other in m && other != id ==> r[other] == m[other]
  {
    m[id := m[id].(isActive := false)]
  }

  /** After a soft delete the record is still stored, with `isActive`
      false, but the list of active products no longer holds it; the other
      records are listed as before. */
  lemma DeleteHidesFromList(m: map<Id, Product>, id: Id)
    requires id in m
    ensures id in SoftDeleted(m, id) && !SoftDeleted(m, id)[id].isActive
    ensures id !in ActiveProducts(SoftDeleted(m, id))
    ensures ActiveProducts(SoftDeleted(m, id)) == ActiveProducts(m) - {id}
  {
  }

  /** Deleting twice leaves the catalog as deleting once. */
  lemma SoftDeleteIdempotent(m: map<Id, Product>, id: Id)
    requires id in m
    ensures SoftDeleted(SoftDeleted(m, id), id) == SoftDeleted(m, id)
  {
  }

  /** Soft deletion keeps every record valid. */
  lemma SoftDeleteKeepsValid(m: map<Id, Product>, id: Id)
    requires id in m
    requires forall k :: k in m ==> ValidProduct(m[k])
    ensures forall k :: k in SoftDeleted(m, id) ==> ValidProduct(SoftDeleted(m, id)[k])
  {
  }

  class Catalog {
    /** `Product.db.readyState` is non-zero (connected, connecting or
        disconnecting); `!readyState` only holds when disconnected. */
    var ready: bool
    var products: map<Id, Product>

    /** Every stored record passed the schema's validation, and its name
        is stored trimmed. */
    ghost predicate Valid()
      reads this
    {
      forall id :: id in products ==>
        ValidProduct(products[id]) && (products[id].name.Some? ==> Trimmed(products[id].name.value))
    }

    constructor (ready: bool)
      ensures Valid() && this.ready == ready && products == map[]
    {
      this.ready := ready;
      products := map[];
    }

    /** GET /api/products */
    method GetProducts(storeFails: bool) returns (r: Response)
      ensures !ready ==> r == Unavailable
      ensures ready && storeFails ==> r == ServerError
      ensures ready && !storeFails ==>
        && r.status == 200 && r.body.ProductList? && r.body.success
        && r.body.data == ActiveProducts(products)
        && r.body.count == |r.body.data|
    {
      if !ready {
        return Unavailable;
      }
      if storeFails {
        return ServerError;
      }
      var data := ActiveProducts(products);
      r := Response(200, ProductList(true, |data|, data));
    }

    /** GET /api/products/:id; a soft-deleted record is still returned. */
    method GetProductById(id: Id, storeFails: bool) returns (r: Response)
      ensures !ready ==> r == Unavailable
      ensures ready && storeFails ==> r == ServerError
      ensures ready && !storeFails && id !in products ==> r == NotFound
      ensures ready && !storeFails && id in products ==>
        r == Response(200, ProductItem(true, id, products[id]))
    {
      if !ready {
        return Unavailable;
      }
      if storeFails {
        return ServerError;
      }
      if id !in products {
        return NotFound;
      }
      r := Response(200, ProductItem(true, id, products[id]));
    }

    /** POST /api/products: `new Product(body).save()`. The store assigns
        `newId`; saving under an id already taken fails as a duplicate
        key. */
    method CreateProduct(body: ProductFields, newId: Id, storeFails: bool) returns (r: Response)
      requires Valid()
      modifies this
      ensures Valid() && ready == old(ready)
      ensures !ready ==> r == Unavailable && products == old(products)
      ensures ready ==>
        var doc := NewProduct(body);
        if ValidProduct(doc) && newId !in old(products) && !storeFails then
          r == Response(201, ProductItem(true, newId, doc)) && products == old(products)[newId := doc]
        else
          r == InvalidData && products == old(products)
    {
      if !ready {
        return Unavailable;
      }
      var doc := NewProduct(body);
      if !ValidProduct(doc) || newId in products || storeFails {
        return InvalidData;
      }
      MergeKeepsAbsent(Blank, body);
      products := products[newId := doc];
      r := Response(201, ProductItem(true, newId, doc));
    }

    /** PUT /api/products/:id: `findByIdAndUpdate(id, body, { new: true,
        runValidators: true })`. The update validators check the paths
        the body sets before the record is looked up, so an invalid body
        gives 400 even for an unknown id. */
    method UpdateProduct(id: Id, body: ProductFields, storeFails: bool) returns (r: Response)
      requires Valid()
      modifies this
      ensures Valid() && ready == old(ready)
      ensures !ready ==> r == Unavailable && products == old(products)
      ensures ready && (storeFails || !FieldsValid(body)) ==> r == InvalidData && products == old(products)
      ensures ready && !storeFails && FieldsValid(body) && id !in old(products) ==>
        r == NotFound && products == old(products)
      ensures ready && !storeFails && FieldsValid(body) && id in old(products) ==>
        var merged := Merge(old(products)[id], body);
        r == Response(200, ProductItem(true, id, merged)) && products == old(products)[id := merged]
    {
      if !ready {
        return Unavailable;
      }
      if storeFails || !FieldsValid(body) {
        return InvalidData;
      }
      if id !in products {
        return NotFound;
      }
      var merged := Merge(products[id], body);
      MergeValid(products[id], body);
      MergeKeepsAbsent(products[id], body);
      products := products[id := merged];
      r := Response(200, ProductItem(true, id, merged));
    }

    /** DELETE /api/products/:id: a soft delete, without validators. */
    method DeleteProduct(id: Id, storeFails: bool) returns (r: Response)
      requires Valid()
      modifies this
      ensures Valid() && ready == old(ready)
      ensures !ready ==> r == Unavailable && products == old(products)
      ensures ready && storeFails ==> r == ServerError && products == old(products)
      ensures ready && !storeFails && id !in old(products) ==> r == NotFound && products == old(products)
      ensures ready && !storeFails && id in old(products) ==>
        r == Response(200, Deleted(true, "Product deleted successfully"))
        && products == SoftDeleted(old(products), id)
    {
      if !ready {
        return Unavailable;
      }
      if storeFails {
        return ServerError;
      }
      if id !in products {
        return NotFound;
      }
      SoftDeleteKeepsValid(products, id);
      products := SoftDeleted(products, id);
      r := Response(200, Deleted(true, "Product deleted successfully"));
    }
  }

  /** A caller's view of create then read: the record read back is the
      one stored, and an update of the base price alone changes only that. */
  method CreateReadUpdate(body: ProductFields, newId: Id, price: int)
    requires ValidProduct(NewProduct(body))
    requires price >= 0
  {
    var c := new Catalog(true);
    var r := c.CreateProduct(body, newId, false);
    assert r.status == 201;
    r := c.GetProductById(newId, false);
    assert r == Response(200, ProductItem(true, newId, NewProduct(body)));
    var change := ProductFields(None, None, Some(price), None, None, None);
    r := c.UpdateProduct(newId, change, false);
    assert r.status == 200;
    assert c.products[newId] == NewProduct(body).(basePrice := Some(price));
  }

  /** A caller's view of delete: the record leaves the list but stays
      readable, and a second delete answers 200 and changes nothing. */
  method DeleteTwice(body: ProductFields, newId: Id)
    requires ValidProduct(NewProduct(body))
  {
    var c := new Catalog(true);
    var r := c.CreateProduct(body, newId, false);
    r := c.DeleteProduct(newId, false);
    assert r.status == 200;
    var once := c.products;
    r := c.GetProducts(false);
    assert newId !in r.body.data;
    r := c.GetProductById(newId, false);
    assert r == Response(200, ProductItem(true, newId, NewProduct(body).(isActive := false)));
    r := c.DeleteProduct(newId, false);
    assert r.status == 200;
    SoftDeleteIdempotent(once, newId);
    assert c.products == once;
  }
}
