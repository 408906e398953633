/** The product cache of src/app/features/stock/services/product.service.ts.
    `productsSubject` holds the list the screens see; every successful
    request replaces it. The server's reply is an input: `None` stands for
    a failed HTTP request, which leaves the cache as it was. */
module Products {
  import opened Models
  import opened IdLists

  class ProductService {
    /** The current value of `productsSubject`. */
    var products: seq<Product>

    /** The subject starts empty and the initial load fills it when the
        request succeeds (`loadInitialProducts`). */
    constructor (initialReply: Option<seq<Product>>)
      ensures products == if initialReply.Some? then initialReply.value else []
    {
      products := [];
      if initialReply.Some? {
        products := initialReply.value;
      }
    }

    /** `refreshProducts`: a successful fetch replaces the whole cache. */
    method RefreshProducts(reply: Option<seq<Product>>) returns (r: Result<seq<Product>>)
      modifies this
      ensures reply.Some? ==> r == Ok(reply.value) && products == reply.value
      ensures reply.None? ==> r == Err(RequestFailed) && products == old(products)
    {
      if reply.Some? {
        products := reply.value;
        r := Ok(reply.value);
      } else {
        r := Err(RequestFailed);
      }
    }

    /** `addProduct`: the product the server returns is appended. */
    method AddProduct(reply: Option<Product>) returns (r: Result<Product>)
      modifies this
      ensures reply.Some? ==> r == Ok(reply.value) && products == old(products) + [reply.value]
      ensures reply.None? ==> r == Err(RequestFailed) && products == old(products)
    {
      if reply.Some? {
        var currentProducts := products;
        products := currentProducts + [reply.value];
        r := Ok(reply.value);
      } else {
        r := Err(RequestFailed);
      }
    }

    /** `updateProduct`: a request without an id fails before anything is
        sent; otherwise the returned product overwrites the first cached
        product with the same id, and nothing changes when there is none. */
    method UpdateProduct(requestId: Option<Id>, reply: Option<Product>)
      returns (r: Result<Product>, requested: bool)
      modifies this
      ensures requested <==> requestId.Some?
      ensures requestId.None? ==> r == Err(MissingId) && products == old(products)
      ensures requestId.Some? && reply.None? ==> r == Err(RequestFailed) && products == old(products)
      ensures requestId.Some? && reply.Some? ==>
        r == Ok(reply.value) && products == ReplaceFirst(old(products), ProductId, reply.value)
    {
      if requestId.None? {
        return Err(MissingId), false;
      }
      requested := true;
      if reply.None? {
        return Err(RequestFailed), requested;
      }
      var returnedProduct := reply.value;
      var index := IndexOfId(products, ProductId, returnedProduct.id);
      if index > -1 {
        products := products[index := returnedProduct];
      }
      r := Ok(returnedProduct);
    }

    /** `deleteProduct`: after the server confirms, every product whose id
        is `id` leaves the cache. */
    method DeleteProduct(id: Id, succeeded: bool) returns (r: Result<()>)
      modifies this
      ensures succeeded ==> r == Ok(()) && products == Without(old(products), ProductId, id)
      ensures !succeeded ==> r == Err(RequestFailed) && products == old(products)
    {
      if succeeded {
        var currentProducts := products;
        products := Without(currentProducts, ProductId, id);
        r := Ok(());
      } else {
        r := Err(RequestFailed);
      }
    }
  }

  /** A client-side run: add two products, update the second, delete the
      first. */
  method ProductCacheScenario()
  {
    var p1 := Product(Num(1), "Tornillo", None, 0.5, 100, None);
    var p2 := Product(Num(2), "Tuerca", None, 0.25, 40, None);
    var svc := new ProductService(Some([]));
    var a := svc.AddProduct(Some(p1));
    a := svc.AddProduct(Some(p2));
    assert svc.products == [p1, p2];
    var p2b := p2.(stock := 35);
    var u, sent := svc.UpdateProduct(Some(Num(2)), Some(p2b));
    assert IndexOfId([p1, p2], ProductId, Num(2)) == 1;
    assert svc.products == [p1, p2b];
    var n, _ := svc.UpdateProduct(None, Some(p2b));
    assert n == Err(MissingId) && svc.products == [p1, p2b];
    var d := svc.DeleteProduct(Str("1"), true);
    assert svc.products == [p1, p2b];
    d := svc.DeleteProduct(Num(1), true);
    assert svc.products == [p2b];
  }
}
