/**
 * api/add-to-cart.php: a JSON endpoint that checks the request, clamps the quantity,
 * looks the product up in the catalogue and adds it to the session cart.
 */
module AddToCartApi {
  import opened Php
  import Catalog
  import Cart
  import CartPage

  /** The endpoint's answers: an HTTP error status, or success with the number of cart lines. */
  datatype Response = MethodNotAllowed | InvalidProductId | ProductNotFound | Added(cartTotal: nat)
  {
    function Status(): int
    {
      match this
      case MethodNotAllowed => 405
      case InvalidProductId => 400
      case ProductNotFound => 404
      case Added(_) => 200
    }

    function Error(): string
    {
      match this
      case MethodNotAllowed => "Method not allowed"
      case InvalidProductId => "Invalid product ID"
      case ProductNotFound => "Product not found"
      case Added(_) => ""
    }
  }

  /**
   * A product the endpoint adds is in the cart afterwards: with a quantity of at least 1
   * the line cannot fall below 1, so it is never dropped, and no other product is touched.
   */
  lemma {:induction false} AddedProductIsInCart(lines: seq<Cart.CartLine>, product: Catalog.ProductView, quantity: int)
    requires Cart.Valid(lines)
    ensures var r := Cart.AddLine(lines, Some(product), CartPage.AtLeastOne(quantity));
      && product.id in Cart.Ids(r)
      && Cart.Ids(r) == Cart.Ids(lines) + {product.id}
      && Cart.Valid(r)
  {
    var q := CartPage.AtLeastOne(quantity);
    var r := Cart.AddLine(lines, Some(product), q);
    Cart.AddKeepsValid(lines, Some(product), q);
    var k := Cart.IndexOf(lines, product.id);
    if k >= 0 {
      assert lines[k].quantity + q >= 1;
      assert r == lines[k := lines[k].(quantity := lines[k].quantity + q)];
      assert r[k].id == product.id;
      forall id | id in Cart.Ids(r)
        ensures id in Cart.Ids(lines)
      {
        var i :| 0 <= i < |r| && r[i].id == id;
        assert lines[i].id == id;
      }
      forall id | id in Cart.Ids(lines)
        ensures id in Cart.Ids(r)
      {
        var i :| 0 <= i < |lines| && lines[i].id == id;
        assert r[i].id == id;
      }
    } else {
      assert r == lines + [Cart.NewLine(product, q)];
      assert r[|lines|].id == product.id;
      forall id | id in Cart.Ids(r)
        ensures id in Cart.Ids(lines) + {product.id}
      {
        var i :| 0 <= i < |r| && r[i].id == id;
        if i < |lines| {
          assert lines[i].id == id;
        }
      }
      forall id | id in Cart.Ids(lines)
        ensures id in Cart.Ids(r)
      {
        var i :| 0 <= i < |lines| && lines[i].id == id;
        assert r[i].id == id;
      }
    }
  }

  /** The request handling, in the order of its early exits. */
  method Handle(cart: Cart.SessionCart, store: Catalog.Store, isPost: bool, productId: int, quantity: int)
    returns (response: Response)
    modifies cart
    ensures !isPost ==> response == MethodNotAllowed && cart.lines == old(cart.lines)
    ensures isPost && productId <= 0 ==> response == InvalidProductId && cart.lines == old(cart.lines)
    ensures isPost && productId > 0 && store.Get(productId).None? ==>
              response == ProductNotFound && cart.lines == old(cart.lines)
    ensures isPost && productId > 0 && store.Get(productId).Some? ==>
              cart.lines == Cart.AddLine(old(cart.lines), store.Get(productId), CartPage.AtLeastOne(quantity))
              && response == Added(|cart.lines|)
  {
    if !isPost {
      return MethodNotAllowed;
    }
    var clamped := CartPage.AtLeastOne(quantity);
    if productId <= 0 {
      return InvalidProductId;
    }
    var product := store.Get(productId);
    if product.None? {
      return ProductNotFound;
    }
    cart.Add(store, productId, clamped);
    var items, _ := cart.Totals();
    response := Added(items);
  }
}
