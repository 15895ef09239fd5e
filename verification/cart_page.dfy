/**
 * The POST handler of cart/index.php: after the `cart_actions` CSRF token is accepted, an
 * `update`, `remove` or `clear` action changes the session cart and adds its message.
 * The request fields arrive already cast to integers.
 */
module CartPage {
  import opened Php
  import Cart
  import Csrf

  const InvalidAction := "Invalid cart action. Please refresh and try again."

  /** `max(1, $quantity)`: the page and the add-to-cart endpoint never pass a quantity below 1. */
  function AtLeastOne(quantity: int): (r: int)
    ensures r >= 1 && r >= quantity
    ensures r == quantity || r == 1
  {
    if quantity < 1 then 1 else quantity
  }

  /** What an accepted action does to the cart lines; any other action leaves them alone. */
  function Apply(lines: seq<Cart.CartLine>, action: string, productId: int, quantity: int): seq<Cart.CartLine>
  {
    if action == "update" then Cart.SetQuantity(lines, productId, AtLeastOne(quantity))
    else if action == "remove" then Cart.RemoveId(lines, productId)
    else if action == "clear" then []
    else lines
  }

  /** The message an accepted action adds; an unknown action adds none. */
  function Messages(action: string): (r: seq<string>)
    ensures |r| <= 1
    ensures r == [] <==> action != "update" && action != "remove" && action != "clear"
  {
    if action == "update" then ["Cart updated."]
    else if action == "remove" then ["Item removed from your cart."]
    else if action == "clear" then ["Cart cleared."]
    else []
  }

  /**
   * An update from this page never removes a line: every line keeps its place and its
   * product, only the updated product's quantity changes.
   */
  lemma {:induction false} UpdateKeepsEveryLine(lines: seq<Cart.CartLine>, productId: int, quantity: int)
    ensures var r := Apply(lines, "update", productId, quantity);
      && |r| == |lines|
      && (forall i :: 0 <= i < |lines| ==> r[i].id == lines[i].id && r[i].price == lines[i].price)
      && (forall i :: 0 <= i < |lines| && lines[i].id != productId ==> r[i] == lines[i])
  {
    var k := Cart.IndexOf(lines, productId);
    assert AtLeastOne(quantity) > 0;
    if k >= 0 {
      assert Apply(lines, "update", productId, quantity) == lines[k := lines[k].(quantity := AtLeastOne(quantity))];
    }
  }

  /** Every action of the page keeps the cart invariant: distinct products, quantities of at least 1. */
  lemma ApplyKeepsValid(lines: seq<Cart.CartLine>, action: string, productId: int, quantity: int)
    requires Cart.Valid(lines)
    ensures Cart.Valid(Apply(lines, action, productId, quantity))
  {
    if action == "update" {
      Cart.SetKeepsValid(lines, productId, AtLeastOne(quantity));
    } else if action == "remove" {
      Cart.RemoveKeepsValid(lines, productId);
    }
  }

  /** A removal from this page leaves no line for the product, and removing twice is removing once. */
  lemma RemoveLeavesNone(lines: seq<Cart.CartLine>, productId: int)
    ensures productId !in Cart.Ids(Apply(lines, "remove", productId, 0))
    ensures Apply(Apply(lines, "remove", productId, 0), "remove", productId, 0) == Apply(lines, "remove", productId, 0)
  {
    Cart.RemoveIdempotent(lines, productId);
  }

  /** The POST branch of cart/index.php; a GET request does nothing. */
  method HandlePost(cart: Cart.SessionCart, csrf: Csrf.TokenStore, action: string, token: string,
                    productId: int, quantity: int)
    returns (errors: seq<string>, messages: seq<string>)
    modifies cart, csrf
    ensures !Csrf.Accepts(old(csrf.tokens), "cart_actions", Some(token)) ==>
              errors == [InvalidAction] && messages == [] && cart.lines == old(cart.lines)
              && csrf.tokens == old(csrf.tokens)
    ensures Csrf.Accepts(old(csrf.tokens), "cart_actions", Some(token)) ==>
              errors == [] && messages == Messages(action)
              && cart.lines == Apply(old(cart.lines), action, productId, quantity)
              && csrf.tokens == Csrf.Consume(old(csrf.tokens), "cart_actions", token)
    ensures old(Cart.Valid(cart.lines)) ==> Cart.Valid(cart.lines)
  {
    errors, messages := [], [];
    ghost var before := cart.lines;
    var valid := csrf.Validate("cart_actions", Some(token));
    if !valid {
      errors := errors + [InvalidAction];
      return;
    }
    if Cart.Valid(before) {
      ApplyKeepsValid(before, action, productId, quantity);
    }
    if action == "update" {
      cart.UpdateQuantity(productId, AtLeastOne(quantity));
      messages := messages + ["Cart updated."];
    }
    if action == "remove" {
      cart.Remove(productId);
      messages := messages + ["Item removed from your cart."];
    }
    if action == "clear" {
      cart.Clear();
      messages := messages + ["Cart cleared."];
    }
  }
}
