/**
 * cart/payment.php: the simulated payment of an order. The order must exist and belong to
 * the logged-in user (or to nobody); a valid submission forces its status to `paid` and,
 * once that UPDATE has run, empties the session cart.
 */
module PaymentPage {
  import opened Php
  import Cart
  import Csrf
  import Orders

  const InvalidSubmission := "Invalid submission. Please refresh and try again."
  const MethodRequired := "Please select a payment method."
  const PaymentFailed := "Payment processing failed. Please try again."

  /** What the page does: send the visitor back to the cart, or show the form with its outcome. */
  datatype Outcome = RedirectToCart | Page(errors: seq<string>, success: bool)

  /**
   * The ownership test: the order exists, and its `user_id` is empty (null or 0) or is
   * the current user's id.
   */
  predicate MayPay(order: Option<Orders.Order>, currentUser: int)
  {
    order.Some? && (order.value.userId.None? || order.value.userId.value == 0
                    || order.value.userId.value == currentUser)
  }

  /** After the payment UPDATE every row of the order is `paid`, whatever it was before, and no other row changes. */
  lemma PaidWhateverBefore(orders: seq<Orders.Order>, orderId: int)
    ensures var r := Orders.SetStatus(orders, orderId, Orders.Paid);
      && |r| == |orders|
      && (forall i :: 0 <= i < |r| && orders[i].orderId == orderId ==> r[i].status == Orders.Paid)
      && (forall i :: 0 <= i < |r| && orders[i].orderId != orderId ==> r[i] == orders[i])
      && Orders.SetStatus(r, orderId, Orders.Paid) == r
  {
    Orders.SetStatusIdempotent(orders, orderId, Orders.Paid);
  }

  /**
   * The page for the logged-in user `currentUser`; `prepared` is whether the order lookup
   * could run, and `executes` whether the status UPDATE succeeds.
   */
  method Pay(db: Orders.OrderDb, cart: Cart.SessionCart, csrf: Csrf.TokenStore, currentUser: int,
             orderId: int, prepared: bool, isPost: bool, token: Option<string>,
             paymentMethod: Option<string>, executes: bool)
    returns (outcome: Outcome)
    modifies db, cart, csrf
    ensures db.items == old(db.items) && db.nextId == old(db.nextId)
    ensures old(db.Valid()) ==> db.Valid()
    ensures orderId == 0 || !MayPay(old(db.GetOrder(orderId, prepared)), currentUser) ==>
              outcome == RedirectToCart
              && db.orders == old(db.orders) && cart.lines == old(cart.lines) && csrf.tokens == old(csrf.tokens)
    ensures outcome.Page? && !isPost ==>
              outcome == Page([], false)
              && db.orders == old(db.orders) && cart.lines == old(cart.lines) && csrf.tokens == old(csrf.tokens)
    ensures outcome.Page? && isPost && !Csrf.Accepts(old(csrf.tokens), "payment_form", token) ==>
              outcome == Page([InvalidSubmission], false)
              && db.orders == old(db.orders) && cart.lines == old(cart.lines) && csrf.tokens == old(csrf.tokens)
    ensures outcome.Page? && isPost && Csrf.Accepts(old(csrf.tokens), "payment_form", token) ==>
              csrf.tokens == Csrf.Consume(old(csrf.tokens), "payment_form", token.value)
              && (Sanitize(if paymentMethod.Some? then paymentMethod.value else "") == "" ==>
                    outcome == Page([MethodRequired], false)
                    && db.orders == old(db.orders) && cart.lines == old(cart.lines))
              && (Sanitize(if paymentMethod.Some? then paymentMethod.value else "") != "" && executes ==>
                    outcome == Page([], true)
                    && db.orders == Orders.SetStatus(old(db.orders), orderId, Orders.Paid) && cart.lines == [])
              && (Sanitize(if paymentMethod.Some? then paymentMethod.value else "") != "" && !executes ==>
                    outcome == Page([PaymentFailed], false)
                    && db.orders == old(db.orders) && cart.lines == old(cart.lines))
    ensures outcome.Page? <==> orderId != 0 && MayPay(old(db.GetOrder(orderId, prepared)), currentUser)
  {
    if orderId == 0 {
      return RedirectToCart;
    }
    var order := db.GetOrder(orderId, prepared);
    if !MayPay(order, currentUser) {
      return RedirectToCart;
    }
    var errors: seq<string> := [];
    var success := false;
    if isPost {
      var valid := csrf.Validate("payment_form", token);
      if !valid {
        errors := errors + [InvalidSubmission];
      } else {
        var chosen := Sanitize(if paymentMethod.Some? then paymentMethod.value else "");
        if chosen == "" {
          errors := errors + [MethodRequired];
        } else if executes {
          db.orders := Orders.SetStatus(db.orders, orderId, Orders.Paid);
          cart.Clear();
          success := true;
        } else {
          errors := errors + [PaymentFailed];
        }
      }
    }
    outcome := Page(errors, success);
  }
}
