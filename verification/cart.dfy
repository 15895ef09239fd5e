/**
 * The session cart of includes/functions.php: an insertion-ordered map from product id
 * to a line that captures the catalogue name, price and image when the product was first
 * added, plus a quantity. The map is a sequence of lines with distinct ids; a key that is
 * unset and added again goes to the end, as in a PHP array.
 */
module Cart {
  import opened Php
  import Catalog

  datatype CartLine = CartLine(id: int, name: string, price: int, imageUrl: string, quantity: int)

  /** No two lines share a product id: the cart is keyed by id. */
  predicate DistinctIds(lines: seq<CartLine>)
  {
    forall i, j :: 0 <= i < j < |lines| ==> lines[i].id != lines[j].id
  }

  /** The invariant the cart functions keep: distinct ids and no line with quantity < 1. */
  predicate Valid(lines: seq<CartLine>)
  {
    DistinctIds(lines) && forall i :: 0 <= i < |lines| ==> lines[i].quantity >= 1
  }

  function Ids(lines: seq<CartLine>): (r: set<int>)
    ensures forall id :: id in r <==> exists i :: 0 <= i < |lines| && lines[i].id == id
  {
    set i | 0 <= i < |lines| :: lines[i].id
  }

  /** The position of the line for a product id, or -1 (`isset($cart[$productId])`). */
  function IndexOf(lines: seq<CartLine>, id: int): (k: int)
    ensures -1 <= k < |lines|
    ensures k >= 0 ==> lines[k].id == id
    ensures k < 0 <==> id !in Ids(lines)
    ensures forall j :: 0 <= j < k ==> lines[j].id != id
  {
    if lines == [] then -1
    else if lines[0].id == id then 0
    else
      var k := IndexOf(lines[1..], id);
      if k < 0 then -1 else k + 1
  }

  /** `unset($cart[$id])`: every line with that id goes, the rest keep their order. */
  function RemoveId(lines: seq<CartLine>, id: int): (r: seq<CartLine>)
    ensures |r| <= |lines|
    ensures forall l :: l in r <==> l in lines && l.id != id
  {
    if lines == [] then []
    else (if lines[0].id == id then [] else [lines[0]]) + RemoveId(lines[1..], id)
  }

  /** The line add_to_cart() creates from the catalogue record. */
  function NewLine(product: Catalog.ProductView, quantity: int): CartLine
  {
    CartLine(product.id, product.name, product.price, product.imageUrl, quantity)
  }

  /**
   * add_to_cart(): nothing for an unknown product; otherwise add to the existing line or
   * append a new one, and unset the line when its quantity ends below 1.
   */
  function AddLine(lines: seq<CartLine>, product: Option<Catalog.ProductView>, quantity: int): seq<CartLine>
  {
    if product.None? then lines
    else
      var k := IndexOf(lines, product.value.id);
      if k >= 0 then
        var q := lines[k].quantity + quantity;
        if q < 1 then RemoveId(lines, product.value.id) else lines[k := lines[k].(quantity := q)]
      else if quantity < 1 then lines
      else lines + [NewLine(product.value, quantity)]
  }

  /** update_cart_quantity(): a quantity <= 0 removes the line, otherwise an existing line gets it. */
  function SetQuantity(lines: seq<CartLine>, id: int, quantity: int): seq<CartLine>
  {
    if quantity <= 0 then RemoveId(lines, id)
    else
      var k := IndexOf(lines, id);
      if k < 0 then lines else lines[k := lines[k].(quantity := quantity)]
  }

  /** The amount one line contributes to the subtotal. */
  function Amount(line: CartLine): int
  {
    line.price * line.quantity
  }

  /** The `subtotal` of cart_totals(): the sum of price times quantity over the lines. */
  function Subtotal(lines: seq<CartLine>): int
  {
    if lines == [] then 0 else Amount(lines[0]) + Subtotal(lines[1..])
  }

  // ---------------------------------------------------------------- properties

  lemma {:induction false} SubtotalAppend(lines: seq<CartLine>, line: CartLine)
    ensures Subtotal(lines + [line]) == Subtotal(lines) + Amount(line)
  {
    if lines != [] {
      assert (lines + [line])[1..] == lines[1..] + [line];
      SubtotalAppend(lines[1..], line);
    }
  }

  lemma {:induction false} SubtotalUpdate(lines: seq<CartLine>, k: nat, line: CartLine)
    requires k < |lines|
    ensures Subtotal(lines[k := line]) == Subtotal(lines) - Amount(lines[k]) + Amount(line)
  {
    if k > 0 {
      assert lines[k := line][1..] == lines[1..][k - 1 := line];
      SubtotalUpdate(lines[1..], k - 1, line);
    }
  }

  /** Removing a product takes its amount off the subtotal and nothing else. */
  lemma {:induction false} SubtotalRemove(lines: seq<CartLine>, k: nat)
    requires DistinctIds(lines) && k < |lines|
    ensures Subtotal(RemoveId(lines, lines[k].id)) == Subtotal(lines) - Amount(lines[k])
  {
    var id := lines[k].id;
    if k == 0 {
      assert forall i :: 0 <= i < |lines[1..]| ==> lines[1..][i].id == lines[i + 1].id != id;
      NotThereRemovesNothing(lines[1..], id);
      assert RemoveId(lines, id) == [] + RemoveId(lines[1..], id) == lines[1..];
    } else {
      assert lines[0].id != id;
      assert lines[1..][k - 1] == lines[k];
      SubtotalRemove(lines[1..], k - 1);
    }
  }

  lemma {:induction false} NotThereRemovesNothing(lines: seq<CartLine>, id: int)
    requires forall i :: 0 <= i < |lines| ==> lines[i].id != id
    ensures RemoveId(lines, id) == lines
  {
    if lines != [] {
      NotThereRemovesNothing(lines[1..], id);
    }
  }

  /** remove_from_cart() twice is remove_from_cart() once. */
  lemma {:induction false} RemoveIdempotent(lines: seq<CartLine>, id: int)
    ensures RemoveId(RemoveId(lines, id), id) == RemoveId(lines, id)
  {
    var r := RemoveId(lines, id);
    assert forall i :: 0 <= i < |r| ==> r[i] in r;
    NotThereRemovesNothing(r, id);
  }

  lemma {:induction false} RemoveKeepsDistinct(lines: seq<CartLine>, id: int)
    requires DistinctIds(lines)
    ensures DistinctIds(RemoveId(lines, id))
  {
    if lines != [] {
      RemoveKeepsDistinct(lines[1..], id);
      var rest := RemoveId(lines[1..], id);
      if lines[0].id != id {
        forall j | 0 <= j < |rest|
          ensures rest[j].id != lines[0].id
        {
          assert rest[j] in lines[1..];
        }
      }
    }
  }

  /** Every line of a valid cart still has quantity >= 1 after a removal. */
  lemma RemoveKeepsValid(lines: seq<CartLine>, id: int)
    requires Valid(lines)
    ensures Valid(RemoveId(lines, id))
  {
    RemoveKeepsDistinct(lines, id);
    var r := RemoveId(lines, id);
    forall i | 0 <= i < |r|
      ensures r[i].quantity >= 1
    {
      assert r[i] in lines;
    }
  }

  /** add_to_cart() keeps the cart invariant: no surviving line has quantity < 1. */
  lemma AddKeepsValid(lines: seq<CartLine>, product: Option<Catalog.ProductView>, quantity: int)
    requires Valid(lines)
    ensures Valid(AddLine(lines, product, quantity))
  {
    if product.Some? {
      var k := IndexOf(lines, product.value.id);
      if k >= 0 && lines[k].quantity + quantity < 1 {
        RemoveKeepsValid(lines, product.value.id);
      }
    }
  }

  /** update_cart_quantity() keeps the cart invariant. */
  lemma SetKeepsValid(lines: seq<CartLine>, id: int, quantity: int)
    requires Valid(lines)
    ensures Valid(SetQuantity(lines, id, quantity))
  {
    if quantity <= 0 {
      RemoveKeepsValid(lines, id);
    }
  }

  /** add_to_cart() for a product already in the cart: only its quantity changes, by q. */
  lemma AddToExisting(lines: seq<CartLine>, product: Catalog.ProductView, quantity: int, k: nat)
    requires DistinctIds(lines) && k < |lines| && lines[k].id == product.id
    requires lines[k].quantity + quantity >= 1
    ensures var r := AddLine(lines, Some(product), quantity);
      |r| == |lines|
      && r[k].quantity == lines[k].quantity + quantity
      && r[k].name == lines[k].name && r[k].price == lines[k].price && r[k].imageUrl == lines[k].imageUrl
      && forall j :: 0 <= j < |lines| && j != k ==> r[j] == lines[j]
  {
    assert IndexOf(lines, product.id) == k;
  }

  /** add_to_cart() for a product not in the cart: one line at the end with the catalogue's name and price. */
  lemma AddNew(lines: seq<CartLine>, product: Catalog.ProductView, quantity: int)
    requires product.id !in Ids(lines) && quantity >= 1
    ensures var r := AddLine(lines, Some(product), quantity);
      r[..|lines|] == lines && |r| == |lines| + 1
      && r[|lines|].name == product.name && r[|lines|].price == product.price
      && r[|lines|].quantity == quantity
  {
  }

  /** update_cart_quantity() never adds a product the cart did not hold. */
  lemma SetNeverInserts(lines: seq<CartLine>, id: int, quantity: int)
    ensures Ids(SetQuantity(lines, id, quantity)) <= Ids(lines)
  {
    var r := SetQuantity(lines, id, quantity);
    forall x | x in Ids(r)
      ensures x in Ids(lines)
    {
      var i :| 0 <= i < |r| && r[i].id == x;
      if quantity <= 0 {
        assert r[i] in r;
      }
    }
  }

  /** update_cart_quantity() leaves the other products' lines as they were. */
  lemma SetTouchesOnlyItsLine(lines: seq<CartLine>, id: int, quantity: int, l: CartLine)
    requires l in lines && l.id != id
    ensures l in SetQuantity(lines, id, quantity)
  {
    if quantity > 0 {
      var k := IndexOf(lines, id);
      if k >= 0 {
        var i :| 0 <= i < |lines| && lines[i] == l;
        assert SetQuantity(lines, id, quantity)[i] == l;
      }
    }
  }

  lemma IndexOfDistinct(lines: seq<CartLine>, k: nat)
    requires DistinctIds(lines) && k < |lines|
    ensures IndexOf(lines, lines[k].id) == k
  {
  }

  /** A positive update of a product in the cart replaces that line's amount by price times the new quantity. */
  lemma SetChangesSubtotal(lines: seq<CartLine>, k: nat, quantity: int)
    requires DistinctIds(lines) && k < |lines| && quantity > 0
    ensures Subtotal(SetQuantity(lines, lines[k].id, quantity))
            == Subtotal(lines) - Amount(lines[k]) + lines[k].price * quantity
  {
    var line := lines[k].(quantity := quantity);
    IndexOfDistinct(lines, k);
    assert SetQuantity(lines, lines[k].id, quantity) == lines[k := line];
    SubtotalUpdate(lines, k, line);
  }

  // ---------------------------------------------------------------- the session cart

  /** `$_SESSION['cart']`, changed in place by the cart functions. */
  class SessionCart {
    var lines: seq<CartLine>

    /** A session that has no cart yet: `$_SESSION['cart'] ?? []`. */
    constructor ()
      ensures lines == []
    {
      lines := [];
    }

    /** add_to_cart($productId, $quantity), given the catalogue get_product() reads. */
    method Add(store: Catalog.Store, productId: int, quantity: int)
      modifies this
      ensures lines == AddLine(old(lines), store.Get(productId), quantity)
      ensures store.Get(productId).None? ==> lines == old(lines)
      ensures old(Valid(lines)) ==> Valid(lines)
    {
      var product := store.Get(productId);
      if product.None? {
        return;
      }
      if Valid(lines) {
        AddKeepsValid(lines, product, quantity);
      }
      var k := IndexOf(lines, productId);
      if k >= 0 {
        var q := lines[k].quantity + quantity;
        if q < 1 {
          lines := RemoveId(lines, productId);
        } else {
          lines := lines[k := lines[k].(quantity := q)];
        }
      } else if quantity >= 1 {
        lines := lines + [NewLine(product.value, quantity)];
      }
    }

    /** update_cart_quantity($productId, $quantity). */
    method UpdateQuantity(productId: int, quantity: int)
      modifies this
      ensures lines == SetQuantity(old(lines), productId, quantity)
      ensures quantity <= 0 ==> lines == RemoveId(old(lines), productId)
      ensures old(Valid(lines)) ==> Valid(lines)
    {
      if Valid(lines) {
        SetKeepsValid(lines, productId, quantity);
      }
      if quantity <= 0 {
        Remove(productId);
        return;
      }
      var k := IndexOf(lines, productId);
      if k >= 0 {
        lines := lines[k := lines[k].(quantity := quantity)];
      }
    }

    /** remove_from_cart($productId). */
    method Remove(productId: int)
      modifies this
      ensures lines == RemoveId(old(lines), productId)
      ensures productId !in Ids(lines)
      ensures old(Valid(lines)) ==> Valid(lines)
    {
      if Valid(lines) {
        RemoveKeepsValid(lines, productId);
      }
      lines := RemoveId(lines, productId);
    }

    /** clear_cart(). */
    method Clear()
      modifies this
      ensures lines == []
    {
      lines := [];
    }

    /** cart_totals(): the number of distinct lines and the sum of price times quantity. */
    method Totals() returns (items: nat, subtotal: int)
      ensures items == |lines|
      ensures subtotal == Subtotal(lines)
    {
      subtotal := 0;
      for i := 0 to |lines|
        invariant subtotal == Subtotal(lines[..i])
      {
        SubtotalAppend(lines[..i], lines[i]);
        assert lines[..i + 1] == lines[..i] + [lines[i]];
        subtotal := subtotal + Amount(lines[i]);
      }
      assert lines[..|lines|] == lines;
      items := |lines|;
    }
  }
}
