/** The stored cart lines and the changes the cart view makes to them through
    the cart storage: removing one product, removing several, and setting a
    quantity. */
module CartLines {
  import opened CartTypes
  import opened Sequences

  function LineId(l: Line): ProductId { l.id }

  /** The products that have a line in the cart. */
  function Ids(cart: seq<Line>): (r: set<ProductId>)
    ensures forall i :: 0 <= i < |cart| ==> cart[i].id in r
    ensures forall id :: id in r ==> exists i :: 0 <= i < |cart| && cart[i].id == id
  {
    if cart == [] then {} else {cart[0].id} + Ids(cart[1..])
  }

  /** A cart holds at most one line per product. */
  ghost predicate UniqueLines(cart: seq<Line>)
  {
    UniqueBy(cart, LineId)
  }

  /** The test that keeps every line but product `id`'s. */
  function OtherThan(id: ProductId): Line -> bool
  {
    (l: Line) => l.id != id
  }

  /** The test that keeps every line whose product is not in `ids`. */
  function OutsideOf(ids: set<ProductId>): Line -> bool
  {
    (l: Line) => l.id !in ids
  }

  /** The cart after the storage removes product `id`. */
  function WithoutId(cart: seq<Line>, id: ProductId): seq<Line>
  {
    Filter(cart, OtherThan(id))
  }

  /** The cart after the storage removes every product in `ids`. */
  function WithoutIds(cart: seq<Line>, ids: set<ProductId>): seq<Line>
  {
    Filter(cart, OutsideOf(ids))
  }

  /** The cart after the storage sets the quantity of product `id` to `q`. */
  function SetQuantity(cart: seq<Line>, id: ProductId, q: int): (r: seq<Line>)
    ensures |r| == |cart|
    ensures forall i :: 0 <= i < |r| ==> r[i].id == cart[i].id
    ensures forall i :: 0 <= i < |r| ==> r[i].quantity == if cart[i].id == id then q else cart[i].quantity
  {
    if cart == [] then []
    else [if cart[0].id == id then Line(id, q) else cart[0]] + SetQuantity(cart[1..], id, q)
  }

  /** In a cart with one line per product, there are as many products as lines. */
  lemma {:induction false} IdsCount(cart: seq<Line>)
    requires UniqueLines(cart)
    ensures |Ids(cart)| == |cart|
  {
    if cart != [] {
      var tail := cart[1..];
      assert UniqueLines(tail) by {
        forall i, j | 0 <= i < j < |tail| ensures LineId(tail[i]) != LineId(tail[j]) {
          assert tail[i] == cart[i + 1] && tail[j] == cart[j + 1];
        }
      }
      IdsCount(tail);
      forall k | 0 <= k < |tail| ensures tail[k].id != cart[0].id {
        assert LineId(cart[0]) != LineId(cart[k + 1]);
      }
      assert cart[0].id !in Ids(tail);
    }
  }

  /** Removing the products in `removed` takes exactly those out of the cart's product set. */
  lemma IdsWithoutIds(cart: seq<Line>, removed: set<ProductId>)
    ensures Ids(WithoutIds(cart, removed)) == Ids(cart) - removed
  {
    var r := WithoutIds(cart, removed);
    forall id | id in Ids(cart) - removed ensures id in Ids(r) {
      var i :| 0 <= i < |cart| && cart[i].id == id;
      assert cart[i] in r;
      var k :| 0 <= k < |r| && r[k] == cart[i];
    }
    forall id | id in Ids(r) ensures id in Ids(cart) - removed {
      var k :| 0 <= k < |r| && r[k].id == id;
      assert r[k] in cart;
      var i :| 0 <= i < |cart| && cart[i] == r[k];
    }
  }

  /** Removing one product is removing the one-element set of it. */
  lemma WithoutIdIsWithoutIds(cart: seq<Line>, id: ProductId)
    ensures WithoutId(cart, id) == WithoutIds(cart, {id})
  {
    FilterSame(cart, OtherThan(id), OutsideOf({id}));
  }

  /** Removing product `id` after the products in `ids` is removing `ids + {id}`;
      the loop over the selection in `handleRemoveSelected` rests on it. */
  lemma RemoveOneMore(cart: seq<Line>, ids: set<ProductId>, id: ProductId)
    ensures WithoutId(WithoutIds(cart, ids), id) == WithoutIds(cart, ids + {id})
  {
    FilterFilter(cart, OutsideOf(ids), OtherThan(id), OutsideOf(ids + {id}));
  }

  /** Removing a product a second time changes nothing. */
  lemma RemoveTwice(cart: seq<Line>, id: ProductId)
    ensures WithoutId(WithoutId(cart, id), id) == WithoutId(cart, id)
  {
    FilterFilter(cart, OtherThan(id), OtherThan(id), OtherThan(id));
  }

  /** Removal keeps one line per product. */
  lemma WithoutIdsUnique(cart: seq<Line>, ids: set<ProductId>)
    requires UniqueLines(cart)
    ensures UniqueLines(WithoutIds(cart, ids))
  {
    FilterKeepsUnique(cart, OutsideOf(ids), LineId);
  }

  /** A quantity change keeps one line per product. */
  lemma SetQuantityUnique(cart: seq<Line>, id: ProductId, q: int)
    requires UniqueLines(cart)
    ensures UniqueLines(SetQuantity(cart, id, q))
  {
    var r := SetQuantity(cart, id, q);
    forall i, j | 0 <= i < j < |r| ensures LineId(r[i]) != LineId(r[j]) {
      assert LineId(cart[i]) != LineId(cart[j]);
    }
  }

  /** A quantity change for a product with no line leaves the cart as it is. */
  lemma {:induction false} SetQuantityAbsent(cart: seq<Line>, id: ProductId, q: int)
    requires id !in Ids(cart)
    ensures SetQuantity(cart, id, q) == cart
  {
    if cart != [] {
      SetQuantityAbsent(cart[1..], id, q);
      assert [cart[0]] + cart[1..] == cart;
    }
  }

  /** A selection of cart products has as many products as the cart has
      lines exactly when it is every product: the size test of
      `handleSelectAll` is an "all selected" test. */
  lemma SelectionSize(cart: seq<Line>, sel: set<ProductId>)
    requires UniqueLines(cart) && sel <= Ids(cart)
    ensures |sel| == |cart| <==> sel == Ids(cart)
  {
    IdsCount(cart);
    var rest := Ids(cart) - sel;
    assert Ids(cart) == sel + rest && sel !! rest;
    if sel != Ids(cart) {
      var x :| x in rest;
      assert |rest| >= 1 by { assert {x} <= rest; }
    }
  }

  /** A set of products is empty or has an element; the loop over the
      selection uses it to pick the next product. */
  lemma EmptyOrInhabited(s: set<ProductId>)
    ensures s == {} || exists x :: x in s
  {
    if forall x :: x !in s {
      assert s == {};
    }
  }
}
