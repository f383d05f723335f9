/** The cart view's state and its handlers. The state is the stored cart
    lines, the fetched product details, the checkbox selection, the
    applied-coupon list and the stored total discount; each handler replaces
    some of it. */
module Engine {
  import opened CartTypes
  import opened Sequences
  import opened CartLines
  import opened Assignments
  import opened Pricing

  /** The `forEach` of `handleRemoveSelected`: the storage removes the
      products of `chosen` one at a time, in whatever order the set yields. */
  method RemoveEach(start: seq<Line>, chosen: set<ProductId>) returns (lines: seq<Line>)
    ensures lines == WithoutIds(start, chosen)
  {
    var pending := chosen;
    lines := start;
    FilterKeepsAll(start, OutsideOf(chosen - pending));
    while pending != {}
      invariant pending <= chosen
      invariant lines == WithoutIds(start, chosen - pending)
      decreases |pending|
    {
      EmptyOrInhabited(pending);
      var next :| next in pending;
      RemoveOneMore(start, chosen - pending, next);
      assert (chosen - pending) + {next} == chosen - (pending - {next});
      lines := WithoutId(lines, next);
      pending := pending - {next};
    }
    assert chosen - pending == chosen;
  }

  class CartEngine {
    var cart: seq<Line>
    var details: map<ProductId, ProductInfo>
    var selected: set<ProductId>
    var applied: seq<Assignment>
    var totalDiscount: real

    /** What every handler keeps: one line per product, no product with two
        coupons, no coupon on two products, and only cart products selected. */
    ghost predicate Valid()
      reads this
    {
      UniqueLines(cart) && WellAssigned(applied) && selected <= Ids(cart)
    }

    /** The stored total discount is the one the applied coupons give now. */
    ghost predicate DiscountCurrent()
      reads this
    {
      totalDiscount == TotalDiscount(applied, details)
    }

    /** Every applied coupon sits on a product that has a cart line. */
    ghost predicate CouponsOnCart()
      reads this
    {
      forall a :: a in applied ==> a.productId in Ids(cart)
    }

    /** The view as first rendered: the stored cart, nothing fetched,
        selected or applied. */
    constructor (stored: seq<Line>)
      requires UniqueLines(stored)
      ensures Valid() && DiscountCurrent() && CouponsOnCart()
      ensures cart == stored && details == map[] && selected == {}
      ensures applied == [] && totalDiscount == 0.0
    {
      cart := stored;
      details := map[];
      selected := {};
      applied := [];
      totalDiscount := 0.0;
    }

    /** The product-fetching effect: when the cart is not empty, the details
        become those the catalog returned for the cart's products. The stored
        discount is not recomputed. */
    method LoadProductDetails(fetched: map<ProductId, ProductInfo>)
      requires Valid()
      modifies this
      ensures Valid()
      ensures |cart| > 0 ==> details == map id | id in Ids(cart) && id in fetched :: fetched[id]
      ensures |cart| == 0 ==> details == old(details)
      ensures cart == old(cart) && selected == old(selected)
      ensures applied == old(applied) && totalDiscount == old(totalDiscount)
    {
      if |cart| > 0 {
        details := map id | id in Ids(cart) && id in fetched :: fetched[id];
      }
    }

    /** `handleRemoveFromCart`: the product's line leaves the cart, the
        selection and its coupons leave with it; the stored discount stays
        as it was. */
    method RemoveFromCart(id: ProductId)
      requires Valid()
      modifies this
      ensures Valid()
      ensures cart == WithoutId(old(cart), id)
      ensures selected == old(selected) - {id}
      ensures applied == DropProduct(old(applied), id)
      ensures totalDiscount == old(totalDiscount) && details == old(details)
      ensures old(CouponsOnCart()) ==> CouponsOnCart()
    {
      WithoutIdIsWithoutIds(cart, id);
      IdsWithoutIds(cart, {id});
      WithoutIdsUnique(cart, {id});
      DropProductKeepsWellAssigned(applied, id);
      cart := WithoutId(cart, id);
      selected := selected - {id};
      applied := DropProduct(applied, id);
    }

    /** The same removal with the total discount recomputed afterwards. */
    method RemoveFromCartAndRecompute(id: ProductId)
      requires Valid()
      modifies this
      ensures Valid() && DiscountCurrent()
      ensures cart == WithoutId(old(cart), id)
      ensures selected == old(selected) - {id}
      ensures applied == DropProduct(old(applied), id)
      ensures details == old(details)
      ensures old(CouponsOnCart()) ==> CouponsOnCart()
    {
      RemoveFromCart(id);
      totalDiscount := TotalDiscount(applied, details);
    }

    /** `handleClearCart`: everything is reset. */
    method ClearCart()
      requires Valid()
      modifies this
      ensures Valid() && DiscountCurrent() && CouponsOnCart()
      ensures cart == [] && details == map[] && selected == {}
      ensures applied == [] && totalDiscount == 0.0
    {
      cart := [];
      details := map[];
      selected := {};
      totalDiscount := 0.0;
      applied := [];
    }

    /** `handleSelectAll`: clears the selection when it has as many products
        as the cart has lines, and selects every product otherwise. */
    method SelectAll()
      requires Valid()
      modifies this
      ensures Valid()
      ensures selected == if |old(selected)| == |cart| then {} else Ids(cart)
      ensures selected == if old(selected) == Ids(cart) then {} else Ids(cart)
      ensures cart == old(cart) && details == old(details)
      ensures applied == old(applied) && totalDiscount == old(totalDiscount)
    {
      SelectionSize(cart, selected);
      if |selected| == |cart| {
        selected := {};
      } else {
        selected := Ids(cart);
      }
    }

    /** The checkbox of one cart row: flips whether its product is selected. */
    method ToggleSelected(id: ProductId)
      requires Valid() && id in Ids(cart)
      modifies this
      ensures Valid()
      ensures selected == if id in old(selected) then old(selected) - {id} else old(selected) + {id}
      ensures cart == old(cart) && details == old(details)
      ensures applied == old(applied) && totalDiscount == old(totalDiscount)
    {
      if id in selected {
        selected := selected - {id};
      } else {
        selected := selected + {id};
      }
    }

    /** `handleRemoveSelected`: the storage removes the selected products one
        by one and the selection is cleared; the applied coupons and the
        stored discount are left as they were. */
    method RemoveSelected()
      requires Valid()
      modifies this
      ensures Valid()
      ensures cart == WithoutIds(old(cart), old(selected))
      ensures selected == {}
      ensures applied == old(applied) && totalDiscount == old(totalDiscount) && details == old(details)
    {
      var remaining := RemoveEach(cart, selected);
      WithoutIdsUnique(cart, selected);
      cart := remaining;
      selected := {};
    }

    /** The same removal, also dropping the removed products' coupons and
        recomputing the total discount. */
    method RemoveSelectedWithCoupons()
      requires Valid()
      modifies this
      ensures Valid() && DiscountCurrent()
      ensures cart == WithoutIds(old(cart), old(selected))
      ensures selected == {}
      ensures applied == Filter(old(applied), (a: Assignment) => a.productId !in old(selected))
      ensures details == old(details)
      ensures old(CouponsOnCart()) ==> CouponsOnCart()
    {
      var removed := selected;
      var keep := (a: Assignment) => a.productId !in removed;
      ghost var before := applied;
      ghost var wasOnCart := CouponsOnCart();
      IdsWithoutIds(cart, removed);
      RemoveSelected();
      FilterKeepsUnique(applied, keep, ProductOf);
      FilterKeepsUnique(applied, keep, CouponIdOf);
      applied := Filter(applied, keep);
      totalDiscount := TotalDiscount(applied, details);
      if wasOnCart {
        forall a | a in applied ensures a.productId in Ids(cart) {
          var i :| 0 <= i < |applied| && applied[i] == a;
          assert a in before;
        }
      }
    }

    /** `handleQuantityChange`: `accepted` is the storage's answer to the
        update; only an accepted change reaches the cart, and no change
        touches the coupons or the stored discount. */
    method ChangeQuantity(id: ProductId, newQuantity: int, accepted: bool)
      requires Valid()
      modifies this
      ensures Valid()
      ensures cart == if accepted then SetQuantity(old(cart), id, newQuantity) else old(cart)
      ensures Ids(cart) == Ids(old(cart))
      ensures selected == old(selected) && details == old(details)
      ensures applied == old(applied) && totalDiscount == old(totalDiscount)
      ensures old(DiscountCurrent()) ==> DiscountCurrent()
      ensures old(CouponsOnCart()) ==> CouponsOnCart()
    {
      if accepted {
        SetQuantityUnique(cart, id, newQuantity);
        var updated := SetQuantity(cart, id, newQuantity);
        assert Ids(updated) == Ids(cart) by {
          forall x | x in Ids(updated) ensures x in Ids(cart) {
            var i :| 0 <= i < |updated| && updated[i].id == x;
          }
          forall x | x in Ids(cart) ensures x in Ids(updated) {
            var i :| 0 <= i < |cart| && cart[i].id == x;
          }
        }
        cart := updated;
      }
    }

    /** `handleApplyCoupon` for the product whose coupon list is open:
        (1) a coupon held by another product is taken off it, (2) whatever
        coupon the target carries is taken off, (3) the coupon is put on the
        target and the total discount is recomputed. The notices returned
        are the two alerts, in the order raised. */
    method ApplyCoupon(coupon: Coupon, target: ProductId) returns (notices: seq<Notice>)
      requires Valid()
      modifies this
      ensures Valid() && DiscountCurrent()
      ensures applied == Resolved(old(applied), coupon, target)
      ensures totalDiscount == TotalDiscount(Unrelated(old(applied), coupon.couponMemberId, target), details)
                               + UnitDiscount(coupon, Price(details, target))
      ensures cart == old(cart) && details == old(details) && selected == old(selected)
      ensures target in Ids(cart) && old(CouponsOnCart()) ==> CouponsOnCart()
      ensures var moved := HeldElsewhere(old(applied), coupon.couponMemberId, target);
            var replaced := ReplacesOnTarget(old(applied), coupon.couponMemberId, target);
            && |notices| == (if moved then 1 else 0) + (if replaced then 1 else 0)
            && (forall i :: 0 <= i < |notices| ==> (notices[i].MovedFromOtherProduct? <==> moved && i == 0))
            && (moved ==> exists a :: a in old(applied) && FirstHeldElsewhere(old(applied), coupon.couponMemberId, target, a)
                                      && a.coupon.couponMemberId == coupon.couponMemberId && a.productId != target
                                      && a.coupon.name == notices[0].name)
            && (replaced ==> exists a :: a in old(applied) && a.productId == target
                                         && FirstOnProduct(if moved then DropCoupon(old(applied), coupon.couponMemberId) else old(applied), target, a)
                                         && a.coupon.name == notices[|notices| - 1].name)
    {
      var updated;
      updated, notices := ResolveInSteps(applied, coupon, target);
      ResolvedKeepsWellAssigned(applied, coupon, target);
      ResolvedDiscount(applied, coupon, target, details);
      applied := updated;
      totalDiscount := TotalDiscount(updated, details);
    }
  }
}
