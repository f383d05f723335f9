/** Concrete scenarios of the cart view: small carts with their figures
    worked out, and the inputs that show where two handlers as written leave
    the coupons or the stored discount out of step with the cart. */
module Scenarios {
  import opened CartTypes
  import opened Sequences
  import opened CartLines
  import opened Assignments
  import opened Pricing
  import opened Engine

  /** Applying a coupon to an empty list gives the one new assignment. */
  lemma ResolvedOnEmpty(c: Coupon, p: ProductId)
    ensures Resolved([], c, p) == [Assignment(c, p)]
  {
    assert Unrelated([], c.couponMemberId, p) == [];
  }

  /** Two units at 10000 with a 3000 amount coupon: the discounted total is
      17000, but shipping is tested on the undiscounted 20000, so no fee is
      charged and 17000 is due. */
  lemma AmountCouponShipsFree()
    ensures var cart := [Line(1, 2)];
            var details := map[1 := ProductInfo(10000, "p1")];
            var td := TotalDiscount(Resolved([], Coupon(11, "c1", Amount(3000)), 1), details);
            && td == 3000.0
            && Subtotal(cart, details) == 20000
            && TotalPrice(cart, details, td) == 17000.0
            && ShippingCost(cart, details, td) == 0
            && GrandTotal(cart, details, td) == 17000.0
  {
    ResolvedOnEmpty(Coupon(11, "c1", Amount(3000)), 1);
  }

  /** A 10% coupon on three units at 5000 takes 10% of one unit, 500, off
      the subtotal of 15000; below the threshold the fee is charged. */
  lemma PercentCouponOnUnitPrice()
    ensures var cart := [Line(1, 3)];
            var details := map[1 := ProductInfo(5000, "p1")];
            var td := TotalDiscount(Resolved([], Coupon(12, "c2", Percent(10)), 1), details);
            && td == 500.0
            && Subtotal(cart, details) == 15000
            && ShippingCost(cart, details, td) == ShippingFee
            && GrandTotal(cart, details, td) == 17000.0
  {
    ResolvedOnEmpty(Coupon(12, "c2", Percent(10)), 1);
  }

  /** An empty cart ships free and shows nothing due, whatever discount is
      stored. */
  lemma EmptyCartOwesNothing(details: map<ProductId, ProductInfo>, td: real)
    ensures ShippingCost([], details, td) == 0 && GrandTotal([], details, td) == 0.0
  {
  }

  /** The amount due is not clamped: a 5000 coupon on one unit at 1000
      leaves a discounted total of -4000, and with the 2500 fee -1500 is
      due. */
  lemma AmountDueCanBeNegative()
    ensures var cart := [Line(1, 1)];
            var details := map[1 := ProductInfo(1000, "p1")];
            var td := TotalDiscount(Resolved([], Coupon(13, "c3", Amount(5000)), 1), details);
            GrandTotal(cart, details, td) == -1500.0
  {
    ResolvedOnEmpty(Coupon(13, "c3", Amount(5000)), 1);
  }

  /** A coupon applied over a single assignment that carries it or sits on
      the same product leaves only the new assignment. */
  lemma ResolvedOverSingle(x: Assignment, c: Coupon, p: ProductId)
    requires x.coupon.couponMemberId == c.couponMemberId || x.productId == p
    ensures Resolved([x], c, p) == [Assignment(c, p)]
  {
    var s := [x];
    assert s[1..] == [];
    assert Filter(s, NeitherCouponNorProduct(c.couponMemberId, p)) == [] + Filter(s[1..], NeitherCouponNorProduct(c.couponMemberId, p));
  }

  /** Coupon c1, on p1, applied to p2 moves to p2, leaves p1 with none and
      raises the "moved" notice naming c1. */
  method MoveToOtherProduct() returns (moved: seq<Assignment>, notices: seq<Notice>)
    ensures moved == [Assignment(Coupon(11, "c1", Amount(3000)), 2)]
    ensures notices == [MovedFromOtherProduct("c1")]
  {
    var c1 := Coupon(11, "c1", Amount(3000));
    var first := [Assignment(c1, 1)];
    moved, notices := ResolveInSteps(first, c1, 2);
    assert HeldElsewhere(first, 11, 2) by { assert first[0] in first; }
    assert !ReplacesOnTarget(first, 11, 2);
    ResolvedOverSingle(first[0], c1, 2);
  }

  /** Coupon c2 applied to p2, which carries c1, replaces it and raises the
      "replaced" notice naming c1. */
  method ReplaceOnProduct() returns (replaced: seq<Assignment>, notices: seq<Notice>)
    ensures replaced == [Assignment(Coupon(12, "c2", Percent(10)), 2)]
    ensures notices == [ReplacedOnThisProduct("c1")]
  {
    var c2 := Coupon(12, "c2", Percent(10));
    var before := [Assignment(Coupon(11, "c1", Amount(3000)), 2)];
    replaced, notices := ResolveInSteps(before, c2, 2);
    assert !HeldElsewhere(before, 12, 2);
    assert ReplacesOnTarget(before, 12, 2) by { assert before[0] in before; }
    ResolvedOverSingle(before[0], c2, 2);
  }

  /** The fetched details of the two-product cart the scenarios below use. */
  function TwoProducts(): map<ProductId, ProductInfo>
  {
    map[1 := ProductInfo(10000, "p1"), 2 := ProductInfo(8000, "p2")]
  }

  /** A view over the two-product cart with its details loaded. */
  method LoadedTwo() returns (e: CartEngine)
    ensures fresh(e) && e.Valid() && e.applied == [] && e.totalDiscount == 0.0
    ensures e.cart == [Line(1, 1), Line(2, 1)] && e.selected == {}
    ensures Price(e.details, 1) == 10000 && Price(e.details, 2) == 8000
  {
    e := new CartEngine([Line(1, 1), Line(2, 1)]);
    assert 1 in Ids(e.cart) && 2 in Ids(e.cart);
    e.LoadProductDetails(TwoProducts());
  }

  /** The same view with coupon `c` put on product 1. */
  method CouponOnFirstOfTwo(c: Coupon) returns (e: CartEngine)
    ensures fresh(e) && e.Valid() && e.CouponsOnCart()
    ensures e.cart == [Line(1, 1), Line(2, 1)] && e.selected == {}
    ensures Price(e.details, 2) == 8000
    ensures e.applied == [Assignment(c, 1)] && e.totalDiscount == UnitDiscount(c, 10000)
  {
    e := LoadedTwo();
    var notices := e.ApplyCoupon(c, 1);
    ResolvedOnEmpty(c, 1);
    assert Unrelated([], c.couponMemberId, 1) == [];
  }

  /** Removing a line whose product carries a coupon, as written: the coupon
      leaves with the line but the stored discount keeps counting it, so the
      shown total stays 3000 below the 8000 subtotal of what is left. */
  method StaleDiscountAfterRemoval() returns (stored: real, current: real, shown: real)
    ensures stored == 3000.0 && current == 0.0 && shown == 5000.0
  {
    var c := Coupon(11, "c1", Amount(3000));
    var e := CouponOnFirstOfTwo(c);
    e.RemoveFromCart(1);
    DropProductEmptied(c, 1);
    RemoveFirstOfTwo();
    stored := e.totalDiscount;
    current := TotalDiscount(e.applied, e.details);
    shown := TotalPrice(e.cart, e.details, e.totalDiscount);
    assert Subtotal([Line(2, 1)], e.details) == 8000 by { assert [Line(2, 1)][1..] == []; }
  }

  /** The recomputing removal in the same scenario shows the full 8000. */
  method RecomputedDiscountAfterRemoval() returns (stored: real, shown: real)
    ensures stored == 0.0 && shown == 8000.0
  {
    var c := Coupon(11, "c1", Amount(3000));
    var e := CouponOnFirstOfTwo(c);
    e.RemoveFromCartAndRecompute(1);
    DropProductEmptied(c, 1);
    RemoveFirstOfTwo();
    stored := e.totalDiscount;
    shown := TotalPrice(e.cart, e.details, e.totalDiscount);
    assert Subtotal([Line(2, 1)], e.details) == 8000 by { assert [Line(2, 1)][1..] == []; }
  }

  /** Removing the selected products, as written: the product's line goes
      but its coupon stays applied and still counts in the discount. */
  method OrphanedCouponAfterRemoveSelected() returns (lines: seq<Line>, orphans: seq<Assignment>, discount: real)
    ensures lines == [Line(2, 1)]
    ensures orphans == [Assignment(Coupon(11, "c1", Amount(3000)), 1)] && discount == 3000.0
    ensures forall a :: a in orphans ==> a.productId !in Ids(lines)
  {
    var c := Coupon(11, "c1", Amount(3000));
    var e := CouponOnFirstOfTwo(c);
    e.ToggleSelected(1);
    e.RemoveSelected();
    RemoveFirstOfTwo();
    lines := e.cart;
    orphans := e.applied;
    discount := e.totalDiscount;
  }

  /** The corrected removal of the selection in the same scenario drops the coupon. */
  method CouponDroppedWithSelection() returns (lines: seq<Line>, kept: seq<Assignment>, discount: real)
    ensures lines == [Line(2, 1)] && kept == [] && discount == 0.0
  {
    var c := Coupon(11, "c1", Amount(3000));
    var e := CouponOnFirstOfTwo(c);
    e.ToggleSelected(1);
    e.RemoveSelectedWithCoupons();
    RemoveFirstOfTwo();
    lines := e.cart;
    kept := e.applied;
    discount := e.totalDiscount;
    assert kept == Filter([Assignment(c, 1)], (a: Assignment) => a.productId !in {1});
  }

  /** Taking the coupon's product off leaves no assignment. */
  lemma DropProductEmptied(c: Coupon, p: ProductId)
    ensures DropProduct([Assignment(c, p)], p) == []
  {
    var s := [Assignment(c, p)];
    assert s[1..] == [];
    assert Filter(s, NotOnProduct(p)) == [] + Filter(s[1..], NotOnProduct(p));
  }

  /** Removing product 1 from the two-product cart leaves product 2's line. */
  lemma RemoveFirstOfTwo()
    ensures WithoutId([Line(1, 1), Line(2, 1)], 1) == [Line(2, 1)]
    ensures WithoutIds([Line(1, 1), Line(2, 1)], {1}) == [Line(2, 1)]
  {
    var cart := [Line(1, 1), Line(2, 1)];
    assert cart[1..] == [Line(2, 1)];
    assert cart[1..][1..] == [];
  }
}
