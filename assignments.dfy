/** The applied-coupon list and the conflict resolution `handleApplyCoupon`
    performs on it: a coupon sits on at most one product, a product carries at
    most one coupon. */
module Assignments {
  import opened CartTypes
  import opened Sequences

  function ProductOf(a: Assignment): ProductId { a.productId }

  function CouponIdOf(a: Assignment): int { a.coupon.couponMemberId }

  /** No two assignments target the same product, and no two carry the same coupon. */
  ghost predicate WellAssigned(applied: seq<Assignment>)
  {
    UniqueBy(applied, ProductOf) && UniqueBy(applied, CouponIdOf)
  }

  /** Coupon `id` is applied to some product other than `p`. */
  ghost predicate HeldElsewhere(applied: seq<Assignment>, id: int, p: ProductId)
  {
    exists a :: a in applied && a.coupon.couponMemberId == id && a.productId != p
  }

  /** After step (1) of applying coupon `id` to `p`, some assignment is still
      on `p`: one with another coupon, or one with `id` itself when step (1)
      removed nothing. */
  ghost predicate ReplacesOnTarget(applied: seq<Assignment>, id: int, p: ProductId)
  {
    exists a :: a in applied && a.productId == p &&
      (a.coupon.couponMemberId != id || !HeldElsewhere(applied, id, p))
  }

  function NotOnProduct(p: ProductId): Assignment -> bool
  {
    (a: Assignment) => a.productId != p
  }

  function NotCoupon(id: int): Assignment -> bool
  {
    (a: Assignment) => a.coupon.couponMemberId != id
  }

  function NeitherCouponNorProduct(id: int, p: ProductId): Assignment -> bool
  {
    (a: Assignment) => a.coupon.couponMemberId != id && a.productId != p
  }

  /** The list without the assignments that target product `p`. */
  function DropProduct(applied: seq<Assignment>, p: ProductId): (r: seq<Assignment>)
    ensures forall a :: a in r <==> a in applied && a.productId != p
  {
    var r := Filter(applied, NotOnProduct(p));
    assert forall a :: a in r ==> a in applied && a.productId != p by {
      forall a | a in r ensures a in applied && a.productId != p {
        var i :| 0 <= i < |r| && r[i] == a;
      }
    }
    assert forall a :: a in applied && a.productId != p ==> a in r by {
      forall a | a in applied && a.productId != p ensures a in r {
        var i :| 0 <= i < |applied| && applied[i] == a;
      }
    }
    r
  }

  /** The list without the assignments that carry coupon `id`. */
  function DropCoupon(applied: seq<Assignment>, id: int): (r: seq<Assignment>)
    ensures forall a :: a in r <==> a in applied && a.coupon.couponMemberId != id
  {
    var r := Filter(applied, NotCoupon(id));
    assert forall a :: a in r ==> a in applied && a.coupon.couponMemberId != id by {
      forall a | a in r ensures a in applied && a.coupon.couponMemberId != id {
        var i :| 0 <= i < |r| && r[i] == a;
      }
    }
    assert forall a :: a in applied && a.coupon.couponMemberId != id ==> a in r by {
      forall a | a in applied && a.coupon.couponMemberId != id ensures a in r {
        var i :| 0 <= i < |applied| && applied[i] == a;
      }
    }
    r
  }

  /** The assignments that neither carry coupon `id` nor target product `p`,
      in their original order. */
  function Unrelated(applied: seq<Assignment>, id: int, p: ProductId): (r: seq<Assignment>)
    ensures forall a :: a in r <==> a in applied && a.coupon.couponMemberId != id && a.productId != p
  {
    var r := Filter(applied, NeitherCouponNorProduct(id, p));
    assert forall a :: a in r ==> a in applied && a.coupon.couponMemberId != id && a.productId != p by {
      forall a | a in r ensures a in applied && a.coupon.couponMemberId != id && a.productId != p {
        var i :| 0 <= i < |r| && r[i] == a;
      }
    }
    assert forall a :: a in applied && a.coupon.couponMemberId != id && a.productId != p ==> a in r by {
      forall a | a in applied && a.coupon.couponMemberId != id && a.productId != p ensures a in r {
        var i :| 0 <= i < |applied| && applied[i] == a;
      }
    }
    r
  }

  /** `a` is in the list, carries coupon `id` on a product other than `p`,
      and is the earliest assignment that does. */
  ghost predicate FirstHeldElsewhere(applied: seq<Assignment>, id: int, p: ProductId, a: Assignment)
  {
    exists k :: 0 <= k < |applied| && applied[k] == a &&
      a.coupon.couponMemberId == id && a.productId != p &&
      (forall j :: 0 <= j < k ==> !(applied[j].coupon.couponMemberId == id && applied[j].productId != p))
  }

  /** `a` is in the list, sits on product `p`, and is the earliest
      assignment that does. */
  ghost predicate FirstOnProduct(applied: seq<Assignment>, p: ProductId, a: Assignment)
  {
    exists k :: 0 <= k < |applied| && applied[k] == a && a.productId == p &&
      (forall j :: 0 <= j < k ==> applied[j].productId != p)
  }

  /** The first assignment that carries coupon `id` on a product other than `p`
      (the `find` of the duplicate check). */
  function FirstElsewhere(applied: seq<Assignment>, id: int, p: ProductId): (r: Option<Assignment>)
    ensures r.None? <==> !HeldElsewhere(applied, id, p)
    ensures r.Some? ==> r.value in applied && r.value.coupon.couponMemberId == id && r.value.productId != p
    ensures r.Some? ==> FirstHeldElsewhere(applied, id, p, r.value)
  {
    if applied == [] then None
    else if applied[0].coupon.couponMemberId == id && applied[0].productId != p then Some(applied[0])
    else
      var r := FirstElsewhere(applied[1..], id, p);
      assert forall a :: a in applied ==> a == applied[0] || a in applied[1..];
      assert r.Some? ==> FirstHeldElsewhere(applied, id, p, r.value) by {
        if r.Some? {
          var k :| 0 <= k < |applied| - 1 && applied[1..][k] == r.value &&
            (forall j :: 0 <= j < k ==> !(applied[1..][j].coupon.couponMemberId == id && applied[1..][j].productId != p));
          assert applied[k + 1] == r.value;
          forall j | 0 <= j < k + 1 ensures !(applied[j].coupon.couponMemberId == id && applied[j].productId != p) {
            if j > 0 { assert applied[j] == applied[1..][j - 1]; }
          }
        }
      }
      r
  }

  /** The first assignment that targets product `p`. */
  function FirstOn(applied: seq<Assignment>, p: ProductId): (r: Option<Assignment>)
    ensures r.None? <==> forall a :: a in applied ==> a.productId != p
    ensures r.Some? ==> r.value in applied && r.value.productId == p
    ensures r.Some? ==> FirstOnProduct(applied, p, r.value)
  {
    if applied == [] then None
    else if applied[0].productId == p then Some(applied[0])
    else
      var r := FirstOn(applied[1..], p);
      assert forall a :: a in applied ==> a == applied[0] || a in applied[1..];
      assert r.Some? ==> FirstOnProduct(applied, p, r.value) by {
        if r.Some? {
          var k :| 0 <= k < |applied| - 1 && applied[1..][k] == r.value &&
            (forall j :: 0 <= j < k ==> applied[1..][j].productId != p);
          assert applied[k + 1] == r.value;
          forall j | 0 <= j < k + 1 ensures applied[j].productId != p {
            if j > 0 { assert applied[j] == applied[1..][j - 1]; }
          }
        }
      }
      r
  }

  /** The applied-coupon list after coupon `c` is applied to product `p`:
      every assignment that neither carries `c` nor targets `p`, in order,
      followed by the new assignment. Exactly one assignment then carries
      `c`'s id, exactly one targets `p`, and both are the new one. */
  function Resolved(applied: seq<Assignment>, c: Coupon, p: ProductId): (r: seq<Assignment>)
    ensures |r| >= 1 && r[|r| - 1] == Assignment(c, p)
    ensures forall i :: 0 <= i < |r| ==> (r[i].coupon.couponMemberId == c.couponMemberId <==> i == |r| - 1)
    ensures forall i :: 0 <= i < |r| ==> (r[i].productId == p <==> i == |r| - 1)
    ensures forall a :: a in r[..|r| - 1] <==>
              a in applied && a.coupon.couponMemberId != c.couponMemberId && a.productId != p
    ensures r[..|r| - 1] == Unrelated(applied, c.couponMemberId, p)
  {
    var kept := Unrelated(applied, c.couponMemberId, p);
    var r := kept + [Assignment(c, p)];
    assert r[..|r| - 1] == kept;
    assert forall i :: 0 <= i < |r| - 1 ==> r[i] in kept;
    r
  }

  /** The unrelated assignments of a concatenation are those of each part,
      part by part: dropping assignments never reorders the rest. */
  lemma UnrelatedAppend(s: seq<Assignment>, t: seq<Assignment>, id: int, p: ProductId)
    ensures Unrelated(s + t, id, p) == Unrelated(s, id, p) + Unrelated(t, id, p)
  {
    FilterAppend(s, t, NeitherCouponNorProduct(id, p));
  }

  /** A single assignment is unrelated, and kept, exactly when it neither
      carries coupon `id` nor sits on `p`. */
  lemma UnrelatedSingle(a: Assignment, id: int, p: ProductId)
    ensures Unrelated([a], id, p) == if a.coupon.couponMemberId != id && a.productId != p then [a] else []
  {
    FilterSingle(a, NeitherCouponNorProduct(id, p));
  }

  /** When coupon `id` is held by another product, the source first drops
      every assignment carrying it and then every assignment on `p`; what is
      left is the unrelated assignments. */
  lemma DropCouponThenProduct(applied: seq<Assignment>, id: int, p: ProductId)
    ensures DropProduct(DropCoupon(applied, id), p) == Unrelated(applied, id, p)
  {
    FilterFilter(applied, NotCoupon(id), NotOnProduct(p), NeitherCouponNorProduct(id, p));
  }

  /** When coupon `id` is not held by another product, dropping the
      assignments on `p` alone leaves the unrelated assignments. */
  lemma DropProductOnly(applied: seq<Assignment>, id: int, p: ProductId)
    requires !HeldElsewhere(applied, id, p)
    ensures DropProduct(applied, p) == Unrelated(applied, id, p)
  {
    FilterSame(applied, NotOnProduct(p), NeitherCouponNorProduct(id, p));
  }

  /** Dropping the assignments of a product that has none changes nothing. */
  lemma DropAbsentProduct(applied: seq<Assignment>, p: ProductId)
    requires FirstOn(applied, p).None?
    ensures DropProduct(applied, p) == applied
  {
    FilterKeepsAll(applied, NotOnProduct(p));
  }

  /** Dropping a product's assignments a second time changes nothing. */
  lemma DropProductTwice(applied: seq<Assignment>, p: ProductId)
    ensures DropProduct(DropProduct(applied, p), p) == DropProduct(applied, p)
  {
    FilterFilter(applied, NotOnProduct(p), NotOnProduct(p), NotOnProduct(p));
  }

  /** Dropping a product's assignments keeps the list well assigned. */
  lemma DropProductKeepsWellAssigned(applied: seq<Assignment>, p: ProductId)
    requires WellAssigned(applied)
    ensures WellAssigned(DropProduct(applied, p))
  {
    FilterKeepsUnique(applied, NotOnProduct(p), ProductOf);
    FilterKeepsUnique(applied, NotOnProduct(p), CouponIdOf);
  }

  /** Applying a coupon keeps the list well assigned: with the old list free
      of duplicate products and duplicate coupons, so is the new one. */
  lemma ResolvedKeepsWellAssigned(applied: seq<Assignment>, c: Coupon, p: ProductId)
    requires WellAssigned(applied)
    ensures WellAssigned(Resolved(applied, c, p))
  {
    var kept := Unrelated(applied, c.couponMemberId, p);
    FilterKeepsUnique(applied, NeitherCouponNorProduct(c.couponMemberId, p), ProductOf);
    FilterKeepsUnique(applied, NeitherCouponNorProduct(c.couponMemberId, p), CouponIdOf);
    var r := Resolved(applied, c, p);
    assert r == kept + [Assignment(c, p)];
    forall i, j | 0 <= i < j < |r| ensures ProductOf(r[i]) != ProductOf(r[j]) && CouponIdOf(r[i]) != CouponIdOf(r[j]) {
      if j < |r| - 1 {
        assert r[i] == kept[i] && r[j] == kept[j];
      }
    }
  }

  /** Step (2) of applying a coupon finds an assignment on the target exactly
      when `ReplacesOnTarget` holds of the list before step (1). */
  lemma ReplacedNotice(applied: seq<Assignment>, id: int, p: ProductId)
    ensures FirstOn(if HeldElsewhere(applied, id, p) then DropCoupon(applied, id) else applied, p).Some?
            <==> ReplacesOnTarget(applied, id, p)
  {
    var s1 := if HeldElsewhere(applied, id, p) then DropCoupon(applied, id) else applied;
    if FirstOn(s1, p).Some? {
      var a := FirstOn(s1, p).value;
      assert a in applied && a.productId == p;
    }
    if ReplacesOnTarget(applied, id, p) {
      var a :| a in applied && a.productId == p &&
        (a.coupon.couponMemberId != id || !HeldElsewhere(applied, id, p));
      assert a in s1;
    }
  }

  /** The three steps of `handleApplyCoupon` on the applied-coupon list, in
      the source's order, with the alerts they raise: (1) if coupon `c` is
      held by another product, every assignment carrying it is dropped;
      (2) if some assignment is on `target`, every assignment on it is
      dropped; (3) the new assignment is appended. */
  method ResolveInSteps(applied: seq<Assignment>, c: Coupon, target: ProductId)
    returns (updated: seq<Assignment>, notices: seq<Notice>)
    ensures updated == Resolved(applied, c, target)
    ensures var moved := HeldElsewhere(applied, c.couponMemberId, target);
            var replaced := ReplacesOnTarget(applied, c.couponMemberId, target);
            && |notices| == (if moved then 1 else 0) + (if replaced then 1 else 0)
            && (forall i :: 0 <= i < |notices| ==> (notices[i].MovedFromOtherProduct? <==> moved && i == 0))
            && (moved ==> exists a :: a in applied && FirstHeldElsewhere(applied, c.couponMemberId, target, a)
                                      && a.coupon.couponMemberId == c.couponMemberId && a.productId != target
                                      && a.coupon.name == notices[0].name)
            && (replaced ==> exists a :: a in applied && a.productId == target
                                         && FirstOnProduct(if moved then DropCoupon(applied, c.couponMemberId) else applied, target, a)
                                         && a.coupon.name == notices[|notices| - 1].name)
  {
    updated := applied;
    notices := [];
    var duplicate := FirstElsewhere(updated, c.couponMemberId, target);
    if duplicate.Some? {
      updated := DropCoupon(updated, c.couponMemberId);
      notices := notices + [MovedFromOtherProduct(duplicate.value.coupon.name)];
      DropCouponThenProduct(applied, c.couponMemberId, target);
    } else {
      DropProductOnly(applied, c.couponMemberId, target);
    }
    ReplacedNotice(applied, c.couponMemberId, target);
    var existing := FirstOn(updated, target);
    if existing.Some? {
      assert existing.value in applied;
      updated := DropProduct(updated, target);
      notices := notices + [ReplacedOnThisProduct(existing.value.coupon.name)];
    } else {
      DropAbsentProduct(updated, target);
    }
    updated := updated + [Assignment(c, target)];
  }
}
