/** The figures the cart view derives from its state: the total discount,
    the subtotal, the discounted total, the shipping fee, the amount due, and
    the per-line order summary written when the order button is pressed. */
module Pricing {
  import opened CartTypes
  import opened Sequences
  import opened CartLines
  import opened Assignments

  /** The fee charged below the free-shipping threshold. */
  const ShippingFee: int := 2500

  /** Orders whose subtotal reaches this amount ship for free. */
  const FreeShippingThreshold: int := 20000

  /** The discount one coupon gives, computed on one unit priced `price`. */
  function UnitDiscount(c: Coupon, price: int): (r: real)
    ensures c.kind.Amount? ==> r == c.kind.value as real
    ensures c.kind.Percent? ==> r * 100.0 == (price * c.kind.percentage) as real
    ensures c.kind.Percent? && price >= 0 && 0 <= c.kind.percentage <= 100 ==> 0.0 <= r <= price as real
  {
    match c.kind
    case Amount(value) => value as real
    case Percent(percentage) =>
      assert price >= 0 && 0 <= percentage <= 100 ==> 0 <= price * percentage <= price * 100;
      (price * percentage) as real / 100.0
  }

  /** The recomputed total discount: each assignment contributes its coupon's
      discount on one unit of its product. Summation order does not matter
      here, since the arithmetic is exact. */
  function TotalDiscount(applied: seq<Assignment>, details: map<ProductId, ProductInfo>): real
  {
    if applied == [] then 0.0
    else UnitDiscount(applied[0].coupon, Price(details, applied[0].productId)) + TotalDiscount(applied[1..], details)
  }

  /** The sum of unit price times quantity over the cart lines. */
  function Subtotal(cart: seq<Line>, details: map<ProductId, ProductInfo>): int
  {
    if cart == [] then 0
    else Price(details, cart[0].id) * cart[0].quantity + Subtotal(cart[1..], details)
  }

  /** The discount `reduce` as the source writes it: a left fold that adds
      each assignment's unit discount to the running total. */
  function DiscountReduce(applied: seq<Assignment>, details: map<ProductId, ProductInfo>, total: real): (r: real)
    ensures r == total + TotalDiscount(applied, details)
  {
    if applied == [] then total
    else DiscountReduce(applied[1..], details, total + UnitDiscount(applied[0].coupon, Price(details, applied[0].productId)))
  }

  /** The subtotal `reduce` of `getTotalPrice` as a left fold. */
  function SubtotalReduce(cart: seq<Line>, details: map<ProductId, ProductInfo>, total: int): (r: int)
    ensures r == total + Subtotal(cart, details)
  {
    if cart == [] then total
    else SubtotalReduce(cart[1..], details, total + Price(details, cart[0].id) * cart[0].quantity)
  }

  /** `getTotalPrice`: the subtotal less the stored total discount. */
  function TotalPrice(cart: seq<Line>, details: map<ProductId, ProductInfo>, totalDiscount: real): (r: real)
    ensures r == SubtotalReduce(cart, details, 0) as real - totalDiscount
  {
    Subtotal(cart, details) as real - totalDiscount
  }

  /** `calculateShippingCost`. The source adds the stored discount back onto
      the discounted total, so the threshold is tested on the subtotal before
      any discount, and the fee never depends on the coupons. */
  function ShippingCost(cart: seq<Line>, details: map<ProductId, ProductInfo>, totalDiscount: real): (r: int)
    ensures r == if |cart| == 0 then 0
                 else if Subtotal(cart, details) < FreeShippingThreshold then ShippingFee
                 else 0
  {
    var totalPrice := TotalPrice(cart, details, totalDiscount) + totalDiscount;
    if |cart| == 0 then 0
    else if totalPrice < FreeShippingThreshold as real then ShippingFee
    else 0
  }

  /** The amount due shown to the shopper: 0 for an empty cart, otherwise the
      discounted total plus shipping, with no clamp at zero. */
  function GrandTotal(cart: seq<Line>, details: map<ProductId, ProductInfo>, totalDiscount: real): (r: real)
    ensures |cart| == 0 ==> r == 0.0
    ensures |cart| > 0 ==> (r < 0.0 <==> totalDiscount > (Subtotal(cart, details) + ShippingCost(cart, details, totalDiscount)) as real)
  {
    if |cart| == 0 then 0.0
    else TotalPrice(cart, details, totalDiscount) + ShippingCost(cart, details, totalDiscount) as real
  }

  /** The discount sum is additive over a split of the applied-coupon list. */
  lemma {:induction false} TotalDiscountAppend(s: seq<Assignment>, t: seq<Assignment>, details: map<ProductId, ProductInfo>)
    ensures TotalDiscount(s + t, details) == TotalDiscount(s, details) + TotalDiscount(t, details)
  {
    if s == [] {
      assert s + t == t;
    } else {
      assert (s + t)[0] == s[0];
      assert (s + t)[1..] == s[1..] + t;
      TotalDiscountAppend(s[1..], t, details);
    }
  }

  /** After coupon `c` is applied to `p`, the total discount is that of the
      assignments left untouched plus `c`'s discount on one unit of `p`. */
  lemma ResolvedDiscount(applied: seq<Assignment>, c: Coupon, p: ProductId, details: map<ProductId, ProductInfo>)
    ensures TotalDiscount(Resolved(applied, c, p), details)
         == TotalDiscount(Unrelated(applied, c.couponMemberId, p), details) + UnitDiscount(c, Price(details, p))
  {
    var kept := Unrelated(applied, c.couponMemberId, p);
    TotalDiscountAppend(kept, [Assignment(c, p)], details);
    assert TotalDiscount([Assignment(c, p)], details) == UnitDiscount(c, Price(details, p)) + TotalDiscount([], details);
  }

  /** Changing the quantity of one line moves the subtotal by that line's unit
      price times the change in quantity. */
  lemma {:induction false} SubtotalAfterQuantityChange(cart: seq<Line>, details: map<ProductId, ProductInfo>, k: nat, q: int)
    requires UniqueLines(cart) && k < |cart|
    ensures Subtotal(SetQuantity(cart, cart[k].id, q), details)
         == Subtotal(cart, details) + Price(details, cart[k].id) * (q - cart[k].quantity)
  {
    var id := cart[k].id;
    var tail := cart[1..];
    assert UniqueLines(tail) by {
      forall i, j | 0 <= i < j < |tail| ensures LineId(tail[i]) != LineId(tail[j]) {
        assert tail[i] == cart[i + 1] && tail[j] == cart[j + 1];
      }
    }
    var r := SetQuantity(cart, id, q);
    assert r[1..] == SetQuantity(tail, id, q);
    if k == 0 {
      forall j | 0 <= j < |tail| ensures tail[j].id != id {
        assert LineId(cart[0]) != LineId(cart[j + 1]);
      }
      SetQuantityAbsent(tail, id, q);
      var price := Price(details, id);
      assert price * q == price * cart[0].quantity + price * (q - cart[0].quantity);
    } else {
      assert cart[0].id != id by {
        assert LineId(cart[0]) != LineId(cart[k]);
      }
      assert tail[k - 1] == cart[k];
      SubtotalAfterQuantityChange(tail, details, k - 1, q);
    }
  }

  /** A line whose product has no fetched details adds nothing to the
      subtotal: removing it leaves the subtotal as it was. */
  lemma UnpricedLineAddsNothing(cart: seq<Line>, details: map<ProductId, ProductInfo>, k: nat)
    requires UniqueLines(cart) && k < |cart| && cart[k].id !in details
    ensures Subtotal(WithoutId(cart, cart[k].id), details) == Subtotal(cart, details)
  {
    SubtotalAfterRemoval(cart, details, k);
  }

  /** Removing one line takes exactly that line's price times quantity off the subtotal. */
  lemma {:induction false} SubtotalAfterRemoval(cart: seq<Line>, details: map<ProductId, ProductInfo>, k: nat)
    requires UniqueLines(cart) && k < |cart|
    ensures Subtotal(WithoutId(cart, cart[k].id), details)
         == Subtotal(cart, details) - Price(details, cart[k].id) * cart[k].quantity
  {
    var id := cart[k].id;
    var tail := cart[1..];
    assert UniqueLines(tail) by {
      forall i, j | 0 <= i < j < |tail| ensures LineId(tail[i]) != LineId(tail[j]) {
        assert tail[i] == cart[i + 1] && tail[j] == cart[j + 1];
      }
    }
    if k == 0 {
      forall x | x in tail ensures OtherThan(id)(x) {
        var j :| 0 <= j < |tail| && tail[j] == x;
        assert LineId(cart[0]) != LineId(cart[j + 1]);
      }
      FilterKeepsAll(tail, OtherThan(id));
      assert !OtherThan(id)(cart[0]);
      assert WithoutId(cart, id) == [] + Filter(tail, OtherThan(id)) == tail;
    } else {
      assert cart[0].id != id by {
        assert LineId(cart[0]) != LineId(cart[k]);
      }
      assert tail[k - 1] == cart[k];
      SubtotalAfterRemoval(tail, details, k - 1);
    }
  }

  /** One entry of the order summary. */
  datatype OrderLine = OrderLine(
    productId: ProductId,
    productName: string,
    quantity: int,
    itemPrice: int,
    originalTotalPrice: int,
    discountedTotalPrice: real,
    couponName: Option<string>,
    couponMemberId: Option<int>)

  /** The order summary reads each line's fetched details without a fallback;
      a line whose details are missing stops it. */
  datatype OrderError = MissingDetails(id: ProductId)

  /** The summary of one cart line: its coupon is the first assignment on its
      product, discounted once, on one unit. */
  function OrderLineFor(item: Line, info: ProductInfo, applied: seq<Assignment>): (r: OrderLine)
    ensures r.productId == item.id && r.productName == info.productName && r.quantity == item.quantity
    ensures r.itemPrice == info.price && r.originalTotalPrice == info.price * item.quantity
    ensures r.couponMemberId.Some? <==> exists a :: a in applied && a.productId == item.id
    ensures r.couponName.Some? <==> r.couponMemberId.Some?
    ensures r.couponMemberId.None? ==> r.discountedTotalPrice == r.originalTotalPrice as real
    ensures r.couponMemberId.Some? ==>
              exists a :: FirstOnProduct(applied, item.id, a) && r.couponMemberId == Some(a.coupon.couponMemberId) &&
                r.couponName == Some(a.coupon.name) &&
                r.discountedTotalPrice == r.originalTotalPrice as real - UnitDiscount(a.coupon, info.price)
  {
    var found := FirstOn(applied, item.id);
    var discount := if found.Some? then UnitDiscount(found.value.coupon, info.price) else 0.0;
    var original := info.price * item.quantity;
    OrderLine(item.id, info.productName, item.quantity, info.price, original, original as real - discount,
              if found.Some? then Some(found.value.coupon.name) else None,
              if found.Some? then Some(found.value.coupon.couponMemberId) else None)
  }

  /** The order summary, one entry per cart line in cart order; it fails on
      the first line whose product details are missing. */
  function OrderLines(cart: seq<Line>, details: map<ProductId, ProductInfo>, applied: seq<Assignment>)
    : (r: Result<seq<OrderLine>, OrderError>)
    ensures r.Success? <==> forall i :: 0 <= i < |cart| ==> cart[i].id in details
    ensures r.Failure? ==> (r.error.id !in details &&
              exists i :: 0 <= i < |cart| && cart[i].id == r.error.id && forall j :: 0 <= j < i ==> cart[j].id in details)
    ensures r.Success? ==> (|r.value| == |cart| &&
              forall i :: 0 <= i < |cart| ==> r.value[i] == OrderLineFor(cart[i], details[cart[i].id], applied))
  {
    if cart == [] then Success([])
    else if cart[0].id !in details then Failure(MissingDetails(cart[0].id))
    else
      match OrderLines(cart[1..], details, applied)
      case Failure(e) =>
        assert exists i :: 1 <= i < |cart| && cart[i].id == e.id && forall j :: 0 <= j < i ==> cart[j].id in details by {
          var i :| 0 <= i < |cart| - 1 && cart[1..][i].id == e.id && forall j :: 0 <= j < i ==> cart[1..][j].id in details;
          assert cart[i + 1].id == e.id;
          forall j | 0 <= j < i + 1 ensures cart[j].id in details {
            if j > 0 { assert cart[j] == cart[1..][j - 1]; }
          }
        }
        Failure(e)
      case Success(rest) =>
        var r := [OrderLineFor(cart[0], details[cart[0].id], applied)] + rest;
        assert forall i :: 1 <= i < |cart| ==> r[i] == rest[i - 1] && cart[i] == cart[1..][i - 1];
        Success(r)
  }

  /** The sum of the discounted line totals of an order summary. */
  function DiscountedSum(lines: seq<OrderLine>): real
  {
    if lines == [] then 0.0 else lines[0].discountedTotalPrice + DiscountedSum(lines[1..])
  }

  /** The discount the order summary gives one product. */
  ghost function LineDiscount(applied: seq<Assignment>, details: map<ProductId, ProductInfo>, id: ProductId): real
  {
    match FirstOn(applied, id)
    case None => 0.0
    case Some(a) => UnitDiscount(a.coupon, Price(details, id))
  }

  /** The discounts the order summary gives, summed over the cart lines. */
  ghost function LinesDiscount(cart: seq<Line>, applied: seq<Assignment>, details: map<ProductId, ProductInfo>): real
  {
    if cart == [] then 0.0 else LineDiscount(applied, details, cart[0].id) + LinesDiscount(cart[1..], applied, details)
  }

  /** The order summary's discounted totals add up to the subtotal less the
      per-line discounts. */
  lemma {:induction false} OrderSumIsSubtotalLessLineDiscounts(cart: seq<Line>, details: map<ProductId, ProductInfo>, applied: seq<Assignment>)
    requires OrderLines(cart, details, applied).Success?
    ensures DiscountedSum(OrderLines(cart, details, applied).value)
         == Subtotal(cart, details) as real - LinesDiscount(cart, applied, details)
  {
    if cart != [] {
      OrderSumIsSubtotalLessLineDiscounts(cart[1..], details, applied);
      var lines := OrderLines(cart, details, applied).value;
      assert lines[1..] == OrderLines(cart[1..], details, applied).value;
    }
  }

  lemma {:induction false} LinesDiscountNone(cart: seq<Line>, details: map<ProductId, ProductInfo>)
    ensures LinesDiscount(cart, [], details) == 0.0
  {
    if cart != [] {
      LinesDiscountNone(cart[1..], details);
    }
  }

  /** An assignment on a product with no line adds nothing to the per-line discounts. */
  lemma {:induction false} LinesDiscountSkip(cart: seq<Line>, a: Assignment, rest: seq<Assignment>, details: map<ProductId, ProductInfo>)
    requires a.productId !in Ids(cart)
    ensures LinesDiscount(cart, [a] + rest, details) == LinesDiscount(cart, rest, details)
  {
    if cart != [] {
      assert ([a] + rest)[1..] == rest;
      LinesDiscountSkip(cart[1..], a, rest, details);
    }
  }

  /** An assignment on a product with exactly one line, and no other
      assignment on that product, adds its own discount once. */
  lemma {:induction false} LinesDiscountTake(cart: seq<Line>, a: Assignment, rest: seq<Assignment>, details: map<ProductId, ProductInfo>)
    requires UniqueLines(cart) && a.productId in Ids(cart) && FirstOn(rest, a.productId).None?
    ensures LinesDiscount(cart, [a] + rest, details)
         == LinesDiscount(cart, rest, details) + UnitDiscount(a.coupon, Price(details, a.productId))
  {
    var tail := cart[1..];
    assert ([a] + rest)[1..] == rest;
    assert UniqueLines(tail) by {
      forall i, j | 0 <= i < j < |tail| ensures LineId(tail[i]) != LineId(tail[j]) {
        assert tail[i] == cart[i + 1] && tail[j] == cart[j + 1];
      }
    }
    if cart[0].id == a.productId {
      forall j | 0 <= j < |tail| ensures tail[j].id != a.productId {
        assert LineId(cart[0]) != LineId(cart[j + 1]);
      }
      LinesDiscountSkip(tail, a, rest, details);
    } else {
      LinesDiscountTake(tail, a, rest, details);
    }
  }

  /** With one line per product, one assignment per product and every
      assignment on a cart line, the per-line discounts add up to the total
      discount. */
  lemma {:induction false} LinesDiscountIsTotal(cart: seq<Line>, applied: seq<Assignment>, details: map<ProductId, ProductInfo>)
    requires UniqueLines(cart) && UniqueBy(applied, ProductOf)
    requires forall a :: a in applied ==> a.productId in Ids(cart)
    ensures LinesDiscount(cart, applied, details) == TotalDiscount(applied, details)
  {
    if applied == [] {
      LinesDiscountNone(cart, details);
    } else {
      var a, rest := applied[0], applied[1..];
      assert applied == [a] + rest;
      assert UniqueBy(rest, ProductOf) by {
        forall i, j | 0 <= i < j < |rest| ensures ProductOf(rest[i]) != ProductOf(rest[j]) {
          assert rest[i] == applied[i + 1] && rest[j] == applied[j + 1];
        }
      }
      forall x | x in rest ensures x.productId != a.productId {
        var j :| 0 <= j < |rest| && rest[j] == x;
        assert ProductOf(applied[0]) != ProductOf(applied[j + 1]);
      }
      assert a in applied;
      LinesDiscountTake(cart, a, rest, details);
      LinesDiscountIsTotal(cart, rest, details);
    }
  }

  /** The order summary agrees with the checkout figure: when every coupon
      sits on a cart line, no product carries two coupons and the stored
      discount is the recomputed one, the discounted line totals add up to
      `getTotalPrice`. */
  lemma OrderMatchesTotalPrice(cart: seq<Line>, details: map<ProductId, ProductInfo>, applied: seq<Assignment>)
    requires OrderLines(cart, details, applied).Success?
    requires UniqueLines(cart) && UniqueBy(applied, ProductOf)
    requires forall a :: a in applied ==> a.productId in Ids(cart)
    ensures DiscountedSum(OrderLines(cart, details, applied).value)
         == TotalPrice(cart, details, TotalDiscount(applied, details))
  {
    OrderSumIsSubtotalLessLineDiscounts(cart, details, applied);
    LinesDiscountIsTotal(cart, applied, details);
  }

  /** Each order entry records the coupon applied to its product, and none
      when its product has no coupon. */
  lemma OrderRecordsCoupon(cart: seq<Line>, details: map<ProductId, ProductInfo>, applied: seq<Assignment>, i: nat, a: Assignment)
    requires OrderLines(cart, details, applied).Success? && i < |cart|
    requires UniqueBy(applied, ProductOf) && a in applied && a.productId == cart[i].id
    ensures OrderLines(cart, details, applied).value[i].couponMemberId == Some(a.coupon.couponMemberId)
    ensures OrderLines(cart, details, applied).value[i].couponName == Some(a.coupon.name)
    ensures OrderLines(cart, details, applied).value[i].discountedTotalPrice
         == (details[cart[i].id].price * cart[i].quantity) as real - UnitDiscount(a.coupon, details[cart[i].id].price)
  {
    var found := FirstOn(applied, cart[i].id);
    var k :| 0 <= k < |applied| && applied[k] == a;
    var m :| 0 <= m < |applied| && applied[m] == found.value;
    assert ProductOf(applied[m]) == ProductOf(applied[k]);
  }

  /** An order entry whose product carries no coupon records no coupon name
      or id and is not discounted. */
  lemma OrderRecordsNoCoupon(cart: seq<Line>, details: map<ProductId, ProductInfo>, applied: seq<Assignment>, i: nat)
    requires OrderLines(cart, details, applied).Success? && i < |cart|
    requires forall a :: a in applied ==> a.productId != cart[i].id
    ensures OrderLines(cart, details, applied).value[i].couponName == None
    ensures OrderLines(cart, details, applied).value[i].couponMemberId == None
    ensures OrderLines(cart, details, applied).value[i].discountedTotalPrice
         == OrderLines(cart, details, applied).value[i].originalTotalPrice as real
  {
  }
}
