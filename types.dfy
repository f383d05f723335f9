/** The data the cart view works with: cart lines, product details, coupons
    and the coupon assignments it keeps per product. */
module CartTypes {

  datatype Option<+T> = None | Some(value: T)

  datatype Result<+T, +E> = Success(value: T) | Failure(error: E)

  /** Product identifiers as they appear in the stored cart. */
  type ProductId = int

  /** One stored cart line: the product and how many units of it. */
  datatype Line = Line(id: ProductId, quantity: int)

  /** The fields of a fetched product that the core reads. */
  datatype ProductInfo = ProductInfo(price: int, productName: string)

  /** The coupon's `type` field: a flat amount or a percentage of the unit price. */
  datatype CouponKind = Amount(value: int) | Percent(percentage: int)

  /** A coupon owned by the member, identified by its `couponMemberId`. */
  datatype Coupon = Coupon(couponMemberId: int, name: string, kind: CouponKind)

  /** A coupon record tagged with the product it is applied to. */
  datatype Assignment = Assignment(coupon: Coupon, productId: ProductId)

  /** The two notices `handleApplyCoupon` raises, carrying the removed coupon's name. */
  datatype Notice =
    | MovedFromOtherProduct(name: string)
    | ReplacedOnThisProduct(name: string)

  /** The unit price the engine uses: a product without details costs 0. */
  function Price(details: map<ProductId, ProductInfo>, id: ProductId): (r: int)
    ensures id in details ==> r == details[id].price
    ensures r == 0 <==> id !in details || details[id].price == 0
  {
    if id in details then details[id].price else 0
  }
}
