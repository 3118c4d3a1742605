/**
 * What a quote comes to, stated apart from how it is computed: each rate is the least whole number
 * of paise that its layer, the margin floor and the cost allow, and a coupon takes the most it may.
 */
module QuoteRules {
  import opened Results
  import opened Rounding
  import opened PriceMath
  import opened Keys
  import opened Pricing

  // ---------------------------------------------------------------- rates

  function Percent(percent: Option<real>): real {
    if percent.Some? then percent.value else 0.0
  }

  function Fixed(fixed: Option<int>): real {
    if fixed.Some? then fixed.value as real else 0.0
  }

  /** The cost raised by a row's percentage, plus its fixed amount. */
  function RowPrice(cost: int, percent: Option<real>, fixed: Option<int>): real {
    cost as real * (1.0 + Percent(percent) / 100.0) + Fixed(fixed)
  }

  /** What the first layer that is set asks per 1,000, before rounding and margin. */
  function ListPrice(o: Offer): (real, Layer) {
    if o.userStar.Some? then (o.userStar.value as real, StarLayer)
    else if o.globalStar.Some? then (o.globalStar.value as real, StarLayer)
    else if o.service.percent.Some? || o.service.fixed.Some? then
      (RowPrice(o.cost, o.service.percent, o.service.fixed), ServiceLayer)
    else if o.category.percent.Some? || o.category.fixed.Some? then
      (RowPrice(o.cost, o.category.percent, o.category.fixed), CategoryLayer)
    else if o.provider.percent.Some? || o.provider.fixed.Some? then
      (RowPrice(o.cost, o.provider.percent, o.provider.fixed), ProviderLayer)
    else (RowPrice(o.cost, Some(o.globalPercent), Some(0)), GlobalLayer)
  }

  /** A rate that covers the cost and leaves the margin, where a negative margin asks for nothing. */
  predicate Leaves(cost: int, margin: real, rate: int) {
    && rate >= cost
    && rate as real >= cost as real * (1.0 + (if margin < 0.0 then 0.0 else margin) / 100.0)
  }

  /** The basis points off the retail rate: 1,200 by default, never negative and never more than 9,000. */
  function BasisPoints(discountBp: int): int {
    if discountBp == 0 then 1200 else if discountBp < 0 then 0 else if discountBp > 9000 then 9000 else discountBp
  }

  lemma FloorIsLeast(cost: int, margin: real, n: int)
    ensures MarginFloor(cost, margin) <= n <==> Leaves(cost, margin, n)
  {
    CeilIsLeast(cost as real * (1.0 + (if margin < 0.0 then 0.0 else margin) / 100.0), n);
  }

  lemma MarkupIsLeast(cost: int, percent: Option<real>, fixed: Option<int>, n: int)
    ensures ApplyMarkup(cost, percent, fixed) <= n <==> n as real >= RowPrice(cost, percent, fixed)
  {
    CeilIsLeast(RowPrice(cost, percent, fixed), n);
  }

  /** The retail rate is the least that the deciding layer, the margin and the cost allow. */
  lemma RetailIsLeast(o: Offer, n: int)
    ensures ResolveSellRate(o).0 <= n <==> n as real >= ListPrice(o).0 && Leaves(o.cost, o.minMargin, n)
    ensures ResolveSellRate(o).1 == ListPrice(o).1
  {
    FloorIsLeast(o.cost, o.minMargin, n);
    MarkupIsLeast(o.cost, o.service.percent, o.service.fixed, n);
    MarkupIsLeast(o.cost, o.category.percent, o.category.fixed, n);
    MarkupIsLeast(o.cost, o.provider.percent, o.provider.fixed, n);
    MarkupIsLeast(o.cost, Some(o.globalPercent), Some(0), n);
    hide MarginFloor, ApplyMarkup, Leaves, RowPrice;
  }

  lemma ResellerIsLeast(cost: int, retail: int, discountBp: int, n: int)
    ensures ApplyResellerRate(cost, retail, discountBp) <= n
       <==> n * 10000 >= retail * (10000 - BasisPoints(discountBp)) && Leaves(cost, 10.0, n)
  {
    FloorIsLeast(cost, 10.0, n);
    CeilDivIsLeast(retail * (10000 - BasisPoints(discountBp)), 10000, n);
    hide MarginFloor, Leaves, CeilDiv;
  }

  lemma ScaledIsLeast(rate: int, quantity: int, n: int)
    requires quantity > 0
    ensures ScaleToQty(rate, quantity) <= n <==> n * 1000 >= rate * quantity
  {
    CeilDivIsLeast(rate * quantity, 1000, n);
  }

  // ---------------------------------------------------------------- coupons

  /** The coupon may be used by this buyer on this subtotal now. */
  predicate Usable(
    coupons: map<Code, Coupon>, redemptions: set<Redemption>, code: Code, user: UserId, subtotal: int, now: int
  ) {
    && code in coupons
    && var c := coupons[code];
       && c.active
       && (c.expiresAt.Some? ==> now <= c.expiresAt.value)
       && (c.minOrder != 0 ==> c.minOrder <= subtotal)
       && (c.maxUses.Some? ==> c.usedCount < c.maxUses.value)
       && (c.perUserLimit != 0 ==>
            |set r | r in redemptions && r.code == code && r.user == user| < c.perUserLimit)
  }

  /** Taking `off` from the subtotal is no more than the coupon promises. */
  predicate Promised(d: Discount, subtotal: int, off: int) {
    match d
    case PercentOff(percent) => off as real * 100.0 <= subtotal as real * percent
    case AmountOff(paise) => off <= paise
  }

  /** A coupon is accepted exactly when it is usable, and offers the most it promises within the subtotal. */
  lemma CouponAnswers(
    coupons: map<Code, Coupon>, redemptions: set<Redemption>, code: Code, user: UserId, subtotal: int, now: int,
      off: int
  )
    requires subtotal >= 0
    ensures ApplyCoupon(coupons, redemptions, code, user, subtotal, now).Success?
       <==> Usable(coupons, redemptions, code, user, subtotal, now)
    ensures Usable(coupons, redemptions, code, user, subtotal, now) ==>
              (off <= ApplyCoupon(coupons, redemptions, code, user, subtotal, now).value
               <==> off <= 0 || (off <= subtotal && Promised(coupons[code].discount, subtotal, off)))
  {
    assert RedeemedBy(redemptions, code, user) == set r | r in redemptions && r.code == code && r.user == user;
    if code in coupons && coupons[code].discount.PercentOff? {
      FloorIsMost(subtotal as real * coupons[code].discount.percent / 100.0, off);
    }
  }

  lemma FloorIsMost(x: real, n: int)
    ensures n <= x.Floor <==> n as real <= x
  {
  }

  // ---------------------------------------------------------------- quotes

  /** The margin a coupon may not eat into: the offer's, and for resellers at least 10%. */
  function ProtectedMargin(o: Offer): real {
    if o.resellerBp.Some? && o.minMargin < 10.0 then 10.0 else o.minMargin
  }

  /** A quote is given exactly for an active service, a quantity it sells, and no coupon or a usable one. */
  lemma QuoteAnswers(
    o: Offer, quantity: int, code: Option<Code>, user: UserId,
    coupons: map<Code, Coupon>, redemptions: set<Redemption>, now: int
  )
    ensures var plain := QuoteOrder(o, quantity, None, user, coupons, redemptions, now);
            && (plain.Success? <==> o.active && o.minQty <= quantity <= o.maxQty)
            && (QuoteOrder(o, quantity, code, user, coupons, redemptions, now).Success? <==>
                  && plain.Success?
                  && (code.Some? ==> Usable(coupons, redemptions, code.value, user, plain.value.subtotal, now)))
  {
    hide ResolveSellRate, ApplyResellerRate, MarginFloor, CapDiscountToFloor, ApplyCoupon, Usable;
    var plain := QuoteOrder(o, quantity, None, user, coupons, redemptions, now);
    if plain.Success? && code.Some? {
      SubtotalsArePositive(o, quantity, user, coupons, redemptions, now);
      CouponAnswers(coupons, redemptions, code.value, user, plain.value.subtotal, now, 0);
    }
  }

  lemma SubtotalsArePositive(
    o: Offer, quantity: int, user: UserId, coupons: map<Code, Coupon>, redemptions: set<Redemption>, now: int
  )
    requires QuoteOrder(o, quantity, None, user, coupons, redemptions, now).Success?
    ensures QuoteOrder(o, quantity, None, user, coupons, redemptions, now).value.subtotal >= 0
  {
    var q := QuoteOrder(o, quantity, None, user, coupons, redemptions, now).value;
    SellCoversCost(o);
    hide ResolveSellRate, ApplyResellerRate, MarginFloor;
    if quantity > 0 { ScaledIsLeast(q.sellPer1000, quantity, -1); }
  }

  lemma SellCoversCost(o: Offer)
    ensures ResolveSellRate(o).0 >= o.cost
    ensures o.resellerBp.Some? ==> ApplyResellerRate(o.cost, ResolveSellRate(o).0, o.resellerBp.value) >= o.cost
  {
    RatesCoverCost(o);
    if o.resellerBp.Some? {
      ResellerIsLeast(o.cost, ResolveSellRate(o).0, o.resellerBp.value,
        ApplyResellerRate(o.cost, ResolveSellRate(o).0, o.resellerBp.value));
    }
    hide ResolveSellRate, ApplyResellerRate;
  }

  /**
   * Every number of a quote: the retail rate, the rate this buyer gets, the amounts at the quantity,
   * and the discount, which is the largest that the coupon promises and the margin floor leaves.
   */
  lemma QuoteIsLeast(
    o: Offer, quantity: int, code: Option<Code>, user: UserId,
    coupons: map<Code, Coupon>, redemptions: set<Redemption>, now: int, n: int
  )
    requires QuoteOrder(o, quantity, code, user, coupons, redemptions, now).Success?
    ensures var q := QuoteOrder(o, quantity, code, user, coupons, redemptions, now).value;
            && (q.retailPer1000 <= n <==> n as real >= ListPrice(o).0 && Leaves(o.cost, o.minMargin, n))
            && q.layer == ListPrice(o).1 && (q.reseller <==> o.resellerBp.Some?)
            && (q.sellPer1000 <= n <==>
                  if o.resellerBp.Some? then
                    && n * 10000 >= q.retailPer1000 * (10000 - BasisPoints(o.resellerBp.value))
                    && Leaves(o.cost, 10.0, n)
                  else q.retailPer1000 <= n)
            && (quantity > 0 ==> (q.subtotal <= n <==> n * 1000 >= q.sellPer1000 * quantity))
            && (quantity > 0 ==> (q.cost <= n <==> n * 1000 >= o.cost * quantity))
            && (quantity <= 0 ==> q.subtotal == q.cost == 0)
            && q.charge == q.subtotal - q.discount
  {
    RetailIsLeast(o, n);
    SellCoversCost(o);
    QuoteKeepsMargin(o, quantity, code, user, coupons, redemptions, now);
    var q := QuoteOrder(o, quantity, code, user, coupons, redemptions, now).value;
    if o.resellerBp.Some? { ResellerIsLeast(o.cost, q.retailPer1000, o.resellerBp.value, n); }
    if quantity > 0 {
      ScaledIsLeast(q.sellPer1000, quantity, n);
      ScaledIsLeast(o.cost, quantity, n);
    }
    hide ResolveSellRate, ApplyResellerRate, MarginFloor, CapDiscountToFloor, ApplyCoupon, Leaves, ListPrice,
      ScaleToQty;
  }

  /** The least charge that leaves the protected margin on every unit. */
  predicate LeavesMargin(o: Offer, quantity: int, charge: int) {
    charge * 1000 >= MarginFloor(o.cost, ProtectedMargin(o)) * quantity
  }

  /** The discount is the most that the coupon promises and the floor leaves; without a coupon there is none. */
  lemma DiscountIsMost(
    o: Offer, quantity: int, code: Option<Code>, user: UserId,
    coupons: map<Code, Coupon>, redemptions: set<Redemption>, now: int, off: int
  )
    requires QuoteOrder(o, quantity, code, user, coupons, redemptions, now).Success?
    ensures var q := QuoteOrder(o, quantity, code, user, coupons, redemptions, now).value;
            && 0 <= q.discount <= q.subtotal
            && (code.None? ==> q.discount == 0)
            && (code.Some? ==>
                  && Usable(coupons, redemptions, code.value, user, q.subtotal, now)
                  && (0 < off <= q.discount <==>
                        && 0 < off <= q.subtotal
                        && Promised(coupons[code.value].discount, q.subtotal, off)
                        && LeavesMargin(o, quantity, q.subtotal - off)))
            && (q.coupon == if q.discount > 0 then code else None)
  {
    hide ResolveSellRate, ApplyResellerRate, MarginFloor, ApplyCoupon, Usable;
    var q := QuoteOrder(o, quantity, code, user, coupons, redemptions, now).value;
    QuoteAnswers(o, quantity, code, user, coupons, redemptions, now);
    SubtotalsArePositive(o, quantity, user, coupons, redemptions, now);
    FloorIsCovered(o);
    if code.Some? {
      CouponAnswers(coupons, redemptions, code.value, user, q.subtotal, now, off);
      if quantity > 0 { ScaledIsLeast(MarginFloor(o.cost, CouponMargin(o)), quantity, q.subtotal - off); }
    }
    hide ScaleToQty, Promised;
  }

  lemma FloorIsCovered(o: Offer)
    ensures CouponMargin(o) == ProtectedMargin(o) && MarginFloor(o.cost, CouponMargin(o)) >= 0
  {
    FloorIsLeast(o.cost, CouponMargin(o), MarginFloor(o.cost, CouponMargin(o)));
  }
}
