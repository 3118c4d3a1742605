/** The sell-price engine: markup layers, reseller rate, coupons, and the quote of an order. */
module Pricing {
  import opened Results
  import opened Rounding
  import opened PriceMath
  import opened Keys

  const DEFAULT_RESELLER_DISCOUNT_BP := 1200
  const RESELLER_MIN_MARGIN_PERCENT := 10.0

  /** Optional percent and fixed markups of one row; a row without either is skipped. */
  datatype Markup = Markup(percent: Option<real>, fixed: Option<int>) {
    predicate Present() {
      percent.Some? || fixed.Some?
    }
  }

  /** Everything read about a service, its rows and its buyer before a quote. */
  datatype Offer = Offer(
    active: bool,
    providerActive: bool,
    cost: nat,
    minQty: int,
    maxQty: int,
    refillable: bool,
    cancelable: bool,
    userStar: Option<int>,
    globalStar: Option<int>,
    service: Markup,
    category: Markup,
    provider: Markup,
    globalPercent: real,
    minMargin: real,
    resellerBp: Option<int>
  )

  datatype Layer = StarLayer | ServiceLayer | CategoryLayer | ProviderLayer | GlobalLayer

  datatype Discount = PercentOff(percent: real) | AmountOff(paise: int)

  datatype Coupon = Coupon(
    discount: Discount,
    maxUses: Option<int>,
    usedCount: int,
    perUserLimit: int,
    minOrder: int,
    active: bool,
    expiresAt: Option<int>
  )

  type Code = string

  datatype Redemption = Redemption(code: Code, user: UserId, order: nat)

  datatype Quote = Quote(
    cost: int,
    subtotal: int,
    discount: int,
    charge: int,
    layer: Layer,
    reseller: bool,
    coupon: Option<Code>,
    sellPer1000: int,
    retailPer1000: int,
    resellerDiscount: int
  )

  function ApplyMarkup(cost: int, percent: Option<real>, fixed: Option<int>): int {
    var pct := if percent.Some? then percent.value else 0.0;
    var fix := if fixed.Some? then fixed.value else 0;
    Ceil(cost as real * (1.0 + pct / 100.0) + fix as real)
  }

  function EnforceMinMargin(cost: int, sell: int, minMargin: real): int {
    Max(sell, MarginFloor(cost, minMargin))
  }

  /** What a reseller pays: the discounted rate, but never less than cost plus 10%. */
  function ApplyResellerRate(cost: int, retail: int, discountBp: int): int {
    var chosen := if discountBp == 0 then DEFAULT_RESELLER_DISCOUNT_BP else discountBp;
    var bp := Max(0, Min(chosen, 9000));
    EnforceMinMargin(cost, CeilDiv(retail * (10000 - bp), 10000), RESELLER_MIN_MARGIN_PERCENT)
  }

  /** First match wins: star, service, category, provider, global. */
  function ResolveSellRate(o: Offer): (int, Layer) {
    if o.userStar.Some? then (EnforceMinMargin(o.cost, o.userStar.value, o.minMargin), StarLayer)
    else if o.globalStar.Some? then (EnforceMinMargin(o.cost, o.globalStar.value, o.minMargin), StarLayer)
    else if o.service.Present() then
      (EnforceMinMargin(o.cost, ApplyMarkup(o.cost, o.service.percent, o.service.fixed), o.minMargin), ServiceLayer)
    else if o.category.Present() then
      (EnforceMinMargin(o.cost, ApplyMarkup(o.cost, o.category.percent, o.category.fixed), o.minMargin), CategoryLayer)
    else if o.provider.Present() then
      (EnforceMinMargin(o.cost, ApplyMarkup(o.cost, o.provider.percent, o.provider.fixed), o.minMargin), ProviderLayer)
    else
      (EnforceMinMargin(o.cost, ApplyMarkup(o.cost, Some(o.globalPercent), Some(0)), o.minMargin), GlobalLayer)
  }

  function RedeemedBy(redemptions: set<Redemption>, code: Code, user: UserId): set<Redemption> {
    set r | r in redemptions && r.code == code && r.user == user
  }

  /** The discount a coupon offers on a subtotal, or why it cannot be used. */
  function ApplyCoupon(
    coupons: map<Code, Coupon>, redemptions: set<Redemption>, code: Code, user: UserId, subtotal: int, now: int
  ): Result<int> {
    if code !in coupons || !coupons[code].active then Failure(CouponUnknown)
    else
      var c := coupons[code];
      if c.expiresAt.Some? && c.expiresAt.value < now then Failure(CouponExpired)
      else if c.minOrder != 0 && subtotal < c.minOrder then Failure(CouponMinimum)
      else if c.maxUses.Some? && c.usedCount >= c.maxUses.value then Failure(CouponExhausted)
      else if c.perUserLimit != 0 && |RedeemedBy(redemptions, code, user)| >= c.perUserLimit
        then Failure(CouponAlreadyUsed)
      else
        var offered :=
          match c.discount
          case PercentOff(percent) => (subtotal as real * percent / 100.0).Floor
          case AmountOff(paise) => paise;
        Success(Max(0, Min(offered, subtotal)))
  }

  /** The margin the coupon cap protects: resellers keep the stricter of the two floors. */
  function CouponMargin(o: Offer): real {
    if o.resellerBp.Some? && o.minMargin < RESELLER_MIN_MARGIN_PERCENT then RESELLER_MIN_MARGIN_PERCENT else o.minMargin
  }

  function QuoteOrder(
    o: Offer, quantity: int, code: Option<Code>, user: UserId,
    coupons: map<Code, Coupon>, redemptions: set<Redemption>, now: int
  ): Result<Quote> {
    if !o.active then Failure(ServiceUnavailable)
    else if quantity < o.minQty || quantity > o.maxQty then Failure(QuantityOutOfRange)
    else
      var (retail, layer) := ResolveSellRate(o);
      var sell := if o.resellerBp.Some? then ApplyResellerRate(o.cost, retail, o.resellerBp.value) else retail;
      var subtotal := ScaleToQty(sell, quantity);
      var offered :- if code.Some? then ApplyCoupon(coupons, redemptions, code.value, user, subtotal, now)
        else Success(0);
      var floor := ScaleToQty(MarginFloor(o.cost, CouponMargin(o)), quantity);
      var discount := if code.Some? then CapDiscountToFloor(subtotal, offered, floor) else 0;
      Success(Quote(
        ScaleToQty(o.cost, quantity), subtotal, discount, Max(0, subtotal - discount), layer, o.resellerBp.Some?,
        if discount <= 0 then None else code, sell, retail,
        Max(0, ScaleToQty(retail, quantity) - subtotal)))
  }

  // ---------------------------------------------------------------- what a quote guarantees

  /** The margin every buyer of an offer is guaranteed to leave. */
  function GuaranteedMargin(o: Offer): real {
    if o.resellerBp.Some? then RESELLER_MIN_MARGIN_PERCENT else o.minMargin
  }

  /**
   * Margin safety through every layer: whatever the star rates, markups, reseller discount and
   * coupon, the charge covers the scaled cost and the scaled margin floor, and the quote carries
   * a coupon code exactly when that coupon took something off.
   */
  lemma QuoteKeepsMargin(
    o: Offer, quantity: int, code: Option<Code>, user: UserId,
    coupons: map<Code, Coupon>, redemptions: set<Redemption>, now: int
  )
    requires QuoteOrder(o, quantity, code, user, coupons, redemptions, now).Success?
    ensures var q := QuoteOrder(o, quantity, code, user, coupons, redemptions, now).value;
            && q.charge >= ScaleToQty(MarginFloor(o.cost, GuaranteedMargin(o)), quantity) >= q.cost
                 == ScaleToQty(o.cost, quantity)
            && q.charge == q.subtotal - q.discount
            && 0 <= q.discount
            && (q.coupon.Some? <==> q.discount > 0)
            && (q.coupon.Some? ==> q.coupon == code)
            && q.subtotal + q.resellerDiscount == Max(q.subtotal, ScaleToQty(q.retailPer1000, quantity))
            && (!q.reseller ==> q.resellerDiscount == 0)
  {
    var q := QuoteOrder(o, quantity, code, user, coupons, redemptions, now).value;
    var guaranteed := MarginFloor(o.cost, GuaranteedMargin(o));
    var capped := MarginFloor(o.cost, CouponMargin(o));
    ScaleMonotone(o.cost, guaranteed, quantity);
    ScaleMonotone(guaranteed, q.sellPer1000, quantity);
    MarginFloorMonotone(o.cost, GuaranteedMargin(o), CouponMargin(o));
    ScaleMonotone(guaranteed, capped, quantity);
    ScaleMonotone(0, o.cost, quantity);
    assert ScaleToQty(0, quantity) == 0;
  }

  /** The reseller rate is never above the retail rate, unless the 10% floor is; then it is that floor. */
  lemma ResellerRateIsCapped(cost: int, retail: int, discountBp: int)
    requires retail >= 0
    ensures ApplyResellerRate(cost, retail, discountBp) <= Max(retail, MarginFloor(cost, RESELLER_MIN_MARGIN_PERCENT))
    ensures ApplyResellerRate(cost, retail, discountBp) >= MarginFloor(cost, RESELLER_MIN_MARGIN_PERCENT)
  {
    var chosen := if discountBp == 0 then DEFAULT_RESELLER_DISCOUNT_BP else discountBp;
    var bp := Max(0, Min(chosen, 9000));
    assert retail * (10000 - bp) <= retail * 10000;
    CeilDivIsLeast(retail * (10000 - bp), 10000, retail);
  }

  /**
   * A reseller discount can raise the price: without a coupon, the reseller is charged more than
   * anybody else for the same quantity exactly when the 10% floor that resellers are held to costs
   * more at that quantity than the retail rate does.
   */
  lemma ResellerPaysMoreIff(
    o: Offer, discountBp: int, quantity: int, user: UserId,
    coupons: map<Code, Coupon>, redemptions: set<Redemption>, now: int
  )
    requires o.resellerBp.None?
    ensures var retail := QuoteOrder(o, quantity, None, user, coupons, redemptions, now);
            var offer := o.(resellerBp := Some(discountBp));
            var reseller := QuoteOrder(offer, quantity, None, user, coupons, redemptions, now);
            && (retail.Success? <==> reseller.Success?)
            && (retail.Success? ==>
                  (reseller.value.charge > retail.value.charge
                   <==> ScaleToQty(MarginFloor(o.cost, RESELLER_MIN_MARGIN_PERCENT), quantity)
                        > ScaleToQty(ResolveSellRate(o).0, quantity)))
  {
    var retail, floor := ResolveSellRate(o).0, MarginFloor(o.cost, RESELLER_MIN_MARGIN_PERCENT);
    var sell := ApplyResellerRate(o.cost, retail, discountBp);
    assert ResolveSellRate(o.(resellerBp := Some(discountBp))) == ResolveSellRate(o);
    RatesCoverCost(o);
    ResellerRateIsCapped(o.cost, retail, discountBp);
    hide ResolveSellRate, ApplyResellerRate, MarginFloor;
    ScaleMonotone(floor, sell, quantity);
    ScaleMonotone(sell, Max(retail, floor), quantity);
    ScaleMonotone(0, retail, quantity);
    ScaleMonotone(0, sell, quantity);
    assert ScaleToQty(0, quantity) == 0;
    hide ScaleToQty;
  }

  lemma RatesCoverCost(o: Offer)
    ensures ResolveSellRate(o).0 >= MarginFloor(o.cost, o.minMargin) >= o.cost
    ensures MarginFloor(o.cost, RESELLER_MIN_MARGIN_PERCENT) >= o.cost
  {
  }

  /** The rows that outrank or decide a layer are the same in both offers. */
  predicate SameDownTo(o: Offer, p: Offer, layer: Layer) {
    && o.cost == p.cost && o.minMargin == p.minMargin
    && o.userStar == p.userStar && (o.userStar.None? ==> o.globalStar == p.globalStar)
    && (layer != StarLayer ==> o.service == p.service)
    && (layer in {CategoryLayer, ProviderLayer, GlobalLayer} ==> o.category == p.category)
    && (layer in {ProviderLayer, GlobalLayer} ==> o.provider == p.provider)
    && (layer == GlobalLayer ==> o.globalPercent == p.globalPercent)
  }

  /**
   * First match wins: two offers that agree on the deciding layer and on everything outside the
   * layers are quoted alike, whatever the rows ranked below that layer say.
   */
  lemma QuoteIgnoresLowerLayers(
    o: Offer, p: Offer, quantity: int, code: Option<Code>, user: UserId,
    coupons: map<Code, Coupon>, redemptions: set<Redemption>, now: int
  )
    requires SameDownTo(o, p, ResolveSellRate(o).1)
    requires p == o.(globalStar := p.globalStar, service := p.service, category := p.category, provider := p.provider,
                     globalPercent := p.globalPercent)
    ensures QuoteOrder(p, quantity, code, user, coupons, redemptions, now)
         == QuoteOrder(o, quantity, code, user, coupons, redemptions, now)
  {
    assert o.service == p.service || ResolveSellRate(o).1 == StarLayer;
    assert ResolveSellRate(p) == ResolveSellRate(o);
    hide ResolveSellRate, ApplyCoupon, ApplyResellerRate, ScaleToQty, MarginFloor;
  }
}
