/**
 * The per-category scoring rules of proof_of_quality/score_calculators.py.
 * Each rule combines clamped log sub-scores and zero-guarded ratios with
 * weights that sum to 1, scales the sum by the recency weight of the
 * latest date, and judges validity against count floors, a date-range
 * floor and the profile's THRESHOLD_SCORE.
 */
module Calculators {
  import opened Wrappers
  import opened Config
  import opened QualityUtils
  import opened Analyzers

  /** Why the order-history rule refused a file before scoring it. */
  datatype Reason =
    | DateRangeBelow(days: int, minDays: real)          // "Date range (...) below minimum (...)"
    | PurchaseRateBelow(perWeek: real, minPerWeek: real) // "Purchases per week (...) below minimum (...)"

  /** The {is_valid, score, reasons} dictionary of one rule. */
  datatype ComponentScore = ComponentScore(isValid: bool, score: real, reasons: seq<Option<Reason>>)

  /** `(latest - earliest).days` when both ends of the range are present. */
  function DateRangeDays(d: DateRange): (r: Option<int>)
    ensures r.Some? <==> d.earliest.Some? && d.latest.Some?
    ensures d.Ordered() && r.Some? ==> r.value >= 0
  {
    if d.earliest.Some? && d.latest.Some? then Some(DaysBetween(d.earliest.value, d.latest.value)) else None
  }

  /** `calculate_log_score(date_range_days, min_days)`, or 0 when the range is absent. */
  function DateRangeScore(rt: Runtime, d: DateRange, minDays: real, p: Profile): (s: real)
    requires Log1pPositive(rt.log1p)
    ensures 0.0 <= s <= 1.0
    ensures DateRangeDays(d).None? ==> s == 0.0
  {
    match DateRangeDays(d)
    case None => 0.0
    case Some(days) => LogScore(rt, days as real, minDays, p)
  }

  /** The recency weight of the range's latest date. */
  function Recency(rt: Runtime, now: Instant, d: DateRange): (w: real)
    requires Log1pPositive(rt.log1p)
    ensures 0.0 <= w <= 1.0
    ensures d.latest.None? ==> w == 0.0
  {
    TimeWeight(rt, now, d.latest).0
  }

  /** `part / whole if whole > 0 else 0`. */
  function GuardedRatio(part: nat, whole: nat): (r: real)
    ensures whole == 0 ==> r == 0.0
    ensures 0.0 <= r
    ensures part <= whole ==> r <= 1.0
  {
    if whole > 0 then
      assert part <= whole ==> part as real / whole as real <= 1.0 by {
        if part <= whole { RatioInUnit(part as real, whole as real); }
      }
      part as real / whole as real
    else 0.0
  }

  /** A sub-score in [0, 1] times a non-negative weight lies between 0 and the weight. */
  lemma UnitProduct(s: real, w: real)
    requires 0.0 <= s <= 1.0 && 0.0 <= w
    ensures 0.0 <= s * w
    ensures s * w <= w
  {
    MulMonotone(0.0, s, w);
    MulMonotone(s, 1.0, w);
  }

  lemma ScaledUnit(s: real, w: real)
    requires 0.0 <= s <= 1.0 && 0.0 <= w <= 1.0
    ensures 0.0 <= s * w
    ensures s * w <= 1.0
  {
    UnitProduct(w, s);
    assert w * s == s * w;
  }

  /** The threshold on the 0..1 scale: `THRESHOLD_SCORE / 100`. */
  function Threshold(p: Profile): real
    requires ThresholdKey in p
  {
    p[ThresholdKey] / 100.0
  }

  /**
   * The `is_valid` conjunction of the rules with a date-range floor:
   * false as soon as a count floor fails; otherwise reading the date
   * range's length, which raises UnboundLocalError when the metadata
   * has no range; otherwise that length against its floor and the score
   * against the threshold.
   */
  function Validity(countFloors: bool, days: Option<int>, minDays: real, score: real, threshold: real): (r: Result<bool, Error>)
    ensures r.Failure? <==> countFloors && days.None?
    ensures r.Failure? ==> r.error == UnboundDateRange
    ensures r.Success? ==> (r.value <==> countFloors && days.value as real >= minDays && score >= threshold)
  {
    if !countFloors then Success(false)
    else if days.None? then Failure(UnboundDateRange)
    else Success(days.value as real >= minDays && score >= threshold)
  }

  /** The date-range floor of a rule: the range is present and at least `minDays` long. */
  predicate LongEnough(d: DateRange, minDays: real) {
    DateRangeDays(d).Some? && DateRangeDays(d).value as real >= minDays
  }

  // ---------------------------------------------------------------------
  // Retail cart items
  // ---------------------------------------------------------------------

  predicate CartCountFloors(m: CartMetadata, p: Profile) {
    && m.numItems as real >= Setting(p, "MIN_ITEMS", 5.0)
    && m.uniqueProducts as real >= Setting(p, "MIN_UNIQUE_PRODUCTS", 3.0)
  }

  /** The cart formula: 0.3 items + 0.3 unique products + 0.2 date range + 0.2 active share, times recency. */
  function CartCombine(items: real, unique: real, dateRange: real, active: real, recency: real): real {
    (items * 0.3 + unique * 0.3 + dateRange * 0.2 + active * 0.2) * recency
  }

  /** The cart weights sum to 1, so unit sub-scores and a unit recency give a unit score. */
  lemma CartCombineInUnit(items: real, unique: real, dateRange: real, active: real, recency: real)
    requires 0.0 <= items <= 1.0 && 0.0 <= unique <= 1.0 && 0.0 <= dateRange <= 1.0 && 0.0 <= active <= 1.0
    requires 0.0 <= recency <= 1.0
    ensures 0.0 <= CartCombine(items, unique, dateRange, active, recency) <= 1.0
  {
    ScaledUnit(items * 0.3 + unique * 0.3 + dateRange * 0.2 + active * 0.2, recency);
  }

  /** The score of calculate_cart_items_score. */
  function CartScore(rt: Runtime, now: Instant, m: CartMetadata, p: Profile): (score: real)
    requires Log1pPositive(rt.log1p)
    ensures m.Consistent() ==> 0.0 <= score <= 1.0
    ensures m.dateRange.latest.None? ==> score == 0.0
  {
    var items := LogScore(rt, m.numItems as real, Setting(p, "MIN_ITEMS", 5.0), p);
    var unique := LogScore(rt, m.uniqueProducts as real, Setting(p, "MIN_UNIQUE_PRODUCTS", 3.0), p);
    var dateRange := DateRangeScore(rt, m.dateRange, Setting(p, "MIN_DATE_RANGE_DAYS", 30.0), p);
    var active := GuardedRatio(m.cartLists["active"], m.numItems);
    var recency := Recency(rt, now, m.dateRange);
    assert m.Consistent() ==> 0.0 <= CartCombine(items, unique, dateRange, active, recency) <= 1.0 by {
      if m.Consistent() { CartCombineInUnit(items, unique, dateRange, active, recency); }
    }
    CartCombine(items, unique, dateRange, active, recency)
  }

  /** calculate_cart_items_score: the score above and its validity. */
  function CartItemsScore(rt: Runtime, now: Instant, m: CartMetadata, p: Profile): (r: Result<ComponentScore, Error>)
    requires Log1pPositive(rt.log1p)
    ensures ThresholdKey !in p ==> r == Failure(MissingSetting(ThresholdKey))
    ensures ThresholdKey in p ==>
              (r.Failure? <==> CartCountFloors(m, p) && DateRangeDays(m.dateRange).None?)
    ensures r.Failure? ==> r.error in {MissingSetting(ThresholdKey), UnboundDateRange}
    ensures r.Success? ==> ThresholdKey in p && r.value.reasons == [] && r.value.score == CartScore(rt, now, m, p)
    ensures r.Success? ==>
              (r.value.isValid <==> CartCountFloors(m, p) && LongEnough(m.dateRange, Setting(p, "MIN_DATE_RANGE_DAYS", 30.0))
                                    && r.value.score >= Threshold(p))
  {
    if ThresholdKey !in p then Failure(MissingSetting(ThresholdKey))
    else
      var score := CartScore(rt, now, m, p);
      match Validity(CartCountFloors(m, p), DateRangeDays(m.dateRange), Setting(p, "MIN_DATE_RANGE_DAYS", 30.0), score, Threshold(p))
      case Failure(e) => Failure(e)
      case Success(valid) => Success(ComponentScore(valid, score, []))
  }

  // ---------------------------------------------------------------------
  // Digital items
  // ---------------------------------------------------------------------

  predicate DigitalFloors(m: DigitalMetadata, p: Profile) {
    && m.numItems as real >= Setting(p, "MIN_DIGITAL_ITEMS", 3.0)
    && m.uniqueProducts as real >= Setting(p, "MIN_UNIQUE_PRODUCTS", 2.0)
    && m.totalAmount >= Setting(p, "MIN_TOTAL_AMOUNT", 50.0)
  }

  /** The digital-items formula: 0.3 items + 0.3 unique products + 0.4 amount, times recency. */
  function DigitalCombine(items: real, unique: real, amount: real, recency: real): real {
    (items * 0.3 + unique * 0.3 + amount * 0.4) * recency
  }

  lemma DigitalCombineInUnit(items: real, unique: real, amount: real, recency: real)
    requires 0.0 <= items <= 1.0 && 0.0 <= unique <= 1.0 && 0.0 <= amount <= 1.0
    requires 0.0 <= recency <= 1.0
    ensures 0.0 <= DigitalCombine(items, unique, amount, recency) <= 1.0
  {
    ScaledUnit(items * 0.3 + unique * 0.3 + amount * 0.4, recency);
  }

  /** The score of calculate_digital_items_score. */
  function DigitalScore(rt: Runtime, now: Instant, m: DigitalMetadata, p: Profile): (score: real)
    requires Log1pPositive(rt.log1p)
    ensures 0.0 <= score <= 1.0
    ensures m.dateRange.latest.None? ==> score == 0.0
  {
    var items := LogScore(rt, m.numItems as real, Setting(p, "MIN_DIGITAL_ITEMS", 3.0), p);
    var unique := LogScore(rt, m.uniqueProducts as real, Setting(p, "MIN_UNIQUE_PRODUCTS", 2.0), p);
    var amount := LogScore(rt, m.totalAmount, Setting(p, "MIN_TOTAL_AMOUNT", 50.0), p);
    var recency := Recency(rt, now, m.dateRange);
    DigitalCombineInUnit(items, unique, amount, recency);
    DigitalCombine(items, unique, amount, recency)
  }

  /** calculate_digital_items_score: no date-range floor, so only a missing threshold fails. */
  function DigitalItemsScore(rt: Runtime, now: Instant, m: DigitalMetadata, p: Profile): (r: Result<ComponentScore, Error>)
    requires Log1pPositive(rt.log1p)
    ensures r.Failure? <==> ThresholdKey !in p
    ensures r.Failure? ==> r.error == MissingSetting(ThresholdKey)
    ensures r.Success? ==> r.value.reasons == [] && r.value.score == DigitalScore(rt, now, m, p)
    ensures r.Success? ==> (r.value.isValid <==> DigitalFloors(m, p) && r.value.score >= Threshold(p))
  {
    if ThresholdKey !in p then Failure(MissingSetting(ThresholdKey))
    else
      var score := DigitalScore(rt, now, m, p);
      Success(ComponentScore(DigitalFloors(m, p) && score >= Threshold(p), score, []))
  }

  // ---------------------------------------------------------------------
  // Retail order history
  // ---------------------------------------------------------------------

  /** `date_range_days` of the order-history rule: the range's length, 0 without a range. */
  function OrderSpan(m: OrderHistoryMetadata): (days: int)
    ensures DateRangeDays(m.dateRange).None? ==> days == 0
    ensures m.Consistent() ==> days >= 0
  {
    match DateRangeDays(m.dateRange)
    case None => 0
    case Some(days) => days
  }

  /**
   * `purchases_per_week`: orders over the range's length in weeks, a range
   * of no positive length counting as one week; 0 without a range.
   */
  function PurchaseRate(m: OrderHistoryMetadata): (rate: real)
    ensures DateRangeDays(m.dateRange).None? ==> rate == 0.0
    ensures 0.0 <= rate
    ensures DateRangeDays(m.dateRange).Some? && OrderSpan(m) <= 0 ==> rate == m.numOrders as real
  {
    if DateRangeDays(m.dateRange).None? then 0.0
    else
      var days := OrderSpan(m);
      var weeks: real := if days > 0 then days as real / 7.0 else 1.0;
      if weeks > 0.0 then m.numOrders as real / weeks else 0.0
  }

  /** The global minima of order history: MIN_DATA_TIME days of history and MIN_PURCHASES_PER_WEEK. */
  predicate OrderGate(m: OrderHistoryMetadata, p: Profile) {
    && OrderSpan(m) as real >= Setting(p, "MIN_DATA_TIME", 365.0 * 5.0)
    && PurchaseRate(m) >= Setting(p, "MIN_PURCHASES_PER_WEEK", 3.0)
  }

  predicate OrderFloors(m: OrderHistoryMetadata, p: Profile) {
    && m.numOrders as real >= Setting(p, "MIN_ORDERS", 5.0)
    && m.totalAmount >= Setting(p, "MIN_TOTAL_AMOUNT", 100.0)
    && m.uniqueProducts as real >= Setting(p, "MIN_UNIQUE_PRODUCTS", 3.0)
    && OrderSpan(m) as real >= Setting(p, "MIN_DATE_RANGE_DAYS", 30.0)
  }

  /** `min(gift_orders_percentage / 100, 1.0)`. */
  function GiftRate(percentage: real): (r: real)
    ensures r <= 1.0
    ensures 0.0 <= percentage ==> 0.0 <= r
  {
    if percentage / 100.0 <= 1.0 then percentage / 100.0 else 1.0
  }

  /**
   * The order-history formula: 0.2 orders + 0.2 amount + 0.2 unique products
   * + 0.1 date range + 0.1 websites + 0.1 payment methods + 0.05 completion
   * rate + 0.05 gift rate, times recency.
   */
  function OrderCombine(orders: real, amount: real, unique: real, dateRange: real, websites: real,
                        payments: real, completion: real, gifts: real, recency: real): real {
    (orders * 0.2 + amount * 0.2 + unique * 0.2 + dateRange * 0.1 + websites * 0.1
     + payments * 0.1 + completion * 0.05 + gifts * 0.05) * recency
  }

  lemma OrderCombineInUnit(orders: real, amount: real, unique: real, dateRange: real, websites: real,
                           payments: real, completion: real, gifts: real, recency: real)
    requires 0.0 <= orders <= 1.0 && 0.0 <= amount <= 1.0 && 0.0 <= unique <= 1.0 && 0.0 <= dateRange <= 1.0
    requires 0.0 <= websites <= 1.0 && 0.0 <= payments <= 1.0 && 0.0 <= completion <= 1.0 && 0.0 <= gifts <= 1.0
    requires 0.0 <= recency <= 1.0
    ensures 0.0 <= OrderCombine(orders, amount, unique, dateRange, websites, payments, completion, gifts, recency) <= 1.0
  {
    ScaledUnit(orders * 0.2 + amount * 0.2 + unique * 0.2 + dateRange * 0.1 + websites * 0.1
               + payments * 0.1 + completion * 0.05 + gifts * 0.05, recency);
  }

  /** The score of calculate_retail_order_history_score once the global minima are met. */
  function OrderScore(rt: Runtime, now: Instant, m: OrderHistoryMetadata, p: Profile): (score: real)
    requires Log1pPositive(rt.log1p)
    ensures m.Consistent() ==> 0.0 <= score <= 1.0
    ensures m.dateRange.latest.None? ==> score == 0.0
  {
    var orders := LogScore(rt, m.numOrders as real, Setting(p, "MIN_ORDERS", 5.0), p);
    var amount := LogScore(rt, m.totalAmount, Setting(p, "MIN_TOTAL_AMOUNT", 100.0), p);
    var unique := LogScore(rt, m.uniqueProducts as real, Setting(p, "MIN_UNIQUE_PRODUCTS", 3.0), p);
    var dateRange := DateRangeScore(rt, m.dateRange, Setting(p, "MIN_DATE_RANGE_DAYS", 30.0), p);
    var websites := LogScore(rt, Kinds(m.websites) as real, Setting(p, "MIN_WEBSITES", 1.0), p);
    var payments := LogScore(rt, Kinds(m.paymentMethods) as real, Setting(p, "MIN_PAYMENT_METHODS", 1.0), p);
    var completion := GuardedRatio(m.orderStatuses["Closed"], m.numOrders);
    var gifts := GiftRate(m.giftOrdersPercentage);
    var recency := Recency(rt, now, m.dateRange);
    assert m.Consistent() ==>
             0.0 <= OrderCombine(orders, amount, unique, dateRange, websites, payments, completion, gifts, recency) <= 1.0 by {
      if m.Consistent() {
        OrderCombineInUnit(orders, amount, unique, dateRange, websites, payments, completion, gifts, recency);
      }
    }
    OrderCombine(orders, amount, unique, dateRange, websites, payments, completion, gifts, recency)
  }

  /**
   * calculate_retail_order_history_score: below either global minimum the
   * file is rejected with score 0 and one reason slot per minimum (None
   * where that minimum is met); otherwise scored and judged like the others.
   */
  function OrderHistoryScore(rt: Runtime, now: Instant, m: OrderHistoryMetadata, p: Profile): (r: Result<ComponentScore, Error>)
    requires Log1pPositive(rt.log1p)
    ensures r.Failure? <==> ThresholdKey !in p
    ensures r.Failure? ==> r.error == MissingSetting(ThresholdKey)
    ensures r.Success? && !OrderGate(m, p) ==>
              && !r.value.isValid && r.value.score == 0.0 && |r.value.reasons| == 2
              && (r.value.reasons[0].Some? <==> OrderSpan(m) as real < Setting(p, "MIN_DATA_TIME", 365.0 * 5.0))
              && (r.value.reasons[1].Some? <==> PurchaseRate(m) < Setting(p, "MIN_PURCHASES_PER_WEEK", 3.0))
    ensures r.Success? && OrderGate(m, p) ==> r.value.reasons == [] && r.value.score == OrderScore(rt, now, m, p)
    ensures r.Success? ==>
              (r.value.isValid <==> OrderGate(m, p) && OrderFloors(m, p) && r.value.score >= Threshold(p))
  {
    if ThresholdKey !in p then Failure(MissingSetting(ThresholdKey))
    else
      var minDataTime := Setting(p, "MIN_DATA_TIME", 365.0 * 5.0);
      var minRate := Setting(p, "MIN_PURCHASES_PER_WEEK", 3.0);
      var days := OrderSpan(m);
      var rate := PurchaseRate(m);
      if days as real < minDataTime || rate < minRate then
        Success(ComponentScore(false, 0.0, [
          if days as real < minDataTime then Some(DateRangeBelow(days, minDataTime)) else None,
          if rate < minRate then Some(PurchaseRateBelow(rate, minRate)) else None]))
      else
        var score := OrderScore(rt, now, m, p);
        Success(ComponentScore(OrderFloors(m, p) && score >= Threshold(p), score, []))
  }

  /** Without a date range the history is 0 days long, so any positive MIN_DATA_TIME rejects it. */
  lemma OrderHistoryNeedsDates(rt: Runtime, now: Instant, m: OrderHistoryMetadata, p: Profile)
    requires Log1pPositive(rt.log1p)
    requires ThresholdKey in p && DateRangeDays(m.dateRange).None?
    requires Setting(p, "MIN_DATA_TIME", 365.0 * 5.0) > 0.0
    ensures var r := OrderHistoryScore(rt, now, m, p);
            r.Success? && !r.value.isValid && r.value.score == 0.0 && r.value.reasons[0].Some?
  {
  }

  // ---------------------------------------------------------------------
  // Audible purchase history
  // ---------------------------------------------------------------------

  predicate PurchaseCountFloors(m: AudiblePurchaseMetadata, p: Profile) {
    && m.numPurchases as real >= Setting(p, "MIN_PURCHASES", 5.0)
    && m.totalAmountSpent >= Setting(p, "MIN_TOTAL_AMOUNT", 75.0)
    && m.uniqueAudiobooks as real >= Setting(p, "MIN_UNIQUE_AUDIOBOOKS", 3.0)
  }

  /** The purchase formula: 0.25 purchases + 0.30 amount + 0.25 audiobooks + 0.10 date range + 0.10 types, times recency. */
  function PurchaseCombine(purchases: real, amount: real, audiobooks: real, dateRange: real, types: real, recency: real): real {
    (purchases * 0.25 + amount * 0.30 + audiobooks * 0.25 + dateRange * 0.10 + types * 0.10) * recency
  }

  lemma PurchaseCombineInUnit(purchases: real, amount: real, audiobooks: real, dateRange: real, types: real, recency: real)
    requires 0.0 <= purchases <= 1.0 && 0.0 <= amount <= 1.0 && 0.0 <= audiobooks <= 1.0
    requires 0.0 <= dateRange <= 1.0 && 0.0 <= types <= 1.0 && 0.0 <= recency <= 1.0
    ensures 0.0 <= PurchaseCombine(purchases, amount, audiobooks, dateRange, types, recency) <= 1.0
  {
    ScaledUnit(purchases * 0.25 + amount * 0.30 + audiobooks * 0.25 + dateRange * 0.10 + types * 0.10, recency);
  }

  /** The score of calculate_audible_purchase_history_score; purchase types are scored against a fixed minimum of 2. */
  function PurchaseScore(rt: Runtime, now: Instant, m: AudiblePurchaseMetadata, p: Profile): (score: real)
    requires Log1pPositive(rt.log1p)
    ensures 0.0 <= score <= 1.0
    ensures m.dateRange.latest.None? ==> score == 0.0
  {
    var purchases := LogScore(rt, m.numPurchases as real, Setting(p, "MIN_PURCHASES", 5.0), p);
    var amount := LogScore(rt, m.totalAmountSpent, Setting(p, "MIN_TOTAL_AMOUNT", 75.0), p);
    var audiobooks := LogScore(rt, m.uniqueAudiobooks as real, Setting(p, "MIN_UNIQUE_AUDIOBOOKS", 3.0), p);
    var dateRange := DateRangeScore(rt, m.dateRange, Setting(p, "MIN_DATE_RANGE_DAYS", 60.0), p);
    var types := LogScore(rt, Kinds(m.purchaseTypes) as real, 2.0, p);
    var recency := Recency(rt, now, m.dateRange);
    PurchaseCombineInUnit(purchases, amount, audiobooks, dateRange, types, recency);
    PurchaseCombine(purchases, amount, audiobooks, dateRange, types, recency)
  }

  /** calculate_audible_purchase_history_score. */
  function AudiblePurchaseScore(rt: Runtime, now: Instant, m: AudiblePurchaseMetadata, p: Profile): (r: Result<ComponentScore, Error>)
    requires Log1pPositive(rt.log1p)
    ensures ThresholdKey !in p ==> r == Failure(MissingSetting(ThresholdKey))
    ensures ThresholdKey in p ==>
              (r.Failure? <==> PurchaseCountFloors(m, p) && DateRangeDays(m.dateRange).None?)
    ensures r.Failure? ==> r.error in {MissingSetting(ThresholdKey), UnboundDateRange}
    ensures r.Success? ==> ThresholdKey in p && r.value.reasons == [] && r.value.score == PurchaseScore(rt, now, m, p)
    ensures r.Success? ==>
              (r.value.isValid <==> PurchaseCountFloors(m, p) && LongEnough(m.dateRange, Setting(p, "MIN_DATE_RANGE_DAYS", 60.0))
                                    && r.value.score >= Threshold(p))
  {
    if ThresholdKey !in p then Failure(MissingSetting(ThresholdKey))
    else
      var score := PurchaseScore(rt, now, m, p);
      match Validity(PurchaseCountFloors(m, p), DateRangeDays(m.dateRange), Setting(p, "MIN_DATE_RANGE_DAYS", 60.0), score, Threshold(p))
      case Failure(e) => Failure(e)
      case Success(valid) => Success(ComponentScore(valid, score, []))
  }

  // ---------------------------------------------------------------------
  // Audible library
  // ---------------------------------------------------------------------

  predicate LibraryCountFloors(m: AudibleLibraryMetadata, p: Profile) {
    && m.numItemsInLibrary as real >= Setting(p, "MIN_LIBRARY_ITEMS", 10.0)
    && m.uniqueAudiobooks as real >= Setting(p, "MIN_UNIQUE_AUDIOBOOKS", 5.0)
  }

  /** The library formula: 0.40 items + 0.30 audiobooks + 0.20 date range + 0.10 downloaded share, times recency. */
  function LibraryCombine(items: real, audiobooks: real, dateRange: real, downloaded: real, recency: real): real {
    (items * 0.40 + audiobooks * 0.30 + dateRange * 0.20 + downloaded * 0.10) * recency
  }

  lemma LibraryCombineInUnit(items: real, audiobooks: real, dateRange: real, downloaded: real, recency: real)
    requires 0.0 <= items <= 1.0 && 0.0 <= audiobooks <= 1.0 && 0.0 <= dateRange <= 1.0 && 0.0 <= downloaded <= 1.0
    requires 0.0 <= recency <= 1.0
    ensures 0.0 <= LibraryCombine(items, audiobooks, dateRange, downloaded, recency) <= 1.0
  {
    ScaledUnit(items * 0.40 + audiobooks * 0.30 + dateRange * 0.20 + downloaded * 0.10, recency);
  }

  /** The score of calculate_audible_library_score. */
  function LibraryScore(rt: Runtime, now: Instant, m: AudibleLibraryMetadata, p: Profile): (score: real)
    requires Log1pPositive(rt.log1p)
    ensures m.Consistent() ==> 0.0 <= score <= 1.0
    ensures m.dateRange.latest.None? ==> score == 0.0
  {
    var items := LogScore(rt, m.numItemsInLibrary as real, Setting(p, "MIN_LIBRARY_ITEMS", 10.0), p);
    var audiobooks := LogScore(rt, m.uniqueAudiobooks as real, Setting(p, "MIN_UNIQUE_AUDIOBOOKS", 5.0), p);
    var dateRange := DateRangeScore(rt, m.dateRange, Setting(p, "MIN_DATE_RANGE_DAYS", 90.0), p);
    var downloaded := GuardedRatio(m.downloaded["Yes"], m.numItemsInLibrary);
    var recency := Recency(rt, now, m.dateRange);
    assert m.Consistent() ==> 0.0 <= LibraryCombine(items, audiobooks, dateRange, downloaded, recency) <= 1.0 by {
      if m.Consistent() { LibraryCombineInUnit(items, audiobooks, dateRange, downloaded, recency); }
    }
    LibraryCombine(items, audiobooks, dateRange, downloaded, recency)
  }

  /** calculate_audible_library_score. */
  function AudibleLibraryScore(rt: Runtime, now: Instant, m: AudibleLibraryMetadata, p: Profile): (r: Result<ComponentScore, Error>)
    requires Log1pPositive(rt.log1p)
    ensures ThresholdKey !in p ==> r == Failure(MissingSetting(ThresholdKey))
    ensures ThresholdKey in p ==>
              (r.Failure? <==> LibraryCountFloors(m, p) && DateRangeDays(m.dateRange).None?)
    ensures r.Failure? ==> r.error in {MissingSetting(ThresholdKey), UnboundDateRange}
    ensures r.Success? ==> ThresholdKey in p && r.value.reasons == [] && r.value.score == LibraryScore(rt, now, m, p)
    ensures r.Success? ==>
              (r.value.isValid <==> LibraryCountFloors(m, p) && LongEnough(m.dateRange, Setting(p, "MIN_DATE_RANGE_DAYS", 90.0))
                                    && r.value.score >= Threshold(p))
  {
    if ThresholdKey !in p then Failure(MissingSetting(ThresholdKey))
    else
      var score := LibraryScore(rt, now, m, p);
      match Validity(LibraryCountFloors(m, p), DateRangeDays(m.dateRange), Setting(p, "MIN_DATE_RANGE_DAYS", 90.0), score, Threshold(p))
      case Failure(e) => Failure(e)
      case Success(valid) => Success(ComponentScore(valid, score, []))
  }

  // ---------------------------------------------------------------------
  // Audible membership billings
  // ---------------------------------------------------------------------

  predicate BillingsCountFloors(m: AudibleBillingsMetadata, p: Profile) {
    && m.numBillings as real >= Setting(p, "MIN_BILLINGS", 3.0)
    && m.totalAmountSpent >= Setting(p, "MIN_TOTAL_AMOUNT", 30.0)
  }

  /** The billings formula: 0.40 billings + 0.40 amount + 0.20 date range, times recency. */
  function BillingsCombine(billings: real, amount: real, dateRange: real, recency: real): real {
    (billings * 0.40 + amount * 0.40 + dateRange * 0.20) * recency
  }

  lemma BillingsCombineInUnit(billings: real, amount: real, dateRange: real, recency: real)
    requires 0.0 <= billings <= 1.0 && 0.0 <= amount <= 1.0 && 0.0 <= dateRange <= 1.0 && 0.0 <= recency <= 1.0
    ensures 0.0 <= BillingsCombine(billings, amount, dateRange, recency) <= 1.0
  {
    ScaledUnit(billings * 0.40 + amount * 0.40 + dateRange * 0.20, recency);
  }

  /** The score of calculate_audible_membership_billings_score. */
  function BillingsScore(rt: Runtime, now: Instant, m: AudibleBillingsMetadata, p: Profile): (score: real)
    requires Log1pPositive(rt.log1p)
    ensures 0.0 <= score <= 1.0
    ensures m.dateRange.latest.None? ==> score == 0.0
  {
    var billings := LogScore(rt, m.numBillings as real, Setting(p, "MIN_BILLINGS", 3.0), p);
    var amount := LogScore(rt, m.totalAmountSpent, Setting(p, "MIN_TOTAL_AMOUNT", 30.0), p);
    var dateRange := DateRangeScore(rt, m.dateRange, Setting(p, "MIN_DATE_RANGE_DAYS", 90.0), p);
    var recency := Recency(rt, now, m.dateRange);
    BillingsCombineInUnit(billings, amount, dateRange, recency);
    BillingsCombine(billings, amount, dateRange, recency)
  }

  /** calculate_audible_membership_billings_score. */
  function AudibleBillingsScore(rt: Runtime, now: Instant, m: AudibleBillingsMetadata, p: Profile): (r: Result<ComponentScore, Error>)
    requires Log1pPositive(rt.log1p)
    ensures ThresholdKey !in p ==> r == Failure(MissingSetting(ThresholdKey))
    ensures ThresholdKey in p ==>
              (r.Failure? <==> BillingsCountFloors(m, p) && DateRangeDays(m.dateRange).None?)
    ensures r.Failure? ==> r.error in {MissingSetting(ThresholdKey), UnboundDateRange}
    ensures r.Success? ==> ThresholdKey in p && r.value.reasons == [] && r.value.score == BillingsScore(rt, now, m, p)
    ensures r.Success? ==>
              (r.value.isValid <==> BillingsCountFloors(m, p) && LongEnough(m.dateRange, Setting(p, "MIN_DATE_RANGE_DAYS", 90.0))
                                    && r.value.score >= Threshold(p))
  {
    if ThresholdKey !in p then Failure(MissingSetting(ThresholdKey))
    else
      var score := BillingsScore(rt, now, m, p);
      match Validity(BillingsCountFloors(m, p), DateRangeDays(m.dateRange), Setting(p, "MIN_DATE_RANGE_DAYS", 90.0), score, Threshold(p))
      case Failure(e) => Failure(e)
      case Success(valid) => Success(ComponentScore(valid, score, []))
  }

  // ---------------------------------------------------------------------
  // Prime Video viewing history
  // ---------------------------------------------------------------------

  predicate VideoCountFloors(m: VideoViewingMetadata, p: Profile) {
    && m.numViewingSessions as real >= Setting(p, "MIN_VIEWING_SESSIONS", 5.0)
    && m.totalHoursViewed >= Setting(p, "MIN_TOTAL_HOURS", 10.0)
    && m.uniqueTitlesWatched as real >= Setting(p, "MIN_UNIQUE_TITLES", 3.0)
  }

  /** The viewing formula: 0.25 sessions + 0.25 hours + 0.25 titles + 0.15 date range + 0.10 devices, times recency. */
  function VideoCombine(sessions: real, hours: real, titles: real, dateRange: real, devices: real, recency: real): real {
    (sessions * 0.25 + hours * 0.25 + titles * 0.25 + dateRange * 0.15 + devices * 0.10) * recency
  }

  lemma VideoCombineInUnit(sessions: real, hours: real, titles: real, dateRange: real, devices: real, recency: real)
    requires 0.0 <= sessions <= 1.0 && 0.0 <= hours <= 1.0 && 0.0 <= titles <= 1.0
    requires 0.0 <= dateRange <= 1.0 && 0.0 <= devices <= 1.0 && 0.0 <= recency <= 1.0
    ensures 0.0 <= VideoCombine(sessions, hours, titles, dateRange, devices, recency) <= 1.0
  {
    ScaledUnit(sessions * 0.25 + hours * 0.25 + titles * 0.25 + dateRange * 0.15 + devices * 0.10, recency);
  }

  /** The score of calculate_prime_video_viewing_history_score; devices are scored against a fixed minimum of 2. */
  function VideoScore(rt: Runtime, now: Instant, m: VideoViewingMetadata, p: Profile): (score: real)
    requires Log1pPositive(rt.log1p)
    ensures 0.0 <= score <= 1.0
    ensures m.dateRange.latest.None? ==> score == 0.0
  {
    var sessions := LogScore(rt, m.numViewingSessions as real, Setting(p, "MIN_VIEWING_SESSIONS", 5.0), p);
    var hours := LogScore(rt, m.totalHoursViewed, Setting(p, "MIN_TOTAL_HOURS", 10.0), p);
    var titles := LogScore(rt, m.uniqueTitlesWatched as real, Setting(p, "MIN_UNIQUE_TITLES", 3.0), p);
    var dateRange := DateRangeScore(rt, m.dateRange, Setting(p, "MIN_DATE_RANGE_DAYS", 60.0), p);
    var devices := LogScore(rt, Kinds(m.devicesUsed) as real, 2.0, p);
    var recency := Recency(rt, now, m.dateRange);
    VideoCombineInUnit(sessions, hours, titles, dateRange, devices, recency);
    VideoCombine(sessions, hours, titles, dateRange, devices, recency)
  }

  /** calculate_prime_video_viewing_history_score. */
  function VideoViewingScore(rt: Runtime, now: Instant, m: VideoViewingMetadata, p: Profile): (r: Result<ComponentScore, Error>)
    requires Log1pPositive(rt.log1p)
    ensures ThresholdKey !in p ==> r == Failure(MissingSetting(ThresholdKey))
    ensures ThresholdKey in p ==>
              (r.Failure? <==> VideoCountFloors(m, p) && DateRangeDays(m.dateRange).None?)
    ensures r.Failure? ==> r.error in {MissingSetting(ThresholdKey), UnboundDateRange}
    ensures r.Success? ==> ThresholdKey in p && r.value.reasons == [] && r.value.score == VideoScore(rt, now, m, p)
    ensures r.Success? ==>
              (r.value.isValid <==> VideoCountFloors(m, p) && LongEnough(m.dateRange, Setting(p, "MIN_DATE_RANGE_DAYS", 60.0))
                                    && r.value.score >= Threshold(p))
  {
    if ThresholdKey !in p then Failure(MissingSetting(ThresholdKey))
    else
      var score := VideoScore(rt, now, m, p);
      match Validity(VideoCountFloors(m, p), DateRangeDays(m.dateRange), Setting(p, "MIN_DATE_RANGE_DAYS", 60.0), score, Threshold(p))
      case Failure(e) => Failure(e)
      case Success(valid) => Success(ComponentScore(valid, score, []))
  }

  // ---------------------------------------------------------------------
  // Dispatch
  // ---------------------------------------------------------------------

  /** The date range every category's metadata carries. */
  function DatesOf(m: Metadata): DateRange {
    match m
    case CartItems(c) => c.dateRange
    case DigitalItems(d) => d.dateRange
    case OrderHistory(o) => o.dateRange
    case AudiblePurchases(a) => a.dateRange
    case AudibleLibrary(l) => l.dateRange
    case AudibleBillings(b) => b.dateRange
    case VideoViewing(v) => v.dateRange
  }

  /**
   * calculate_score: the rule of the file name applied to that file's
   * metadata. The name must be recognised (ValueError otherwise), and the
   * metadata is the one analyze_data produced for the same name.
   */
  function CalculateScore(rt: Runtime, now: Instant, name: string, m: Metadata, p: Profile): (r: Result<ComponentScore, Error>)
    requires Log1pPositive(rt.log1p)
    requires RuleOf(name).Some? ==> m.RuleOfMetadata() == RuleOf(name).value
    ensures RuleOf(name).None? ==> r == Failure(UnknownFileType(name))
    ensures RuleOf(name).Some? && ThresholdKey !in p ==> r == Failure(MissingSetting(ThresholdKey))
    ensures r.Success? && r.value.isValid ==> ThresholdKey in p && r.value.score >= Threshold(p)
  {
    if RuleOf(name).None? then Failure(UnknownFileType(name))
    else
      match m
      case CartItems(c) => CartItemsScore(rt, now, c, p)
      case DigitalItems(d) => DigitalItemsScore(rt, now, d, p)
      case OrderHistory(o) => OrderHistoryScore(rt, now, o, p)
      case AudiblePurchases(a) => AudiblePurchaseScore(rt, now, a, p)
      case AudibleLibrary(l) => AudibleLibraryScore(rt, now, l, p)
      case AudibleBillings(b) => AudibleBillingsScore(rt, now, b, p)
      case VideoViewing(v) => VideoViewingScore(rt, now, v, p)
  }

  /**
   * calculate_score fails only for an unknown name, a missing threshold, or
   * a rule that reads the length of a date range it never had; the order
   * history and digital rules never do the latter.
   */
  lemma CalculateScoreErrors(rt: Runtime, now: Instant, name: string, m: Metadata, p: Profile)
    requires Log1pPositive(rt.log1p)
    requires RuleOf(name).Some? ==> m.RuleOfMetadata() == RuleOf(name).value
    ensures var r := CalculateScore(rt, now, name, m, p);
            r.Failure? ==> r.error in {UnknownFileType(name), MissingSetting(ThresholdKey), UnboundDateRange}
    ensures var r := CalculateScore(rt, now, name, m, p);
            r.Failure? && r.error == UnboundDateRange ==>
              m.RuleOfMetadata() !in {DigitalItemsRule, OrderHistoryRule} && DateRangeDays(DatesOf(m)).None?
  {
  }

  /** Every score calculate_score returns for analyzer output is in [0, 1], and 0 without a latest date. */
  lemma CalculateScoreInUnit(rt: Runtime, now: Instant, name: string, m: Metadata, p: Profile)
    requires Log1pPositive(rt.log1p)
    requires RuleOf(name).Some? ==> m.RuleOfMetadata() == RuleOf(name).value
    ensures var r := CalculateScore(rt, now, name, m, p);
            r.Success? && m.Consistent() ==> 0.0 <= r.value.score <= 1.0
    ensures var r := CalculateScore(rt, now, name, m, p);
            r.Success? && DatesOf(m).latest.None? ==> r.value.score == 0.0
  {
  }
}
