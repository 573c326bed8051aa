/**
 * The metric extractors of proof_of_quality/data_analyzers.py: each turns
 * the rows of one category file into that category's metadata.
 */
module Analyzers {
  import opened Wrappers
  import opened PyText
  import opened Config
  import opened QualityUtils

  /** One CSV record: column name to cell text. */
  type Row = map<string, string>

  /** A collections.Counter of strings: how often each value occurs. */
  type Tally = multiset<string>

  /** len(dict(counter)): how many different values a tally holds. */
  function Kinds(t: Tally): nat {
    |set x | x in t|
  }

  /** The {earliest, latest} pair every extractor reports. */
  datatype DateRange = DateRange(earliest: Option<Instant>, latest: Option<Instant>) {
    /** Both present or both absent, and in order. */
    predicate Ordered() {
      && (earliest.None? <==> latest.None?)
      && (earliest.Some? ==> earliest.value <= latest.value)
    }
  }

  /** `row[key]` on a row that has the column; "" otherwise (the callers check the column first). */
  function Field(row: Row, key: string): string {
    if key in row then row[key] else ""
  }

  /** Every row has every listed column, so no `row[key]` raises KeyError. */
  predicate HasFields(rows: seq<Row>, keys: seq<string>) {
    forall i, k :: 0 <= i < |rows| && k in keys ==> k in rows[i]
  }

  /** The first listed column that some row lacks. */
  function FirstMissing(rows: seq<Row>, keys: seq<string>): (k: string)
    requires !HasFields(rows, keys)
    ensures k in keys && !HasFields(rows, [k])
  {
    if !HasFields(rows, [keys[0]]) then keys[0]
    else
      assert !HasFields(rows, keys[1..]) by {
        var i, k :| 0 <= i < |rows| && k in keys && k !in rows[i];
        assert keys[0] in [keys[0]];
        assert keys[0] in rows[i];
        assert k in keys[1..];
      }
      FirstMissing(rows, keys[1..])
  }

  /** The non-empty values of a column, in row order (`[r[key] for r in rows if r[key]]`). */
  function NonEmpty(rows: seq<Row>, key: string): (vs: seq<string>)
    ensures |vs| <= |rows|
    ensures forall j :: 0 <= j < |vs| ==> vs[j] != ""
    ensures forall i :: 0 <= i < |rows| && Field(rows[i], key) != "" ==> Field(rows[i], key) in vs
    ensures forall v :: v in vs ==> exists i :: 0 <= i < |rows| && Field(rows[i], key) == v
  {
    if rows == [] then []
    else
      var init := rows[..|rows| - 1];
      var v := Field(rows[|rows| - 1], key);
      var vs := NonEmpty(init, key);
      assert forall i :: 0 <= i < |init| ==> init[i] == rows[i];
      if v != "" then vs + [v] else vs
  }

  /** `set(r[key] for r in rows if r[key])`; never larger than the number of rows. */
  function Distinct(rows: seq<Row>, key: string): (d: set<string>)
    ensures |d| <= |rows|
  {
    if rows == [] then {}
    else
      var init := rows[..|rows| - 1];
      var v := Field(rows[|rows| - 1], key);
      var d := Distinct(init, key);
      if v != "" then d + {v} else d
  }

  /** `Counter(r[key] for r in rows if r[key])`. */
  function Count(rows: seq<Row>, key: string): (t: Tally)
    ensures |t| <= |rows|
  {
    multiset(NonEmpty(rows, key))
  }

  /** The set holds exactly the non-empty values of the column. */
  lemma {:induction false} DistinctMembers(rows: seq<Row>, key: string)
    ensures forall v :: v in Distinct(rows, key) <==> v in NonEmpty(rows, key)
  {
    if rows != [] {
      DistinctMembers(rows[..|rows| - 1], key);
    }
  }

  /** A tally has as many keys as the column has distinct non-empty values. */
  lemma CountKinds(rows: seq<Row>, key: string)
    ensures (set x | x in Count(rows, key)) == Distinct(rows, key)
    ensures Kinds(Count(rows, key)) <= |rows|
  {
    DistinctMembers(rows, key);
  }

  lemma {:induction false} MultiplicityBound(s: seq<string>, v: string)
    ensures multiset(s)[v] <= |s|
  {
    if s != [] {
      var init := s[..|s| - 1];
      assert s == init + [s[|s| - 1]];
      MultiplicityBound(init, v);
    }
  }

  /** No value of a tally is counted more often than there are rows. */
  lemma CountBound(rows: seq<Row>, key: string, v: string)
    ensures Count(rows, key)[v] <= |rows|
  {
    MultiplicityBound(NonEmpty(rows, key), v);
  }

  /** Every non-empty value of the column parses as a date. */
  predicate DatesParse(rt: Runtime, rows: seq<Row>, key: string) {
    forall i :: 0 <= i < |rows| && Field(rows[i], key) != "" ==> ParseDate(rt, Field(rows[i], key)).Success?
  }

  /** `[parse_date(v) for v in vs]`; the first unparsable value aborts. */
  function ParseAll(rt: Runtime, vs: seq<string>): (r: Result<seq<Instant>, Error>)
    ensures r.Success? <==> forall j :: 0 <= j < |vs| ==> ParseDate(rt, vs[j]).Success?
    ensures r.Success? ==> |r.value| == |vs| && forall j :: 0 <= j < |vs| ==> Success(r.value[j]) == ParseDate(rt, vs[j])
  {
    if vs == [] then Success([])
    else
      var init := vs[..|vs| - 1];
      var head := ParseAll(rt, init);
      var tail := ParseDate(rt, vs[|vs| - 1]);
      assert forall j :: 0 <= j < |init| ==> init[j] == vs[j];
      if head.Failure? then Failure(head.error)
      else if tail.Failure? then Failure(tail.error)
      else
        var ds := head.value + [tail.value];
        assert forall j :: 0 <= j < |vs| ==> Success(ds[j]) == ParseDate(rt, vs[j]) by {
          forall j | 0 <= j < |vs| ensures Success(ds[j]) == ParseDate(rt, vs[j]) {
            if j < |init| { assert ds[j] == head.value[j]; }
          }
        }
        Success(ds)
  }

  /** `[parse_date(r[key]) for r in rows if r[key]]`. */
  function ParsedDates(rt: Runtime, rows: seq<Row>, key: string): (r: Result<seq<Instant>, Error>)
    ensures r.Success? <==> DatesParse(rt, rows, key)
    ensures r.Success? ==> (r.value == [] <==> forall i :: 0 <= i < |rows| ==> Field(rows[i], key) == "")
    ensures r.Success? ==> forall i :: 0 <= i < |rows| && Field(rows[i], key) != "" ==>
                             ParseDate(rt, Field(rows[i], key)).value in r.value
    ensures r.Success? ==> forall d :: d in r.value ==>
                             exists i :: 0 <= i < |rows| && ParseDate(rt, Field(rows[i], key)) == Success(d)
  {
    var vs := NonEmpty(rows, key);
    var r := ParseAll(rt, vs);
    assert r.Success? ==> DatesParse(rt, rows, key) by {
      if r.Success? {
        forall i | 0 <= i < |rows| && Field(rows[i], key) != ""
          ensures ParseDate(rt, Field(rows[i], key)).Success?
        {
          var j :| 0 <= j < |vs| && vs[j] == Field(rows[i], key);
        }
      }
    }
    assert DatesParse(rt, rows, key) ==> r.Success? by {
      if DatesParse(rt, rows, key) {
        forall j | 0 <= j < |vs| ensures ParseDate(rt, vs[j]).Success? {
          assert vs[j] in vs;
          var i :| 0 <= i < |rows| && Field(rows[i], key) == vs[j];
        }
      }
    }
    if r.Success? then
      var ds := r.value;
      assert forall i :: 0 <= i < |rows| && Field(rows[i], key) != "" ==> ParseDate(rt, Field(rows[i], key)).value in ds by {
        forall i | 0 <= i < |rows| && Field(rows[i], key) != ""
          ensures ParseDate(rt, Field(rows[i], key)).value in ds
        {
          var j :| 0 <= j < |vs| && vs[j] == Field(rows[i], key);
          assert ds[j] == ParseDate(rt, vs[j]).value;
        }
      }
      assert forall d :: d in ds ==> exists i :: 0 <= i < |rows| && ParseDate(rt, Field(rows[i], key)) == Success(d) by {
        forall d | d in ds
          ensures exists i :: 0 <= i < |rows| && ParseDate(rt, Field(rows[i], key)) == Success(d)
        {
          var j :| 0 <= j < |ds| && ds[j] == d;
          assert vs[j] in vs;
          var i :| 0 <= i < |rows| && Field(rows[i], key) == vs[j];
        }
      }
      assert ds == [] <==> vs == [];
      assert vs == [] <==> forall i :: 0 <= i < |rows| ==> Field(rows[i], key) == "" by {
        if vs != [] {
          assert vs[0] in vs;
          var i :| 0 <= i < |rows| && Field(rows[i], key) == vs[0];
        }
      }
      r
    else r
  }

  function MinOf(ds: seq<Instant>): (m: Instant)
    requires ds != []
    ensures m in ds && forall d :: d in ds ==> m <= d
  {
    if |ds| == 1 then ds[0]
    else
      var init := ds[..|ds| - 1];
      assert ds == init + [ds[|ds| - 1]];
      var m := MinOf(init);
      if ds[|ds| - 1] < m then ds[|ds| - 1] else m
  }

  function MaxOf(ds: seq<Instant>): (m: Instant)
    requires ds != []
    ensures m in ds && forall d :: d in ds ==> d <= m
  {
    if |ds| == 1 then ds[0]
    else
      var init := ds[..|ds| - 1];
      assert ds == init + [ds[|ds| - 1]];
      var m := MaxOf(init);
      if ds[|ds| - 1] > m then ds[|ds| - 1] else m
  }

  /** `min(ds) if ds else None`, `max(ds) if ds else None`. */
  function RangeOf(ds: seq<Instant>): (r: DateRange)
    ensures r.Ordered()
    ensures r.earliest.None? <==> ds == []
  {
    if ds == [] then DateRange(None, None) else DateRange(Some(MinOf(ds)), Some(MaxOf(ds)))
  }

  /** Both ends of a range are among the dates, and every date lies between them. */
  lemma RangeOfSpans(ds: seq<Instant>)
    ensures RangeOf(ds).earliest.Some? ==> RangeOf(ds).earliest.value in ds && RangeOf(ds).latest.value in ds
    ensures RangeOf(ds).earliest.Some? ==> forall d :: d in ds ==> RangeOf(ds).earliest.value <= d <= RangeOf(ds).latest.value
  {
  }

  /**
   * The date range of one column: fails iff some non-empty value does not
   * parse; absent iff no row has a value; otherwise it spans every parsed
   * value and both ends are parsed values of some row.
   */
  function DateRangeOf(rt: Runtime, rows: seq<Row>, key: string): (r: Result<DateRange, Error>)
    ensures r.Success? <==> DatesParse(rt, rows, key)
    ensures r.Success? ==> r.value.Ordered()
    ensures r.Success? ==> (r.value.earliest.None? <==> forall i :: 0 <= i < |rows| ==> Field(rows[i], key) == "")
    ensures r.Success? ==> forall i :: 0 <= i < |rows| && Field(rows[i], key) != "" ==>
              r.value.earliest.value <= ParseDate(rt, Field(rows[i], key)).value <= r.value.latest.value
    ensures r.Success? && r.value.earliest.Some? ==>
              (exists i :: 0 <= i < |rows| && ParseDate(rt, Field(rows[i], key)) == Success(r.value.earliest.value))
              && (exists i :: 0 <= i < |rows| && ParseDate(rt, Field(rows[i], key)) == Success(r.value.latest.value))
  {
    match ParsedDates(rt, rows, key)
    case Failure(e) => Failure(e)
    case Success(ds) =>
      RangeOfSpans(ds);
      Success(RangeOf(ds))
  }

  function Sum(xs: seq<real>): real {
    if xs == [] then 0.0 else Sum(xs[..|xs| - 1]) + xs[|xs| - 1]
  }

  /** A sum of equal terms is their number times the term. */
  lemma {:induction false} SumConstant(xs: seq<real>, c: real)
    requires forall j :: 0 <= j < |xs| ==> xs[j] == c
    ensures Sum(xs) == |xs| as real * c
  {
    if xs != [] {
      SumConstant(xs[..|xs| - 1], c);
    }
  }

  /** `max(xs, default=0)`. */
  function MaxOrZero(xs: seq<real>): (m: real)
    ensures xs == [] ==> m == 0.0
    ensures xs != [] ==> m in xs && forall x :: x in xs ==> x <= m
  {
    if xs == [] then 0.0
    else if |xs| == 1 then xs[0]
    else
      var init := xs[..|xs| - 1];
      assert xs == init + [xs[|xs| - 1]];
      var m := MaxOrZero(init);
      if xs[|xs| - 1] > m then xs[|xs| - 1] else m
  }

  /** `parse_float(r[key]) for r in rows if r[key]`. */
  function ParsedFloats(rt: Runtime, rows: seq<Row>, key: string): (xs: seq<real>)
    ensures |xs| == |NonEmpty(rows, key)|
  {
    var vs := NonEmpty(rows, key);
    seq(|vs|, j requires 0 <= j < |vs| => ParseFloat(rt, vs[j]))
  }

  /** `sum(parse_float(r[key]) for r in rows if r[key])`. */
  function FloatTotal(rt: Runtime, rows: seq<Row>, key: string): (r: real)
    ensures (forall i :: 0 <= i < |rows| ==> Field(rows[i], key) == "") ==> r == 0.0
  {
    var vs := NonEmpty(rows, key);
    assert |vs| > 0 ==> vs[0] in vs && vs[0] != "";
    Sum(ParsedFloats(rt, rows, key))
  }

  /** Every non-empty value of the column is an int() literal. */
  predicate IntsParse(rows: seq<Row>, key: string) {
    forall i :: 0 <= i < |rows| && Field(rows[i], key) != "" ==> ParseInt(Field(rows[i], key)).Some?
  }

  /** `sum(int(r[key]) for r in rows if r[key])`; the first non-integer raises. */
  function IntTotal(rows: seq<Row>, key: string): (r: Result<int, Error>)
    ensures r.Failure? ==> r.error.MalformedInt?
  {
    if rows == [] then Success(0)
    else
      var init := rows[..|rows| - 1];
      var v := Field(rows[|rows| - 1], key);
      match IntTotal(init, key)
      case Failure(e) => Failure(e)
      case Success(n) =>
        if v == "" then Success(n)
        else
          match ParseInt(v)
          case None => Failure(MalformedInt(v))
          case Some(x) => Success(n + x)
  }

  /** The strict sum succeeds iff every non-empty value is an int() literal. */
  lemma {:induction false} IntTotalSucceeds(rows: seq<Row>, key: string)
    ensures IntTotal(rows, key).Success? <==> IntsParse(rows, key)
  {
    if rows != [] {
      var init := rows[..|rows| - 1];
      var v := Field(rows[|rows| - 1], key);
      IntTotalSucceeds(init, key);
      assert IntTotal(rows, key).Success? <==> IntTotal(init, key).Success? && (v != "" ==> ParseInt(v).Some?);
      IntsParseSnoc(rows, key);
    }
  }

  lemma IntsParseSnoc(rows: seq<Row>, key: string)
    requires rows != []
    ensures IntsParse(rows, key) <==>
              IntsParse(rows[..|rows| - 1], key)
              && (Field(rows[|rows| - 1], key) != "" ==> ParseInt(Field(rows[|rows| - 1], key)).Some?)
  {
    var init := rows[..|rows| - 1];
    assert forall i :: 0 <= i < |init| ==> init[i] == rows[i];
  }

  /** `sum(int(r[key]) for r in rows if r[key].isdigit())`: other values are skipped, never fatal. */
  function DigitTotal(rows: seq<Row>, key: string): (t: nat)
    ensures (forall i :: 0 <= i < |rows| ==> !IsDigitString(Field(rows[i], key))) ==> t == 0
    ensures forall i :: 0 <= i < |rows| && IsDigitString(Field(rows[i], key)) ==> DecimalValue(Field(rows[i], key)) <= t
  {
    if rows == [] then 0
    else
      var init := rows[..|rows| - 1];
      var v := Field(rows[|rows| - 1], key);
      assert forall i :: 0 <= i < |init| ==> init[i] == rows[i];
      DigitTotal(init, key) + (if IsDigitString(v) then DecimalValue(v) else 0)
  }

  /** A quantity with surrounding spaces counts for order history but is skipped for the cart. */
  lemma QuantityParsersDiffer()
    ensures DigitTotal([map["Quantity" := " 5"]], "Quantity") == 0
    ensures IntTotal([map["Quantity" := " 5"]], "Quantity") == Success(5)
  {
    var rows: seq<Row> := [map["Quantity" := " 5"]];
    assert rows[..0] == [];
    assert Field(rows[0], "Quantity") == " 5";
    assert !IsDigit(" 5"[0]);
    PaddedFive();
  }

  lemma PaddedFive()
    ensures ParseInt(" 5") == Some(5)
  {
    assert " 5"[1..] == "5";
    assert Strip(" 5", Whitespace) == "5";
    assert GroupsValue("5") == Some(5);
  }

  /** Rows whose `Gift Message` is not 'Not Available' (a missing field counts). */
  function GiftOrders(rows: seq<Row>): (n: nat)
    ensures n <= |rows|
  {
    if rows == [] then 0
    else
      var last := rows[|rows| - 1];
      GiftOrders(rows[..|rows| - 1]) + (if "Gift Message" !in last || last["Gift Message"] != "Not Available" then 1 else 0)
  }

  lemma RatioInUnit(a: real, b: real)
    requires 0.0 <= a <= b && 0.0 < b
    ensures 0.0 <= a / b <= 1.0
  {
  }

  // ---------------------------------------------------------------------
  // Category metadata
  // ---------------------------------------------------------------------

  datatype CartMetadata = CartMetadata(
    numItems: nat, totalQuantity: nat, uniqueProducts: nat, dateRange: DateRange,
    cartLists: Tally, oneClickBuyable: Tally, giftWrapped: Tally,
    primeSubscription: Tally, pantry: Tally, addon: Tally)
  {
    predicate Consistent() {
      && uniqueProducts <= numItems
      && |cartLists| <= numItems && cartLists["active"] <= numItems
      && |oneClickBuyable| <= numItems && |giftWrapped| <= numItems
      && |primeSubscription| <= numItems && |pantry| <= numItems && |addon| <= numItems
      && dateRange.Ordered()
    }
  }

  datatype DigitalMetadata = DigitalMetadata(
    numItems: nat, uniqueProducts: nat, uniqueOrders: nat, countries: Tally, currencies: Tally,
    totalAmount: real, productNamesSample: seq<string>, dateRange: DateRange)
  {
    predicate Consistent() {
      && uniqueProducts <= numItems && uniqueOrders <= numItems
      && |countries| <= numItems && |currencies| <= numItems
      && |productNamesSample| <= 5
      && dateRange.Ordered()
    }
  }

  datatype OrderHistoryMetadata = OrderHistoryMetadata(
    numOrders: nat, totalAmount: real, avgOrderValue: real, totalItems: int, avgItemsPerOrder: real,
    uniqueProducts: nat, dateRange: DateRange, websites: Tally, paymentMethods: Tally,
    orderStatuses: Tally, totalShipping: real, totalDiscounts: real, mostExpensiveItem: real,
    giftOrdersPercentage: real)
  {
    predicate Consistent() {
      && uniqueProducts <= numOrders
      && Kinds(websites) <= numOrders && Kinds(paymentMethods) <= numOrders
      && |orderStatuses| <= numOrders && orderStatuses["Closed"] <= numOrders
      && 0.0 <= giftOrdersPercentage <= 100.0
      && (numOrders == 0 ==> avgOrderValue == 0.0 && avgItemsPerOrder == 0.0 && giftOrdersPercentage == 0.0)
      && dateRange.Ordered()
    }
  }

  datatype AudiblePurchaseMetadata = AudiblePurchaseMetadata(
    numPurchases: nat, totalAmountSpent: real, uniqueAudiobooks: nat, dateRange: DateRange,
    purchaseTypes: Tally, statuses: Tally)
  {
    predicate Consistent() {
      && uniqueAudiobooks <= numPurchases
      && Kinds(purchaseTypes) <= numPurchases && |statuses| <= numPurchases
      && dateRange.Ordered()
    }
  }

  datatype AudibleLibraryMetadata = AudibleLibraryMetadata(
    numItemsInLibrary: nat, uniqueAudiobooks: nat, dateRange: DateRange,
    downloaded: Tally, deleted: Tally, originTypes: Tally)
  {
    predicate Consistent() {
      && uniqueAudiobooks <= numItemsInLibrary
      && |downloaded| <= numItemsInLibrary && downloaded["Yes"] <= numItemsInLibrary
      && |deleted| <= numItemsInLibrary && |originTypes| <= numItemsInLibrary
      && dateRange.Ordered()
    }
  }

  datatype AudibleBillingsMetadata = AudibleBillingsMetadata(
    numBillings: nat, totalAmountSpent: real, dateRange: DateRange,
    plans: Tally, statuses: Tally, currencies: Tally)
  {
    predicate Consistent() {
      && |plans| <= numBillings && |statuses| <= numBillings && |currencies| <= numBillings
      && dateRange.Ordered()
    }
  }

  datatype VideoViewingMetadata = VideoViewingMetadata(
    numViewingSessions: nat, totalHoursViewed: real, uniqueTitlesWatched: nat, dateRange: DateRange,
    contentQualities: Tally, devicesUsed: Tally)
  {
    predicate Consistent() {
      && uniqueTitlesWatched <= numViewingSessions
      && |contentQualities| <= numViewingSessions && Kinds(devicesUsed) <= numViewingSessions
      && dateRange.Ordered()
    }
  }

  /** What analyze_data returns, one variant per rule. */
  datatype Metadata =
    | CartItems(cart: CartMetadata)
    | DigitalItems(digital: DigitalMetadata)
    | OrderHistory(orders: OrderHistoryMetadata)
    | AudiblePurchases(purchases: AudiblePurchaseMetadata)
    | AudibleLibrary(library: AudibleLibraryMetadata)
    | AudibleBillings(billings: AudibleBillingsMetadata)
    | VideoViewing(viewing: VideoViewingMetadata)
  {
    function RuleOfMetadata(): Rule {
      match this
      case CartItems(_) => CartItemsRule
      case DigitalItems(_) => DigitalItemsRule
      case OrderHistory(_) => OrderHistoryRule
      case AudiblePurchases(_) => AudiblePurchaseRule
      case AudibleLibrary(_) => AudibleLibraryRule
      case AudibleBillings(_) => AudibleBillingsRule
      case VideoViewing(_) => VideoViewingRule
    }

    /** The primary count field (num_items, num_orders, ...). */
    function RowCount(): nat {
      match this
      case CartItems(m) => m.numItems
      case DigitalItems(m) => m.numItems
      case OrderHistory(m) => m.numOrders
      case AudiblePurchases(m) => m.numPurchases
      case AudibleLibrary(m) => m.numItemsInLibrary
      case AudibleBillings(m) => m.numBillings
      case VideoViewing(m) => m.numViewingSessions
    }

    predicate Consistent() {
      match this
      case CartItems(m) => m.Consistent()
      case DigitalItems(m) => m.Consistent()
      case OrderHistory(m) => m.Consistent()
      case AudiblePurchases(m) => m.Consistent()
      case AudibleLibrary(m) => m.Consistent()
      case AudibleBillings(m) => m.Consistent()
      case VideoViewing(m) => m.Consistent()
    }
  }

  // ---------------------------------------------------------------------
  // The extractors
  // ---------------------------------------------------------------------

  /** The columns each extractor indexes unconditionally, in the order it reads them. */
  const CartFields: seq<string> := ["Quantity", "ASIN", "DateAddedToCart", "CartList", "OneClickBuyable",
                                    "ToBeGiftWrapped", "PrimeSubscription", "Pantry", "AddOn"]
  const DigitalFields: seq<string> := ["ASIN", "OrderId", "DeclaredCountryCode", "BaseCurrencyCode", "ProductName"]
  const OrderHistoryFields: seq<string> := ["Total Owed", "Quantity", "ASIN", "Order Date", "Website",
                                            "Payment Instrument Type", "Order Status", "Shipping Charge",
                                            "Total Discounts", "Unit Price"]
  const PurchaseFields: seq<string> := ["Price Paid Member", "ASIN", "Order Place Date", "Type", "Status"]
  const LibraryFields: seq<string> := ["ASIN", "Date Added", "Downloaded", "Deleted", "Origin Type"]
  const BillingsFields: seq<string> := ["Total Amount", "Billing Period Start Date", "Plan", "Status", "Currency"]
  const VideoFields: seq<string> := ["Seconds Viewed", "Title", "Playback Start Datetime (UTC)",
                                     "Content Quality Delivered", "Device Manufacturer Name"]

  /** analyze_cart_items_data. */
  function AnalyzeCartItems(rt: Runtime, rows: seq<Row>): (r: Result<CartMetadata, Error>)
    ensures r.Success? <==> HasFields(rows, CartFields) && DatesParse(rt, rows, "DateAddedToCart")
    ensures r.Success? ==> r.value.numItems == |rows| && r.value.Consistent()
    ensures r.Success? ==> DateRangeOf(rt, rows, "DateAddedToCart") == Success(r.value.dateRange)
    ensures r.Success? ==> r.value.totalQuantity == DigitTotal(rows, "Quantity")
                           && r.value.uniqueProducts == |Distinct(rows, "ASIN")|
    ensures r.Success? ==> r.value.cartLists == Count(rows, "CartList")
                           && r.value.oneClickBuyable == Count(rows, "OneClickBuyable")
                           && r.value.giftWrapped == Count(rows, "ToBeGiftWrapped")
                           && r.value.primeSubscription == Count(rows, "PrimeSubscription")
                           && r.value.pantry == Count(rows, "Pantry") && r.value.addon == Count(rows, "AddOn")
  {
    if !HasFields(rows, CartFields) then Failure(MissingField(FirstMissing(rows, CartFields)))
    else
      match DateRangeOf(rt, rows, "DateAddedToCart")
      case Failure(e) => Failure(e)
      case Success(range) =>
        CountBound(rows, "CartList", "active");
        Success(CartMetadata(
          |rows|, DigitTotal(rows, "Quantity"), |Distinct(rows, "ASIN")|, range,
          Count(rows, "CartList"), Count(rows, "OneClickBuyable"), Count(rows, "ToBeGiftWrapped"),
          Count(rows, "PrimeSubscription"), Count(rows, "Pantry"), Count(rows, "AddOn")))
  }

  const NotApplicable := "Not Applicable"

  /**
   * The dates one digital-items row contributes: none when either date is
   * 'Not Applicable' (FulfilledDate is only read when OrderDate is not),
   * otherwise both, each read by fromisoformat after removing every 'Z'.
   */
  function DigitalRowDates(rt: Runtime, row: Row): (r: Result<seq<Instant>, Error>)
    ensures r.Success? ==> |r.value| == 0 || |r.value| == 2
  {
    if "OrderDate" !in row then Failure(MissingField("OrderDate"))
    else if row["OrderDate"] == NotApplicable then Success([])
    else if "FulfilledDate" !in row then Failure(MissingField("FulfilledDate"))
    else if row["FulfilledDate"] == NotApplicable then Success([])
    else
      match rt.fromIsoFormat(Remove(row["OrderDate"], 'Z'))
      case None => Failure(MalformedDate(row["OrderDate"]))
      case Some(ordered) =>
        match rt.fromIsoFormat(Remove(row["FulfilledDate"], 'Z'))
        case None => Failure(MalformedDate(row["FulfilledDate"]))
        case Some(fulfilled) => Success([ordered, fulfilled])
  }

  /** The dates of all rows, in order; the first failing row aborts. */
  function DigitalDates(rt: Runtime, rows: seq<Row>): (r: Result<seq<Instant>, Error>)
    ensures r.Success? ==> |r.value| % 2 == 0 && |r.value| <= 2 * |rows|
  {
    if rows == [] then Success([])
    else
      var init := rows[..|rows| - 1];
      match DigitalDates(rt, init)
      case Failure(e) => Failure(e)
      case Success(ds) =>
        match DigitalRowDates(rt, rows[|rows| - 1])
        case Failure(e) => Failure(e)
        case Success(more) => Success(ds + more)
  }

  /** The dates of all rows are read iff every row's are. */
  lemma {:induction false} DigitalDatesSucceed(rt: Runtime, rows: seq<Row>)
    ensures DigitalDates(rt, rows).Success? <==> forall i :: 0 <= i < |rows| ==> DigitalRowDates(rt, rows[i]).Success?
  {
    if rows != [] {
      var init := rows[..|rows| - 1];
      DigitalDatesSucceed(rt, init);
      assert DigitalDates(rt, rows).Success? <==>
             DigitalDates(rt, init).Success? && DigitalRowDates(rt, rows[|rows| - 1]).Success?;
      DigitalRowsSnoc(rt, rows, init);
    }
  }

  lemma DigitalRowsSnoc(rt: Runtime, rows: seq<Row>, init: seq<Row>)
    requires rows != [] && init == rows[..|rows| - 1]
    ensures (forall i :: 0 <= i < |rows| ==> DigitalRowDates(rt, rows[i]).Success?) <==>
            (forall i :: 0 <= i < |init| ==> DigitalRowDates(rt, init[i]).Success?)
            && DigitalRowDates(rt, rows[|rows| - 1]).Success?
  {
    assert forall i :: 0 <= i < |init| ==> init[i] == rows[i];
  }

  /** The min/max over both dates of every row that is not skipped. */
  function DigitalDateRange(rt: Runtime, rows: seq<Row>): (r: Result<DateRange, Error>)
    ensures r.Success? ==> r.value.Ordered()
    ensures r.Success? ==> (r.value.earliest.None? <==> forall i :: 0 <= i < |rows| ==> DigitalRowDates(rt, rows[i]) == Success([]))
  {
    match DigitalDates(rt, rows)
    case Failure(e) => Failure(e)
    case Success(ds) =>
      DigitalDatesEmpty(rt, rows);
      Success(RangeOf(ds))
  }

  lemma {:induction false} DigitalDatesEmpty(rt: Runtime, rows: seq<Row>)
    requires DigitalDates(rt, rows).Success?
    ensures DigitalDates(rt, rows).value == [] <==> forall i :: 0 <= i < |rows| ==> DigitalRowDates(rt, rows[i]) == Success([])
  {
    if rows != [] {
      var init := rows[..|rows| - 1];
      assert forall i :: 0 <= i < |init| ==> init[i] == rows[i];
      DigitalDatesEmpty(rt, init);
    }
  }

  /** Once a prefix of the rows fails, so do all the rows. */
  lemma {:induction false} DigitalDatesPrefixFails(rt: Runtime, rows: seq<Row>, n: nat)
    requires n <= |rows| && DigitalDates(rt, rows[..n]).Failure?
    ensures DigitalDates(rt, rows) == DigitalDates(rt, rows[..n])
    decreases |rows| - n
  {
    if n < |rows| {
      assert rows[..n + 1][..n] == rows[..n];
      DigitalDatesPrefixFails(rt, rows, n + 1);
    } else {
      assert rows[..n] == rows;
    }
  }

  /** Row `i` extends the dates of the rows before it, or fails for all of them. */
  lemma DigitalDatesStep(rt: Runtime, rows: seq<Row>, i: nat)
    requires i < |rows| && DigitalDates(rt, rows[..i]).Success?
    ensures DigitalRowDates(rt, rows[i]).Failure? ==>
              DigitalDates(rt, rows) == Failure(DigitalRowDates(rt, rows[i]).error)
    ensures DigitalRowDates(rt, rows[i]).Success? ==>
              DigitalDates(rt, rows[..i + 1]) == Success(DigitalDates(rt, rows[..i]).value + DigitalRowDates(rt, rows[i]).value)
  {
    assert rows[..i + 1][..i] == rows[..i];
    if DigitalRowDates(rt, rows[i]).Failure? {
      DigitalDatesPrefixFails(rt, rows, i + 1);
    }
  }

  /** The range after also seeing `d`: each end moves to `d` if `d` lies beyond it. */
  function Extend(r: DateRange, d: Instant): DateRange {
    DateRange(
      Some(if r.earliest.None? || d < r.earliest.value then d else r.earliest.value),
      Some(if r.latest.None? || d > r.latest.value then d else r.latest.value))
  }

  lemma RangeAppend(ds: seq<Instant>, d: Instant)
    ensures RangeOf(ds + [d]) == Extend(RangeOf(ds), d)
  {
    if ds != [] {
      assert (ds + [d])[..|ds|] == ds;
    }
  }

  lemma DigitalDateRangeOutcome(rt: Runtime, rows: seq<Row>)
    ensures DigitalDates(rt, rows).Failure? ==> DigitalDateRange(rt, rows) == Failure(DigitalDates(rt, rows).error)
    ensures DigitalDates(rt, rows).Success? ==> DigitalDateRange(rt, rows) == Success(RangeOf(DigitalDates(rt, rows).value))
  {
  }

  /** The range after one row's dates: unchanged for none, else widened by both in turn. */
  lemma RangeAppendRow(ds: seq<Instant>, more: seq<Instant>)
    requires |more| == 0 || |more| == 2
    ensures RangeOf(ds + more) == if more == [] then RangeOf(ds) else Extend(Extend(RangeOf(ds), more[0]), more[1])
  {
    if more == [] {
      assert ds + more == ds;
    } else {
      RangeAppend(ds, more[0]);
      RangeAppend(ds + [more[0]], more[1]);
      assert ds + [more[0]] + [more[1]] == ds + more;
    }
  }

  /** The loop of analyze_digital_items_data, tracking min_date and max_date row by row. */
  method DigitalItemsDateRange(rt: Runtime, rows: seq<Row>) returns (r: Result<DateRange, Error>)
    ensures r == DigitalDateRange(rt, rows)
  {
    var minDate: Option<Instant> := None;
    var maxDate: Option<Instant> := None;
    ghost var seen: seq<Instant> := [];
    var i := 0;
    while i < |rows|
      invariant 0 <= i <= |rows|
      invariant DigitalDates(rt, rows[..i]) == Success(seen)
      invariant DateRange(minDate, maxDate) == RangeOf(seen)
    {
      var dates := ReadDigitalRow(rt, rows[i]);
      DigitalDatesStep(rt, rows, i);
      if dates.Failure? {
        DigitalDateRangeOutcome(rt, rows);
        return Failure(dates.error);
      }
      RangeAppendRow(seen, dates.value);
      if dates.value != [] {
        minDate, maxDate := Widen(minDate, maxDate, dates.value[0]);
        minDate, maxDate := Widen(minDate, maxDate, dates.value[1]);
      }
      seen := seen + dates.value;
      i := i + 1;
    }
    assert rows[..i] == rows;
    DigitalDateRangeOutcome(rt, rows);
    r := Success(DateRange(minDate, maxDate));
  }

  /** `if not min_date or d < min_date: min_date = d`, and likewise for max_date. */
  method Widen(minDate: Option<Instant>, maxDate: Option<Instant>, d: Instant)
    returns (newMin: Option<Instant>, newMax: Option<Instant>)
    ensures DateRange(newMin, newMax) == Extend(DateRange(minDate, maxDate), d)
  {
    newMin, newMax := minDate, maxDate;
    if newMin.None? || d < newMin.value { newMin := Some(d); }
    if newMax.None? || d > newMax.value { newMax := Some(d); }
  }

  /** The body of that loop for one row: the checks and the two fromisoformat calls. */
  method ReadDigitalRow(rt: Runtime, entry: Row) returns (dates: Result<seq<Instant>, Error>)
    ensures dates == DigitalRowDates(rt, entry)
  {
    if "OrderDate" !in entry {
      return Failure(MissingField("OrderDate"));
    }
    if entry["OrderDate"] == NotApplicable {
      return Success([]);
    }
    if "FulfilledDate" !in entry {
      return Failure(MissingField("FulfilledDate"));
    }
    if entry["FulfilledDate"] == NotApplicable {
      return Success([]);
    }
    var orderDate := rt.fromIsoFormat(Remove(entry["OrderDate"], 'Z'));
    if orderDate.None? {
      return Failure(MalformedDate(entry["OrderDate"]));
    }
    var fulfilledDate := rt.fromIsoFormat(Remove(entry["FulfilledDate"], 'Z'));
    if fulfilledDate.None? {
      return Failure(MalformedDate(entry["FulfilledDate"]));
    }
    dates := Success([orderDate.value, fulfilledDate.value]);
  }

  /** `sum(parse_float(r.get('ListPriceAmount', '0')) for r in rows)`. */
  function ListPriceTotal(rt: Runtime, rows: seq<Row>): (r: real)
    ensures (forall i :: 0 <= i < |rows| ==> "ListPriceAmount" !in rows[i]) ==> r == |rows| as real * ParseFloat(rt, "0")
  {
    var xs := seq(|rows|, i requires 0 <= i < |rows| =>
      ParseFloat(rt, if "ListPriceAmount" in rows[i] then rows[i]["ListPriceAmount"] else "0"));
    if forall i :: 0 <= i < |rows| ==> "ListPriceAmount" !in rows[i] then
      SumConstant(xs, ParseFloat(rt, "0"));
      Sum(xs)
    else
      Sum(xs)
  }

  /** analyze_digital_items_data, with the date loop stated by its specification. */
  function AnalyzeDigitalItems(rt: Runtime, rows: seq<Row>): (r: Result<DigitalMetadata, Error>)
    ensures r.Success? <==> HasFields(rows, DigitalFields) && forall i :: 0 <= i < |rows| ==> DigitalRowDates(rt, rows[i]).Success?
    ensures r.Success? ==> r.value.numItems == |rows| && r.value.Consistent()
    ensures r.Success? ==> DigitalDateRange(rt, rows) == Success(r.value.dateRange)
    ensures r.Success? ==> r.value.uniqueProducts == |Distinct(rows, "ASIN")|
                           && r.value.uniqueOrders == |Distinct(rows, "OrderId")|
                           && r.value.totalAmount == ListPriceTotal(rt, rows)
    ensures r.Success? ==> r.value.countries == Count(rows, "DeclaredCountryCode")
                           && r.value.currencies == Count(rows, "BaseCurrencyCode")
    ensures r.Success? ==> r.value.productNamesSample <= NonEmpty(rows, "ProductName")
                           && |r.value.productNamesSample| == (if |NonEmpty(rows, "ProductName")| < 5 then |NonEmpty(rows, "ProductName")| else 5)
  {
    if !HasFields(rows, DigitalFields) then Failure(MissingField(FirstMissing(rows, DigitalFields)))
    else
      DigitalDatesSucceed(rt, rows);
      match DigitalDateRange(rt, rows)
      case Failure(e) => Failure(e)
      case Success(range) =>
        var names := NonEmpty(rows, "ProductName");
        Success(DigitalMetadata(
          |rows|, |Distinct(rows, "ASIN")|, |Distinct(rows, "OrderId")|,
          Count(rows, "DeclaredCountryCode"), Count(rows, "BaseCurrencyCode"),
          ListPriceTotal(rt, rows), names[..if |names| < 5 then |names| else 5], range))
  }

  /** analyze_digital_items_data as the source runs it: the same result as its specification. */
  method AnalyzeDigitalItemsData(rt: Runtime, rows: seq<Row>) returns (r: Result<DigitalMetadata, Error>)
    ensures r == AnalyzeDigitalItems(rt, rows)
  {
    if !HasFields(rows, DigitalFields) {
      return Failure(MissingField(FirstMissing(rows, DigitalFields)));
    }
    var range := DigitalItemsDateRange(rt, rows);
    if range.Failure? {
      return Failure(range.error);
    }
    var names := NonEmpty(rows, "ProductName");
    r := Success(DigitalMetadata(
      |rows|, |Distinct(rows, "ASIN")|, |Distinct(rows, "OrderId")|,
      Count(rows, "DeclaredCountryCode"), Count(rows, "BaseCurrencyCode"),
      ListPriceTotal(rt, rows), names[..if |names| < 5 then |names| else 5], range.value));
  }

  /** analyze_order_history_data (amounts unrounded). */
  function AnalyzeOrderHistory(rt: Runtime, rows: seq<Row>): (r: Result<OrderHistoryMetadata, Error>)
    ensures r.Success? <==> HasFields(rows, OrderHistoryFields) && IntsParse(rows, "Quantity")
                            && DatesParse(rt, rows, "Order Date")
    ensures r.Success? ==> r.value.numOrders == |rows| && r.value.Consistent()
    ensures r.Success? ==> DateRangeOf(rt, rows, "Order Date") == Success(r.value.dateRange)
                           && IntTotal(rows, "Quantity") == Success(r.value.totalItems)
    ensures r.Success? ==> r.value.totalAmount == FloatTotal(rt, rows, "Total Owed")
                           && r.value.totalShipping == FloatTotal(rt, rows, "Shipping Charge")
                           && r.value.totalDiscounts == FloatTotal(rt, rows, "Total Discounts")
                           && r.value.mostExpensiveItem == MaxOrZero(ParsedFloats(rt, rows, "Unit Price"))
    ensures r.Success? && |rows| > 0 ==> r.value.avgOrderValue == r.value.totalAmount / |rows| as real
                                         && r.value.avgItemsPerOrder == r.value.totalItems as real / |rows| as real
                                         && r.value.giftOrdersPercentage == GiftOrders(rows) as real / |rows| as real * 100.0
    ensures r.Success? && |rows| == 0 ==> r.value.avgOrderValue == 0.0 && r.value.avgItemsPerOrder == 0.0
                                          && r.value.giftOrdersPercentage == 0.0
    ensures r.Success? ==> r.value.uniqueProducts == |Distinct(rows, "ASIN")|
                           && r.value.websites == Count(rows, "Website")
                           && r.value.paymentMethods == Count(rows, "Payment Instrument Type")
                           && r.value.orderStatuses == Count(rows, "Order Status")
  {
    if !HasFields(rows, OrderHistoryFields) then Failure(MissingField(FirstMissing(rows, OrderHistoryFields)))
    else
      IntTotalSucceeds(rows, "Quantity");
      match IntTotal(rows, "Quantity")
      case Failure(e) => Failure(e)
      case Success(items) =>
        match DateRangeOf(rt, rows, "Order Date")
        case Failure(e) => Failure(e)
        case Success(range) =>
          var n := |rows|;
          var amount := FloatTotal(rt, rows, "Total Owed");
          var gifts := GiftOrders(rows);
          CountBound(rows, "Order Status", "Closed");
          CountKinds(rows, "Website");
          CountKinds(rows, "Payment Instrument Type");
          assert n > 0 ==> 0.0 <= gifts as real / n as real <= 1.0 by {
            if n > 0 { RatioInUnit(gifts as real, n as real); }
          }
          Success(OrderHistoryMetadata(
            n, amount,
            if n > 0 then amount / n as real else 0.0,
            items,
            if n > 0 then items as real / n as real else 0.0,
            |Distinct(rows, "ASIN")|, range,
            Count(rows, "Website"), Count(rows, "Payment Instrument Type"), Count(rows, "Order Status"),
            FloatTotal(rt, rows, "Shipping Charge"), FloatTotal(rt, rows, "Total Discounts"),
            MaxOrZero(ParsedFloats(rt, rows, "Unit Price")),
            if n > 0 then (gifts as real / n as real) * 100.0 else 0.0))
  }

  /** analyze_audible_purchase_history_data. */
  function AnalyzeAudiblePurchases(rt: Runtime, rows: seq<Row>): (r: Result<AudiblePurchaseMetadata, Error>)
    ensures r.Success? <==> HasFields(rows, PurchaseFields) && DatesParse(rt, rows, "Order Place Date")
    ensures r.Success? ==> r.value.numPurchases == |rows| && r.value.Consistent()
    ensures r.Success? ==> DateRangeOf(rt, rows, "Order Place Date") == Success(r.value.dateRange)
    ensures r.Success? ==> r.value.totalAmountSpent == FloatTotal(rt, rows, "Price Paid Member")
                           && r.value.uniqueAudiobooks == |Distinct(rows, "ASIN")|
                           && r.value.purchaseTypes == Count(rows, "Type") && r.value.statuses == Count(rows, "Status")
  {
    if !HasFields(rows, PurchaseFields) then Failure(MissingField(FirstMissing(rows, PurchaseFields)))
    else
      match DateRangeOf(rt, rows, "Order Place Date")
      case Failure(e) => Failure(e)
      case Success(range) =>
        CountKinds(rows, "Type");
        Success(AudiblePurchaseMetadata(
          |rows|, FloatTotal(rt, rows, "Price Paid Member"), |Distinct(rows, "ASIN")|, range,
          Count(rows, "Type"), Count(rows, "Status")))
  }

  /** analyze_audible_library_data. */
  function AnalyzeAudibleLibrary(rt: Runtime, rows: seq<Row>): (r: Result<AudibleLibraryMetadata, Error>)
    ensures r.Success? <==> HasFields(rows, LibraryFields) && DatesParse(rt, rows, "Date Added")
    ensures r.Success? ==> r.value.numItemsInLibrary == |rows| && r.value.Consistent()
    ensures r.Success? ==> DateRangeOf(rt, rows, "Date Added") == Success(r.value.dateRange)
    ensures r.Success? ==> r.value.uniqueAudiobooks == |Distinct(rows, "ASIN")|
                           && r.value.downloaded == Count(rows, "Downloaded") && r.value.deleted == Count(rows, "Deleted")
                           && r.value.originTypes == Count(rows, "Origin Type")
  {
    if !HasFields(rows, LibraryFields) then Failure(MissingField(FirstMissing(rows, LibraryFields)))
    else
      match DateRangeOf(rt, rows, "Date Added")
      case Failure(e) => Failure(e)
      case Success(range) =>
        CountBound(rows, "Downloaded", "Yes");
        Success(AudibleLibraryMetadata(
          |rows|, |Distinct(rows, "ASIN")|, range,
          Count(rows, "Downloaded"), Count(rows, "Deleted"), Count(rows, "Origin Type")))
  }

  /** analyze_audible_membership_billings_data. */
  function AnalyzeAudibleBillings(rt: Runtime, rows: seq<Row>): (r: Result<AudibleBillingsMetadata, Error>)
    ensures r.Success? <==> HasFields(rows, BillingsFields) && DatesParse(rt, rows, "Billing Period Start Date")
    ensures r.Success? ==> r.value.numBillings == |rows| && r.value.Consistent()
    ensures r.Success? ==> DateRangeOf(rt, rows, "Billing Period Start Date") == Success(r.value.dateRange)
    ensures r.Success? ==> r.value.totalAmountSpent == FloatTotal(rt, rows, "Total Amount")
                           && r.value.plans == Count(rows, "Plan") && r.value.statuses == Count(rows, "Status")
                           && r.value.currencies == Count(rows, "Currency")
  {
    if !HasFields(rows, BillingsFields) then Failure(MissingField(FirstMissing(rows, BillingsFields)))
    else
      match DateRangeOf(rt, rows, "Billing Period Start Date")
      case Failure(e) => Failure(e)
      case Success(range) =>
        Success(AudibleBillingsMetadata(
          |rows|, FloatTotal(rt, rows, "Total Amount"), range,
          Count(rows, "Plan"), Count(rows, "Status"), Count(rows, "Currency")))
  }

  /** analyze_prime_video_viewing_history_data (hours are seconds / 3600, unrounded). */
  function AnalyzeVideoViewing(rt: Runtime, rows: seq<Row>): (r: Result<VideoViewingMetadata, Error>)
    ensures r.Success? <==> HasFields(rows, VideoFields) && DatesParse(rt, rows, "Playback Start Datetime (UTC)")
    ensures r.Success? ==> r.value.numViewingSessions == |rows| && r.value.Consistent()
    ensures r.Success? ==> DateRangeOf(rt, rows, "Playback Start Datetime (UTC)") == Success(r.value.dateRange)
    ensures r.Success? ==> r.value.totalHoursViewed == FloatTotal(rt, rows, "Seconds Viewed") / 3600.0
                           && r.value.uniqueTitlesWatched == |Distinct(rows, "Title")|
                           && r.value.contentQualities == Count(rows, "Content Quality Delivered")
                           && r.value.devicesUsed == Count(rows, "Device Manufacturer Name")
  {
    if !HasFields(rows, VideoFields) then Failure(MissingField(FirstMissing(rows, VideoFields)))
    else
      match DateRangeOf(rt, rows, "Playback Start Datetime (UTC)")
      case Failure(e) => Failure(e)
      case Success(range) =>
        CountKinds(rows, "Device Manufacturer Name");
        Success(VideoViewingMetadata(
          |rows|, FloatTotal(rt, rows, "Seconds Viewed") / 3600.0, |Distinct(rows, "Title")|, range,
          Count(rows, "Content Quality Delivered"), Count(rows, "Device Manufacturer Name")))
  }

  /**
   * analyze_data: dispatch on the file name. An unknown name is a
   * ValueError; a known one yields metadata of its own rule whose primary
   * count is the number of rows.
   */
  function AnalyzeData(rt: Runtime, name: string, rows: seq<Row>): (r: Result<Metadata, Error>)
    ensures RuleOf(name).None? ==> r == Failure(UnknownFileType(name))
    ensures r.Success? ==> r.value.RuleOfMetadata() == RuleOf(name).value
    ensures r.Success? ==> r.value.RowCount() == |rows| && r.value.Consistent()
  {
    match RuleOf(name)
    case None => Failure(UnknownFileType(name))
    case Some(rule) => AnalyzeByRule(rt, rule, rows)
  }

  /** The extractor of one rule, its metadata tagged with that rule. */
  function AnalyzeByRule(rt: Runtime, rule: Rule, rows: seq<Row>): (r: Result<Metadata, Error>)
    ensures r.Success? ==> r.value.RuleOfMetadata() == rule
    ensures r.Success? ==> r.value.RowCount() == |rows| && r.value.Consistent()
  {
    match rule
    case CartItemsRule =>
      var m := AnalyzeCartItems(rt, rows);
      if m.Success? then Success(CartItems(m.value)) else Failure(m.error)
    case DigitalItemsRule =>
      var m := AnalyzeDigitalItems(rt, rows);
      if m.Success? then Success(DigitalItems(m.value)) else Failure(m.error)
    case OrderHistoryRule =>
      var m := AnalyzeOrderHistory(rt, rows);
      if m.Success? then Success(OrderHistory(m.value)) else Failure(m.error)
    case AudiblePurchaseRule =>
      var m := AnalyzeAudiblePurchases(rt, rows);
      if m.Success? then Success(AudiblePurchases(m.value)) else Failure(m.error)
    case AudibleLibraryRule =>
      var m := AnalyzeAudibleLibrary(rt, rows);
      if m.Success? then Success(AudibleLibrary(m.value)) else Failure(m.error)
    case AudibleBillingsRule =>
      var m := AnalyzeAudibleBillings(rt, rows);
      if m.Success? then Success(AudibleBillings(m.value)) else Failure(m.error)
    case VideoViewingRule =>
      var m := AnalyzeVideoViewing(rt, rows);
      if m.Success? then Success(VideoViewing(m.value)) else Failure(m.error)
  }
}
