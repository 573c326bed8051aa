/**
 * The row normalisation and feature extraction of the uniqueness
 * fingerprint (proof_of_uniqueness/data_processor.py, identical under
 * proof/proof_of_uniqueness/): each CSV row is stripped, lowercased and
 * freed of its date and order-id columns, and the rows of a file are
 * summarised as product and category sets, a total amount and a total
 * quantity, the inputs of the MinHash.
 */
module Uniqueness {
  import opened Wrappers
  import opened PyText
  import opened QualityUtils

  /**
   * A csv.DictReader row: a missing trailing value is None (Python's
   * None); every other value is a string.
   */
  type RawRow = map<string, Option<string>>

  /** `row.get(key)`. */
  function Get(row: RawRow, key: string): Option<string> {
    if key in row then row[key] else None
  }

  /** Python truthiness of a value: a non-empty string. */
  predicate Truthy(v: Option<string>) {
    v.Some? && v.value != ""
  }

  /** `a or b`: the first operand when it is truthy, the second otherwise. */
  function Or(a: Option<string>, b: Option<string>): (r: Option<string>)
    ensures Truthy(r) <==> Truthy(a) || Truthy(b)
    ensures Truthy(a) ==> r == a
  {
    if Truthy(a) then a else b
  }

  // ---------------------------------------------------------------------
  // Normalisation
  // ---------------------------------------------------------------------

  /** The columns read_and_normalize_csv pops from every row. */
  const DroppedFields: seq<string> := ["Order Date", "Ship Date", "Order ID"]

  /** `v.strip().lower() if isinstance(v, str) else v`. */
  function NormalizeCell(v: Option<string>): (r: Option<string>)
    ensures r.None? <==> v.None?
    ensures r.Some? ==> forall i :: 0 <= i < |r.value| ==> !IsUpper(r.value[i])
    ensures r.Some? && r.value != [] ==> !IsSpace(r.value[0]) && !IsSpace(r.value[|r.value| - 1])
  {
    match v
    case None => None
    case Some(s) => Some(Lower(Strip(s, Whitespace)))
  }

  /** A normalised cell is its own normalisation. */
  lemma NormalizeCellIdempotent(v: Option<string>)
    ensures NormalizeCell(NormalizeCell(v)) == NormalizeCell(v)
  {
    if v.Some? {
      var t := Lower(Strip(v.value, Whitespace));
      StripUnchanged(t, Whitespace);
      LowerIdempotent(Strip(v.value, Whitespace));
    }
  }

  /** The row read_and_normalize_csv produces from one row. */
  function NormalizedRow(row: RawRow): (r: RawRow)
    ensures r.Keys == row.Keys - {"Order Date", "Ship Date", "Order ID"}
    ensures forall k :: k in r ==> r[k] == NormalizeCell(row[k])
  {
    map k | k in row && k !in DroppedFields :: NormalizeCell(row[k])
  }

  /** Normalising twice is normalising once. */
  lemma NormalizeIdempotent(row: RawRow)
    ensures NormalizedRow(NormalizedRow(row)) == NormalizedRow(row)
  {
    var once := NormalizedRow(row);
    forall k | k in once
      ensures NormalizeCell(once[k]) == once[k]
    {
      NormalizeCellIdempotent(row[k]);
    }
  }

  /** The comprehension then the pop loop for one row. */
  method NormalizeRow(row: RawRow) returns (normalized: RawRow)
    ensures normalized == NormalizedRow(row)
  {
    normalized := map k | k in row :: NormalizeCell(row[k]);
    for j := 0 to |DroppedFields|
      invariant normalized == map k | k in row && k !in DroppedFields[..j] :: NormalizeCell(row[k])
    {
      assert DroppedFields[..j + 1] == DroppedFields[..j] + [DroppedFields[j]];
      normalized := normalized - {DroppedFields[j]};
    }
    assert DroppedFields[..|DroppedFields|] == DroppedFields;
  }

  /** read_and_normalize_csv after the file is read: one normalised row per row, in order. */
  method ReadAndNormalize(data: seq<RawRow>) returns (normalizedData: seq<RawRow>)
    ensures |normalizedData| == |data|
    ensures forall i :: 0 <= i < |data| ==> normalizedData[i] == NormalizedRow(data[i])
  {
    normalizedData := [];
    for i := 0 to |data|
      invariant |normalizedData| == i
      invariant forall j :: 0 <= j < i ==> normalizedData[j] == NormalizedRow(data[j])
    {
      var row := NormalizeRow(data[i]);
      normalizedData := normalizedData + [row];
    }
  }

  // ---------------------------------------------------------------------
  // Lenient number parsing
  // ---------------------------------------------------------------------

  /** `value.strip().replace(',', '')`. */
  function CleanNumber(s: string): (r: string)
    ensures ',' !in r
  {
    Remove(Strip(s, Whitespace), ',')
  }

  /** DataProcessor.parse_int: 0 for None and for anything int() rejects after cleaning. */
  function ParseIntLenient(v: Option<string>): (r: int)
    ensures v.None? ==> r == 0
  {
    match v
    case None => 0
    case Some(s) =>
      match ParseInt(CleanNumber(s))
      case None => 0
      case Some(n) => n
  }

  /** DataProcessor.parse_float: 0.0 for None and for anything float() rejects after cleaning. */
  function ParseFloatLenient(rt: Runtime, v: Option<string>): (r: real)
    ensures v.None? ==> r == 0.0
  {
    match v
    case None => 0.0
    case Some(s) => FloatOrZero(rt, CleanNumber(s))
  }

  /** Digit groups separated by commas read as the number with the commas taken out. */
  lemma ParseIntIgnoresCommas(s: string, i: nat)
    requires forall k :: 0 <= k < |s| ==> IsDigit(s[k]) || s[k] == ','
    requires i < |s| && IsDigit(s[i])
    ensures IsDigitString(Remove(s, ','))
    ensures ParseIntLenient(Some(s)) == DecimalValue(Remove(s, ','))
  {
    assert !IsSpace(s[0]) && !IsSpace(s[|s| - 1]);
    StripUnchanged(s, Whitespace);
    CommasRemoved(s, i);
    ParseDigits(Remove(s, ','));
  }

  lemma CommasRemoved(s: string, i: nat)
    requires forall k :: 0 <= k < |s| ==> IsDigit(s[k]) || s[k] == ','
    requires i < |s| && IsDigit(s[i])
    ensures IsDigitString(Remove(s, ','))
  {
    var r := Remove(s, ',');
    forall k | 0 <= k < |r|
      ensures IsDigit(r[k])
    {
      assert r[k] in s;
    }
    RemoveKeepsOthers(s, ',', s[i]);
    assert s[i] in multiset(s);
  }

  /** A word (such as "none" or "n") counts as 0. */
  lemma ParseIntRejectsWords(s: string)
    requires s != [] && forall k :: 0 <= k < |s| ==> 'a' <= s[k] <= 'z'
    ensures ParseIntLenient(Some(s)) == 0
  {
    StripUnchanged(s, Whitespace);
    assert ',' !in s;
    assert CleanNumber(s) == s;
    GroupsValueStartsWithDigit(s);
  }

  /**
   * The two parse_float helpers disagree on a thousands separator: for
   * "a,b" this one hands float() "ab", the scoring one hands it "a,b".
   */
  lemma ParseFloatsDiffer(rt: Runtime, a: string, b: string)
    requires ',' !in a && ',' !in b && a != [] && b != []
    requires !IsSpace(a[0]) && !IsQuote(a[0]) && !IsSpace(b[|b| - 1]) && !IsQuote(b[|b| - 1])
    ensures ParseFloatLenient(rt, Some(a + "," + b)) == FloatOrZero(rt, a + b)
    ensures ParseFloat(rt, a + "," + b) == FloatOrZero(rt, a + "," + b)
  {
    var s := a + "," + b;
    assert s[0] == a[0] && s[|s| - 1] == b[|b| - 1];
    StripUnchanged(s, Whitespace);
    StripUnchanged(s, Quotes);
    assert "," == [','];
    RemoveSeparator(a, b, ',');
  }

  /** A digit group literal starts with a digit. */
  lemma {:induction false} GroupsValueStartsWithDigit(s: string)
    requires s != [] && !IsDigit(s[0])
    ensures GroupsValue(s) == None
    decreases |s|
  {
    if |s| > 1 && IsDigit(s[|s| - 1]) {
      var init := s[..|s| - 1];
      var rest := if init[|init| - 1] == '_' then init[..|init| - 1] else init;
      if rest != [] {
        assert rest[0] == s[0];
        GroupsValueStartsWithDigit(rest);
      }
    }
  }

  // ---------------------------------------------------------------------
  // Feature extraction
  // ---------------------------------------------------------------------

  /** The features dictionary of extract_features. */
  datatype Features = Features(products: set<string>, totalAmount: real, totalQuantity: int, categories: set<string>)

  function Product(row: RawRow): Option<string> {
    Or(Get(row, "Product Name"), Get(row, "Title"))
  }

  function Amount(row: RawRow): Option<string> {
    Or(Get(row, "Total Owed"), Get(row, "Total Amount"))
  }

  function Quantity(row: RawRow): Option<string> {
    Or(Get(row, "Quantity"), Get(row, "Units"))
  }

  function Category(row: RawRow): Option<string> {
    Or(Get(row, "Category"), Get(row, "Product Group"))
  }

  /** `{v}` when the value is truthy, `{}` otherwise. */
  function Added(v: Option<string>): (r: set<string>)
    ensures forall x :: x in r <==> Truthy(v) && x == v.value
  {
    if Truthy(v) then {v.value} else {}
  }

  /** The products of a list of rows, row by row from the first. */
  function ProductsOf(rows: seq<RawRow>): (r: set<string>)
    ensures forall p :: p in r ==> p != ""
    decreases |rows|
  {
    if rows == [] then {} else ProductsOf(rows[..|rows| - 1]) + Added(Product(rows[|rows| - 1]))
  }

  /** The categories of a list of rows, row by row from the first. */
  function CategoriesOf(rows: seq<RawRow>): (r: set<string>)
    ensures forall c :: c in r ==> c != ""
    decreases |rows|
  {
    if rows == [] then {} else CategoriesOf(rows[..|rows| - 1]) + Added(Category(rows[|rows| - 1]))
  }

  /** The sum of the parsed amounts, row by row from the first. */
  function AmountOf(rt: Runtime, rows: seq<RawRow>): (r: real)
    ensures (forall i :: 0 <= i < |rows| ==> Amount(rows[i]).None?) ==> r == 0.0
    decreases |rows|
  {
    if rows == [] then 0.0 else AmountOf(rt, rows[..|rows| - 1]) + ParseFloatLenient(rt, Amount(rows[|rows| - 1]))
  }

  /** The sum of the parsed quantities, row by row from the first. */
  function QuantityOf(rows: seq<RawRow>): (r: int)
    ensures (forall i :: 0 <= i < |rows| ==> Quantity(rows[i]).None?) ==> r == 0
    decreases |rows|
  {
    if rows == [] then 0 else QuantityOf(rows[..|rows| - 1]) + ParseIntLenient(Quantity(rows[|rows| - 1]))
  }

  /** The features of a list of rows. */
  function FeaturesOf(rt: Runtime, rows: seq<RawRow>): (r: Features)
    ensures rows == [] ==> r == Features({}, 0.0, 0, {})
    ensures "" !in r.products && "" !in r.categories
  {
    Features(ProductsOf(rows), AmountOf(rt, rows), QuantityOf(rows), CategoriesOf(rows))
  }

  /** extract_features: the loop over the rows updating the features dictionary. */
  method ExtractFeatures(rt: Runtime, data: seq<RawRow>) returns (features: Features)
    ensures features == FeaturesOf(rt, data)
  {
    var products: set<string> := {};
    var totalAmount := 0.0;
    var totalQuantity := 0;
    var categories: set<string> := {};
    for i := 0 to |data|
      invariant Features(products, totalAmount, totalQuantity, categories) == FeaturesOf(rt, data[..i])
    {
      assert data[..i + 1][..i] == data[..i];
      var row := data[i];
      var product := Or(Get(row, "Product Name"), Get(row, "Title"));
      products := if Truthy(product) then products + {product.value} else products;
      var amount := ParseFloatLenient(rt, Or(Get(row, "Total Owed"), Get(row, "Total Amount")));
      totalAmount := totalAmount + amount;
      var quantity := ParseIntLenient(Or(Get(row, "Quantity"), Get(row, "Units")));
      totalQuantity := totalQuantity + quantity;
      var category := Or(Get(row, "Category"), Get(row, "Product Group"));
      categories := if Truthy(category) then categories + {category.value} else categories;
    }
    assert data[..|data|] == data;
    features := Features(products, totalAmount, totalQuantity, categories);
  }

  /** The products are exactly the truthy product values of the rows, with the "Title" fallback. */
  lemma {:induction false} ProductsMembers(rows: seq<RawRow>, p: string)
    ensures p in ProductsOf(rows) <==>
            exists i :: 0 <= i < |rows| && Truthy(Product(rows[i])) && Product(rows[i]).value == p
    decreases |rows|
  {
    if rows != [] {
      var init := rows[..|rows| - 1];
      ProductsMembers(init, p);
      assert forall i :: 0 <= i < |init| ==> init[i] == rows[i];
    }
  }

  /** The categories are exactly the truthy category values of the rows, with the "Product Group" fallback. */
  lemma {:induction false} CategoriesMembers(rows: seq<RawRow>, c: string)
    ensures c in CategoriesOf(rows) <==>
            exists i :: 0 <= i < |rows| && Truthy(Category(rows[i])) && Category(rows[i]).value == c
    decreases |rows|
  {
    if rows != [] {
      var init := rows[..|rows| - 1];
      CategoriesMembers(init, c);
      assert forall i :: 0 <= i < |init| ==> init[i] == rows[i];
    }
  }

  /** The features of two row lists combined: unions of the sets, sums of the totals. */
  function Merge(a: Features, b: Features): Features {
    Features(a.products + b.products, a.totalAmount + b.totalAmount,
             a.totalQuantity + b.totalQuantity, a.categories + b.categories)
  }

  lemma {:induction false} ProductsOfConcat(a: seq<RawRow>, b: seq<RawRow>)
    ensures ProductsOf(a + b) == ProductsOf(a) + ProductsOf(b)
    decreases |b|
  {
    if b == [] {
      assert a + b == a;
    } else {
      assert (a + b)[..|a + b| - 1] == a + b[..|b| - 1];
      ProductsOfConcat(a, b[..|b| - 1]);
    }
  }

  lemma {:induction false} CategoriesOfConcat(a: seq<RawRow>, b: seq<RawRow>)
    ensures CategoriesOf(a + b) == CategoriesOf(a) + CategoriesOf(b)
    decreases |b|
  {
    if b == [] {
      assert a + b == a;
    } else {
      assert (a + b)[..|a + b| - 1] == a + b[..|b| - 1];
      CategoriesOfConcat(a, b[..|b| - 1]);
    }
  }

  lemma {:induction false} AmountOfConcat(rt: Runtime, a: seq<RawRow>, b: seq<RawRow>)
    ensures AmountOf(rt, a + b) == AmountOf(rt, a) + AmountOf(rt, b)
    decreases |b|
  {
    if b == [] {
      assert a + b == a;
    } else {
      assert (a + b)[..|a + b| - 1] == a + b[..|b| - 1];
      AmountOfConcat(rt, a, b[..|b| - 1]);
    }
  }

  lemma {:induction false} QuantityOfConcat(a: seq<RawRow>, b: seq<RawRow>)
    ensures QuantityOf(a + b) == QuantityOf(a) + QuantityOf(b)
    decreases |b|
  {
    if b == [] {
      assert a + b == a;
    } else {
      assert (a + b)[..|a + b| - 1] == a + b[..|b| - 1];
      QuantityOfConcat(a, b[..|b| - 1]);
    }
  }

  /** Splitting the rows anywhere and merging the two summaries gives the summary of all of them. */
  lemma FeaturesOfConcat(rt: Runtime, a: seq<RawRow>, b: seq<RawRow>)
    ensures FeaturesOf(rt, a + b) == Merge(FeaturesOf(rt, a), FeaturesOf(rt, b))
  {
    ProductsOfConcat(a, b);
    CategoriesOfConcat(a, b);
    AmountOfConcat(rt, a, b);
    QuantityOfConcat(a, b);
  }

  /** The summary of normalised rows holds only lowercase products and categories. */
  lemma NormalizedProductsLower(rt: Runtime, rows: seq<RawRow>, p: string)
    requires p in FeaturesOf(rt, NormalizedRows(rows)).products
    ensures forall k :: 0 <= k < |p| ==> !IsUpper(p[k])
  {
    var normalized := NormalizedRows(rows);
    ProductsMembers(normalized, p);
    var i :| 0 <= i < |normalized| && Truthy(Product(normalized[i])) && Product(normalized[i]).value == p;
    var row := normalized[i];
    var key := if Truthy(Get(row, "Product Name")) then "Product Name" else "Title";
    assert key in row && row[key] == Product(row);
    assert row[key] == NormalizeCell(rows[i][key]);
  }

  /** The rows ReadAndNormalize produces. */
  function NormalizedRows(rows: seq<RawRow>): (r: seq<RawRow>)
    ensures |r| == |rows|
    ensures forall i :: 0 <= i < |rows| ==> r[i] == NormalizedRow(rows[i])
  {
    seq(|rows|, i requires 0 <= i < |rows| => NormalizedRow(rows[i]))
  }
}
