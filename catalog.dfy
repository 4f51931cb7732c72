/** What the product table and the product list share: the search and
    favorites filters, the market-cap parser, the name order standing in for
    `localeCompare`, and the sort comparators. */
module Catalog {
  import opened Seqs
  import opened JsText
  import opened JsNumber
  import opened Types
  import opened Sorting

  /** The search box's test, given the already lower-cased query: the query
      occurs in the lower-cased name, token name or one of the platforms. */
  predicate Matches(p: Product, searchLower: string) {
    || Includes(Lower(p.name), searchLower)
    || Includes(Lower(p.tokenName), searchLower)
    || (exists pl :: pl in p.platforms && Includes(Lower(pl), searchLower))
  }

  /** The search step of `filteredProducts`: an empty query keeps every product. */
  function SearchFilter(products: seq<Product>, search: string): seq<Product> {
    if search == "" then products
    else Filter(products, (p: Product) => Matches(p, Lower(search)))
  }

  /** The favorites step of `filteredProducts`. */
  function FavoritesFilter(products: seq<Product>, showFavoritesOnly: bool, favorites: seq<string>): seq<Product> {
    if showFavoritesOnly then Filter(products, (p: Product) => p.id in favorites) else products
  }

  /** The products left to sort: the catalog, searched, then restricted to favorites. */
  function Visible(catalog: seq<Product>, search: string, showFavoritesOnly: bool, favorites: seq<string>)
    : seq<Product>
  {
    FavoritesFilter(SearchFilter(catalog, search), showFavoritesOnly, favorites)
  }

  /** A product is shown exactly when it is in the catalog, matches a non-empty
      query case-insensitively, and is a favorite when only favorites are shown;
      with no query and no favorites filter the whole catalog is shown. */
  lemma VisibleSpec(catalog: seq<Product>, search: string, showFavoritesOnly: bool, favorites: seq<string>)
    ensures forall p :: p in Visible(catalog, search, showFavoritesOnly, favorites) <==>
      && p in catalog
      && (search == "" || Matches(p, Lower(search)))
      && (showFavoritesOnly ==> p.id in favorites)
    ensures |Visible(catalog, search, showFavoritesOnly, favorites)| <= |catalog|
    ensures search == "" && !showFavoritesOnly ==> Visible(catalog, search, showFavoritesOnly, favorites) == catalog
  {
  }

  /** Searching for a product's own name, in any letter case, finds it. */
  lemma SearchFindsOwnName(catalog: seq<Product>, p: Product, search: string)
    requires p in catalog && search != "" && Lower(search) == Lower(p.name)
    ensures p in SearchFilter(catalog, search)
  {
    IncludesTrivial(Lower(p.name));
  }

  /** The query's letter case does not matter. */
  lemma SearchIgnoresCase(catalog: seq<Product>, s1: string, s2: string)
    requires Lower(s1) == Lower(s2)
    ensures SearchFilter(catalog, s1) == SearchFilter(catalog, s2)
  {
  }

  /** `cap.replace(/[^0-9.]/g, '')`. */
  function NumberChars(s: string): (r: string)
    ensures forall i :: 0 <= i < |r| ==> IsDigit(r[i]) || r[i] == '.'
  {
    Filter(s, (c: char) => IsDigit(c) || c == '.')
  }

  /** `parseMarketCap`: 0 when missing or empty; otherwise the digits and dots
      parsed as a decimal, scaled by a billion when the text contains "B" and
      otherwise by a million when it contains "M". */
  function ParseMarketCap(cap: Option<string>): (r: Num)
    ensures cap.None? || cap == Some("") ==> r == Finite(0.0)
  {
    if cap.None? || cap.value == "" then Finite(0.0)
    else
      var num := ParseDecimal(NumberChars(cap.value));
      if Includes(cap.value, "B") then Mul(num, Finite(1000000000.0))
      else if Includes(cap.value, "M") then Mul(num, Finite(1000000.0))
      else num
  }

  /** Digits between a "$" and a suffix: only the digits survive the cleaning. */
  lemma {:induction false} NumberCharsDigits(ds: string)
    requires forall i :: 0 <= i < |ds| ==> IsDigit(ds[i])
    ensures NumberChars(ds) == ds
  {
    FilterKeepsAll(ds, (c: char) => IsDigit(c) || c == '.');
  }

  /** Wrapping digits in a currency sign and a letter leaves just the digits. */
  lemma CleanedDigits(ds: string, suffix: char)
    requires forall i :: 0 <= i < |ds| ==> IsDigit(ds[i])
    requires !IsDigit(suffix) && suffix != '.'
    ensures NumberChars("$" + ds + [suffix]) == ds
  {
    var keep := (c: char) => IsDigit(c) || c == '.';
    FilterAppend("$" + ds, [suffix], keep);
    FilterAppend("$", ds, keep);
    NumberCharsDigits(ds);
  }

  /** A one-letter needle is included exactly when the letter occurs. */
  lemma IncludesChar(s: string, c: char)
    ensures Includes(s, [c]) <==> c in s
  {
    if c in s {
      var i :| 0 <= i < |s| && s[i] == c;
      assert OccursAt(s, [c], i);
    }
    if Includes(s, [c]) {
      var i: nat :| OccursAt(s, [c], i);
      assert s[i] == c;
    }
  }

  /** The suffix tests look for a single letter anywhere in the text. */
  lemma MarketCapLetters(cap: string)
    requires cap != ""
    ensures ParseMarketCap(Some(cap)) ==
      if 'B' in cap then Mul(ParseDecimal(NumberChars(cap)), Finite(1000000000.0))
      else if 'M' in cap then Mul(ParseDecimal(NumberChars(cap)), Finite(1000000.0))
      else ParseDecimal(NumberChars(cap))
  {
    IncludesChar(cap, 'B');
    IncludesChar(cap, 'M');
  }

  /** The number read out of "$<digits><letter>" is the digits' value, and
      the letter is in the text. */
  lemma DigitsParsed(ds: string, suffix: char)
    requires ds != [] && forall i :: 0 <= i < |ds| ==> IsDigit(ds[i])
    requires !IsDigit(suffix) && suffix != '.'
    ensures suffix in "$" + ds + [suffix]
    ensures ParseDecimal(NumberChars("$" + ds + [suffix])) == Finite(DigitsValue(ds) as real)
  {
    assert ("$" + ds + [suffix])[|ds| + 1] == suffix;
    CleanedDigits(ds, suffix);
    ParseDigits(ds);
  }

  /** A text whose cleaned number reads `x` is worth `x` in billions when it
      contains a "B", else in millions when it contains an "M". */
  lemma MarketCapScaled(cap: string, x: real)
    requires cap != "" && ParseDecimal(NumberChars(cap)) == Finite(x)
    ensures 'B' in cap ==> ParseMarketCap(Some(cap)) == Finite(x * 1000000000.0)
    ensures 'B' !in cap && 'M' in cap ==> ParseMarketCap(Some(cap)) == Finite(x * 1000000.0)
  {
    MarketCapLetters(cap);
  }

  lemma NoLetterAmongDigits(ds: string, letter: char, suffix: char)
    requires forall i :: 0 <= i < |ds| ==> IsDigit(ds[i])
    requires !IsDigit(letter) && letter != '$' && letter != suffix
    ensures letter !in "$" + ds + [suffix]
  {
    assert letter !in ds;
  }

  /** "$<digits>B" is worth the digits' value `y` in billions. */
  lemma MarketCapBillions(ds: string, y: real)
    requires ds != [] && forall i :: 0 <= i < |ds| ==> IsDigit(ds[i])
    requires y == DigitsValue(ds) as real
    ensures ParseMarketCap(Some("$" + ds + "B")) == Finite(y * 1000000000.0)
  {
    DigitsParsed(ds, 'B');
    MarketCapScaled("$" + ds + "B", y);
  }

  /** "$<digits>M" is worth the digits' value `y` in millions. */
  lemma MarketCapMillions(ds: string, y: real)
    requires ds != [] && forall i :: 0 <= i < |ds| ==> IsDigit(ds[i])
    requires y == DigitsValue(ds) as real
    ensures ParseMarketCap(Some("$" + ds + "M")) == Finite(y * 1000000.0)
  {
    NoLetterAmongDigits(ds, 'B', 'M');
    DigitsParsed(ds, 'M');
    MarketCapScaled("$" + ds + "M", y);
  }

  /** Text with no digit and no dot is not a number. */
  lemma MarketCapNotANumber()
    ensures ParseMarketCap(Some("N/A")) == NonFinite
  {
    MarketCapLetters("N/A");
    assert NumberChars("N/A") == [];
    ParseNoDigits();
  }

  /** Code-point lexicographic order, the model's stand-in for `localeCompare`. */
  predicate LexLe(s: string, t: string) {
    if s == [] then true
    else if t == [] then false
    else if s[0] != t[0] then s[0] < t[0]
    else LexLe(s[1..], t[1..])
  }

  lemma {:induction false} LexLeReflexive(s: string)
    ensures LexLe(s, s)
  {
    if s != [] {
      LexLeReflexive(s[1..]);
    }
  }

  lemma {:induction false} LexLeTotal(s: string, t: string)
    ensures LexLe(s, t) || LexLe(t, s)
  {
    if s != [] && t != [] && s[0] == t[0] {
      LexLeTotal(s[1..], t[1..]);
    }
  }

  lemma {:induction false} LexLeAntisymmetric(s: string, t: string)
    ensures LexLe(s, t) && LexLe(t, s) ==> s == t
  {
    if s != [] && t != [] && LexLe(s, t) && LexLe(t, s) {
      LexLeAntisymmetric(s[1..], t[1..]);
      assert s == [s[0]] + s[1..] && t == [t[0]] + t[1..];
    }
  }

  lemma {:induction false} LexLeTransitive(s: string, t: string, u: string)
    requires LexLe(s, t) && LexLe(t, u)
    ensures LexLe(s, u)
  {
    if s != [] && t != [] && u != [] && s[0] == t[0] && t[0] == u[0] {
      LexLeTransitive(s[1..], t[1..], u[1..]);
    }
  }

  /** `a.localeCompare(b)`: negative, zero or positive as `a` sorts before,
      equal to or after `b`. */
  function LocaleCompare(a: string, b: string): (r: real)
    ensures r == 0.0 <==> a == b
    ensures r < 0.0 <==> a != b && LexLe(a, b)
    ensures r > 0.0 <==> a != b && LexLe(b, a)
  {
    LexLeTotal(a, b);
    LexLeAntisymmetric(a, b);
    if a == b then 0.0 else if LexLe(a, b) then -1.0 else 1.0
  }

  /** Swapping the arguments negates the comparison. */
  lemma LocaleCompareAntisymmetric(a: string, b: string)
    ensures LocaleCompare(a, b) == -LocaleCompare(b, a)
  {
  }

  datatype SortField =
    | MarketCap | Apy7d | ManagementFee | SubscriptionFee | RedemptionFee | RevenueShare | Name

  datatype SortDirection = Asc | Desc

  /** The market cap the comparator subtracts; a cap that does not parse
      counts as 0. */
  function MarketCapValue(p: Product): real {
    match ParseMarketCap(p.totalMarketCap)
    case Finite(v) => v
    case NonFinite => 0.0
  }

  /** The number a numeric column sorts by. */
  function Key(field: SortField, p: Product): real
    requires field != Name
  {
    match field
    case MarketCap => MarketCapValue(p)
    case Apy7d => p.apy7d
    case ManagementFee => p.managementFee
    case SubscriptionFee => p.subscriptionFee
    case RedemptionFee => p.redemptionFee
    case RevenueShare => p.revenueShare
  }

  /** The table's `comparison` before the direction is applied. */
  function Comparison(field: SortField, a: Product, b: Product): real {
    if field == Name then LocaleCompare(a.name, b.name) else Key(field, a) - Key(field, b)
  }

  /** `sortDirection === 'desc' ? -comparison : comparison`. */
  function Directed(direction: SortDirection, comparison: real): real {
    if direction == Desc then -comparison else comparison
  }

  /** "`a` may come before `b`" under the table's comparator. */
  function TableLe(field: SortField, direction: SortDirection): (Product, Product) -> bool {
    (a: Product, b: Product) => Directed(direction, Comparison(field, a, b)) <= 0.0
  }

  /** The order the column promises, stated without the comparator: ascending
      or descending by the column's number, or by name. */
  predicate InOrder(field: SortField, direction: SortDirection, a: Product, b: Product) {
    if field == Name then
      (if direction == Asc then LexLe(a.name, b.name) else LexLe(b.name, a.name))
    else
      (if direction == Asc then Key(field, a) <= Key(field, b) else Key(field, a) >= Key(field, b))
  }

  /** Negating the comparison for "desc" reverses the column's order. */
  lemma TableLeOrder(field: SortField, direction: SortDirection, a: Product, b: Product)
    ensures TableLe(field, direction)(a, b) <==> InOrder(field, direction, a, b)
  {
    if field == Name {
      LexLeReflexive(a.name);
      LexLeTotal(a.name, b.name);
    }
  }

  /** Every column and direction gives a comparator the sort can use. */
  lemma TableLeIsTotalPreorder(field: SortField, direction: SortDirection)
    ensures IsTotalPreorder(TableLe(field, direction))
  {
    var le := TableLe(field, direction);
    forall a, b ensures le(a, b) || le(b, a) {
      TableLeOrder(field, direction, a, b);
      TableLeOrder(field, direction, b, a);
      if field == Name {
        LexLeTotal(a.name, b.name);
      }
    }
    forall a, b, c | le(a, b) && le(b, c) ensures le(a, c) {
      TableLeOrder(field, direction, a, b);
      TableLeOrder(field, direction, b, c);
      TableLeOrder(field, direction, a, c);
      if field == Name {
        if direction == Asc {
          LexLeTransitive(a.name, b.name, c.name);
        } else {
          LexLeTransitive(c.name, b.name, a.name);
        }
      }
    }
  }

  /** A sequence sorted by the table's comparator is in the column's order. */
  lemma SortedInOrder(r: seq<Product>, field: SortField, direction: SortDirection)
    requires SortedBy(r, TableLe(field, direction))
    ensures forall i, j :: 0 <= i < j < |r| ==> InOrder(field, direction, r[i], r[j])
  {
    forall i, j | 0 <= i < j < |r| ensures InOrder(field, direction, r[i], r[j]) {
      TableLeOrder(field, direction, r[i], r[j]);
    }
  }

  /** `mockProducts.find(p => p.id === selectedProductId)`: the first catalog
      entry carrying the selected id; nothing when no id is selected or none
      carries it. */
  function ProductById(catalog: seq<Product>, selectedId: Option<string>): (r: Option<Product>)
    ensures r.Some? <==> selectedId.Some? && exists i :: 0 <= i < |catalog| && catalog[i].id == selectedId.value
    ensures r.Some? ==> r.value in catalog && Some(r.value.id) == selectedId
    ensures forall i :: 0 <= i < |catalog| && Some(catalog[i].id) == selectedId
                        && (forall k :: 0 <= k < i ==> Some(catalog[k].id) != selectedId) ==>
                        r == Some(catalog[i])
  {
    Find(catalog, (p: Product) => Some(p.id) == selectedId)
  }
}
