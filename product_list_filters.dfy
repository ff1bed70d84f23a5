/**
 * The product list's search, filter and sort pipeline, its filter chips and
 * the category list, as pure functions of the products and the filter state.
 */
module ProductListFilters {
  import opened Products
  import Wrappers

  // ---------------------------------------------------------------------------
  // Generic list operations: filter, subsequence, stable insertion sort
  // ---------------------------------------------------------------------------

  /** `r` is `s` with some elements left out, the rest in their original order. */
  predicate IsSubsequence<T(==)>(r: seq<T>, s: seq<T>)
    decreases |s|
  {
    if s == [] then r == []
    else (r != [] && r[0] == s[0] && IsSubsequence(r[1..], s[1..])) || IsSubsequence(r, s[1..])
  }

  lemma {:induction false} SubsequenceReflexive<T>(s: seq<T>)
    ensures IsSubsequence(s, s)
    decreases |s|
  {
    if s != [] {
      SubsequenceReflexive(s[1..]);
    }
  }

  lemma {:induction false} SubsequenceTransitive<T>(a: seq<T>, b: seq<T>, c: seq<T>)
    requires IsSubsequence(a, b) && IsSubsequence(b, c)
    ensures IsSubsequence(a, c)
    decreases |c|
  {
    if c != [] {
      if IsSubsequence(b, c[1..]) {
        SubsequenceTransitive(a, b, c[1..]);
      } else if b != [] {
        if IsSubsequence(a, b[1..]) {
          SubsequenceTransitive(a, b[1..], c[1..]);
        } else {
          SubsequenceTransitive(a[1..], b[1..], c[1..]);
        }
      }
    }
  }

  /** Kotlin's `filter`: the elements that pass `keep`, in order. */
  function Filter<T(!new,==)>(s: seq<T>, keep: T -> bool): (r: seq<T>)
    ensures IsSubsequence(r, s)
    ensures forall i :: 0 <= i < |r| ==> keep(r[i])
    ensures forall x :: multiset(r)[x] == if keep(x) then multiset(s)[x] else 0
    decreases |s|
  {
    if s == [] then []
    else
      var rest := Filter(s[1..], keep);
      assert s == [s[0]] + s[1..];
      if keep(s[0]) then [s[0]] + rest else rest
  }

  /** Each element may come before its successor. */
  predicate SortedBy<T>(s: seq<T>, before: (T, T) -> bool)
  {
    forall i :: 0 < i < |s| ==> before(s[i - 1], s[i])
  }

  /** Any two values can be compared one way or the other. */
  ghost predicate Total<T(!new)>(before: (T, T) -> bool)
  {
    forall a, b :: before(a, b) || before(b, a)
  }

  /** Whatever may precede a value may precede everything that value may precede. */
  ghost predicate Transitive<T(!new)>(before: (T, T) -> bool)
  {
    forall a, b, c :: before(a, b) && before(b, c) ==> before(a, c)
  }

  /** Under a transitive order, ordered neighbours make every pair ordered. */
  lemma {:induction false} SortedAllPairs<T(!new)>(s: seq<T>, before: (T, T) -> bool)
    requires Transitive(before) && SortedBy(s, before)
    ensures forall i, j :: 0 <= i < j < |s| ==> before(s[i], s[j])
  {
    forall i, j | 0 <= i < j < |s| ensures before(s[i], s[j]) {
      var k := i + 1;
      while k < j
        invariant i < k <= j
        invariant before(s[i], s[k])
      {
        k := k + 1;
      }
    }
  }

  /** Insert `x` in front of the first element it may precede: ties keep `x` first. */
  function InsertBy<T(!new,==)>(x: T, s: seq<T>, before: (T, T) -> bool): (r: seq<T>)
    requires Total(before) && SortedBy(s, before)
    ensures SortedBy(r, before)
    ensures multiset(r) == multiset(s) + multiset{x}
    ensures |r| == |s| + 1 && (r[0] == x || (s != [] && r[0] == s[0]))
  {
    if s == [] || before(x, s[0]) then
      [x] + s
    else
      var rest := InsertBy(x, s[1..], before);
      assert s == [s[0]] + s[1..];
      assert before(s[0], rest[0]);
      [s[0]] + rest
  }

  /**
   * A stable sort: `sortedBy` / `sortedByDescending` with the comparison
   * written as "may come before".
   */
  function SortBy<T(!new,==)>(s: seq<T>, before: (T, T) -> bool): (r: seq<T>)
    requires Total(before)
    ensures SortedBy(r, before)
    ensures multiset(r) == multiset(s)
  {
    if s == [] then []
    else
      assert s == [s[0]] + s[1..];
      InsertBy(s[0], SortBy(s[1..], before), before)
  }

  // ---------------------------------------------------------------------------
  // Filter state: sort options, price ranges, chips
  // ---------------------------------------------------------------------------

  datatype SortOption = None | PriceAsc | PriceDesc | RatingDesc

  /** A price band with its chip caption (`label` in Kotlin); an absent bound does not constrain. */
  datatype PriceRange = PriceRange(caption: string, min: Wrappers.Option<real>, max: Wrappers.Option<real>)

  /** The five chips of the price section. */
  const priceRanges: seq<PriceRange> := [
    PriceRange("Under $25", Wrappers.None, Wrappers.Some(25.0)),
    PriceRange("$25 - $50", Wrappers.Some(25.0), Wrappers.Some(50.0)),
    PriceRange("$50 - $100", Wrappers.Some(50.0), Wrappers.Some(100.0)),
    PriceRange("$100 - $200", Wrappers.Some(100.0), Wrappers.Some(200.0)),
    PriceRange("Over $200", Wrappers.Some(200.0), Wrappers.None)
  ]

  /** The dialog's state: chosen categories, minimum rating, price chip, sort chip. */
  datatype Filters = Filters(
    selectedCategories: set<string>,
    minRating: int,
    selectedPriceRange: Wrappers.Option<PriceRange>,
    sortOption: SortOption)

  /** The state the screen starts with (`remember { mutableStateOf(...) }`). */
  const initialFilters := Filters({}, 0, Wrappers.None, None)

  /** The price filter: `min <= price < max`, half open, absent bounds ignored. */
  predicate InRange(price: real, range: PriceRange)
  {
    && (range.min.None? || price >= range.min.value)
    && (range.max.None? || price < range.max.value)
  }

  /** The ranges tile the price line: each range ends where the next starts, the first and last are open-ended. */
  lemma PriceRangesAdjacent()
    ensures |priceRanges| == 5
    ensures priceRanges[0].min.None? && priceRanges[4].max.None?
    ensures forall i :: 0 <= i < 4 ==>
      priceRanges[i].max.Some? && priceRanges[i + 1].min == priceRanges[i].max
  {
  }

  /** Every price lies in exactly one of the five ranges. */
  lemma PriceInExactlyOneRange(price: real)
    ensures exists i :: 0 <= i < |priceRanges| && InRange(price, priceRanges[i])
    ensures forall i, j :: 0 <= i < j < |priceRanges| ==>
      !(InRange(price, priceRanges[i]) && InRange(price, priceRanges[j]))
  {
    var i := if price < 25.0 then 0 else if price < 50.0 then 1 else if price < 100.0 then 2
      else if price < 200.0 then 3 else 4;
    assert InRange(price, priceRanges[i]);
  }

  /** Tapping a category chip adds it when absent and removes it when present. */
  function ToggleCategory(selected: set<string>, category: string): (r: set<string>)
    ensures category in r <==> category !in selected
    ensures r - {category} == selected - {category}
  {
    if category in selected then selected - {category} else selected + {category}
  }

  /** Tapping the same category twice gives back the selection it started from. */
  lemma ToggleCategoryTwice(selected: set<string>, category: string)
    ensures ToggleCategory(ToggleCategory(selected, category), category) == selected
  {
  }

  /** Tapping a price chip selects it, or clears the selection when it was the selected one. */
  function SelectPriceRange(current: Wrappers.Option<PriceRange>, range: PriceRange): (r: Wrappers.Option<PriceRange>)
    ensures r.None? <==> current == Wrappers.Some(range)
    ensures r.Some? ==> r.value == range
  {
    if current == Wrappers.Some(range) then Wrappers.None else Wrappers.Some(range)
  }

  /** Tapping a rating chip sets the minimum, or resets it to 0 when it was the current one. */
  function SelectRating(minRating: int, rating: int): (r: int)
    ensures r == 0 <==> minRating == rating || rating == 0
    ensures r != 0 ==> r == rating
  {
    if minRating == rating then 0 else rating
  }

  /** Tapping a sort chip selects it, or falls back to `None` when it was the current one. */
  function SelectSort(current: SortOption, option: SortOption): (r: SortOption)
    ensures r == None <==> current == option || option == None
    ensures r != None ==> r == option
  {
    if current == option then None else option
  }

  /** The Reset button: every filter back to the state the screen started with. */
  function Reset(filters: Filters): (r: Filters)
    ensures r == initialFilters
  {
    filters.(selectedCategories := {}, minRating := 0, selectedPriceRange := Wrappers.None, sortOption := None)
  }

  // ---------------------------------------------------------------------------
  // Text matching
  // ---------------------------------------------------------------------------

  /** Lower-casing of the ASCII letters; the stand-in for the case folding `ignoreCase` uses. */
  function Lower(c: char): char
  {
    if 'A' <= c <= 'Z' then (c as int + 32) as char else c
  }

  /** `Char.isWhitespace` on the ASCII range. */
  predicate IsWhitespace(c: char)
  {
    c == ' ' || '\t' <= c <= '\r' || '\U{1C}' <= c <= '\U{1F}'
  }

  /** `isBlank()`: empty or whitespace only. */
  predicate IsBlank(s: string)
  {
    forall i :: 0 <= i < |s| ==> IsWhitespace(s[i])
  }

  /** `query` occurs in `s` at offset `at`, letters compared without case. */
  predicate MatchesAt(s: string, query: string, at: int)
    requires 0 <= at <= |s| - |query|
  {
    forall j :: 0 <= j < |query| ==> Lower(s[at + j]) == Lower(query[j])
  }

  /** `s.contains(query, ignoreCase = true)`. */
  predicate ContainsIgnoreCase(s: string, query: string)
  {
    exists at :: 0 <= at <= |s| - |query| && MatchesAt(s, query, at)
  }

  /** The search condition: title or category contains the query. */
  predicate MatchesQuery(p: Product, query: string)
  {
    ContainsIgnoreCase(p.title, query) || ContainsIgnoreCase(p.category, query)
  }

  // ---------------------------------------------------------------------------
  // The pipeline
  // ---------------------------------------------------------------------------

  /** Kotlin's `Double.toInt()`: truncation toward zero. */
  function TruncateToInt(x: real): (n: int)
    ensures 0.0 <= x ==> n as real <= x < n as real + 1.0
    ensures x < 0.0 ==> n as real - 1.0 < x <= n as real
  {
    if x >= 0.0 then x.Floor else -((-x).Floor)
  }

  /** For a positive threshold, the truncated rate reaches it exactly when the rate does. */
  lemma RatingThreshold(rate: real, minRating: int)
    requires minRating > 0
    ensures TruncateToInt(rate) >= minRating <==> rate >= minRating as real
  {
  }

  /** The rating filter's condition. */
  predicate RatingAtLeast(p: Product, minRating: int)
  {
    TruncateToInt(p.rating.rate) >= minRating
  }

  /** The search step's condition: a blank query admits everything. */
  predicate QueryAdmits(p: Product, query: string)
  {
    IsBlank(query) || MatchesQuery(p, query)
  }

  /** The search step: a non-blank query keeps the products whose title or category contains it. */
  function ByQuery(products: seq<Product>, query: string): (r: seq<Product>)
    ensures IsSubsequence(r, products)
    ensures forall x :: multiset(r)[x] == (if QueryAdmits(x, query) then multiset(products)[x] else 0)
    ensures IsBlank(query) ==> r == products
  {
    if !IsBlank(query) then Filter(products, (p: Product) => MatchesQuery(p, query))
    else
      SubsequenceReflexive(products);
      products
  }

  /** The category step's condition: an empty selection admits everything. */
  predicate CategoryAdmits(p: Product, selected: set<string>)
  {
    |selected| == 0 || p.category in selected
  }

  /** The category step: a non-empty selection keeps the products in a selected category. */
  function ByCategory(products: seq<Product>, selected: set<string>): (r: seq<Product>)
    ensures IsSubsequence(r, products)
    ensures forall x :: multiset(r)[x] == (if CategoryAdmits(x, selected) then multiset(products)[x] else 0)
    ensures |selected| == 0 ==> r == products
  {
    if |selected| > 0 then Filter(products, (p: Product) => p.category in selected)
    else
      SubsequenceReflexive(products);
      products
  }

  /** The price step's condition: no selected range admits everything. */
  predicate PriceAdmits(p: Product, range: Wrappers.Option<PriceRange>)
  {
    range.None? || InRange(p.price, range.value)
  }

  /** The price step: a selected range keeps the products priced inside it. */
  function ByPrice(products: seq<Product>, range: Wrappers.Option<PriceRange>): (r: seq<Product>)
    ensures IsSubsequence(r, products)
    ensures forall x :: multiset(r)[x] == (if PriceAdmits(x, range) then multiset(products)[x] else 0)
    ensures range.None? ==> r == products
  {
    match range
    case Some(band) => Filter(products, (p: Product) => InRange(p.price, band))
    case None =>
      SubsequenceReflexive(products);
      products
  }

  /** The rating step's condition: a minimum of 0 or less admits everything. */
  predicate RatingAdmits(p: Product, minRating: int)
  {
    minRating <= 0 || RatingAtLeast(p, minRating)
  }

  /** The rating step: a positive minimum keeps the products whose truncated rate reaches it. */
  function ByRating(products: seq<Product>, minRating: int): (r: seq<Product>)
    ensures IsSubsequence(r, products)
    ensures forall x :: multiset(r)[x] == (if RatingAdmits(x, minRating) then multiset(products)[x] else 0)
    ensures minRating <= 0 ==> r == products
  {
    if minRating > 0 then Filter(products, (p: Product) => RatingAtLeast(p, minRating))
    else
      SubsequenceReflexive(products);
      products
  }

  /** The four filters in the source's order. */
  function Filtered(products: seq<Product>, query: string, filters: Filters): seq<Product>
  {
    var byQuery := ByQuery(products, query);
    var byCategory := ByCategory(byQuery, filters.selectedCategories);
    var byPrice := ByPrice(byCategory, filters.selectedPriceRange);
    ByRating(byPrice, filters.minRating)
  }

  /** The order each sort chip imposes, as "may come before". */
  predicate InOrder(a: Product, b: Product, option: SortOption)
  {
    match option
    case None => true
    case PriceAsc => a.price <= b.price
    case PriceDesc => a.price >= b.price
    case RatingDesc => a.rating.rate >= b.rating.rate
  }

  lemma InOrderIsOrder(option: SortOption)
    ensures Total((a, b) => InOrder(a, b, option))
    ensures Transitive((a, b) => InOrder(a, b, option))
  {
  }

  /** The `when (sortOption)` at the end of the pipeline. */
  function Sorted(s: seq<Product>, option: SortOption): seq<Product>
  {
    if option == None then s
    else
      InOrderIsOrder(option);
      SortBy(s, (a, b) => InOrder(a, b, option))
  }

  /** What the grid shows: the filtered products in the chosen order. */
  function ProductList(products: seq<Product>, query: string, filters: Filters): seq<Product>
  {
    Sorted(Filtered(products, query, filters), filters.sortOption)
  }

  /** A product passes every step. */
  predicate Admits(p: Product, query: string, filters: Filters)
  {
    && QueryAdmits(p, query)
    && CategoryAdmits(p, filters.selectedCategories)
    && PriceAdmits(p, filters.selectedPriceRange)
    && RatingAdmits(p, filters.minRating)
  }

  /**
   * The filters keep exactly the admitted products, every copy of each, in
   * their original order.
   */
  lemma FilteredExactly(products: seq<Product>, query: string, filters: Filters)
    ensures IsSubsequence(Filtered(products, query, filters), products)
    ensures forall x :: multiset(Filtered(products, query, filters))[x] ==
                        (if Admits(x, query, filters) then multiset(products)[x] else 0)
  {
    var byQuery := ByQuery(products, query);
    var byCategory := ByCategory(byQuery, filters.selectedCategories);
    var byPrice := ByPrice(byCategory, filters.selectedPriceRange);
    var result := ByRating(byPrice, filters.minRating);
    SubsequenceTransitive(byCategory, byQuery, products);
    SubsequenceTransitive(byPrice, byCategory, products);
    SubsequenceTransitive(result, byPrice, products);
  }

  /** With no sort chip the list is the filtered products in catalogue order. */
  lemma UnsortedKeepsOrder(products: seq<Product>, query: string, filters: Filters)
    requires filters.sortOption == None
    ensures IsSubsequence(ProductList(products, query, filters), products)
  {
    FilteredExactly(products, query, filters);
  }

  /** Sorting only reorders: the list holds exactly what the filters kept. */
  lemma SortingPermutes(products: seq<Product>, query: string, filters: Filters)
    ensures multiset(ProductList(products, query, filters)) == multiset(Filtered(products, query, filters))
  {
  }

  /** Each sort chip's order holds between any two products of the list. */
  lemma SortedByChip(products: seq<Product>, query: string, filters: Filters)
    ensures var r := ProductList(products, query, filters);
      forall i, j :: 0 <= i < j < |r| ==> InOrder(r[i], r[j], filters.sortOption)
  {
    if filters.sortOption != None {
      InOrderIsOrder(filters.sortOption);
      SortedAllPairs(ProductList(products, query, filters), (a, b) => InOrder(a, b, filters.sortOption));
    }
  }

  /** After Reset, a blank query shows the whole catalogue as it came. */
  lemma ResetShowsAll(products: seq<Product>, query: string, filters: Filters)
    requires IsBlank(query)
    ensures ProductList(products, query, Reset(filters)) == products
  {
  }

  // ---------------------------------------------------------------------------
  // The category chips
  // ---------------------------------------------------------------------------

  /**
   * The UTF-16 code units of one character, as a Kotlin `String` stores it:
   * the character itself below U+10000, a surrogate pair above.
   */
  function CodeUnits(c: char): (u: seq<int>)
    ensures |u| == 1 || |u| == 2
    ensures |u| == 2 <==> 0xD800 <= u[0] < 0xDC00
  {
    var n := c as int;
    if n < 0x10000 then [n] else [0xD800 + (n - 0x10000) / 0x400, 0xDC00 + (n - 0x10000) % 0x400]
  }

  /** Different characters have different code units. */
  lemma CodeUnitsInjective(c: char, d: char)
    requires CodeUnits(c) == CodeUnits(d)
    ensures c == d
  {
    if c as int >= 0x10000 {
      var m, n := c as int - 0x10000, d as int - 0x10000;
      assert m == m / 0x400 * 0x400 + m % 0x400;
      assert n == n / 0x400 * 0x400 + n % 0x400;
    }
  }

  /** A string's UTF-16 code units. */
  function Utf16(s: string): (u: seq<int>)
    ensures |u| >= |s|
  {
    if s == [] then [] else CodeUnits(s[0]) + Utf16(s[1..])
  }

  /** Different strings have different code units: the first unit of each character tells how many units it takes. */
  lemma {:induction false} Utf16Injective(a: string, b: string)
    requires Utf16(a) == Utf16(b)
    ensures a == b
  {
    if a != [] && b != [] {
      var ua, ub := CodeUnits(a[0]), CodeUnits(b[0]);
      var u := Utf16(a);
      assert u == ua + Utf16(a[1..]) && u == ub + Utf16(b[1..]);
      assert ua[0] == u[0] == ub[0];
      assert ua == u[..|ua|] == ub;
      CodeUnitsInjective(a[0], b[0]);
      assert Utf16(a[1..]) == u[|ua|..] == Utf16(b[1..]);
      Utf16Injective(a[1..], b[1..]);
      assert a == [a[0]] + a[1..] && b == [b[0]] + b[1..];
    }
  }

  /** Lexicographic order on code units, a proper prefix first. */
  predicate UnitsLess(u: seq<int>, v: seq<int>)
  {
    if u == [] then v != []
    else if v == [] then false
    else if u[0] != v[0] then u[0] < v[0]
    else UnitsLess(u[1..], v[1..])
  }

  lemma {:induction false} UnitsLessTotal(u: seq<int>, v: seq<int>)
    ensures u == v || UnitsLess(u, v) || UnitsLess(v, u)
  {
    if u != [] && v != [] && u[0] == v[0] {
      UnitsLessTotal(u[1..], v[1..]);
      if u[1..] == v[1..] {
        assert u == [u[0]] + u[1..] && v == [v[0]] + v[1..];
      }
    }
  }

  lemma {:induction false} UnitsLessTransitive(u: seq<int>, v: seq<int>, w: seq<int>)
    requires UnitsLess(u, v) && UnitsLess(v, w)
    ensures UnitsLess(u, w)
  {
    if u != [] && v != [] && w != [] && u[0] == v[0] && v[0] == w[0] {
      UnitsLessTransitive(u[1..], v[1..], w[1..]);
    }
  }

  /** Kotlin's `String.compareTo(...) < 0`: the UTF-16 code units compared in order, a proper prefix first. */
  predicate StrLess(a: string, b: string)
  {
    UnitsLess(Utf16(a), Utf16(b))
  }

  /** Code-unit order is not code-point order: U+1F600 sorts before U+FF21 because its first unit is 0xD83D. */
  lemma SurrogatePairSortsLow()
    ensures '\U{FF21}' < '\U{1F600}'
    ensures StrLess("\U{1F600}", "\U{FF21}")
  {
    assert Utf16("\U{1F600}") == [0xD83D, 0xDE00];
    assert Utf16("\U{FF21}") == [0xFF21];
  }

  lemma StrLessTotal(a: string, b: string)
    ensures a == b || StrLess(a, b) || StrLess(b, a)
  {
    UnitsLessTotal(Utf16(a), Utf16(b));
    if Utf16(a) == Utf16(b) {
      Utf16Injective(a, b);
    }
  }

  predicate AtMost(a: string, b: string)
  {
    a == b || StrLess(a, b)
  }

  lemma StrLessTransitive(a: string, b: string, c: string)
    requires StrLess(a, b) && StrLess(b, c)
    ensures StrLess(a, c)
  {
    UnitsLessTransitive(Utf16(a), Utf16(b), Utf16(c));
  }

  lemma AtMostTotal()
    ensures Total(AtMost)
  {
    forall a: string, b: string ensures AtMost(a, b) || AtMost(b, a) {
      StrLessTotal(a, b);
    }
  }

  /** `distinct()`: the first occurrence of each value, in order. */
  function Distinct<T(!new,==)>(s: seq<T>): (r: seq<T>)
    ensures forall x :: x in r <==> x in s
    ensures forall i, j :: 0 <= i < j < |r| ==> r[i] != r[j]
  {
    if s == [] then []
    else
      var n := |s| - 1;
      var before := Distinct(s[..n]);
      assert forall x :: x in s <==> x in s[..n] || x == s[n] by {
        assert s == s[..n] + [s[n]];
      }
      if s[n] in before then before else before + [s[n]]
  }

  /** `products.map { it.category }`. */
  function CategoriesOf(products: seq<Product>): (r: seq<string>)
    ensures |r| == |products| && forall i :: 0 <= i < |r| ==> r[i] == products[i].category
  {
    seq(|products|, i requires 0 <= i < |products| => products[i].category)
  }

  /** `products.map { it.category }.distinct().sorted()`. */
  function Categories(products: seq<Product>): seq<string>
  {
    AtMostTotal();
    SortBy(Distinct(CategoriesOf(products)), AtMost)
  }

  lemma {:induction false} CountTwo<T>(s: seq<T>, i: int, j: int)
    requires 0 <= i < j < |s| && s[i] == s[j]
    ensures multiset(s)[s[i]] >= 2
  {
    assert s == s[..j] + [s[j]] + s[j + 1..];
    assert s[..j][i] == s[i];
  }

  /** A sorted list without repeats is in strictly increasing order. */
  lemma SortedDistinctIsStrict(s: seq<string>)
    requires SortedBy(s, AtMost)
    requires forall x :: multiset(s)[x] <= 1
    ensures forall i, j :: 0 <= i < j < |s| ==> StrLess(s[i], s[j])
  {
    forall i | 0 < i < |s| ensures StrLess(s[i - 1], s[i]) {
      if s[i - 1] == s[i] {
        CountTwo(s, i - 1, i);
      }
    }
    forall a: string, b: string, c: string | StrLess(a, b) && StrLess(b, c) ensures StrLess(a, c) {
      StrLessTransitive(a, b, c);
    }
    SortedAllPairs(s, StrLess);
  }

  lemma {:induction false} DistinctCountsOne<T>(s: seq<T>)
    requires forall i, j :: 0 <= i < j < |s| ==> s[i] != s[j]
    ensures forall x :: multiset(s)[x] <= 1
  {
    if s != [] {
      var n := |s| - 1;
      DistinctCountsOne(s[..n]);
      assert s == s[..n] + [s[n]];
      assert s[n] !in s[..n];
    }
  }

  /**
   * The category chips: every category of the catalogue once, in strictly
   * ascending order, and nothing else.
   */
  lemma CategoriesSortedDistinct(products: seq<Product>)
    ensures var cs := Categories(products);
      && (forall i, j :: 0 <= i < j < |cs| ==> StrLess(cs[i], cs[j]))
      && (forall c :: c in cs <==> exists p :: p in products && p.category == c)
  {
    var names := CategoriesOf(products);
    var d := Distinct(names);
    var cs := Categories(products);
    AtMostTotal();
    DistinctCountsOne(d);
    assert multiset(cs) == multiset(d);
    SortedDistinctIsStrict(cs);
    forall c ensures c in cs <==> exists p :: p in products && p.category == c {
      assert c in cs <==> c in multiset(d);
      if c in names {
        var i :| 0 <= i < |names| && names[i] == c;
        assert products[i] in products;
      }
    }
  }
}
