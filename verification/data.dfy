/** The catalogue queries of app/lib/data.ts: a conjunctive filter, a sort order, and
    pages of twelve. The products table is a sequence in insertion order; prices are
    integer cents. */
module Catalog {
  import opened Common

  const ItemsPerPage: nat := 12

  datatype Product = Product(productId: string, name: string, price: int, categoryId: string, subCategoryId: string,
                             brandId: string, colour: string, size: string, created: int)

  /** The query's filters; a missing or empty text filter, or a missing price bound, is no filter. */
  datatype Filters = Filters(query: Option<string>, categoryId: Option<string>, subCategoryId: Option<string>,
                             brandId: Option<string>, colour: Option<string>, size: Option<string>,
                             minPrice: Option<JsNum>, maxPrice: Option<JsNum>, sort: Option<string>)

  /** `text ILIKE '%pat%'`: a case-insensitive substring test (the pattern's own `%` and
      `_` are not treated as wildcards here). */
  predicate ILike(text: string, pat: string)
  {
    Contains(Lower(text), Lower(pat))
  }

  /** `price >= bound` in PostgreSQL, where NaN sorts above every number. */
  predicate AtLeast(price: int, bound: JsNum)
  {
    match bound
    case Fin(n) => price >= n
    case NegInf => true
    case _ => false
  }

  /** `price <= bound` in PostgreSQL. */
  predicate AtMost(price: int, bound: JsNum)
  {
    match bound
    case Fin(n) => price <= n
    case NegInf => false
    case _ => true
  }

  /** The predicate shared by the count and page queries of `fetchFilteredProductsPage`:
      the keyword matches the name only. */
  predicate MatchesPage(p: Product, f: Filters)
  {
    && (OrEmpty(f.query) == "" || ILike(p.name, f.query.value))
    && (OrEmpty(f.categoryId) == "" || p.categoryId == f.categoryId.value)
    && (OrEmpty(f.subCategoryId) == "" || p.subCategoryId == f.subCategoryId.value)
    && (OrEmpty(f.brandId) == "" || p.brandId == f.brandId.value)
    && (OrEmpty(f.colour) == "" || ILike(p.colour, f.colour.value))
    && (OrEmpty(f.size) == "" || ILike(p.size, f.size.value))
    && (f.minPrice.None? || AtLeast(p.price, f.minPrice.value))
    && (f.maxPrice.None? || AtMost(p.price, f.maxPrice.value))
  }

  /** The predicate of `fetchFilteredProducts`: the keyword must match the name AND the colour. */
  predicate MatchesList(p: Product, f: Filters)
  {
    && MatchesPage(p, f)
    && (OrEmpty(f.query) == "" || ILike(p.colour, f.query.value))
  }

  /** The list query is the stricter of the two: with a keyword that occurs in a name but
      not in its colour, the page query counts a product the list query drops. */
  lemma KeywordDiffers(p: Product, f: Filters)
    ensures MatchesList(p, f) ==> MatchesPage(p, f)
    ensures (MatchesPage(p, f) && OrEmpty(f.query) != "" && !ILike(p.colour, f.query.value)) ==> !MatchesList(p, f)
  {
  }

  /** A product that no filter constrains passes both queries. */
  lemma NoFiltersMatchAll(p: Product)
    ensures MatchesList(p, Filters(None, None, None, None, None, None, None, None, None))
  {
  }

  datatype SortOrder = PriceAsc | PriceDesc | CreatedAsc | CreatedDesc

  /** `fetchFilteredProducts`' sort choice: four independent `if`s over a default. */
  function ListSort(sort: Option<string>): SortOrder
  {
    var s0 := CreatedDesc;
    var s1 := if sort == Some("price_asc") then PriceAsc else s0;
    var s2 := if sort == Some("price_desc") then PriceDesc else s1;
    var s3 := if sort == Some("newest") then CreatedDesc else s2;
    if sort == Some("oldest") then CreatedAsc else s3
  }

  /** `fetchFilteredProductsPage`' sort choice: an `if`/`else` chain, newest by default. */
  function PageSort(sort: Option<string>): SortOrder
  {
    if sort == Some("price_asc") then PriceAsc
    else if sort == Some("price_desc") then PriceDesc
    else if sort == Some("oldest") then CreatedAsc
    else CreatedDesc
  }

  /** Both queries choose the same order: price ascending or descending, oldest first,
      and newest first for anything else. */
  lemma SortChoice(sort: Option<string>)
    ensures ListSort(sort) == PageSort(sort)
    ensures PageSort(sort) == PriceAsc <==> sort == Some("price_asc")
    ensures PageSort(sort) == PriceDesc <==> sort == Some("price_desc")
    ensures PageSort(sort) == CreatedAsc <==> sort == Some("oldest")
    ensures PageSort(sort) == CreatedDesc <==> sort !in {Some("price_asc"), Some("price_desc"), Some("oldest")}
  {
  }

  /** The value `ORDER BY` sorts ascending on. */
  function Key(p: Product, order: SortOrder): int
  {
    match order
    case PriceAsc => p.price
    case PriceDesc => -p.price
    case CreatedAsc => p.created
    case CreatedDesc => -p.created
  }

  predicate SortedBy(s: seq<Product>, order: SortOrder)
  {
    forall i, j :: 0 <= i < j < |s| ==> Key(s[i], order) <= Key(s[j], order)
  }

  /** The head of a sorted sequence has the least key. */
  lemma HeadKeyLeast(s: seq<Product>, order: SortOrder, y: Product)
    requires SortedBy(s, order) && s != [] && y in s[1..]
    ensures Key(s[0], order) <= Key(y, order)
  {
    var j :| 0 <= j < |s[1..]| && s[1..][j] == y;
    assert s[j + 1] == y;
  }

  /** A key no greater than every key of a sorted sequence can go in front of it. */
  lemma ConsSorted(h: Product, s: seq<Product>, order: SortOrder)
    requires SortedBy(s, order)
    requires forall y :: y in s ==> Key(h, order) <= Key(y, order)
    ensures SortedBy([h] + s, order)
  {
    var r := [h] + s;
    forall i, j | 0 <= i < j < |r|
      ensures Key(r[i], order) <= Key(r[j], order)
    {
      if i == 0 {
        assert r[j] == s[j - 1] && s[j - 1] in s;
      } else {
        assert r[i] == s[i - 1] && r[j] == s[j - 1];
      }
    }
  }

  function InsertByKey(x: Product, s: seq<Product>, order: SortOrder): (r: seq<Product>)
    requires SortedBy(s, order)
    ensures multiset(r) == multiset(s) + multiset{x} && |r| == |s| + 1
    ensures forall y :: y in r ==> y == x || y in s
    ensures SortedBy(r, order)
  {
    if s == [] then [x]
    else if Key(x, order) <= Key(s[0], order) then
      assert forall y :: y in s ==> Key(x, order) <= Key(y, order) by {
        forall y | y in s ensures Key(x, order) <= Key(y, order) {
          if y != s[0] {
            assert s == [s[0]] + s[1..];
            HeadKeyLeast(s, order, y);
          }
        }
      }
      ConsSorted(x, s, order);
      [x] + s
    else
      var rest := InsertByKey(x, s[1..], order);
      assert s == [s[0]] + s[1..];
      forall y | y in rest
        ensures Key(s[0], order) <= Key(y, order)
      {
        if y != x {
          HeadKeyLeast(s, order, y);
        }
      }
      ConsSorted(s[0], rest, order);
      [s[0]] + rest
  }

  /** The rows in `ORDER BY` order; rows with equal keys keep their table order
      (PostgreSQL leaves that order open). */
  function SortRows(rows: seq<Product>, order: SortOrder): (r: seq<Product>)
    ensures SortedBy(r, order) && multiset(r) == multiset(rows) && |r| == |rows|
  {
    if rows == [] then []
    else
      assert rows == [rows[0]] + rows[1..];
      InsertByKey(rows[0], SortRows(rows[1..], order), order)
  }

  /** The rows satisfying `keep`, in table order. */
  function Where(rows: seq<Product>, f: Filters, list: bool): (r: seq<Product>)
    ensures forall p :: p in r <==> p in rows && (if list then MatchesList(p, f) else MatchesPage(p, f))
    ensures |r| <= |rows|
  {
    if rows == [] then []
    else (if (if list then MatchesList(rows[0], f) else MatchesPage(rows[0], f)) then [rows[0]] else [])
         + Where(rows[1..], f, list)
  }

  /** `OFFSET (page - 1) * 12`; PostgreSQL refuses a negative or non-numeric offset. */
  function Offset(page: JsNum): (r: Result<nat>)
    ensures page.Fin? && page.n >= 1 ==> r == Success((page.n - 1) * ItemsPerPage)
    ensures r.Success? ==> page.Fin? && page.n >= 1
  {
    if page.Fin? && page.n >= 1 then Success((page.n - 1) * ItemsPerPage)
    else Failure("Failed to fetch " + "products.")
  }

  /** `LIMIT 12 OFFSET offset` over ordered rows. */
  function Window(rows: seq<Product>, offset: nat): (r: seq<Product>)
    ensures |r| <= ItemsPerPage
    ensures offset >= |rows| ==> r == []
    ensures offset < |rows| ==> r == rows[offset..if offset + ItemsPerPage < |rows| then offset + ItemsPerPage else |rows|]
  {
    if offset >= |rows| then []
    else rows[offset..if offset + ItemsPerPage < |rows| then offset + ItemsPerPage else |rows|]
  }

  /** A window of sorted rows is sorted. */
  lemma WindowSorted(rows: seq<Product>, offset: nat, order: SortOrder)
    requires SortedBy(rows, order)
    ensures SortedBy(Window(rows, offset), order)
  {
  }

  /** `fetchFilteredProducts`: one page of the list query. */
  function FetchFilteredProducts(table: seq<Product>, f: Filters, page: JsNum): (r: Result<seq<Product>>)
    ensures r.Success? ==> |r.value| <= ItemsPerPage
    ensures r.Success? ==> forall p :: p in r.value ==> p in table && MatchesList(p, f)
    ensures r.Success? <==> page.Fin? && page.n >= 1
    ensures r.Success? ==> r.value == Window(SortRows(Where(table, f, true), ListSort(f.sort)), Offset(page).value)
    ensures r.Success? ==> SortedBy(r.value, ListSort(f.sort))
  {
    var offset := Offset(page);
    if offset.Failure? then Failure(offset.message)
    else
      var ordered := SortRows(Where(table, f, true), ListSort(f.sort));
      var r := Window(ordered, offset.value);
      WindowSorted(ordered, offset.value, ListSort(f.sort));
      assert forall p :: p in r ==> p in multiset(ordered);
      Success(r)
  }

  /** `Math.ceil(count / 12)`. */
  function TotalPages(count: nat): (r: nat)
  {
    (count + ItemsPerPage - 1) / ItemsPerPage
  }

  /** The page count is the least number of 12-row pages that hold every row. */
  lemma TotalPagesIsCeiling(count: nat)
    ensures TotalPages(count) * ItemsPerPage >= count
    ensures TotalPages(count) > 0 ==> (TotalPages(count) - 1) * ItemsPerPage < count
    ensures TotalPages(count) == 0 <==> count == 0
  {
  }

  datatype ProductPage = ProductPage(products: seq<Product>, totalPages: nat)

  /** `fetchFilteredProductsPage`: the count and the page come from the same predicate. */
  function FetchFilteredProductsPage(table: seq<Product>, f: Filters, page: JsNum): (r: Result<ProductPage>)
    ensures r.Success? ==> |r.value.products| <= ItemsPerPage
    ensures r.Success? ==> forall p :: p in r.value.products ==> p in Where(table, f, false)
    ensures r.Success? ==> r.value.totalPages == TotalPages(|Where(table, f, false)|)
    ensures r.Success? <==> page.Fin? && page.n >= 1
    ensures r.Success? ==> r.value.products == Window(SortRows(Where(table, f, false), PageSort(f.sort)), Offset(page).value)
    ensures r.Success? ==> SortedBy(r.value.products, PageSort(f.sort))
  {
    var matching := Where(table, f, false);
    var offset := Offset(page);
    if offset.Failure? then Failure(offset.message)
    else
      var ordered := SortRows(matching, PageSort(f.sort));
      var r := Window(ordered, offset.value);
      WindowSorted(ordered, offset.value, PageSort(f.sort));
      assert forall p :: p in r ==> p in multiset(ordered);
      Success(ProductPage(r, TotalPages(|matching|)))
  }

  /** Page `n` starts inside the matching rows exactly up to the last page, and every
      page before the last ends inside them. */
  lemma PageOffsets(count: nat, n: int)
    requires n >= 1
    ensures n <= TotalPages(count) <==> (n - 1) * ItemsPerPage < count
    ensures n < TotalPages(count) ==> (n - 1) * ItemsPerPage + ItemsPerPage <= count
  {
    TotalPagesIsCeiling(count);
    if n <= TotalPages(count) {
      assert (n - 1) * ItemsPerPage <= (TotalPages(count) - 1) * ItemsPerPage;
    } else {
      assert (n - 1) * ItemsPerPage >= TotalPages(count) * ItemsPerPage;
    }
    if n < TotalPages(count) {
      assert n * ItemsPerPage <= (TotalPages(count) - 1) * ItemsPerPage;
    }
  }

  /** Every page from 1 to `totalPages` holds at least one product and later pages hold
      none; every page but the last is full. */
  lemma PagesCoverMatches(table: seq<Product>, f: Filters, n: int)
    requires n >= 1
    ensures var r := FetchFilteredProductsPage(table, f, Fin(n));
            && (n <= r.value.totalPages ==> r.value.products != [])
            && (n > r.value.totalPages ==> r.value.products == [])
            && (n < r.value.totalPages ==> |r.value.products| == ItemsPerPage)
  {
    var count := |Where(table, f, false)|;
    PageOffsets(count, n);
    var ordered := SortRows(Where(table, f, false), PageSort(f.sort));
    assert |ordered| == count;
  }
}
