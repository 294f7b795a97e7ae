/** The shop listing page (app/shop/page.tsx): reads the filters from the URL's search
    parameters, fetches one page of products, and renders links to every page. */
module ShopPage {
  import opened Common
  import opened UrlParams
  import opened Catalog

  /** A search parameter as the page receives it: a string, or something else (a repeated
      parameter arrives as a list). */
  datatype ParamValue = Text(s: string) | NotText

  /** The `searchParams` object: distinct keys, in order. */
  type SearchRecord = seq<(string, ParamValue)>

  predicate DistinctKeys(obj: SearchRecord)
  {
    forall i, j :: 0 <= i < j < |obj| ==> obj[i].0 != obj[j].0
  }

  /** The string value of `key`, if the record has one. */
  function TextOf(obj: SearchRecord, key: string): (r: Option<string>)
  {
    if obj == [] then None
    else if obj[0].0 == key then (if obj[0].1.Text? then Some(obj[0].1.s) else None)
    else TextOf(obj[1..], key)
  }

  /** The parameters `toUrlParams` produces: a `set` for each key whose value is a string. */
  function FromRecord(obj: SearchRecord): Params
  {
    if obj == [] then []
    else
      var last := obj[|obj| - 1];
      var init := FromRecord(obj[..|obj| - 1]);
      if last.1.Text? then Set(init, last.0, last.1.s) else init
  }

  lemma {:induction false} TextOfSnoc(obj: SearchRecord, e: (string, ParamValue), key: string)
    requires forall x :: x in obj ==> x.0 != e.0
    ensures TextOf(obj + [e], key) == if key == e.0 then (if e.1.Text? then Some(e.1.s) else None) else TextOf(obj, key)
  {
    if obj != [] {
      assert (obj + [e])[1..] == obj[1..] + [e];
      assert forall x :: x in obj[1..] ==> x in obj;
      TextOfSnoc(obj[1..], e, key);
    } else {
      assert obj + [e] == [e];
    }
  }

  lemma {:induction false} TextOfAbsent(obj: SearchRecord, key: string)
    requires forall x :: x in obj ==> x.0 != key
    ensures TextOf(obj, key) == None
  {
    if obj != [] {
      assert forall x :: x in obj[1..] ==> x in obj;
      TextOfAbsent(obj[1..], key);
    }
  }

  /** `toUrlParams` copies exactly the keys whose value is a string. */
  lemma {:induction false} FromRecordReads(obj: SearchRecord, key: string)
    requires DistinctKeys(obj)
    ensures Get(FromRecord(obj), key) == TextOf(obj, key)
  {
    if obj != [] {
      var init := obj[..|obj| - 1];
      var last := obj[|obj| - 1];
      assert obj == init + [last];
      assert forall x :: x in init ==> x.0 != last.0 by {
        forall x | x in init ensures x.0 != last.0 {
          var i :| 0 <= i < |init| && init[i] == x;
          assert obj[i] == x;
        }
      }
      assert DistinctKeys(init) by {
        forall i, j | 0 <= i < j < |init| ensures init[i].0 != init[j].0 {
          assert init[i] == obj[i] && init[j] == obj[j];
        }
      }
      FromRecordReads(init, key);
      TextOfSnoc(init, last, key);
      if last.1.Text? {
        GetSet(FromRecord(init), last.0, last.1.s, key);
      } else if key == last.0 {
        TextOfAbsent(init, key);
      }
    }
  }

  /** `toUrlParams(obj)`: a fresh parameter list, then a `set` per string-valued key. */
  method ToUrlParams(obj: SearchRecord) returns (p: Params)
    ensures p == FromRecord(obj)
  {
    p := [];
    var i := 0;
    while i < |obj|
      invariant 0 <= i <= |obj|
      invariant p == FromRecord(obj[..i])
    {
      assert obj[..i + 1][..i] == obj[..i];
      if obj[i].1.Text? {
        p := Set(p, obj[i].0, obj[i].1.s);
      }
      i := i + 1;
    }
    assert obj[..i] == obj;
  }

  /** `params.x || null`. */
  function TextFilter(obj: SearchRecord, key: string): (r: Option<string>)
    ensures r.Some? <==> OrEmpty(TextOf(obj, key)) != ""
    ensures r.Some? ==> r == TextOf(obj, key) && r.value != ""
  {
    NullIfEmpty(TextOf(obj, key))
  }

  /** `params.x ? Number(params.x) : null`. */
  function NumberFilter(obj: SearchRecord, key: string): (r: Option<JsNum>)
    ensures r.Some? <==> OrEmpty(TextOf(obj, key)) != ""
    ensures r.Some? ==> r.value == ParseNumber(TextOf(obj, key).value)
  {
    if OrEmpty(TextOf(obj, key)) != "" then Some(ParseNumber(TextOf(obj, key).value)) else None
  }

  /** The filters the page passes to `fetchFilteredProductsPage`. */
  function FiltersOf(obj: SearchRecord): (f: Filters)
    ensures f.query == TextFilter(obj, "query") && f.categoryId == TextFilter(obj, "category")
    ensures f.subCategoryId == TextFilter(obj, "subcategory") && f.brandId == TextFilter(obj, "brand")
    ensures f.colour == TextFilter(obj, "colour") && f.size == TextFilter(obj, "size")
    ensures f.minPrice == NumberFilter(obj, "minPrice") && f.maxPrice == NumberFilter(obj, "maxPrice")
    ensures f.sort == TextFilter(obj, "sort")
  {
    Filters(TextFilter(obj, "query"), TextFilter(obj, "category"), TextFilter(obj, "subcategory"),
            TextFilter(obj, "brand"), TextFilter(obj, "colour"), TextFilter(obj, "size"),
            NumberFilter(obj, "minPrice"), NumberFilter(obj, "maxPrice"), TextFilter(obj, "sort"))
  }

  /** `params.page ? Number(params.page) : 1`. */
  function PageOf(obj: SearchRecord): (r: JsNum)
    ensures OrEmpty(TextOf(obj, "page")) == "" ==> r == Fin(1)
    ensures OrEmpty(TextOf(obj, "page")) != "" ==> r == ParseNumber(TextOf(obj, "page").value)
  {
    if OrEmpty(TextOf(obj, "page")) != "" then ParseNumber(TextOf(obj, "page").value) else Fin(1)
  }

  /** Subcategories are looked up only for a given category, and for the category the
      product filter uses. */
  function SubcategoryLookup(obj: SearchRecord): (r: Option<string>)
    ensures r.Some? <==> OrEmpty(TextOf(obj, "category")) != ""
    ensures r.Some? ==> r == TextOf(obj, "category")
    ensures r == FiltersOf(obj).categoryId
  {
    TextFilter(obj, "category")
  }

  /** One pagination link: its parameters and whether it is `aria-current`. */
  datatype PageLink = PageLink(number: nat, params: Params, href: string, current: bool)

  function LinkFor(obj: SearchRecord, page: JsNum, n: nat): PageLink
  {
    var p := Set(FromRecord(obj), "page", NatToString(n));
    PageLink(n, p, "/shop?" + ToQuery(p), page == Fin(n))
  }

  /** Each link carries its own number in `page` and every other parameter unchanged. */
  lemma LinkReads(obj: SearchRecord, page: JsNum, n: nat, key: string)
    requires DistinctKeys(obj)
    ensures Get(LinkFor(obj, page, n).params, "page") == Some(NatToString(n))
    ensures key != "page" ==> Get(LinkFor(obj, page, n).params, key) == TextOf(obj, key)
  {
    GetSet(FromRecord(obj), "page", NatToString(n), key);
    FromRecordReads(obj, key);
  }

  /** The pagination: one link per page, 1 to `totalPages`, in order. */
  method PageLinks(obj: SearchRecord, page: JsNum, totalPages: nat) returns (links: seq<PageLink>)
    ensures |links| == totalPages
    ensures forall i :: 0 <= i < totalPages ==> links[i] == LinkFor(obj, page, i + 1)
  {
    links := [];
    var i := 0;
    while i < totalPages
      invariant 0 <= i <= totalPages && |links| == i
      invariant forall j :: 0 <= j < i ==> links[j] == LinkFor(obj, page, j + 1)
    {
      var newParams := ToUrlParams(obj);
      newParams := Set(newParams, "page", NatToString(i + 1));
      links := links + [PageLink(i + 1, newParams, "/shop?" + ToQuery(newParams), page == Fin(i + 1))];
      i := i + 1;
    }
  }

  /** Exactly the link whose number is the current page is marked current; so at most one is. */
  lemma CurrentLink(obj: SearchRecord, page: JsNum, links: seq<PageLink>)
    requires forall i :: 0 <= i < |links| ==> links[i] == LinkFor(obj, page, i + 1)
    ensures forall i :: 0 <= i < |links| ==> (links[i].current <==> page == Fin(i + 1))
    ensures forall i, j :: 0 <= i < j < |links| ==> !(links[i].current && links[j].current)
    ensures (exists i :: 0 <= i < |links| && links[i].current) <==> page.Fin? && 1 <= page.n <= |links|
  {
    if page.Fin? && 1 <= page.n <= |links| {
      assert links[page.n - 1].current;
    }
  }

  datatype ShopView = ShopView(products: seq<Product>, links: seq<PageLink>, subcategoryLookup: Option<string>)

  /** The page: filters and page number from the URL, one page of products, and the links. */
  method Render(table: seq<Product>, obj: SearchRecord) returns (r: Result<ShopView>)
    ensures r.Success? <==> FetchFilteredProductsPage(table, FiltersOf(obj), PageOf(obj)).Success?
    ensures r.Success? ==>
              && r.value.products == FetchFilteredProductsPage(table, FiltersOf(obj), PageOf(obj)).value.products
              && |r.value.links| == FetchFilteredProductsPage(table, FiltersOf(obj), PageOf(obj)).value.totalPages
              && (forall i :: 0 <= i < |r.value.links| ==> r.value.links[i] == LinkFor(obj, PageOf(obj), i + 1))
              && r.value.subcategoryLookup == SubcategoryLookup(obj)
  {
    var fetched := FetchFilteredProductsPage(table, FiltersOf(obj), PageOf(obj));
    if fetched.Failure? {
      return Failure(fetched.message);
    }
    var links := PageLinks(obj, PageOf(obj), fetched.value.totalPages);
    r := Success(ShopView(fetched.value.products, links, SubcategoryLookup(obj)));
  }
}
