/** The shop's filter sidebar (app/components/filter-sidebar.tsx): the selected filters
    held as component state, and the URL query they are written into. Navigation makes
    the written parameters the page's new search parameters. */
module FilterSidebar {
  import opened Common
  import opened UrlParams

  /** One `[key, value]` step of `updateURL`: a non-empty value is set, an empty one deleted. */
  function Step(p: Params, e: (string, string)): Params
  {
    if e.1 != "" then Set(p, e.0, e.1) else Delete(p, e.0)
  }

  /** The parameters after applying the given entries in order. */
  function Apply(p: Params, entries: seq<(string, string)>): Params
  {
    if entries == [] then p else Step(Apply(p, entries[..|entries| - 1]), entries[|entries| - 1])
  }

  /** Applying one more entry is one more step. */
  lemma ApplyPrefix(p: Params, entries: seq<(string, string)>, i: nat)
    requires i < |entries|
    ensures Apply(p, entries[..i + 1]) == Step(Apply(p, entries[..i]), entries[i])
  {
    assert entries[..i + 1][..i] == entries[..i];
  }

  /** The value the last entry for `k` carries, if any entry does. */
  function LastFor(entries: seq<(string, string)>, k: string): (r: Option<string>)
    ensures r.None? <==> forall e :: e in entries ==> e.0 != k
  {
    if entries == [] then None
    else if entries[|entries| - 1].0 == k then Some(entries[|entries| - 1].1)
    else
      var r := LastFor(entries[..|entries| - 1], k);
      assert forall e :: e in entries <==> e in entries[..|entries| - 1] || e == entries[|entries| - 1] by {
        assert entries == entries[..|entries| - 1] + [entries[|entries| - 1]];
      }
      r
  }

  /** What applying entries does to one name: the last entry for it decides (set, or
      deleted when its value is empty); a name no entry mentions reads as before. */
  lemma {:induction false} ApplyReads(p: Params, entries: seq<(string, string)>, k: string)
    ensures Get(Apply(p, entries), k) == if LastFor(entries, k).None? then Get(p, k)
                                          else if LastFor(entries, k).value != "" then LastFor(entries, k)
                                          else None
  {
    if entries != [] {
      var init := entries[..|entries| - 1];
      var e := entries[|entries| - 1];
      ApplyReads(p, init, k);
      if e.1 != "" {
        GetSet(Apply(p, init), e.0, e.1, k);
      } else {
        GetDelete(Apply(p, init), e.0, k);
      }
    }
  }

  /** `updateURL`'s result: the entries applied, then `page` reset to 1. */
  function UpdatedParams(p: Params, entries: seq<(string, string)>): Params
  {
    Set(Apply(p, entries), "page", "1")
  }

  /** After `updateURL`: `page` is 1, every entry's key holds its non-empty value or is
      gone, and every other parameter is kept. */
  lemma UpdatedParamsReads(p: Params, entries: seq<(string, string)>, k: string)
    ensures Get(UpdatedParams(p, entries), "page") == Some("1")
    ensures k != "page" ==>
              (Get(UpdatedParams(p, entries), k) ==
               if LastFor(entries, k).None? then Get(p, k) else if LastFor(entries, k).value != "" then LastFor(entries, k) else None)
  {
    GetSet(Apply(p, entries), "page", "1", k);
    ApplyReads(p, entries, k);
  }

  /** The entries every handler passes, in the order the object literal lists them. */
  function Entries(category: string, subcategory: string, brand: string, colour: string, size: string,
                   minPrice: string, maxPrice: string, sort: string, query: string): seq<(string, string)>
  {
    [("category", category), ("subcategory", subcategory), ("brand", brand), ("colour", colour), ("size", size),
     ("minPrice", minPrice), ("maxPrice", maxPrice), ("sort", sort), ("query", query)]
  }

  /** The handler entries name nine distinct keys, each read back from its own entry. */
  lemma EntriesLastFor(category: string, subcategory: string, brand: string, colour: string, size: string,
                       minPrice: string, maxPrice: string, sort: string, query: string)
    ensures var es := Entries(category, subcategory, brand, colour, size, minPrice, maxPrice, sort, query);
            && LastFor(es, "category") == Some(category) && LastFor(es, "subcategory") == Some(subcategory)
            && LastFor(es, "brand") == Some(brand) && LastFor(es, "colour") == Some(colour)
            && LastFor(es, "size") == Some(size) && LastFor(es, "minPrice") == Some(minPrice)
            && LastFor(es, "maxPrice") == Some(maxPrice) && LastFor(es, "sort") == Some(sort)
            && LastFor(es, "query") == Some(query)
  {
    var es := Entries(category, subcategory, brand, colour, size, minPrice, maxPrice, sort, query);
    EntriesKeysDistinct(es);
    LastForUnique(es, 0);
    LastForUnique(es, 1);
    LastForUnique(es, 2);
    LastForUnique(es, 3);
    LastForUnique(es, 4);
    LastForUnique(es, 5);
    LastForUnique(es, 6);
    LastForUnique(es, 7);
    LastForUnique(es, 8);
  }

  predicate KeysDistinct(entries: seq<(string, string)>)
  {
    forall a, b :: 0 <= a < b < |entries| ==> entries[a].0 != entries[b].0
  }

  lemma EntriesKeysDistinct(es: seq<(string, string)>)
    requires |es| == 9
    requires es[0].0 == "category" && es[1].0 == "subcategory" && es[2].0 == "brand" && es[3].0 == "colour"
    requires es[4].0 == "size" && es[5].0 == "minPrice" && es[6].0 == "maxPrice" && es[7].0 == "sort" && es[8].0 == "query"
    ensures KeysDistinct(es)
  {
    assert |"category"| == 8 && |"subcategory"| == 11 && |"brand"| == 5 && |"colour"| == 6 && |"size"| == 4;
    assert |"minPrice"| == 8 && |"maxPrice"| == 8 && |"sort"| == 4 && |"query"| == 5;
    assert "category"[0] == 'c' && "minPrice"[0] == 'm' && "maxPrice"[1] == 'a' && "minPrice"[1] == 'i';
    assert "brand"[0] == 'b' && "query"[0] == 'q' && "size"[1] == 'i' && "sort"[1] == 'o';
  }

  /** In entries with distinct keys, each key's last entry is its only one. */
  lemma {:induction false} LastForUnique(entries: seq<(string, string)>, i: nat)
    requires i < |entries|
    requires KeysDistinct(entries)
    ensures LastFor(entries, entries[i].0) == Some(entries[i].1)
    decreases |entries|
  {
    if i < |entries| - 1 {
      var init := entries[..|entries| - 1];
      assert init[i] == entries[i];
      LastForUnique(init, i);
    }
  }

  /** The entries `handleFilterChange(key, value)` passes: `value` under `key` when `key` is
      one of the URL's filters other than the category, the current state elsewhere. */
  function FilterEntries(key: string, value: string, category: string, subcategory: string, brand: string,
                         colour: string, size: string, minPrice: string, maxPrice: string, sort: string,
                         query: string): seq<(string, string)>
  {
    Entries(category, if key == "subcategory" then value else subcategory, if key == "brand" then value else brand,
            if key == "colour" then value else colour, if key == "size" then value else size, minPrice, maxPrice,
            if key == "sort" then value else sort, query)
  }

  /** After a filter change, the changed filter holds the new value (or is gone when it is
      empty), the keyword search is carried over, and the page is 1. */
  lemma FilterChangeReads(p: Params, key: string, value: string, category: string, subcategory: string, brand: string,
                          colour: string, size: string, minPrice: string, maxPrice: string, sort: string)
    requires key in {"subcategory", "brand", "colour", "size", "sort"}
    ensures var r := UpdatedParams(p, FilterEntries(key, value, category, subcategory, brand, colour, size, minPrice,
                                                    maxPrice, sort, OrEmpty(Get(p, "query"))));
            && Get(r, key) == (if value != "" then Some(value) else None)
            && Get(r, "query") == NullIfEmpty(Get(p, "query"))
            && Get(r, "page") == Some("1")
  {
    var query := OrEmpty(Get(p, "query"));
    var es := FilterEntries(key, value, category, subcategory, brand, colour, size, minPrice, maxPrice, sort, query);
    if key == "subcategory" {
      EntriesLastFor(category, value, brand, colour, size, minPrice, maxPrice, sort, query);
    } else if key == "brand" {
      EntriesLastFor(category, subcategory, value, colour, size, minPrice, maxPrice, sort, query);
    } else if key == "colour" {
      EntriesLastFor(category, subcategory, brand, value, size, minPrice, maxPrice, sort, query);
    } else if key == "size" {
      EntriesLastFor(category, subcategory, brand, colour, value, minPrice, maxPrice, sort, query);
    } else {
      EntriesLastFor(category, subcategory, brand, colour, size, minPrice, maxPrice, value, query);
    }
    UpdatedParamsReads(p, es, key);
    UpdatedParamsReads(p, es, "query");
  }

  /** After a category change the URL holds the new category (none when it is empty),
      never a subcategory, the keyword search carried over, and page 1. */
  lemma CategoryChangeReads(p: Params, value: string, brand: string, colour: string, size: string, minPrice: string,
                            maxPrice: string, sort: string)
    ensures var r := UpdatedParams(p, Entries(value, "", brand, colour, size, minPrice, maxPrice, sort, OrEmpty(Get(p, "query"))));
            && Get(r, "subcategory") == None
            && Get(r, "category") == (if value != "" then Some(value) else None)
            && Get(r, "query") == NullIfEmpty(Get(p, "query"))
            && Get(r, "page") == Some("1")
  {
    var es := Entries(value, "", brand, colour, size, minPrice, maxPrice, sort, OrEmpty(Get(p, "query")));
    EntriesLastFor(value, "", brand, colour, size, minPrice, maxPrice, sort, OrEmpty(Get(p, "query")));
    UpdatedParamsReads(p, es, "subcategory");
    UpdatedParamsReads(p, es, "category");
    UpdatedParamsReads(p, es, "query");
  }

  /** The URL the router is pushed to: the path, then `?` and the query when there is one. */
  function Location(pathname: string, p: Params): string
  {
    var search := ToQuery(p);
    pathname + (if search != "" then "?" + search else "")
  }

  /** The sidebar's state. */
  class Sidebar {
    var category: string
    var subcategory: string
    var brand: string
    var colour: string
    var size: string
    var minPrice: string
    var maxPrice: string
    var sort: string
    var subCategories: seq<string>
    var pathname: string
    var params: Params
    var location: string

    /** The initial state reads each filter from the URL, with sort defaulting to newest. */
    constructor (pathname: string, params: Params, subCategories: seq<string>)
      ensures this.pathname == pathname && this.params == params && this.subCategories == subCategories
      ensures category == OrEmpty(Get(params, "category")) && subcategory == OrEmpty(Get(params, "subcategory"))
      ensures brand == OrEmpty(Get(params, "brand")) && colour == OrEmpty(Get(params, "colour"))
      ensures size == OrEmpty(Get(params, "size")) && minPrice == OrEmpty(Get(params, "minPrice"))
      ensures maxPrice == OrEmpty(Get(params, "maxPrice"))
      ensures sort == if OrEmpty(Get(params, "sort")) != "" then Get(params, "sort").value else "newest"
      ensures location == Location(pathname, params)
    {
      this.pathname := pathname;
      this.params := params;
      this.subCategories := subCategories;
      category := OrEmpty(Get(params, "category"));
      subcategory := OrEmpty(Get(params, "subcategory"));
      brand := OrEmpty(Get(params, "brand"));
      colour := OrEmpty(Get(params, "colour"));
      size := OrEmpty(Get(params, "size"));
      minPrice := OrEmpty(Get(params, "minPrice"));
      maxPrice := OrEmpty(Get(params, "maxPrice"));
      sort := if OrEmpty(Get(params, "sort")) != "" then Get(params, "sort").value else "newest";
      location := Location(pathname, params);
    }

    /** `updateURL(entries)`: copies the current parameters, applies each entry, sets
        page 1, and navigates there. */
    method UpdateURL(entries: seq<(string, string)>)
      modifies this
      ensures params == UpdatedParams(old(params), entries)
      ensures location == Location(pathname, params)
      ensures category == old(category) && subcategory == old(subcategory) && brand == old(brand)
      ensures colour == old(colour) && size == old(size) && minPrice == old(minPrice)
      ensures maxPrice == old(maxPrice) && sort == old(sort) && subCategories == old(subCategories)
      ensures pathname == old(pathname)
    {
      var current := params;
      var i := 0;
      while i < |entries|
        invariant 0 <= i <= |entries|
        invariant current == Apply(old(params), entries[..i])
      {
        assert Apply(old(params), entries[..i + 1]) == Step(current, entries[i]) by {
          ApplyPrefix(old(params), entries, i);
        }
        var e := entries[i];
        if e.1 != "" {
          current := Set(current, e.0, e.1);
        } else {
          current := Delete(current, e.0);
        }
        i := i + 1;
      }
      assert entries[..i] == entries;
      current := Set(current, "page", "1");
      params := current;
      location := Location(pathname, current);
    }

    /** `handleCategoryChange(value)`: selects the category, clears the subcategory in
        state and URL, and reloads the subcategory list (`fetched`, `None` when the request
        fails or does not answer with a list). */
    method HandleCategoryChange(value: string, fetched: Option<seq<string>>)
      modifies this
      ensures category == value && subcategory == ""
      ensures subCategories == if value != "" && fetched.Some? then fetched.value else []
      ensures params == UpdatedParams(old(params), Entries(value, "", old(brand), old(colour), old(size), old(minPrice),
                                                          old(maxPrice), old(sort), OrEmpty(Get(old(params), "query"))))
      ensures Get(params, "subcategory") == None
      ensures Get(params, "category") == (if value != "" then Some(value) else None)
      ensures Get(params, "page") == Some("1")
      ensures location == Location(pathname, params) && pathname == old(pathname)
      ensures brand == old(brand) && colour == old(colour) && size == old(size)
      ensures minPrice == old(minPrice) && maxPrice == old(maxPrice) && sort == old(sort)
    {
      category := value;
      subcategory := "";
      if value != "" {
        subCategories := if fetched.Some? then fetched.value else [];
      } else {
        subCategories := [];
      }
      var before := params;
      UpdateURL(Entries(value, "", brand, colour, size, minPrice, maxPrice, sort, OrEmpty(Get(params, "query"))));
      CategoryChangeReads(before, value, brand, colour, size, minPrice, maxPrice, sort);
    }

    /** `handleFilterChange(key, value)`: the state setter for `key`, if it has one, then
        a URL in which `key` carries the new value and the other filters the current state
        (the category entry always carries the state from before the call). */
    method HandleFilterChange(key: string, value: string)
      modifies this
      ensures key == "category" ==> category == value
      ensures key == "subcategory" ==> subcategory == value
      ensures key == "brand" ==> brand == value
      ensures key == "colour" ==> colour == value
      ensures key == "size" ==> size == value
      ensures key == "sort" ==> sort == value
      ensures key != "category" ==> category == old(category)
      ensures key != "subcategory" ==> subcategory == old(subcategory)
      ensures key != "brand" ==> brand == old(brand)
      ensures key != "colour" ==> colour == old(colour)
      ensures key != "size" ==> size == old(size)
      ensures key != "sort" ==> sort == old(sort)
      ensures minPrice == old(minPrice) && maxPrice == old(maxPrice) && subCategories == old(subCategories)
      ensures location == Location(pathname, params) && pathname == old(pathname)
      ensures params == UpdatedParams(old(params), FilterEntries(key, value, old(category), old(subcategory), old(brand),
                                                                old(colour), old(size), old(minPrice), old(maxPrice),
                                                                old(sort), OrEmpty(Get(old(params), "query"))))
    {
      var es := FilterEntries(key, value, category, subcategory, brand, colour, size, minPrice, maxPrice, sort,
                              OrEmpty(Get(params, "query")));
      UpdateURL(es);
      if key == "category" { category := value; }
      else if key == "subcategory" { subcategory := value; }
      else if key == "brand" { brand := value; }
      else if key == "colour" { colour := value; }
      else if key == "size" { size := value; }
      else if key == "sort" { sort := value; }
    }

    /** The price inputs' `onBlur`: the URL takes every filter from the current state. */
    method HandlePriceChange()
      modifies this
      ensures params == UpdatedParams(old(params), Entries(category, subcategory, brand, colour, size, minPrice,
                                                          maxPrice, sort, OrEmpty(Get(old(params), "query"))))
      ensures Get(params, "minPrice") == (if minPrice != "" then Some(minPrice) else None)
      ensures Get(params, "maxPrice") == (if maxPrice != "" then Some(maxPrice) else None)
      ensures location == Location(pathname, params) && pathname == old(pathname)
      ensures category == old(category) && subcategory == old(subcategory) && brand == old(brand)
      ensures colour == old(colour) && size == old(size) && minPrice == old(minPrice)
      ensures maxPrice == old(maxPrice) && sort == old(sort) && subCategories == old(subCategories)
    {
      var es := Entries(category, subcategory, brand, colour, size, minPrice, maxPrice, sort, OrEmpty(Get(params, "query")));
      EntriesLastFor(category, subcategory, brand, colour, size, minPrice, maxPrice, sort, OrEmpty(Get(params, "query")));
      UpdatedParamsReads(params, es, "minPrice");
      UpdatedParamsReads(params, es, "maxPrice");
      UpdateURL(es);
    }

    /** The minimum price input's `onChange`: only the state changes, not the URL. */
    method SetMinPrice(value: string)
      modifies this
      ensures minPrice == value && params == old(params) && location == old(location)
      ensures category == old(category) && subcategory == old(subcategory) && brand == old(brand)
      ensures colour == old(colour) && size == old(size) && maxPrice == old(maxPrice) && sort == old(sort)
      ensures subCategories == old(subCategories) && pathname == old(pathname)
    {
      minPrice := value;
    }

    /** The maximum price input's `onChange`: only the state changes, not the URL. */
    method SetMaxPrice(value: string)
      modifies this
      ensures maxPrice == value && params == old(params) && location == old(location)
      ensures category == old(category) && subcategory == old(subcategory) && brand == old(brand)
      ensures colour == old(colour) && size == old(size) && minPrice == old(minPrice) && sort == old(sort)
      ensures subCategories == old(subCategories) && pathname == old(pathname)
    {
      maxPrice := value;
    }

    /** Whether any filter is set or the sort is not the default. */
    predicate HasActiveFilters()
      reads this
    {
      category != "" || subcategory != "" || brand != "" || colour != "" || size != ""
      || minPrice != "" || maxPrice != "" || sort != "newest"
    }

    /** `clearFilters`: every filter emptied, the sort back to newest, and the bare path. */
    method ClearFilters()
      modifies this
      ensures !HasActiveFilters()
      ensures category == "" && subcategory == "" && brand == "" && colour == "" && size == ""
      ensures minPrice == "" && maxPrice == "" && sort == "newest"
      ensures location == pathname && params == []
      ensures pathname == old(pathname) && subCategories == old(subCategories)
    {
      category, subcategory, brand, colour, size := "", "", "", "", "";
      minPrice, maxPrice, sort := "", "", "newest";
      location := pathname;
      params := [];
    }
  }
}
