/**
 * The explore page: menu items fetched with a query built from the filter
 * form, a details panel toggled per item, and star strings for the items'
 * stored average ratings.
 */
module Products {

  import opened Support
  import opened Text
  import opened Catalog
  import opened Ratings

  /** The filter form's state `filters`. */
  datatype Filters = Filters(category: string, sort: string, search: string)

  const DefaultFilters := Filters("all", "name", "")

  /** The `name` attribute of a filter control, which is also the query parameter it feeds. */
  datatype FilterField = CategoryField | SortField | SearchField

  function FieldName(f: FilterField): string {
    match f
    case CategoryField => "category"
    case SortField => "sort"
    case SearchField => "search"
  }

  function FilterValue(filters: Filters, f: FilterField): string {
    match f
    case CategoryField => filters.category
    case SortField => filters.sort
    case SearchField => filters.search
  }

  /** `{ ...prev, [name]: value }`: the named filter changes and no other. */
  function SetFilter(filters: Filters, f: FilterField, value: string): (r: Filters)
    ensures FilterValue(r, f) == value
    ensures forall g :: g != f ==> FilterValue(r, g) == FilterValue(filters, g)
  {
    match f
    case CategoryField => filters.(category := value)
    case SortField => filters.(sort := value)
    case SearchField => filters.(search := value)
  }

  /** The position of each parameter in the query: category, then sort, then search. */
  function Rank(f: FilterField): nat {
    match f
    case CategoryField => 0
    case SortField => 1
    case SearchField => 2
  }

  /** Whether a filter contributes a parameter: a category other than 'all', a non-empty sort or search. */
  predicate Wanted(filters: Filters, f: FilterField) {
    match f
    case CategoryField => filters.category != "all"
    case SortField => filters.sort != ""
    case SearchField => filters.search != ""
  }

  /** How many filters ranked below k contribute a parameter. */
  function WantedBelow(filters: Filters, k: nat): nat {
    (if k > 0 && Wanted(filters, CategoryField) then 1 else 0) +
    (if k > 1 && Wanted(filters, SortField) then 1 else 0) +
    (if k > 2 && Wanted(filters, SearchField) then 1 else 0)
  }

  /** How many filters contribute a parameter. */
  function WantedCount(filters: Filters): nat {
    WantedBelow(filters, 3)
  }

  /** One `name=value` pair of URLSearchParams. */
  datatype QueryParam = QueryParam(field: FilterField, value: string)

  predicate Included(params: seq<QueryParam>, f: FilterField) {
    exists i :: 0 <= i < |params| && params[i].field == f
  }

  /** `queryParams.toString()`, without the percent-encoding of the values. */
  function QueryText(params: seq<QueryParam>): string {
    if params == [] then ""
    else
      var head := FieldName(params[0].field) + "=" + params[0].value;
      if |params| == 1 then head else head + "&" + QueryText(params[1..])
  }

  /** A wanted filter's parameter sits right after those of the wanted filters ranked before it. */
  predicate Placed(filters: Filters, params: seq<QueryParam>, f: FilterField) {
    WantedBelow(filters, Rank(f)) < |params| &&
    params[WantedBelow(filters, Rank(f))] == QueryParam(f, FilterValue(filters, f))
  }

  /**
   * The query after the filters ranked below k were considered: only wanted
   * filters, each with its value, in rank order, and every wanted filter
   * among them placed.
   */
  ghost predicate BuiltUpTo(filters: Filters, params: seq<QueryParam>, k: nat) {
    && |params| == WantedBelow(filters, k)
    && (forall i :: 0 <= i < |params| ==>
          Wanted(filters, params[i].field) && Rank(params[i].field) < k &&
          params[i].value == FilterValue(filters, params[i].field))
    && (forall i, j :: 0 <= i < j < |params| ==> Rank(params[i].field) < Rank(params[j].field))
    && (k > 0 && Wanted(filters, CategoryField) ==> Placed(filters, params, CategoryField))
    && (k > 1 && Wanted(filters, SortField) ==> Placed(filters, params, SortField))
    && (k > 2 && Wanted(filters, SearchField) ==> Placed(filters, params, SearchField))
  }

  /** The query after considering filter f: its parameter appended when it is wanted. */
  function Extend(filters: Filters, params: seq<QueryParam>, f: FilterField): seq<QueryParam> {
    if Wanted(filters, f) then params + [QueryParam(f, FilterValue(filters, f))] else params
  }

  /** Considering the next filter keeps the query well built, one rank further. */
  lemma AddFilter(filters: Filters, params: seq<QueryParam>, f: FilterField)
    requires BuiltUpTo(filters, params, Rank(f))
    ensures BuiltUpTo(filters, Extend(filters, params, f), Rank(f) + 1)
  {
    var k := Rank(f);
    WantedBelowStep(filters, f);
    if Wanted(filters, f) {
      var p := QueryParam(f, FilterValue(filters, f));
      var next := params + [p];
      forall i | 0 <= i < |next|
        ensures Wanted(filters, next[i].field) && Rank(next[i].field) < k + 1
        ensures next[i].value == FilterValue(filters, next[i].field)
      {
        if i < |params| {
          assert next[i] == params[i];
        }
      }
      forall i, j | 0 <= i < j < |next| ensures Rank(next[i].field) < Rank(next[j].field) {
        assert next[i] == params[i];
        if j < |params| {
          assert next[j] == params[j];
        }
      }
      assert next[|params|] == p;
      PlacedExtend(filters, params, p, CategoryField);
      PlacedExtend(filters, params, p, SortField);
      PlacedExtend(filters, params, p, SearchField);
    }
  }

  lemma WantedBelowStep(filters: Filters, f: FilterField)
    ensures WantedBelow(filters, Rank(f) + 1) == WantedBelow(filters, Rank(f)) + (if Wanted(filters, f) then 1 else 0)
  {
  }

  /** Appending keeps every placed filter where it was. */
  lemma PlacedExtend(filters: Filters, params: seq<QueryParam>, p: QueryParam, g: FilterField)
    ensures Placed(filters, params, g) ==> Placed(filters, params + [p], g)
  {
    if Placed(filters, params, g) {
      assert (params + [p])[WantedBelow(filters, Rank(g))] == params[WantedBelow(filters, Rank(g))];
    }
  }

  /**
   * The query built in `fetchMenuItems`: only wanted filters (a category
   * other than 'all', a non-empty sort or search), each with its value, in
   * the order category, sort, search; every wanted filter is there, right
   * after the wanted filters ranked before it.
   */
  method BuildQuery(filters: Filters) returns (params: seq<QueryParam>)
    ensures |params| == WantedCount(filters)
    ensures forall i :: 0 <= i < |params| ==>
      Wanted(filters, params[i].field) && params[i].value == FilterValue(filters, params[i].field)
    ensures forall i, j :: 0 <= i < j < |params| ==> Rank(params[i].field) < Rank(params[j].field)
    ensures forall f :: Wanted(filters, f) ==> Placed(filters, params, f)
  {
    params := [];
    assert BuiltUpTo(filters, params, 0);
    ghost var before := params;
    if filters.category != "all" {
      params := params + [QueryParam(CategoryField, filters.category)];
    }
    assert params == Extend(filters, before, CategoryField);
    AddFilter(filters, before, CategoryField);
    before := params;
    if filters.sort != "" {
      params := params + [QueryParam(SortField, filters.sort)];
    }
    assert params == Extend(filters, before, SortField);
    AddFilter(filters, before, SortField);
    before := params;
    if filters.search != "" {
      params := params + [QueryParam(SearchField, filters.search)];
    }
    assert params == Extend(filters, before, SearchField);
    AddFilter(filters, before, SearchField);
    Complete(filters, params);
  }

  /** Once all three filters were considered, the query has the properties `BuildQuery` promises. */
  lemma Complete(filters: Filters, params: seq<QueryParam>)
    requires BuiltUpTo(filters, params, 3)
    ensures |params| == WantedCount(filters)
    ensures forall i :: 0 <= i < |params| ==>
      Wanted(filters, params[i].field) && params[i].value == FilterValue(filters, params[i].field)
    ensures forall i, j :: 0 <= i < j < |params| ==> Rank(params[i].field) < Rank(params[j].field)
    ensures forall f :: Wanted(filters, f) ==> Placed(filters, params, f)
  {
    forall f | Wanted(filters, f) ensures Placed(filters, params, f) {
      match f
      case CategoryField =>
      case SortField =>
      case SearchField =>
    }
  }

  /** A query with those properties names a filter exactly when the filter is wanted. */
  lemma IncludedIffWanted(filters: Filters, params: seq<QueryParam>, f: FilterField)
    requires forall i :: 0 <= i < |params| ==> Wanted(filters, params[i].field)
    requires forall g :: Wanted(filters, g) ==> Placed(filters, params, g)
    ensures Included(params, f) <==> Wanted(filters, f)
  {
    if Wanted(filters, f) {
      assert params[WantedBelow(filters, Rank(f))].field == f;
    }
  }

  /** The default filters ask only for sorting by name. */
  method DefaultQuery() returns (params: seq<QueryParam>, text: string)
    ensures params == [QueryParam(SortField, "name")]
    ensures text == "sort=name"
  {
    params := BuildQuery(DefaultFilters);
    assert Placed(DefaultFilters, params, SortField);
    text := QueryText(params);
  }

  /** `handleViewDetails(id)`: close the panel of the open item, otherwise open this one. */
  function Toggle(selected: Option<string>, id: string): (r: Option<string>)
    ensures r == Some(id) <==> selected != Some(id)
    ensures r.None? <==> selected == Some(id)
  {
    if selected == Some(id) then None else Some(id)
  }

  /**
   * Clicking the same item twice restores the previous selection exactly
   * when nothing or that item was open before: with another item open, the
   * first click moves the panel and the second closes it.
   */
  lemma ToggleTwice(selected: Option<string>, id: string)
    ensures Toggle(Toggle(selected, id), id) == selected <==> selected.None? || selected == Some(id)
    ensures Toggle(Toggle(selected, id), id) == (if selected == Some(id) then Some(id) else None)
  {
  }

  /** At most one panel is open, and after a click it is the clicked item's or none. */
  lemma ToggleOpensClicked(selected: Option<string>, id: string, other: string)
    requires other != id
    ensures Toggle(selected, id) != Some(other)
  {
  }

  /**
   * The `renderStars` of the explore page: five empty stars for a falsy
   * rating (missing or 0), the floor pattern otherwise. The guard changes
   * nothing: the result is the shared star string on every rating it can take.
   */
  function ProductStars(rating: Option<real>): (s: string)
    requires rating.Some? ==> 0.0 <= rating.value < 6.0
    ensures |s| == 5
    ensures rating.None? ==> s == "☆☆☆☆☆"
    ensures rating.Some? ==> s == RenderStars(rating.value)
  {
    StarExamples();
    if rating.None? || rating.value == 0.0 then "☆☆☆☆☆" else RenderStars(rating.value)
  }

  const LoadFailed := "Failed to load menu items. Please try again later."

  datatype ProductsState = ProductsState(
    menuItems: seq<MenuItem>, selectedProduct: Option<string>, loading: bool, error: string,
    categories: seq<string>, filters: Filters)

  class ProductsView {
    var menuItems: seq<MenuItem>
    var selectedProduct: Option<string>
    var loading: bool
    var error: string
    var categories: seq<string>
    var filters: Filters

    function State(): ProductsState
      reads this
    {
      ProductsState(menuItems, selectedProduct, loading, error, categories, filters)
    }

    constructor ()
      ensures State() == ProductsState([], None, true, "", [], DefaultFilters)
    {
      menuItems, selectedProduct, loading, error := [], None, true, "";
      categories, filters := [], DefaultFilters;
    }

    /** The mount effect `fetchCategories`; a failure is only logged. */
    method FetchCategories(reply: Reply<seq<string>>)
      modifies this
      ensures State() == old(State()).(categories := if reply.Ok? then reply.data else old(categories))
    {
      if reply.Ok? {
        categories := reply.data;
      }
    }

    /**
     * `fetchMenuItems`, run whenever the filters change: `explore?` with the
     * query of the current filters; the items and a cleared error, or the
     * failure message; loading is false afterwards either way.
     */
    method FetchMenuItems(reply: Reply<seq<MenuItem>>) returns (path: string, params: seq<QueryParam>)
      modifies this
      ensures |params| == WantedCount(old(filters))
      ensures forall i :: 0 <= i < |params| ==>
        Wanted(old(filters), params[i].field) && params[i].value == FilterValue(old(filters), params[i].field)
      ensures forall i, j :: 0 <= i < j < |params| ==> Rank(params[i].field) < Rank(params[j].field)
      ensures forall f :: Wanted(old(filters), f) ==> Placed(old(filters), params, f)
      ensures path == "explore?" + QueryText(params)
      ensures reply.Ok? ==> State() == old(State()).(menuItems := reply.data, error := "", loading := false)
      ensures reply.Fail? ==> State() == old(State()).(error := LoadFailed, loading := false)
    {
      loading := true;
      params := BuildQuery(filters);
      path := "explore?" + QueryText(params);
      if reply.Ok? {
        menuItems := reply.data;
        error := "";
      } else {
        error := LoadFailed;
      }
      loading := false;
    }

    /** `handleViewDetails` */
    method HandleViewDetails(id: string)
      modifies this
      ensures State() == old(State()).(selectedProduct := Toggle(old(selectedProduct), id))
    {
      selectedProduct := Toggle(selectedProduct, id);
    }

    /** `handleFilterChange` */
    method HandleFilterChange(field: FilterField, value: string)
      modifies this
      ensures State() == old(State()).(filters := SetFilter(old(filters), field, value))
    {
      filters := SetFilter(filters, field, value);
    }
  }

  lemma Assoc(a: string, b: string, c: string)
    ensures a + (b + c) == (a + b) + c
  {
  }

  /** `toString` of a query of two or more parameters: the first pair, `&`, then the rest. */
  lemma QueryTextCons(p: QueryParam, rest: seq<QueryParam>)
    requires rest != []
    ensures QueryText([p] + rest) == FieldName(p.field) + "=" + p.value + "&" + QueryText(rest)
  {
    assert ([p] + rest)[1..] == rest;
  }

  /** The literal pieces of the three-parameter query. */
  lemma QueryLiterals()
    ensures FieldName(CategoryField) + "=" == "category="
    ensures FieldName(SortField) + "=" + "name" + "&" == "sort=name&"
    ensures FieldName(SearchField) + "=" == "search="
    ensures "&" + ("sort=name&" + "search=") == "&sort=name&search="
  {
  }

  /** The query text of all three parameters, with the default sort. */
  lemma ThreeParamsText(category: string, term: string)
    ensures QueryText([QueryParam(CategoryField, category), QueryParam(SortField, "name"), QueryParam(SearchField, term)])
         == "category=" + category + "&sort=name&search=" + term
  {
    var p1, p2, p3 := QueryParam(CategoryField, category), QueryParam(SortField, "name"), QueryParam(SearchField, term);
    QueryLiterals();
    var head, tail := "category=" + category, "sort=name&";
    assert [p1, p2, p3] == [p1] + [p2, p3] && [p2, p3] == [p2] + [p3];
    QueryTextCons(p2, [p3]);
    QueryTextCons(p1, [p2, p3]);
    calc {
      QueryText([p1, p2, p3]);
      (head + "&") + (tail + ("search=" + term));
      { Assoc(tail, "search=", term); }
      (head + "&") + ((tail + "search=") + term);
      { Assoc(head + "&", tail + "search=", term); }
      ((head + "&") + (tail + "search=")) + term;
      { Assoc(head, "&", tail + "search="); }
      (head + ("&" + (tail + "search="))) + term;
      (head + "&sort=name&search=") + term;
    }
  }

  /** The request path of all three parameters. */
  lemma ThreeParamsPath(category: string, term: string)
    ensures "explore?" + ("category=" + category + "&sort=name&search=" + term)
         == "explore?category=" + category + "&sort=name&search=" + term
  {
    var rest: string := "&sort=name&search=";
    calc {
      "explore?" + ((("category=" + category) + rest) + term);
      { Assoc("explore?", ("category=" + category) + rest, term); }
      ("explore?" + (("category=" + category) + rest)) + term;
      { Assoc("explore?", "category=" + category, rest); }
      (("explore?" + ("category=" + category)) + rest) + term;
      { Assoc("explore?", "category=", category); }
      ((("explore?" + "category=") + category) + rest) + term;
      { assert "explore?" + "category=" == "explore?category="; }
      (("explore?category=" + category) + rest) + term;
    }
  }

  /**
   * Typing a search term on a fresh page and choosing a category gives a
   * query with all three parameters in order.
   */
  method SearchScenario(category: string, term: string) returns (path: string)
    requires category != "all" && term != ""
    ensures path == "explore?category=" + category + "&sort=name&search=" + term
  {
    var view := new ProductsView();
    view.HandleFilterChange(SearchField, term);
    view.HandleFilterChange(CategoryField, category);
    var params;
    path, params := view.FetchMenuItems(Ok([]));
    assert Placed(view.filters, params, CategoryField) && Placed(view.filters, params, SortField);
    assert Placed(view.filters, params, SearchField);
    assert params == [QueryParam(CategoryField, category), QueryParam(SortField, "name"), QueryParam(SearchField, term)];
    ThreeParamsText(category, term);
    ThreeParamsPath(category, term);
  }
}
