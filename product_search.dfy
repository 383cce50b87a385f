/**
 * `GET /searchsort` of Backend/routes/ProductRoutes.js: the `sort_by`
 * parameter chooses a sort, the `category` and `search` parameters a
 * filter, and each result is reshaped with `img_urls` in place of `img_url`.
 * The store's `$regex` match is modelled as a literal substring match that
 * ignores ASCII case; its sort compares names character by character.
 */
module ProductSearch {
  import opened Wrappers
  import opened Http
  import opened Seqs
  import opened Sorting
  import opened ImageRefs
  import opened ProductRoutes

  // ---------------------------------------------------------------------------
  // sort_by

  datatype SortField = ByName | ByPrice
  datatype Direction = Ascending | Descending

  /** The sort object passed to `.sort()`: `{}` or `{ field: 1 | -1 }`. */
  datatype SortSpec = NoSort | SortOn(field: SortField, direction: Direction)

  /** The chain of `if`s that reassigns `sort`, starting from `{}`. */
  function SortSpecFor(sortBy: string): SortSpec {
    var sort := NoSort;
    var sort := if sortBy == "name_asc" then SortOn(ByName, Ascending) else sort;
    var sort := if sortBy == "name_desc" then SortOn(ByName, Descending) else sort;
    var sort := if sortBy == "price_asc" then SortOn(ByPrice, Ascending) else sort;
    var sort := if sortBy == "price_desc" then SortOn(ByPrice, Descending) else sort;
    sort
  }

  /** The `sort_by` value that selects a given sort. */
  function SortByParam(field: SortField, direction: Direction): string {
    match (field, direction)
    case (ByName, Ascending) => "name_asc"
    case (ByName, Descending) => "name_desc"
    case (ByPrice, Ascending) => "price_asc"
    case (ByPrice, Descending) => "price_desc"
  }

  /**
   * Each of the four names selects its own sort, and every other value,
   * the default '' included, selects no sort at all.
   */
  lemma SortSpecChoices(sortBy: string, field: SortField, direction: Direction)
    ensures SortSpecFor(SortByParam(field, direction)) == SortOn(field, direction)
    ensures SortSpecFor(sortBy) == NoSort <==>
      sortBy != "name_asc" && sortBy != "name_desc" && sortBy != "price_asc" && sortBy != "price_desc"
    ensures SortSpecFor("") == NoSort
  {
  }

  // ---------------------------------------------------------------------------
  // Ordering

  /** Character-by-character order of strings; a prefix comes first. */
  predicate StrLe(a: string, b: string) {
    if a == [] then true
    else if b == [] then false
    else if a[0] != b[0] then a[0] < b[0]
    else StrLe(a[1..], b[1..])
  }

  lemma {:induction false} StrLeTotal(a: string, b: string)
    ensures StrLe(a, b) || StrLe(b, a)
  {
    if a != [] && b != [] && a[0] == b[0] {
      StrLeTotal(a[1..], b[1..]);
    }
  }

  lemma {:induction false} StrLeTransitive(a: string, b: string, c: string)
    requires StrLe(a, b) && StrLe(b, c)
    ensures StrLe(a, c)
  {
    if a != [] && b != [] && c != [] && a[0] == b[0] && b[0] == c[0] {
      StrLeTransitive(a[1..], b[1..], c[1..]);
    }
  }

  /** `Before(spec)(p, q)`: `p` may come before `q` in a reply sorted by `spec`. */
  function Before(spec: SortSpec): (ProductRecord, ProductRecord) -> bool {
    match spec
    case NoSort => (p: ProductRecord, q: ProductRecord) => true
    case SortOn(ByName, Ascending) => (p: ProductRecord, q: ProductRecord) => StrLe(p.name, q.name)
    case SortOn(ByName, Descending) => (p: ProductRecord, q: ProductRecord) => StrLe(q.name, p.name)
    case SortOn(ByPrice, Ascending) => (p: ProductRecord, q: ProductRecord) => p.price <= q.price
    case SortOn(ByPrice, Descending) => (p: ProductRecord, q: ProductRecord) => p.price >= q.price
  }

  /** Every sort spec orders products totally, up to ties. */
  lemma BeforeIsPreorder(spec: SortSpec)
    ensures TotalPreorder(Before(spec))
  {
    var le := Before(spec);
    if spec.SortOn? && spec.field == ByName {
      forall p, q ensures le(p, q) || le(q, p) {
        StrLeTotal(p.name, q.name);
      }
      forall p, q, r | le(p, q) && le(q, r) ensures le(p, r) {
        if spec.direction == Ascending {
          StrLeTransitive(p.name, q.name, r.name);
        } else {
          StrLeTransitive(r.name, q.name, p.name);
        }
      }
    }
  }

  // ---------------------------------------------------------------------------
  // Filter

  function Lower(c: char): char {
    if 'A' <= c <= 'Z' then (c as int + 32) as char else c
  }

  function LowerStr(s: string): (r: string)
    ensures |r| == |s|
  {
    seq(|s|, i requires 0 <= i < |s| => Lower(s[i]))
  }

  /** `needle` occurs in `hay`. */
  predicate Contains(hay: string, needle: string) {
    needle <= hay || (hay != [] && Contains(hay[1..], needle))
  }

  /** `needle` stands in `hay` at position `i`. */
  predicate OccursAt(hay: string, needle: string, i: int) {
    0 <= i && i + |needle| <= |hay| && hay[i..i + |needle|] == needle
  }

  /** `Contains` finds a needle exactly when it stands somewhere in the haystack. */
  lemma {:induction false} ContainsAt(hay: string, needle: string)
    ensures Contains(hay, needle) <==> exists i :: OccursAt(hay, needle, i)
  {
    if hay != [] {
      ContainsAt(hay[1..], needle);
      if exists i :: OccursAt(hay[1..], needle, i) {
        var i :| OccursAt(hay[1..], needle, i);
        assert hay[i + 1..i + 1 + |needle|] == hay[1..][i..i + |needle|];
        assert OccursAt(hay, needle, i + 1);
      }
      if exists i :: OccursAt(hay, needle, i) {
        var i :| OccursAt(hay, needle, i);
        if i > 0 {
          assert hay[1..][i - 1..i - 1 + |needle|] == hay[i..i + |needle|];
          assert OccursAt(hay[1..], needle, i - 1);
        } else {
          assert needle <= hay;
        }
      }
      if needle <= hay {
        assert OccursAt(hay, needle, 0);
      }
    } else {
      if exists i :: OccursAt(hay, needle, i) {
        assert needle == [];
      }
      if needle == [] {
        assert OccursAt(hay, needle, 0);
      }
    }
  }

  /** An empty search string matches every name. */
  lemma EmptySearchMatches(name: string)
    ensures Contains(LowerStr(name), LowerStr(""))
  {
  }

  /** `name: { $regex: search, $options: 'i' }`. */
  predicate NameMatches(search: string, p: ProductRecord) {
    Contains(LowerStr(p.name), LowerStr(search))
  }

  /** `category: category || { $ne: null }`. */
  predicate CategoryMatches(category: string, p: ProductRecord) {
    if category != "" then p.category == Some(category) else p.category.Some?
  }

  predicate HasCategory(p: ProductRecord) {
    p.category.Some?
  }

  predicate Matches(search: string, category: string, p: ProductRecord) {
    CategoryMatches(category, p) && NameMatches(search, p)
  }

  // ---------------------------------------------------------------------------
  // The handler

  /** The query string; a parameter not given is `None` and defaults to ''. */
  datatype SearchQuery = SearchQuery(search: Option<string>, sortBy: Option<string>, category: Option<string>)

  /** The products found, in the order of the sort. */
  function SearchResults(store: seq<ProductRecord>, search: string, sortBy: string, category: string): (r: seq<ProductRecord>)
    ensures |r| <= |store|
    ensures forall k :: 0 <= k < |r| ==> Matches(search, category, r[k])
  {
    SortKeeps(Before(SortSpecFor(sortBy)), Filter(store, p => Matches(search, category, p)));
    Sort(Before(SortSpecFor(sortBy)), Filter(store, p => Matches(search, category, p)))
  }

  /** The reshaping of `/searchsort`: `img_urls` added, `img_url` deleted. */
  function SearchView(p: ProductRecord): ProductView {
    ProductView(p.(imgUrl := None), ImgUrls(p.imgUrl))
  }

  /** `GET /searchsort`; `failure` is the message of an error the query throws. */
  function SearchSort(store: seq<ProductRecord>, q: SearchQuery, failure: Option<string>): (r: Reply<seq<ProductView>>)
    ensures failure.Some? ==> r == ErrorJson(500, failure.value)
    ensures failure.None? ==> r.Json? && r.status == 200
    ensures failure.None? ==>
      |r.value| == |SearchResults(store, q.search.GetOr(""), q.sortBy.GetOr(""), q.category.GetOr(""))|
  {
    match failure
    case Some(message) => ErrorJson(500, message)
    case None =>
      var found := SearchResults(store, q.search.GetOr(""), q.sortBy.GetOr(""), q.category.GetOr(""));
      Json(200, seq(|found|, k requires 0 <= k < |found| => SearchView(found[k])))
  }

  /**
   * `/searchsort` returns exactly the products of the store that pass the
   * category and name filters, each as often as it is stored, in the order
   * the sort asks for.
   */
  lemma SearchFindsExactly(store: seq<ProductRecord>, search: string, sortBy: string, category: string, p: ProductRecord)
    ensures p in SearchResults(store, search, sortBy, category) <==> p in store && Matches(search, category, p)
    ensures multiset(SearchResults(store, search, sortBy, category))[p] ==
      if Matches(search, category, p) then multiset(store)[p] else 0
    ensures SortedBy(Before(SortSpecFor(sortBy)), SearchResults(store, search, sortBy, category))
  {
    var keep := (q: ProductRecord) => Matches(search, category, q);
    SearchResultsSorted(store, search, sortBy, category);
    FilterMultiset(store, keep, p);
    FilterMembers(store, keep, p);
  }

  /** The products found come in the order the chosen sort asks for. */
  lemma SearchResultsSorted(store: seq<ProductRecord>, search: string, sortBy: string, category: string)
    ensures SortedBy(Before(SortSpecFor(sortBy)), SearchResults(store, search, sortBy, category))
  {
    BeforeIsPreorder(SortSpecFor(sortBy));
    SortSorted(Before(SortSpecFor(sortBy)), Filter(store, p => Matches(search, category, p)));
  }

  /** With `sort_by=price_desc` the reply is non-increasing in price. */
  lemma PriceDescNonIncreasing(store: seq<ProductRecord>, q: SearchQuery)
    requires q.sortBy == Some("price_desc")
    ensures forall i, j :: 0 <= i < j < |SearchSort(store, q, None).value| ==>
      SearchSort(store, q, None).value[i].record.price >= SearchSort(store, q, None).value[j].record.price
  {
    var found := SearchResults(store, q.search.GetOr(""), "price_desc", q.category.GetOr(""));
    SearchResultsSorted(store, q.search.GetOr(""), "price_desc", q.category.GetOr(""));
    assert SortedBy(Before(SortOn(ByPrice, Descending)), found);
    var out := SearchSort(store, q, None).value;
    forall i, j | 0 <= i < j < |out| ensures out[i].record.price >= out[j].record.price {
      assert Before(SortOn(ByPrice, Descending))(found[i], found[j]);
    }
  }

  /**
   * `/searchsort` replies without `img_url` and with the split list in
   * `img_urls`; the other fields are those of the record found.
   */
  lemma SearchDropsImgUrl(store: seq<ProductRecord>, q: SearchQuery)
    ensures |SearchSort(store, q, None).value| ==
      |SearchResults(store, q.search.GetOr(""), q.sortBy.GetOr(""), q.category.GetOr(""))|
    ensures forall k :: 0 <= k < |SearchSort(store, q, None).value| ==>
      var found := SearchResults(store, q.search.GetOr(""), q.sortBy.GetOr(""), q.category.GetOr(""));
      && SearchSort(store, q, None).value[k].record.imgUrl.None?
      && SearchSort(store, q, None).value[k].record == found[k].(imgUrl := None)
      && SearchSort(store, q, None).value[k].imgUrls == ImgUrls(found[k].imgUrl)
  {
  }

  /** The other read routes keep `img_url` next to `img_urls`; `/searchsort` does not. */
  lemma ReadRoutesDiffer(p: ProductRecord)
    requires p.imgUrl.Some?
    ensures WithImageList(p).record.imgUrl == p.imgUrl
    ensures SearchView(p).record.imgUrl.None?
    ensures WithImageList(p).imgUrls == SearchView(p).imgUrls
  {
  }

  /**
   * With no search, no category and no sort, `/searchsort` returns the
   * products that have a category, in store order: the `$ne: null` filter
   * still drops documents without one.
   */
  lemma EmptyQueryKeepsCategorized(store: seq<ProductRecord>)
    ensures SearchResults(store, "", "", "") == Filter(store, HasCategory)
  {
    SortUnderNoOrder(Filter(store, p => Matches("", "", p)));
    FilterSame(store, p => Matches("", "", p), HasCategory);
  }

  lemma {:induction false} FilterSame(s: seq<ProductRecord>, f: ProductRecord -> bool, g: ProductRecord -> bool)
    requires forall p :: f(p) == g(p)
    ensures Filter(s, f) == Filter(s, g)
  {
    if s != [] {
      FilterSame(s[1..], f, g);
    }
  }
}
