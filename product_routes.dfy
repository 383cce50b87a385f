/**
 * The read and create routes of Backend/routes/ProductRoutes.js, with the
 * document store replaced by a sequence of records and each query failure
 * by a flag. Each handler is a function from the store and the request to
 * the reply it sends (and, for `POST /`, the new store).
 */
module ProductRoutes {
  import opened Wrappers
  import opened Http
  import opened Seqs
  import opened ImageRefs
  import ProductSchema

  /**
   * A product document as the store holds it. `img_url` and `category` may
   * be missing from a stored document; the handlers cope with both.
   */
  datatype ProductRecord = ProductRecord(
    id: string,
    name: string,
    description: string,
    price: int,
    imgUrl: Option<string>,
    category: Option<string>,
    show: bool)

  /** A record as sent to the client: its fields plus the split `img_urls`. */
  datatype ProductView = ProductView(record: ProductRecord, imgUrls: seq<string>)

  /** The reshaping of `GET /`, `GET /category/:category` and `GET /:id`: `img_url` is kept. */
  function WithImageList(p: ProductRecord): ProductView {
    ProductView(p, ImgUrls(p.imgUrl))
  }

  function Views(s: seq<ProductRecord>): (r: seq<ProductView>)
    ensures |r| == |s|
  {
    seq(|s|, i requires 0 <= i < |s| => WithImageList(s[i]))
  }

  // ---------------------------------------------------------------------------
  // GET /categories

  /** One element of the `/categories` reply; a missing category groups as null. */
  datatype CategoryCount = CategoryCount(category: Option<string>, count: nat)

  /** Counts one more product under `key`. */
  function Tally(groups: seq<CategoryCount>, key: Option<string>): seq<CategoryCount> {
    if groups == [] then [CategoryCount(key, 1)]
    else if groups[0].category == key then [groups[0].(count := groups[0].count + 1)] + groups[1..]
    else [groups[0]] + Tally(groups[1..], key)
  }

  /** The `$group` stage by `$category` with a `$sum: 1` counter, then the renaming map. */
  function GroupByCategory(store: seq<ProductRecord>): seq<CategoryCount> {
    if store == [] then []
    else Tally(GroupByCategory(store[..|store| - 1]), store[|store| - 1].category)
  }

  /** The reference count: how many products have category `key`. */
  function CountIn(store: seq<ProductRecord>, key: Option<string>): nat {
    if store == [] then 0
    else CountIn(store[..|store| - 1], key) + (if store[|store| - 1].category == key then 1 else 0)
  }

  /** The count a reply gives for `key` (0 if it has no entry for it). */
  function GroupCount(groups: seq<CategoryCount>, key: Option<string>): nat {
    if groups == [] then 0
    else (if groups[0].category == key then groups[0].count else 0) + GroupCount(groups[1..], key)
  }

  predicate HasKey(groups: seq<CategoryCount>, key: Option<string>) {
    exists k :: 0 <= k < |groups| && groups[k].category == key
  }

  ghost predicate DistinctKeys(groups: seq<CategoryCount>) {
    forall i, j :: 0 <= i < j < |groups| ==> groups[i].category != groups[j].category
  }

  function SumCounts(groups: seq<CategoryCount>): nat {
    if groups == [] then 0 else groups[0].count + SumCounts(groups[1..])
  }

  /** Tallying adds one to the count of `key` and leaves every other count alone. */
  lemma {:induction false} TallyCounts(groups: seq<CategoryCount>, key: Option<string>)
    ensures forall k' :: GroupCount(Tally(groups, key), k') == GroupCount(groups, k') + (if k' == key then 1 else 0)
    ensures SumCounts(Tally(groups, key)) == SumCounts(groups) + 1
  {
    if groups != [] && groups[0].category != key {
      TallyCounts(groups[1..], key);
      assert Tally(groups, key)[1..] == Tally(groups[1..], key);
    } else if groups != [] {
      assert Tally(groups, key)[1..] == groups[1..];
    }
  }

  /** The keys after tallying are the keys before plus `key`. */
  lemma {:induction false} TallyKeys(groups: seq<CategoryCount>, key: Option<string>, k': Option<string>)
    ensures HasKey(Tally(groups, key), k') <==> HasKey(groups, k') || k' == key
  {
    var t := Tally(groups, key);
    if groups != [] && groups[0].category != key {
      var rest := groups[1..];
      TallyKeys(rest, key, k');
      assert t[1..] == Tally(rest, key);
      if HasKey(groups, k') && k' != groups[0].category {
        var k :| 0 <= k < |groups| && groups[k].category == k';
        assert rest[k - 1].category == k';
      }
      if HasKey(Tally(rest, key), k') {
        var k :| 0 <= k < |Tally(rest, key)| && Tally(rest, key)[k].category == k';
        assert t[k + 1].category == k';
      }
      if HasKey(rest, k') {
        var k :| 0 <= k < |rest| && rest[k].category == k';
        assert groups[k + 1].category == k';
      }
      if k' == groups[0].category {
        assert t[0] == groups[0];
      }
    } else if groups != [] {
      assert |t| == |groups| && t[0].category == key;
      assert forall k :: 0 <= k < |groups| ==> t[k].category == groups[k].category;
      if k' == key {
        assert groups[0].category == k' && t[0].category == k';
      }
      if HasKey(t, k') {
        var k :| 0 <= k < |t| && t[k].category == k';
        assert groups[k].category == k';
      }
      if HasKey(groups, k') {
        var k :| 0 <= k < |groups| && groups[k].category == k';
        assert t[k].category == k';
      }
    } else {
      assert t[0].category == key;
    }
  }

  /** Tallying keeps the keys distinct and every count positive. */
  lemma {:induction false} TallyShape(groups: seq<CategoryCount>, key: Option<string>)
    requires DistinctKeys(groups)
    requires forall k :: 0 <= k < |groups| ==> groups[k].count >= 1
    ensures DistinctKeys(Tally(groups, key))
    ensures forall k :: 0 <= k < |Tally(groups, key)| ==> Tally(groups, key)[k].count >= 1
  {
    if groups != [] && groups[0].category != key {
      var rest := groups[1..];
      var t := Tally(groups, key);
      TallyShape(rest, key);
      assert t == [groups[0]] + Tally(rest, key);
      forall j | 0 <= j < |Tally(rest, key)| ensures Tally(rest, key)[j].category != groups[0].category {
        var c := Tally(rest, key)[j].category;
        assert HasKey(Tally(rest, key), c);
        TallyKeys(rest, key, c);
        if c != key {
          var k :| 0 <= k < |rest| && rest[k].category == c;
          assert groups[k + 1] == rest[k];
        }
      }
    }
  }

  /** In a reply with distinct keys, an entry's count is the count for its key. */
  lemma {:induction false} GroupCountAt(groups: seq<CategoryCount>, k: nat)
    requires DistinctKeys(groups)
    requires k < |groups|
    ensures GroupCount(groups, groups[k].category) == groups[k].count
  {
    if k > 0 {
      GroupCountAt(groups[1..], k - 1);
    } else {
      GroupCountAbsent(groups[1..], groups[0].category);
    }
  }

  lemma {:induction false} GroupCountAbsent(groups: seq<CategoryCount>, key: Option<string>)
    requires !HasKey(groups, key)
    ensures GroupCount(groups, key) == 0
  {
    if groups != [] {
      assert !HasKey(groups[1..], key) by {
        forall k | 0 <= k < |groups[1..]| ensures groups[1..][k].category != key {
          assert groups[1..][k] == groups[k + 1];
        }
      }
      GroupCountAbsent(groups[1..], key);
    }
  }

  /**
   * `/categories` replies with one entry per distinct category (a missing
   * category counts as null), each counting exactly the products of that
   * category; the counts add up to the number of products.
   */
  lemma {:induction false} CategoriesCounted(store: seq<ProductRecord>)
    ensures DistinctKeys(GroupByCategory(store))
    ensures forall key :: HasKey(GroupByCategory(store), key) <==> CountIn(store, key) > 0
    ensures forall key :: GroupCount(GroupByCategory(store), key) == CountIn(store, key)
    ensures forall k :: 0 <= k < |GroupByCategory(store)| ==>
      GroupByCategory(store)[k].count == CountIn(store, GroupByCategory(store)[k].category)
    ensures SumCounts(GroupByCategory(store)) == |store|
  {
    var g := GroupByCategory(store);
    if store == [] {
    } else {
      var n := |store| - 1;
      CategoriesCounted(store[..n]);
      var g' := GroupByCategory(store[..n]);
      forall k | 0 <= k < |g'| ensures g'[k].count >= 1 {
        assert HasKey(g', g'[k].category);
      }
      TallyShape(g', store[n].category);
      TallyCounts(g', store[n].category);
      forall key ensures HasKey(g, key) <==> CountIn(store, key) > 0 {
        TallyKeys(g', store[n].category, key);
      }
    }
    forall k | 0 <= k < |g| ensures g[k].count == CountIn(store, g[k].category) {
      GroupCountAt(g, k);
    }
  }

  /** `GET /categories`: 400 when the aggregation fails. */
  function GetCategories(store: seq<ProductRecord>, queryFails: bool): (r: Reply<seq<CategoryCount>>)
    ensures queryFails ==> r == Text(400, "Error retrieving categories")
    ensures !queryFails ==> r.Json? && r.status == 200 && SumCounts(r.value) == |store|
    ensures !queryFails ==> forall key :: GroupCount(r.value, key) == CountIn(store, key)
    ensures !queryFails ==> DistinctKeys(r.value)
  {
    CategoriesCounted(store);
    if queryFails then Text(400, "Error retrieving categories")
    else Json(200, GroupByCategory(store))
  }

  // ---------------------------------------------------------------------------
  // GET /category/:category and GET /

  predicate InCategory(category: string, p: ProductRecord) {
    p.category == Some(category)
  }

  /**
   * `GET /category/:category`: the products whose category equals the
   * parameter, in store order, each with its `img_urls`; 400 when the query
   * fails.
   */
  function GetByCategory(store: seq<ProductRecord>, category: string, queryFails: bool): (r: Reply<seq<ProductView>>)
    ensures queryFails ==> r == Text(400, "Error retrieving product")
    ensures !queryFails ==> r.Json? && r.status == 200
    ensures !queryFails ==> forall k :: 0 <= k < |r.value| ==>
      && r.value[k].record in store
      && r.value[k].record.category == Some(category)
      && r.value[k].imgUrls == ImgUrls(r.value[k].record.imgUrl)
  {
    if queryFails then Text(400, "Error retrieving product")
    else Json(200, Views(Filter(store, p => InCategory(category, p))))
  }

  /** Every product of the category is in the reply of `GET /category/:category`. */
  lemma ByCategoryComplete(store: seq<ProductRecord>, category: string, p: ProductRecord)
    requires p in store && p.category == Some(category)
    ensures WithImageList(p) in GetByCategory(store, category, false).value
  {
    var m := Filter(store, q => InCategory(category, q));
    FilterMembers(store, q => InCategory(category, q), p);
    var k :| 0 <= k < |m| && m[k] == p;
    assert Views(m)[k] == WithImageList(p);
  }

  /** The records of a reply, without their `img_urls`. */
  function Records(views: seq<ProductView>): (r: seq<ProductRecord>)
    ensures |r| == |views|
  {
    seq(|views|, k requires 0 <= k < |views| => views[k].record)
  }

  /**
   * The reply of `GET /category/:category` holds each stored product of the
   * category as often as it is stored and nothing else, in store order.
   */
  lemma ByCategoryExact(store: seq<ProductRecord>, category: string, p: ProductRecord)
    ensures multiset(Records(GetByCategory(store, category, false).value))[p] ==
      if p.category == Some(category) then multiset(store)[p] else 0
    ensures Records(GetByCategory(store, category, false).value) == Filter(store, q => InCategory(category, q))
  {
    var keep := (q: ProductRecord) => InCategory(category, q);
    var m := Filter(store, keep);
    assert Records(Views(m)) == m;
    FilterMultiset(store, keep, p);
  }

  /** `GET /`: every product, in store order, each with its `img_urls`. */
  function GetAll(store: seq<ProductRecord>, queryFails: bool): (r: Reply<seq<ProductView>>)
    ensures queryFails ==> r == Text(400, "Error retrieving products")
    ensures !queryFails ==> r.Json? && r.status == 200 && |r.value| == |store|
    ensures !queryFails ==> forall k :: 0 <= k < |store| ==>
      r.value[k].record == store[k] && r.value[k].imgUrls == ImgUrls(store[k].imgUrl)
  {
    if queryFails then Text(400, "Error retrieving products")
    else Json(200, Views(store))
  }

  // ---------------------------------------------------------------------------
  // GET /:id

  /** `findById`: the first record with the id. */
  function FindById(store: seq<ProductRecord>, id: string): (r: Option<ProductRecord>)
    ensures r.Some? ==> r.value in store && r.value.id == id
    ensures r.None? ==> forall k :: 0 <= k < |store| ==> store[k].id != id
  {
    if store == [] then None
    else if store[0].id == id then Some(store[0])
    else FindById(store[1..], id)
  }

  /**
   * `GET /:id`. `toObjectId` is the cast of the path parameter to an
   * ObjectId (None when the cast throws); `queryFails` is any other store
   * failure. Both are caught and answered with 400; no record is 404.
   */
  function GetById(store: seq<ProductRecord>, id: string, toObjectId: JsValue -> Option<string>, queryFails: bool): (r: Reply<ProductView>)
    ensures (toObjectId(Str(id)).None? || queryFails) ==> r == Text(400, "Error retrieving product")
    ensures toObjectId(Str(id)).Some? && !queryFails ==>
      match FindById(store, toObjectId(Str(id)).value)
      case None => r == Text(404, "Product with this id not found")
      case Some(p) => r.Json? && r.status == 200 && r.value.record == p && r.value.imgUrls == ImgUrls(p.imgUrl)
  {
    match toObjectId(Str(id))
    case None => Text(400, "Error retrieving product")
    case Some(oid) =>
      if queryFails then Text(400, "Error retrieving product")
      else
        match FindById(store, oid)
        case None => Text(404, "Product with this id not found")
        case Some(p) => Json(200, WithImageList(p))
  }

  // ---------------------------------------------------------------------------
  // POST /

  /** The text fields of the multipart form; `price` as the number it casts to. */
  datatype ProductForm = ProductForm(name: Option<string>, description: Option<string>, price: Option<int>, category: Option<string>)

  /** The fields `POST /` hands to the schema: the uploaded names joined with commas, no `show`. */
  function CreateFields(form: ProductForm, fileNames: seq<string>): ProductSchema.ProductFields {
    ProductSchema.ProductFields(form.name, form.description, form.price, Some(Join(fileNames, Comma)), form.category, None)
  }

  function ToRecord(id: string, d: ProductSchema.ProductDoc): ProductRecord {
    ProductRecord(id, d.name, d.description, d.price, Some(d.imgUrl), Some(ProductSchema.CategoryName(d.category)), d.show)
  }

  /**
   * `POST /`: validate and save a new product under the store-generated id
   * `newId`. A validation or save failure answers 400 and writes nothing.
   */
  function CreateProduct(store: seq<ProductRecord>, form: ProductForm, fileNames: seq<string>, newId: string, saveFails: bool): (r: (Reply<()>, seq<ProductRecord>))
    ensures r.0.status == 200 || r.0.status == 400
    ensures r.0.status == 400 ==> r.1 == store
    ensures r.0.status == 200 ==> |r.1| == |store| + 1 && r.1[..|store|] == store && r.1[|store|].id == newId
  {
    match ProductSchema.Validate(CreateFields(form, fileNames))
    case Failure(_) => (Text(400, "Product addition failed. Please check the request data."), store)
    case Success(d) =>
      if saveFails then (Text(400, "Product addition failed. Please check the request data."), store)
      else (Text(200, "Product added successfully"), store + [ToRecord(newId, d)])
  }

  /** With no uploaded file `img_url` is '', which the required rule rejects: 400, nothing stored. */
  lemma CreateWithoutFilesRejected(store: seq<ProductRecord>, form: ProductForm, newId: string, saveFails: bool)
    ensures CreateProduct(store, form, [], newId, saveFails) ==
      (Text(400, "Product addition failed. Please check the request data."), store)
  {
    ProductSchema.MissingFieldRejected(CreateFields(form, []));
  }

  /**
   * A created product reads back, through `GET /:id` or any other read route,
   * with `img_urls` equal to the uploaded names, when the names are non-empty
   * and comma-free; its `show` is true.
   */
  lemma CreateThenRead(store: seq<ProductRecord>, form: ProductForm, fileNames: seq<string>, newId: string)
    requires forall k :: 0 <= k < |fileNames| ==> fileNames[k] != "" && Comma !in fileNames[k]
    requires CreateProduct(store, form, fileNames, newId, false).0.status == 200
    ensures WithImageList(CreateProduct(store, form, fileNames, newId, false).1[|store|]).imgUrls == fileNames
    ensures CreateProduct(store, form, fileNames, newId, false).1[|store|].show
  {
    var f := CreateFields(form, fileNames);
    ProductSchema.ValidatedFields(f);
    ImageRoundTrip(fileNames);
  }

  /**
   * A created product is stored with the form's name, description, price and
   * category, the comma-joined file names as `img_url`, and `show` true.
   */
  lemma CreateStoresForm(store: seq<ProductRecord>, form: ProductForm, fileNames: seq<string>, newId: string, saveFails: bool)
    requires CreateProduct(store, form, fileNames, newId, saveFails).0.status == 200
    ensures CreateProduct(store, form, fileNames, newId, saveFails).1[|store|] ==
      ProductRecord(newId, form.name.value, form.description.value, form.price.value,
                    Some(Join(fileNames, Comma)), form.category, true)
  {
    ProductSchema.ValidatedFields(CreateFields(form, fileNames));
  }

  /** `POST /` succeeds exactly when the form is complete, a file was uploaded and the save works. */
  lemma CreateSucceedsExactly(store: seq<ProductRecord>, form: ProductForm, fileNames: seq<string>, newId: string, saveFails: bool)
    requires forall k :: 0 <= k < |fileNames| ==> fileNames[k] != ""
    ensures CreateProduct(store, form, fileNames, newId, saveFails).0.status == 200 <==>
      ProductSchema.PresentString(form.name) && ProductSchema.PresentString(form.description) &&
      form.price.Some? && fileNames != [] && ProductSchema.PresentString(form.category) &&
      form.category.value in ProductSchema.CategoryNames && !saveFails
  {
    var f := CreateFields(form, fileNames);
    ProductSchema.ValidateAcceptsExactly(f);
    if fileNames != [] {
      assert |Join(fileNames, Comma)| >= |fileNames[0]| by {
        if |fileNames| > 1 {
          assert Join(fileNames, Comma) == fileNames[0] + [Comma] + Join(fileNames[1..], Comma);
        }
      }
    }
  }
}
