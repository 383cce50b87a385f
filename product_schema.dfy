/**
 * The product schema of Backend/models/ProductsModelDB.js: which fields a
 * product document must have, the closed list of categories, and the
 * default of `show`. Documents are checked against it when they are saved.
 */
module ProductSchema {
  import opened Wrappers

  /** The seven values the schema's `category` enum admits. */
  datatype Category = Electronics | Mobiles | Clothes | Books | Home | Grocery | Health

  function CategoryName(c: Category): string {
    match c
    case Electronics => "Electronics"
    case Mobiles => "Mobiles"
    case Clothes => "Clothes"
    case Books => "Books"
    case Home => "Home"
    case Grocery => "Grocery"
    case Health => "Health"
  }

  /** The `enum` list, in the schema's order. */
  const CategoryNames: seq<string> := ["Electronics", "Mobiles", "Clothes", "Books", "Home", "Grocery", "Health"]

  /** The category a stored string names, if it names one. */
  function ParseCategory(s: string): (r: Option<Category>)
    ensures r.Some? ==> CategoryName(r.value) == s
    ensures r.None? ==> s !in CategoryNames
  {
    if s == "Electronics" then Some(Electronics)
    else if s == "Mobiles" then Some(Mobiles)
    else if s == "Clothes" then Some(Clothes)
    else if s == "Books" then Some(Books)
    else if s == "Home" then Some(Home)
    else if s == "Grocery" then Some(Grocery)
    else if s == "Health" then Some(Health)
    else None
  }

  /** The fields of a document before validation; `None` is a field not supplied. */
  datatype ProductFields = ProductFields(
    name: Option<string>,
    description: Option<string>,
    price: Option<int>,
    imgUrl: Option<string>,
    category: Option<string>,
    show: Option<bool>)

  /** A document that passed validation, with its default applied. */
  datatype ProductDoc = ProductDoc(
    name: string,
    description: string,
    price: int,
    imgUrl: string,
    category: Category,
    show: bool)

  datatype SchemaError = Required(path: string) | NotInEnum(path: string, value: string)

  /** A required string counts as missing when absent or empty. */
  predicate PresentString(v: Option<string>) {
    v.Some? && v.value != ""
  }

  function RequireString(path: string, v: Option<string>): seq<SchemaError> {
    if PresentString(v) then [] else [Required(path)]
  }

  /** The errors of one document, one per failing path, in the schema's order. */
  function Errors(f: ProductFields): seq<SchemaError> {
    RequireString("name", f.name)
    + RequireString("description", f.description)
    + (if f.price.Some? then [] else [Required("price")])
    + RequireString("img_url", f.imgUrl)
    + (if !PresentString(f.category) then [Required("category")]
       else if f.category.value !in CategoryNames then [NotInEnum("category", f.category.value)]
       else [])
  }

  /** `show` is true unless the document says otherwise. */
  function WithDefaults(f: ProductFields): (r: ProductFields)
    ensures f.show.None? ==> r.show == Some(true)
    ensures f.show.Some? ==> r.show == f.show
    ensures r.(show := f.show) == f
  {
    f.(show := Some(f.show.GetOr(true)))
  }

  /** Validation on save: the stored document, or every error found. */
  function Validate(f: ProductFields): (r: Result<ProductDoc, seq<SchemaError>>)
    ensures r.Failure? ==> |r.error| >= 1
  {
    var d := WithDefaults(f);
    if Errors(d) != [] then Failure(Errors(d))
    else
      match ParseCategory(d.category.value)
      case Some(c) => Success(ProductDoc(d.name.value, d.description.value, d.price.value, d.imgUrl.value, c, d.show.value))
      case None => Failure([NotInEnum("category", d.category.value)])
  }

  /** Every category has a name in the enum list, and distinct categories have distinct names. */
  lemma CategoryNamesMatch(c: Category, c': Category)
    ensures CategoryName(c) in CategoryNames
    ensures ParseCategory(CategoryName(c)) == Some(c)
    ensures CategoryName(c) == CategoryName(c') ==> c == c'
  {
  }

  /** A string passes the enum check if and only if it is one of the seven names. */
  lemma CategoryEnum(s: string)
    ensures s in CategoryNames <==> ParseCategory(s).Some?
    ensures s in CategoryNames <==>
      s == "Electronics" || s == "Mobiles" || s == "Clothes" || s == "Books" ||
      s == "Home" || s == "Grocery" || s == "Health"
  {
  }

  /**
   * A document is accepted if and only if name, description, price,
   * img_url and category are all supplied, the strings non-empty, and the
   * category one of the seven.
   */
  lemma ValidateAcceptsExactly(f: ProductFields)
    ensures Validate(f).Success? <==>
      PresentString(f.name) && PresentString(f.description) && f.price.Some? &&
      PresentString(f.imgUrl) && PresentString(f.category) && f.category.value in CategoryNames
  {
    var d := WithDefaults(f);
    if Errors(d) == [] {
      assert PresentString(d.category) && d.category.value in CategoryNames;
      CategoryEnum(d.category.value);
    }
  }

  /** A document missing any one required field fails, naming that field. */
  lemma MissingFieldRejected(f: ProductFields)
    ensures !PresentString(f.name) ==> Validate(f).Failure? && Required("name") in Validate(f).error
    ensures !PresentString(f.description) ==> Validate(f).Failure? && Required("description") in Validate(f).error
    ensures f.price.None? ==> Validate(f).Failure? && Required("price") in Validate(f).error
    ensures !PresentString(f.imgUrl) ==> Validate(f).Failure? && Required("img_url") in Validate(f).error
    ensures !PresentString(f.category) ==> Validate(f).Failure? && Required("category") in Validate(f).error
  {
  }

  /** An accepted document keeps its fields as supplied; `show` defaults to true. */
  lemma ValidatedFields(f: ProductFields)
    requires Validate(f).Success?
    ensures Validate(f).value.name == f.name.value
    ensures Validate(f).value.description == f.description.value
    ensures Validate(f).value.price == f.price.value
    ensures Validate(f).value.imgUrl == f.imgUrl.value
    ensures CategoryName(Validate(f).value.category) == f.category.value
    ensures Validate(f).value.show == if f.show.Some? then f.show.value else true
  {
  }

  /** The schema sets no lower bound on the price: negative prices pass. */
  lemma NegativePriceAccepted(name: string, description: string, imgUrl: string, price: int)
    requires name != "" && description != "" && imgUrl != "" && price < 0
    ensures Validate(ProductFields(Some(name), Some(description), Some(price), Some(imgUrl), Some("Books"), None)).Success?
  {
  }
}
