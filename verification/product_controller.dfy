/**
 * The product endpoints: `index` lists one page of products in the paginated envelope, and
 * `store` saves the uploaded image (if any), creates the product and answers with it.
 * The database, the file store, the clock and `uniqid()` are parameters.
 */
module ProductController {
  import opened Wrappers
  import opened Json
  import Decimal
  import opened ResponseFormatter
  import opened ProductResource
  import opened ProductRequest

  /** Products per page of the listing. */
  const PageSize: nat := 15

  const ListedMessage := "Products retrieved successfully"
  const ListFailedMessage := "Failed to retrieve products"
  const CreatedMessage := "Product created successfully"
  const CreateFailedMessage := "Failed to create product"

  /** The folder uploaded images are stored in. */
  const ImageFolder := "products"

  /**
   * `index`: `paginate(15)` yields one page of rows with its paginator numbers, or throws
   * with a message.
   */
  function Index(paginate: nat -> Result<(seq<ProductRow>, PageMeta), string>,
                 isUrl: string -> bool, url: string -> string): (r: JsonResponse)
    ensures paginate(PageSize).Ok? ==>
      var (rows, meta) := paginate(PageSize).value;
      && r.statusCode == 200
      && Field(r, "status") == Some(Str("success"))
      && Field(r, "message") == Some(Str(ListedMessage))
      && Field(r, "data") == Some(Arr(Resolve(rows, isUrl, url)))
      && Field(r, "pagination") == Some(PaginationObject(meta))
    ensures paginate(PageSize).Err? ==>
      && r.statusCode == 500
      && Field(r, "status") == Some(Str("error"))
      && Field(r, "message") == Some(Str(ListFailedMessage))
      && Field(r, "errors") == Some(Str(paginate(PageSize).error))
  {
    match paginate(PageSize)
    case Ok((rows, meta)) =>
      SuccessWithPagination(ResourceCollection(meta, Resolve(rows, isUrl, url)), ListedMessage)
    case Err(e) => ErrorResponse(ListFailedMessage, Str(e), 500)
  }

  /** `time() . '_' . uniqid() . '.' . extension` */
  function ImageName(now: nat, uid: string, extension: string): (name: string)
    ensures Decimal.LeadingDigits(name) == Decimal.Digits(now)
    ensures |name| == |Decimal.Digits(now)| + |uid| + |extension| + 2
    ensures name[|Decimal.Digits(now)|] == '_'
    ensures name[|Decimal.Digits(now)| + 1..|name| - |extension| - 1] == uid
    ensures name[|name| - |extension| - 1..] == "." + extension
  {
    var digits := Decimal.Digits(now);
    var suffix := "." + extension;
    var rest := "_" + uid + suffix;
    var name := digits + rest;
    Decimal.LeadingDigitsOfDigits(digits, rest);
    assert name[|digits|] == rest[0] == '_';
    assert name[|digits| + 1..|name| - |extension| - 1] == rest[1..|rest| - |suffix|] == uid;
    assert name[|name| - |extension| - 1..] == rest[|rest| - |suffix|..] == suffix;
    name
  }

  /** Names made in different seconds never collide, whatever `uniqid()` and the extensions are. */
  lemma ImageNamesDifferAcrossSeconds(t1: nat, u1: string, e1: string, t2: nat, u2: string, e2: string)
    requires t1 != t2
    ensures ImageName(t1, u1, e1) != ImageName(t2, u2, e2)
  {
    if ImageName(t1, u1, e1) == ImageName(t2, u2, e2) {
      Decimal.DigitsInjective(t1, t2);
    }
  }

  /** `hasFile('image')`: a file was sent and arrived intact; every image the rules accepted is stored. */
  function HasFile(upload: Option<UploadedFile>): (b: bool)
    ensures b ==> upload.Some?
    ensures upload.Some? && ImageOk(Some(Upload(upload.value))) ==> b
  {
    upload.Some? && upload.value.isValid
  }

  /**
   * A value handed to `Product::create`: one taken from the request, or the `false` that
   * `storeAs` returns when the disk does not throw and the write fails.
   */
  datatype ColumnValue = Given(input: Input) | PhpFalse

  /** The validated data as `create` receives it when nothing is replaced. */
  function AsGiven(validated: Request): (data: map<string, ColumnValue>)
    ensures data.Keys == validated.Keys
    ensures forall k :: k in validated ==> data[k] == Given(validated[k])
  {
    map k | k in validated :: Given(validated[k])
  }

  /**
   * The data handed to `Product::create`: the validated fields, with `image` replaced by what
   * `storeAs` returned when a file was uploaded. `storeAs` yields the stored path, `None` for
   * the `false` of a failed write, or Err with the message of the exception it threw.
   */
  function CreateData(validated: Request, upload: Option<UploadedFile>, now: nat, uid: string,
                      storeAs: (string, string) -> Result<Option<string>, string>): (d: Result<map<string, ColumnValue>, string>)
    ensures !HasFile(upload) ==> d == Ok(AsGiven(validated))
    ensures HasFile(upload) ==>
      var stored := storeAs(ImageFolder, ImageName(now, uid, upload.value.clientExtension));
      && (stored.Err? ==> d == Err(stored.error))
      && (stored.Ok? ==> d.Ok? && d.value.Keys == validated.Keys + {"image"}
                                && d.value["image"] == (if stored.value.Some? then Given(Text(stored.value.value)) else PhpFalse)
                                && forall k :: k in validated && k != "image" ==> d.value[k] == Given(validated[k]))
  {
    var data := AsGiven(validated);
    if HasFile(upload) then
      match storeAs(ImageFolder, ImageName(now, uid, upload.value.clientExtension))
      case Ok(Some(path)) => Ok(data["image" := Given(Text(path))])
      case Ok(None) => Ok(data["image" := PhpFalse])
      case Err(e) => Err(e)
    else Ok(data)
  }

  /** The answer to a successful `store`: 201 with the created product as `data`. */
  function Created(product: ProductRow, isUrl: string -> bool, url: string -> string): (r: JsonResponse)
    ensures r.statusCode == 201
    ensures Field(r, "status") == Some(Str("success"))
    ensures Field(r, "message") == Some(Str(CreatedMessage))
    ensures Field(r, "data") == Some(ToArray(product, isUrl, url))
  {
    SuccessResponse(ToArray(product, isUrl, url), CreatedMessage, 201)
  }

  /** The answer when `store` throws: 500 with the exception's message as `errors`. */
  function StoreFailed(message: string): (r: JsonResponse)
    ensures r.statusCode == 500
    ensures Field(r, "status") == Some(Str("error"))
    ensures Field(r, "message") == Some(Str(CreateFailedMessage))
    ensures Field(r, "errors") == Some(Str(message))
  {
    ErrorResponse(CreateFailedMessage, Str(message), 500)
  }

  /**
   * `store`: `validated` is the request's validated data and `upload` its `image` file;
   * `storeAs(folder, name)` saves the file and yields its path (or `false`), `create` inserts
   * the row; either may throw.
   */
  method Store(validated: Request, upload: Option<UploadedFile>, now: nat, uid: string,
               storeAs: (string, string) -> Result<Option<string>, string>,
               create: map<string, ColumnValue> -> Result<ProductRow, string>,
               isUrl: string -> bool, url: string -> string) returns (r: JsonResponse)
    ensures var d := CreateData(validated, upload, now, uid, storeAs);
      && (d.Err? ==> r == StoreFailed(d.error))
      && (d.Ok? && create(d.value).Err? ==> r == StoreFailed(create(d.value).error))
      && (d.Ok? && create(d.value).Ok? ==> r == Created(create(d.value).value, isUrl, url))
  {
    var data := AsGiven(validated);
    if HasFile(upload) {
      var imageName := ImageName(now, uid, upload.value.clientExtension);
      var stored := storeAs(ImageFolder, imageName);
      if stored.Err? {
        return StoreFailed(stored.error);
      }
      data := data["image" := if stored.value.Some? then Given(Text(stored.value.value)) else PhpFalse];
    }
    var product := create(data);
    if product.Err? {
      return StoreFailed(product.error);
    }
    r := Created(product.value, isUrl, url);
  }
}
