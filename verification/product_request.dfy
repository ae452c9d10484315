/**
 * The product form request: who may send it (anyone), and the declarative rule table a
 * request must pass, evaluated the way the framework's validator evaluates such a table.
 */
module ProductRequest {
  import opened Wrappers

  /** An uploaded file: the extension its client name carries, the one its content suggests, its size. */
  datatype UploadedFile = UploadedFile(clientExtension: string, guessedExtension: string, sizeBytes: nat, isValid: bool)

  /** One request field as sent: null, text (every multipart field arrives as text) or a file. */
  datatype Input = NullInput | Text(s: string) | Upload(file: UploadedFile)

  /** The request body: a field that was not sent has no key. */
  type Request = map<string, Input>

  datatype Rule =
    | Required
    | IsString
    | Numeric
    | IsInteger
    | Min(bound: real)
    | Max(bound: real)
    /** `Rule::unique('products', 'sku')`, ignoring the row with the given id when there is one. */
    | UniqueSku(ignore: Option<int>)
    | Nullable
    | Image
    | Mimes(extensions: seq<string>)

  /**
   * What the rules consult besides the request: the SKU column of the products table by row id,
   * and the two number tests, `is_numeric` (with the value it denotes) and
   * `filter_var(..., FILTER_VALIDATE_INT)`.
   */
  datatype Context = Context(skus: map<int, string>, numeric: string -> Option<real>, integer: string -> Option<int>)

  /** `authorize()`: every caller may send this request. */
  function Authorize(): (allowed: bool)
    ensures allowed
  {
    true
  }

  /** `$this->route('id') ?? $this->route('product')` */
  function RouteProductId(id: Option<int>, product: Option<int>): (r: Option<int>)
    ensures id.Some? ==> r == id
    ensures id.None? ==> r == product
  {
    if id.Some? then id else product
  }

  /** The row the uniqueness check skips: the route's product id when it is truthy (not 0). */
  function IgnoredRow(productId: Option<int>): (r: Option<int>)
    ensures r.Some? <==> productId.Some? && productId.value != 0
    ensures r.Some? ==> r == productId
  {
    if productId.Some? && productId.value != 0 then productId else None
  }

  /** Extensions the `image` rule accepts. */
  const ImageExtensions: seq<string> := ["jpg", "jpeg", "png", "gif", "bmp", "svg", "webp"]

  /** Most bytes an image may have: `max:2048` counts kilobytes of 1024 bytes. */
  const MaxImageBytes: nat := 2048 * 1024

  /**
   * `rules()`: the table, field by field, in order. Each field is named once and is either
   * required or nullable; the route id only enters as the row the `sku` uniqueness ignores.
   */
  function Rules(productId: Option<int>): (r: seq<(string, seq<Rule>)>)
    ensures |r| == 7
    ensures forall i, j :: 0 <= i < j < |r| ==> r[i].0 != r[j].0
    ensures forall i :: 0 <= i < |r| ==> (Required in r[i].1 <==> Nullable !in r[i].1)
    ensures forall i, k :: 0 <= i < |r| && 0 <= k < |r[i].1| && r[i].1[k].UniqueSku? ==>
              r[i].0 == "sku" && r[i].1[k].ignore == IgnoredRow(productId)
  {
    [("name", [Required, IsString, Max(255.0)]),
     ("price", [Required, Numeric, Min(0.01)]),
     ("category", [Required, IsString, Max(100.0)]),
     ("stock", [Required, IsInteger, Min(0.0)]),
     ("sku", [Required, IsString, UniqueSku(IgnoredRow(productId))]),
     ("description", [Nullable, IsString]),
     ("image", [Nullable, Image, Mimes(["jpeg", "png", "jpg", "gif"]), Max(2048.0)])]
  }

  /** The fields the table names; the route id changes rules, never fields. */
  const RuleFields: set<string> := set e | e in Rules(None) :: e.0

  /** PHP `trim` strips spaces, tabs, newlines, carriage returns, NUL and vertical tabs. */
  predicate PhpSpace(c: char)
  {
    c == ' ' || c == '\t' || c == '\n' || c == '\r' || c == '\0' || c == '\U{000B}'
  }

  /** PHP `strtolower` on one character: ASCII letters only. */
  function AsciiLower(c: char): (r: char)
    ensures 'A' <= c <= 'Z' ==> r as int == c as int + 32
    ensures !('A' <= c <= 'Z') ==> r == c
  {
    if 'A' <= c <= 'Z' then (c as int + 32) as char else c
  }

  /** PHP `strtolower`. */
  function Lower(s: string): (r: string)
    ensures |r| == |s|
    ensures forall i :: 0 <= i < |s| ==> r[i] == AsciiLower(s[i])
  {
    seq(|s|, i requires 0 <= i < |s| => AsciiLower(s[i]))
  }

  /** PHP `trim`: the characters `PhpSpace` names are stripped from both ends. */
  function Trim(s: string): (r: string)
    ensures r == [] || (!PhpSpace(r[0]) && !PhpSpace(r[|r| - 1]))
    ensures |r| <= |s|
    decreases |s|
  {
    if s != [] && PhpSpace(s[0]) then Trim(s[1..])
    else if s != [] && PhpSpace(s[|s| - 1]) then Trim(s[..|s| - 1])
    else s
  }

  /** Client extensions the file rules refuse unless `php` is itself in the allowed list. */
  const PhpExtensions: seq<string> := ["php", "php3", "php4", "php5", "php7", "php8", "phtml", "phar"]

  /** `shouldBlockPhpUpload`: a file named as PHP code is refused by `image` and by a `mimes` list without `php`. */
  predicate BlocksPhpUpload(file: UploadedFile, allowed: seq<string>)
  {
    "php" !in allowed && Trim(Lower(file.clientExtension)) in PhpExtensions
  }

  /** A string `trim` empties. */
  predicate Blank(s: string)
  {
    forall i :: 0 <= i < |s| ==> PhpSpace(s[i])
  }

  /**
   * The size `min`/`max` compare: the number itself for a numeric field holding a number, the
   * kilobytes of a file, and otherwise the length of the text.
   */
  function Size(v: Input, rules: seq<Rule>, ctx: Context): real
  {
    if v.Text? && (Numeric in rules || IsInteger in rules) && ctx.numeric(v.s).Some? then ctx.numeric(v.s).value
    else if v.Upload? then v.file.sizeBytes as real / 1024.0
    else if v.Text? then |v.s| as real
    else 0.0
  }

  /** Whether one rule accepts a value that it is run on. */
  predicate RulePasses(rule: Rule, v: Input, rules: seq<Rule>, ctx: Context)
  {
    match rule
    case Required => (v.Text? && !Blank(v.s)) || (v.Upload? && v.file.isValid)
    case IsString => v.Text?
    case Numeric => v.Text? && ctx.numeric(v.s).Some?
    case IsInteger => v.Text? && ctx.integer(v.s).Some?
    case Min(b) => Size(v, rules, ctx) >= b
    case Max(b) => Size(v, rules, ctx) <= b
    case UniqueSku(ignore) =>
      v.Text? ==> forall id :: id in ctx.skus && Some(id) != ignore ==> ctx.skus[id] != v.s
    case Nullable => true
    case Image =>
      v.Upload? && v.file.isValid && !BlocksPhpUpload(v.file, ImageExtensions) && v.file.guessedExtension in ImageExtensions
    case Mimes(exts) =>
      v.Upload? && v.file.isValid && !BlocksPhpUpload(v.file, exts) && v.file.guessedExtension in exts
  }

  /**
   * Whether a rule is run at all: only `required` looks at a field that is missing or blank,
   * and a `nullable` field holding null skips its other rules.
   */
  predicate RuleApplies(rule: Rule, v: Option<Input>, rules: seq<Rule>)
  {
    if v.None? || (v.value.Text? && Blank(v.value.s)) then rule == Required
    else rule == Required || !(Nullable in rules && v.value == NullInput)
  }

  /** A field passes when every rule that is run on it accepts it; `required` rejects a missing field. */
  predicate FieldPasses(v: Option<Input>, rules: seq<Rule>, ctx: Context)
  {
    forall i :: 0 <= i < |rules| && RuleApplies(rules[i], v, rules) ==>
      v.Some? && RulePasses(rules[i], v.value, rules, ctx)
  }

  function Get(req: Request, key: string): Option<Input>
  {
    if key in req then Some(req[key]) else None
  }

  /** A field whose rules start with `required` passes only when it was sent. */
  lemma RequiredMeansPresent(v: Option<Input>, rules: seq<Rule>, ctx: Context)
    requires rules != [] && rules[0] == Required && FieldPasses(v, rules, ctx)
    ensures v.Some?
  {
    assert RuleApplies(rules[0], v, rules);
  }

  /** The request passes validation: every field of the table passes its rules. */
  function Passes(req: Request, productId: Option<int>, ctx: Context): (ok: bool)
    ensures ok ==> "name" in req && "price" in req && "category" in req && "stock" in req && "sku" in req
  {
    var table := Rules(productId);
    var ok := forall i :: 0 <= i < |table| ==> FieldPasses(Get(req, table[i].0), table[i].1, ctx);
    if ok then
      RequiredMeansPresent(Get(req, "name"), table[0].1, ctx);
      RequiredMeansPresent(Get(req, "price"), table[1].1, ctx);
      RequiredMeansPresent(Get(req, "category"), table[2].1, ctx);
      RequiredMeansPresent(Get(req, "stock"), table[3].1, ctx);
      RequiredMeansPresent(Get(req, "sku"), table[4].1, ctx);
      true
    else false
  }

  /** `validated()`: the fields the table names that the request sent, as sent. */
  function Validated(req: Request): (data: Request)
    ensures forall k :: k in data <==> k in req && k in RuleFields
    ensures forall k :: k in data ==> data[k] == req[k]
  {
    map k | k in req && k in RuleFields :: req[k]
  }

  /** Every text `filter_var` accepts as an integer is numeric, denoting the same number. */
  ghost predicate ConsistentParsers(ctx: Context)
  {
    forall s :: ctx.integer(s).Some? ==> ctx.numeric(s) == Some(ctx.integer(s).value as real)
  }

  /** Text that is there and not blank. */
  predicate PresentText(v: Option<Input>)
  {
    v.Some? && v.value.Text? && !Blank(v.value.s)
  }

  predicate NameOk(v: Option<Input>)
  {
    PresentText(v) && |v.value.s| <= 255
  }

  predicate PriceOk(v: Option<Input>, ctx: Context)
  {
    PresentText(v) && ctx.numeric(v.value.s).Some? && ctx.numeric(v.value.s).value >= 0.01
  }

  predicate CategoryOk(v: Option<Input>)
  {
    PresentText(v) && |v.value.s| <= 100
  }

  predicate StockOk(v: Option<Input>, ctx: Context)
  {
    PresentText(v) && ctx.integer(v.value.s).Some? && ctx.integer(v.value.s).value >= 0
  }

  /** The SKU is taken by no row of the table other than the ignored one. */
  predicate SkuOk(v: Option<Input>, ignore: Option<int>, ctx: Context)
  {
    PresentText(v) && forall id :: id in ctx.skus && Some(id) != ignore ==> ctx.skus[id] != v.value.s
  }

  /** Missing, null or text. */
  predicate DescriptionOk(v: Option<Input>)
  {
    v.None? || v.value == NullInput || v.value.Text?
  }

  /**
   * Missing, null, blank, or a good upload of a jpeg, png, jpg or gif file of at most 2048 KB
   * whose client extension does not name PHP code.
   */
  predicate ImageOk(v: Option<Input>)
  {
    || v.None? || v.value == NullInput || (v.value.Text? && Blank(v.value.s))
    || (&& v.value.Upload? && v.value.file.isValid
        && Trim(Lower(v.value.file.clientExtension)) !in PhpExtensions
        && v.value.file.guessedExtension in ["jpeg", "png", "jpg", "gif"]
        && v.value.file.sizeBytes <= MaxImageBytes)
  }

  lemma NameRules(v: Option<Input>, productId: Option<int>, ctx: Context)
    ensures FieldPasses(v, Rules(productId)[0].1, ctx) <==> NameOk(v)
  {
    var rules := Rules(productId)[0].1;
    if FieldPasses(v, rules, ctx) {
      assert RuleApplies(rules[0], v, rules) && RuleApplies(rules[1], v, rules) && RuleApplies(rules[2], v, rules);
    }
  }

  lemma PriceRules(v: Option<Input>, productId: Option<int>, ctx: Context)
    ensures FieldPasses(v, Rules(productId)[1].1, ctx) <==> PriceOk(v, ctx)
  {
    var rules := Rules(productId)[1].1;
    if FieldPasses(v, rules, ctx) {
      assert RuleApplies(rules[0], v, rules) && RuleApplies(rules[1], v, rules) && RuleApplies(rules[2], v, rules);
    }
  }

  lemma CategoryRules(v: Option<Input>, productId: Option<int>, ctx: Context)
    ensures FieldPasses(v, Rules(productId)[2].1, ctx) <==> CategoryOk(v)
  {
    var rules := Rules(productId)[2].1;
    if FieldPasses(v, rules, ctx) {
      assert RuleApplies(rules[0], v, rules) && RuleApplies(rules[1], v, rules) && RuleApplies(rules[2], v, rules);
    }
  }

  lemma StockRules(v: Option<Input>, productId: Option<int>, ctx: Context)
    requires ConsistentParsers(ctx)
    ensures FieldPasses(v, Rules(productId)[3].1, ctx) <==> StockOk(v, ctx)
  {
    var rules := Rules(productId)[3].1;
    if FieldPasses(v, rules, ctx) {
      assert RuleApplies(rules[0], v, rules) && RuleApplies(rules[1], v, rules) && RuleApplies(rules[2], v, rules);
    }
  }

  lemma SkuRules(v: Option<Input>, productId: Option<int>, ctx: Context)
    ensures FieldPasses(v, Rules(productId)[4].1, ctx) <==> SkuOk(v, IgnoredRow(productId), ctx)
  {
    var rules := Rules(productId)[4].1;
    if FieldPasses(v, rules, ctx) {
      assert RuleApplies(rules[0], v, rules) && RuleApplies(rules[1], v, rules) && RuleApplies(rules[2], v, rules);
    }
  }

  lemma DescriptionRules(v: Option<Input>, productId: Option<int>, ctx: Context)
    ensures FieldPasses(v, Rules(productId)[5].1, ctx) <==> DescriptionOk(v)
  {
    var rules := Rules(productId)[5].1;
    if FieldPasses(v, rules, ctx) && v.Some? && v.value != NullInput && !(v.value.Text? && Blank(v.value.s)) {
      assert RuleApplies(rules[1], v, rules);
    }
  }

  lemma ImageRules(v: Option<Input>, productId: Option<int>, ctx: Context)
    ensures FieldPasses(v, Rules(productId)[6].1, ctx) <==> ImageOk(v)
  {
    var rules := Rules(productId)[6].1;
    if v.Some? && v.value != NullInput && !(v.value.Text? && Blank(v.value.s)) {
      assert RuleApplies(rules[1], v, rules) && RuleApplies(rules[2], v, rules) && RuleApplies(rules[3], v, rules);
      assert FieldPasses(v, rules, ctx) <==>
        RulePasses(rules[1], v.value, rules, ctx) && RulePasses(rules[2], v.value, rules, ctx)
        && RulePasses(rules[3], v.value, rules, ctx);
      if v.value.Upload? {
        UploadImageRules(v.value.file, rules, ctx);
      }
    }
  }

  /** An intact upload meets the image row exactly when it is a small jpeg, png, jpg or gif not named as PHP code. */
  lemma UploadImageRules(file: UploadedFile, rules: seq<Rule>, ctx: Context)
    requires rules == [Nullable, Image, Mimes(["jpeg", "png", "jpg", "gif"]), Max(2048.0)]
    ensures RulePasses(rules[1], Upload(file), rules, ctx) && RulePasses(rules[2], Upload(file), rules, ctx)
              && RulePasses(rules[3], Upload(file), rules, ctx)
            <==> ImageOk(Some(Upload(file)))
  {
    assert "php" !in ImageExtensions && "php" !in ["jpeg", "png", "jpg", "gif"];
    assert Size(Upload(file), rules, ctx) == file.sizeBytes as real / 1024.0;
    assert file.sizeBytes as real / 1024.0 <= 2048.0 <==> file.sizeBytes <= MaxImageBytes;
    assert file.guessedExtension in ["jpeg", "png", "jpg", "gif"] ==> file.guessedExtension in ImageExtensions;
  }

  /** An image whose content is a PNG but whose client name ends in `.PHP ` is refused. */
  lemma PhpNamedUploadRefused(productId: Option<int>, ctx: Context)
    ensures !FieldPasses(Some(Upload(UploadedFile("PHP ", "png", 100, true))), Rules(productId)[6].1, ctx)
  {
    ImageRules(Some(Upload(UploadedFile("PHP ", "png", 100, true))), productId, ctx);
    assert Lower("PHP ") == "php ";
    assert Trim("php ") == Trim("php") == "php";
  }

  /**
   * A request passes validation exactly when each field meets its row of the table: name,
   * category and SKU non-blank text of at most 255 and 100 characters and unused by other rows;
   * price a number of at least 0.01; stock an integer of at least 0; description missing, null
   * or text; image missing, null, blank or an accepted upload.
   */
  lemma ValidationMeaning(req: Request, productId: Option<int>, ctx: Context)
    requires ConsistentParsers(ctx)
    ensures Passes(req, productId, ctx) <==>
      && NameOk(Get(req, "name"))
      && PriceOk(Get(req, "price"), ctx)
      && CategoryOk(Get(req, "category"))
      && StockOk(Get(req, "stock"), ctx)
      && SkuOk(Get(req, "sku"), IgnoredRow(productId), ctx)
      && DescriptionOk(Get(req, "description"))
      && ImageOk(Get(req, "image"))
  {
    var table := Rules(productId);
    NameRules(Get(req, "name"), productId, ctx);
    PriceRules(Get(req, "price"), productId, ctx);
    CategoryRules(Get(req, "category"), productId, ctx);
    StockRules(Get(req, "stock"), productId, ctx);
    SkuRules(Get(req, "sku"), productId, ctx);
    DescriptionRules(Get(req, "description"), productId, ctx);
    ImageRules(Get(req, "image"), productId, ctx);
    if Passes(req, productId, ctx) {
      assert FieldPasses(Get(req, table[0].0), table[0].1, ctx);
      assert FieldPasses(Get(req, table[1].0), table[1].1, ctx);
      assert FieldPasses(Get(req, table[2].0), table[2].1, ctx);
      assert FieldPasses(Get(req, table[3].0), table[3].1, ctx);
      assert FieldPasses(Get(req, table[4].0), table[4].1, ctx);
      assert FieldPasses(Get(req, table[5].0), table[5].1, ctx);
      assert FieldPasses(Get(req, table[6].0), table[6].1, ctx);
    }
  }

  /**
   * Updating a product may keep its own SKU: with the product's id in the route that row is
   * skipped, while without a route id the same SKU counts as taken.
   */
  lemma OwnSkuAllowedOnlyOnUpdate(sku: string, id: int, ctx: Context)
    requires id != 0 && id in ctx.skus && ctx.skus[id] == sku && !Blank(sku)
    requires forall other :: other in ctx.skus && other != id ==> ctx.skus[other] != sku
    ensures SkuOk(Some(Text(sku)), IgnoredRow(Some(id)), ctx)
    ensures !SkuOk(Some(Text(sku)), IgnoredRow(None), ctx)
    ensures !SkuOk(Some(Text(sku)), IgnoredRow(Some(0)), ctx)
  {
  }
}
