/**
 * The create-product form: field edits with per-field error clearing, client-side
 * validation, the payload handed to `productService.create`, and the mapping of a failed
 * create into the error map.
 */
module ProductForm {
  import opened Wrappers
  import Js
  import Api

  datatype Field = Name | Price | Category | Stock | Sku | Description | Image

  /** The key of a field in `formData` and in the error map. */
  function Key(f: Field): string
  {
    match f
    case Name => "name"
    case Price => "price"
    case Category => "category"
    case Stock => "stock"
    case Sku => "sku"
    case Description => "description"
    case Image => "image"
  }

  /** `formData`: every input holds its text; `image` holds null, a chosen file, or the input's text. */
  datatype FormData = FormData(
    name: string, price: string, category: string, stock: string,
    sku: string, description: string, image: Js.Value)

  const EmptyForm := FormData("", "", "", "", "", "", Js.Null)

  /** `formData` as a JavaScript object, in declaration order. */
  function Entries(form: FormData): (e: seq<(string, Js.Value)>)
    ensures |e| == 7
    ensures forall i :: 0 <= i < 7 ==> e[i].0 == Key([Name, Price, Category, Stock, Sku, Description, Image][i])
    ensures forall i :: 0 <= i < 7 ==> e[i].1 == Get(form, [Name, Price, Category, Stock, Sku, Description, Image][i])
  {
    [("name", Js.Str(form.name)), ("price", Js.Str(form.price)), ("category", Js.Str(form.category)),
     ("stock", Js.Str(form.stock)), ("sku", Js.Str(form.sku)), ("description", Js.Str(form.description)),
     ("image", form.image)]
  }

  /** Reads one field as a JavaScript value. */
  function Get(form: FormData, f: Field): Js.Value
  {
    match f
    case Name => Js.Str(form.name)
    case Price => Js.Str(form.price)
    case Category => Js.Str(form.category)
    case Stock => Js.Str(form.stock)
    case Sku => Js.Str(form.sku)
    case Description => Js.Str(form.description)
    case Image => form.image
  }

  /** `{...prev, [name]: v}` for a text field, or for `image` (which may also hold a file). */
  function Set(form: FormData, f: Field, v: Js.Value): (r: FormData)
    requires f != Image ==> v.Str?
    ensures Get(r, f) == v
    ensures forall g :: g != f ==> Get(r, g) == Get(form, g)
  {
    match f
    case Name => form.(name := v.s)
    case Price => form.(price := v.s)
    case Category => form.(category := v.s)
    case Stock => form.(stock := v.s)
    case Sku => form.(sku := v.s)
    case Description => form.(description := v.s)
    case Image => form.(image := v)
  }

  // ---------------------------------------------------------------------------
  // Validation

  const ValidatedFields: set<string> := {"name", "price", "category", "stock", "sku"}

  /** The rule each validated field must meet; `parseFloat`/`parseInt` give None for NaN, which compares false. */
  predicate FieldInvalid(form: FormData, key: string, parseFloat: string -> Option<real>, parseInt: string -> Option<int>)
  {
    if key == "name" then Js.Trim(form.name) == ""
    else if key == "price" then form.price == "" || (parseFloat(form.price).Some? && parseFloat(form.price).value < 0.01)
    else if key == "category" then form.category == ""
    else if key == "stock" then form.stock == "" || (parseInt(form.stock).Some? && parseInt(form.stock).value < 0)
    else if key == "sku" then Js.Trim(form.sku) == ""
    else false
  }

  function ErrorText(key: string): string
  {
    if key == "name" then "Product name is required"
    else if key == "price" then "Price must be at least 0.01"
    else if key == "category" then "Category is required"
    else if key == "stock" then "Stock must be 0 or greater"
    else "SKU is required"
  }

  /** The error map `validate` produces: one message per field whose rule fails. */
  function ClientErrors(form: FormData, parseFloat: string -> Option<real>, parseInt: string -> Option<int>): Js.ErrorMap
  {
    map key | key in ValidatedFields && FieldInvalid(form, key, parseFloat, parseInt) :: Js.Message(ErrorText(key))
  }

  /** `m` holds a message for exactly the failing fields among `checked`, and nothing else. */
  ghost predicate ErrorsFor(m: Js.ErrorMap, checked: set<string>, form: FormData,
                            parseFloat: string -> Option<real>, parseInt: string -> Option<int>)
  {
    && (forall key :: key in m ==> key in checked && m[key] == Js.Message(ErrorText(key)))
    && (forall key :: key in checked ==> (key in m <==> FieldInvalid(form, key, parseFloat, parseInt)))
  }

  /** Checking every validated field gives the client error map. */
  lemma ClientErrorsExactly(m: Js.ErrorMap, form: FormData, parseFloat: string -> Option<real>, parseInt: string -> Option<int>)
    requires ErrorsFor(m, ValidatedFields, form, parseFloat, parseInt)
    ensures m == ClientErrors(form, parseFloat, parseInt)
  {
  }

  /** Checking one more field keeps the map exact. */
  lemma CheckField(m: Js.ErrorMap, checked: set<string>, key: string, form: FormData,
                   parseFloat: string -> Option<real>, parseInt: string -> Option<int>)
    requires ErrorsFor(m, checked, form, parseFloat, parseInt) && key !in checked
    ensures var m' := if FieldInvalid(form, key, parseFloat, parseInt) then m[key := Js.Message(ErrorText(key))] else m;
      ErrorsFor(m', checked + {key}, form, parseFloat, parseInt)
  {
  }

  /** One step of `validate`: the field's message is recorded when its rule fails. */
  function WithError(m: Js.ErrorMap, invalid: bool, key: string): Js.ErrorMap
  {
    if invalid then m[key := Js.Message(ErrorText(key))] else m
  }

  /** The client error map is what checking name, price, category, stock and SKU in turn records. */
  lemma ClientErrorsStepwise(form: FormData, parseFloat: string -> Option<real>, parseInt: string -> Option<int>)
    ensures ClientErrors(form, parseFloat, parseInt) ==
      var m1 := WithError(map[], FieldInvalid(form, "name", parseFloat, parseInt), "name");
      var m2 := WithError(m1, FieldInvalid(form, "price", parseFloat, parseInt), "price");
      var m3 := WithError(m2, FieldInvalid(form, "category", parseFloat, parseInt), "category");
      var m4 := WithError(m3, FieldInvalid(form, "stock", parseFloat, parseInt), "stock");
      WithError(m4, FieldInvalid(form, "sku", parseFloat, parseInt), "sku")
  {
    var m1 := WithError(map[], FieldInvalid(form, "name", parseFloat, parseInt), "name");
    CheckField(map[], {}, "name", form, parseFloat, parseInt);
    var m2 := WithError(m1, FieldInvalid(form, "price", parseFloat, parseInt), "price");
    CheckField(m1, {"name"}, "price", form, parseFloat, parseInt);
    var m3 := WithError(m2, FieldInvalid(form, "category", parseFloat, parseInt), "category");
    CheckField(m2, {"name", "price"}, "category", form, parseFloat, parseInt);
    var m4 := WithError(m3, FieldInvalid(form, "stock", parseFloat, parseInt), "stock");
    CheckField(m3, {"name", "price", "category"}, "stock", form, parseFloat, parseInt);
    var m5 := WithError(m4, FieldInvalid(form, "sku", parseFloat, parseInt), "sku");
    CheckField(m4, {"name", "price", "category", "stock"}, "sku", form, parseFloat, parseInt);
    assert {"name", "price", "category", "stock"} + {"sku"} == ValidatedFields;
    ClientErrorsExactly(m5, form, parseFloat, parseInt);
  }

  /** The form passes client-side validation. */
  predicate ClientValid(form: FormData, parseFloat: string -> Option<real>, parseInt: string -> Option<int>)
  {
    ClientErrors(form, parseFloat, parseInt) == map[]
  }

  /** A name (or SKU) error is shown exactly when the text is empty or only whitespace. */
  lemma NameAndSkuRules(form: FormData, parseFloat: string -> Option<real>, parseInt: string -> Option<int>)
    ensures "name" in ClientErrors(form, parseFloat, parseInt) <==> Js.Blank(form.name)
    ensures "sku" in ClientErrors(form, parseFloat, parseInt) <==> Js.Blank(form.sku)
  {
    Js.TrimEmptyIffBlank(form.name);
    Js.TrimEmptyIffBlank(form.sku);
  }

  /**
   * A form that passes has a non-blank name and SKU, a category, a price and a stock; when
   * they parse, the price is at least 0.01 and the stock is not negative.
   */
  lemma ValidFormMeetsRules(form: FormData, parseFloat: string -> Option<real>, parseInt: string -> Option<int>)
    requires ClientValid(form, parseFloat, parseInt)
    ensures !Js.Blank(form.name) && !Js.Blank(form.sku) && form.category != ""
    ensures form.price != "" && form.stock != ""
    ensures parseFloat(form.price).Some? ==> parseFloat(form.price).value >= 0.01
    ensures parseInt(form.stock).Some? ==> parseInt(form.stock).value >= 0
  {
    NameAndSkuRules(form, parseFloat, parseInt);
    assert "category" !in ClientErrors(form, parseFloat, parseInt);
    assert "price" !in ClientErrors(form, parseFloat, parseInt);
    assert "stock" !in ClientErrors(form, parseFloat, parseInt);
  }

  /** A price that does not parse (NaN) is not caught here: NaN < 0.01 is false. */
  lemma UnparsablePricePasses(form: FormData, parseFloat: string -> Option<real>, parseInt: string -> Option<int>)
    requires form.price != "" && parseFloat(form.price).None?
    ensures "price" !in ClientErrors(form, parseFloat, parseInt)
  {
  }

  // ---------------------------------------------------------------------------
  // Payload

  /** `{...entries, ...overrides}` when every override key is already present: same keys, same order. */
  function Spread(entries: seq<(string, Js.Value)>, overrides: map<string, Js.Value>): (r: seq<(string, Js.Value)>)
    ensures |r| == |entries|
    ensures forall i :: 0 <= i < |r| ==> r[i].0 == entries[i].0
    ensures forall i :: 0 <= i < |r| && entries[i].0 in overrides ==> r[i].1 == overrides[entries[i].0]
    ensures forall i :: 0 <= i < |r| && entries[i].0 !in overrides ==> r[i] == entries[i]
  {
    seq(|entries|, i requires 0 <= i < |entries| =>
      if entries[i].0 in overrides then (entries[i].0, overrides[entries[i].0]) else entries[i])
  }

  /** `productData`: the form data with `price` and `stock` replaced by the numbers they parse to. */
  function Payload(form: FormData, parseFloat: string -> Option<real>, parseInt: string -> Option<int>): (p: seq<(string, Js.Value)>)
    ensures |p| == |Entries(form)|
    ensures forall i :: 0 <= i < |p| ==> p[i].0 == Entries(form)[i].0
  {
    var stock := parseInt(form.stock);
    Spread(Entries(form), map[
      "price" := Js.NumberOrNaN(parseFloat(form.price)),
      "stock" := Js.NumberOrNaN(if stock.Some? then Some(stock.value as real) else None)])
  }

  /** The payload keeps every key of the form in order and every value except the two converted numbers. */
  lemma PayloadKeepsForm(form: FormData, parseFloat: string -> Option<real>, parseInt: string -> Option<int>)
    ensures var p := Payload(form, parseFloat, parseInt);
      && |p| == 7
      && (forall i :: 0 <= i < 7 ==> p[i].0 == Entries(form)[i].0)
      && (forall i :: 0 <= i < 7 && i != 1 && i != 3 ==> p[i] == Entries(form)[i])
      && p[1] == ("price", Js.NumberOrNaN(parseFloat(form.price)))
      && p[3] == ("stock", if parseInt(form.stock).Some? then Js.Num(parseInt(form.stock).value as real) else Js.NaN)
  {
    var e := Entries(form);
    assert e[1].0 == "price" && e[3].0 == "stock";
    assert forall i :: 0 <= i < 7 && i != 1 && i != 3 ==> e[i].0 != "price" && e[i].0 != "stock";
  }

  const LoginRequiredText := "You must be logged in to add products. Please login first."

  /** The state hooks of the form (the image preview is left out). */
  class ProductFormView {
    var formData: FormData
    var errors: Js.Errors
    var loading: bool
    var success: bool

    constructor ()
      ensures formData == EmptyForm && errors == Js.NoErrors && !loading && !success
    {
      formData := EmptyForm;
      errors := Js.NoErrors;
      loading := false;
      success := false;
    }

    /**
     * An input changed: the image takes the chosen file when there is one, any other field
     * (or an image input without a file) takes the input's text; only that field's error is
     * cleared.
     */
    method HandleChange(f: Field, value: string, files: seq<string>)
      modifies this`formData, this`errors
      ensures Get(formData, f) == (if f == Image && files != [] then Js.File(files[0]) else Js.Str(value))
      ensures forall g :: g != f ==> Get(formData, g) == Get(old(formData), g)
      ensures errors == Js.ClearFieldError(old(errors), Key(f))
    {
      if f == Image && files != [] {
        formData := Set(formData, f, Js.File(files[0]));
      } else {
        formData := Set(formData, f, Js.Str(value));
      }
      errors := Js.ClearFieldError(errors, Key(f));
    }

    /** `validate()`: records one message per failing field, replaces the whole map, reports whether it is empty. */
    method Validate(parseFloat: string -> Option<real>, parseInt: string -> Option<int>) returns (ok: bool)
      modifies this`errors
      ensures errors == Js.Fields(ClientErrors(formData, parseFloat, parseInt))
      ensures ok <==> ClientErrors(formData, parseFloat, parseInt) == map[]
    {
      var newErrors: Js.ErrorMap := map[];
      ghost var before: Js.ErrorMap;
      if Js.Trim(formData.name) == "" {
        newErrors := newErrors["name" := Js.Message("Product name is required")];
      }
      assert newErrors == WithError(map[], FieldInvalid(formData, "name", parseFloat, parseInt), "name");
      before := newErrors;
      if formData.price == "" || (parseFloat(formData.price).Some? && parseFloat(formData.price).value < 0.01) {
        newErrors := newErrors["price" := Js.Message("Price must be at least 0.01")];
      }
      assert newErrors == WithError(before, FieldInvalid(formData, "price", parseFloat, parseInt), "price");
      before := newErrors;
      if formData.category == "" {
        newErrors := newErrors["category" := Js.Message("Category is required")];
      }
      assert newErrors == WithError(before, FieldInvalid(formData, "category", parseFloat, parseInt), "category");
      before := newErrors;
      if formData.stock == "" || (parseInt(formData.stock).Some? && parseInt(formData.stock).value < 0) {
        newErrors := newErrors["stock" := Js.Message("Stock must be 0 or greater")];
      }
      assert newErrors == WithError(before, FieldInvalid(formData, "stock", parseFloat, parseInt), "stock");
      before := newErrors;
      if Js.Trim(formData.sku) == "" {
        newErrors := newErrors["sku" := Js.Message("SKU is required")];
      }
      assert newErrors == WithError(before, FieldInvalid(formData, "sku", parseFloat, parseInt), "sku");
      ClientErrorsStepwise(formData, parseFloat, parseInt);
      errors := Js.Fields(newErrors);
      ok := |newErrors| == 0;
      assert ok <==> newErrors == map[] by {
        if |newErrors| == 0 { assert newErrors.Keys == {}; }
      }
    }

    /**
     * Submitting: an invalid form stops after validation; a valid one sends the payload's
     * multipart parts. On success the form shows its success state; a 401 asks for a login
     * (and the interceptor has cleared the stored session); other failures show the server's
     * field errors or a submit message.
     */
    method HandleSubmit(storage: Api.AuthStorage, parseFloat: string -> Option<real>, parseInt: string -> Option<int>,
                        outcome: Result<(), Js.ApiError>)
      returns (sent: Option<seq<(string, Js.Value)>>, authRequired: bool)
      modifies this, storage
      ensures formData == old(formData)
      ensures !ClientValid(old(formData), parseFloat, parseInt) ==>
                && sent.None? && !authRequired
                && errors == Js.Fields(ClientErrors(old(formData), parseFloat, parseInt))
                && loading == old(loading) && success == old(success)
                && storage.items == old(storage.items)
      ensures ClientValid(old(formData), parseFloat, parseInt) ==>
                && sent == Some(Api.FormParts(Payload(old(formData), parseFloat, parseInt)))
                && !loading
      ensures ClientValid(old(formData), parseFloat, parseInt) && outcome.Ok? ==>
                && success && errors == Js.NoErrors && !authRequired && storage.items == old(storage.items)
      ensures ClientValid(old(formData), parseFloat, parseInt) && outcome.Err? ==>
                && !success
                && storage.items == Api.AfterRejection(old(storage.items), outcome.error)
                && authRequired == (Js.Status(outcome.error) == Some(401))
                && errors == (if authRequired then Js.Fields(map["submit" := Js.Message(LoginRequiredText)])
                              else Js.FailureErrors(outcome.error, "Failed to create product"))
    {
      authRequired := false;
      var valid := Validate(parseFloat, parseInt);
      if !valid {
        sent := None;
        return;
      }
      loading := true;
      success := false;
      var parts := Api.MultipartFields(Payload(formData, parseFloat, parseInt));
      sent := Some(parts);
      match outcome {
        case Ok(_) =>
          success := true;
        case Err(err) =>
          var e := storage.RejectResponse(err);
          if Js.Status(e) == Some(401) {
            errors := Js.Fields(map["submit" := Js.Message(LoginRequiredText)]);
            authRequired := true;
          } else {
            errors := Js.FailureErrors(e, "Failed to create product");
          }
      }
      loading := false;
    }

    /** The delayed step after a successful create: the form is emptied and `onProductAdded` is called. */
    method FinishSuccess() returns (productAdded: bool)
      modifies this
      ensures formData == EmptyForm && errors == Js.NoErrors && !success && loading == old(loading)
      ensures productAdded
    {
      formData := EmptyForm;
      errors := Js.NoErrors;
      success := false;
      productAdded := true;
    }
  }
}
