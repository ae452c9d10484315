/** The JSON shape of one product: its stored columns, with the image turned into a public URL. */
module ProductResource {
  import opened Wrappers
  import opened Json

  /**
   * A stored product row. `price` is the value after the `(float)` cast; the timestamps are
   * the text they serialise to.
   */
  datatype ProductRow = ProductRow(
    id: int, name: string, price: real, category: string, stock: int, sku: string,
    description: Option<string>, image: Option<string>, createdAt: Option<string>, updatedAt: Option<string>)

  /** The keys of a serialised product, in order. */
  const ProductKeys: seq<string> :=
    ["id", "name", "price", "category", "stock", "sku", "description", "image", "created_at", "updated_at"]

  /** PHP truthiness of a nullable string: null, "" and "0" are false. */
  predicate PhpTruthy(s: Option<string>)
  {
    s.Some? && s.value != "" && s.value != "0"
  }

  /**
   * The `image` entry: null for a falsy stored path, the stored value itself when it already
   * passes the URL check `isUrl`, and otherwise `url('storage/' . image)`.
   */
  function ImageUrl(image: Option<string>, isUrl: string -> bool, url: string -> string): (r: Option<string>)
    ensures r.None? <==> !PhpTruthy(image)
    ensures PhpTruthy(image) && isUrl(image.value) ==> r == image
    ensures PhpTruthy(image) && !isUrl(image.value) ==> r == Some(url("storage/" + image.value))
  {
    if PhpTruthy(image) then
      if isUrl(image.value) then image else Some(url("storage/" + image.value))
    else None
  }

  /** The entries of a serialised product, in order. */
  function Columns(p: ProductRow, isUrl: string -> bool, url: string -> string): seq<(string, Value)>
  {
    [("id", Int(p.id)), ("name", Str(p.name)), ("price", Float(p.price)), ("category", Str(p.category)),
     ("stock", Int(p.stock)), ("sku", Str(p.sku)), ("description", StrOrNull(p.description)),
     ("image", StrOrNull(ImageUrl(p.image, isUrl, url))),
     ("created_at", StrOrNull(p.createdAt)), ("updated_at", StrOrNull(p.updatedAt))]
  }

  /** Reading the product's own columns back. */
  lemma ReadScalarColumns(p: ProductRow, isUrl: string -> bool, url: string -> string, fields: seq<(string, Value)>)
    requires fields == Columns(p, isUrl, url)
    ensures Lookup(fields, "id") == Some(Int(p.id))
    ensures Lookup(fields, "name") == Some(Str(p.name))
    ensures Lookup(fields, "price") == Some(Float(p.price))
    ensures Lookup(fields, "category") == Some(Str(p.category))
    ensures Lookup(fields, "stock") == Some(Int(p.stock))
    ensures Lookup(fields, "sku") == Some(Str(p.sku))
  {
    assert Lookup(fields, "id") == Some(fields[0].1) by { LookupAt(fields, 0); }
    assert Lookup(fields, "name") == Some(fields[1].1) by { LookupAt(fields, 1); }
    assert Lookup(fields, "price") == Some(fields[2].1) by { LookupAt(fields, 2); }
    assert Lookup(fields, "category") == Some(fields[3].1) by { LookupAt(fields, 3); }
    assert Lookup(fields, "stock") == Some(fields[4].1) by { LookupAt(fields, 4); }
    assert Lookup(fields, "sku") == Some(fields[5].1) by { LookupAt(fields, 5); }
  }

  /** Reading the columns that may be null back. */
  lemma ReadNullableColumns(p: ProductRow, isUrl: string -> bool, url: string -> string, fields: seq<(string, Value)>)
    requires fields == Columns(p, isUrl, url)
    ensures Lookup(fields, "description") == Some(StrOrNull(p.description))
    ensures Lookup(fields, "image") == Some(StrOrNull(ImageUrl(p.image, isUrl, url)))
    ensures Lookup(fields, "created_at") == Some(StrOrNull(p.createdAt))
    ensures Lookup(fields, "updated_at") == Some(StrOrNull(p.updatedAt))
  {
    assert Lookup(fields, "description") == Some(fields[6].1) by { LookupAt(fields, 6); }
    assert Lookup(fields, "image") == Some(fields[7].1) by { LookupAt(fields, 7); }
    assert Lookup(fields, "created_at") == Some(fields[8].1) by { LookupAt(fields, 8); }
    assert Lookup(fields, "updated_at") == Some(fields[9].1) by { LookupAt(fields, 9); }
  }

  /** `toArray`: exactly the ten keys, every column copied but `image`, which is resolved. */
  function ToArray(p: ProductRow, isUrl: string -> bool, url: string -> string): (v: Value)
    ensures v.Obj?
    ensures Keys(v.fields) == ProductKeys
    ensures Lookup(v.fields, "id") == Some(Int(p.id))
    ensures Lookup(v.fields, "name") == Some(Str(p.name))
    ensures Lookup(v.fields, "price") == Some(Float(p.price))
    ensures Lookup(v.fields, "category") == Some(Str(p.category))
    ensures Lookup(v.fields, "stock") == Some(Int(p.stock))
    ensures Lookup(v.fields, "sku") == Some(Str(p.sku))
    ensures Lookup(v.fields, "description") == Some(StrOrNull(p.description))
    ensures Lookup(v.fields, "image") == Some(StrOrNull(ImageUrl(p.image, isUrl, url)))
    ensures Lookup(v.fields, "created_at") == Some(StrOrNull(p.createdAt))
    ensures Lookup(v.fields, "updated_at") == Some(StrOrNull(p.updatedAt))
  {
    ReadScalarColumns(p, isUrl, url, Columns(p, isUrl, url));
    ReadNullableColumns(p, isUrl, url, Columns(p, isUrl, url));
    Obj(Columns(p, isUrl, url))
  }

  /** `ProductResource::collection(...)->resolve()`: every row of the page serialised, in order. */
  function Resolve(rows: seq<ProductRow>, isUrl: string -> bool, url: string -> string): (vs: seq<Value>)
    ensures |vs| == |rows|
    ensures forall i :: 0 <= i < |rows| ==> vs[i] == ToArray(rows[i], isUrl, url)
  {
    seq(|rows|, i requires 0 <= i < |rows| => ToArray(rows[i], isUrl, url))
  }

  /**
   * When `url()` yields text that passes the URL check and is never falsy, serialising a
   * row whose image has already been resolved changes nothing more: the resolution is idempotent.
   */
  lemma ImageUrlIdempotent(image: Option<string>, isUrl: string -> bool, url: string -> string)
    requires forall s :: isUrl(url(s))
    requires forall s :: isUrl(s) ==> s != "" && s != "0"
    ensures ImageUrl(ImageUrl(image, isUrl, url), isUrl, url) == ImageUrl(image, isUrl, url)
  {
    if PhpTruthy(image) && !isUrl(image.value) {
      var u := url("storage/" + image.value);
      assert isUrl(u);
    }
  }
}
