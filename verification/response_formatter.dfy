/**
 * The response envelope shared by every endpoint: `{status, message, data?}` on success,
 * `{status, message, data, pagination}` for a page of results, `{status, message, errors?}`
 * on error, each with its HTTP status code.
 */
module ResponseFormatter {
  import opened Wrappers
  import opened Json

  /** What `response()->json($body, $statusCode)` sends. */
  datatype JsonResponse = JsonResponse(body: Value, statusCode: int)

  /** The six numbers the paginator reports; `from`/`to` are null on an empty page. */
  datatype PageMeta = PageMeta(
    total: int, perPage: int, currentPage: int, lastPage: int, firstItem: Option<int>, lastItem: Option<int>)

  /** What `successWithPagination` accepts: a resource collection over a paginator, or a bare paginator. */
  datatype Collection =
    | ResourceCollection(resource: PageMeta, resolved: seq<Value>)
    | PlainPaginator(paginator: PageMeta, items: seq<Value>)

  /** The field of an envelope, read back. */
  function Field(r: JsonResponse, key: string): Option<Value>
  {
    if r.body.Obj? then Lookup(r.body.fields, key) else None
  }

  /** The two leading entries of every envelope, read back, whatever follows them. */
  lemma EnvelopeFields(status: string, message: string, rest: seq<(string, Value)>)
    ensures var fields := [("status", Str(status)), ("message", Str(message))] + rest;
      && Keys(fields) == ["status", "message"] + Keys(rest)
      && Lookup(fields, "status") == Some(Str(status))
      && Lookup(fields, "message") == Some(Str(message))
      && forall key :: key != "status" && key != "message" ==> Lookup(fields, key) == Lookup(rest, key)
  {
    var fields := [("status", Str(status)), ("message", Str(message))] + rest;
    assert fields == [("status", Str(status))] + ([("message", Str(message))] + rest);
    LookupCons("message", Str(message), rest, "status");
    LookupCons("message", Str(message), rest, "message");
    forall key
      ensures Lookup(fields, key) == (if key == "status" then Some(Str(status)) else Lookup([("message", Str(message))] + rest, key))
      ensures Lookup([("message", Str(message))] + rest, key) == (if key == "message" then Some(Str(message)) else Lookup(rest, key))
    {
      LookupCons("status", Str(status), [("message", Str(message))] + rest, key);
      LookupCons("message", Str(message), rest, key);
    }
    LookupCons("status", Str(status), [("message", Str(message))] + rest, "status");
  }

  /**
   * `successResponse($data = null, $message = 'Success', $statusCode = 200)`: status 'success',
   * the given message and code, and a `data` key exactly when the data is not null, holding it.
   */
  function SuccessResponse(data: Value := Null, message: string := "Success", statusCode: int := 200): (r: JsonResponse)
    ensures r.statusCode == statusCode && r.body.Obj?
    ensures Keys(r.body.fields) == (if data == Null then ["status", "message"] else ["status", "message", "data"])
    ensures Field(r, "status") == Some(Str("success"))
    ensures Field(r, "message") == Some(Str(message))
    ensures Field(r, "data") == (if data == Null then None else Some(data))
    ensures Field(r, "errors").None? && Field(r, "pagination").None?
  {
    var rest := if data != Null then [("data", data)] else [];
    var fields := [("status", Str("success")), ("message", Str(message))] + rest;
    EnvelopeFields("success", message, rest);
    LookupAbsent(fields, "errors");
    LookupAbsent(fields, "pagination");
    JsonResponse(Obj(fields), statusCode)
  }

  /**
   * `errorResponse($message = 'Error', $errors = null, $statusCode = 400)`: status 'error',
   * the given message and code, and an `errors` key exactly when the errors are not null.
   */
  function ErrorResponse(message: string := "Error", errors: Value := Null, statusCode: int := 400): (r: JsonResponse)
    ensures r.statusCode == statusCode && r.body.Obj?
    ensures Keys(r.body.fields) == (if errors == Null then ["status", "message"] else ["status", "message", "errors"])
    ensures Field(r, "status") == Some(Str("error"))
    ensures Field(r, "message") == Some(Str(message))
    ensures Field(r, "errors") == (if errors == Null then None else Some(errors))
    ensures Field(r, "data").None?
  {
    var rest := if errors != Null then [("errors", errors)] else [];
    var fields := [("status", Str("error")), ("message", Str(message))] + rest;
    EnvelopeFields("error", message, rest);
    LookupAbsent(fields, "data");
    JsonResponse(Obj(fields), statusCode)
  }

  /** The `pagination` object: exactly the paginator's six numbers under their snake_case names. */
  function PaginationObject(meta: PageMeta): (v: Value)
    ensures v.Obj? && Keys(v.fields) == ["total", "per_page", "current_page", "last_page", "from", "to"]
    ensures Lookup(v.fields, "total") == Some(Int(meta.total))
    ensures Lookup(v.fields, "per_page") == Some(Int(meta.perPage))
    ensures Lookup(v.fields, "current_page") == Some(Int(meta.currentPage))
    ensures Lookup(v.fields, "last_page") == Some(Int(meta.lastPage))
    ensures Lookup(v.fields, "from") == Some(IntOrNull(meta.firstItem))
    ensures Lookup(v.fields, "to") == Some(IntOrNull(meta.lastItem))
  {
    var fields := [("total", Int(meta.total)), ("per_page", Int(meta.perPage)), ("current_page", Int(meta.currentPage)),
                   ("last_page", Int(meta.lastPage)), ("from", IntOrNull(meta.firstItem)), ("to", IntOrNull(meta.lastItem))];
    LookupAt(fields, 0); LookupAt(fields, 1); LookupAt(fields, 2);
    LookupAt(fields, 3); LookupAt(fields, 4); LookupAt(fields, 5);
    Obj(fields)
  }

  /** The paginator underneath a collection. */
  function Meta(collection: Collection): PageMeta
  {
    if collection.ResourceCollection? then collection.resource else collection.paginator
  }

  /** The list a collection serialises to: the resolved resources, or the paginator's own items. */
  function Items(collection: Collection): seq<Value>
  {
    if collection.ResourceCollection? then collection.resolved else collection.items
  }

  /**
   * `successWithPagination($collection, $message = 'Success')`: always status 200, with `data`
   * holding the collection's items and `pagination` read from the paginator underneath.
   */
  function SuccessWithPagination(collection: Collection, message: string := "Success"): (r: JsonResponse)
    ensures r.statusCode == 200 && r.body.Obj?
    ensures Keys(r.body.fields) == ["status", "message", "data", "pagination"]
    ensures Field(r, "status") == Some(Str("success"))
    ensures Field(r, "message") == Some(Str(message))
    ensures Field(r, "data") == Some(Arr(Items(collection)))
    ensures Field(r, "pagination") == Some(PaginationObject(Meta(collection)))
  {
    var fields := [("status", Str("success")), ("message", Str(message)),
                   ("data", Arr(Items(collection))), ("pagination", PaginationObject(Meta(collection)))];
    LookupAt(fields, 0); LookupAt(fields, 1); LookupAt(fields, 2); LookupAt(fields, 3);
    JsonResponse(Obj(fields), 200)
  }
}
