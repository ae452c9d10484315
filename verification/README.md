# Product catalogue: a Dafny model of its logic

The repository is a small product catalogue: a Laravel JSON API (list products a page at a
time, create a product with an optional image) and a React client (product list with a
page-number control, a create form, login and register forms, and an app shell that keeps the
signed-in state in browser local storage). This project models the parts of both that hold
logic of their own and proves what they promise:

- `product_list.dfy` (`ProductList`): the page-number control, built the way the component
  builds it (one pass pushing pages and ellipses, a second pass dropping repeated ellipses).
  Both passes are loops proved against specification functions. The module also holds the
  stock badge, the Previous/Next clamping and the list view's fetch state.
- `product_form.dfy` (`ProductForm`): the create form as a class. It covers field edits with
  per-field error clearing, client validation (an error map replaced as a whole), the payload
  handed to the API, and how a failed create becomes the error state.
- `login.dfy` (`Login`) and `register.dfy` (`Register`): the two auth forms as classes.
- `api.dfy` (`Api`): local storage as a map held by the `AuthStorage` class. Its methods are
  the request and response interceptors and the register, login and logout calls. The module
  also holds the multipart field filter of product creation.
- `app.dfy` (`App`): the app shell's six pieces of view state and one method per handler.
- `js.dfy` (`Js`): JavaScript truthiness, `String.prototype.trim`, the forms' error state (an
  object of per-field entries or a string), and the failure mapping shared by the forms.
- `response_formatter.dfy` (`ResponseFormatter`): the JSON envelopes every endpoint answers with.
- `product_resource.dfy` (`ProductResource`): a product's JSON shape and image URL resolution.
- `product_request.dfy` (`ProductRequest`): the validation rule table, and what passing it
  means field by field.
- `product_controller.dfy` (`ProductController`): the listing and the create endpoint.
- `json.dfy`, `decimal.dfy`, `wrappers.dfy`: JSON values with ordered keys, decimal text of
  numbers, and `Option`/`Result`.

Library behaviour that the code only calls is taken as parameters: number parsing, the URL
check and `url()`, `time()`, `uniqid()`, file storage, and the database's `create`/`paginate`.
HTTP outcomes are parameters too: a handler that awaits a request receives the request's
result (`Ok` or the axios error).

Observations the proofs make explicit:

- The first pass of the page control never puts two ellipses next to each other, so the
  second pass never removes anything (`ProductList.PageWindowIsRawPages`).
- In `productService.create` the special case for `image` adds nothing. An entry is sent
  exactly when its value is neither null nor undefined, so an image input cleared to the
  empty string is sent as an empty `image` field (`Api.FormPartsMembership`).
- A price that does not parse (NaN) passes the client check, because NaN < 0.01 is false
  (`ProductForm.UnparsablePricePasses`). The server's `numeric` rule then rejects it.
- When an endpoint throws, the backend answers 500 with the exception's message as a string
  `errors`. The forms copy any truthy `errors` into their state, so a non-empty string replaces
  the whole state. No field error and no `submit` message is then shown, not even the form's
  fallback text (`Js.TextErrorsHideMessage`).
- Stored image names made in different seconds can never collide, whatever `uniqid()`
  returns (`ProductController.ImageNamesDifferAcrossSeconds`).

## Model

| member | source | states |
|---|---|---|
| ProductList.BuildPages | frontend/src/components/ProductList.jsx:170-209 | The loop builds exactly the first-pass list `RawPages`. That list is page 1; an ellipsis iff start > 2; the pages start..end except 1 and total; an ellipsis iff end < total-1; then total iff total > 1. |
| ProductList.CollapseEllipses | frontend/src/components/ProductList.jsx:212-224 | The dedup loop computes `Collapse`. The page numbers are kept in order, and no two adjacent entries are ellipses. |
| ProductList.PageNumbers | frontend/src/components/ProductList.jsx:167-224 | The control for total ≥ 1 starts at page 1 and ends at page total (when total > 1). Numbers strictly increase within [1, total]. An ellipsis stands only between two pages more than one apart, and every such gap has one. It has at most 7 entries and contains the current page when 1 ≤ current ≤ total. |
| ProductList.RawPagesWellFormed | frontend/src/components/ProductList.jsx:173-209 | The same shape for the first-pass list: first/last page, increasing within bounds, gaps marked, no adjacent ellipses, ≤ 7 entries, current page included. |
| ProductList.RawPagesShaped | frontend/src/components/ProductList.jsx:173-209 | The first-pass list starts with page 1, ends with page total, is increasing with ellipses exactly at gaps, and has at most 7 entries. |
| ProductList.RawPagesShowCurrent | frontend/src/components/ProductList.jsx:176-199 | For 1 ≤ current ≤ total the current page appears, either as page 1 or total or inside the adjusted start..end range. |
| ProductList.RawPagesSplit | frontend/src/components/ProductList.jsx:173-209 | The list is an optional [1, …] head (iff start > 2), a run of consecutive pages, and an optional […, total] tail (iff end < total-1). |
| ProductList.CoreBounds | frontend/src/components/ProductList.jsx:176-187 | After both adjustments the consecutive run lies in [1, total]. It begins after page 2 when an ellipsis precedes it and ends before total-1 when one follows it. Run plus markers fit in 7 entries, and the current page lies in the run. |
| ProductList.WindowBounds | frontend/src/components/ProductList.jsx:176-187 | start ≥ 2 and end ≤ total-1. The range is non-empty next to an ellipsis, and holds the current page when 2 ≤ current ≤ total-1. |
| ProductList.RangeItemsAreConsecutive | frontend/src/components/ProductList.jsx:195-199 | For 2 ≤ lo, hi ≤ total, the range loop pushes exactly the pages lo..hi-1 in order. |
| ProductList.CollapseNoAdjacentEllipses | frontend/src/components/ProductList.jsx:212-224 | After the dedup pass no two neighbouring entries are both ellipses, for any input list. |
| ProductList.CollapseKeepsNumbers | frontend/src/components/ProductList.jsx:212-224 | The dedup pass keeps every page number, in order. |
| ProductList.CollapseOfClean | frontend/src/components/ProductList.jsx:212-224 | On a list without adjacent ellipses the dedup pass is the identity. |
| ProductList.PageWindowIsRawPages | frontend/src/components/ProductList.jsx:212-224 | For total ≥ 1 the dedup pass leaves the first-pass list unchanged. |
| ProductList.GetStockStatus | frontend/src/components/ProductList.jsx:30-38 | "Out of Stock" iff stock is 0, "Low Stock" iff it is non-zero and below 10, "In Stock" iff it is at least 10, each with its badge class. |
| ProductList.PreviousPage | frontend/src/components/ProductList.jsx:158 | The result is never below 1, never above the previous page (when that is ≥ 1), and is the previous page minus one when that is above 1. |
| ProductList.NextPage | frontend/src/components/ProductList.jsx:253 | The result is never above last_page or above the previous page plus one, and is exactly the previous page plus one when that is below last_page. |
| ProductList.PreviousNextStayInRange | frontend/src/components/ProductList.jsx:158-253 | From a page in [1, last_page], both buttons stay in range. Next then Previous (and Previous then Next) return to the page away from the ends. Previous is a no-op exactly on page 1, Next exactly on the last page. |
| ProductList.ProductListView.constructor | frontend/src/components/ProductList.jsx:5-9 | Starts with no products, loading, no error, no pagination, on page 1. |
| ProductList.ProductListView.FetchProducts | frontend/src/components/ProductList.jsx:15-28 | On success products become `data` (or []) and pagination `pagination` (or null), with no error. On failure the error is the server message or 'Failed to fetch products', and the previous products and pagination stay. The failure also passes the response interceptor, so storage becomes `AfterRejection`, which is signed out on a 401. Storage is untouched on success. Loading ends false and the page is unchanged. |
| ProductList.ProductListView.PreviousClick | frontend/src/components/ProductList.jsx:158 | The current page becomes `PreviousPage` of the old one. |
| ProductList.ProductListView.NextClick | frontend/src/components/ProductList.jsx:253 | The current page becomes `NextPage` of the old one, bounded by last_page. |
| ProductList.ProductListView.PageClick | frontend/src/components/ProductList.jsx:238 | The current page becomes the clicked page. |
| Js.ClearFieldError | frontend/src/components/ProductForm.jsx:54-59 | Afterwards the field's error is not shown. It is set to null only if it was shown; otherwise the state is unchanged. An object stays an object with the same keys and other entries; a string state is left as it is. |
| Js.FailureErrors | frontend/src/components/ProductForm.jsx:135-139 | A truthy server `errors` (any object, or a non-empty string) replaces the whole state. Otherwise the state is exactly {submit: server message or the fallback}, and that entry is shown whenever the fallback is non-empty. A string result is non-empty and shows no field's error and no `submit` message. |
| Js.TextErrorsHideMessage | frontend/src/components/ProductForm.jsx:135-139 | For an error body whose `errors` is a string: when non-empty, the state becomes that string and no message of any field is shown; when empty, it is falsy and the state is {submit: server message or the fallback}. |
| Js.MessageOr | frontend/src/components/Login.jsx:38 | The server message when present and non-empty, otherwise the fallback text. |
| Js.TrimEmptyIffBlank | frontend/src/components/ProductForm.jsx:65-67 | `s.trim()` is empty exactly when s consists only of JavaScript whitespace and line terminators. |
| Js.NumberOrNaN | frontend/src/components/ProductForm.jsx:98-99 | A parsed number is truthy iff it exists and is non-zero. NaN is falsy. |
| ProductForm.Set | frontend/src/components/ProductForm.jsx:47-50 | Setting a field changes that field to the new value and leaves every other field unchanged. |
| ProductForm.Entries | frontend/src/components/ProductForm.jsx:5-13 | The form data as an object has the seven keys name, price, category, stock, sku, description, image, in that order. Each key holds its field's value. |
| ProductForm.ProductFormView.constructor | frontend/src/components/ProductForm.jsx:5-16 | Starts with empty text fields, a null image, no errors, not loading, no success. |
| ProductForm.ProductFormView.HandleChange | frontend/src/components/ProductForm.jsx:30-60 | The image takes the chosen file when one was picked; any other change stores the input's text. Only that field changes. Its error is cleared as `Js.ClearFieldError` says. |
| ProductForm.ProductFormView.Validate | frontend/src/components/ProductForm.jsx:62-83 | The whole error state is replaced by the object `ClientErrors`, one message per failing field, and the result is true iff that object is empty. |
| ProductForm.NameAndSkuRules | frontend/src/components/ProductForm.jsx:65-79 | A name error is recorded iff the name is blank, and a SKU error iff the SKU is blank. |
| ProductForm.ValidFormMeetsRules | frontend/src/components/ProductForm.jsx:62-83 | A form that passes has a non-blank name and SKU, a category, a price and a stock. A parsed price is ≥ 0.01 and a parsed stock is ≥ 0. |
| ProductForm.UnparsablePricePasses | frontend/src/components/ProductForm.jsx:68-70 | A non-empty price that does not parse records no price error. |
| ProductForm.Spread | frontend/src/components/ProductForm.jsx:96-100 | Spreading overrides over entries keeps every key in place. Overridden keys take the override, and all other entries are kept. |
| ProductForm.Payload | frontend/src/components/ProductForm.jsx:96-100 | The payload has exactly the form's keys, in the form's order. |
| ProductForm.PayloadKeepsForm | frontend/src/components/ProductForm.jsx:96-100 | The payload has the form's seven keys in order. Every value except price and stock is the form's. Price is `NumberOrNaN` of the parsed price. Stock is the parsed integer as a number when `parseInt` succeeds and NaN when it does not. |
| ProductForm.ProductFormView.HandleSubmit | frontend/src/components/ProductForm.jsx:85-143 | An invalid form sends nothing and only replaces the errors. A valid one sends the filtered multipart parts of the payload and ends not loading. Success shows success. On failure the storage gets the interceptor's effect, and a 401 gives the login message and asks for authentication. Other failures map via `Js.FailureErrors` with 'Failed to create product'. |
| ProductForm.ProductFormView.FinishSuccess | frontend/src/components/ProductForm.jsx:108-125 | The form is reset to empty with no errors and no success, and `onProductAdded` is called. |
| Login.LoginForm.constructor | frontend/src/components/Login.jsx:5-10 | Empty email and password, no errors, not loading. |
| Login.LoginForm.HandleChange | frontend/src/components/Login.jsx:12-24 | Only the named field changes. Its error is nulled only if it was shown. |
| Login.LoginForm.StartSubmit | frontend/src/components/Login.jsx:28-29 | Loading is set and all errors are cleared. |
| Login.LoginForm.HandleSubmit | frontend/src/components/Login.jsx:26-43 | Success is reported iff the login call succeeded. On success the storage holds the session `login` stored. The errors stay empty unless `onLoginSuccess` throws inside the `try`; then the catch shows `{submit: 'Login failed'}`. Whether it throws is the free parameter `successThrew`; by `App.AppView.HandleLoginSuccess` (`AuthFollows`), the callback throws exactly when signed in with unparsable stored user text. On failure the storage gets the interceptor's effect and the errors are `Js.FailureErrors` with 'Login failed'. Loading ends false on every path. |
| Register.RegisterForm.constructor | frontend/src/components/Register.jsx:5-12 | Empty name, email, password and confirmation, no errors, not loading. |
| Register.RegisterForm.HandleChange | frontend/src/components/Register.jsx:14-26 | Only the named field changes. Its error is nulled only if it was shown. |
| Register.RegisterForm.StartSubmit | frontend/src/components/Register.jsx:30-31 | Loading is set and all errors are cleared. |
| Register.RegisterForm.HandleSubmit | frontend/src/components/Register.jsx:28-45 | Success is reported iff registration succeeded, with the stored session as `register` left it. The errors stay empty unless `onRegisterSuccess` throws inside the `try`, and then they are `{submit: 'Registration failed'}`. Whether it throws is the free parameter `successThrew`; by `App.AppView.HandleRegisterSuccess` (`AuthFollows`), the callback throws exactly when signed in with unparsable stored user text. On failure the errors are `Js.FailureErrors` with 'Registration failed'. Loading ends false on every path. |
| Api.AuthStorage.AttachToken | frontend/src/services/api.js:15-19 | `Authorization` becomes `Bearer <token>` iff a non-empty token is stored; otherwise the headers are unchanged. |
| Api.AuthStorage.RejectResponse | frontend/src/services/api.js:29-37 | The error is passed on unchanged. A 401 removes both `auth_token` and `user`, and any other failure leaves storage as it was. |
| Api.AfterRejection | frontend/src/services/api.js:29-37 | After a 401 the keys are the old keys minus the two auth keys; otherwise the storage is unchanged. Every remaining entry keeps its value. |
| Api.SessionAfter | frontend/src/services/api.js:43-46 | With a token in the response, both keys are written (the token, and the user as `Stringify` encodes it). Without one, storage is unchanged. |
| Api.AuthStorage.KeepSession | frontend/src/services/api.js:43-46 | Storage becomes `SessionAfter` of the old storage. |
| Api.AuthStorage.Register | frontend/src/services/api.js:41-48 | Returns the call's outcome. On success storage is `SessionAfter`, and on failure it is the interceptor's `AfterRejection`. |
| Api.AuthStorage.Login | frontend/src/services/api.js:50-57 | Returns the call's outcome. On success storage is `SessionAfter`, and on failure it is the interceptor's `AfterRejection`. |
| Api.AfterLogout | frontend/src/services/api.js:59-64 | A confirmed logout removes both keys. A failed one has only the interceptor's effect. |
| Api.AuthStorage.Logout | frontend/src/services/api.js:59-64 | Returns the call's outcome, and storage becomes `AfterLogout`. |
| Api.SignedOutAfterClearing | frontend/src/services/api.js:29-62 | After a confirmed logout, or a logout rejected with 401, neither a token nor a user is stored. |
| Api.AuthStorage.IsAuthenticated | frontend/src/services/api.js:71-73 | Signed in exactly when `getToken()` gives a token that is not the empty string. |
| Api.AuthStorage.GetToken | frontend/src/services/api.js:75-77 | Gives the stored token when there is one, and nothing otherwise. |
| Api.AuthStorage.GetUserData | frontend/src/services/api.js:79-82 | Null exactly when no user (or the empty string) is stored. A user result is what the stored text parses to. The read throws exactly when non-empty stored text does not parse. |
| Api.ParseStringify | frontend/src/services/api.js:45 | Parsing the stored user text gives back exactly the user login/register stored. |
| Api.SessionIsVisible | frontend/src/services/api.js:43-46 | After a session is stored, the token is readable and the user parses back to the response's user. |
| Api.Stringify | frontend/src/services/api.js:45 | The stored user text is never empty, so `getUserData` never reads it as missing. |
| Api.MultipartFields | frontend/src/services/api.js:92-99 | The loop appends exactly `FormParts` of the payload. |
| Api.FormPartsMembership | frontend/src/services/api.js:93-99 | An entry is sent iff its value is neither null nor undefined, for image as for every other key. No more entries are sent than the payload has. |
| Api.FormPartsIsSubsequence | frontend/src/services/api.js:93-99 | The parts are payload entries taken in the payload's key order. |
| App.AppView.constructor | frontend/src/App.jsx:9-14 | Form hidden, refresh key 0, signed out, modal closed, login view selected, no user. |
| App.AppView.CheckAuth | frontend/src/App.jsx:20-28 | `AuthFollows`: `isAuthenticated` becomes the stored-token test. The read throws exactly when signed in with stored user text that does not parse, and then the user is kept. Otherwise the user is the stored one when signed in and null when signed out. A signed-out view never holds a user. |
| App.AppView.HandleLoginSuccess | frontend/src/App.jsx:30-37 | Auth and user follow storage as `checkAuth` leaves them (`AuthFollows`). The modal is closed unless that read threw, which happens exactly for unparsable stored user text while signed in; then the modal stays as it was. `showForm` is left unchanged. |
| App.AppView.HandleRegisterSuccess | frontend/src/App.jsx:39-46 | The same as after a login: `AuthFollows`, and the modal is closed unless the read threw. |
| App.AppView.HandleLogout | frontend/src/App.jsx:48-57 | Storage becomes `AfterLogout`, and auth and user follow it (`AuthFollows`). The form is hidden unless `checkAuth` threw in the `finally` block, and then it stays as it was. After a confirmed logout or a 401 the view is signed out with no user and the form hidden. |
| App.AppView.HandleAddProductClick | frontend/src/App.jsx:59-73 | A showing form is hidden and nothing else changes. Otherwise a signed-out user gets the modal on the login view and the form stays hidden, and a signed-in user gets the form. |
| App.AppView.HandleProductAdded | frontend/src/App.jsx:75-78 | The refresh key goes up by exactly one and the form is hidden. |
| App.AppView.HandleCloseAuthModal | frontend/src/App.jsx:80-83 | Both the modal and the form are hidden. |
| App.AppView.OpenLogin | frontend/src/App.jsx:112-115 | The modal opens on the login view. |
| App.AppView.SwitchAuthView | frontend/src/App.jsx:153-163 | The modal shows the login or the register view as asked. |
| App.AppView.CancelForm | frontend/src/App.jsx:130 | The form is hidden. |
| ResponseFormatter.SuccessResponse | backend/app/Traits/ResponseFormatter.php:19-31 | status 'success', the message (default 'Success') and code (default 200). A `data` key is present iff the data is non-null, and it holds that data. |
| ResponseFormatter.ErrorResponse | backend/app/Traits/ResponseFormatter.php:72-84 | status 'error', the message (default 'Error') and code (default 400). An `errors` key is present iff the errors are non-null, and there is never a `data` key. |
| ResponseFormatter.SuccessWithPagination | backend/app/Traits/ResponseFormatter.php:40-62 | Keys status, message, data, pagination with code 200. `data` is the resolved collection, or the paginator's items for a bare paginator. `pagination` is read from the paginator underneath. |
| ResponseFormatter.PaginationObject | backend/app/Traits/ResponseFormatter.php:53-60 | Exactly the keys total, per_page, current_page, last_page, from, to, each holding the paginator's value; from and to are null on an empty page. |
| ProductResource.ImageUrl | backend/app/Http/Resources/ProductResource.php:26-30 | Null iff the stored image is null, "" or "0". A stored value passing the URL check is returned unchanged. Anything else becomes `url('storage/' . image)`. |
| ProductResource.ToArray | backend/app/Http/Resources/ProductResource.php:16-34 | Exactly the ten keys id … updated_at in order. Every column is copied unchanged except `image`, which is `ImageUrl` of it. |
| ProductResource.Resolve | backend/app/Http/Controllers/ProductController.php:24 | The resolved collection has one `ToArray` per row, in order. |
| ProductResource.ImageUrlIdempotent | backend/app/Http/Resources/ProductResource.php:26-30 | When `url()` always yields a URL, resolving an already resolved image changes nothing. |
| ProductRequest.Authorize | backend/app/Http/Requests/ProductRequest.php:13-16 | Always authorised. |
| ProductRequest.Rules | backend/app/Http/Requests/ProductRequest.php:23-42 | Seven rows, each field named once. Every field is either required or nullable. The route id enters only as the row the `sku` uniqueness rule ignores. |
| ProductRequest.Passes | backend/app/Http/Requests/ProductRequest.php:27-41 | A passing request carries name, price, category, stock and sku: `required` rejects a missing field. |
| ProductRequest.RouteProductId | backend/app/Http/Requests/ProductRequest.php:25 | The `id` route parameter when present, else the `product` one. |
| ProductRequest.IgnoredRow | backend/app/Http/Requests/ProductRequest.php:35-37 | The uniqueness check skips a row iff the route's product id is present and truthy (not 0), and then it skips exactly that row. |
| ProductRequest.ValidationMeaning | backend/app/Http/Requests/ProductRequest.php:23-42 | A request passes iff every field meets its row: name is non-blank text of ≤ 255 characters; price is numeric and ≥ 0.01; category is non-blank text of ≤ 100 characters; stock is an integer ≥ 0; sku is non-blank text used by no other row; description is missing, null or text; image is missing, null, blank, or a valid jpeg/png/jpg/gif upload of ≤ 2048 KB whose client extension, trimmed and lower-cased, is not one of the PHP extensions. |
| ProductRequest.NameRules | backend/app/Http/Requests/ProductRequest.php:28 | The name row passes iff the name is present, non-blank text of at most 255 characters. |
| ProductRequest.PriceRules | backend/app/Http/Requests/ProductRequest.php:29 | The price row passes iff the price is present, non-blank, numeric and at least 0.01. |
| ProductRequest.CategoryRules | backend/app/Http/Requests/ProductRequest.php:30 | The category row passes iff the category is present, non-blank text of at most 100 characters. |
| ProductRequest.StockRules | backend/app/Http/Requests/ProductRequest.php:31 | The stock row passes iff the stock is present, non-blank, an integer and at least 0. |
| ProductRequest.SkuRules | backend/app/Http/Requests/ProductRequest.php:32-38 | The sku row passes iff the SKU is present, non-blank text that no row other than the ignored one has. |
| ProductRequest.DescriptionRules | backend/app/Http/Requests/ProductRequest.php:39 | The description row passes iff the description is missing, null or text. |
| ProductRequest.ImageRules | backend/app/Http/Requests/ProductRequest.php:40 | The image row passes iff the image is missing, null, blank, or a valid upload whose type is jpeg, png, jpg or gif, whose size is at most 2048 × 1024 bytes, and whose client extension is not php, php3, php4, php5, php7, php8, phtml or phar. The last condition holds after `trim` and `strtolower`, because `image` and `mimes` refuse PHP uploads when `php` is not in their list. |
| ProductRequest.PhpNamedUploadRefused | backend/app/Http/Requests/ProductRequest.php:40 | An intact PNG whose client extension is `PHP ` is refused by the image row. |
| ProductRequest.OwnSkuAllowedOnlyOnUpdate | backend/app/Http/Requests/ProductRequest.php:32-38 | A product's own SKU is accepted when its id is in the route. The same SKU is taken when there is no route id or the id is 0. |
| ProductRequest.Validated | backend/app/Http/Controllers/ProductController.php:38 | The validated data holds exactly the sent fields that the table names, with their sent values. |
| ProductController.Index | backend/app/Http/Controllers/ProductController.php:20-30 | Pages of 15 are requested. Success gives code 200 with 'Products retrieved successfully', the resolved rows as data and the page's pagination. An exception gives code 500 with 'Failed to retrieve products' and its message as errors. |
| ProductController.ImageName | backend/app/Http/Controllers/ProductController.php:43 | The name is the digits of the time, '_', the unique id, '.', and the client extension: each segment is pinned at its position. Its leading digits are exactly the time. |
| ProductController.ImageNamesDifferAcrossSeconds | backend/app/Http/Controllers/ProductController.php:43 | Names built in different seconds differ. |
| ProductController.HasFile | backend/app/Http/Controllers/ProductController.php:41 | The store branch needs a file, and every upload the image rules accepted takes it. |
| ProductController.CreateData | backend/app/Http/Controllers/ProductController.php:38-46 | Without an intact uploaded file the validated data is passed on unchanged. With one, it is saved as `products/<ImageName>` and only `image` changes. It becomes the stored path, or `false` when `storeAs` reports a failed write by returning `false`. A `storeAs` that throws makes the result that exception. |
| ProductController.Created | backend/app/Http/Controllers/ProductController.php:50 | Code 201, 'Product created successfully', and the product's `ToArray` as data. |
| ProductController.StoreFailed | backend/app/Http/Controllers/ProductController.php:51-52 | Code 500, 'Failed to create product', and the exception message as errors. |
| ProductController.Store | backend/app/Http/Controllers/ProductController.php:35-54 | An exception from storing the file or from `create` gives `StoreFailed` with its message. Otherwise the product created from `CreateData` is answered with `Created`. This includes a write that `storeAs` reported as `false`: the product is still created, with `image` false, and answered with 201. |

## Left out

- The authentication controller, the product factory and `productService.getAll`/`getUser`: the first two are not part of this model; the last two only forward an HTTP request.
- HTTP transport, React rendering, effect scheduling, the image preview (FileReader), CSS classes other than the stock badge's, and the `setTimeout` delays: a handler receives the outcome of its request as a parameter, and each delayed callback is a method of its own (`FinishSuccess`, `OpenLogin`).
- Number parsing: `parseFloat`, `parseInt`, `is_numeric` and `filter_var(..., FILTER_VALIDATE_INT)` are parameters that yield a number or none (NaN). IEEE floating point, the `(float)` price cast and decimal formatting are not modelled.
- Api.Stringify: stands for `JSON.stringify`/`JSON.parse` of the user record by an injective text encoding with a proved round trip. The JSON text itself is not modelled.
- The URL check, `url()`, `time()`, `uniqid()`, `storeAs`, `Product::create` and `paginate` are parameters. Whether `storeAs` returns `false` or throws on a failed write depends on the disk's `throw` option, which is configuration and not part of this model. Both outcomes are represented. How the database stores the `false` image, and so what `image` the created row holds, is up to `create`. Paginator arithmetic (total, last page, first and last item) arrives as given numbers.
- ProductRequest: the validator's error messages and the 422 response it sends are not modelled; only whether the request passes is. Inputs are the request after the framework's middleware (for example empty strings already turned into null). Numbers sent as JSON numbers rather than multipart text are not modelled.
- ProductRequest: the `image` and `mimes` rules are modelled by the file's guessed extension plus the framework's refusal of PHP-named uploads. The guessed extension stands in for MIME sniffing of the content, which is not modelled. The `mimes` list in the table narrows the image types to jpeg, png, jpg and gif either way.
- Js.ErrorShown: on a string error state every form field counts as showing no error. JavaScript strings do have `length` and digit-index properties, but no form field is named that way, so those properties are not modelled.
- Route parameters are modelled as integers; their PHP truthiness (only 0 and "0" are false) is kept. A route-bound model object is not modelled.
- SKU uniqueness is checked against a snapshot of the SKU column. Concurrent requests creating the same SKU are left to the database.
- App.AppView.CheckAuth: when the stored user text cannot be parsed, `JSON.parse` throws. The model reports that (`threw`) and leaves `user` unchanged. After a login or registration the throw is caught by the form's `try`, as `Login.LoginForm.HandleSubmit` and `Register.RegisterForm.HandleSubmit` state through `successThrew`. From `handleLogout`'s `finally` it escapes, and what the browser then does is not modelled.
