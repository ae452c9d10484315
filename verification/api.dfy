/**
 * The frontend HTTP client: the request/response interceptors and `authService` as
 * transitions over browser local storage (keys `auth_token` and `user`), and the
 * multipart field filtering of `productService.create`.
 */
module Api {
  import opened Wrappers
  import Js
  import Decimal

  const AuthTokenKey: string := "auth_token"
  const UserKey: string := "user"

  // ---------------------------------------------------------------------------
  // The stored user record

  /** The user object the backend returns with a token. */
  datatype User = User(id: nat, name: string, email: string)

  /**
   * The text stored under `user`: the id in decimal, `:`, the name's length in decimal, `:`,
   * then the name and the email. It stands for `JSON.stringify` through the one property the
   * client relies on, that parsing it gives the record back.
   */
  function Stringify(u: User): (s: string)
    ensures s != ""
  {
    Decimal.Digits(u.id) + ":" + Decimal.Digits(|u.name|) + ":" + u.name + u.email
  }

  /** Splits `d:rest` into the number `d` denotes and `rest`; None when `s` does not start that way. */
  function ReadNumber(s: string): Option<(nat, string)>
  {
    var d := Decimal.LeadingDigits(s);
    if d == [] || |d| == |s| || s[|d|] != ':' then None
    else Some((Decimal.Value(d), s[|d| + 1..]))
  }

  /** Stands for `JSON.parse` of a stored user; None when the text is not one `Stringify` produces. */
  function ParseUser(s: string): Option<User>
  {
    match ReadNumber(s)
    case None => None
    case Some((id, rest)) =>
      match ReadNumber(rest)
      case None => None
      case Some((n, body)) =>
        if n <= |body| then Some(User(id, body[..n], body[n..])) else None
  }

  lemma ReadNumberOfDigits(n: nat, rest: string)
    ensures ReadNumber(Decimal.Digits(n) + ":" + rest) == Some((n, rest))
  {
    var d := Decimal.Digits(n);
    Decimal.LeadingDigitsOfDigits(d, ":" + rest);
    assert d + ":" + rest == d + (":" + rest);
    Decimal.ValueOfDigits(n);
    assert (d + ":" + rest)[|d| + 1..] == rest;
  }

  /** The user `getUserData` reads back is the one login/register stored. */
  lemma ParseStringify(u: User)
    ensures ParseUser(Stringify(u)) == Some(u)
  {
    var body := u.name + u.email;
    var rest := Decimal.Digits(|u.name|) + ":" + body;
    assert Stringify(u) == Decimal.Digits(u.id) + ":" + rest;
    ReadNumberOfDigits(u.id, rest);
    assert ReadNumber(Stringify(u)) == Some((u.id, rest));
    ReadNumberOfDigits(|u.name|, body);
    assert ReadNumber(rest) == Some((|u.name|, body));
    assert body[..|u.name|] == u.name && body[|u.name|..] == u.email;
  }

  // ---------------------------------------------------------------------------
  // Response bodies

  /** `response.data.data` of register/login: the user and, when issued, the token. */
  datatype AuthData = AuthData(user: User, token: Option<string>)

  /** `response.data`: the envelope returned by the backend. */
  datatype Body = Body(status: string, message: string, data: Option<AuthData>)

  /** `response.data.data?.token` is truthy. */
  predicate HasToken(body: Body)
  {
    body.data.Some? && body.data.value.token.Some? && body.data.value.token.value != ""
  }

  /** Storage after a successful register/login: both keys written when a token came back, untouched otherwise. */
  function SessionAfter(items: map<string, string>, body: Body): (r: map<string, string>)
    ensures HasToken(body) ==> r == items[AuthTokenKey := body.data.value.token.value][UserKey := Stringify(body.data.value.user)]
    ensures !HasToken(body) ==> r == items
  {
    if HasToken(body) then
      items[AuthTokenKey := body.data.value.token.value][UserKey := Stringify(body.data.value.user)]
    else items
  }

  /** Storage after the response interceptor sees a rejected request: a 401 removes both keys, nothing else changes it. */
  function AfterRejection(items: map<string, string>, err: Js.ApiError): (r: map<string, string>)
    ensures Js.Status(err) == Some(401) ==> r.Keys == items.Keys - {AuthTokenKey, UserKey}
    ensures forall k :: k in r ==> k in items && r[k] == items[k]
    ensures Js.Status(err) != Some(401) ==> r == items
  {
    if Js.Status(err) == Some(401) then items - {AuthTokenKey, UserKey} else items
  }

  /** Storage after logout: both keys removed once the server confirmed, otherwise only the interceptor's effect. */
  function AfterLogout(items: map<string, string>, outcome: Result<Body, Js.ApiError>): (r: map<string, string>)
    ensures outcome.Ok? ==> r == items - {AuthTokenKey, UserKey}
    ensures outcome.Err? ==> r == AfterRejection(items, outcome.error)
  {
    match outcome
    case Ok(_) => items - {AuthTokenKey, UserKey}
    case Err(err) => AfterRejection(items, err)
  }

  /** What `getUserData` returns: null, a user, or the parse error JSON.parse throws. */
  datatype UserData = NoUser | StoredUser(user: User) | Unparsable

  /** `localStorage`, as far as the client uses it. */
  class AuthStorage {
    var items: map<string, string>

    constructor (initial: map<string, string>)
      ensures items == initial
    {
      items := initial;
    }

    /** `authService.isAuthenticated()`: `getToken()` is truthy, a non-empty token is stored. */
    function IsAuthenticated(): (b: bool)
      reads this
      ensures b <==> GetToken().Some? && GetToken().value != ""
    {
      AuthTokenKey in items && items[AuthTokenKey] != ""
    }

    /** `authService.getToken()` */
    function GetToken(): (t: Option<string>)
      reads this
      ensures t.Some? <==> AuthTokenKey in items
      ensures t.Some? ==> t.value == items[AuthTokenKey]
    {
      if AuthTokenKey in items then Some(items[AuthTokenKey]) else None
    }

    /** `authService.getUserData()`: null when nothing (or the empty string) is stored, else the parsed user. */
    function GetUserData(): (r: UserData)
      reads this
      ensures r.NoUser? <==> UserKey !in items || items[UserKey] == ""
      ensures r.StoredUser? ==> UserKey in items && ParseUser(items[UserKey]) == Some(r.user)
      ensures r.Unparsable? <==> UserKey in items && items[UserKey] != "" && ParseUser(items[UserKey]).None?
    {
      if UserKey !in items || items[UserKey] == "" then NoUser
      else match ParseUser(items[UserKey])
        case Some(u) => StoredUser(u)
        case None => Unparsable
    }

    /** The request interceptor: `Authorization: Bearer <token>` when a token is stored, headers unchanged otherwise. */
    method AttachToken(headers: map<string, string>) returns (h: map<string, string>)
      ensures IsAuthenticated() ==> h == headers["Authorization" := "Bearer " + items[AuthTokenKey]]
      ensures !IsAuthenticated() ==> h == headers
    {
      h := headers;
      var token := GetToken();
      if token.Some? && token.value != "" {
        h := h["Authorization" := "Bearer " + token.value];
      }
    }

    /** The response interceptor's error handler; the error is always passed on. */
    method RejectResponse(err: Js.ApiError) returns (rejected: Js.ApiError)
      modifies this
      ensures rejected == err
      ensures items == AfterRejection(old(items), err)
    {
      if Js.Status(err) == Some(401) {
        items := items - {AuthTokenKey};
        items := items - {UserKey};
      }
      rejected := err;
    }

    /** Stores the session from a register/login response when it carries a token. */
    method KeepSession(body: Body)
      modifies this
      ensures items == SessionAfter(old(items), body)
    {
      if HasToken(body) {
        items := items[AuthTokenKey := body.data.value.token.value];
        items := items[UserKey := Stringify(body.data.value.user)];
      }
    }

    /** `authService.register`, given what `POST /register` produced. */
    method Register(outcome: Result<Body, Js.ApiError>) returns (r: Result<Body, Js.ApiError>)
      modifies this
      ensures r == outcome
      ensures outcome.Ok? ==> items == SessionAfter(old(items), outcome.value)
      ensures outcome.Err? ==> items == AfterRejection(old(items), outcome.error)
    {
      match outcome {
        case Ok(body) =>
          KeepSession(body);
          r := outcome;
        case Err(err) =>
          var e := RejectResponse(err);
          r := Err(e);
      }
    }

    /** `authService.login`, given what `POST /login` produced. */
    method Login(outcome: Result<Body, Js.ApiError>) returns (r: Result<Body, Js.ApiError>)
      modifies this
      ensures r == outcome
      ensures outcome.Ok? ==> items == SessionAfter(old(items), outcome.value)
      ensures outcome.Err? ==> items == AfterRejection(old(items), outcome.error)
    {
      match outcome {
        case Ok(body) =>
          KeepSession(body);
          r := outcome;
        case Err(err) =>
          var e := RejectResponse(err);
          r := Err(e);
      }
    }

    /** `authService.logout`, given what `POST /logout` produced. */
    method Logout(outcome: Result<Body, Js.ApiError>) returns (r: Result<Body, Js.ApiError>)
      modifies this
      ensures r == outcome
      ensures items == AfterLogout(old(items), outcome)
    {
      match outcome {
        case Ok(_) =>
          items := items - {AuthTokenKey};
          items := items - {UserKey};
          r := outcome;
        case Err(err) =>
          var e := RejectResponse(err);
          r := Err(e);
      }
    }
  }

  /** A session stored by login/register is seen by `isAuthenticated` and `getUserData`. */
  lemma SessionIsVisible(items: map<string, string>, body: Body)
    requires HasToken(body)
    ensures var after := SessionAfter(items, body);
      && AuthTokenKey in after && after[AuthTokenKey] == body.data.value.token.value
      && UserKey in after && ParseUser(after[UserKey]) == Some(body.data.value.user)
  {
    ParseStringify(body.data.value.user);
  }

  /** After a 401 or a confirmed logout, no token and no user remain. */
  lemma SignedOutAfterClearing(items: map<string, string>, outcome: Result<Body, Js.ApiError>)
    requires outcome.Ok? || Js.Status(outcome.error) == Some(401)
    ensures AuthTokenKey !in AfterLogout(items, outcome) && UserKey !in AfterLogout(items, outcome)
  {
  }

  // ---------------------------------------------------------------------------
  // productService.create

  /** A field `create` appends: the image when truthy, any other value that is neither null nor undefined. */
  predicate Appended(key: string, v: Js.Value)
  {
    (key == "image" && Js.Truthy(v)) || (v != Js.Null && v != Js.Undefined)
  }

  /** The parts of the multipart body, in the payload's key order. */
  function FormParts(entries: seq<(string, Js.Value)>): seq<(string, Js.Value)>
  {
    if entries == [] then []
    else
      var last := entries[|entries| - 1];
      FormParts(entries[..|entries| - 1]) + (if Appended(last.0, last.1) then [last] else [])
  }

  /** The multipart body `create` builds from the product payload. */
  method MultipartFields(productData: seq<(string, Js.Value)>) returns (parts: seq<(string, Js.Value)>)
    ensures parts == FormParts(productData)
  {
    parts := [];
    for i := 0 to |productData|
      invariant parts == FormParts(productData[..i])
    {
      var (key, value) := productData[i];
      assert productData[..i + 1][..i] == productData[..i];
      if key == "image" && Js.Truthy(value) {
        parts := parts + [("image", value)];
      } else if value != Js.Null && value != Js.Undefined {
        parts := parts + [(key, value)];
      }
    }
    assert productData[..|productData|] == productData;
  }

  /**
   * An entry is sent exactly when its value is neither null nor undefined; the image branch
   * adds nothing to that rule, so a falsy image such as the empty string is sent as well.
   */
  lemma {:induction false} FormPartsMembership(entries: seq<(string, Js.Value)>)
    ensures forall p :: p in FormParts(entries) <==> p in entries && p.1 != Js.Null && p.1 != Js.Undefined
    ensures |FormParts(entries)| <= |entries|
  {
    if entries != [] {
      var init := entries[..|entries| - 1];
      FormPartsMembership(init);
      assert entries == init + [entries[|entries| - 1]];
    }
  }

  /** The parts keep the payload's order: each part is an entry of the payload, taken left to right. */
  lemma {:induction false} FormPartsIsSubsequence(entries: seq<(string, Js.Value)>)
    returns (pick: seq<nat>)
    ensures |pick| == |FormParts(entries)|
    ensures forall k :: 0 <= k < |pick| ==> pick[k] < |entries| && FormParts(entries)[k] == entries[pick[k]]
    ensures forall k, l :: 0 <= k < l < |pick| ==> pick[k] < pick[l]
  {
    if entries != [] {
      var n := |entries| - 1;
      var init := entries[..n];
      var p := FormPartsIsSubsequence(init);
      var q := FormParts(init);
      if Appended(entries[n].0, entries[n].1) {
        assert FormParts(entries) == q + [entries[n]];
        pick := p + [n];
        forall k | 0 <= k < |pick|
          ensures pick[k] < |entries| && FormParts(entries)[k] == entries[pick[k]]
        {
          if k < |p| {
            assert pick[k] == p[k] && FormParts(entries)[k] == q[k] == init[p[k]];
          }
        }
        forall k, l | 0 <= k < l < |pick| ensures pick[k] < pick[l] {
          assert pick[k] == p[k];
        }
      } else {
        assert FormParts(entries) == q;
        pick := p;
        forall k | 0 <= k < |pick|
          ensures pick[k] < |entries| && FormParts(entries)[k] == entries[pick[k]]
        {
          assert q[k] == init[p[k]];
        }
      }
    } else {
      pick := [];
    }
  }
}
