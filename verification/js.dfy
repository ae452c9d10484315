/**
 * JavaScript values as the frontend sees them: truthiness, `String.prototype.trim`,
 * per-field error maps and the axios failure shape shared by every form.
 */
module Js {
  import opened Wrappers

  /** A JavaScript value that can sit in a form field or a request payload. */
  datatype Value =
    | Undefined
    | Null
    | Bool(b: bool)
    | Num(r: real)
    | NaN
    | Str(s: string)
    | File(fileName: string)

  /** JavaScript truthiness (`!!v`). */
  predicate Truthy(v: Value)
  {
    match v
    case Undefined => false
    case Null => false
    case Bool(b) => b
    case Num(r) => r != 0.0
    case NaN => false
    case Str(s) => s != ""
    case File(_) => true
  }

  /** The number a parser produced, or NaN when it produced none. */
  function NumberOrNaN(r: Option<real>): (v: Value)
    ensures Truthy(v) <==> r.Some? && r.value != 0.0
  {
    match r
    case Some(x) => Num(x)
    case None => NaN
  }

  // ---------------------------------------------------------------------------
  // String.prototype.trim

  /** WhiteSpace and LineTerminator code points, the set `trim` removes. */
  predicate IsWhitespace(c: char)
  {
    || c == '\t' || c == '\n' || c == '\U{000B}' || c == '\U{000C}' || c == '\r' || c == ' '
    || c == '\U{00A0}' || c == '\U{1680}' || ('\U{2000}' <= c <= '\U{200A}')
    || c == '\U{2028}' || c == '\U{2029}' || c == '\U{202F}' || c == '\U{205F}'
    || c == '\U{3000}' || c == '\U{FEFF}'
  }

  /** A string made only of whitespace (possibly empty). */
  ghost predicate Blank(s: string)
  {
    forall i :: 0 <= i < |s| ==> IsWhitespace(s[i])
  }

  function TrimStart(s: string): string
  {
    if s != [] && IsWhitespace(s[0]) then TrimStart(s[1..]) else s
  }

  function TrimEnd(s: string): string
  {
    if s != [] && IsWhitespace(s[|s| - 1]) then TrimEnd(s[..|s| - 1]) else s
  }

  function Trim(s: string): string
  {
    TrimEnd(TrimStart(s))
  }

  lemma {:induction false} TrimStartEmptyIffBlank(s: string)
    ensures TrimStart(s) == "" <==> Blank(s)
  {
    if s != [] && IsWhitespace(s[0]) {
      TrimStartEmptyIffBlank(s[1..]);
      assert Blank(s) <==> Blank(s[1..]) by {
        if Blank(s[1..]) {
          forall i | 0 <= i < |s| ensures IsWhitespace(s[i]) {
            if i > 0 { assert s[i] == s[1..][i - 1]; }
          }
        }
      }
    }
  }

  lemma {:induction false} TrimEndEmptyIffBlank(s: string)
    ensures TrimEnd(s) == "" <==> Blank(s)
  {
    if s != [] && IsWhitespace(s[|s| - 1]) {
      TrimEndEmptyIffBlank(s[..|s| - 1]);
      assert Blank(s) <==> Blank(s[..|s| - 1]) by {
        if Blank(s[..|s| - 1]) {
          forall i | 0 <= i < |s| ensures IsWhitespace(s[i]) {
            if i < |s| - 1 { assert s[i] == s[..|s| - 1][i]; }
          }
        }
      }
    }
  }

  /** `!s.trim()` holds exactly for the strings made only of whitespace. */
  lemma TrimEmptyIffBlank(s: string)
    ensures Trim(s) == "" <==> Blank(s)
  {
    TrimStartEmptyIffBlank(s);
    TrimEndEmptyIffBlank(TrimStart(s));
    if TrimStart(s) != "" {
      // TrimStart(s) starts with a non-whitespace character, so TrimEnd keeps it
      TrimStartFirstNotBlank(s);
    }
  }

  lemma {:induction false} TrimStartFirstNotBlank(s: string)
    requires TrimStart(s) != ""
    ensures !IsWhitespace(TrimStart(s)[0])
  {
    if s != [] && IsWhitespace(s[0]) {
      TrimStartFirstNotBlank(s[1..]);
    }
  }

  // ---------------------------------------------------------------------------
  // Per-field error maps (`errors` state of every form)

  /** The value stored under a field of an error map: null, a message, or the server's list of messages. */
  datatype ErrorValue = NoError | Message(text: string) | Messages(list: seq<string>)

  type ErrorMap = map<string, ErrorValue>

  /**
   * An `errors` value as a form holds it in its state and as a response body carries it: an
   * object of per-field entries, or a plain string (the backend puts an exception's message there).
   * `setErrors(err.response.data.errors)` stores either kind as it arrives.
   */
  datatype Errors = Fields(entries: ErrorMap) | Text(text: string)

  /** The empty object `{}` every form starts from and resets to. */
  const NoErrors: Errors := Fields(map[])

  /** `!!errors`: an object is always truthy, a string only when it is non-empty. */
  predicate ErrorsTruthy(e: Errors)
  {
    e.Fields? || e.text != ""
  }

  /** `m[field]` is truthy: set, and not null or the empty string (an array is always truthy). */
  predicate EntryShown(m: ErrorMap, field: string)
  {
    field in m &&
    match m[field]
    case NoError => false
    case Message(t) => t != ""
    case Messages(_) => true
  }

  /**
   * `errors[field]` is truthy. A string has no property named after a form field (the fields are
   * never `length` or a digit string), so a string state shows no field's error.
   */
  predicate ErrorShown(errors: Errors, field: string)
  {
    errors.Fields? && EntryShown(errors.entries, field)
  }

  /**
   * The error state after the user edits `field`: its error is set to null when one is shown,
   * every other entry is left alone; a string state is left as it is.
   */
  function ClearFieldError(errors: Errors, field: string): (r: Errors)
    ensures !ErrorShown(r, field)
    ensures ErrorShown(errors, field) ==> r == Fields(errors.entries[field := NoError])
    ensures !ErrorShown(errors, field) ==> r == errors
    ensures r.Fields? <==> errors.Fields?
    ensures errors.Fields? ==> r.entries.Keys == errors.entries.Keys
    ensures errors.Fields? ==> forall f :: f in errors.entries && f != field ==> r.entries[f] == errors.entries[f]
  {
    if ErrorShown(errors, field) then Fields(errors.entries[field := NoError]) else errors
  }

  // ---------------------------------------------------------------------------
  // Rejected axios requests

  /** The `data` of an error response: the envelope's `message` and `errors`, when present. */
  datatype ErrorBody = ErrorBody(message: Option<string>, errors: Option<Errors>)

  datatype ErrorResponse = ErrorResponse(status: int, data: Option<ErrorBody>)

  /** A rejected request; `response` is absent for network failures. */
  datatype ApiError = ApiError(response: Option<ErrorResponse>)

  /** `err.response?.status` */
  function Status(err: ApiError): Option<int>
  {
    if err.response.Some? then Some(err.response.value.status) else None
  }

  function Body(err: ApiError): Option<ErrorBody>
  {
    if err.response.Some? then err.response.value.data else None
  }

  /** `err.response?.data?.errors`, when truthy. */
  function ServerErrors(err: ApiError): Option<Errors>
  {
    if Body(err).Some? && Body(err).value.errors.Some? && ErrorsTruthy(Body(err).value.errors.value)
    then Body(err).value.errors
    else None
  }

  /** `err.response?.data?.message || fallback` */
  function MessageOr(err: ApiError, fallback: string): (m: string)
    ensures Body(err).Some? && Body(err).value.message.Some? && Body(err).value.message.value != ""
            ==> m == Body(err).value.message.value
    ensures (Body(err).None? || Body(err).value.message.None? || Body(err).value.message.value == "")
            ==> m == fallback
  {
    if Body(err).Some? && Body(err).value.message.Some? && Body(err).value.message.value != ""
    then Body(err).value.message.value
    else fallback
  }

  /**
   * The error state a form holds after a failed submit: a truthy server `errors` replaces the
   * whole state, whatever its kind; otherwise a single `submit` entry carries the server message
   * or the form's fallback text. A server string therefore leaves nothing on screen.
   */
  function FailureErrors(err: ApiError, fallback: string): (r: Errors)
    ensures Body(err).Some? && Body(err).value.errors.Some? && ErrorsTruthy(Body(err).value.errors.value)
            ==> r == Body(err).value.errors.value
    ensures ServerErrors(err).None? ==> r == Fields(map["submit" := Message(MessageOr(err, fallback))])
    ensures ServerErrors(err).None? && fallback != "" ==> ErrorShown(r, "submit")
    ensures r.Text? ==> r.text != "" && forall f :: !ErrorShown(r, f)
  {
    if ServerErrors(err).Some? then ServerErrors(err).value
    else Fields(map["submit" := Message(MessageOr(err, fallback))])
  }

  /**
   * The backend's answer to an exception carries the exception's message as `errors`. A
   * non-empty one hides every message, the fallback included; an empty one is falsy and the
   * envelope's message (or the fallback) is shown under `submit`.
   */
  lemma TextErrorsHideMessage(status: int, message: Option<string>, text: string, fallback: string)
    ensures var err := ApiError(Some(ErrorResponse(status, Some(ErrorBody(message, Some(Text(text)))))));
            && (text != "" ==> FailureErrors(err, fallback) == Text(text)
                               && forall f :: !ErrorShown(FailureErrors(err, fallback), f))
            && (text == "" ==> FailureErrors(err, fallback) == Fields(map["submit" := Message(MessageOr(err, fallback))]))
  {
  }
}
