/** The exception hierarchy of the SDK: one ApiException record carrying a
    message, a code and an optional map from field name to error messages, and
    four subclasses that each pin their code. */
module Exceptions {
  import opened PhpValues

  /** The class of a thrown ApiException. */
  datatype Kind = Generic | Validation | Authentication | NotFound | Server

  /** Does `v` hold a non-empty array (`is_array($v) && !empty($v)`)? */
  predicate NonEmptyList(v: Value) {
    v.Arr? && v.entries != []
  }

  /** Position of the first field whose errors are a non-empty array. */
  function FirstListIndex(es: PhpArray): (r: Option<nat>)
    ensures r.Some? ==> r.value < |es| && NonEmptyList(es[r.value].1)
    ensures r.Some? ==> forall j :: 0 <= j < r.value ==> !NonEmptyList(es[j].1)
    ensures r.None? ==> forall j :: 0 <= j < |es| ==> !NonEmptyList(es[j].1)
  {
    if es == [] then None
    else if NonEmptyList(es[0].1) then Some(0)
    else match FirstListIndex(es[1..])
      case None => None
      case Some(j) => Some(j + 1)
  }

  datatype ApiException = ApiException(kind: Kind, message: string, code: int, errors: Option<PhpArray>)
  {
    /** `!empty($this->errors)`. */
    predicate HasErrors() {
      errors.Some? && errors.value != []
    }

    /** `$fieldErrors[0]` for the first field, in map order, whose errors form a non-empty
        array; null when there is none or when that array has no key 0. */
    function FirstErrorEntry(): (r: Value)
      ensures r != Null ==> HasErrors()
      ensures errors.Some? && FirstListIndex(errors.value).None? ==> r == Null
      ensures errors.Some? && FirstListIndex(errors.value).Some? ==>
                var i := FirstListIndex(errors.value).value;
                r == Get(errors.value[i].1.entries, IntKey(0))
    {
      if !HasErrors() then Null
      else match FirstListIndex(errors.value)
        case None => Null
        case Some(i) => Get(errors.value[i].1.entries, IntKey(0))
    }

    /** getFirstError(): its `?string` return type turns any other entry into a TypeError. */
    function GetFirstError(): (r: Result<Option<string>, Raised>)
      ensures r == Success(None) <==> FirstErrorEntry() == Null
      ensures r.Success? && r.value.Some? <==> FirstErrorEntry().Str?
      ensures r.Success? && r.value.Some? ==> FirstErrorEntry() == Str(r.value.value)
      ensures r.Failure? ==> r.error == TypeError
    {
      match FirstErrorEntry()
      case Null => Success(None)
      case Str(s) => Success(Some(s))
      case _ => Failure(TypeError)
    }

    /** `$this->errors[$field] ?? null`. */
    function FieldErrorsEntry(field: string): (r: Value)
      ensures errors.None? ==> r == Null
      ensures r != Null <==> errors.Some? && IsSet(errors.value, StrKey(field))
      ensures r != Null ==> Lookup(errors.value, StrKey(field)) == Some(r)
    {
      if errors.None? then Null else Get(errors.value, StrKey(field))
    }

    /** getFieldErrors(): its `?array` return type turns a non-array entry into a TypeError. */
    function GetFieldErrors(field: string): (r: Result<Option<PhpArray>, Raised>)
      ensures r == Success(None) <==> errors.None? || !IsSet(errors.value, StrKey(field))
      ensures r.Success? && r.value.Some? ==> Lookup(errors.value, StrKey(field)) == Some(Arr(r.value.value))
      ensures r.Failure? <==> FieldErrorsEntry(field) != Null && !FieldErrorsEntry(field).Arr?
      ensures r.Failure? ==> r.error == TypeError
    {
      match FieldErrorsEntry(field)
      case Null => Success(None)
      case Arr(a) => Success(Some(a))
      case _ => Failure(TypeError)
    }

    /** `isset($this->errors[$field]) && !empty($this->errors[$field])`. */
    predicate HasFieldError(field: string)
      ensures HasFieldError(field) ==> HasErrors() && FieldErrorsEntry(field) != Null
      ensures HasFieldError(field) <==> !Falsy(FieldErrorsEntry(field))
    {
      errors.Some? && IsSet(errors.value, StrKey(field)) && !Falsy(Get(errors.value, StrKey(field)))
    }
  }

  /** `new ApiException($message, $code, $errors)`: everything is stored unchanged. */
  function NewApiException(message: string, code: int := 0, errors: Option<PhpArray> := None): (e: ApiException)
    ensures e.kind == Generic && e.message == message && e.code == code && e.errors == errors
  {
    ApiException(Generic, message, code, errors)
  }

  /** `new ValidationException($message, $errors)`: code 422 whatever the HTTP status. */
  function NewValidationException(message: string := "Validation failed", errors: Option<PhpArray> := None): (e: ApiException)
    ensures e.kind == Validation && e.code == 422
    ensures e.message == message && e.errors == errors
    ensures e.HasErrors() <==> errors.Some? && errors.value != []
  {
    ApiException(Validation, message, 422, errors)
  }

  /** `new AuthenticationException($message)`: code 401, never field errors. */
  function NewAuthenticationException(message: string := "Authentication failed"): (e: ApiException)
    ensures e.kind == Authentication && e.code == 401 && e.message == message && e.errors == None
    ensures !e.HasErrors() && e.GetFirstError() == Success(None)
    ensures forall f :: !e.HasFieldError(f) && e.GetFieldErrors(f) == Success(None)
  {
    ApiException(Authentication, message, 401, None)
  }

  /** `new NotFoundException($message)`: code 404, never field errors. */
  function NewNotFoundException(message: string := "Resource not found"): (e: ApiException)
    ensures e.kind == NotFound && e.code == 404 && e.message == message && e.errors == None
    ensures !e.HasErrors() && e.GetFirstError() == Success(None)
    ensures forall f :: !e.HasFieldError(f) && e.GetFieldErrors(f) == Success(None)
  {
    ApiException(NotFound, message, 404, None)
  }

  /** `new ServerException($message)`: code 500, never field errors. */
  function NewServerException(message: string := "Server error"): (e: ApiException)
    ensures e.kind == Server && e.code == 500 && e.message == message && e.errors == None
    ensures !e.HasErrors() && e.GetFirstError() == Success(None)
    ensures forall f :: !e.HasFieldError(f) && e.GetFieldErrors(f) == Success(None)
  {
    ApiException(Server, message, 500, None)
  }

  /** What a call can throw: an ApiException; a PHP TypeError where a value of the wrong
      type reaches a typed parameter, property or return; or an exception of the HTTP
      library that the client does not catch. */
  datatype Raised = Api(ex: ApiException) | TypeError | Transport(message: string)

  /** `throw new ApiException($message)`, the façades' pre-flight failure. */
  function Reject(message: string): Raised {
    Api(NewApiException(message))
  }

  // ---------------------------------------------------------------------
  // Ordered validation chains: each check passes, throws an ApiException with a
  // fixed message, or raises a TypeError; the first check that does not pass wins.

  datatype Check = Pass | Fail(message: string) | Crash

  /** A check that passes when `ok` holds and otherwise throws `message`. */
  function Require(ok: bool, message: string): (c: Check)
    ensures c.Pass? <==> ok
    ensures !ok ==> c == Fail(message)
  {
    if ok then Pass else Fail(message)
  }

  function Outcome(c: Check): Option<Raised> {
    match c
    case Pass => None
    case Fail(m) => Some(Reject(m))
    case Crash => Some(TypeError)
  }

  predicate AllPass(cs: seq<Check>) {
    forall i :: 0 <= i < |cs| ==> cs[i].Pass?
  }

  /** Run the checks in order and report the first one that does not pass. */
  function FirstFailure(cs: seq<Check>): (r: Option<Raised>)
    ensures r.None? <==> AllPass(cs)
    ensures forall i :: 0 <= i < |cs| && !cs[i].Pass? && AllPass(cs[..i]) ==> r == Outcome(cs[i])
  {
    if cs == [] then None
    else if !cs[0].Pass? then Outcome(cs[0])
    else
      AllPassTail(cs);
      FirstFailure(cs[1..])
  }

  /** A prefix of checks that starts with a pass passes exactly when the rest of it does. */
  lemma AllPassTail(cs: seq<Check>)
    requires cs != [] && cs[0].Pass?
    ensures forall i :: 1 <= i <= |cs| ==> (AllPass(cs[..i]) <==> AllPass(cs[1..][..i - 1]))
    ensures forall i :: 1 <= i < |cs| ==> cs[1..][i - 1] == cs[i]
  {
    forall i | 1 <= i <= |cs|
      ensures AllPass(cs[..i]) <==> AllPass(cs[1..][..i - 1])
    {
      assert cs[1..][..i - 1] == cs[1..i];
      assert forall j :: 1 <= j < i ==> cs[..i][j] == cs[1..i][j - 1];
    }
  }

  // ---------------------------------------------------------------------
  // Lemmas

  /** A ValidationException raised with the client's default errors `[]` reports no errors. */
  lemma ValidationWithoutErrors(message: string)
    ensures !NewValidationException(message, Some([])).HasErrors()
    ensures NewValidationException(message, Some([])).GetFirstError() == Success(None)
  {
  }

  /** getFirstError skips fields whose errors are empty: `{to: [], subject: ["required"]}` gives "required". */
  lemma FirstErrorSkipsEmptyField()
    ensures var errs := [(StrKey("to"), Arr([])), (StrKey("subject"), Arr(List([Str("required")])))];
            NewValidationException("Validation failed", Some(errs)).GetFirstError() == Success(Some("required"))
  {
    var errs := [(StrKey("to"), Arr([])), (StrKey("subject"), Arr(List([Str("required")])))];
    assert FirstListIndex(errs) == Some(1) by {
      assert !NonEmptyList(errs[0].1);
      assert errs[1..][0] == errs[1];
    }
  }

  /** A field whose errors are a non-empty array makes getFirstError non-null, provided the
      first such field's array is a list (has key 0). */
  lemma FirstErrorFound(e: ApiException, i: nat)
    requires e.errors.Some? && i < |e.errors.value|
    requires NonEmptyList(e.errors.value[i].1)
    requires forall j :: 0 <= j < |e.errors.value| && NonEmptyList(e.errors.value[j].1) ==>
               e.errors.value[j].1.entries[0] == (IntKey(0), e.errors.value[j].1.entries[0].1) &&
               e.errors.value[j].1.entries[0].1 != Null
    ensures e.FirstErrorEntry() != Null
  {
    var es := e.errors.value;
    match FirstListIndex(es)
    case None =>
    case Some(k) =>
      var a := es[k].1.entries;
      assert a[0].0 == IntKey(0);
      assert Lookup(a, IntKey(0)) == Some(a[0].1);
  }
}
