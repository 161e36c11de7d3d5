/** The PHP built-ins the SDK leans on. Their exact algorithms (base64, JSON,
    RFC 5322 address syntax, date parsing) are not part of this model: they are
    function values handed to the model, so every property proved here holds for
    any implementation of them. */
module PhpRuntime {
  import opened PhpValues

  /** A PHP DateTime: a Unix timestamp in seconds and the UTC offset it is shown in. */
  datatype DateTime = DateTime(timestamp: int, offset: int)

  /** `new \DateTime('@' . $ts)`: the instant `$ts`, shown in UTC. */
  function FromUnix(ts: int): DateTime {
    DateTime(ts, 0)
  }

  /** `$ts ? new \DateTime('@' . $ts) : null`: a null or zero timestamp has no date. */
  function TimestampDateTime(ts: Option<int>): (r: Option<DateTime>)
    ensures r.Some? <==> ts.Some? && ts.value != 0
    ensures r.Some? ==> r.value == FromUnix(ts.value)
  {
    if ts.Some? && ts.value != 0 then Some(FromUnix(ts.value)) else None
  }

  datatype Library = Library(
    /** base64_encode. */
    base64Encode: string -> string,
    /** json_decode($s, true): the value, or the text of json_last_error_msg(). */
    jsonDecode: string -> Result<Value, string>,
    /** json_encode($v): the text, or None where it returns false. */
    jsonEncode: Value -> Option<string>,
    /** filter_var($s, FILTER_VALIDATE_EMAIL) !== false. */
    isEmail: string -> bool,
    /** basename. */
    basename: string -> string,
    /** DateTime::createFromFormat('Y-m-d\TH:i:sP', $s), null where it returns false. */
    parseIso8601: string -> Option<DateTime>,
    /** $d->format('Y-m-d\TH:i:sP'), which is also what format('c') gives. */
    formatIso8601: DateTime -> string,
    /** (int) $s: the leading decimal integer of a string, 0 when there is none. */
    intOfString: string -> int
  )

  /** PHP's `(int)` cast of a non-float value. */
  function IntCast(lib: Library, v: Value): int {
    match v
    case Null => 0
    case Bool(b) => if b then 1 else 0
    case Int(i) => i
    case Str(s) => lib.intOfString(s)
    case Arr(e) => if e == [] then 0 else 1
  }
}
