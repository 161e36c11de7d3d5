/** PHP values as the client library handles them: decoded JSON payloads,
    request parameters and header arrays are all PHP arrays, that is ordered
    maps from integer or string keys to values. */
module PhpValues {

  datatype Option<+T> = None | Some(value: T)

  datatype Result<+T, +E> = Success(value: T) | Failure(error: E)

  /** A key of a PHP array. */
  datatype Key = IntKey(i: int) | StrKey(s: string)

  /** A PHP value as produced by json_decode(..., true) or written as a literal. */
  datatype Value =
    | Null
    | Bool(b: bool)
    | Int(i: int)
    | Str(s: string)
    | Arr(entries: seq<(Key, Value)>)

  /** A PHP array: its entries in insertion order. */
  type PhpArray = seq<(Key, Value)>

  /** The keys of an array, in order. */
  function KeysOf(a: PhpArray): (ks: seq<Key>)
    ensures |ks| == |a|
    ensures forall i :: 0 <= i < |a| ==> ks[i] == a[i].0
  {
    if a == [] then [] else [a[0].0] + KeysOf(a[1..])
  }

  /** Every array PHP builds has pairwise distinct keys. */
  ghost predicate UniqueKeys(a: PhpArray) {
    forall i, j :: 0 <= i < j < |a| ==> a[i].0 != a[j].0
  }

  /** Position of the entry with key `k`. */
  function IndexOf(a: PhpArray, k: Key): (r: Option<nat>)
    ensures r.Some? ==> r.value < |a| && a[r.value].0 == k
    ensures r.Some? ==> forall j :: 0 <= j < r.value ==> a[j].0 != k
    ensures r.None? ==> forall j :: 0 <= j < |a| ==> a[j].0 != k
  {
    if a == [] then None
    else if a[0].0 == k then Some(0)
    else match IndexOf(a[1..], k)
      case None => None
      case Some(j) => Some(j + 1)
  }

  /** The value stored under `k`, if the key is present (the first entry with that key). */
  function Lookup(a: PhpArray, k: Key): (r: Option<Value>)
  {
    if a == [] then None
    else if a[0].0 == k then Some(a[0].1)
    else Lookup(a[1..], k)
  }

  /** A key has an entry exactly when it is one of the array's keys. */
  lemma {:induction false} LookupKeys(a: PhpArray, k: Key)
    ensures Lookup(a, k).Some? <==> k in KeysOf(a)
  {
    if a != [] {
      LookupKeys(a[1..], k);
      assert KeysOf(a) == [a[0].0] + KeysOf(a[1..]);
    }
  }

  /** `$a[$k] ?? null`: the stored value, or null when the key is absent. */
  function Get(a: PhpArray, k: Key): Value {
    match Lookup(a, k)
    case None => Null
    case Some(v) => v
  }

  /** `isset($a[$k])`: the key is present and its value is not null. */
  predicate IsSet(a: PhpArray, k: Key) {
    Get(a, k) != Null
  }

  /** `$v[$name] ?? null` where `$v` may be anything: only arrays have entries. */
  function Field(v: Value, name: string): Value {
    if v.Arr? then Get(v.entries, StrKey(name)) else Null
  }

  /** `$x ?? $default` for a value already read with `??` semantics. */
  function Coalesce(v: Value, default: Value): (r: Value)
    ensures v != Null ==> r == v
    ensures v == Null ==> r == default
  {
    if v != Null then v else default
  }

  /** `$a[$k] = $v`: overwrite in place when the key exists, append otherwise. */
  function Put(a: PhpArray, k: Key, v: Value): (r: PhpArray)
    ensures Lookup(r, k) == Some(v)
    ensures forall k' :: k' != k ==> Lookup(r, k') == Lookup(a, k')
    ensures KeysOf(r) == if k in KeysOf(a) then KeysOf(a) else KeysOf(a) + [k]
  {
    if a == [] then [(k, v)]
    else if a[0].0 == k then [(k, v)] + a[1..]
    else [a[0]] + Put(a[1..], k, v)
  }

  /** PHP's `empty()`: null, false, 0, "", "0" and the empty array. */
  predicate Falsy(v: Value) {
    match v
    case Null => true
    case Bool(b) => !b
    case Int(i) => i == 0
    case Str(s) => s == "" || s == "0"
    case Arr(e) => e == []
  }

  /** The values a `foreach` over `$v` visits: none unless `$v` is an array. */
  function Items(v: Value): (r: seq<Value>)
    ensures v.Arr? ==> |r| == |v.entries| && forall i :: 0 <= i < |r| ==> r[i] == v.entries[i].1
    ensures !v.Arr? ==> r == []
  {
    if v.Arr? then seq(|v.entries|, i requires 0 <= i < |v.entries| => v.entries[i].1) else []
  }

  /** A list literal `[$x0, $x1, ...]`: keys 0, 1, ... */
  function List(xs: seq<Value>): (a: PhpArray)
    ensures |a| == |xs|
    ensures forall i :: 0 <= i < |xs| ==> a[i] == (IntKey(i), xs[i])
  {
    seq(|xs|, i requires 0 <= i < |xs| => (IntKey(i), xs[i]))
  }

  // ---------------------------------------------------------------------
  // array_merge

  /** Number of integer keys: after renumbering they are exactly 0 .. n-1. */
  function IntKeyCount(a: PhpArray): nat {
    if a == [] then 0 else (if a[|a| - 1].0.IntKey? then 1 else 0) + IntKeyCount(a[..|a| - 1])
  }

  /** One step of array_merge: string keys overwrite, integer keys are appended and renumbered. */
  function MergeEntry(acc: PhpArray, e: (Key, Value)): PhpArray {
    match e.0
    case StrKey(_) => Put(acc, e.0, e.1)
    case IntKey(_) => acc + [(IntKey(IntKeyCount(acc)), e.1)]
  }

  function MergeAll(acc: PhpArray, b: PhpArray): PhpArray
    decreases |b|
  {
    if b == [] then acc else MergeAll(MergeEntry(acc, b[0]), b[1..])
  }

  /** `array_merge($a, $b)`. */
  function Merge(a: PhpArray, b: PhpArray): PhpArray {
    MergeAll(MergeAll([], a), b)
  }

  lemma {:induction false} LookupAppendOther(a: PhpArray, e: (Key, Value), k: Key)
    requires e.0 != k
    ensures Lookup(a + [e], k) == Lookup(a, k)
  {
    if a != [] {
      assert (a + [e])[1..] == a[1..] + [e];
      LookupAppendOther(a[1..], e, k);
    }
  }

  /** The lookup of a string key in a fold of array_merge steps: the merged-in entries win. */
  lemma {:induction false} MergeAllLookup(acc: PhpArray, b: PhpArray, s: string)
    requires UniqueKeys(b)
    ensures Lookup(MergeAll(acc, b), StrKey(s)) ==
            if StrKey(s) in KeysOf(b) then Lookup(b, StrKey(s)) else Lookup(acc, StrKey(s))
    decreases |b|
  {
    if b != [] {
      var k := StrKey(s);
      var rest := b[1..];
      assert UniqueKeys(rest) by {
        forall i, j | 0 <= i < j < |rest| ensures rest[i].0 != rest[j].0 {
          assert rest[i] == b[i + 1] && rest[j] == b[j + 1];
        }
      }
      MergeAllLookup(MergeEntry(acc, b[0]), rest, s);
      if k in KeysOf(rest) {
        assert b[0].0 != k by {
          var j :| 0 <= j < |rest| && KeysOf(rest)[j] == k;
          assert rest[j] == b[j + 1];
        }
        assert Lookup(b, k) == Lookup(rest, k);
      } else {
        match b[0].0
        case StrKey(_) =>
        case IntKey(_) =>
          LookupAppendOther(acc, (IntKey(IntKeyCount(acc)), b[0].1), k);
      }
    }
  }

  /** array_merge: a string key of `b` takes its value from `b`; any other string key keeps `a`'s. */
  lemma MergeLookup(a: PhpArray, b: PhpArray, s: string)
    requires UniqueKeys(a) && UniqueKeys(b)
    ensures Lookup(Merge(a, b), StrKey(s)) ==
            if StrKey(s) in KeysOf(b) then Lookup(b, StrKey(s)) else Lookup(a, StrKey(s))
  {
    MergeAllLookup([], a, s);
    MergeAllLookup(MergeAll([], a), b, s);
    LookupKeys(a, StrKey(s));
  }

  // ---------------------------------------------------------------------
  // Decimal rendering of integer keys (`$key . '[' . $index . ']'`)

  function DigitChar(d: int): char
    requires 0 <= d < 10
  {
    "0123456789"[d]
  }

  function NatToString(n: nat): (s: string)
    ensures |s| >= 1
    decreases n
  {
    if n < 10 then [DigitChar(n)] else NatToString(n / 10) + [DigitChar(n % 10)]
  }

  /** PHP's conversion of an integer to a string. */
  function IntToString(i: int): string {
    if i < 0 then "-" + NatToString(-i) else NatToString(i)
  }

  /** The text of an array key when it is concatenated to a string. */
  function KeyText(k: Key): string {
    match k
    case StrKey(s) => s
    case IntKey(i) => IntToString(i)
  }

  /** `implode($sep, $xs)`. */
  function Join(sep: string, xs: seq<string>): string {
    if xs == [] then "" else if |xs| == 1 then xs[0] else xs[0] + sep + Join(sep, xs[1..])
  }

  predicate StartsWith(s: string, prefix: string) {
    |prefix| <= |s| && s[..|prefix|] == prefix
  }

  // ---------------------------------------------------------------------
  // Typed properties: `?int`, `?string`, `?bool` and `?array` fields of the
  // model classes. Assigning a value of another type raises a TypeError.

  predicate IsIntOrNull(v: Value) { v.Null? || v.Int? }
  predicate IsStrOrNull(v: Value) { v.Null? || v.Str? }
  predicate IsBoolOrNull(v: Value) { v.Null? || v.Bool? }
  predicate IsArrOrNull(v: Value) { v.Null? || v.Arr? }

  function AsInt(v: Value): Option<int>
    requires IsIntOrNull(v)
  {
    if v.Int? then Some(v.i) else None
  }

  function AsStr(v: Value): Option<string>
    requires IsStrOrNull(v)
  {
    if v.Str? then Some(v.s) else None
  }

  function AsBool(v: Value): Option<bool>
    requires IsBoolOrNull(v)
  {
    if v.Bool? then Some(v.b) else None
  }

  function AsArr(v: Value): Option<PhpArray>
    requires IsArrOrNull(v)
  {
    if v.Arr? then Some(v.entries) else None
  }

  function OfInt(o: Option<int>): (v: Value)
    ensures IsIntOrNull(v) && AsInt(v) == o
  {
    match o
    case None => Null
    case Some(i) => Int(i)
  }

  function OfStr(o: Option<string>): (v: Value)
    ensures IsStrOrNull(v) && AsStr(v) == o
  {
    match o
    case None => Null
    case Some(s) => Str(s)
  }

  function OfBool(o: Option<bool>): (v: Value)
    ensures IsBoolOrNull(v) && AsBool(v) == o
  {
    match o
    case None => Null
    case Some(b) => Bool(b)
  }

  function OfArr(o: Option<PhpArray>): (v: Value)
    ensures IsArrOrNull(v) && AsArr(v) == o
  {
    match o
    case None => Null
    case Some(a) => Arr(a)
  }

  /** Converting a well-typed value to its property type and back gives it again. */
  lemma StoredValue(v: Value)
    ensures IsIntOrNull(v) ==> OfInt(AsInt(v)) == v
    ensures IsStrOrNull(v) ==> OfStr(AsStr(v)) == v
    ensures IsBoolOrNull(v) ==> OfBool(AsBool(v)) == v
    ensures IsArrOrNull(v) ==> OfArr(AsArr(v)) == v
  {
  }

  // ---------------------------------------------------------------------
  // Record arrays: what `new Model($d)` followed by `toArray()` gives back.

  function StrKeys(ks: seq<string>): (r: seq<Key>)
    ensures |r| == |ks| && forall i :: 0 <= i < |ks| ==> r[i] == StrKey(ks[i])
  {
    seq(|ks|, i requires 0 <= i < |ks| => StrKey(ks[i]))
  }

  predicate Distinct(ks: seq<string>) {
    forall i, j :: 0 <= i < j < |ks| ==> ks[i] != ks[j]
  }

  /** A record literal `[k0 => v0, k1 => v1, ...]` with the string keys `ks`. */
  function Record(ks: seq<string>, vs: seq<Value>): (r: PhpArray)
    requires |vs| == |ks|
    ensures KeysOf(r) == StrKeys(ks)
    ensures forall i :: 0 <= i < |ks| ==> r[i] == (StrKey(ks[i]), vs[i])
  {
    seq(|ks|, i requires 0 <= i < |ks| => (StrKey(ks[i]), vs[i]))
  }

  /** Reading key `ks[i]` of a record literal with distinct keys gives `vs[i]`. */
  lemma RecordGet(ks: seq<string>, vs: seq<Value>)
    requires |vs| == |ks| && Distinct(ks)
    ensures forall i :: 0 <= i < |ks| ==> Get(Record(ks, vs), StrKey(ks[i])) == vs[i]
  {
    var r := Record(ks, vs);
    assert UniqueKeys(r) by {
      forall i, j | 0 <= i < j < |r| ensures r[i].0 != r[j].0 {
        assert r[i].0 == StrKey(ks[i]) && r[j].0 == StrKey(ks[j]);
      }
    }
    forall i | 0 <= i < |ks| ensures Get(r, StrKey(ks[i])) == vs[i] {
      LookupUnique(r, i);
    }
  }

  /** `[k0 => $d[k0] ?? null, k1 => $d[k1] ?? null, ...]` for the fixed key list `ks`. */
  function Project(d: PhpArray, ks: seq<string>): (r: PhpArray)
    ensures KeysOf(r) == StrKeys(ks)
    ensures forall i :: 0 <= i < |ks| ==> r[i].1 == Get(d, StrKey(ks[i]))
  {
    seq(|ks|, i requires 0 <= i < |ks| => (StrKey(ks[i]), Get(d, StrKey(ks[i]))))
  }

  lemma {:induction false} LookupUnique(a: PhpArray, i: int)
    requires UniqueKeys(a) && 0 <= i < |a|
    ensures Lookup(a, a[i].0) == Some(a[i].1)
  {
    if i > 0 {
      assert a[0].0 != a[i].0;
      assert a[1..][i - 1] == a[i];
      LookupUnique(a[1..], i - 1);
    }
  }

  /** An array whose keys are exactly `ks`, in that order, is its own projection:
      building a record from it and converting back gives the same array. */
  lemma ProjectIdentity(d: PhpArray, ks: seq<string>)
    requires KeysOf(d) == StrKeys(ks) && Distinct(ks)
    ensures Project(d, ks) == d
  {
    assert UniqueKeys(d) by {
      forall i, j | 0 <= i < j < |d| ensures d[i].0 != d[j].0 {
        assert KeysOf(d)[i] == StrKey(ks[i]) && KeysOf(d)[j] == StrKey(ks[j]);
      }
    }
    var p := Project(d, ks);
    forall i | 0 <= i < |d| ensures p[i] == d[i] {
      LookupUnique(d, i);
      assert KeysOf(d)[i] == d[i].0 && KeysOf(p)[i] == p[i].0;
    }
  }
}
