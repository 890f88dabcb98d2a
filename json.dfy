/**
 * JSON values, and the parts of Go's encoding/json decoding rules that the
 * request types rely on: struct members matched to fields by name (exactly,
 * else case-insensitively), later duplicate members overwriting earlier ones,
 * `null` leaving a field as it was, type mismatches saved while decoding goes
 * on, and errors from a type's own UnmarshalJSON aborting the decode.
 */
module Json {
  import opened Wrappers

  /** A JSON value after lexing: numbers are exact decimals, strings are unescaped. */
  datatype Json =
    | Null
    | Bool(b: bool)
    | Number(n: real)
    | String(s: string)
    | Array(items: seq<Json>)
    | Object(members: seq<(string, Json)>)

  /** The kind of a value, as an UnmarshalTypeError names it. */
  function Kind(j: Json): string {
    match j
    case Null => "null"
    case Bool(_) => "bool"
    case Number(_) => "number"
    case String(_) => "string"
    case Array(_) => "array"
    case Object(_) => "object"
  }

  datatype JsonError =
    | TypeError(value: string, target: string)  // a value of the wrong kind for its Go type
    | CustomError(message: string)              // an error returned by a type's own UnmarshalJSON

  /** The new contents of a Go variable after decoding into it, with the first type error saved on the way. */
  datatype Decoded<T> = Decoded(value: T, saved: Option<JsonError>)

  function FirstError(a: Option<JsonError>, b: Option<JsonError>): Option<JsonError> {
    if a.Some? then a else b
  }

  /**
   * Simple case folding as far as it can make a character equal to an ASCII
   * letter: ASCII upper case, the Kelvin sign and the long s.
   */
  function FoldChar(c: char): char {
    if 'A' <= c <= 'Z' then (c as int + 32) as char
    else if c == '\U{212A}' then 'k'
    else if c == '\U{17F}' then 's'
    else c
  }

  predicate FoldEq(a: string, b: string) {
    |a| == |b| && forall i :: 0 <= i < |a| ==> FoldChar(a[i]) == FoldChar(b[i])
  }

  function IndexWhere(names: seq<string>, key: string, exact: bool): (r: Option<nat>)
    ensures r.Some? ==> r.value < |names| && (if exact then names[r.value] == key else FoldEq(key, names[r.value]))
    ensures r.Some? ==> forall i :: 0 <= i < r.value ==> !(if exact then names[i] == key else FoldEq(key, names[i]))
    ensures r.None? ==> forall i :: 0 <= i < |names| ==> !(if exact then names[i] == key else FoldEq(key, names[i]))
  {
    if names == [] then None
    else if (if exact then names[0] == key else FoldEq(key, names[0])) then Some(0)
    else match IndexWhere(names[1..], key, exact)
      case None => None
      case Some(i) => Some(i + 1)
  }

  /** The field an object member is stored in: the field of that exact name, else the first whose name folds to the key. */
  function MatchField(key: string, names: seq<string>): (r: Option<nat>)
    ensures r.Some? ==> r.value < |names| && FoldEq(key, names[r.value])
    ensures r.None? ==> forall i :: 0 <= i < |names| ==> !FoldEq(key, names[i])
  {
    var exact := IndexWhere(names, key, true);
    if exact.Some? then
      assert FoldEq(key, names[exact.value]);
      exact
    else
      assert forall i :: 0 <= i < |names| ==> names[i] != key;
      IndexWhere(names, key, false)
  }

  /** Decoding into a Go string that holds `held`. */
  function DecodeString(j: Json, held: string): (r: Decoded<string>)
    ensures r.saved.None? <==> j.Null? || j.String?
    ensures r.value == if j.String? then j.s else held
  {
    match j
    case Null => Decoded(held, None)
    case String(s) => Decoded(s, None)
    case _ => Decoded(held, Some(TypeError(Kind(j), "string")))
  }

  /** Decoding into a Go float64 that holds `held` (numbers are carried as exact reals). */
  function DecodeFloat(j: Json, held: real): (r: Decoded<real>)
    ensures r.saved.None? <==> j.Null? || j.Number?
    ensures r.value == if j.Number? then j.n else held
  {
    match j
    case Null => Decoded(held, None)
    case Number(n) => Decoded(n, None)
    case _ => Decoded(held, Some(TypeError(Kind(j), "float64")))
  }

  function DecodeStringItems(items: seq<Json>, held: seq<string>): (r: Decoded<seq<string>>)
    ensures |r.value| == |items|
    ensures forall k :: 0 <= k < |items| && items[k].String? ==> r.value[k] == items[k].s
    ensures r.saved.None? <==> forall k :: 0 <= k < |items| ==> items[k].Null? || items[k].String?
  {
    if items == [] then Decoded([], None)
    else
      var head := DecodeString(items[0], if held != [] then held[0] else "");
      var rest := DecodeStringItems(items[1..], if held != [] then held[1..] else []);
      assert forall k :: 1 <= k < |items| ==> items[k] == items[1..][k - 1];
      Decoded([head.value] + rest.value, FirstError(head.saved, rest.saved))
  }

  /** Decoding into a Go []string that holds `held`: null empties it, an array replaces it element by element. */
  function DecodeStrings(j: Json, held: seq<string>): (r: Decoded<seq<string>>)
    ensures r.saved.None? ==> j.Null? || j.Array?
    ensures j.Null? ==> r == Decoded([], None)
    ensures j.Array? ==> |r.value| == |j.items|
  {
    match j
    case Null => Decoded([], None)
    case Array(items) => DecodeStringItems(items, held)
    case _ => Decoded(held, Some(TypeError(Kind(j), "[]string")))
  }

  /** What storing one member's value into field number `field` of the struct did. */
  datatype Step<S> = Continue(state: S, saved: Option<JsonError>) | Abort(error: JsonError)

  /** The members of an object, stored in order into the fields they match; members that match no field are skipped. */
  function DecodeMembers<S>(members: seq<(string, Json)>, names: seq<string>, store: (S, nat, Json) -> Step<S>,
                            acc: S, saved: Option<JsonError>): Result<Decoded<S>, JsonError>
    decreases |members|
  {
    if members == [] then Ok(Decoded(acc, saved))
    else match MatchField(members[0].0, names)
      case None => DecodeMembers(members[1..], names, store, acc, saved)
      case Some(i) =>
        match store(acc, i, members[0].1)
        case Abort(e) => Err(e)
        case Continue(next, e) => DecodeMembers(members[1..], names, store, next, FirstError(saved, e))
  }

  /**
   * json.Unmarshal into a struct holding `init`: null leaves it as it is, an
   * object is decoded member by member, anything else is a type error; a saved
   * type error is returned once the object has been read.
   */
  function DecodeStruct<S>(j: Json, typeName: string, names: seq<string>, store: (S, nat, Json) -> Step<S>, init: S): (r: Result<S, JsonError>)
    ensures j.Null? ==> r == Ok(init)
    ensures !j.Null? && !j.Object? ==> r == Err(TypeError(Kind(j), typeName))
  {
    match j
    case Null => Ok(init)
    case Object(members) =>
      (match DecodeMembers(members, names, store, init, None)
       case Err(e) => Err(e)
       case Ok(Decoded(v, None)) => Ok(v)
       case Ok(Decoded(_, Some(e))) => Err(e))
    case _ => Err(TypeError(Kind(j), typeName))
  }

  /**
   * A field that no member's key names, in any letter case, keeps what it
   * held, provided storing into the other fields leaves it alone. Field
   * number `k` is the one that may write it; `k` beyond the names means none may.
   */
  lemma {:induction false} MembersKeep<S, T>(members: seq<(string, Json)>, names: seq<string>, store: (S, nat, Json) -> Step<S>,
                                               acc: S, saved: Option<JsonError>, k: nat, field: S -> T)
    requires k < |names| ==> forall i :: 0 <= i < |members| ==> !FoldEq(members[i].0, names[k])
    requires forall st: S, i: nat, v: Json :: i < |names| && i != k && store(st, i, v).Continue? ==> field(store(st, i, v).state) == field(st)
    ensures DecodeMembers(members, names, store, acc, saved).Ok? ==> field(DecodeMembers(members, names, store, acc, saved).value.value) == field(acc)
    decreases |members|
  {
    if members != [] {
      assert forall i :: 0 <= i < |members[1..]| ==> members[1..][i] == members[i + 1];
      match MatchField(members[0].0, names)
      case None =>
        MembersKeep(members[1..], names, store, acc, saved, k, field);
      case Some(i) =>
        match store(acc, i, members[0].1)
        case Abort(_) =>
        case Continue(next, e) =>
          MembersKeep(members[1..], names, store, next, FirstError(saved, e), k, field);
    }
  }

  /** DecodeStruct leaves a field no key names as it was. */
  lemma FieldKept<S, T>(j: Json, typeName: string, names: seq<string>, store: (S, nat, Json) -> Step<S>, init: S,
                            k: nat, field: S -> T)
    requires j.Object? && k < |names| ==> forall i :: 0 <= i < |j.members| ==> !FoldEq(j.members[i].0, names[k])
    requires forall st: S, i: nat, v: Json :: i < |names| && i != k && store(st, i, v).Continue? ==> field(store(st, i, v).state) == field(st)
    ensures DecodeStruct(j, typeName, names, store, init).Ok? ==> field(DecodeStruct(j, typeName, names, store, init).value) == field(init)
  {
    if j.Object? {
      MembersKeep(j.members, names, store, init, None, k, field);
    }
  }
}
