/** JavaScript values as the hooks see them: what `typeof` and `instanceof`
    report, and which own entries an object spread `{ ...v }` copies. */
module JsValues {

  datatype Option<+T> = None | Some(value: T)

  datatype Result<+T, +E> = Success(value: T) | Failure(error: E)

  /** What a hook throws: a TypeError raised by the engine itself (a property
      read on null or undefined), or an `Error` with the hook's own message. */
  datatype Thrown = TypeError | Error(message: string)

  /** The prototype of an object: `Object.prototype` (a plain object), none at
      all (`Object.create(null)`), or that of some class (a `Date`, a `Map`, ...). */
  datatype Proto = ObjectProto | NullProto | ClassProto(name: string)

  /** A JavaScript value. Numbers are integers; functions and symbols are known
      only by their identity; `fields` are an object's own enumerable
      string-keyed properties. */
  datatype Value =
    | Undefined
    | Null
    | Bool(b: bool)
    | Num(n: int)
    | BigInt(i: int)
    | Str(s: string)
    | Sym(id: nat)
    | Func(id: nat)
    | Arr(elems: seq<Value>)
    | Obj(fields: map<string, Value>, proto: Proto)

  /** The `typeof` operator. */
  function TypeOf(v: Value): string
  {
    match v
    case Undefined => "undefined"
    case Null => "object"
    case Bool(_) => "boolean"
    case Num(_) => "number"
    case BigInt(_) => "bigint"
    case Str(_) => "string"
    case Sym(_) => "symbol"
    case Func(_) => "function"
    case Arr(_) => "object"
    case Obj(_, _) => "object"
  }

  /** `v instanceof Object`: true of functions, arrays and every object whose
      prototype chain reaches `Object.prototype`. */
  predicate InstanceOfObject(v: Value)
  {
    v.Func? || v.Arr? || (v.Obj? && !v.proto.NullProto?)
  }

  /** An object literal's kind of value: a plain object. */
  predicate IsPlainObject(v: Value)
  {
    v.Obj? && v.proto == ObjectProto
  }

  function DigitChar(d: nat): char
    requires d < 10
  {
    "0123456789"[d]
  }

  /** The property key of an array or string index: its decimal digits. */
  function IndexKey(n: nat): string
    decreases n
  {
    if n < 10 then [DigitChar(n)] else IndexKey(n / 10) + [DigitChar(n % 10)]
  }

  /** The entries `{ ...vs }` makes of a sequence of indexed elements. */
  function Indexed(vs: seq<Value>): map<string, Value>
    decreases |vs|
  {
    if vs == [] then map[]
    else Indexed(vs[..|vs| - 1])[IndexKey(|vs| - 1) := vs[|vs| - 1]]
  }

  /** JavaScript truthiness: `false`, `0`, `0n`, `""`, `null` and `undefined`
      are falsy, every other value is truthy. */
  predicate Truthy(v: Value)
  {
    match v
    case Undefined => false
    case Null => false
    case Bool(b) => b
    case Num(n) => n != 0
    case BigInt(i) => i != 0
    case Str(s) => s != ""
    case _ => true
  }

  /** The methods an object inherits from the prototype of a built-in class,
      as far as the hooks probe them. */
  function InheritedMethods(proto: Proto): set<string>
  {
    match proto
    case ClassProto(name) =>
      if name == "AsyncGenerator" || name == "Generator" then {"next", "return", "throw"}
      else if name == "Promise" then {"then", "catch", "finally"}
      else {}
    case _ => {}
  }

  /** A method inherited from a built-in prototype; which function it is
      plays no part here. */
  const BUILTIN_METHOD := Func(0)

  /** The property read `v[key]`: reading from null or undefined throws a
      TypeError; an own entry wins; then a method inherited from a built-in
      prototype; anything else reads as undefined (inherited properties such
      as `length` are not modelled). */
  function Property(v: Value, key: string): (r: Result<Value, Thrown>)
    ensures r.Failure? <==> v.Null? || v.Undefined?
    ensures r.Failure? ==> r.error == TypeError
    ensures r.Success? && key in Spread(v) ==> r.value == Spread(v)[key]
    ensures r.Success? && key !in Spread(v) && r.value != Undefined ==>
              v.Obj? && key in InheritedMethods(v.proto) && r.value.Func?
  {
    if v.Null? || v.Undefined? then Failure(TypeError)
    else if key in Spread(v) then Success(Spread(v)[key])
    else if v.Obj? && key in InheritedMethods(v.proto) then Success(BUILTIN_METHOD)
    else Success(Undefined)
  }

  /** The own enumerable string-keyed entries that a spread `{ ...v }` copies:
      an object's fields, the indexed elements of an array or of a string, and
      nothing for every other value (null and undefined included). */
  function Spread(v: Value): map<string, Value>
  {
    match v
    case Obj(fields, _) => fields
    case Arr(elems) => Indexed(elems)
    case Str(s) => Indexed(seq(|s|, i requires 0 <= i < |s| => Str([s[i]])))
    case _ => map[]
  }
}
