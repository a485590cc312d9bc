/** The values gel expressions compute, and the host's conversions and
    property reads on them that the core depends on. Arrays, objects and
    functions are compared by reference in the host; the model has no
    references, so comparing two of them is Unsupported. */
module Values {
  import opened Errors
  import Syntax
  import opened Numbers

  /** The builtins the core models; every other registry entry is `Other`. */
  datatype BuiltinName =
    | Cond | Not | StrictEq | StrictNotEq | Or | Pipe | And
    | ObjectOf | ArrayOf | MapOver | Filter | FindOne | Concat | Join | Slice
    | Last | Length | GetValue | Compare | CharAt | Refine
    | Fold | PartialOf | Flip | Compose | Apply
    | Other(name: string)

  datatype Value =
    | Undefined
    | Null
    | Bool(b: bool)
    | Num(n: Number)
    | Str(s: string)
    | Arr(items: seq<Value>)
    | Obj(fields: seq<Field>)    // own properties in insertion order
    | Fn(f: Func)

  datatype Field = Field(key: string, value: Value)

  /** The functions a gel program can hold: registry entries, literals
      `{params body}`, and the closures `partial`, `flip` and `compose`
      return. */
  datatype Func =
    | Builtin(name: BuiltinName)
    | Closure(params: seq<string>, body: Option<Syntax.Token>)
    | Partial(target: Value, bound: seq<Value>)
    | Flipped(target: Value, fixed: seq<Value>)
    | Composed(stages: seq<Value>)

  /** The `functions` registry, in its declaration order. */
  const Registry: seq<(string, BuiltinName)> := [
    ("toString", Other("toString")), ("+", Other("+")), ("-", Other("-")), ("/", Other("/")),
    ("*", Other("*")), ("isNaN", Other("isNaN")), ("max", Other("max")), ("min", Other("min")),
    (">", Other(">")), ("<", Other("<")), (">=", Other(">=")), ("<=", Other("<=")),
    ("double", Other("double")), ("?", Cond), ("!", Not), ("=", Other("=")), ("==", StrictEq),
    ("!=", Other("!=")), ("!==", StrictNotEq), ("||", Or), ("|", Pipe), ("&&", And),
    ("object", ObjectOf), ("array", ArrayOf), ("map", MapOver), ("sort", Other("sort")),
    ("filter", Filter), ("findOne", FindOne), ("concat", Concat), ("join", Join),
    ("slice", Slice), ("last", Last), ("length", Length), ("getValue", GetValue),
    ("compare", Compare), ("contains", Other("contains")), ("charAt", CharAt),
    ("toLowerCase", Other("toLowerCase")), ("format", Other("format")), ("refine", Refine),
    ("date", Other("date")), ("toJSON", Other("toJSON")), ("fromJSON", Other("fromJSON")),
    ("fold", Fold), ("partial", PartialOf), ("flip", Flip), ("compose", Compose), ("apply", Apply)
  ]

  // ---------------------------------------------------------------- truth and identity

  /** The host's boolean coercion. */
  predicate Truthy(v: Value) {
    match v
    case Undefined => false
    case Null => false
    case Bool(b) => b
    case Num(n) => !(n == Int(0) || n == NaN)
    case Str(s) => s != []
    case _ => true
  }

  /** `===`. Two arrays, two objects or two functions are equal only when
      they are the same reference, which values do not record. */
  function StrictEquals(a: Value, b: Value): (r: Result<bool>)
    ensures r.Err? <==> (a.Arr? && b.Arr?) || (a.Obj? && b.Obj?) || (a.Fn? && b.Fn?)
    ensures r.Ok? && r.value ==> a == b
    ensures a == b && r.Ok? ==> (r.value <==> a != Num(NaN))
  {
    match (a, b)
    case (Undefined, Undefined) => Ok(true)
    case (Null, Null) => Ok(true)
    case (Bool(x), Bool(y)) => Ok(x == y)
    case (Num(x), Num(y)) => Ok(x == y && x != NaN)
    case (Str(x), Str(y)) => Ok(x == y)
    case (Arr(_), Arr(_)) => Err(Unsupported)
    case (Obj(_), Obj(_)) => Err(Unsupported)
    case (Fn(_), Fn(_)) => Err(Unsupported)
    case _ => Ok(false)
  }

  // ---------------------------------------------------------------- text

  /** The host's `String(v)`. An object with its own `toString` or
      `valueOf`, and any function (whose text is its source), are
      Unsupported. */
  function ToStr(v: Value): Result<string>
    decreases v, 1
  {
    match v
    case Undefined => Ok("undefined")
    case Null => Ok("null")
    case Bool(b) => Ok(if b then "true" else "false")
    case Num(n) => NumberString(n)
    case Str(s) => Ok(s)
    case Arr(items) => JoinText(items, ",")
    case Obj(fields) =>
      if FieldIndex(fields, "toString").Some? || FieldIndex(fields, "valueOf").Some? then Err(Unsupported)
      else Ok("[object Object]")
    case Fn(_) => Err(Unsupported)
  }

  /** `Array.prototype.join`: items written with `ToStr`, except that
      undefined and null write as nothing. */
  function JoinText(items: seq<Value>, sep: string): Result<string>
    decreases items, 0
  {
    if items == [] then Ok("")
    else
      var first :- ItemText(items[0]);
      if |items| == 1 then Ok(first)
      else
        var rest :- JoinText(items[1..], sep);
        Ok(first + sep + rest)
  }

  function ItemText(v: Value): Result<string>
    decreases v, 2
  {
    if v.Undefined? || v.Null? then Ok("") else ToStr(v)
  }

  /** `ToNumber` of an argument used as a position; strings and objects
      would need the host's numeric parsing and are Unsupported. */
  function ToNumberArg(v: Value): Result<Number> {
    match v
    case Undefined => Ok(NaN)
    case Null => Ok(Int(0))
    case Bool(b) => Ok(Int(if b then 1 else 0))
    case Num(n) => Ok(n)
    case _ => Err(Unsupported)
  }

  // ---------------------------------------------------------------- objects

  function FieldIndex(fields: seq<Field>, key: string): (r: Option<nat>)
    ensures r.Some? ==> r.value < |fields| && fields[r.value].key == key
    ensures r.Some? ==> forall k :: 0 <= k < r.value ==> fields[k].key != key
    ensures r.None? ==> forall k :: 0 <= k < |fields| ==> fields[k].key != key
  {
    if fields == [] then None
    else if fields[0].key == key then Some(0)
    else
      match FieldIndex(fields[1..], key)
      case None => None
      case Some(k) => Some(k + 1)
  }

  predicate DistinctKeys(fields: seq<Field>) {
    forall j, k :: 0 <= j < k < |fields| ==> fields[j].key != fields[k].key
  }

  /** `o[key] = v` on a plain object: an existing key keeps its place, a
      new one goes last. `__proto__` would replace the prototype instead,
      which is not modelled. */
  function SetField(fields: seq<Field>, key: string, v: Value): (r: Result<seq<Field>>)
    ensures r.Err? <==> key == "__proto__"
    ensures r.Ok? && FieldIndex(fields, key).Some? ==>
              r.value == fields[FieldIndex(fields, key).value := Field(key, v)]
    ensures r.Ok? && FieldIndex(fields, key).None? ==> r.value == fields + [Field(key, v)]
  {
    if key == "__proto__" then Err(Unsupported)
    else
      match FieldIndex(fields, key)
      case Some(k) => Ok(fields[k := Field(key, v)])
      case None => Ok(fields + [Field(key, v)])
  }

  /** Names on `Object.prototype`. Reading one of them (or one of the
      names below) from a value that lacks it as an own property yields a
      host function or accessor, which the model calls Unsupported. */
  const ObjectNames: set<string> := {
    "constructor", "toString", "toLocaleString", "valueOf", "hasOwnProperty", "isPrototypeOf",
    "propertyIsEnumerable", "__proto__", "__defineGetter__", "__defineSetter__",
    "__lookupGetter__", "__lookupSetter__"
  }

  /** Names on `Array.prototype`. */
  const ArrayNames: set<string> := {
    "at", "concat", "copyWithin", "entries", "every", "fill", "filter", "find", "findIndex",
    "findLast", "findLastIndex", "flat", "flatMap", "forEach", "includes", "indexOf", "join",
    "keys", "lastIndexOf", "map", "pop", "push", "reduce", "reduceRight", "reverse", "shift",
    "slice", "some", "sort", "splice", "toReversed", "toSorted", "toSpliced", "unshift",
    "values", "with"
  }

  /** Names on `String.prototype`. */
  const StringNames: set<string> := {
    "anchor", "at", "big", "blink", "bold", "charAt", "charCodeAt", "codePointAt", "concat",
    "endsWith", "fixed", "fontcolor", "fontsize", "includes", "indexOf", "isWellFormed",
    "italics", "lastIndexOf", "link", "localeCompare", "match", "matchAll", "normalize",
    "padEnd", "padStart", "repeat", "replace", "replaceAll", "search", "slice", "small",
    "split", "startsWith", "strike", "sub", "substr", "substring", "sup",
    "toLocaleLowerCase", "toLocaleUpperCase", "toLowerCase", "toUpperCase", "toWellFormed",
    "trim", "trimEnd", "trimLeft", "trimRight", "trimStart"
  }

  /** Names on `Number.prototype` (`Boolean.prototype` adds none beyond
      the object names). */
  const NumberNames: set<string> := {"toExponential", "toFixed", "toPrecision"}

  /** `v[key]` as a read. */
  function Member(v: Value, key: string): (r: Result<Value>)
    ensures (v.Undefined? || v.Null?) <==> r == Err(TypeError)
    ensures v.Arr? && key == "length" ==> r == Ok(Num(Int(|v.items|)))
    ensures v.Arr? && ArrayIndex(key).Some? && ArrayIndex(key).value < |v.items| ==>
              r == Ok(v.items[ArrayIndex(key).value])
    ensures v.Obj? && FieldIndex(v.fields, key).Some? ==> r == Ok(v.fields[FieldIndex(v.fields, key).value].value)
  {
    match v
    case Undefined => Err(TypeError)
    case Null => Err(TypeError)
    case Str(s) =>
      var i := ArrayIndex(key);
      if i.Some? && i.value < |s| then Ok(Str([s[i.value]]))
      else if key == "length" then Ok(Num(Int(|s|)))
      else Inherited(key, ObjectNames + StringNames)
    case Arr(items) =>
      var i := ArrayIndex(key);
      if i.Some? && i.value < |items| then Ok(items[i.value])
      else if key == "length" then Ok(Num(Int(|items|)))
      else Inherited(key, ObjectNames + ArrayNames)
    case Obj(fields) =>
      (match FieldIndex(fields, key)
       case Some(k) => Ok(fields[k].value)
       case None => Inherited(key, ObjectNames))
    case Fn(_) => Err(Unsupported)
    case Num(_) => Inherited(key, ObjectNames + NumberNames)
    case Bool(_) => Inherited(key, ObjectNames)
  }

  /** A name that is not an own property: a prototype member, or nothing. */
  function Inherited(key: string, names: set<string>): (r: Result<Value>)
    ensures r.Ok? <==> key !in names
    ensures r.Ok? ==> r.value == Undefined
    ensures r.Err? ==> r.error == Unsupported
  {
    if key in names then Err(Unsupported) else Ok(Undefined)
  }

  /** `hasOwnProperty(key)` followed by the read, for arrays and objects;
      undefined when the value has no such own property. The call goes
      through the value itself, so an object with its own `hasOwnProperty`
      property calls that: a TypeError when it is not a function, and a
      host call of a gel function (Unsupported) when it is. The own
      properties of a function are not modelled. */
  function OwnMember(v: Value, key: string): (r: Result<Value>)
    requires v.Arr? || v.Obj? || v.Fn?
    ensures r.Err? <==> v.Fn? || (v.Obj? && FieldIndex(v.fields, "hasOwnProperty").Some?)
    ensures r == Err(TypeError) <==>
              v.Obj? && FieldIndex(v.fields, "hasOwnProperty").Some?
              && !v.fields[FieldIndex(v.fields, "hasOwnProperty").value].value.Fn?
    ensures r.Ok? && r.value != Undefined ==> Member(v, key) == r
    ensures v.Obj? && r.Ok? && FieldIndex(v.fields, key).Some? ==> Member(v, key) == r
  {
    match v
    case Arr(items) =>
      var i := ArrayIndex(key);
      if i.Some? && i.value < |items| then Ok(items[i.value])
      else if key == "length" then Ok(Num(Int(|items|)))
      else Ok(Undefined)
    case Obj(fields) =>
      (match FieldIndex(fields, "hasOwnProperty")
       case Some(h) => if fields[h].value.Fn? then Err(Unsupported) else Err(TypeError)
       case None =>
         match FieldIndex(fields, key)
         case Some(k) => Ok(fields[k].value)
         case None => Ok(Undefined))
    case Fn(_) => Err(Unsupported)
  }

  /** The keys and values a `for-in` loop visits, in order. */
  function Entries(v: Value): (r: seq<Field>)
    ensures v.Obj? ==> r == v.fields
    ensures v.Arr? ==> |r| == |v.items| && forall k :: 0 <= k < |r| ==> r[k] == Field(Decimal(k), v.items[k])
    ensures !(v.Obj? || v.Arr? || v.Str?) ==> r == []
  {
    match v
    case Obj(fields) => fields
    case Arr(items) => seq(|items|, k requires 0 <= k < |items| => Field(Decimal(k), items[k]))
    case Str(s) => seq(|s|, k requires 0 <= k < |s| => Field(Decimal(k), Str([s[k]])))
    case _ => []
  }

  /** What a counting loop `for (i = 0; i < a.length; i++) a[i]` sees. An
      object is Unsupported when it has a `length`, a function always. */
  function Indexed(v: Value): (r: Result<seq<Value>>)
    ensures v.Arr? ==> r == Ok(v.items)
    ensures (v.Undefined? || v.Null?) <==> r == Err(TypeError)
  {
    match v
    case Undefined => Err(TypeError)
    case Null => Err(TypeError)
    case Arr(items) => Ok(items)
    case Str(s) => Ok(seq(|s|, k requires 0 <= k < |s| => Str([s[k]])))
    case Obj(fields) => if FieldIndex(fields, "length").Some? then Err(Unsupported) else Ok([])
    case Fn(_) => Err(Unsupported)
    case _ => Ok([])
  }

  /** The argument list `apply` hands on: an array-like read through the
      cursor's `length` and indexing. */
  function ApplyArgs(v: Value): (r: Result<seq<Value>>)
    ensures v.Arr? ==> r == Ok(v.items)
    ensures (v.Undefined? || v.Null?) <==> r == Err(TypeError)
  {
    match v
    case Obj(_) => Err(Unsupported)
    case _ => Indexed(v)
  }

  function Reverse<T>(s: seq<T>): (r: seq<T>)
    ensures |r| == |s|
    ensures forall k :: 0 <= k < |s| ==> r[k] == s[|s| - 1 - k]
  {
    if s == [] then [] else Reverse(s[1..]) + [s[0]]
  }
}
