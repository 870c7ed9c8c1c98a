/** The parts of Python's object semantics the program relies on, applied to
    JSON values: raised exceptions, truthiness, `in`, `obj[key]`, `.get`,
    `.append`, iteration, `len`, `+=` on numbers, `int()` and `str()`. */
module Py {
  import opened Wrappers
  import opened Json
  import Text

  datatype ErrorKind =
    | ValueError
    | TypeError
    | KeyError
    | AttributeError
    | FileNotFoundError
    | IsADirectoryError
    | JsonDecodeError
    | ValidationError
    | GenerationError

  /** A raised exception: its class and `str(e)`. */
  datatype Error = Error(kind: ErrorKind, message: string)

  /** A computation that returns a value or raises. */
  datatype Result<T> = Ok(value: T) | Err(error: Error)
  {
    predicate IsFailure() { Err? }

    function PropagateFailure<U>(): Result<U>
      requires Err?
    {
      Err(error)
    }

    function Extract(): T
      requires Ok?
    {
      value
    }
  }

  /** `r` with `prefix` put before its elements: what a loop that has
      appended `prefix` so far ends with. */
  function Prefixed<T>(prefix: seq<T>, r: Result<seq<T>>): Result<seq<T>> {
    if r.Ok? then Ok(prefix + r.value) else r
  }

  /** The name `type(j).__name__` gives. */
  function TypeName(j: Json): string {
    match j
    case JNull => "NoneType"
    case JBool(_) => "bool"
    case JInt(_) => "int"
    case JReal(_) => "float"
    case JStr(_) => "str"
    case JList(_) => "list"
    case JObj(_) => "dict"
  }

  /** `bool(j)`. */
  predicate Truthy(j: Json) {
    match j
    case JNull => false
    case JBool(b) => b
    case JInt(i) => i != 0
    case JReal(r) => r != 0.0
    case JStr(s) => |s| > 0
    case JList(items) => |items| > 0
    case JObj(fields) => fields.Field?
  }

  /** `repr(key)` of a string key, which is what `str(KeyError(key))` shows. */
  function QuoteKey(key: string): string {
    "'" + key + "'"
  }

  /** `key in obj` for a string `key`: a dict tests its keys, a list its
      elements, a string its substrings; anything else is not a container. */
  function Contains(obj: Json, key: string): (r: Result<bool>)
    ensures obj.JObj? ==> r == Ok(HasKey(obj.fields, key))
    ensures obj.JList? ==> r == Ok(JStr(key) in obj.items)
    ensures r.Err? <==> !(obj.JObj? || obj.JList? || obj.JStr?)
  {
    match obj
    case JObj(fields) => Ok(HasKey(fields, key))
    case JList(items) => Ok(JStr(key) in items)
    case JStr(s) => Ok(Text.ContainsText(s, key))
    case _ => Err(Error(TypeError, "argument of type '" + TypeName(obj) + "' is not iterable"))
  }

  /** `obj[key]` for a string `key`. */
  function Subscript(obj: Json, key: string): (r: Result<Json>)
    ensures r.Ok? <==> obj.JObj? && HasKey(obj.fields, key)
    ensures r.Ok? ==> Lookup(obj.fields, key) == Some(r.value)
    ensures obj.JObj? && !HasKey(obj.fields, key) ==> r == Err(Error(KeyError, QuoteKey(key)))
  {
    match obj
    case JObj(fields) =>
      (match Lookup(fields, key)
       case Some(v) => Ok(v)
       case None => Err(Error(KeyError, QuoteKey(key))))
    case JList(_) => Err(Error(TypeError, "list indices must be integers or slices, not str"))
    case JStr(_) => Err(Error(TypeError, "string indices must be integers, not 'str'"))
    case _ => Err(Error(TypeError, "'" + TypeName(obj) + "' object is not subscriptable"))
  }

  /** `obj[key] = value` for a string `key`. */
  function SetItem(obj: Json, key: string, value: Json): (r: Result<Json>)
    ensures r.Ok? <==> obj.JObj?
    ensures r.Ok? ==> r.value == JObj(Put(obj.fields, key, value))
  {
    match obj
    case JObj(fields) => Ok(JObj(Put(fields, key, value)))
    case JList(_) => Err(Error(TypeError, "list indices must be integers or slices, not str"))
    case _ => Err(Error(TypeError, "'" + TypeName(obj) + "' object does not support item assignment"))
  }

  /** `obj.get(key, default)`: only a dict has the method. */
  function DictGet(obj: Json, key: string, default: Json): (r: Result<Json>)
    ensures r.Ok? <==> obj.JObj?
    ensures r.Ok? ==> r.value == Lookup(obj.fields, key).GetOr(default)
  {
    match obj
    case JObj(fields) => Ok(Lookup(fields, key).GetOr(default))
    case _ => Err(Error(AttributeError, "'" + TypeName(obj) + "' object has no attribute 'get'"))
  }

  /** `obj.append(item)`: only a list has the method. */
  function Append(obj: Json, item: Json): (r: Result<Json>)
    ensures r.Ok? <==> obj.JList?
    ensures r.Ok? ==> r.value == JList(obj.items + [item])
  {
    match obj
    case JList(items) => Ok(JList(items + [item]))
    case _ => Err(Error(AttributeError, "'" + TypeName(obj) + "' object has no attribute 'append'"))
  }

  /** What `for x in obj` visits: list elements, the characters of a
      string, the keys of a dict. */
  function Iterate(obj: Json): (r: Result<seq<Json>>)
    ensures r.Ok? <==> obj.JList? || obj.JStr? || obj.JObj?
    ensures obj.JList? ==> r == Ok(obj.items)
    ensures r.Ok? ==> |r.value| == Len(obj).value
  {
    match obj
    case JList(items) => Ok(items)
    case JStr(s) => Ok(seq(|s|, i requires 0 <= i < |s| => JStr([s[i]])))
    case JObj(fields) => Ok(seq(Count(fields), i requires 0 <= i < Count(fields) => JStr(Keys(fields)[i])))
    case _ => Err(Error(TypeError, "'" + TypeName(obj) + "' object is not iterable"))
  }

  /** `len(obj)`. */
  function Len(obj: Json): (r: Result<nat>)
    ensures r.Ok? <==> obj.JList? || obj.JStr? || obj.JObj?
  {
    match obj
    case JList(items) => Ok(|items|)
    case JStr(s) => Ok(|s|)
    case JObj(fields) => Ok(Count(fields))
    case _ => Err(Error(TypeError, "object of type '" + TypeName(obj) + "' has no len()"))
  }

  /** `isinstance(j, (int, float))`; a bool is an int in Python. */
  predicate IsNumber(j: Json) {
    j.JBool? || j.JInt? || j.JReal?
  }

  function AsInt(j: Json): int
    requires j.JBool? || j.JInt?
  {
    if j.JBool? then (if j.b then 1 else 0) else j.i
  }

  function AsReal(j: Json): real
    requires IsNumber(j)
  {
    if j.JReal? then j.r else AsInt(j) as real
  }

  /** `a += b` where `b` is a number: an int result unless either side is a
      float; anything but a number on the left raises. */
  function AddNumber(a: Json, b: Json): (r: Result<Json>)
    requires IsNumber(b)
    ensures r.Ok? <==> IsNumber(a)
    ensures r.Ok? && !a.JReal? && !b.JReal? ==> r.value == JInt(AsInt(a) + AsInt(b))
    ensures r.Ok? && (a.JReal? || b.JReal?) ==> r.value == JReal(AsReal(a) + AsReal(b))
  {
    if !IsNumber(a) then
      Err(Error(TypeError, "unsupported operand type(s) for +=: '" + TypeName(a) + "' and '" + TypeName(b) + "'"))
    else if a.JReal? || b.JReal? then Ok(JReal(AsReal(a) + AsReal(b)))
    else Ok(JInt(AsInt(a) + AsInt(b)))
  }

  /** `a >= n` for an integer `n`. */
  function AtLeast(a: Json, n: int): (r: Result<bool>)
    ensures r.Ok? <==> IsNumber(a)
    ensures a.JInt? ==> r == Ok(a.i >= n)
  {
    if a.JReal? then Ok(a.r >= n as real)
    else if IsNumber(a) then Ok(AsInt(a) >= n)
    else Err(Error(TypeError, "'>=' not supported between instances of '" + TypeName(a) + "' and 'int'"))
  }

  /** `int(s)` for a text of ASCII digits with an optional sign and
      surrounding whitespace. */
  function ParseInt(s: string): (r: Result<int>)
  {
    var t := Text.Strip(s);
    var neg := |t| > 0 && t[0] == '-';
    var body := if |t| > 0 && (t[0] == '-' || t[0] == '+') then t[1..] else t;
    if |body| > 0 && forall k :: 0 <= k < |body| ==> Text.IsDigit(body[k]) then
      var v: int := Text.DigitsValue(body);
      Ok(if neg then -v else v)
    else
      Err(Error(ValueError, "invalid literal for int() with base 10: '" + s + "'"))
  }

  /** `int(str(n))` gives `n` back. */
  lemma ParseIntOfString(n: nat)
    ensures ParseInt(Text.NatToString(n)) == Ok(n)
  {
    var d := Text.NatToString(n);
    Text.DigitsOfNat(n);
    Text.DigitIsNotSpace(d[0]);
    Text.DigitIsNotSpace(d[|d| - 1]);
    assert Text.StripLeft(d) == d;
    assert Text.Strip(d) == d;
  }

  /** `str(j)`; floats, lists and dicts are printed by the codec. */
  function Str(codec: Codec, j: Json): string {
    match j
    case JNull => "None"
    case JBool(b) => if b then "True" else "False"
    case JInt(i) => Text.IntToString(i)
    case JStr(s) => s
    case _ => codec.repr(j)
  }

  /** `repr(j)`: a string is quoted, anything else prints as `str`. */
  function Repr(codec: Codec, j: Json): string {
    if j.JStr? then QuoteKey(j.s) else Str(codec, j)
  }

  /** `sep.join(obj)`: every item visited must be a string. */
  function JoinStrs(sep: string, obj: Json): (r: Result<string>)
    ensures obj.JList? && (forall k :: 0 <= k < |obj.items| ==> obj.items[k].JStr?) ==> r.Ok?
  {
    var items :- Iterate(obj);
    var strs :- AllStrings(items, 0);
    Ok(Text.Join(sep, strs))
  }

  /** The texts of `items`, or the TypeError `join` raises for the first
      item that is not a string. */
  function AllStrings(items: seq<Json>, from: nat): (r: Result<seq<string>>)
    requires from <= |items|
    ensures r.Ok? <==> forall k :: from <= k < |items| ==> items[k].JStr?
    ensures r.Ok? ==> (|r.value| == |items| - from
                       && forall k :: from <= k < |items| ==> r.value[k - from] == items[k].s)
    decreases |items| - from
  {
    if from == |items| then Ok([])
    else if !items[from].JStr? then
      Err(Error(TypeError, "sequence item " + Text.NatToString(from) + ": expected str instance, "
        + TypeName(items[from]) + " found"))
    else
      var rest :- AllStrings(items, from + 1);
      Ok([items[from].s] + rest)
  }
}
