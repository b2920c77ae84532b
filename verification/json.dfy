/**
  Dynamically typed Python values as they appear in configuration files,
  keyword arguments and vendor replies: JSON values, with Python `None` as
  `JNull`.  The functions below give the Python meaning of the few
  operations the library applies to such values — truthiness, `.get`,
  subscripting, `in` — including the exception each raises when the value
  has the wrong shape.
 */
module Json {

  import opened Base
  import opened Dict
  import Text

  datatype Json =
    | JNull
    | JBool(b: bool)
    | JInt(i: int)
    | JFloat(r: real)
    | JStr(s: string)
    | JArr(items: seq<Json>)
    | JObj(fields: Dict<Json>)

  /** The Python exceptions raised by operations on a value of the wrong
      shape (and by the standard-library calls modelled elsewhere). */
  datatype PyFault =
    | KeyError(key: string)
    | IndexError
    | TypeError(detail: string)
    | AttributeError(name: string)
    | ValueError(detail: string)

  /** `bool(v)`. */
  predicate Truthy(v: Json) {
    match v
    case JNull => false
    case JBool(b) => b
    case JInt(i) => i != 0
    case JFloat(r) => r != 0.0
    case JStr(s) => |s| > 0
    case JArr(items) => |items| > 0
    case JObj(fields) => |fields| > 0
  }

  /** `v.get(k, default)`: only dicts have `.get`. */
  function PyGet(v: Json, k: string, default: Json): (r: Result<Json, PyFault>)
    ensures r.Ok? <==> v.JObj?
    ensures v.JObj? ==> r.value == GetOr(v.fields, k, default)
  {
    match v
    case JObj(fields) => Ok(GetOr(fields, k, default))
    case _ => Err(AttributeError("get"))
  }

  /** `v[k]` with a string key. */
  function PyItem(v: Json, k: string): (r: Result<Json, PyFault>)
    ensures r.Ok? <==> v.JObj? && HasKey(v.fields, k)
  {
    match v
    case JObj(fields) =>
      (match Get(fields, k)
       case Some(x) => Ok(x)
       case None => Err(KeyError(k)))
    case _ => Err(TypeError("subscript"))
  }

  /** `v[i]` with an integer index (negative counts from the end). */
  function PyAt(v: Json, i: int): (r: Result<Json, PyFault>)
    ensures v.JArr? && 0 <= i < |v.items| ==> r == Ok(v.items[i])
  {
    match v
    case JArr(items) =>
      if 0 <= i < |items| then Ok(items[i])
      else if -|items| <= i < 0 then Ok(items[|items| + i])
      else Err(IndexError)
    case JStr(s) =>
      if 0 <= i < |s| then Ok(JStr([s[i]]))
      else if -|s| <= i < 0 then Ok(JStr([s[|s| + i]]))
      else Err(IndexError)
    case JObj(_) => Err(KeyError(Text.IntToString(i)))
    case _ => Err(TypeError("subscript"))
  }

  /** Python's `k in v` for a string `k`. */
  function PyIn(k: string, v: Json): (r: Result<bool, PyFault>)
    ensures v.JObj? ==> r == Ok(HasKey(v.fields, k))
  {
    match v
    case JObj(fields) => Ok(HasKey(fields, k))
    case JArr(items) => Ok(JStr(k) in items)
    case JStr(s) => Ok(Text.Contains(s, k))
    case _ => Err(TypeError("not iterable"))
  }

  /** Attribute access `v.name` on a vendor SDK object, modelled as an
      object whose attributes are the fields of a dict. */
  function Attr(v: Json, name: string): (r: Result<Json, PyFault>)
    ensures r.Ok? <==> v.JObj? && HasKey(v.fields, name)
  {
    match v
    case JObj(fields) =>
      (match Get(fields, name)
       case Some(x) => Ok(x)
       case None => Err(AttributeError(name)))
    case _ => Err(AttributeError(name))
  }

  /** `hasattr(v, name)`. */
  predicate HasAttr(v: Json, name: string) {
    v.JObj? && HasKey(v.fields, name)
  }

  /** A text field read from a reply.  Non-string values are not carried
      through as text. */
  function AsText(v: Json): (r: Result<string, PyFault>)
    ensures r.Ok? <==> v.JStr?
  {
    match v
    case JStr(s) => Ok(s)
    case _ => Err(TypeError("text expected"))
  }

  /** A list of strings as a Python list value. */
  function StrList(ss: seq<string>): (r: Json)
    ensures r.JArr? && |r.items| == |ss|
    ensures forall i :: 0 <= i < |ss| ==> r.items[i] == JStr(ss[i])
  {
    JArr(seq(|ss|, i requires 0 <= i < |ss| => JStr(ss[i])))
  }

  /** `str(v)` for the values that appear in messages. */
  function PyStr(v: Json): string {
    match v
    case JNull => "None"
    case JBool(b) => if b then "True" else "False"
    case JInt(i) => Text.IntToString(i)
    case JStr(s) => s
    case _ => "<value>"
  }

  /** `str(e)` for a fault. */
  function FaultText(f: PyFault): string {
    match f
    case KeyError(k) => "'" + k + "'"
    case IndexError => "list index out of range"
    case TypeError(d) => d
    case AttributeError(n) => "object has no attribute '" + n + "'"
    case ValueError(d) => d
  }

  /** The repr of a list of strings, as error messages print it. */
  function ListRepr(ss: seq<string>): string {
    "[" + Text.Join(", ", seq(|ss|, i requires 0 <= i < |ss| => "'" + ss[i] + "'")) + "]"
  }
}

/**
  The exceptions the library raises, each carrying what its message reports.
 */
module Errors {

  import opened Json

  datatype Exc =
    /** `ValueError("No provider specified and no default configured")`. */
    | NoProviderSpecified
    /** `ValueError("No model specified and no default configured")`. */
    | NoModelSpecified
    /** `ValueError` from the provider registry, listing registered names. */
    | ProviderNotRegistered(name: string, registered: seq<string>)
    /** `ValueError` from a provider's `create_facade`, listing its catalog. */
    | ModelNotAvailable(model: string, available: seq<string>)
    /** `ValueError` from the client factory's support check. */
    | ModelNotSupported(requested: Json, provider: string, available: seq<string>)
    /** `RuntimeError` from the system object before initialisation. */
    | NotInitialized(detail: string)
    /** `TypeError: got multiple values for argument` when keyword arguments
        collide with a parameter already bound positionally. */
    | ArgumentClash(name: string)
    /** A built-in exception raised by an operation on a Python value. */
    | Py(fault: PyFault)
    /** A file that cannot be opened or parsed. */
    | Unreadable(path: string)
    /** An exception raised by a vendor SDK or the network. */
    | Vendor(message: string)

  /** `str(e)`. */
  function Message(e: Exc): string {
    match e
    case NoProviderSpecified => "No provider specified and no default configured"
    case NoModelSpecified => "No model specified and no default configured"
    case ProviderNotRegistered(n, rs) =>
      "Provider '" + n + "' not registered. Available providers: " + ListRepr(rs)
    case ModelNotAvailable(m, av) =>
      "Model '" + m + "' not available. Available models: " + ListRepr(av)
    case ModelNotSupported(m, p, av) =>
      "Model '" + PyStr(m) + "' not supported by provider '" + p + "'. Available models: " + ListRepr(av)
    case NotInitialized(d) => d
    case ArgumentClash(n) => "got multiple values for argument '" + n + "'"
    case Py(f) => FaultText(f)
    case Unreadable(p) => "cannot read " + p
    case Vendor(m) => m
  }
}
