/** The data that flows through the Manager: Python-like JSON values, records
    (field name to value), the failures the core can raise, and a Result type
    standing for "returns a value or raises". */
module Values {

  datatype Option<T> = None | Some(value: T)

  /** A value as it appears in a record, a filter, a signal payload or an HTTP body. */
  datatype Value =
    | VNull
    | VBool(b: bool)
    | VInt(i: int)
    | VText(s: string)
    | VList(items: seq<Value>)
    | VMap(fields: map<string, Value>)

  /** A record, a filter, a keyword-argument mapping: field name to value. */
  type Record = map<string, Value>

  /** Python truthiness of a value (`if v:`). */
  predicate Truthy(v: Value) {
    match v
    case VNull => false
    case VBool(b) => b
    case VInt(i) => i != 0
    case VText(s) => s != ""
    case VList(xs) => xs != []
    case VMap(m) => m != map[]
  }

  /** `d.get(k, default)`. */
  function GetOr(d: Record, k: string, default: Value): Value {
    if k in d then d[k] else default
  }

  /** `d.get(k)`: None stands for an absent key. */
  function Get(d: Record, k: string): Value {
    GetOr(d, k, VNull)
  }

  /** What the core can raise, by the Python exception it would be. */
  datatype Error =
    | IntegrityError                  // the store refused a primary-key value (duplicate or null)
    | InvalidKeyword                  // the entity constructor was given a key that is not a column
    | UnknownColumn                   // filter_by or an update named a key that is not a column
    | NotAMapping                     // dict.update was given something that is not a mapping
    | KeyMissing(key: string)         // KeyError on a dict subscript
    | NotSubscriptable                // TypeError: subscript of a value that is not a dict
    | NotIterable                     // TypeError: iteration over a value that is not a list
    | NoAttribute                     // AttributeError: `.get` or `__dict__` on a plain value
    | NegativeBound                   // the store refuses a negative OFFSET or LIMIT
    | NotAwaitable                    // TypeError: `await` on a plain value
    | Undefined(name: string)         // NameError: the code uses a name that is not defined
    | External(reason: string)        // an HTTP call or another external collaborator failed
    | Http(status: int, fieldName: string, message: string)  // an HTTPException raised by the core

  /** A call that returns `value` or raises `error`. */
  datatype Result<T> = Ok(value: T) | Err(error: Error)
}
