/** The shape shared by every hook override that delegates to an "action":
    the four signal fields it reads with their defaults, the method name it
    passes along, and the swallow-and-fall-back wrapper around the call. */
module Actions {
  import opened Values

  /** The arguments an action handler receives: `jwt`, `new_data`,
      `old_data`, `well_known_urls` and `method` (`methodName`). */
  datatype ActionCall = ActionCall(jwt: Value, newData: Value, oldData: Value, wellKnownUrls: Value, methodName: string)

  /** An action handler whose body is outside the model: it returns a value
      or raises. */
  type Action = ActionCall -> Result<Value>

  /** `kwargs.get(name, {})` for each of the four signal fields. */
  function CallFrom(kw: Record, methodName: string): (c: ActionCall)
    ensures c.methodName == methodName
    ensures forall k :: k in {"jwt", "new_data", "old_data", "well_known_urls"} && k !in kw ==>
      Field(c, k) == VMap(map[])
    ensures forall k :: k in {"jwt", "new_data", "old_data", "well_known_urls"} && k in kw ==>
      Field(c, k) == kw[k]
  {
    ActionCall(GetOr(kw, "jwt", VMap(map[])), GetOr(kw, "new_data", VMap(map[])),
               GetOr(kw, "old_data", VMap(map[])), GetOr(kw, "well_known_urls", VMap(map[])), methodName)
  }

  /** The argument of `call` that was read from signal field `k`. */
  function Field(c: ActionCall, k: string): Value {
    if k == "jwt" then c.jwt
    else if k == "new_data" then c.newData
    else if k == "old_data" then c.oldData
    else c.wellKnownUrls
  }

  /** `try: return handler(...) except Exception: return new_data`. The
      last two ensures spell out that definition; the first is what callers
      rely on: the wrapped call never raises. */
  function Swallow(c: ActionCall, res: Result<Value>): (r: Result<Value>)
    ensures r.Ok?
    ensures res.Ok? ==> r == res
    ensures res.Err? ==> r == Ok(c.newData)
  {
    if res.Ok? then res else Ok(c.newData)
  }
}
