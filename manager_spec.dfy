/** The behaviour of the generic record Manager (rest/core/manager.py) as
    functions of the store, the filter accumulator, the hooks and the signal
    payload. The class in manager.dfy is proved to follow these functions;
    manager_properties.dfy proves what they promise. */
module ManagerSpec {
  import opened Values

  /** The entity type a Manager is bound to (the source's `Model`): its table
      name and the default of every column; the columns are the keys of
      `defaults`. */
  datatype Entity = Entity(table: string, defaults: Record)

  /** Every entity has an `id` primary-key column. */
  predicate ValidEntity(e: Entity) {
    "id" in e.defaults
  }

  /** Every key of `d` names a column of `e`. */
  predicate IsColumns(e: Entity, d: Record) {
    d.Keys <= e.defaults.Keys
  }

  /** A lifecycle hook: receives the signal payload as keyword arguments and
      returns a value or raises. */
  type Hook = Record -> Result<Value>

  /** The six overridable hooks of a Manager, as a dispatch record. */
  datatype Hooks = Hooks(
    preSave: Hook, postSave: Hook,
    preUpdate: Hook, postUpdate: Hook,
    preDelete: Hook, postDelete: Hook)

  /** The base class's hooks: the pre-write hooks of create and update hand
      back the signal's `new_data`, `pre_delete` lets the delete proceed, the
      post-write hooks do nothing. */
  function DefaultHooks(): Hooks {
    Hooks(
      preSave := kw => Ok(Get(kw, "new_data")),
      postSave := kw => Ok(VNull),
      preUpdate := kw => Ok(Get(kw, "new_data")),
      postUpdate := kw => Ok(VNull),
      preDelete := kw => Ok(VBool(true)),
      postDelete := kw => Ok(VNull))
  }

  datatype HookName = PreSave | PostSave | PreUpdate | PostUpdate | PreDelete | PostDelete

  /** What a mutating call does, in order: hook calls, store writes, commits. */
  datatype Event =
    | Called(hook: HookName)
    | Inserted(id: Value)
    | UpdatedById(id: Value)
    | DeletedById(id: Value)
    | DeletedIn(ids: seq<Value>)
    | Committed

  function Repeat(e: Event, n: nat): seq<Event> {
    seq(n, _ => e)
  }

  // ---------------------------------------------------------------- reading

  /** The primary key of a stored row. */
  function RowId(r: Record): Value {
    Get(r, "id")
  }

  /** `filter_by(**q)`: every key of `q` is a field of `r` holding the same value. */
  predicate Matches(r: Record, q: Record) {
    forall k :: k in q ==> k in r && r[k] == q[k]
  }

  /** The rows satisfying `p`, in scan order. */
  function Where(rows: seq<Record>, p: Record -> bool): (r: seq<Record>)
    ensures |r| <= |rows|
    ensures forall x :: x in r <==> x in rows && p(x)
  {
    if rows == [] then []
    else if p(rows[0]) then [rows[0]] + Where(rows[1..], p)
    else Where(rows[1..], p)
  }

  /** The rows the filter `q` selects. */
  function Matching(rows: seq<Record>, q: Record): seq<Record> {
    Where(rows, r => Matches(r, q))
  }

  /** `a` is `b` with some rows left out: the rows of `a` appear in `b`, in
      the same order. */
  predicate IsSubsequence(a: seq<Record>, b: seq<Record>)
    decreases |b|
  {
    if a == [] then true
    else if b == [] then false
    else if a[0] == b[0] then IsSubsequence(a[1..], b[1..])
    else IsSubsequence(a, b[1..])
  }

  /** The test `get_multiple` applies: the accumulated filter, and an id among `ids`. */
  function Selects(q: Record, ids: seq<Value>): Record -> bool {
    x => Matches(x, q) && RowId(x) in ids
  }

  /** `filter_by(**q).filter(id.in_(ids)).all()`. */
  function Selected(rows: seq<Record>, q: Record, ids: seq<Value>): seq<Record> {
    Where(rows, Selects(q, ids))
  }

  /** The position of the first row matching `q`, or |rows| when none does. */
  function FirstMatchAt(rows: seq<Record>, q: Record): (k: nat)
    ensures k <= |rows|
    ensures k < |rows| ==> Matches(rows[k], q)
    ensures forall j :: 0 <= j < k ==> !Matches(rows[j], q)
  {
    if rows == [] then 0
    else if Matches(rows[0], q) then 0
    else 1 + FirstMatchAt(rows[1..], q)
  }

  /** `.first()` of the filtered query. */
  function First(rows: seq<Record>, q: Record): Option<Record> {
    var k := FirstMatchAt(rows, q);
    if k < |rows| then Some(rows[k]) else None
  }

  /** `get`, once the accumulator `q` holds the call's keys. */
  function GetSpec(e: Entity, rows: seq<Record>, q: Record): Result<Option<Record>> {
    if !IsColumns(e, q) then Err(UnknownColumn) else Ok(First(rows, q))
  }

  const DefaultOffset: int := 0
  const DefaultLimit: int := 10

  /** `.offset(offset).limit(limit)`: skip `offset` rows, then take up to `limit`. */
  function Page(s: seq<Record>, offset: nat, limit: nat): (p: seq<Record>)
    ensures |p| <= limit
    ensures |p| == 0 || offset + |p| <= |s|
    ensures |p| < limit ==> offset + |p| >= |s|
    ensures forall i :: 0 <= i < |p| ==> p[i] == s[offset + i]
  {
    if offset >= |s| then []
    else if limit >= |s| - offset then s[offset..]
    else s[offset..offset + limit]
  }

  /** `all`, once the accumulator `q` holds the call's keys. */
  function AllSpec(e: Entity, rows: seq<Record>, q: Record, offset: int, limit: int): Result<seq<Record>> {
    if !IsColumns(e, q) then Err(UnknownColumn)
    else if offset < 0 || limit < 0 then Err(NegativeBound)
    else Ok(Page(Matching(rows, q), offset, limit))
  }

  // ---------------------------------------------------------------- the store

  /** Some stored row has primary key `id`. */
  predicate HasId(rows: seq<Record>, id: Value) {
    exists i :: 0 <= i < |rows| && RowId(rows[i]) == id
  }

  /** No two rows share a primary key. */
  predicate UniqueIds(rows: seq<Record>) {
    forall i, j :: 0 <= i < j < |rows| ==> RowId(rows[i]) != RowId(rows[j])
  }

  /** The store's own constraints on the primary key: never null, never repeated. */
  predicate IdsOk(rows: seq<Record>) {
    && (forall i :: 0 <= i < |rows| ==> RowId(rows[i]) != VNull)
    && UniqueIds(rows)
  }

  /** A table of `e`: every row holds exactly the entity's columns, and the
      primary-key constraints hold. */
  predicate WellFormed(e: Entity, rows: seq<Record>) {
    && (forall i :: 0 <= i < |rows| ==> rows[i].Keys == e.defaults.Keys)
    && IdsOk(rows)
  }

  /** The rows whose id is not among `ids` (`filter(id.in_(ids)).delete()`). */
  function Without(rows: seq<Record>, ids: seq<Value>): seq<Record> {
    Where(rows, r => RowId(r) !in ids)
  }

  /** `filter(id == objId).update(data)`. */
  function UpdateRows(rows: seq<Record>, objId: Value, data: Record): seq<Record> {
    seq(|rows|, i requires 0 <= i < |rows| =>
      if RowId(rows[i]) == objId then rows[i] + data else rows[i])
  }

  /** `self.Model(**data)` as inserted and refreshed: a key that is not a
      column is refused, columns not given take their default, and a null id
      takes the one the store generates. */
  function Construct(e: Entity, data: Record, serverId: string): (r: Result<Record>)
    requires ValidEntity(e)
    ensures r.Ok? <==> IsColumns(e, data)
    ensures r.Err? ==> r.error == InvalidKeyword
    ensures r.Ok? ==> r.value.Keys == e.defaults.Keys && RowId(r.value) != VNull
    ensures r.Ok? ==> forall k :: k in data && (k != "id" || data[k] != VNull) ==> r.value[k] == data[k]
    ensures r.Ok? ==> forall k :: k in e.defaults && k !in data && k != "id" ==> r.value[k] == e.defaults[k]
    ensures r.Ok? ==> RowId(r.value) == if Get(e.defaults + data, "id") == VNull then VText(serverId) else (e.defaults + data)["id"]
  {
    if !IsColumns(e, data) then Err(InvalidKeyword)
    else
      var rec := e.defaults + data;
      if Get(rec, "id") == VNull then Ok(rec["id" := VText(serverId)]) else Ok(rec)
  }

  // ---------------------------------------------------------------- writes

  /** What a mutating call returns, leaves in the store and the signal
      payload, and does, in order. */
  datatype Effect<T> = Effect(result: Result<T>, rows: seq<Record>, signal: Option<Record>, events: seq<Event>)

  /** `if kwargs.get("signal_data"):` -- a signal payload was passed and is not empty. */
  predicate Given(sig: Option<Record>) {
    sig.Some? && sig.value != map[]
  }

  /** `create(model_data=modelData, signal_data=sig)`; `serverId` is the id
      the store would generate for the new row. */
  function CreateSpec(e: Entity, hooks: Hooks, rows: seq<Record>, modelData: Record,
                      sig: Option<Record>, serverId: string): Effect<Record>
    requires ValidEntity(e)
  {
    if Given(sig) then
      match hooks.preSave(sig.value)
      case Err(err) => Effect(Err(err), rows, sig, [Called(PreSave)])
      case Ok(v) =>
        if v.VMap? then Insert(e, hooks, rows, modelData + v.fields, sig, serverId, [Called(PreSave)])
        else Effect(Err(NotAMapping), rows, sig, [Called(PreSave)])
    else Insert(e, hooks, rows, modelData, sig, serverId, [])
  }

  /** The insert, the commit and the post-save hook of `create`. */
  function Insert(e: Entity, hooks: Hooks, rows: seq<Record>, data: Record,
                  sig: Option<Record>, serverId: string, pre: seq<Event>): Effect<Record>
    requires ValidEntity(e)
  {
    match Construct(e, data, serverId)
    case Err(err) => Effect(Err(err), rows, sig, pre)
    case Ok(rec) =>
      if HasId(rows, RowId(rec)) then Effect(Err(IntegrityError), rows, sig, pre)
      else
        var rows' := rows + [rec];
        var written := pre + [Inserted(RowId(rec)), Committed];
        if Given(sig) then
          var sig' := sig.value["new_data" := VMap(rec)];
          var post := hooks.postSave(sig');
          Effect(if post.Err? then Err(post.error) else Ok(rec), rows', Some(sig'), written + [Called(PostSave)])
        else Effect(Ok(rec), rows', sig, written)
  }

  /** `update(obj_id=objId, model_data=modelData, signal_data=sig)`. */
  function UpdateSpec(e: Entity, hooks: Hooks, rows: seq<Record>, objId: Value, modelData: Record,
                      sig: Option<Record>): Effect<()>
  {
    if Given(sig) then
      match hooks.preUpdate(sig.value)
      case Err(err) => Effect(Err(err), rows, sig, [Called(PreUpdate)])
      case Ok(v) =>
        if v.VMap? then Write(e, hooks, rows, objId, modelData + v.fields, sig, [Called(PreUpdate)])
        else Effect(Err(NotAMapping), rows, sig, [Called(PreUpdate)])
    else Write(e, hooks, rows, objId, modelData, sig, [])
  }

  /** The update-by-id, the commit and the post-update hook of `update`. */
  function Write(e: Entity, hooks: Hooks, rows: seq<Record>, objId: Value, data: Record,
                 sig: Option<Record>, pre: seq<Event>): Effect<()>
  {
    if !IsColumns(e, data) then Effect(Err(UnknownColumn), rows, sig, pre)
    else
      var rows' := UpdateRows(rows, objId, data);
      if "id" in data && !IdsOk(rows') then Effect(Err(IntegrityError), rows, sig, pre)
      else
        var written := pre + [UpdatedById(objId), Committed];
        if Given(sig) then
          var sig' := sig.value["new_data" := VMap(data)];
          var post := hooks.postUpdate(sig');
          Effect(if post.Err? then Err(post.error) else Ok(()), rows', Some(sig'), written + [Called(PostUpdate)])
        else Effect(Ok(()), rows', sig, written)
  }

  /** `delete(obj_id=objId, signal_data=sig)`. */
  function DeleteSpec(hooks: Hooks, rows: seq<Record>, objId: Value, sig: Option<Record>): Effect<()> {
    if Given(sig) then
      match hooks.preDelete(sig.value)
      case Err(err) => Effect(Err(err), rows, sig, [Called(PreDelete)])
      case Ok(gate) => Remove(hooks, rows, objId, sig, gate, [Called(PreDelete)])
    else Remove(hooks, rows, objId, sig, VBool(true), [])
  }

  /** The veto check, the delete-by-id, the commit and the post-delete hook of `delete`. */
  function Remove(hooks: Hooks, rows: seq<Record>, objId: Value, sig: Option<Record>,
                  gate: Value, pre: seq<Event>): Effect<()>
  {
    if !Truthy(gate) then Effect(Ok(()), rows, sig, pre)
    else
      var rows' := Without(rows, [objId]);
      var written := pre + [DeletedById(objId), Committed];
      if Given(sig) then
        var sig' := sig.value["new_data" := gate];
        var post := hooks.postDelete(sig');
        Effect(if post.Err? then Err(post.error) else Ok(()), rows', Some(sig'), written + [Called(PostDelete)])
      else Effect(Ok(()), rows', sig, written)
  }

  /** `dict(obj.__dict__) if obj else {}` for one old-data snapshot. */
  function Snapshot(obj: Value): Result<Record> {
    if !Truthy(obj) then Ok(map[])
    else if obj.VMap? then Ok(obj.fields)
    else Err(NoAttribute)
  }

  /** The state of a loop that calls one hook per snapshot: the last hook
      result, the signal payload, what was done, and the exception that ended
      the loop early, if any. */
  datatype Scan = Scan(gate: Value, signal: Record, events: seq<Event>, failure: Option<Error>)

  /** One iteration: overwrite `old_data` with the snapshot, call the hook,
      keep its result. Nothing happens once the loop has raised. */
  function HookStep(hook: Hook, name: HookName, s: Scan, obj: Value): Scan {
    if s.failure.Some? then s
    else
      match Snapshot(obj)
      case Err(err) => s.(failure := Some(err))
      case Ok(snap) =>
        var sig := s.signal["old_data" := VMap(snap)];
        var res := hook(sig);
        Scan(if res.Ok? then res.value else s.gate, sig, s.events + [Called(name)],
             if res.Err? then Some(res.error) else None)
  }

  /** `for obj in all_old_data:` calling `hook` once per snapshot; the result
      starts as `True` (`is_delete = True`). */
  function PerSnapshot(hook: Hook, name: HookName, sig: Record, objs: seq<Value>): Scan
    decreases |objs|
  {
    if objs == [] then Scan(VBool(true), sig, [], None)
    else HookStep(hook, name, PerSnapshot(hook, name, sig, objs[..|objs| - 1]), objs[|objs| - 1])
  }

  /** `delete_multiple(obj_ids=objIds, signal_data=sig)`. */
  function DeleteMultipleSpec(hooks: Hooks, rows: seq<Record>, objIds: seq<Value>, sig: Option<Record>): Effect<()> {
    if sig.None? then Effect(Err(NotSubscriptable), rows, sig, [])
    else if "old_data" !in sig.value then Effect(Err(KeyMissing("old_data")), rows, sig, [])
    else
      match sig.value["old_data"]
      case VList(objs) =>
        var pre := PerSnapshot(hooks.preDelete, PreDelete, sig.value, objs);
        if pre.failure.Some? then Effect(Err(pre.failure.value), rows, Some(pre.signal), pre.events)
        else if !Truthy(pre.gate) then Effect(Ok(()), rows, Some(pre.signal), pre.events)
        else
          var post := PerSnapshot(hooks.postDelete, PostDelete, pre.signal["new_data" := pre.gate], objs);
          Effect(if post.failure.Some? then Err(post.failure.value) else Ok(()),
                 Without(rows, objIds), Some(post.signal),
                 pre.events + [DeletedIn(objIds), Committed] + post.events)
      case _ => Effect(Err(NotIterable), rows, sig, [])
  }

  // ---------------------------------------------------------------- session

  /** The current actor, as the ambient request context reports it. */
  datatype Actor = Actor(id: string, roles: seq<string>)

  /** `sep.join(parts)`. */
  function Join(parts: seq<string>, sep: string): string {
    if parts == [] then ""
    else if |parts| == 1 then parts[0]
    else parts[0] + sep + Join(parts[1..], sep)
  }

  /** `s.split(sep)` for a one-character separator: the reference the
      comma-joined role list is read back with. */
  function Split(s: string, sep: char): (parts: seq<string>)
    ensures |parts| >= 1
  {
    if s == [] then [""]
    else
      var rest := Split(s[1..], sep);
      if s[0] == sep then [""] + rest
      else [[s[0]] + rest[0]] + rest[1..]
  }
}
