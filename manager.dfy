/** The generic record Manager of rest/core/manager.py: one entity type bound
    to one table, a mutable filter accumulator, and the pre-hook, write,
    commit, post-hook pipeline around every write. Each method is proved to
    do what the matching function of ManagerSpec describes. */
module RecordManager {
  import opened Values
  import opened ManagerSpec
  import opened ManagerProperties

  /** The `signal_data` dict a caller passes; the Manager overwrites its
      `new_data` and `old_data` entries in place. */
  class SignalData {
    var entries: Record

    constructor (entries: Record)
      ensures this.entries == entries
    {
      this.entries := entries;
    }
  }

  /** The payload a possibly absent `signal_data` holds. */
  function Entries(sig: SignalData?): Option<Record>
    reads sig
  {
    if sig == null then None else Some(sig.entries)
  }

  class Manager {
    /** The bound entity type (`self.Model`). */
    const entity: Entity
    /** The hooks of the (sub)class the Manager was built from. */
    const hooks: Hooks
    /** The entity's table (`self.db`), in scan order. */
    var store: seq<Record>
    /** The filter accumulator (`self._query`). */
    var query: Record
    /** The two session variables set on the connection (`zekoder.id`, `zekoder.roles`). */
    var sessionId: Option<string>
    var sessionRoles: Option<string>
    /** Everything the Manager has done: hook calls, writes, commits. */
    ghost var trace: seq<Event>

    ghost predicate Valid()
      reads this
    {
      ValidEntity(entity) && WellFormed(entity, store)
    }

    /** `Manager(model, database)`: nothing is filtered yet and the session
        variables are not set. */
    constructor (entity: Entity, hooks: Hooks, store: seq<Record>)
      requires ValidEntity(entity) && WellFormed(entity, store)
      ensures Valid()
      ensures this.entity == entity && this.hooks == hooks && this.store == store
      ensures query == map[] && sessionId == None && sessionRoles == None && trace == []
    {
      this.entity := entity;
      this.hooks := hooks;
      this.store := store;
      query := map[];
      sessionId := None;
      sessionRoles := None;
      trace := [];
    }

    /** `set_session_vars`: the actor's id, and its roles joined with commas. */
    method SetSessionVars(actor: Actor)
      modifies this`sessionId, this`sessionRoles
      ensures sessionId == Some(actor.id) && sessionRoles == Some(Join(actor.roles, ","))
    {
      sessionId := Some(actor.id);
      sessionRoles := Some(Join(actor.roles, ","));
    }

    /** `async_init`: construct, then set the session variables. */
    static method AsyncInit(entity: Entity, hooks: Hooks, store: seq<Record>, actor: Actor) returns (m: Manager)
      requires ValidEntity(entity) && WellFormed(entity, store)
      ensures fresh(m) && m.Valid()
      ensures m.entity == entity && m.hooks == hooks && m.store == store && m.query == map[] && m.trace == []
      ensures m.sessionId == Some(actor.id) && m.sessionRoles == Some(Join(actor.roles, ","))
    {
      m := new Manager(entity, hooks, store);
      m.SetSessionVars(actor);
    }

    /** `update_query`: merge `kw` into the accumulator; later values win. */
    method UpdateQuery(kw: Record)
      modifies this`query
      ensures query == old(query) + kw
    {
      query := query + kw;
    }

    /** `filter(**kw)`: merge and return the same instance, for chaining. */
    method Filter(kw: Record) returns (m: Manager)
      modifies this`query
      ensures m == this && query == old(query) + kw
    {
      UpdateQuery(kw);
      m := this;
    }

    /** `get(**kw)`: merge, then the first row matching the whole accumulator. */
    method Get(kw: Record) returns (r: Result<Option<Record>>)
      modifies this`query
      ensures query == old(query) + kw
      ensures r == GetSpec(entity, store, query)
    {
      UpdateQuery(kw);
      if !IsColumns(entity, query) {
        r := Err(UnknownColumn);
      } else {
        r := Ok(First(store, query));
      }
    }

    /** `get_multiple(obj_ids)`: the rows matching the accumulator whose id is
        asked for; the accumulator is not changed. */
    method GetMultiple(objIds: seq<Value>) returns (r: Result<seq<Record>>)
      ensures r.Err? <==> !IsColumns(entity, query)
      ensures r.Ok? ==> forall x :: x in r.value <==> x in store && Matches(x, query) && RowId(x) in objIds
      ensures r.Ok? ==> IsSubsequence(r.value, store)
      ensures r.Ok? ==> forall x ::
        multiset(r.value)[x] == if Matches(x, query) && RowId(x) in objIds then multiset(store)[x] else 0
    {
      if !IsColumns(entity, query) {
        r := Err(UnknownColumn);
      } else {
        WhereOrdered(store, Selects(query, objIds));
        r := Ok(Selected(store, query, objIds));
      }
    }

    /** `all(offset, limit, **kw)`: merge, then one page of the matching rows. */
    method All(offset: int := DefaultOffset, limit: int := DefaultLimit, kw: Record := map[])
      returns (r: Result<seq<Record>>)
      modifies this`query
      ensures query == old(query) + kw
      ensures r == AllSpec(entity, store, query, offset, limit)
    {
      UpdateQuery(kw);
      if !IsColumns(entity, query) {
        r := Err(UnknownColumn);
      } else if offset < 0 || limit < 0 {
        r := Err(NegativeBound);
      } else {
        r := Ok(Page(Matching(store, query), offset, limit));
      }
    }

    /** `create(model_data=modelData, signal_data=sig, only_add=onlyAdd)`;
        `serverId` is the id the store generates for the row. `onlyAdd` is
        accepted and has no effect. */
    method Create(modelData: Record, sig: SignalData?, serverId: string, onlyAdd: bool := false)
      returns (r: Result<Record>)
      requires Valid()
      modifies this`store, this`trace, sig
      ensures Valid()
      ensures var eff := CreateSpec(entity, hooks, old(store), modelData, old(Entries(sig)), serverId);
        && r == eff.result && store == eff.rows && Entries(sig) == eff.signal
        && trace == old(trace) + eff.events
    {
      CreateKeepsWellFormed(entity, hooks, store, modelData, Entries(sig), serverId);
      var data := modelData;
      var given := sig != null && sig.entries != map[];
      if given {
        var res := hooks.preSave(sig.entries);
        trace := trace + [Called(PreSave)];
        if res.Err? {
          r := Err(res.error);
          return;
        }
        if !res.value.VMap? {
          r := Err(NotAMapping);
          return;
        }
        data := data + res.value.fields;
      }
      var built := Construct(entity, data, serverId);
      if built.Err? {
        r := Err(built.error);
        return;
      }
      var rec := built.value;
      if HasId(store, RowId(rec)) {
        r := Err(IntegrityError);
        return;
      }
      store := store + [rec];
      trace := trace + [Inserted(RowId(rec)), Committed];
      r := Ok(rec);
      if given {
        sig.entries := sig.entries["new_data" := VMap(rec)];
        var post := hooks.postSave(sig.entries);
        trace := trace + [Called(PostSave)];
        if post.Err? {
          r := Err(post.error);
        }
      }
    }

    /** `update(obj_id=objId, model_data=modelData, signal_data=sig)`; returns nothing. */
    method Update(objId: Value, modelData: Record, sig: SignalData?) returns (r: Result<()>)
      requires Valid()
      modifies this`store, this`trace, sig
      ensures Valid()
      ensures var eff := UpdateSpec(entity, hooks, old(store), objId, modelData, old(Entries(sig)));
        && r == eff.result && store == eff.rows && Entries(sig) == eff.signal
        && trace == old(trace) + eff.events
    {
      UpdateKeepsWellFormed(entity, hooks, store, objId, modelData, Entries(sig));
      var data := modelData;
      var given := sig != null && sig.entries != map[];
      if given {
        var res := hooks.preUpdate(sig.entries);
        trace := trace + [Called(PreUpdate)];
        if res.Err? {
          r := Err(res.error);
          return;
        }
        if !res.value.VMap? {
          r := Err(NotAMapping);
          return;
        }
        data := data + res.value.fields;
      }
      if !IsColumns(entity, data) {
        r := Err(UnknownColumn);
        return;
      }
      var updated := UpdateRows(store, objId, data);
      if "id" in data && !IdsOk(updated) {
        r := Err(IntegrityError);
        return;
      }
      store := updated;
      trace := trace + [UpdatedById(objId), Committed];
      r := Ok(());
      if given {
        sig.entries := sig.entries["new_data" := VMap(data)];
        var post := hooks.postUpdate(sig.entries);
        trace := trace + [Called(PostUpdate)];
        if post.Err? {
          r := Err(post.error);
        }
      }
    }

    /** `delete(obj_id=objId, signal_data=sig)`; a falsy `pre_delete` result
        returns without doing anything. */
    method Delete(objId: Value, sig: SignalData?) returns (r: Result<()>)
      requires Valid()
      modifies this`store, this`trace, sig
      ensures Valid()
      ensures var eff := DeleteSpec(hooks, old(store), objId, old(Entries(sig)));
        && r == eff.result && store == eff.rows && Entries(sig) == eff.signal
        && trace == old(trace) + eff.events
    {
      DeleteKeepsWellFormed(entity, hooks, store, objId, Entries(sig));
      var gate := VBool(true);
      var given := sig != null && sig.entries != map[];
      if given {
        var res := hooks.preDelete(sig.entries);
        trace := trace + [Called(PreDelete)];
        if res.Err? {
          r := Err(res.error);
          return;
        }
        gate := res.value;
      }
      r := Ok(());
      if !Truthy(gate) {
        return;
      }
      store := Without(store, [objId]);
      trace := trace + [DeletedById(objId), Committed];
      if given {
        sig.entries := sig.entries["new_data" := gate];
        var post := hooks.postDelete(sig.entries);
        trace := trace + [Called(PostDelete)];
        if post.Err? {
          r := Err(post.error);
        }
      }
    }

    /** `delete_multiple(obj_ids=objIds, signal_data=sig)`: `pre_delete` once
        per old-data snapshot, the last result gating one bulk delete, then
        `post_delete` once per snapshot. */
    method DeleteMultiple(objIds: seq<Value>, sig: SignalData?) returns (r: Result<()>)
      requires Valid()
      modifies this`store, this`trace, sig
      ensures Valid()
      ensures var eff := DeleteMultipleSpec(hooks, old(store), objIds, old(Entries(sig)));
        && r == eff.result && store == eff.rows && Entries(sig) == eff.signal
        && trace == old(trace) + eff.events
    {
      DeleteMultipleKeepsWellFormed(entity, hooks, store, objIds, Entries(sig));
      if sig == null {
        r := Err(NotSubscriptable);
        return;
      }
      if "old_data" !in sig.entries {
        r := Err(KeyMissing("old_data"));
        return;
      }
      var allOld := sig.entries["old_data"];
      if !allOld.VList? {
        r := Err(NotIterable);
        return;
      }
      var objs := allOld.items;
      var isDelete, failure := CallPerSnapshot(hooks.preDelete, PreDelete, sig, objs);
      if failure.Some? {
        r := Err(failure.value);
        return;
      }
      r := Ok(());
      if !Truthy(isDelete) {
        return;
      }
      store := Without(store, objIds);
      trace := trace + [DeletedIn(objIds), Committed];
      sig.entries := sig.entries["new_data" := isDelete];
      var _, postFailure := CallPerSnapshot(hooks.postDelete, PostDelete, sig, objs);
      if postFailure.Some? {
        r := Err(postFailure.value);
      }
    }

    /** One `for obj in all_old_data:` loop of `delete_multiple`: for each
        snapshot, overwrite `old_data` and call `hook`, keeping its result;
        the first exception ends the loop. */
    method CallPerSnapshot(hook: Hook, name: HookName, sig: SignalData, objs: seq<Value>)
      returns (gate: Value, failure: Option<Error>)
      modifies this`trace, sig
      ensures var s := PerSnapshot(hook, name, old(sig.entries), objs);
        && gate == s.gate && failure == s.failure && sig.entries == s.signal
        && trace == old(trace) + s.events
    {
      ghost var sig0 := sig.entries;
      gate, failure := VBool(true), None;
      var i := 0;
      while i < |objs|
        invariant 0 <= i <= |objs|
        invariant PerSnapshot(hook, name, sig0, objs[..i]) == Scan(gate, sig.entries, PerSnapshot(hook, name, sig0, objs[..i]).events, None)
        invariant trace == old(trace) + PerSnapshot(hook, name, sig0, objs[..i]).events
      {
        assert objs[..i + 1][..i] == objs[..i];
        var snap := Snapshot(objs[i]);
        if snap.Err? {
          FailureStops(hook, name, sig0, objs, i + 1);
          failure := Some(snap.error);
          return;
        }
        sig.entries := sig.entries["old_data" := VMap(snap.value)];
        var res := hook(sig.entries);
        trace := trace + [Called(name)];
        if res.Err? {
          FailureStops(hook, name, sig0, objs, i + 1);
          failure := Some(res.error);
          return;
        }
        gate := res.value;
        i := i + 1;
      }
      assert objs[..i] == objs;
    }
  }
}
