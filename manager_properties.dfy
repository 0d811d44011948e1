/** What the Manager's operations promise, proved about the functions of
    ManagerSpec: how the filter accumulator selects rows, the hook order and
    counts of each write, what is merged into the written data, the delete
    veto and the bulk-delete gate, and that every write keeps the table
    well formed. */
module ManagerProperties {
  import opened Values
  import opened ManagerSpec

  // ---------------------------------------------------------------- reading

  /** A key given to a later `filter`/`get`/`all` call replaces the earlier
      value for that key; the other accumulated keys still apply. */
  lemma LaterFilterOverrides(r: Record, q: Record, kw: Record)
    ensures Matches(r, q + kw) <==> Matches(r, kw) && Matches(r, q - kw.Keys)
  {
    if Matches(r, kw) && Matches(r, q - kw.Keys) {
      forall k | k in q + kw ensures k in r && r[k] == (q + kw)[k] {
        if k !in kw {
          assert k in q - kw.Keys;
        }
      }
    }
  }

  /** `get` returns the first row `all` would list for the same filter. */
  lemma {:induction false} FirstIsHeadOfMatching(rows: seq<Record>, q: Record)
    ensures First(rows, q) == if Matching(rows, q) == [] then None else Some(Matching(rows, q)[0])
  {
    if rows != [] && !Matches(rows[0], q) {
      FirstIsHeadOfMatching(rows[1..], q);
      assert Matching(rows, q) == Matching(rows[1..], q);
    }
  }

  /** `get` finds nothing exactly when no row matches the filter. */
  lemma FirstNoneIff(rows: seq<Record>, q: Record)
    ensures First(rows, q).None? <==> forall i :: 0 <= i < |rows| ==> !Matches(rows[i], q)
    ensures First(rows, q).Some? ==> First(rows, q).value in rows && Matches(First(rows, q).value, q)
  {
  }

  /** A filter keeps the rows it selects in table order, each as often as
      the table holds it, and no other row. */
  lemma {:induction false} WhereOrdered(rows: seq<Record>, p: Record -> bool)
    ensures IsSubsequence(Where(rows, p), rows)
    ensures forall x :: multiset(Where(rows, p))[x] == if p(x) then multiset(rows)[x] else 0
  {
    if rows != [] {
      var w := Where(rows[1..], p);
      WhereOrdered(rows[1..], p);
      assert rows == [rows[0]] + rows[1..];
      if p(rows[0]) {
        assert Where(rows, p) == [rows[0]] + w;
        assert ([rows[0]] + w)[1..] == w;
      } else {
        assert Where(rows, p) == w;
        if w != [] {
          assert w[0] in w;
        }
      }
    }
  }

  /** With the defaults (offset 0, limit 10), `all` returns the first ten
      matching rows, or all of them when there are fewer. */
  lemma AllDefaultsFirstTen(e: Entity, rows: seq<Record>, q: Record)
    requires IsColumns(e, q)
    ensures var m := Matching(rows, q);
      AllSpec(e, rows, q, DefaultOffset, DefaultLimit) == Ok(if |m| <= 10 then m else m[..10])
  {
    var m := Matching(rows, q);
    var p := Page(m, 0, 10);
    if |m| <= 10 {
      assert p == m;
    } else {
      assert p == m[..10];
    }
  }

  // ---------------------------------------------------------------- the table

  /** Filtering a table keeps it well formed. */
  lemma {:induction false} WhereWellFormed(e: Entity, rows: seq<Record>, p: Record -> bool)
    requires WellFormed(e, rows)
    ensures WellFormed(e, Where(rows, p))
  {
    if rows != [] {
      var rest := Where(rows[1..], p);
      assert WellFormed(e, rows[1..]) by {
        forall i, j | 0 <= i < j < |rows[1..]| ensures RowId(rows[1..][i]) != RowId(rows[1..][j]) {
          assert rows[1..][i] == rows[i + 1] && rows[1..][j] == rows[j + 1];
        }
      }
      WhereWellFormed(e, rows[1..], p);
      if p(rows[0]) {
        var r := [rows[0]] + rest;
        forall j | 0 < j < |r| ensures RowId(r[0]) != RowId(r[j]) {
          assert r[j] in rest;
          assert r[j] in rows[1..];
          var k :| 0 <= k < |rows[1..]| && rows[1..][k] == r[j];
          assert rows[k + 1] == r[j];
        }
        forall i, j | 0 <= i < j < |r| ensures RowId(r[i]) != RowId(r[j]) {
          if i > 0 {
            assert r[i] == rest[i - 1] && r[j] == rest[j - 1];
          }
        }
      }
    }
  }

  /** No row of a table without `ids` has one of those ids. */
  lemma WithoutRemoves(rows: seq<Record>, ids: seq<Value>)
    ensures forall x :: x in Without(rows, ids) <==> x in rows && RowId(x) !in ids
  {
  }

  // ---------------------------------------------------------------- create

  /** `create` with a signal payload: `pre_save` runs once, first; its mapping
      is merged over `model_data` (the hook's fields win); the merged record
      is appended; `new_data` becomes the persisted record; `post_save` runs
      once, last, and the record is returned. */
  lemma CreateWithSignal(e: Entity, hooks: Hooks, rows: seq<Record>, modelData: Record,
                         sig: Option<Record>, serverId: string, extra: Record)
    requires ValidEntity(e) && Given(sig)
    requires hooks.preSave(sig.value) == Ok(VMap(extra))
    requires IsColumns(e, modelData + extra)
    ensures var eff := CreateSpec(e, hooks, rows, modelData, sig, serverId);
      var rec := Construct(e, modelData + extra, serverId).value;
      && (forall k :: k in extra && (k != "id" || extra[k] != VNull) ==> rec[k] == extra[k])
      && (forall k :: k in modelData && k !in extra && (k != "id" || modelData[k] != VNull) ==> rec[k] == modelData[k])
      && (HasId(rows, RowId(rec)) ==>
            eff.result == Err(IntegrityError) && eff.rows == rows && eff.events == [Called(PreSave)])
      && (!HasId(rows, RowId(rec)) ==>
            && eff.rows == rows + [rec]
            && eff.signal == Some(sig.value["new_data" := VMap(rec)])
            && eff.events == [Called(PreSave), Inserted(RowId(rec)), Committed, Called(PostSave)]
            && eff.result == (if hooks.postSave(eff.signal.value).Ok? then Ok(rec)
                              else Err(hooks.postSave(eff.signal.value).error)))
  {
    var rec := Construct(e, modelData + extra, serverId).value;
    forall k | k in modelData && k !in extra && (k != "id" || modelData[k] != VNull)
      ensures rec[k] == modelData[k]
    {
      assert (modelData + extra)[k] == modelData[k];
    }
  }

  /** Whatever the hooks do, `create` with a signal payload calls `pre_save`
      first and once; `post_save` is called once, after the insert and its
      commit, exactly when the record was stored; a store left unchanged
      means the call raised. */
  lemma CreateHookOrder(e: Entity, hooks: Hooks, rows: seq<Record>, modelData: Record,
                        sig: Option<Record>, serverId: string)
    requires ValidEntity(e) && Given(sig)
    ensures var eff := CreateSpec(e, hooks, rows, modelData, sig, serverId);
      || (eff.events == [Called(PreSave)] && eff.rows == rows && eff.result.Err?)
      || (&& |eff.rows| == |rows| + 1 && eff.rows[..|rows|] == rows
          && eff.events == [Called(PreSave), Inserted(RowId(eff.rows[|rows|])), Committed, Called(PostSave)]
          && eff.signal == Some(sig.value["new_data" := VMap(eff.rows[|rows|])])
          && (eff.result.Ok? ==> eff.result.value == eff.rows[|rows|]))
  {
    match hooks.preSave(sig.value)
    case Err(_) =>
    case Ok(v) =>
      if v.VMap? {
        var c := Construct(e, modelData + v.fields, serverId);
        if c.Ok? && !HasId(rows, RowId(c.value)) {
          assert (rows + [c.value])[..|rows|] == rows;
        }
      }
  }

  /** Without a signal payload (or with an empty one) no hook runs, the
      signal is left alone, and the record built from `model_data` is
      appended unless the store refuses it. */
  lemma CreateWithoutSignal(e: Entity, hooks: Hooks, rows: seq<Record>, modelData: Record,
                            sig: Option<Record>, serverId: string)
    requires ValidEntity(e) && !Given(sig)
    ensures var eff := CreateSpec(e, hooks, rows, modelData, sig, serverId);
      && eff.signal == sig
      && (forall i :: 0 <= i < |eff.events| ==> !eff.events[i].Called?)
      && (eff.result.Ok? <==> IsColumns(e, modelData) && !HasId(rows, RowId(Construct(e, modelData, serverId).value)))
      && (eff.result.Ok? ==> eff.rows == rows + [eff.result.value] && eff.result == Construct(e, modelData, serverId))
      && (eff.result.Err? ==> eff.rows == rows)
  {
  }

  /** `create` keeps the table well formed, whatever the hooks do. */
  lemma CreateKeepsWellFormed(e: Entity, hooks: Hooks, rows: seq<Record>, modelData: Record,
                              sig: Option<Record>, serverId: string)
    requires ValidEntity(e) && WellFormed(e, rows)
    ensures WellFormed(e, CreateSpec(e, hooks, rows, modelData, sig, serverId).rows)
  {
    var eff := CreateSpec(e, hooks, rows, modelData, sig, serverId);
    if eff.rows != rows {
      var data := if Given(sig) then modelData + hooks.preSave(sig.value).value.fields else modelData;
      var rec := Construct(e, data, serverId).value;
      assert eff.rows == rows + [rec];
      assert !HasId(rows, RowId(rec));
      var r := rows + [rec];
      forall i, j | 0 <= i < j < |r| ensures RowId(r[i]) != RowId(r[j]) {
        if j == |rows| {
          assert r[i] == rows[i];
        }
      }
    }
  }

  /** A record created without hooks is what a fresh `get(id=...)` returns
      afterwards, with every field of `model_data` as given. */
  lemma CreateThenGet(e: Entity, hooks: Hooks, rows: seq<Record>, modelData: Record,
                      sig: Option<Record>, serverId: string)
    requires ValidEntity(e) && WellFormed(e, rows) && !Given(sig)
    requires CreateSpec(e, hooks, rows, modelData, sig, serverId).result.Ok?
    ensures var eff := CreateSpec(e, hooks, rows, modelData, sig, serverId);
      var rec := eff.result.value;
      && GetSpec(e, eff.rows, map["id" := RowId(rec)]) == Ok(Some(rec))
      && forall k :: k in modelData && k != "id" ==> rec[k] == modelData[k]
  {
    var eff := CreateSpec(e, hooks, rows, modelData, sig, serverId);
    var rec := eff.result.value;
    var q := map["id" := RowId(rec)];
    assert eff.result == Construct(e, modelData, serverId);
    assert eff.rows == rows + [rec];
    assert !HasId(rows, RowId(rec));
    assert Matches(rec, q);
    var k := FirstMatchAt(eff.rows, q);
    assert eff.rows[|rows|] == rec;
    if k < |rows| {
      assert false;
    }
    assert k == |rows|;
  }

  // ---------------------------------------------------------------- update

  /** `update` with a signal payload: `pre_update`'s mapping is merged over
      `model_data`; only rows whose id is `objId` change, each taking the
      merged fields; `new_data` becomes the merged data; `post_update` runs
      after the write and its commit, and its result is dropped. */
  lemma UpdateWithSignal(e: Entity, hooks: Hooks, rows: seq<Record>, objId: Value, modelData: Record,
                         sig: Option<Record>, extra: Record)
    requires Given(sig) && hooks.preUpdate(sig.value) == Ok(VMap(extra))
    requires IsColumns(e, modelData + extra) && "id" !in modelData + extra
    ensures var eff := UpdateSpec(e, hooks, rows, objId, modelData, sig);
      && |eff.rows| == |rows|
      && (forall i :: 0 <= i < |rows| && RowId(rows[i]) != objId ==> eff.rows[i] == rows[i])
      && (forall i :: 0 <= i < |rows| && RowId(rows[i]) == objId ==>
            eff.rows[i].Keys == rows[i].Keys + (modelData + extra).Keys
            && (forall k :: k in extra ==> eff.rows[i][k] == extra[k])
            && (forall k :: k in modelData && k !in extra ==> eff.rows[i][k] == modelData[k]))
      && eff.signal == Some(sig.value["new_data" := VMap(modelData + extra)])
      && eff.events == [Called(PreUpdate), UpdatedById(objId), Committed, Called(PostUpdate)]
      && eff.result == (if hooks.postUpdate(eff.signal.value).Ok? then Ok(()) else Err(hooks.postUpdate(eff.signal.value).error))
  {
  }

  /** Whatever the hooks and the data, even a write that sets `id`, `update`
      leaves every row whose id is not `objId` as it was. */
  lemma UpdateOnlyTouchesTarget(e: Entity, hooks: Hooks, rows: seq<Record>, objId: Value, modelData: Record,
                                sig: Option<Record>)
    ensures var eff := UpdateSpec(e, hooks, rows, objId, modelData, sig);
      && |eff.rows| == |rows|
      && forall i :: 0 <= i < |rows| && RowId(rows[i]) != objId ==> eff.rows[i] == rows[i]
  {
  }

  /** The pre-update hook's fields take precedence over the caller's: with
      `model_data = {name: "y"}` and `pre_update` returning `{name: "z"}`,
      the stored record has `name == "z"`. */
  lemma UpdatePreHookWins(e: Entity, hooks: Hooks, rows: seq<Record>, objId: Value, sig: Option<Record>)
    requires Given(sig) && hooks.preUpdate(sig.value) == Ok(VMap(map["name" := VText("z")]))
    requires "name" in e.defaults
    ensures var eff := UpdateSpec(e, hooks, rows, objId, map["name" := VText("y")], sig);
      forall i :: 0 <= i < |rows| && RowId(rows[i]) == objId ==> eff.rows[i]["name"] == VText("z")
  {
    var extra := map["name" := VText("z")];
    var modelData := map["name" := VText("y")];
    assert modelData + extra == extra;
    UpdateWithSignal(e, hooks, rows, objId, modelData, sig, extra);
  }

  /** `update` keeps the table well formed, whatever the hooks do. */
  lemma UpdateKeepsWellFormed(e: Entity, hooks: Hooks, rows: seq<Record>, objId: Value, modelData: Record,
                              sig: Option<Record>)
    requires WellFormed(e, rows)
    ensures WellFormed(e, UpdateSpec(e, hooks, rows, objId, modelData, sig).rows)
  {
    if Given(sig) {
      var pre := hooks.preUpdate(sig.value);
      if pre.Ok? && pre.value.VMap? {
        WriteKeepsWellFormed(e, hooks, rows, objId, modelData + pre.value.fields, sig, [Called(PreUpdate)]);
      }
    } else {
      WriteKeepsWellFormed(e, hooks, rows, objId, modelData, sig, []);
    }
  }

  /** The write step of `update` keeps the table well formed: the columns
      stay the entity's, and the ids either do not change or pass the
      store's check. */
  lemma WriteKeepsWellFormed(e: Entity, hooks: Hooks, rows: seq<Record>, objId: Value, data: Record,
                             sig: Option<Record>, pre: seq<Event>)
    requires WellFormed(e, rows)
    ensures WellFormed(e, Write(e, hooks, rows, objId, data, sig, pre).rows)
  {
    if IsColumns(e, data) {
      var r := UpdateRows(rows, objId, data);
      assert forall i :: 0 <= i < |r| ==> r[i].Keys == e.defaults.Keys;
      if "id" !in data {
        forall i | 0 <= i < |r| ensures RowId(r[i]) == RowId(rows[i]) {
        }
        assert IdsOk(r);
      }
    }
  }

  // ---------------------------------------------------------------- delete

  /** A falsy `pre_delete` result is a silent veto: nothing is written, the
      call returns normally, and `post_delete` is not called. */
  lemma DeleteVetoed(hooks: Hooks, rows: seq<Record>, objId: Value, sig: Option<Record>, gate: Value)
    requires Given(sig) && hooks.preDelete(sig.value) == Ok(gate) && !Truthy(gate)
    ensures var eff := DeleteSpec(hooks, rows, objId, sig);
      eff.result == Ok(()) && eff.rows == rows && eff.signal == sig && eff.events == [Called(PreDelete)]
  {
  }

  /** When `pre_delete` lets it proceed, exactly the rows with id `objId` go,
      and `post_delete` then sees `new_data` equal to the hook's result. */
  lemma DeleteProceeds(hooks: Hooks, rows: seq<Record>, objId: Value, sig: Option<Record>, gate: Value)
    requires Given(sig) && hooks.preDelete(sig.value) == Ok(gate) && Truthy(gate)
    ensures var eff := DeleteSpec(hooks, rows, objId, sig);
      && (forall x :: x in eff.rows <==> x in rows && RowId(x) != objId)
      && eff.signal == Some(sig.value["new_data" := gate])
      && eff.events == [Called(PreDelete), DeletedById(objId), Committed, Called(PostDelete)]
      && eff.result == (if hooks.postDelete(eff.signal.value).Ok? then Ok(()) else Err(hooks.postDelete(eff.signal.value).error))
  {
    WithoutRemoves(rows, [objId]);
  }

  /** `delete` keeps the table well formed. */
  lemma DeleteKeepsWellFormed(e: Entity, hooks: Hooks, rows: seq<Record>, objId: Value, sig: Option<Record>)
    requires WellFormed(e, rows)
    ensures WellFormed(e, DeleteSpec(hooks, rows, objId, sig).rows)
  {
    WhereWellFormed(e, rows, r => RowId(r) !in [objId]);
  }

  /** After a hook-free delete of a record's id, a fresh `get(id=...)` finds nothing. */
  lemma DeleteThenGet(e: Entity, hooks: Hooks, rows: seq<Record>, objId: Value)
    requires "id" in e.defaults
    ensures GetSpec(e, DeleteSpec(hooks, rows, objId, None).rows, map["id" := objId]) == Ok(None)
  {
    var after := DeleteSpec(hooks, rows, objId, None).rows;
    var q := map["id" := objId];
    WithoutRemoves(rows, [objId]);
    forall i | 0 <= i < |after| ensures !Matches(after[i], q) {
      assert after[i] in after;
    }
  }

  // ---------------------------------------------------------------- delete_multiple

  /** Once the per-snapshot loop has raised, the remaining snapshots change nothing. */
  lemma {:induction false} FailureStops(hook: Hook, name: HookName, sig: Record, objs: seq<Value>, k: nat)
    requires k <= |objs| && PerSnapshot(hook, name, sig, objs[..k]).failure.Some?
    ensures PerSnapshot(hook, name, sig, objs) == PerSnapshot(hook, name, sig, objs[..k])
    decreases |objs| - k
  {
    if k < |objs| {
      assert objs[..k + 1][..k] == objs[..k];
      FailureStops(hook, name, sig, objs, k + 1);
    } else {
      assert objs[..k] == objs;
    }
  }

  /** A loop that did not raise called the hook once per snapshot; an empty
      list leaves the result `True` and the payload as it was; otherwise
      `old_data` holds the last snapshot and the result is the last call's. */
  lemma {:induction false} PerSnapshotCompleted(hook: Hook, name: HookName, sig: Record, objs: seq<Value>)
    requires PerSnapshot(hook, name, sig, objs).failure.None?
    ensures var s := PerSnapshot(hook, name, sig, objs);
      && s.events == Repeat(Called(name), |objs|)
      && (objs == [] ==> s.gate == VBool(true) && s.signal == sig)
      && (objs != [] ==>
            && Snapshot(objs[|objs| - 1]).Ok?
            && s.signal == sig["old_data" := VMap(Snapshot(objs[|objs| - 1]).value)]
            && hook(s.signal) == Ok(s.gate))
    decreases |objs|
  {
    if objs != [] {
      var p := PerSnapshot(hook, name, sig, objs[..|objs| - 1]);
      assert p.failure.None?;
      PerSnapshotCompleted(hook, name, sig, objs[..|objs| - 1]);
      assert |objs[..|objs| - 1]| == |objs| - 1;
      var snap := Snapshot(objs[|objs| - 1]);
      assert snap.Ok?;
      if objs[..|objs| - 1] != [] {
        var before := objs[..|objs| - 1];
        assert p.signal == sig["old_data" := VMap(Snapshot(before[|before| - 1]).value)];
        assert p.signal["old_data" := VMap(snap.value)] == sig["old_data" := VMap(snap.value)];
      }
      assert Repeat(Called(name), |objs| - 1) + [Called(name)] == Repeat(Called(name), |objs|);
    }
  }

  /** A hook that never raises, over snapshots that are all records or
      falsy, never ends the loop early. */
  lemma {:induction false} PerSnapshotNoFailure(hook: Hook, name: HookName, sig: Record, objs: seq<Value>)
    requires forall kw :: hook(kw).Ok?
    requires forall i :: 0 <= i < |objs| ==> Snapshot(objs[i]).Ok?
    ensures PerSnapshot(hook, name, sig, objs).failure.None?
    decreases |objs|
  {
    if objs != [] {
      PerSnapshotNoFailure(hook, name, sig, objs[..|objs| - 1]);
    }
  }

  /** `delete_multiple` reads `signal_data["old_data"]` first: without a
      payload, or without `old_data`, it raises before anything happens. */
  lemma DeleteMultipleNeedsOldData(hooks: Hooks, rows: seq<Record>, objIds: seq<Value>, sig: Option<Record>)
    requires sig.None? || "old_data" !in sig.value
    ensures var eff := DeleteMultipleSpec(hooks, rows, objIds, sig);
      eff.result.Err? && eff.rows == rows && eff.events == [] && eff.signal == sig
  {
  }

  /** Only the last `pre_delete` result decides, for all ids at once: when
      the loop completes, the ids are all removed if that result is truthy
      and none is otherwise; an empty snapshot list proceeds. */
  lemma DeleteMultipleLastGate(hooks: Hooks, rows: seq<Record>, objIds: seq<Value>, sig: Record, objs: seq<Value>)
    requires "old_data" in sig && sig["old_data"] == VList(objs)
    requires PerSnapshot(hooks.preDelete, PreDelete, sig, objs).failure.None?
    ensures var eff := DeleteMultipleSpec(hooks, rows, objIds, Some(sig));
      && (objs == [] ==> eff.rows == Without(rows, objIds))
      && (objs != [] ==>
            var last := sig["old_data" := VMap(Snapshot(objs[|objs| - 1]).value)];
            && hooks.preDelete(last).Ok?
            && eff.rows == if Truthy(hooks.preDelete(last).value) then Without(rows, objIds) else rows)
  {
    PerSnapshotCompleted(hooks.preDelete, PreDelete, sig, objs);
  }

  /** When `delete_multiple` returns normally after N snapshots, it called
      `pre_delete` exactly N times and then either stopped with the store
      unchanged, or ran one bulk delete of all ids, one commit, and exactly
      N `post_delete` calls, in that order. */
  lemma DeleteMultipleCounts(hooks: Hooks, rows: seq<Record>, objIds: seq<Value>, sig: Record, objs: seq<Value>)
    requires "old_data" in sig && sig["old_data"] == VList(objs)
    ensures var eff := DeleteMultipleSpec(hooks, rows, objIds, Some(sig));
      var n := |objs|;
      eff.result.Ok? ==>
        || (eff.rows == rows && eff.events == Repeat(Called(PreDelete), n))
        || (&& eff.rows == Without(rows, objIds)
            && eff.events == Repeat(Called(PreDelete), n) + [DeletedIn(objIds), Committed] + Repeat(Called(PostDelete), n))
  {
    var pre := PerSnapshot(hooks.preDelete, PreDelete, sig, objs);
    if pre.failure.None? {
      PerSnapshotCompleted(hooks.preDelete, PreDelete, sig, objs);
      if Truthy(pre.gate) {
        var post := PerSnapshot(hooks.postDelete, PostDelete, pre.signal["new_data" := pre.gate], objs);
        if post.failure.None? {
          PerSnapshotCompleted(hooks.postDelete, PostDelete, pre.signal["new_data" := pre.gate], objs);
        }
      }
    }
  }

  /** `delete_multiple` keeps the table well formed. */
  lemma DeleteMultipleKeepsWellFormed(e: Entity, hooks: Hooks, rows: seq<Record>, objIds: seq<Value>, sig: Option<Record>)
    requires WellFormed(e, rows)
    ensures WellFormed(e, DeleteMultipleSpec(hooks, rows, objIds, sig).rows)
  {
    WhereWellFormed(e, rows, r => RowId(r) !in objIds);
  }

  // ---------------------------------------------------------------- default hooks

  /** With the base class's hooks a payload whose `new_data` is a mapping
      changes nothing about what is written: `create` stores, and `update`
      writes, `model_data` merged with `new_data`, exactly as a hook-free
      call with the merged data; `delete` always removes the row. */
  lemma DefaultHooksEffects(e: Entity, rows: seq<Record>, objId: Value, modelData: Record,
                            sig: Record, nd: Record, serverId: string)
    requires ValidEntity(e)
    requires "new_data" in sig && sig["new_data"] == VMap(nd)
    ensures var c := CreateSpec(e, DefaultHooks(), rows, modelData, Some(sig), serverId);
      var plain := CreateSpec(e, DefaultHooks(), rows, modelData + nd, None, serverId);
      c.result == plain.result && c.rows == plain.rows
    ensures var u := UpdateSpec(e, DefaultHooks(), rows, objId, modelData, Some(sig));
      var plain := UpdateSpec(e, DefaultHooks(), rows, objId, modelData + nd, None);
      u.result == plain.result && u.rows == plain.rows
    ensures var d := DeleteSpec(DefaultHooks(), rows, objId, Some(sig));
      d.result == Ok(()) && d.rows == Without(rows, [objId])
  {
    assert sig != map[];
  }

  /** With the base class's hooks, a non-empty payload without `new_data`
      makes `create` and `update` raise before writing: the pre-hook returns
      None, which `model_data.update` rejects. */
  lemma DefaultHooksNeedNewData(e: Entity, rows: seq<Record>, objId: Value, modelData: Record,
                                sig: Record, serverId: string)
    requires ValidEntity(e) && sig != map[] && "new_data" !in sig
    ensures var c := CreateSpec(e, DefaultHooks(), rows, modelData, Some(sig), serverId);
      c.result == Err(NotAMapping) && c.rows == rows
    ensures var u := UpdateSpec(e, DefaultHooks(), rows, objId, modelData, Some(sig));
      u.result == Err(NotAMapping) && u.rows == rows
  {
  }

  // ---------------------------------------------------------------- session

  /** A piece without the separator splits to itself. */
  lemma {:induction false} SplitPlain(a: string, sep: char)
    requires sep !in a
    ensures Split(a, sep) == [a]
  {
    if a != [] {
      assert sep !in a[1..];
      SplitPlain(a[1..], sep);
      assert [a[0]] + a[1..] == a;
    }
  }

  /** Splitting `a + sep + s` yields `a`, then the pieces of `s`. */
  lemma {:induction false} SplitAfterPiece(a: string, sep: char, s: string)
    requires sep !in a
    ensures Split(a + [sep] + s, sep) == [a] + Split(s, sep)
  {
    if a == [] {
      assert a + [sep] + s == [sep] + s;
      assert ([sep] + s)[1..] == s;
    } else {
      assert (a + [sep] + s)[1..] == a[1..] + [sep] + s;
      SplitAfterPiece(a[1..], sep, s);
      assert [a[0]] + a[1..] == a;
    }
  }

  /** The comma-joined role list read back by splitting gives the roles,
      provided no role holds a comma and there is at least one. */
  lemma {:induction false} JoinSplitRoundTrip(parts: seq<string>, sep: char)
    requires parts != []
    requires forall i :: 0 <= i < |parts| ==> sep !in parts[i]
    ensures Split(Join(parts, [sep]), sep) == parts
  {
    if |parts| == 1 {
      SplitPlain(parts[0], sep);
    } else {
      JoinSplitRoundTrip(parts[1..], sep);
      SplitAfterPiece(parts[0], sep, Join(parts[1..], [sep]));
      assert [parts[0]] + parts[1..] == parts;
    }
  }
}
