/** The customers entity: its Manager subclass, whose `pre_save`,
    `post_save` and `post_delete` delegate to actions and never raise, and the
    two uniqueness validators of the customer model. */
module Customers {
  import opened Values
  import opened Actions
  import opened ManagerSpec
  import opened ManagerProperties
  import opened RecordManager
  import AttachCustomerToNewUser

  /** The external collaborators the customer hooks reach: the identity
      service's POST and the randomness behind the password (both used by
      `attach_customer_to_new_user`), and the two actions whose bodies are
      not part of this model. */
  datatype CustomerActions = CustomerActions(
    post: AttachCustomerToNewUser.Post,
    entropy: nat -> nat,
    createBriefStrategyId: Action,
    deleteUserAfterCustomer: Action)

  /** `pre_save`: attach a user to the new customer, or hand back `new_data`. */
  function CustomerPreSave(a: CustomerActions, kw: Record): (r: Result<Value>)
    ensures r.Ok?
  {
    var c := CallFrom(kw, "create");
    Swallow(c, AttachCustomerToNewUser.Handler(c, a.post, a.entropy).result)
  }

  /** `post_save`: create the customer's brief and strategy, or hand back `new_data`. */
  function CustomerPostSave(a: CustomerActions, kw: Record): (r: Result<Value>)
    ensures r.Ok?
  {
    var c := CallFrom(kw, "create");
    Swallow(c, a.createBriefStrategyId(c))
  }

  /** `post_delete`: remove the customer's user, or hand back `new_data`. */
  function CustomerPostDelete(a: CustomerActions, kw: Record): (r: Result<Value>)
    ensures r.Ok?
  {
    var c := CallFrom(kw, "delete");
    Swallow(c, a.deleteUserAfterCustomer(c))
  }

  /** The customers `CustomManager`: three overrides, the rest inherited. */
  function CustomerHooks(a: CustomerActions): Hooks {
    DefaultHooks().(
      preSave := kw => CustomerPreSave(a, kw),
      postSave := kw => CustomerPostSave(a, kw),
      postDelete := kw => CustomerPostDelete(a, kw))
  }

  /** The columns of the customers table, all defaulting to null. */
  const CustomerColumns: set<string> := {
    "id", "email", "username", "first_name", "last_name", "full_name", "phone",
    "profile_picture", "addresses", "account_manager", "industry", "sub_industry",
    "brand_name", "business_number", "personal_number", "account_type",
    "completion_percentage", "stage", "indication", "user"}

  function CustomerEntity(): (e: Entity)
    ensures ValidEntity(e) && e.defaults.Keys == CustomerColumns
  {
    Entity("customers", map k | k in CustomerColumns :: VNull)
  }

  /** `CustomerModel.objects(session)`: a Manager bound to the customers
      table with the customers hooks. */
  method CustomerObjects(a: CustomerActions, store: seq<Record>, actor: Actor) returns (m: Manager)
    requires WellFormed(CustomerEntity(), store)
    ensures fresh(m) && m.Valid()
    ensures m.entity == CustomerEntity() && m.hooks == CustomerHooks(a) && m.store == store
    ensures m.query == map[] && m.trace == []
    ensures m.sessionId == Some(actor.id) && m.sessionRoles == Some(Join(actor.roles, ","))
  {
    m := Manager.AsyncInit(CustomerEntity(), CustomerHooks(a), store, actor);
  }

  // ---------------------------------------------------------------- validators

  /** Some record other than the one with id `id` (any record when `id`
      is null) holds `value` in `field`. */
  predicate Taken(rows: seq<Record>, field: string, value: Value, id: Value) {
    exists x :: x in rows && field in x && x[field] == value && (id == VNull || RowId(x) != id)
  }

  /** `db.query(cls).filter_by(field=value)`, then `.filter(cls.id != id)`
      when an id is given, then `.first()`; a record found raises a 422
      naming the field, with `message`. */
  function ValidateUnique(rows: seq<Record>, field: string, value: Value, id: Value, message: string): (r: Result<()>)
    ensures r.Err? <==> Taken(rows, field, value, id)
    ensures r.Err? ==> r.error == Http(422, field, message)
  {
    var same := Matching(rows, map[field := value]);
    var others := if id != VNull then Where(same, x => RowId(x) != id) else same;
    var found := First(others, map[]);
    assert found.Some? <==> others != [] by {
      FirstNoneIff(others, map[]);
      if others != [] {
        assert Matches(others[0], map[]);
      }
    }
    assert others != [] <==> Taken(rows, field, value, id) by {
      if others != [] {
        var x := others[0];
        assert x in others && x in same;
        assert Matches(x, map[field := value]);
      }
      if Taken(rows, field, value, id) {
        var x :| x in rows && field in x && x[field] == value && (id == VNull || RowId(x) != id);
        assert Matches(x, map[field := value]);
        assert x in same && x in others;
      }
    }
    if found.Some? then Err(Http(422, field, message)) else Ok(())
  }

  /** `validate_unique_brand_name(db, brand_name, id)`. */
  function ValidateUniqueBrandName(rows: seq<Record>, brandName: Value, id: Value): (r: Result<()>)
    ensures r.Err? <==> Taken(rows, "brand_name", brandName, id)
    ensures r.Err? ==> r.error == Http(422, "brand_name", "brand_name should be unique")
  {
    ValidateUnique(rows, "brand_name", brandName, id, "brand_name should be unique")
  }

  /** `validate_unique_business_number(db, business_number, id)`. */
  function ValidateUniqueBusinessNumber(rows: seq<Record>, businessNumber: Value, id: Value): (r: Result<()>)
    ensures r.Err? <==> Taken(rows, "business_number", businessNumber, id)
    ensures r.Err? ==> r.error == Http(422, "business_number", "business_number should be unique")
  {
    ValidateUnique(rows, "business_number", businessNumber, id, "business_number should be unique")
  }

  // ---------------------------------------------------------------- properties

  /** `pre_save` hands the four signal fields (each defaulting to `{}`) and
      `method="create"` to `attach_customer_to_new_user`, and returns its
      result, or the incoming `new_data` when it raises; these two ensures
      spell out the delegation. The third is what `create` relies on: when
      `new_data` is a mapping (or absent), so is what `pre_save` returns. */
  lemma PreSaveDelegates(a: CustomerActions, kw: Record)
    ensures var c := CallFrom(kw, "create");
      var h := AttachCustomerToNewUser.Handler(c, a.post, a.entropy);
      && c == ActionCall(GetOr(kw, "jwt", VMap(map[])), GetOr(kw, "new_data", VMap(map[])),
                         GetOr(kw, "old_data", VMap(map[])), GetOr(kw, "well_known_urls", VMap(map[])), "create")
      && CustomerHooks(a).preSave(kw) == (if h.result.Ok? then h.result else Ok(c.newData))
    ensures GetOr(kw, "new_data", VMap(map[])).VMap? ==> CustomerHooks(a).preSave(kw).value.VMap?
  {
  }

  /** `post_save` delegates to `create_brief_strategy_id` with
      `method="create"`, `post_delete` to `delete_user_after_customer` with
      `method="delete"`; a failure of either gives back `new_data`. Both
      ensures spell out the delegation; `CustomerHooksNeverRaise` and the
      delete lemmas below state its consequences. */
  lemma PostHooksDelegate(a: CustomerActions, kw: Record)
    ensures var c := CallFrom(kw, "create");
      var r := a.createBriefStrategyId(c);
      CustomerHooks(a).postSave(kw) == (if r.Ok? then r else Ok(GetOr(kw, "new_data", VMap(map[]))))
    ensures var c := CallFrom(kw, "delete");
      var r := a.deleteUserAfterCustomer(c);
      && c.methodName == "delete"
      && CustomerHooks(a).postDelete(kw) == (if r.Ok? then r else Ok(GetOr(kw, "new_data", VMap(map[]))))
  {
  }

  /** No customer hook ever raises; `pre_update` and `post_update` are the
      inherited ones, and `pre_delete` always lets the delete proceed. */
  lemma CustomerHooksNeverRaise(a: CustomerActions, kw: Record)
    ensures var hs := CustomerHooks(a);
      && hs.preSave(kw).Ok? && hs.postSave(kw).Ok? && hs.postDelete(kw).Ok?
      && hs.preUpdate(kw) == Ok(Get(kw, "new_data")) && hs.postUpdate(kw).Ok?
      && hs.preDelete(kw) == Ok(VBool(true))
  {
  }

  /** A customer create fails only where the store or the entity refuses the
      record, or where `new_data` is present but not a mapping (the fallback
      hands it back and `model_data.update` rejects it). */
  lemma CustomerCreateErrors(a: CustomerActions, rows: seq<Record>, modelData: Record,
                             sig: Option<Record>, serverId: string)
    ensures var eff := CreateSpec(CustomerEntity(), CustomerHooks(a), rows, modelData, sig, serverId);
      var nd := if sig.Some? then GetOr(sig.value, "new_data", VMap(map[])) else VNull;
      && (eff.result.Err? ==> eff.result.error in {IntegrityError, InvalidKeyword, NotAMapping})
      && (eff.result == Err(NotAMapping) <==> Given(sig) && !nd.VMap?)
  {
    if Given(sig) {
      var c := CallFrom(sig.value, "create");
      var h := AttachCustomerToNewUser.Handler(c, a.post, a.entropy);
      assert CustomerHooks(a).preSave(sig.value) == Swallow(c, h.result);
    }
  }

  /** A customer created without a user, whose identity-service request
      answers with an id, is stored with that id as its `user`. */
  lemma CustomerCreateAttachesUser(a: CustomerActions, rows: seq<Record>, modelData: Record,
                                   sig: Record, serverId: string)
    requires sig != map[]
    requires var s := AttachCustomerToNewUser.Handler(CallFrom(sig, "create"), a.post, a.entropy);
      && s.request.Some?
      && var resp := a.post(s.request.value);
      && resp.Ok? && resp.value.VMap? && "id" in resp.value.fields
    ensures var resp := a.post(AttachCustomerToNewUser.Handler(CallFrom(sig, "create"), a.post, a.entropy).request.value);
      var eff := CreateSpec(CustomerEntity(), CustomerHooks(a), rows, modelData, Some(sig), serverId);
      eff.result.Ok? ==> eff.result.value["user"] == resp.value.fields["id"]
  {
    var c := CallFrom(sig, "create");
    var s := AttachCustomerToNewUser.Handler(c, a.post, a.entropy);
    var resp := a.post(s.request.value);
    AttachCustomerToNewUser.OnlyUserAttached(c, a.post, a.entropy);
    var extra := s.result.value.fields;
    assert CustomerHooks(a).preSave(sig) == Ok(VMap(extra));
    assert extra["user"] == resp.value.fields["id"];
    var eff := CreateSpec(CustomerEntity(), CustomerHooks(a), rows, modelData, Some(sig), serverId);
    if eff.result.Ok? {
      assert IsColumns(CustomerEntity(), modelData + extra);
      CreateWithSignal(CustomerEntity(), CustomerHooks(a), rows, modelData, Some(sig), serverId, extra);
    }
  }

  /** A customer delete is never vetoed: the record goes, and `post_delete`
      runs after the commit whenever a payload was passed. */
  lemma CustomerDeleteNeverVetoed(a: CustomerActions, rows: seq<Record>, objId: Value, sig: Option<Record>)
    ensures var eff := DeleteSpec(CustomerHooks(a), rows, objId, sig);
      && eff.result == Ok(())
      && eff.rows == Without(rows, [objId])
      && (Given(sig) ==> eff.events == [Called(PreDelete), DeletedById(objId), Committed, Called(PostDelete)])
  {
  }

  /** A bulk delete of customers whose old-data snapshots are all records
      (or empty) always removes every requested id and returns normally. */
  lemma CustomerDeleteMultipleNeverVetoed(a: CustomerActions, rows: seq<Record>, objIds: seq<Value>,
                                          sig: Record, objs: seq<Value>)
    requires "old_data" in sig && sig["old_data"] == VList(objs)
    requires forall i :: 0 <= i < |objs| ==> Snapshot(objs[i]).Ok?
    ensures var eff := DeleteMultipleSpec(CustomerHooks(a), rows, objIds, Some(sig));
      eff.result == Ok(()) && eff.rows == Without(rows, objIds)
  {
    var hs := CustomerHooks(a);
    PerSnapshotNoFailure(hs.preDelete, PreDelete, sig, objs);
    PerSnapshotCompleted(hs.preDelete, PreDelete, sig, objs);
    var pre := PerSnapshot(hs.preDelete, PreDelete, sig, objs);
    assert Truthy(pre.gate);
    forall kw ensures hs.postDelete(kw).Ok? {
      assert hs.postDelete(kw) == CustomerPostDelete(a, kw);
    }
    PerSnapshotNoFailure(hs.postDelete, PostDelete, pre.signal["new_data" := pre.gate], objs);
  }
}
