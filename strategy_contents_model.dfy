/** The strategy-contents entity: its Manager subclass, whose only override
    is `post_update`, and the table it is bound to. */
module StrategyContents {
  import opened Values
  import opened Actions
  import opened ManagerSpec
  import opened RecordManager

  /** `content_ready.handler`, as far as it runs: it reads
      `new_data['request_status']` and returns None unless that is
      `"success"`; otherwise it fails at its first use of the undefined name
      `cls`, before any request is made. */
  function ContentReady(c: ActionCall): (r: Result<Value>)
    ensures r.Ok? ==> r.value == VNull
  {
    if !c.newData.VMap? then Err(NoAttribute)
    else if Get(c.newData.fields, "request_status") != VText("success") then Ok(VNull)
    else Err(Undefined("cls"))
  }

  /** `await` applied to what a plain (non-async) call returned. */
  function AwaitPlain(r: Result<Value>): (a: Result<Value>)
    ensures a.Err?
  {
    if r.Err? then r else Err(NotAwaitable)
  }

  /** `post_update`: await `content_ready.handler(..., method="update")`,
      or hand back `new_data`. */
  function StrategyPostUpdate(kw: Record): (r: Result<Value>)
    ensures r.Ok?
  {
    var c := CallFrom(kw, "update");
    Swallow(c, AwaitPlain(ContentReady(c)))
  }

  /** The strategy-contents `CustomManager`: `post_update` overridden, the
      rest inherited. */
  function StrategyContentHooks(): Hooks {
    DefaultHooks().(postUpdate := kw => StrategyPostUpdate(kw))
  }

  /** The columns of the strategy-contents table: `approved` defaults to
      false, every other column to null. */
  const StrategyContentColumns: set<string> := {
    "id", "language", "voice_tone", "call_to_action", "company_bg", "product_details",
    "promotion_details", "reference_link", "request_status", "content_name",
    "generated_content", "generated_hashtags", "puplishing_date", "approved", "strategy_plan"}

  function StrategyContentEntity(): (e: Entity)
    ensures ValidEntity(e) && e.defaults.Keys == StrategyContentColumns
    ensures e.defaults["approved"] == VBool(false)
    ensures forall k :: k in e.defaults && k != "approved" ==> e.defaults[k] == VNull
  {
    Entity("strategy_contents", map k | k in StrategyContentColumns :: if k == "approved" then VBool(false) else VNull)
  }

  /** `Strategy_ContentModel.objects(session)`: a Manager bound to the
      strategy-contents table with these hooks. */
  method StrategyContentObjects(store: seq<Record>, actor: Actor) returns (m: Manager)
    requires WellFormed(StrategyContentEntity(), store)
    ensures fresh(m) && m.Valid()
    ensures m.entity == StrategyContentEntity() && m.hooks == StrategyContentHooks() && m.store == store
    ensures m.query == map[] && m.trace == []
    ensures m.sessionId == Some(actor.id) && m.sessionRoles == Some(Join(actor.roles, ","))
  {
    m := Manager.AsyncInit(StrategyContentEntity(), StrategyContentHooks(), store, actor);
  }

  // ---------------------------------------------------------------- properties

  /** Whatever the payload, the awaited action call raises, so `post_update`
      always ends in its fallback and returns the incoming `new_data`. */
  lemma PostUpdateAlwaysFallsBack(kw: Record)
    ensures AwaitPlain(ContentReady(CallFrom(kw, "update"))).Err?
    ensures StrategyContentHooks().postUpdate(kw) == Ok(GetOr(kw, "new_data", VMap(map[])))
  {
  }

  /** Since `update` only looks at whether `post_update` raised, and the
      other hooks are inherited, a strategy-contents Manager behaves exactly
      like the base Manager on every operation. */
  lemma BehavesAsBaseManager(e: Entity, rows: seq<Record>, objId: Value, objIds: seq<Value>,
                             modelData: Record, sig: Option<Record>, serverId: string)
    requires ValidEntity(e)
    ensures UpdateSpec(e, StrategyContentHooks(), rows, objId, modelData, sig)
         == UpdateSpec(e, DefaultHooks(), rows, objId, modelData, sig)
    ensures CreateSpec(e, StrategyContentHooks(), rows, modelData, sig, serverId)
         == CreateSpec(e, DefaultHooks(), rows, modelData, sig, serverId)
    ensures DeleteSpec(StrategyContentHooks(), rows, objId, sig) == DeleteSpec(DefaultHooks(), rows, objId, sig)
    ensures DeleteMultipleSpec(StrategyContentHooks(), rows, objIds, sig)
         == DeleteMultipleSpec(DefaultHooks(), rows, objIds, sig)
  {
    var hs := StrategyContentHooks();
    assert hs.preSave == DefaultHooks().preSave && hs.postSave == DefaultHooks().postSave;
    assert hs.preDelete == DefaultHooks().preDelete && hs.postDelete == DefaultHooks().postDelete;
    assert hs.preUpdate == DefaultHooks().preUpdate;
    forall kw ensures hs.postUpdate(kw).Ok? && DefaultHooks().postUpdate(kw).Ok? {
      assert hs.postUpdate(kw) == StrategyPostUpdate(kw);
    }
  }
}
