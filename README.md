# Record Manager model

A Dafny model of the generic record `Manager` of the backend's REST layer, of
the two entity-specific Manager subclasses (customers and strategy contents),
and of the action that gives a new customer its own user account.

The `Manager` binds one entity type to one table of the store. It keeps a
filter accumulator (`_query`) that `filter`, `get` and `all` merge their keys
into. Every write (`create`, `update`, `delete`, `delete_multiple`) runs a
pipeline: pre-hook, store write, commit, post-hook. Subclasses override the
hooks. The model has these parts:

- `values.dfy` (`Values`): JSON-like values, records, Python truthiness,
  `dict.get`, and the exceptions the core can raise as an `Error` datatype.
  `Result` stands for "returns or raises".
- `manager_spec.dfy` (`ManagerSpec`): the table is a sequence of records in
  scan order. An entity is its table name plus the default of each column.
  The hooks are a record of six functions that may fail. Each Manager
  operation is a function that returns an `Effect`. An `Effect` holds the
  result, the new table, the new signal payload and the events in order:
  hook calls, writes and commits.
- `manager.dfy` (`RecordManager`): the `Manager` class. Its fields are the
  table, the accumulator, the two session variables and a ghost event trace.
  `SignalData` is the mutable `signal_data` dict. Each method is proved to
  produce exactly the `Effect` of its specification function and to keep
  the table well formed (every row has all columns, ids are non-null and
  unique).
- `manager_properties.dfy` (`ManagerProperties`): what the specification
  functions promise. This covers filter precedence, `get` versus `all`,
  paging defaults, merge precedence, hook order and counts, the delete veto,
  the bulk-delete gate, well-formedness, and the role-list round trip.
- `actions.dfy` (`Actions`): the arguments shared by action handlers, and the
  swallow-and-fall-back wrapper used by hook overrides.
- `attach_customer_to_new_user.dfy` (`AttachCustomerToNewUser`): the handler
  that creates a user for a new customer. The HTTP POST and the random draws
  are parameters.
- `customers_model.dfy` (`Customers`): the customers hooks, table and binder,
  plus the brand-name and business-number uniqueness validators.
- `strategy_contents_model.dfy` (`StrategyContents`): the strategy-contents
  `post_update` override, table and binder.

The `signal_data` argument is `SignalData?` in the class and
`Option<Record>` in the specification. `null`/`None`, or an empty payload,
means no hook runs. The id the database would generate for a new row is the
parameter `serverId`. The current actor (user id and roles) is the parameter
`Actor`.

## Model

| member | source | states |
|---|---|---|
| RecordManager.Manager.constructor | rest/core/manager.py:14-19 | the Manager starts with the given entity and table, an empty filter accumulator and no session variables |
| RecordManager.Manager.SetSessionVars | rest/core/manager.py:30-35 | the session id becomes the actor's id; the session roles become the roles joined with "," |
| RecordManager.Manager.AsyncInit | rest/core/manager.py:21-28 | a fresh Manager with an empty accumulator, whose session variables are set from the actor |
| RecordManager.Manager.UpdateQuery | rest/core/manager.py:65-69 | the accumulator becomes the old accumulator overridden by the new keys |
| RecordManager.Manager.Filter | rest/core/manager.py:95-100 | merges the keys and returns the same instance |
| RecordManager.Manager.Get | rest/core/manager.py:77-83 | merges the keys, then returns the first row matching the whole accumulator, none, or an unknown-column error |
| RecordManager.Manager.GetMultiple | rest/core/manager.py:88-93 | fails exactly when the accumulator names a non-column; otherwise returns exactly the rows that match the accumulator and whose id is among the requested ids, in table order, each as often as the table holds it; does not change the accumulator |
| RecordManager.Manager.All | rest/core/manager.py:226-232 | merges the keys, then returns one page of the matching rows (defaults 0 and 10); a negative bound is an error |
| RecordManager.Manager.Create | rest/core/manager.py:102-126 | result, table, payload and trace are those of CreateSpec; the table stays well formed |
| RecordManager.Manager.Update | rest/core/manager.py:128-148 | result, table, payload and trace are those of UpdateSpec; the table stays well formed |
| RecordManager.Manager.Delete | rest/core/manager.py:150-165 | result, table, payload and trace are those of DeleteSpec; the table stays well formed |
| RecordManager.Manager.DeleteMultiple | rest/core/manager.py:167-187 | result, table, payload and trace are those of DeleteMultipleSpec; the table stays well formed |
| RecordManager.Manager.CallPerSnapshot | rest/core/manager.py:174-176 | the loop's last hook result, first exception, final payload and hook calls are those of PerSnapshot |
| ManagerSpec.FirstMatchAt | rest/core/manager.py:83 | the position found matches the filter, and no earlier row does |
| ManagerSpec.Page | rest/core/manager.py:232 | at most `limit` rows, taken in order from position `offset`; fewer only when the rows run out |
| ManagerSpec.Construct | rest/core/manager.py:111 | `Model(**data)` succeeds exactly when every key is a column; the record has every column, with the given fields kept and defaults elsewhere; its id is the given one, or `serverId` when the id would be null |
| ManagerSpec.DefaultHooks | rest/core/manager.py:190-224 | the base class's hooks: pre_save and pre_update return `new_data`, pre_delete returns True, the post hooks return None; what that means for each write is DefaultHooksEffects and DefaultHooksNeedNewData |
| ManagerSpec.GetSpec | rest/core/manager.py:77-83 | `get` on an accumulated filter: an unknown column is an error, otherwise `First`; its meaning is FirstIsHeadOfMatching and FirstNoneIff |
| ManagerSpec.Selected | rest/core/manager.py:92-93 | the rows `get_multiple` returns; WhereOrdered states their order and multiplicity |
| ManagerSpec.AllSpec | rest/core/manager.py:226-232 | `all`: an unknown column, then a negative bound, is an error; otherwise one `Page` of the matching rows; AllDefaultsFirstTen states the defaults |
| ManagerSpec.CreateSpec | rest/core/manager.py:106-110 | `create`: pre_save only with a non-empty payload, its mapping merged over model_data, a non-mapping refused; the lemmas CreateWithSignal, CreateHookOrder, CreateWithoutSignal, CreateKeepsWellFormed and CreateThenGet state what it does |
| ManagerSpec.Insert | rest/core/manager.py:111-116 | the construct, insert, commit and post_save of `create`; a taken id is an integrity error |
| ManagerSpec.UpdateSpec | rest/core/manager.py:132-134 | `update`: pre_update only with a non-empty payload, its mapping merged over model_data; the lemmas UpdateWithSignal, UpdateOnlyTouchesTarget, UpdatePreHookWins and UpdateKeepsWellFormed state what it does |
| ManagerSpec.Write | rest/core/manager.py:142-147 | the update by id, commit and post_update of `update`; an unknown column, or a write breaking the id constraints, is refused |
| ManagerSpec.DeleteSpec | rest/core/manager.py:154-156 | `delete`: pre_delete only with a non-empty payload; DeleteVetoed, DeleteProceeds, DeleteKeepsWellFormed and DeleteThenGet state what it does |
| ManagerSpec.Remove | rest/core/manager.py:157-165 | the veto check, delete by id, commit and post_delete of `delete` |
| ManagerSpec.Snapshot | rest/core/manager.py:175 | `dict(obj.__dict__) if obj else {}`: a falsy entry gives `{}`, a record its fields, anything else raises |
| ManagerSpec.HookStep | rest/core/manager.py:175-176 | one pass of the snapshot loop: overwrite old_data, call the hook, keep its result; nothing happens once the loop has raised |
| ManagerSpec.PerSnapshot | rest/core/manager.py:174-176 | the snapshot loop, starting from `is_delete = True`; FailureStops, PerSnapshotCompleted and PerSnapshotNoFailure state what it does |
| ManagerSpec.DeleteMultipleSpec | rest/core/manager.py:171-187 | `delete_multiple`: old_data read first, the pre_delete loop, the gate, the bulk delete and commit, then the post_delete loop with new_data set to the gate; the DeleteMultiple lemmas state what it does |
| ManagerSpec.Join | rest/core/manager.py:35 | `','.join(roles)`; JoinSplitRoundTrip states that it loses nothing |
| RecordManager.SignalData.constructor | rest/core/manager.py:107-116 | the caller's `signal_data` dict, which the writes update in place; it starts with the given entries |
| ManagerProperties.LaterFilterOverrides | rest/core/manager.py:65-69 | a key given later replaces the earlier value for that key; the other accumulated keys still apply |
| ManagerProperties.FirstIsHeadOfMatching | rest/core/manager.py:77-83 | `get` returns the head of the list `all` filters, or none when that list is empty |
| ManagerProperties.WhereOrdered | rest/core/manager.py:93 | a filter keeps the rows it selects in table order, each as often as the table holds it, and no other row |
| ManagerProperties.FirstNoneIff | rest/core/manager.py:83 | `first()` finds nothing exactly when no row matches; what it finds is a matching row of the table |
| ManagerProperties.AllDefaultsFirstTen | rest/core/manager.py:226 | with the defaults, `all` returns the first ten matching rows, or all of them when there are fewer |
| ManagerProperties.WithoutRemoves | rest/core/manager.py:180 | a row survives a delete by ids exactly when its id is not among them |
| ManagerProperties.CreateWithSignal | rest/core/manager.py:106-118 | pre_save's fields win over model_data; the merged record is appended unless its id is taken; new_data becomes the stored record; events are pre_save, insert, commit, post_save |
| ManagerProperties.CreateHookOrder | rest/core/manager.py:107-116 | for any hooks: pre_save first and once; post_save once, after the insert and commit, exactly when a row was appended |
| ManagerProperties.CreateWithoutSignal | rest/core/manager.py:106-118 | without a payload no hook runs; the record built from model_data is appended exactly when it is valid and its id is free |
| ManagerProperties.CreateKeepsWellFormed | rest/core/manager.py:111-112 | create keeps every row complete and the ids non-null and unique |
| ManagerProperties.CreateThenGet | rest/core/manager.py:102-118 | a record created without hooks is what `get(id=...)` then returns, with the given fields intact |
| ManagerProperties.UpdateWithSignal | rest/core/manager.py:132-147 | pre_update's fields are merged over model_data; only rows with the given id change; new_data becomes the merged data; post_update runs after the commit and its result is dropped |
| ManagerProperties.UpdateOnlyTouchesTarget | rest/core/manager.py:142 | for any hooks and any data, even a write that sets id, every row whose id is not obj_id is left as it was |
| ManagerProperties.UpdatePreHookWins | rest/core/manager.py:134 | with model_data `name = y` and pre_update returning `name = z`, the stored name is `z` |
| ManagerProperties.UpdateKeepsWellFormed | rest/core/manager.py:142-143 | update keeps the table well formed; a write that would break the id constraints is refused |
| ManagerProperties.WriteKeepsWellFormed | rest/core/manager.py:142-147 | the update-by-id step keeps every row's columns the entity's, and keeps ids non-null and unique, whatever the data |
| ManagerProperties.DeleteVetoed | rest/core/manager.py:154-158 | a falsy pre_delete result returns normally with nothing deleted and post_delete never called |
| ManagerProperties.DeleteProceeds | rest/core/manager.py:160-165 | otherwise exactly the rows with that id go, and post_delete sees new_data equal to the veto flag |
| ManagerProperties.DeleteKeepsWellFormed | rest/core/manager.py:160-161 | delete keeps the table well formed |
| ManagerProperties.DeleteThenGet | rest/core/manager.py:160 | after a hook-free delete of an id, `get(id=...)` finds nothing |
| ManagerProperties.FailureStops | rest/core/manager.py:174-176 | once a hook call inside the snapshot loop has raised, the remaining snapshots change nothing |
| ManagerProperties.PerSnapshotCompleted | rest/core/manager.py:174-176 | a completed loop called the hook once per snapshot; old_data holds the last snapshot; the result is the last call's (True for no snapshots) |
| ManagerProperties.PerSnapshotNoFailure | rest/core/manager.py:174-176 | a hook that never raises, over snapshots that are records or falsy, completes the loop |
| ManagerProperties.DeleteMultipleNeedsOldData | rest/core/manager.py:172 | without a payload, or without old_data, the call raises before anything happens |
| ManagerProperties.DeleteMultipleLastGate | rest/core/manager.py:171-180 | only the last pre_delete result decides, for all ids at once; an empty snapshot list proceeds |
| ManagerProperties.DeleteMultipleCounts | rest/core/manager.py:171-187 | a normal return after N snapshots means N pre_delete calls, then either nothing, or one bulk delete, one commit and N post_delete calls |
| ManagerProperties.DeleteMultipleKeepsWellFormed | rest/core/manager.py:180-181 | the bulk delete keeps the table well formed |
| ManagerProperties.DefaultHooksEffects | rest/core/manager.py:190-224 | with the base hooks and a mapping new_data, create and update write model_data merged with new_data, as a hook-free call with the merged data would, and delete always removes the row |
| ManagerProperties.DefaultHooksNeedNewData | rest/core/manager.py:194 | with the base hooks, a non-empty payload without new_data makes create and update raise before writing |
| ManagerProperties.JoinSplitRoundTrip | rest/core/manager.py:35 | splitting the comma-joined roles gives the roles back, when there is at least one role and none contains a comma |
| Actions.CallFrom | rest/business/customers_model.py:21-24 | each of the four signal fields is passed on as given, or as `{}` when absent, with the method name |
| Actions.Swallow | rest/business/customers_model.py:27-31 | the wrapped call never raises: the action's value, or new_data after a failure |
| AttachCustomerToNewUser.Password | rest/actions/attach_customer_to_new_user.py:10-12 | 21 characters: "A#2@z", then 16 ASCII letters or digits |
| AttachCustomerToNewUser.AlphabetIsAlnum | rest/actions/attach_customer_to_new_user.py:11 | every character the password draws from is an ASCII letter or digit |
| AttachCustomerToNewUser.EveryPasswordReachable | rest/actions/attach_customer_to_new_user.py:10-12 | every "A#2@z" followed by 16 letters or digits is a password some draws produce |
| AttachCustomerToNewUser.Handler | rest/actions/attach_customer_to_new_user.py:1-32 | a request goes out only for a mapping new_data without a truthy user; a result value is a mapping |
| AttachCustomerToNewUser.ExistingUserKept | rest/actions/attach_customer_to_new_user.py:8-9 | a truthy user returns new_data unchanged and sends nothing |
| AttachCustomerToNewUser.UserRequested | rest/actions/attach_customer_to_new_user.py:14-30 | exactly one request, to zeauth + "/users/", with the eight payload fields: contact fields copied, username as user_name, the password, reset_password false, permissions or the default |
| AttachCustomerToNewUser.OnlyUserAttached | rest/actions/attach_customer_to_new_user.py:30-32 | success exactly when the response is an object with an id; then only `user` changes, set to that id |
| Customers.CustomerPreSave | rest/business/customers_model.py:19-31 | pre_save never raises |
| Customers.CustomerPostSave | rest/business/customers_model.py:33-45 | post_save never raises |
| Customers.CustomerPostDelete | rest/business/customers_model.py:50-62 | post_delete never raises |
| Customers.CustomerHooks | rest/business/customers_model.py:18-62 | the customers `CustomManager`: pre_save, post_save and post_delete overridden, the other hooks inherited; CustomerHooksNeverRaise and the lemmas below state what it does |
| Customers.CustomerEntity | rest/business/customers_model.py:77-131 | the customers table has the id and the model's columns |
| Customers.CustomerObjects | rest/business/customers_model.py:134-137 | a Manager bound to the customers table with the customers hooks, session variables set |
| Customers.ValidateUnique | rest/business/customers_model.py:143-152 | raises exactly when some record other than the given id's (any record when no id) holds the value; the error is a 422 naming the field |
| Customers.ValidateUniqueBrandName | rest/business/customers_model.py:142-152 | raises a 422 with field_name "brand_name" exactly when another record has the same brand name |
| Customers.ValidateUniqueBusinessNumber | rest/business/customers_model.py:153-168 | raises a 422 with field_name "business_number" exactly when another record has the same business number |
| Customers.PreSaveDelegates | rest/business/customers_model.py:19-31 | pre_save calls attach_customer_to_new_user with the four fields (default `{}`) and method "create", and returns its result, or new_data when it raises; when new_data is a mapping, so is the result |
| Customers.PostHooksDelegate | rest/business/customers_model.py:33-62 | post_save delegates with method "create", post_delete with method "delete"; a failure of either gives back new_data |
| Customers.CustomerHooksNeverRaise | rest/business/customers_model.py:18-62 | no customer hook raises; pre_update is inherited and pre_delete always returns True |
| Customers.CustomerCreateErrors | rest/business/customers_model.py:19-31 | a customer create fails only with an integrity, keyword or mapping error; the mapping error occurs exactly when new_data is given and is not a mapping |
| Customers.CustomerCreateAttachesUser | rest/business/customers_model.py:19-26 | a customer created without a user, whose user request answers with an id, is stored with that id as its user |
| Customers.CustomerDeleteNeverVetoed | rest/business/customers_model.py:18-62 | a customer delete always removes the record and returns normally; with a payload, post_delete runs after the commit |
| Customers.CustomerDeleteMultipleNeverVetoed | rest/business/customers_model.py:50-62 | a bulk delete of customers with well-formed snapshots removes every requested id and returns normally |
| StrategyContents.ContentReady | rest/actions/content_ready.py:8-20 | the action returns nothing (None) when it returns at all |
| StrategyContents.AwaitPlain | rest/business/strategy_contents_model.py:28 | awaiting the result of a plain call always raises |
| StrategyContents.StrategyPostUpdate | rest/business/strategy_contents_model.py:22-34 | post_update never raises |
| StrategyContents.StrategyContentHooks | rest/business/strategy_contents_model.py:18-35 | the strategy-contents `CustomManager`: only post_update overridden; BehavesAsBaseManager states what it does |
| StrategyContents.StrategyContentEntity | rest/business/strategy_contents_model.py:46-78 | the strategy-contents table's columns; `approved` defaults to false, everything else to null |
| StrategyContents.StrategyContentObjects | rest/business/strategy_contents_model.py:85-88 | a Manager bound to the strategy-contents table with these hooks, session variables set |
| StrategyContents.PostUpdateAlwaysFallsBack | rest/business/strategy_contents_model.py:22-34 | the awaited action always raises, so post_update always returns the incoming new_data |
| StrategyContents.BehavesAsBaseManager | rest/business/strategy_contents_model.py:18-35 | create, update, delete and delete_multiple give exactly what the base Manager gives |

## Left out

- The query engine (`JSONQ`, `QuerySchema`) is not part of this model; filters are key=value equality only, as `filter_by` does.
- The FastAPI routes, the Pydantic schemas and the other entity models are not part of this model (the other models only bind the base Manager).
- `__len__`, `__iter__` and `__getitem__` are not modelled: they are wrappers over the same fetch that `get` and `all` use.
- `__str__` is not modelled: it only formats the class and model names and reads no data.
- The `__init__` fallback that opens a database connection when none is given is not modelled; a Manager always gets its table.
- The columns the shared base model adds (timestamps, creator and updater) are not modelled: base_model.py is not part of this model. The entities hold `id` plus their own columns.
- Relationship attributes (`briefs`, `strategy_plan__details`, ...) are not columns in the model, so passing one to `Model(**data)` is an error here.
- Foreign keys, enum checks and column types are not enforced; the store refuses only null or duplicate primary keys.
- The store's scan order is the order rows were inserted; the database gives no such guarantee.
- SQL text, session mechanics (`add`, `refresh`, `synchronize_session`) and the quoting of the `SET` statements are not modelled; a commit is one event beside the write it makes durable.
- Async scheduling and logging are not modelled; every call runs to completion in order.
- The database's id generator is the `serverId` parameter; the current user and roles are the `Actor` parameter.
- RecordManager.Manager.Create: `create` updates the caller's `model_data` dict in place; the model builds a new map, so that aliasing is not captured.
- RecordManager.Manager.Update: `update` also updates the caller's `model_data` dict in place and then stores that same dict as `signal_data["new_data"]`, so the caller's `model_data` and the dict `post_update` receives are one object; the model keeps them as separate values, so that aliasing is not captured.
- RecordManager.Manager.DeleteMultiple: an `old_data` that is a string or a dict (which Python would iterate character by character or key by key) is treated as not iterable.
- ManagerSpec.Snapshot: an old-data record is modelled as a mapping value; `dict(obj.__dict__)` also copies SQLAlchemy's internal state entry, which is not modelled.
- AttachCustomerToNewUser.Handler: the randomness of `random.choice` is the `entropy` parameter, and the HTTP POST and its JSON decoding are the `post` parameter.
- AttachCustomerToNewUser.Handler: a `zeauth` entry that is not a string is treated as a refused URL (as `requests` refuses a URL without a scheme); the URL is not otherwise checked.
- AttachCustomerToNewUser.Handler: the write `new_data['user'] = ...` also changes `signal_data['new_data']` through the shared dict; the model returns the new mapping instead, so that alias is not captured.
- AttachCustomerToNewUser.Handler: the request headers are reduced to the bearer value `jwt`, which is what they carry.
- The actions `create_brief_strategy_id` and `delete_user_after_customer` are parameters of type `Action` (they return a value or raise); their bodies are not part of this model.
- StrategyContents.ContentReady: only the part of `content_ready.handler` that runs is modelled; it fails at its first undefined name, before any request is sent.
