# fast_alchemy_models — a verified model of the record lifecycle

This project models the record-lifecycle core of `fast_alchemy_models`, a set of active-record
mixins for SQLAlchemy, and proves properties of that model in Dafny. The modelled operations:

- **Active record** (`active_record.py`): `fill`, `save`, `_flush_or_fail`, `create`, `update`, `delete`,
  `get_or_create`, `upsert` and `where_or_fail`.
- **Soft delete** (`safe_delete.py`): `delete` marks a row with a `deleted` timestamp instead of removing it.
  `create` and `update` stamp `updated_by_id` with the context user's id, and `update` also stamps `updated_at`.
  `all`, `upsert` and `get_or_create` look only at rows that are not deleted.
- **History** (`models.py`, `simple_history.py`): the same soft-delete operations. On a model marked
  `__historical__`, each one is followed by an `ADD`, `UPDATE` or `DEL` snapshot of the row, stored in
  the model's generated historical twin (`create_historical`, attached by the `SafeDeleteMeta` metaclass).
- **Async mixin** (`async_record_mixin.py`): primary-key lookup, `save_async`, `create_async`,
  `update_async`, `delete_async`, `destroy_async`, `find_async`, `find_or_fail_async`, and
  `bulk_create_async`, which commits one batch at a time.
- **User context** (`user.py`): `set_user` and `context_user_session`.

How the model is built:

- **`Common`** holds attribute values, records and errors. A record is a `map` from attribute name to
  value. Keyword arguments are a sequence of name/value pairs. `Dict` is the dictionary they denote,
  where a later pair wins. `SetKw` is `kwargs[name] = value`.
- **`Storage`** abstracts the database:
  - A table is a `Db`: its primary-key column, its rows by key, and the next autoincrement value.
  - A `Session` is a class whose `pending` field holds the staged changes.
  - `Commit` applies all staged changes atomically, or none of them. It fails when the storage's own
    commit fails (a boolean parameter `ok` stands for that). It also fails when a change is refused:
    an insert at a key that is taken, or an update or delete of a row that is gone.
  - `Where` and `First` stand for the query builder's equality filters and `first()`.
- **Each operation** is a pure function over the table, such as `ActiveRecord.CreateSpec` or
  `SafeDelete.UpsertSpec`, together with a method that performs it on a `Session` step by step, as the
  source does. The method's postcondition ties the new session state, and the instance it returns, to
  that function. The lemmas then prove, about the functions, what the source promises.
- **Each table-changing operation** requires and re-establishes `pending == []`: everything is committed
  or rolled back.
- **The wall clock and the context user** are parameters. Every `datetime.now()`/`utcnow()` reading is
  a `Time` argument. The acting user is `UserContext.Actor()`.

## Model

| member | source | states |
|---|---|---|
| `ActiveRecord.FirstUnsettable` | fast_alchemy_models/active_record.py:6-10 | the position `fill` stops at: every name before it is settable, and the name at it is not |
| `ActiveRecord.Instance.Fill` | fast_alchemy_models/active_record.py:5-12 | assigns the arguments in order. Returns the instance when all are settable; otherwise it returns `KeyError` for the first unknown name and keeps the assignments made before it |
| `ActiveRecord.FillSucceedsIff` | fast_alchemy_models/active_record.py:5-12 | `fill` succeeds if and only if every given name is settable |
| `ActiveRecord.FillAssignsGiven` | fast_alchemy_models/active_record.py:5-12 | a successful `fill` overlays the arguments on the attributes and leaves every other attribute alone |
| `ActiveRecord.FillStopsAtUnknown` | fast_alchemy_models/active_record.py:6-10 | a failing `fill` names an unsettable attribute. Only the arguments before it are assigned |
| `ActiveRecord.SaveStores` | fast_alchemy_models/active_record.py:66-70 | `save` either stores the attributes under the instance's key (or the insert key) and changes no other row, or fails with a storage error and leaves the table unchanged |
| `ActiveRecord.FlushOrFail` | fast_alchemy_models/active_record.py:72-77 | commits the staged changes, or rolls them back and reports the failure. Nothing stays staged either way |
| `ActiveRecord.Save` | fast_alchemy_models/active_record.py:66-70 | stages the instance and commits. On success the instance holds its key and its stored row; on failure it is unchanged |
| `ActiveRecord.CreateInserts` | fast_alchemy_models/active_record.py:14-20 | `create` with settable arguments inserts exactly one row, built from the arguments, under their key or the next autoincrement key. It fails and changes nothing when that key is taken or the commit fails |
| `ActiveRecord.CreateRejectsUnknown` | fast_alchemy_models/active_record.py:14-20 | `create` with an unknown name stores nothing and reports that name |
| `ActiveRecord.Create` | fast_alchemy_models/active_record.py:14-20 | `cls().fill(**kw).save()` on a fresh instance, with the outcome of `CreateSpec` |
| `ActiveRecord.UpdateOverwrites` | fast_alchemy_models/active_record.py:22-24 | `update` of a stored row stores the instance's attributes with the given fields laid over them, the key column kept at the row's key, and adds no row. A failed commit changes nothing |
| `ActiveRecord.Update` | fast_alchemy_models/active_record.py:22-24 | `fill` then `save`. After an unknown name, the earlier names stay assigned on the instance, and this call commits nothing |
| `ActiveRecord.DeleteRemoves` | fast_alchemy_models/active_record.py:26-29 | `delete` removes exactly the instance's row. A never-persisted instance, a vanished row or a failed commit changes nothing |
| `ActiveRecord.Delete` | fast_alchemy_models/active_record.py:26-29 | `session.delete(self)` followed by `_flush_or_fail` |
| `ActiveRecord.Find` | fast_alchemy_models/active_record.py:36 | the row whose key is the given id, or none when there is no such row or no id |
| `ActiveRecord.GetOrCreateHit` | fast_alchemy_models/active_record.py:31-40 | an existing id returns that row, applies none of the other arguments and adds nothing |
| `ActiveRecord.GetOrCreateMiss` | fast_alchemy_models/active_record.py:31-40 | a missing id behaves as `create` |
| `ActiveRecord.GetOrCreateTwice` | fast_alchemy_models/active_record.py:31-40 | two calls with the same id return the same row; the second call changes nothing |
| `ActiveRecord.GetOrCreate` | fast_alchemy_models/active_record.py:31-40 | performs `GetOrCreateSpec` on the session |
| `ActiveRecord.UpsertHit` | fast_alchemy_models/active_record.py:55-64 | an existing id updates exactly the given fields of that row and adds no row |
| `ActiveRecord.UpsertMiss` | fast_alchemy_models/active_record.py:55-64 | a missing id behaves as `create` |
| `ActiveRecord.Upsert` | fast_alchemy_models/active_record.py:55-64 | performs `UpsertSpec` on the session |
| `ActiveRecord.WhereOrFail` | fast_alchemy_models/active_record.py:42-53 | the matching rows, or an error naming the model and the filters exactly when no row matches |
| `Schemas.PrimaryKeys` | fast_alchemy_models/async_record_mixin.py:22 | a name is listed if and only if some primary-key column has it; there are no more names than columns |
| `Schemas.PrimaryKeysSingle` | fast_alchemy_models/async_record_mixin.py:22 | one column contributes its name exactly when it is a primary key |
| `Schemas.PrimaryKeysConcat` | fast_alchemy_models/async_record_mixin.py:22 | the key names keep the column order: a split of the columns splits the list |
| `Schemas.PrimaryKeysOne` | fast_alchemy_models/async_record_mixin.py:22-30 | there is exactly one key name if and only if exactly one column is a primary key, and then it is that column's name |
| `Schemas.CopyColumnsCopies` | fast_alchemy_models/models.py:48-53 | the copied columns have the source's names except `id`, no primary key and no default, and every source column except `id` is copied by name and type |
| `Schemas.CopyColumnsOnly` | fast_alchemy_models/models.py:48-53 | every copied column is the copy of a source column other than `id` |
| `Schemas.CopyColumnsSingle` | fast_alchemy_models/models.py:48-53 | one column is dropped when it is `id` and copied by name and type otherwise |
| `Schemas.CopyColumnsConcat` | fast_alchemy_models/models.py:48-53 | the copies keep the source order: a split of the columns splits the copies |
| `Schemas.CreateHistorical` | fast_alchemy_models/models.py:31-57 | `create_historical`: the twin `<Name>Historical` on `<table>historical`, with `id`, the copied columns and the history columns. Its properties are stated by `HistoricalNaming`, `HistoricalSettable`, `HistoricalPrimaryKey` and `HistoricalIdType` |
| `Schemas.HistoryPrimaryKey` | fast_alchemy_models/simple_history.py:15-20 | `history_id` is the only primary key among the history columns |
| `Schemas.HistoricalNaming` | fast_alchemy_models/models.py:38-45 | the twin is `<Name>Historical` on table `<table>historical` and is not historical itself |
| `Schemas.HistoricalSettable` | fast_alchemy_models/models.py:41-57 | the twin's columns are the source columns plus `id` plus the history columns |
| `Schemas.HistoricalPrimaryKey` | fast_alchemy_models/simple_history.py:15 | for a source with no column named like a history column, `history_id` is the twin's one primary key |
| `Schemas.HistoricalIdType` | fast_alchemy_models/models.py:44-53 | the twin's `id` column is an `Integer` when the source has `id` and a `BigInteger` otherwise. Every other source column is copied, and every later twin column is a history column or such a copy |
| `History.RecordKwargsDict` | fast_alchemy_models/simple_history.py:23-26 | a snapshot keeps the given attributes, with `history_type` set to the action and `history_user_id` set to the context user's id when there is one |
| `History.RecordAppends` | fast_alchemy_models/simple_history.py:22-27 | a snapshot appends exactly one row under the next history id, tagged with the action. Earlier snapshots are untouched, and a failed commit changes nothing |
| `History.CreateHistoricalRecord` | fast_alchemy_models/simple_history.py:22-27 | performs `RecordSpec` on the history session |
| `History.HistoryAll` | fast_alchemy_models/simple_history.py:29-31 | `all()` of a historical model is the unfiltered query: soft-deleted snapshots are included |
| `History.HistoricalOf` | fast_alchemy_models/simple_history.py:34-38 | a model gets a historical twin exactly when it is marked historical |
| `History.NoSecondDerivation` | fast_alchemy_models/simple_history.py:37-38 | a derived twin gets no twin of its own, so the metaclass does not recurse |
| `History.ModelClass.constructor` | fast_alchemy_models/simple_history.py:35-38 | the metaclass replaces a true `__historical__` flag with the derived twin |
| `SafeDelete.CreateKwargsDict` | fast_alchemy_models/safe_delete.py:42-43 | `create` keeps the given attributes, but `updated_by_id` becomes the context user's id |
| `SafeDelete.UpdateKwargsDict` | fast_alchemy_models/safe_delete.py:48-50 | `update` keeps the given attributes, but `updated_at` becomes the current time, then the user stamp is applied |
| `SafeDelete.DeleteKwargsDict` | fast_alchemy_models/safe_delete.py:31-36 | `delete` assigns exactly `updated_at`, `deleted` and the user stamp |
| `SafeDelete.All` | fast_alchemy_models/safe_delete.py:53-55 | `all()`: the rows whose `deleted` is null (also `FastAlchemyModel.all`, models.py:97-99). Its properties are stated by `AllIsWhere` and `AllWithout` |
| `SafeDelete.AllIsWhere` | fast_alchemy_models/safe_delete.py:53-55 | `all()` is the query `where(deleted=None)`: exactly the rows whose `deleted` is null (`FastAlchemyModel.all` at models.py:97-99 is the same query) |
| `SafeDelete.FindLiveByKey` | fast_alchemy_models/safe_delete.py:62 | the live lookup finds the row named by the arguments' `id` if and only if that row exists and is not deleted |
| `SafeDelete.DeleteKeepsRow` | fast_alchemy_models/safe_delete.py:27-37 | a soft delete keeps the row and stamps `deleted`, `updated_at` and the user, and changes nothing else. The row leaves `all()`, and every other row is unchanged |
| `SafeDelete.AllWithout` | fast_alchemy_models/safe_delete.py:53-55 | a row that stops being live leaves `all()` and no other row changes in it |
| `SafeDelete.DeleteFailsCleanly` | fast_alchemy_models/safe_delete.py:27-37 | a failed commit leaves the table unchanged |
| `SafeDelete.DeleteRepeats` | fast_alchemy_models/safe_delete.py:27-37 | deleting a row that is already deleted succeeds and re-stamps it; `all()` is unchanged |
| `SafeDelete.CreateStamps` | fast_alchemy_models/safe_delete.py:39-44 | the new row carries the context user's id in `updated_by_id`, whatever the arguments said |
| `SafeDelete.CreateStampsContextUser` | fast_alchemy_models/safe_delete.py:39-44 | with a user set in the context, the new row's `updated_by_id` is that user's id; with none, it is what the arguments gave |
| `SafeDelete.UpdateStampsContextUser` | fast_alchemy_models/safe_delete.py:46-51 | with a user set in the context, the updated row's `updated_by_id` is that user's id; with none, it is the given or previous value |
| `SafeDelete.UpdateStamps` | fast_alchemy_models/safe_delete.py:46-51 | the row gets the given fields, `updated_at` equal to the current time, and the user stamp |
| `SafeDelete.UpsertLive` | fast_alchemy_models/safe_delete.py:57-65 | the id of a live row updates that row in place and adds none |
| `SafeDelete.UpsertWithoutIdCreates` | fast_alchemy_models/safe_delete.py:57-65 | with no id, a new row is created under the next autoincrement key |
| `SafeDelete.ReusedDeletedIdFails` | fast_alchemy_models/safe_delete.py:57-75 | `upsert`/`get_or_create` with the id of a soft-deleted row neither revives nor touches it. The call fails and the table is unchanged |
| `SafeDelete.GetOrCreateLive` | fast_alchemy_models/safe_delete.py:67-75 | the id of a live row returns that row unchanged |
| `SafeDelete.Delete` | fast_alchemy_models/safe_delete.py:27-37 | the base `update` with the deletion stamps, giving the outcome of `DeleteSpec` |
| `SafeDelete.Create` | fast_alchemy_models/safe_delete.py:39-44 | performs `CreateSpec` with the context user |
| `SafeDelete.Update` | fast_alchemy_models/safe_delete.py:46-51 | performs `UpdateSpec` with the context user and the current time |
| `SafeDelete.Upsert` | fast_alchemy_models/safe_delete.py:57-65 | performs `UpsertSpec` |
| `SafeDelete.GetOrCreate` | fast_alchemy_models/safe_delete.py:67-75 | performs `GetOrCreateSpec` |
| `Models.SnapshotDict` | fast_alchemy_models/models.py:68-70 | `to_dict()`: one entry per column, holding the row's value |
| `Models.WithHistoryAppends` | fast_alchemy_models/models.py:79-82 | after a successful live change on a historical model, the history gains exactly one row: the action tag plus every column of the live row as it now stands. Earlier history rows are untouched |
| `Models.WithHistoryFails` | fast_alchemy_models/models.py:79-82 | a failed history commit fails the call and records nothing, but leaves the live change committed |
| `Models.NoHistoryOnLiveFailure` | fast_alchemy_models/models.py:90-94 | a failed live change records nothing |
| `Models.NonHistoricalKeepsHistory` | fast_alchemy_models/models.py:79 | a model that is not historical writes no history |
| `Models.DeleteRecordsDel` | fast_alchemy_models/models.py:59-71 | a soft delete records one `DEL` snapshot that carries the row's id and its `deleted` stamp. The live row stays |
| `Models.CreateRecordsAdd` | fast_alchemy_models/models.py:73-83 | a successful create records one `ADD` snapshot that carries the new id |
| `Models.UpdateRecordsUpdate` | fast_alchemy_models/models.py:85-95 | a successful update records one `UPDATE` snapshot that carries the id and the new `updated_at` |
| `Models.UpsertHitRecordsUpdate` | fast_alchemy_models/models.py:101-110 | `upsert` with the id of a live row of a historical model updates it, adds no live row, and records one `UPDATE` snapshot with the id and the new `updated_at` |
| `Models.UpsertMissRecordsAdd` | fast_alchemy_models/models.py:101-110 | `upsert` that finds no live row and creates successfully records one `ADD` snapshot with the new id |
| `Models.GetOrCreateHitWritesNothing` | fast_alchemy_models/models.py:112-121 | a `get_or_create` that finds a live row writes no history |
| `Models.Log` | fast_alchemy_models/models.py:79-82 | performs the history step `WithHistory` on the history session |
| `Models.Create` | fast_alchemy_models/models.py:73-83 | performs `CreateSpec` on both sessions |
| `Models.Update` | fast_alchemy_models/models.py:85-95 | performs `UpdateSpec` on both sessions |
| `Models.Delete` | fast_alchemy_models/models.py:59-71 | performs `DeleteSpec` on both sessions |
| `Models.Upsert` | fast_alchemy_models/models.py:101-110 | performs `UpsertSpec` on both sessions |
| `Models.GetOrCreate` | fast_alchemy_models/models.py:112-121 | performs `GetOrCreateSpec` on both sessions |
| `AsyncRecord.PrimaryKeyName` | fast_alchemy_models/async_record_mixin.py:12-30 | the single primary-key column. Several give a composite-key error; none gives the `IndexError` of `primary_keys[0]` |
| `AsyncRecord.PrimaryKeyNameSingle` | fast_alchemy_models/async_record_mixin.py:12-30 | the lookup succeeds if and only if exactly one column is a primary key, and then returns that column's name |
| `AsyncRecord.HistoricalPrimaryKeyName` | fast_alchemy_models/async_record_mixin.py:12-30 | the twin of a source with no column named like a history column has the usable primary key `history_id` |
| `AsyncRecord.FindAsync` | fast_alchemy_models/async_record_mixin.py:175-185 | `find_async`: the primary-key lookup, or the key-name error. Its properties are stated by `FindAsyncByKey` |
| `AsyncRecord.FindAsyncByKey` | fast_alchemy_models/async_record_mixin.py:175-185 | `find_async` finds the row stored under the id if and only if there is one |
| `AsyncRecord.FindOrFailAsync` | fast_alchemy_models/async_record_mixin.py:187-199 | the row `find_async` found, or `ModelNotFoundError` naming the model and the id |
| `AsyncRecord.FindOrFailAsyncIff` | fast_alchemy_models/async_record_mixin.py:187-199 | in a table keyed by the model, it fails if and only if no row is stored under the id |
| `AsyncRecord.SaveAsync` | fast_alchemy_models/async_record_mixin.py:43-56 | add, commit, and on failure roll back, with the outcome of `save` |
| `AsyncRecord.CreateAsync` | fast_alchemy_models/async_record_mixin.py:58-65 | the outcome of `create` |
| `AsyncRecord.UpdateAsync` | fast_alchemy_models/async_record_mixin.py:85-91 | the outcome of `update` |
| `AsyncRecord.DeleteAsync` | fast_alchemy_models/async_record_mixin.py:93-108 | the outcome of `delete`; on success it returns the instance itself |
| `AsyncRecord.DestroyExact` | fast_alchemy_models/async_record_mixin.py:110-127 | removes exactly the rows whose key is among the ids, and keeps every other row unchanged |
| `AsyncRecord.DestroyFailsCleanly` | fast_alchemy_models/async_record_mixin.py:123-126 | a failed commit destroys nothing |
| `AsyncRecord.DestroyAsync` | fast_alchemy_models/async_record_mixin.py:110-127 | stages one delete per matching row in a loop, then commits once, with the outcome of `DestroySpec` |
| `AsyncRecord.Chunks` | fast_alchemy_models/async_record_mixin.py:76-77 | non-empty batches of at most `b`; all but the last hold exactly `b` |
| `AsyncRecord.ChunksFlatten` | fast_alchemy_models/async_record_mixin.py:76-77 | the batches hold every object once, in order |
| `AsyncRecord.ChunksCount` | fast_alchemy_models/async_record_mixin.py:76 | there are `ceil(len(objs) / b)` batches |
| `AsyncRecord.FiveInBatchesOfTwo` | fast_alchemy_models/async_record_mixin.py:76-77 | five objects in batches of two make three commits, of sizes 2, 2 and 1 |
| `AsyncRecord.BuildChunkFills` | fast_alchemy_models/async_record_mixin.py:78 | a batch fills if and only if every object is settable, giving each object's attributes. Otherwise the error names an unsettable attribute |
| `AsyncRecord.BuildChunkFailsFrom` | fast_alchemy_models/async_record_mixin.py:78 | a failure within a prefix of a batch fails the whole batch in the same way |
| `AsyncRecord.FillBatch` | fast_alchemy_models/async_record_mixin.py:78 | fills a fresh instance per object, in a loop, with the result of `BuildChunk` |
| `AsyncRecord.InsertsEach` | fast_alchemy_models/async_record_mixin.py:79 | one insert per new instance of the batch, in order |
| `AsyncRecord.BulkSplit` | fast_alchemy_models/async_record_mixin.py:76-83 | batches before a failure stay committed; processing stops at the first failing batch |
| `AsyncRecord.BulkCons` | fast_alchemy_models/async_record_mixin.py:76-80 | the first batch is processed, and the rest only when it succeeded |
| `AsyncRecord.BulkStep` | fast_alchemy_models/async_record_mixin.py:76-80 | one round of the loop: fill, stage and commit one batch, then continue |
| `AsyncRecord.InsertsKeep` | fast_alchemy_models/async_record_mixin.py:79-80 | inserts never change a row that was already stored |
| `AsyncRecord.BulkKeepsExisting` | fast_alchemy_models/async_record_mixin.py:67-83 | bulk create never changes an existing row, whether or not a batch fails |
| `AsyncRecord.InsertsFresh` | fast_alchemy_models/async_record_mixin.py:79-80 | keyless inserts store the `i`-th row, with its key set, under the `i`-th next autoincrement key; earlier rows are kept and no other key appears |
| `AsyncRecord.BulkFromAllNew` | fast_alchemy_models/async_record_mixin.py:76-80 | clean batches that all commit store each object's attributes, in order, under consecutive autoincrement keys; earlier rows are kept and no other key appears |
| `AsyncRecord.BulkCreatesAll` | fast_alchemy_models/async_record_mixin.py:67-83 | clean, keyless objects with every commit succeeding give exactly one new row per object, holding that object's attributes under the `i`-th next key; existing rows are untouched |
| `AsyncRecord.FirstBatchStored` | fast_alchemy_models/async_record_mixin.py:76-80 | a clean first batch that commits stores each of its objects under the next keys, in order |
| `AsyncRecord.FourthOfFiveFails` | fast_alchemy_models/async_record_mixin.py:67-83 | with batches of two, a clean first batch and an unknown name in the fourth of five objects, the call fails with an `UnknownAttribute` error for an unsettable name (from the second batch). The first batch stays committed and the rest stores nothing |
| `AsyncRecord.CommitBatch` | fast_alchemy_models/async_record_mixin.py:76-80 | one round of the loop on the session: the batch's size, and the state and error `BulkFrom` gives for that batch and the rest |
| `AsyncRecord.BulkCreateAsync` | fast_alchemy_models/async_record_mixin.py:67-83 | the batching loop, with the outcome of `BulkCreateSpec`: a zero batch size fails and a negative one does nothing |
| `User.UserContext.constructor` | fast_alchemy_models/user.py:5 | the context starts with no user |
| `User.UserContext.ContextUserSession` | fast_alchemy_models/user.py:14-19 | `context_user_session`: the user last set, or none. Its behaviour is stated by `SetUser` and the constructor |
| `User.UserContext.SetUser` | fast_alchemy_models/user.py:7-12 | `context_user_session` afterwards returns exactly the user set |

## Left out

- The database engine, SQLAlchemy sessions and the network are abstracted:
  - A commit's own success is a parameter.
  - `IntegrityError` and every other commit failure become one `StorageFailure`.
  - An exception's message text is reduced to the data it carries.
- Awaiting is not modelled. Each `await` is the synchronous step it waits for, with no interleaving
  between coroutines.
- The `session.flush()` after `delete_async` and `destroy_async` changes nothing once the commit or
  rollback is done, so it is left out.
- `session.sync_session.delete` of a never-persisted instance raises before anything is staged. That
  is modelled as the `TransientDelete` error.
- Only the query helpers the core calls are modelled, as equality filters plus `first()`:
  - The `query` property is left out.
  - `select_async`, `where_async`, `sort_async`, `all_async`, `first_async` and the `with_*async`
    helpers are left out.
  - The `smart_query` operators other than `=` and `__in` are left out, as are sorting and joins.
- The monkey patch of `smart_query._get_root_cls` at the end of `async_record_mixin.py` is not part of
  this model. It only affects how the query library finds the model class.
- `first()` without `ORDER BY` is modelled as the least key. SQL leaves that order open, but every
  lookup modelled here matches at most one row.
- `find` belongs to the underlying library and is modelled as a primary-key lookup. A non-integer or
  missing id finds nothing.
- The wall clock is a `Time` parameter per reading. `SafeDeleteBase.delete` and
  `FastAlchemyModel.delete` read the clock twice, so they take two readings. The naive `utcnow()` of
  `models.py` and the aware `now(timezone.utc)` of `safe_delete.py` are not told apart.
- Column defaults filled in by the database at insert (`func.now()`, `False`, `None`) are not
  modelled. A stored row holds only the attributes that were assigned, and a missing attribute reads
  as null. Column types are not checked on assignment.
- `settable_attributes` is modelled as the column names. Hybrid properties and relations are left out.
- With a user set, `SafeDeleteBase.create` and `FastAlchemyModel.create` stamp `updated_by_id` but
  never `created_by_id`. The model does the same.
- ActiveRecord.UpdateOverwrites: a new primary-key value in the arguments is ignored; the row stays under its
  old key. SQLAlchemy would move the row to the new key, or fail the commit if that key is taken.
- ActiveRecord.Update: dirty tracking of attached instances is not modelled. Names that a failing `fill`
  assigned before its `KeyError` stay on the instance, and the session's next commit or autoflush would
  write them to the row; this model does not show that later write.
- SafeDelete.Update: the same holds for the soft-delete `update` and for `Models.Update`, which call the
  base `update`.
- The in-memory state of an instance after a rollback (SQLAlchemy expires its attributes) is not
  modelled. A failed `save` leaves the filled attributes in place.
- Historical class creation:
  - Building the class with `type(...)`, `get_main_class` and the class bases is left out.
  - The twin's columns are modelled as a list, `id`, then the copies, then the history columns. A
    source column named like a history column replaces that history column in Python's class
    dictionary, but the list keeps both. For a source column named `history_id`, the source's twin then
    has no primary key at all, while the list still has one. `Schemas.Recordable` (no source column is
    named like a history column) rules this case out. It is a precondition of the key lemmas
    `Schemas.HistoricalPrimaryKey` and `AsyncRecord.HistoricalPrimaryKeyName`, and of the `Models`
    history lemmas. `Schemas.HistoricalNaming`, `HistoricalSettable` and `HistoricalIdType` hold for the
    source's twin in either case.
- Sessions:
  - The live table and the history table are modelled as two sessions, committed one after the
    other. In the source they are one session, but the live commit always finishes before the
    snapshot is staged, so the two behave the same.
  - Every operation requires that nothing is staged when it starts.
- User context:
  - `set_user` is a classmethod, so setting the user on a subclass shadows the base class's slot.
    The model has one context slot.
  - The mixins read `self.user` / `cls.user`, but `UserContext` defines `_user` and
    `context_user_session`. The model takes the user to be the one `set_user` stored.
  - Any set user counts as present (`if self.user:`).
- Import paths that name modules outside the repository are taken as the classes they evidently mean:
  `ActiveRecordModel` is taken as `CustomActiveRecordMixin`; also affected are `dependencies.context.user`
  and `utils.enums`.

## Notes on the source's behaviour

- `_get_primary_key_name` never reaches its "does not have a primary key" error: a column collection
  is never `None`. A model with no primary key fails at `primary_keys[0]` with an `IndexError`
  instead. `AsyncRecord.PrimaryKeyName` models the code, which returns `NoPrimaryKeyColumn`.
- `upsert` and `get_or_create` in the soft-delete classes look an id up among live rows only.
  Suppose the arguments carry the id of a soft-deleted row: the fallback `create` inserts that same
  primary key, and the commit fails. The deleted row is neither revived nor duplicated
  (`SafeDelete.ReusedDeletedIdFails`).
- `bulk_create_async` commits after each batch. When a later batch fails, the earlier batches stay
  committed (`AsyncRecord.BulkSplit`). A batch whose filling fails stages nothing, so only the batches
  before it are stored.
