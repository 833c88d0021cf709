/**
 * Soft deletion with audit stamps (`SafeDeleteBase`): `delete` marks a row deleted instead of
 * removing it, `create` and `update` stamp the acting user and the update time, and
 * `all`, `upsert` and `get_or_create` look only at rows that are not deleted.
 */
module SafeDelete {
  import opened Common
  import opened Storage
  import opened User
  import AR = ActiveRecord

  /** `create`'s arguments: `updated_by_id` is set to the context user's id, if there is one. */
  function CreateKwargs(kw: Kwargs, actor: Option<Key>): Kwargs {
    match actor
    case Some(u) => SetKw(kw, "updated_by_id", Int(u))
    case None => kw
  }

  /** `update`'s arguments: `updated_at` is set to the current time, then the user is stamped. */
  function UpdateKwargs(kw: Kwargs, now: Time, actor: Option<Key>): Kwargs {
    CreateKwargs(SetKw(kw, "updated_at", Stamp(now)), actor)
  }

  /** `delete`'s arguments: two readings of the clock, for `updated_at` and `deleted`, and the user. */
  function DeleteKwargs(updatedAt: Time, deletedAt: Time, actor: Option<Key>): Kwargs {
    CreateKwargs([("updated_at", Stamp(updatedAt)), ("deleted", Stamp(deletedAt))], actor)
  }

  /** The user stamp, as the dictionary of `updated_by_id` it adds. */
  function UserStamp(actor: Option<Key>): Record {
    match actor
    case Some(u) => map["updated_by_id" := Int(u)]
    case None => map[]
  }

  /** `create`'s arguments hold every given attribute, except that the user stamp wins. */
  lemma CreateKwargsDict(kw: Kwargs, actor: Option<Key>)
    ensures Dict(CreateKwargs(kw, actor)) == Dict(kw) + UserStamp(actor)
  {
    if actor.Some? {
      SetIsOverlay(Dict(kw), "updated_by_id", Int(actor.value));
    }
  }

  /** `update`'s arguments hold every given attribute, except that the time and user stamps win. */
  lemma UpdateKwargsDict(kw: Kwargs, now: Time, actor: Option<Key>)
    ensures Dict(UpdateKwargs(kw, now, actor)) == Dict(kw)["updated_at" := Stamp(now)] + UserStamp(actor)
  {
    CreateKwargsDict(SetKw(kw, "updated_at", Stamp(now)), actor);
  }

  /** `delete` assigns exactly `updated_at`, `deleted` and the user stamp. */
  lemma DeleteKwargsDict(updatedAt: Time, deletedAt: Time, actor: Option<Key>)
    ensures Dict(DeleteKwargs(updatedAt, deletedAt, actor))
         == map["updated_at" := Stamp(updatedAt), "deleted" := Stamp(deletedAt)] + UserStamp(actor)
  {
    var base: Kwargs := [("updated_at", Stamp(updatedAt)), ("deleted", Stamp(deletedAt))];
    assert Dict(base) == map["updated_at" := Stamp(updatedAt), "deleted" := Stamp(deletedAt)] by {
      var first: Kwargs := [("updated_at", Stamp(updatedAt))];
      assert Dict(first) == map["updated_at" := Stamp(updatedAt)] by {
        DictSnoc([], "updated_at", Stamp(updatedAt));
        assert [] + first == first;
      }
      DictSnoc(first, "deleted", Stamp(deletedAt));
      assert first + [("deleted", Stamp(deletedAt))] == base;
    }
    CreateKwargsDict(base, actor);
  }

  /** A row is live while its `deleted` column is null. */
  predicate IsLive(row: Record) {
    Get(row, "deleted") == Null
  }

  /** The rows that are not soft-deleted. */
  function All(db: Db): map<Key, Record> {
    map k | k in db.rows && IsLive(db.rows[k]) :: db.rows[k]
  }

  /** `all()` is the query `where(deleted=None)`: it yields exactly the rows not soft-deleted. */
  lemma AllIsWhere(db: Db)
    ensures All(db) == Where(db.rows, [("deleted", Null)])
  {
    forall row: Record ensures Matches(row, [("deleted", Null)]) <==> IsLive(row) {
      assert [("deleted", Null)][0] == ("deleted", Null);
    }
  }

  /** The value `kw.get("id")` stands for in a filter: a missing id filters on null. */
  function IdFilter(kw: Kwargs): Value {
    match Lookup(kw, "id")
    case Some(v) => v
    case None => Null
  }

  /** `where(id=kw.get("id"), deleted=None).first()`. */
  function FindLive(db: Db, kw: Kwargs): Option<Key> {
    First(Where(db.rows, [("id", IdFilter(kw)), ("deleted", Null)]))
  }

  /**
   * In a table keyed by `id`, the live lookup finds the row whose key the arguments' `id`
   * names, exactly when that row exists and is not deleted.
   */
  lemma FindLiveByKey(db: Db, kw: Kwargs)
    requires Valid(db) && db.pk == "id"
    ensures forall k :: FindLive(db, kw) == Some(k) <==>
      Lookup(kw, "id") == Some(Int(k)) && k in db.rows && IsLive(db.rows[k])
  {
    var filters: Kwargs := [("id", IdFilter(kw)), ("deleted", Null)];
    var w := Where(db.rows, filters);
    forall k | k in db.rows
      ensures Matches(db.rows[k], filters) <==> IdFilter(kw) == Int(k) && IsLive(db.rows[k])
    {
      assert filters[0] == ("id", IdFilter(kw)) && filters[1] == ("deleted", Null);
    }
    forall k, j | k in w && j in w ensures k == j {
    }
    match Lookup(kw, "id") {
      case Some(v) =>
      case None =>
    }
  }

  /** `cls.create(**kw)`. */
  function CreateSpec(db: Db, settable: set<string>, kw: Kwargs, actor: Option<Key>, ok: bool): AR.Outcome {
    AR.CreateSpec(db, settable, CreateKwargs(kw, actor), ok)
  }

  /** `instance.update(**kw)`, stamping `updated_at` and the user first. */
  function UpdateSpec(db: Db, settable: set<string>, key: Option<Key>, attrs: Record, kw: Kwargs,
                      now: Time, actor: Option<Key>, ok: bool): AR.Outcome {
    AR.UpdateSpec(db, settable, key, attrs, UpdateKwargs(kw, now, actor), ok)
  }

  /** `instance.delete()`: the base `update` with the deletion stamps; the row stays. */
  function DeleteSpec(db: Db, settable: set<string>, key: Option<Key>, attrs: Record,
                      updatedAt: Time, deletedAt: Time, actor: Option<Key>, ok: bool): AR.Outcome {
    AR.UpdateSpec(db, settable, key, attrs, DeleteKwargs(updatedAt, deletedAt, actor), ok)
  }

  /** `cls.upsert(**kw)`: a live row with that id is updated, otherwise `create`. */
  function UpsertSpec(db: Db, settable: set<string>, kw: Kwargs, now: Time, actor: Option<Key>, ok: bool): AR.Outcome {
    match FindLive(db, kw)
    case Some(k) => UpdateSpec(db, settable, Some(k), db.rows[k], kw, now, actor, ok)
    case None => CreateSpec(db, settable, kw, actor, ok)
  }

  /** `cls.get_or_create(**kw)`: a live row with that id is returned, otherwise `create`. */
  function GetOrCreateSpec(db: Db, settable: set<string>, kw: Kwargs, actor: Option<Key>, ok: bool): AR.Outcome {
    match FindLive(db, kw)
    case Some(k) => AR.Outcome(db, Ok(k))
    case None => CreateSpec(db, settable, kw, actor, ok)
  }

  /** The audit columns a soft-delete model can always be filled with. */
  predicate HasAuditColumns(settable: set<string>) {
    {"updated_at", "updated_by_id", "deleted"} <= settable
  }

  /** Stamping one row out of `all()` and leaving the others as they were removes it from `all()`. */
  lemma AllWithout(db: Db, d: Db, k: Key)
    requires k in db.rows && d.rows.Keys == db.rows.Keys && !IsLive(d.rows[k])
    requires forall j | j in db.rows && j != k :: d.rows[j] == db.rows[j]
    ensures All(d) == All(db) - {k}
  {
    var l := All(d);
    var r := All(db) - {k};
    forall j ensures j in l <==> j in r {
      if j != k && j in db.rows {
        assert d.rows[j] == db.rows[j];
      }
    }
    forall j | j in l ensures l[j] == r[j] {
      assert d.rows[j] == db.rows[j];
    }
  }

  /** The deletion stamps overlaid on a stored row, which already holds its own key. */
  lemma DeleteStampsRow(row: Record, k: Key, t1: Time, t2: Time, actor: Option<Key>)
    requires Get(row, "id") == Int(k)
    ensures (row + Dict(DeleteKwargs(t1, t2, actor)))["id" := Int(k)]
         == row + map["updated_at" := Stamp(t1), "deleted" := Stamp(t2)] + UserStamp(actor)
    ensures Get(row + map["updated_at" := Stamp(t1), "deleted" := Stamp(t2)] + UserStamp(actor), "deleted") == Stamp(t2)
  {
    DeleteKwargsDict(t1, t2, actor);
    var stamps := map["updated_at" := Stamp(t1), "deleted" := Stamp(t2)] + UserStamp(actor);
    assert row + stamps == row + map["updated_at" := Stamp(t1), "deleted" := Stamp(t2)] + UserStamp(actor);
    assert (row + stamps)["id" := Int(k)] == row + stamps;
  }

  /**
   * Deleting a stored row keeps it, stamps `deleted`, `updated_at` and the user and changes
   * nothing else; the row leaves `all()` and every other row stays as it was.
   */
  lemma DeleteKeepsRow(db: Db, settable: set<string>, k: Key, t1: Time, t2: Time, actor: Option<Key>)
    requires Valid(db) && db.pk == "id" && k in db.rows && HasAuditColumns(settable)
    ensures var o := DeleteSpec(db, settable, Some(k), db.rows[k], t1, t2, actor, true);
      && Valid(o.db) && o.db.pk == db.pk
      && o.res == Ok(k)
      && o.db.rows.Keys == db.rows.Keys
      && o.db.rows[k] == db.rows[k] + map["updated_at" := Stamp(t1), "deleted" := Stamp(t2)] + UserStamp(actor)
      && (forall j | j in db.rows && j != k :: o.db.rows[j] == db.rows[j])
      && All(o.db) == All(db) - {k}
  {
    var dk := DeleteKwargs(t1, t2, actor);
    var o := DeleteSpec(db, settable, Some(k), db.rows[k], t1, t2, actor, true);
    var row := db.rows[k] + map["updated_at" := Stamp(t1), "deleted" := Stamp(t2)] + UserStamp(actor);
    assert Dict(dk).Keys <= settable by {
      DeleteKwargsDict(t1, t2, actor);
    }
    assert Valid(o.db) && o.db.pk == db.pk && o.res == Ok(k) && o.db.rows == db.rows[k := row] by {
      AR.UpdateOverwrites(db, settable, k, db.rows[k], dk, true);
      DeleteStampsRow(db.rows[k], k, t1, t2, actor);
    }
    assert !IsLive(row) by {
      DeleteStampsRow(db.rows[k], k, t1, t2, actor);
    }
    AllWithout(db, o.db, k);
  }

  /** A failed commit leaves a deletion without effect. */
  lemma DeleteFailsCleanly(db: Db, settable: set<string>, key: Option<Key>, attrs: Record, t1: Time, t2: Time, actor: Option<Key>)
    ensures var o := DeleteSpec(db, settable, key, attrs, t1, t2, actor, false);
      o.db == db && o.res.Err?
  {
  }

  /** Deleting a row that is already deleted succeeds again and re-stamps it; `all()` does not change. */
  lemma DeleteRepeats(db: Db, settable: set<string>, k: Key, t1: Time, t2: Time, actor: Option<Key>)
    requires Valid(db) && db.pk == "id" && k in db.rows && !IsLive(db.rows[k]) && HasAuditColumns(settable)
    ensures var o := DeleteSpec(db, settable, Some(k), db.rows[k], t1, t2, actor, true);
      && o.res == Ok(k)
      && k in o.db.rows && Get(o.db.rows[k], "deleted") == Stamp(t2)
      && All(o.db) == All(db)
  {
    DeleteKeepsRow(db, settable, k, t1, t2, actor);
    assert All(db) - {k} == All(db);
  }

  /**
   * `create` with settable arguments stores them with the context user's id in `updated_by_id`,
   * whatever the arguments said.
   */
  lemma CreateStamps(db: Db, settable: set<string>, kw: Kwargs, u: Key)
    requires Valid(db) && db.pk == "id" && Dict(kw).Keys + {"updated_by_id"} <= settable
    requires InsertKey(db, Dict(kw)) !in db.rows
    ensures var o := CreateSpec(db, settable, kw, Some(u), true);
      var k := InsertKey(db, Dict(kw));
      && o.res == Ok(k)
      && o.db.rows == db.rows[k := (Dict(kw)["updated_by_id" := Int(u)])["id" := Int(k)]]
  {
    CreateKwargsDict(kw, Some(u));
    var ck := CreateKwargs(kw, Some(u));
    assert Get(Dict(ck), "id") == Get(Dict(kw), "id");
    AR.CreateInserts(db, settable, ck, true);
  }

  /**
   * `update` of a stored row with settable arguments overwrites the given fields, sets
   * `updated_at` to the current time and stamps the user, whatever the arguments said.
   */
  lemma UpdateStamps(db: Db, settable: set<string>, k: Key, kw: Kwargs, now: Time, actor: Option<Key>)
    requires Valid(db) && db.pk == "id" && k in db.rows
    requires Dict(kw).Keys <= settable && HasAuditColumns(settable)
    ensures var o := UpdateSpec(db, settable, Some(k), db.rows[k], kw, now, actor, true);
      && o.res == Ok(k)
      && o.db.rows == db.rows[k := ((db.rows[k] + Dict(kw))["updated_at" := Stamp(now)] + UserStamp(actor))["id" := Int(k)]]
  {
    var stamped := (db.rows[k] + Dict(kw))["updated_at" := Stamp(now)] + UserStamp(actor);
    assert db.rows[k] + Dict(UpdateKwargs(kw, now, actor)) == stamped by {
      UpdateKwargsDict(kw, now, actor);
      OverlayStamped(db.rows[k], Dict(kw), "updated_at", Stamp(now), UserStamp(actor));
    }
    AR.UpdateOverwrites(db, settable, k, db.rows[k], UpdateKwargs(kw, now, actor), true);
  }

  /** The `updated_by_id` a stamped write leaves: the context user's id, or `fallback` without a user. */
  function StampedBy(ctx: UserContext, fallback: Value): Value
    reads ctx
  {
    match ctx.user
    case Some(u) => Int(u.id)
    case None => fallback
  }

  /**
   * `create` in a user context: the new row's `updated_by_id` is the context user's id when a
   * user is set, and the argument's own value otherwise.
   */
  lemma CreateStampsContextUser(db: Db, settable: set<string>, kw: Kwargs, ctx: UserContext)
    requires Valid(db) && db.pk == "id" && Dict(kw).Keys + {"updated_by_id"} <= settable
    requires InsertKey(db, Dict(kw)) !in db.rows
    ensures var o := CreateSpec(db, settable, kw, ctx.Actor(), true);
      && o.res.Ok? && o.res.value in o.db.rows
      && Get(o.db.rows[o.res.value], "updated_by_id") == StampedBy(ctx, Get(Dict(kw), "updated_by_id"))
  {
    var ck := CreateKwargs(kw, ctx.Actor());
    CreateKwargsDict(kw, ctx.Actor());
    assert Get(Dict(ck), "id") == Get(Dict(kw), "id");
    AR.CreateInserts(db, settable, ck, true);
  }

  /**
   * `update` in a user context: the row's `updated_by_id` is the context user's id when a user
   * is set, and otherwise what the arguments or the stored row held.
   */
  lemma UpdateStampsContextUser(db: Db, settable: set<string>, k: Key, kw: Kwargs, now: Time, ctx: UserContext)
    requires Valid(db) && db.pk == "id" && k in db.rows
    requires Dict(kw).Keys <= settable && HasAuditColumns(settable)
    ensures var o := UpdateSpec(db, settable, Some(k), db.rows[k], kw, now, ctx.Actor(), true);
      && o.res == Ok(k) && k in o.db.rows
      && Get(o.db.rows[k], "updated_by_id") == StampedBy(ctx, Get(db.rows[k] + Dict(kw), "updated_by_id"))
  {
    var row := (db.rows[k] + Dict(kw))["updated_at" := Stamp(now)] + UserStamp(ctx.Actor());
    var o := UpdateSpec(db, settable, Some(k), db.rows[k], kw, now, ctx.Actor(), true);
    assert o.res == Ok(k) && o.db.rows == db.rows[k := row["id" := Int(k)]] by {
      UpdateStamps(db, settable, k, kw, now, ctx.Actor());
    }
    UserStampGet(db.rows[k] + Dict(kw), now, k, ctx);
  }

  /** The user stamp on an updated row is the context user's id, or what the row held before. */
  lemma UserStampGet(row: Record, now: Time, k: Key, ctx: UserContext)
    ensures Get((row["updated_at" := Stamp(now)] + UserStamp(ctx.Actor()))["id" := Int(k)], "updated_by_id")
         == StampedBy(ctx, Get(row, "updated_by_id"))
  {
  }

  /** The row an update stores carries its own key and the new `updated_at` stamp. */
  lemma UpdatedRow(row: Record, k: Key, now: Time, actor: Option<Key>)
    ensures var r := (row["updated_at" := Stamp(now)] + UserStamp(actor))["id" := Int(k)];
      Get(r, "id") == Int(k) && Get(r, "updated_at") == Stamp(now)
  {
  }

  /** `upsert` of the id of a live row updates that row in place and adds none. */
  lemma UpsertLive(db: Db, settable: set<string>, kw: Kwargs, k: Key, now: Time, actor: Option<Key>)
    requires Valid(db) && db.pk == "id" && k in db.rows && IsLive(db.rows[k])
    requires Lookup(kw, "id") == Some(Int(k))
    requires Dict(kw).Keys <= settable && HasAuditColumns(settable)
    ensures var o := UpsertSpec(db, settable, kw, now, actor, true);
      && o.res == Ok(k)
      && o.db.rows.Keys == db.rows.Keys
      && o.db.rows[k] == ((db.rows[k] + Dict(kw))["updated_at" := Stamp(now)] + UserStamp(actor))["id" := Int(k)]
  {
    FindLiveByKey(db, kw);
    UpdateStamps(db, settable, k, kw, now, actor);
  }

  /** `upsert` without an id creates a new row under the next autoincrement key. */
  lemma UpsertWithoutIdCreates(db: Db, settable: set<string>, kw: Kwargs, now: Time, actor: Option<Key>)
    requires Valid(db) && db.pk == "id" && "id" !in Dict(kw)
    requires Dict(kw).Keys + {"updated_by_id"} <= settable
    ensures var o := UpsertSpec(db, settable, kw, now, actor, true);
      && o.res == Ok(db.nextId)
      && o.db.rows == db.rows[db.nextId := (Dict(kw) + UserStamp(actor))["id" := Int(db.nextId)]]
  {
    FindLiveByKey(db, kw);
    CreateKwargsDict(kw, actor);
    var ck := CreateKwargs(kw, actor);
    assert Get(Dict(ck), "id") == Null;
    AR.CreateInserts(db, settable, ck, true);
  }

  /**
   * `upsert` or `get_or_create` with the id of a soft-deleted row does not revive or touch that
   * row: the lookup skips it, the insert of the same id conflicts, and the call fails with the
   * table unchanged.
   */
  lemma ReusedDeletedIdFails(db: Db, settable: set<string>, kw: Kwargs, k: Key, now: Time, actor: Option<Key>, ok: bool)
    requires Valid(db) && db.pk == "id" && k in db.rows && !IsLive(db.rows[k])
    requires Lookup(kw, "id") == Some(Int(k))
    ensures var o := UpsertSpec(db, settable, kw, now, actor, ok);
      o.db == db && o.res.Err?
    ensures var o := GetOrCreateSpec(db, settable, kw, actor, ok);
      o.db == db && o.res.Err?
  {
    FindLiveByKey(db, kw);
    CreateKwargsDict(kw, actor);
    var ck := CreateKwargs(kw, actor);
    if Dict(ck).Keys <= settable {
      assert Get(Dict(ck), "id") == Int(k);
      AR.CreateInserts(db, settable, ck, ok);
    } else {
      AR.CreateRejectsUnknown(db, settable, ck, ok);
    }
  }

  /** `get_or_create` of the id of a live row returns it unchanged and applies no argument. */
  lemma GetOrCreateLive(db: Db, settable: set<string>, kw: Kwargs, k: Key, actor: Option<Key>, ok: bool)
    requires Valid(db) && db.pk == "id" && k in db.rows && IsLive(db.rows[k])
    requires Lookup(kw, "id") == Some(Int(k))
    ensures GetOrCreateSpec(db, settable, kw, actor, ok) == AR.Outcome(db, Ok(k))
  {
    FindLiveByKey(db, kw);
  }

  /** `self.delete()`. */
  method Delete(inst: AR.Instance, ctx: UserContext, t1: Time, t2: Time, s: Session, ok: bool)
    returns (r: Result<AR.Instance, Error>)
    requires s.pending == []
    modifies inst, s
    ensures s.pending == []
    ensures var o := DeleteSpec(old(s.db), inst.settable, old(inst.key), old(inst.attrs), t1, t2, ctx.Actor(), ok);
      s.db == o.db && AR.Reports(r, o)
  {
    r := AR.Update(inst, DeleteKwargs(t1, t2, ctx.Actor()), s, ok);
  }

  /** `cls.create(**kw)`. */
  method Create(settable: set<string>, kw: Kwargs, ctx: UserContext, s: Session, ok: bool)
    returns (r: Result<AR.Instance, Error>)
    requires s.pending == []
    modifies s
    ensures s.pending == []
    ensures var o := CreateSpec(old(s.db), settable, kw, ctx.Actor(), ok);
      s.db == o.db && AR.Reports(r, o)
  {
    r := AR.Create(settable, CreateKwargs(kw, ctx.Actor()), s, ok);
  }

  /** `self.update(**kw)`. */
  method Update(inst: AR.Instance, kw: Kwargs, ctx: UserContext, now: Time, s: Session, ok: bool)
    returns (r: Result<AR.Instance, Error>)
    requires s.pending == []
    modifies inst, s
    ensures s.pending == []
    ensures var o := UpdateSpec(old(s.db), inst.settable, old(inst.key), old(inst.attrs), kw, now, ctx.Actor(), ok);
      s.db == o.db && AR.Reports(r, o)
  {
    r := AR.Update(inst, UpdateKwargs(kw, now, ctx.Actor()), s, ok);
  }

  /** `cls.upsert(**kw)`. */
  method Upsert(settable: set<string>, kw: Kwargs, ctx: UserContext, now: Time, s: Session, ok: bool)
    returns (r: Result<AR.Instance, Error>)
    requires s.pending == []
    modifies s
    ensures s.pending == []
    ensures var o := UpsertSpec(old(s.db), settable, kw, now, ctx.Actor(), ok);
      s.db == o.db && AR.Reports(r, o)
  {
    var found := FindLive(s.db, kw);
    if found.Some? {
      var inst := new AR.Instance.Loaded(settable, found.value, s.db.rows[found.value]);
      r := Update(inst, kw, ctx, now, s, ok);
      return;
    }
    r := Create(settable, kw, ctx, s, ok);
  }

  /** `cls.get_or_create(**kw)`. */
  method GetOrCreate(settable: set<string>, kw: Kwargs, ctx: UserContext, s: Session, ok: bool)
    returns (r: Result<AR.Instance, Error>)
    requires s.pending == []
    modifies s
    ensures s.pending == []
    ensures var o := GetOrCreateSpec(old(s.db), settable, kw, ctx.Actor(), ok);
      s.db == o.db && AR.Reports(r, o)
  {
    var found := FindLive(s.db, kw);
    if found.Some? {
      var inst := new AR.Instance.Loaded(settable, found.value, s.db.rows[found.value]);
      return Ok(inst);
    }
    r := Create(settable, kw, ctx, s, ok);
  }
}
