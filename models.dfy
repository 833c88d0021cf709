/**
 * `FastAlchemyModel`: the soft-delete operations, each followed, on a historical model, by a
 * snapshot of the affected row in the model's historical twin.
 */
module Models {
  import opened Common
  import opened Storage
  import opened Schemas
  import opened User
  import History
  import AR = ActiveRecord
  import SD = SafeDelete

  /** What an operation leaves in the model's table and in its history table, and its result. */
  datatype Outcome = Outcome(live: Db, hist: Db, res: Result<Key, Error>)

  /** `to_dict()` of a row: one pair per column of the model, in column order. */
  function Snapshot(cols: seq<Column>, row: Record): Kwargs
    decreases |cols|
  {
    if cols == [] then []
    else Snapshot(cols[..|cols| - 1], row) + [(cols[|cols| - 1].name, Get(row, cols[|cols| - 1].name))]
  }

  /** A snapshot has one entry per column, holding the row's value for it. */
  lemma {:induction false} SnapshotDict(cols: seq<Column>, row: Record)
    ensures Dict(Snapshot(cols, row)).Keys == Names(cols)
    ensures forall n | n in Dict(Snapshot(cols, row)) :: Dict(Snapshot(cols, row))[n] == Get(row, n)
    decreases |cols|
  {
    if cols != [] {
      var p := cols[..|cols| - 1];
      var c := cols[|cols| - 1];
      var sp := Snapshot(p, row);
      SnapshotDict(p, row);
      DictSnoc(sp, c.name, Get(row, c.name));
      NamesSnoc(cols);
    }
  }

  /** The stored row under `k`, or an empty record. */
  function RowOf(db: Db, k: Key): Record {
    if k in db.rows then db.rows[k] else map[]
  }

  /**
   * The history step after a successful live operation: on a historical model, one snapshot of
   * the row is recorded with the action tag. A failed history commit is reported as the
   * operation's failure, although the live change stays committed.
   */
  function WithHistory(o: AR.Outcome, hist: Db, m: Model, h: Option<Model>, action: HistoryType,
                       actor: Option<Key>, histOk: bool): Outcome {
    match o.res
    case Err(e) => Outcome(o.db, hist, Err(e))
    case Ok(k) =>
      match h
      case None => Outcome(o.db, hist, Ok(k))
      case Some(hm) =>
        var rec := History.RecordSpec(hist, hm, action, Snapshot(m.schema.columns, RowOf(o.db, k)), actor, histOk);
        match rec.res
        case Ok(_) => Outcome(o.db, rec.db, Ok(k))
        case Err(e) => Outcome(o.db, hist, Err(e))
  }

  /**
   * After a successful live operation on a historical model, the history gains exactly one row,
   * under the next history id, tagged with the action and holding every column of the live row
   * as it now stands.
   */
  lemma WithHistoryAppends(o: AR.Outcome, hist: Db, m: Model, action: HistoryType, actor: Option<Key>)
    requires o.res.Ok? && Valid(hist) && hist.pk == "history_id" && Recordable(m)
    ensures var w := WithHistory(o, hist, m, Some(CreateHistorical(m)), action, actor, true);
      var id := hist.nextId;
      && w.live == o.db
      && Valid(w.hist)
      && w.res == o.res
      && id !in hist.rows
      && w.hist.rows.Keys == hist.rows.Keys + {id}
      && w.hist.rows == hist.rows[id := w.hist.rows[id]]
      && Get(w.hist.rows[id], "history_type") == Kind(action)
      && forall n | n in Settable(m) :: Get(w.hist.rows[id], n) == Get(RowOf(o.db, o.res.value), n)
  {
    var k := o.res.value;
    var hm := CreateHistorical(m);
    var row := RowOf(o.db, k);
    var snap := Snapshot(m.schema.columns, row);
    assert "history_id" !in Dict(snap) && Dict(snap).Keys + {"history_type", "history_user_id"} <= Settable(hm) by {
      SnapshotDict(m.schema.columns, row);
      HistoricalSettable(m);
    }
    History.RecordAppends(hist, hm, action, snap, actor, true);
    var id := hist.nextId;
    var x := Dict(History.RecordKwargs(snap, action, actor))[hist.pk := Int(id)];
    assert History.RecordSpec(hist, hm, action, snap, actor, true).db.rows == hist.rows[id := x];
    SnapshotRecorded(m, row, action, actor, id);
  }

  /** A failed history commit leaves the history as it was and fails the call; the live change stays. */
  lemma WithHistoryFails(o: AR.Outcome, hist: Db, m: Model, action: HistoryType, actor: Option<Key>)
    requires o.res.Ok? && Valid(hist) && hist.pk == "history_id" && Recordable(m)
    ensures var w := WithHistory(o, hist, m, Some(CreateHistorical(m)), action, actor, false);
      w.live == o.db && w.hist == hist && w.res == Err(StorageFailure)
  {
    var snap := Snapshot(m.schema.columns, RowOf(o.db, o.res.value));
    assert "history_id" !in Dict(snap) && Dict(snap).Keys + {"history_type", "history_user_id"} <= Settable(CreateHistorical(m)) by {
      SnapshotDict(m.schema.columns, RowOf(o.db, o.res.value));
      HistoricalSettable(m);
    }
    History.RecordAppends(hist, CreateHistorical(m), action, snap, actor, false);
  }

  /** The recorded snapshot holds, for every column of the model, the row's value. */
  lemma SnapshotRecorded(m: Model, row: Record, action: HistoryType, actor: Option<Key>, id: Key)
    requires Recordable(m)
    ensures var d := Dict(History.RecordKwargs(Snapshot(m.schema.columns, row), action, actor))["history_id" := Int(id)];
      forall n | n in Settable(m) :: Get(d, n) == Get(row, n)
  {
    var snap := Snapshot(m.schema.columns, row);
    SnapshotDict(m.schema.columns, row);
    History.RecordKwargsDict(snap, action, actor);
    var d := Dict(History.RecordKwargs(snap, action, actor))["history_id" := Int(id)];
    forall n | n in Settable(m) ensures Get(d, n) == Get(row, n) {
      assert n !in HistoryNames();
      assert n in Dict(snap);
    }
  }

  /** Nothing is recorded when the live operation fails. */
  lemma NoHistoryOnLiveFailure(o: AR.Outcome, hist: Db, m: Model, h: Option<Model>, action: HistoryType, actor: Option<Key>, histOk: bool)
    requires o.res.Err?
    ensures WithHistory(o, hist, m, h, action, actor, histOk) == Outcome(o.db, hist, o.res)
  {
  }

  /** A model that is not historical never writes history. */
  lemma NonHistoricalKeepsHistory(o: AR.Outcome, hist: Db, m: Model, action: HistoryType, actor: Option<Key>, histOk: bool)
    requires !m.historical
    ensures WithHistory(o, hist, m, History.HistoricalOf(m), action, actor, histOk) == Outcome(o.db, hist, o.res)
  {
  }

  /** `cls.create(**kw)`. */
  function CreateSpec(live: Db, hist: Db, m: Model, h: Option<Model>, kw: Kwargs, actor: Option<Key>,
                      ok: bool, histOk: bool): Outcome {
    WithHistory(SD.CreateSpec(live, Settable(m), kw, actor, ok), hist, m, h, ADD, actor, histOk)
  }

  /** `instance.update(**kw)`. */
  function UpdateSpec(live: Db, hist: Db, m: Model, h: Option<Model>, key: Option<Key>, attrs: Record,
                      kw: Kwargs, now: Time, actor: Option<Key>, ok: bool, histOk: bool): Outcome {
    WithHistory(SD.UpdateSpec(live, Settable(m), key, attrs, kw, now, actor, ok), hist, m, h, UPDATE, actor, histOk)
  }

  /** `instance.delete()`. */
  function DeleteSpec(live: Db, hist: Db, m: Model, h: Option<Model>, key: Option<Key>, attrs: Record,
                      updatedAt: Time, deletedAt: Time, actor: Option<Key>, ok: bool, histOk: bool): Outcome {
    WithHistory(SD.DeleteSpec(live, Settable(m), key, attrs, updatedAt, deletedAt, actor, ok), hist, m, h, DEL, actor, histOk)
  }

  /** `cls.upsert(**kw)`. */
  function UpsertSpec(live: Db, hist: Db, m: Model, h: Option<Model>, kw: Kwargs, now: Time, actor: Option<Key>,
                      ok: bool, histOk: bool): Outcome {
    match SD.FindLive(live, kw)
    case Some(k) => UpdateSpec(live, hist, m, h, Some(k), live.rows[k], kw, now, actor, ok, histOk)
    case None => CreateSpec(live, hist, m, h, kw, actor, ok, histOk)
  }

  /** `cls.get_or_create(**kw)`. */
  function GetOrCreateSpec(live: Db, hist: Db, m: Model, h: Option<Model>, kw: Kwargs, actor: Option<Key>,
                           ok: bool, histOk: bool): Outcome {
    match SD.FindLive(live, kw)
    case Some(k) => Outcome(live, hist, Ok(k))
    case None => CreateSpec(live, hist, m, h, kw, actor, ok, histOk)
  }

  /** The preconditions the history lemmas share: both tables well formed, keyed as the models key them. */
  predicate Tables(live: Db, hist: Db, m: Model) {
    Valid(live) && live.pk == "id" && Valid(hist) && hist.pk == "history_id"
    && Recordable(m) && "id" in Settable(m) && SD.HasAuditColumns(Settable(m))
  }

  /**
   * A soft delete of a stored row of a historical model records one `DEL` snapshot that
   * carries the row's id and its new `deleted` stamp; the row stays in the live table.
   */
  lemma DeleteRecordsDel(live: Db, hist: Db, m: Model, k: Key, t1: Time, t2: Time, actor: Option<Key>)
    requires Tables(live, hist, m) && k in live.rows
    ensures var w := DeleteSpec(live, hist, m, Some(CreateHistorical(m)), Some(k), live.rows[k], t1, t2, actor, true, true);
      var id := hist.nextId;
      && w.res == Ok(k)
      && w.live.rows.Keys == live.rows.Keys
      && w.hist.rows.Keys == hist.rows.Keys + {id}
      && id !in hist.rows
      && Get(w.hist.rows[id], "history_type") == Kind(DEL)
      && Get(w.hist.rows[id], "id") == Int(k)
      && Get(w.hist.rows[id], "deleted") == Stamp(t2)
  {
    var o := SD.DeleteSpec(live, Settable(m), Some(k), live.rows[k], t1, t2, actor, true);
    assert o.res == Ok(k) && o.db.rows.Keys == live.rows.Keys
        && Get(RowOf(o.db, k), "id") == Int(k) && Get(RowOf(o.db, k), "deleted") == Stamp(t2) by {
      SD.DeleteKeepsRow(live, Settable(m), k, t1, t2, actor);
    }
    WithHistoryAppends(o, hist, m, DEL, actor);
  }

  /**
   * A successful `create` on a historical model records one `ADD` snapshot of the new row,
   * carrying its id.
   */
  lemma CreateRecordsAdd(live: Db, hist: Db, m: Model, kw: Kwargs, actor: Option<Key>)
    requires Tables(live, hist, m)
    requires SD.CreateSpec(live, Settable(m), kw, actor, true).res.Ok?
    ensures var w := CreateSpec(live, hist, m, Some(CreateHistorical(m)), kw, actor, true, true);
      var id := hist.nextId;
      && w.res.Ok?
      && w.live == SD.CreateSpec(live, Settable(m), kw, actor, true).db
      && w.hist.rows.Keys == hist.rows.Keys + {id}
      && Get(w.hist.rows[id], "history_type") == Kind(ADD)
      && Get(w.hist.rows[id], "id") == Int(w.res.value)
  {
    var o := SD.CreateSpec(live, Settable(m), kw, actor, true);
    var k := o.res.value;
    AR.SaveStores(live, None, FillOf(Settable(m), SD.CreateKwargs(kw, actor)), true);
    WithHistoryAppends(o, hist, m, ADD, actor);
    assert Get(RowOf(o.db, k), "id") == Int(k);
  }

  /** The attributes `fill` leaves on a fresh instance. */
  function FillOf(settable: set<string>, kw: Kwargs): Record {
    AR.FillSpec(map[], kw, settable).attrs
  }

  /**
   * A successful `update` on a historical model records one `UPDATE` snapshot of the updated
   * row, carrying its id and its new `updated_at` stamp.
   */
  lemma UpdateRecordsUpdate(live: Db, hist: Db, m: Model, k: Key, kw: Kwargs, now: Time, actor: Option<Key>)
    requires Tables(live, hist, m) && k in live.rows && Dict(kw).Keys <= Settable(m)
    ensures var w := UpdateSpec(live, hist, m, Some(CreateHistorical(m)), Some(k), live.rows[k], kw, now, actor, true, true);
      var id := hist.nextId;
      && w.res == Ok(k)
      && w.live.rows.Keys == live.rows.Keys
      && w.hist.rows.Keys == hist.rows.Keys + {id}
      && Get(w.hist.rows[id], "history_type") == Kind(UPDATE)
      && Get(w.hist.rows[id], "id") == Int(k)
      && Get(w.hist.rows[id], "updated_at") == Stamp(now)
  {
    var o := SD.UpdateSpec(live, Settable(m), Some(k), live.rows[k], kw, now, actor, true);
    assert o.res == Ok(k) && o.db.rows.Keys == live.rows.Keys
        && Get(RowOf(o.db, k), "id") == Int(k) && Get(RowOf(o.db, k), "updated_at") == Stamp(now) by {
      SD.UpdateStamps(live, Settable(m), k, kw, now, actor);
      SD.UpdatedRow(live.rows[k] + Dict(kw), k, now, actor);
    }
    WithHistoryAppends(o, hist, m, UPDATE, actor);
  }

  /**
   * An `upsert` naming a live row of a historical model updates it and records one `UPDATE`
   * snapshot that carries the row's id and its new `updated_at` stamp.
   */
  lemma UpsertHitRecordsUpdate(live: Db, hist: Db, m: Model, k: Key, kw: Kwargs, now: Time, actor: Option<Key>)
    requires Tables(live, hist, m) && k in live.rows && SD.IsLive(live.rows[k])
    requires Lookup(kw, "id") == Some(Int(k)) && Dict(kw).Keys <= Settable(m)
    ensures var w := UpsertSpec(live, hist, m, Some(CreateHistorical(m)), kw, now, actor, true, true);
      var id := hist.nextId;
      && w.res == Ok(k)
      && w.live.rows.Keys == live.rows.Keys
      && w.hist.rows.Keys == hist.rows.Keys + {id}
      && Get(w.hist.rows[id], "history_type") == Kind(UPDATE)
      && Get(w.hist.rows[id], "id") == Int(k)
      && Get(w.hist.rows[id], "updated_at") == Stamp(now)
  {
    var h := Some(CreateHistorical(m));
    assert UpsertSpec(live, hist, m, h, kw, now, actor, true, true)
        == UpdateSpec(live, hist, m, h, Some(k), live.rows[k], kw, now, actor, true, true) by {
      SD.FindLiveByKey(live, kw);
    }
    UpdateRecordsUpdate(live, hist, m, k, kw, now, actor);
  }

  /**
   * An `upsert` that names no live row of a historical model creates one and records one `ADD`
   * snapshot that carries the new id.
   */
  lemma UpsertMissRecordsAdd(live: Db, hist: Db, m: Model, kw: Kwargs, now: Time, actor: Option<Key>)
    requires Tables(live, hist, m)
    requires forall k | k in live.rows && SD.IsLive(live.rows[k]) :: Lookup(kw, "id") != Some(Int(k))
    requires SD.CreateSpec(live, Settable(m), kw, actor, true).res.Ok?
    ensures var w := UpsertSpec(live, hist, m, Some(CreateHistorical(m)), kw, now, actor, true, true);
      var id := hist.nextId;
      && w.res.Ok?
      && w.live == SD.CreateSpec(live, Settable(m), kw, actor, true).db
      && w.hist.rows.Keys == hist.rows.Keys + {id}
      && Get(w.hist.rows[id], "history_type") == Kind(ADD)
      && Get(w.hist.rows[id], "id") == Int(w.res.value)
  {
    SD.FindLiveByKey(live, kw);
    assert SD.FindLive(live, kw).None?;
    CreateRecordsAdd(live, hist, m, kw, actor);
  }

  /** A `get_or_create` that finds a live row writes no history. */
  lemma GetOrCreateHitWritesNothing(live: Db, hist: Db, m: Model, h: Option<Model>, kw: Kwargs, k: Key,
                                    actor: Option<Key>, ok: bool, histOk: bool)
    requires Valid(live) && live.pk == "id" && k in live.rows && SD.IsLive(live.rows[k])
    requires Lookup(kw, "id") == Some(Int(k))
    ensures GetOrCreateSpec(live, hist, m, h, kw, actor, ok, histOk) == Outcome(live, hist, Ok(k))
  {
    SD.FindLiveByKey(live, kw);
  }

  /** The history step after a live operation whose result `r` reports `o`. */
  method Log(m: Model, h: Option<Model>, action: HistoryType, r0: Result<AR.Instance, Error>, ghost o: AR.Outcome,
             ctx: UserContext, hs: Session, histOk: bool) returns (r: Result<AR.Instance, Error>)
    requires AR.Reports(r0, o) && hs.pending == []
    modifies hs
    ensures hs.pending == []
    ensures var w := WithHistory(o, old(hs.db), m, h, action, ctx.Actor(), histOk);
      hs.db == w.hist && AR.Reports(r, AR.Outcome(o.db, w.res))
  {
    if r0.Err? || h.None? {
      return r0;
    }
    var snap := Snapshot(m.schema.columns, r0.value.attrs);
    assert RowOf(o.db, o.res.value) == r0.value.attrs;
    ghost var rec := History.RecordSpec(hs.db, h.value, action, snap, ctx.Actor(), histOk);
    ghost var w := WithHistory(o, hs.db, m, h, action, ctx.Actor(), histOk);
    assert w == if rec.res.Ok? then Outcome(o.db, rec.db, o.res) else Outcome(o.db, hs.db, Err(rec.res.error));
    var hr := History.CreateHistoricalRecord(h.value, action, snap, ctx.Actor(), hs, histOk);
    if hr.Err? {
      return Err(hr.error);
    }
    r := r0;
  }

  /** `cls.create(**kw)`. */
  method Create(mc: History.ModelClass, kw: Kwargs, ctx: UserContext, s: Session, hs: Session, ok: bool, histOk: bool)
    returns (r: Result<AR.Instance, Error>)
    requires s != hs && s.pending == [] && hs.pending == []
    modifies s, hs
    ensures s.pending == [] && hs.pending == []
    ensures var w := CreateSpec(old(s.db), old(hs.db), mc.model, mc.historical, kw, ctx.Actor(), ok, histOk);
      s.db == w.live && hs.db == w.hist && AR.Reports(r, AR.Outcome(w.live, w.res))
  {
    ghost var o := SD.CreateSpec(s.db, Settable(mc.model), kw, ctx.Actor(), ok);
    var r0 := SD.Create(Settable(mc.model), kw, ctx, s, ok);
    r := Log(mc.model, mc.historical, ADD, r0, o, ctx, hs, histOk);
  }

  /** `self.update(**kw)`. */
  method Update(mc: History.ModelClass, inst: AR.Instance, kw: Kwargs, ctx: UserContext, now: Time,
                s: Session, hs: Session, ok: bool, histOk: bool) returns (r: Result<AR.Instance, Error>)
    requires s != hs && s.pending == [] && hs.pending == [] && inst.settable == Settable(mc.model)
    modifies inst, s, hs
    ensures s.pending == [] && hs.pending == []
    ensures var w := UpdateSpec(old(s.db), old(hs.db), mc.model, mc.historical, old(inst.key), old(inst.attrs),
                                kw, now, ctx.Actor(), ok, histOk);
      s.db == w.live && hs.db == w.hist && AR.Reports(r, AR.Outcome(w.live, w.res))
  {
    ghost var o := SD.UpdateSpec(s.db, inst.settable, inst.key, inst.attrs, kw, now, ctx.Actor(), ok);
    var r0 := SD.Update(inst, kw, ctx, now, s, ok);
    r := Log(mc.model, mc.historical, UPDATE, r0, o, ctx, hs, histOk);
  }

  /** `self.delete()`. */
  method Delete(mc: History.ModelClass, inst: AR.Instance, ctx: UserContext, t1: Time, t2: Time,
                s: Session, hs: Session, ok: bool, histOk: bool) returns (r: Result<AR.Instance, Error>)
    requires s != hs && s.pending == [] && hs.pending == [] && inst.settable == Settable(mc.model)
    modifies inst, s, hs
    ensures s.pending == [] && hs.pending == []
    ensures var w := DeleteSpec(old(s.db), old(hs.db), mc.model, mc.historical, old(inst.key), old(inst.attrs),
                                t1, t2, ctx.Actor(), ok, histOk);
      s.db == w.live && hs.db == w.hist && AR.Reports(r, AR.Outcome(w.live, w.res))
  {
    ghost var o := SD.DeleteSpec(s.db, inst.settable, inst.key, inst.attrs, t1, t2, ctx.Actor(), ok);
    var r0 := SD.Delete(inst, ctx, t1, t2, s, ok);
    r := Log(mc.model, mc.historical, DEL, r0, o, ctx, hs, histOk);
  }

  /** `cls.upsert(**kw)`. */
  method Upsert(mc: History.ModelClass, kw: Kwargs, ctx: UserContext, now: Time, s: Session, hs: Session,
                ok: bool, histOk: bool) returns (r: Result<AR.Instance, Error>)
    requires s != hs && s.pending == [] && hs.pending == []
    modifies s, hs
    ensures s.pending == [] && hs.pending == []
    ensures var w := UpsertSpec(old(s.db), old(hs.db), mc.model, mc.historical, kw, now, ctx.Actor(), ok, histOk);
      s.db == w.live && hs.db == w.hist && AR.Reports(r, AR.Outcome(w.live, w.res))
  {
    var found := SD.FindLive(s.db, kw);
    if found.Some? {
      var inst := new AR.Instance.Loaded(Settable(mc.model), found.value, s.db.rows[found.value]);
      r := Update(mc, inst, kw, ctx, now, s, hs, ok, histOk);
      return;
    }
    r := Create(mc, kw, ctx, s, hs, ok, histOk);
  }

  /** `cls.get_or_create(**kw)`. */
  method GetOrCreate(mc: History.ModelClass, kw: Kwargs, ctx: UserContext, s: Session, hs: Session,
                     ok: bool, histOk: bool) returns (r: Result<AR.Instance, Error>)
    requires s != hs && s.pending == [] && hs.pending == []
    modifies s, hs
    ensures s.pending == [] && hs.pending == []
    ensures var w := GetOrCreateSpec(old(s.db), old(hs.db), mc.model, mc.historical, kw, ctx.Actor(), ok, histOk);
      s.db == w.live && hs.db == w.hist && AR.Reports(r, AR.Outcome(w.live, w.res))
  {
    var found := SD.FindLive(s.db, kw);
    if found.Some? {
      var inst := new AR.Instance.Loaded(Settable(mc.model), found.value, s.db.rows[found.value]);
      return Ok(inst);
    }
    r := Create(mc, kw, ctx, s, hs, ok, histOk);
  }
}
