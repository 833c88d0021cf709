/**
 * Historical snapshots (`HistoricalBase`) and the metaclass step that attaches a model's
 * historical twin (`SafeDeleteMeta`).
 */
module History {
  import opened Common
  import opened Storage
  import opened Schemas
  import AR = ActiveRecord

  /**
   * The keyword arguments of one snapshot: the given attributes with `history_type` set to the
   * action and, when a user is in context, `history_user_id` set to that user's id.
   */
  function RecordKwargs(kw: Kwargs, action: HistoryType, actor: Option<Key>): Kwargs {
    var tagged := SetKw(kw, "history_type", Kind(action));
    match actor
    case Some(u) => SetKw(tagged, "history_user_id", Int(u))
    case None => tagged
  }

  /** The attributes a snapshot carries: those given, overridden by the history tag and user. */
  lemma RecordKwargsDict(kw: Kwargs, action: HistoryType, actor: Option<Key>)
    ensures var d := Dict(RecordKwargs(kw, action, actor));
      && d.Keys == Dict(kw).Keys + {"history_type"} + (if actor.Some? then {"history_user_id"} else {})
      && d["history_type"] == Kind(action)
      && (actor.Some? ==> d["history_user_id"] == Int(actor.value))
      && forall n | n in Dict(kw) && n != "history_type" && (actor.Some? ==> n != "history_user_id") :: d[n] == Dict(kw)[n]
  {
  }

  /** `create_historical_record(action, **kw)` on the historical model `hm`. */
  function RecordSpec(hist: Db, hm: Model, action: HistoryType, kw: Kwargs, actor: Option<Key>, ok: bool): AR.Outcome {
    AR.CreateSpec(hist, Settable(hm), RecordKwargs(kw, action, actor), ok)
  }

  /**
   * A snapshot whose attributes the historical model can take is appended as one new row under
   * the next history id, carrying those attributes and the tag; earlier snapshots are kept as
   * they are. A failed commit changes nothing.
   */
  lemma RecordAppends(hist: Db, hm: Model, action: HistoryType, kw: Kwargs, actor: Option<Key>, ok: bool)
    requires Valid(hist) && hist.pk == "history_id" && "history_id" !in Dict(kw)
    requires Dict(kw).Keys + {"history_type", "history_user_id"} <= Settable(hm)
    ensures var o := RecordSpec(hist, hm, action, kw, actor, ok);
      var id := hist.nextId;
      && Valid(o.db)
      && (ok ==>
            && o.res == Ok(id)
            && id !in hist.rows
            && o.db.rows == hist.rows[id := Dict(RecordKwargs(kw, action, actor))[hist.pk := Int(id)]]
            && Get(o.db.rows[id], "history_type") == Kind(action)
            && o.db.nextId == id + 1)
      && (!ok ==> o == AR.Outcome(hist, Err(StorageFailure)))
  {
    var rk := RecordKwargs(kw, action, actor);
    var d := Dict(rk);
    assert d.Keys <= Settable(hm) && Get(d, "history_id") == Null && d["history_type"] == Kind(action) by {
      RecordKwargsDict(kw, action, actor);
    }
    assert InsertKey(hist, d) == hist.nextId;
    assert hist.nextId !in hist.rows;
    AR.CreateInserts(hist, Settable(hm), rk, ok);
  }

  /** `create_historical_record(action, **kw)`. */
  method CreateHistoricalRecord(hm: Model, action: HistoryType, kw: Kwargs, actor: Option<Key>, hs: Session, ok: bool)
    returns (r: Result<AR.Instance, Error>)
    requires hs.pending == []
    modifies hs
    ensures hs.pending == []
    ensures var o := RecordSpec(old(hs.db), hm, action, kw, actor, ok);
      hs.db == o.db && AR.Reports(r, o)
  {
    r := AR.Create(Settable(hm), RecordKwargs(kw, action, actor), hs, ok);
  }

  /** `all()` of a historical model: every snapshot, soft-deleted ones included. */
  function HistoryAll(hist: Db): (r: map<Key, Record>)
    ensures r == Where(hist.rows, [])
  {
    hist.rows
  }

  /** The historical twin a model gets from its metaclass: one exactly when it is historical. */
  function HistoricalOf(m: Model): (r: Option<Model>)
    ensures r.Some? <==> m.historical
  {
    if m.historical then Some(CreateHistorical(m)) else None
  }

  /** A derived historical model gets no twin of its own, so the metaclass does not recurse. */
  lemma NoSecondDerivation(m: Model)
    ensures match HistoricalOf(m)
            case Some(h) => HistoricalOf(h) == None && h.name == m.name + "Historical"
            case None => !m.historical
  {
    if m.historical {
      HistoricalNaming(m);
    }
  }

  /** A model class once its metaclass has run: its schema and its historical twin, if any. */
  class ModelClass {
    const model: Model
    var historical: Option<Model>

    /** `SafeDeleteMeta.__init__`: replaces a true `__historical__` flag by the derived model. */
    constructor (m: Model)
      ensures model == m && historical == HistoricalOf(m)
    {
      model := m;
      historical := if m.historical then Some(CreateHistorical(m)) else None;
    }
  }
}
