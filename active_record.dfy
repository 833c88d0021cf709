/**
 * The base active-record operations: `fill`, `save`, `create`, `update`, `delete`,
 * `get_or_create`, `upsert` and `where_or_fail`, over one session.
 */
module ActiveRecord {
  import opened Common
  import opened Storage

  /** What `fill` leaves in memory, and the first key it refused, if any. */
  datatype Filled = Filled(attrs: Record, failedOn: Option<string>)

  /** The position of the first keyword argument that is not settable, or `|kw|`. */
  function FirstUnsettable(kw: Kwargs, settable: set<string>): (i: nat)
    ensures i <= |kw|
    ensures forall j | 0 <= j < i :: kw[j].0 in settable
    ensures i < |kw| ==> kw[i].0 !in settable
    decreases |kw|
  {
    if kw == [] || kw[0].0 !in settable then 0
    else 1 + FirstUnsettable(kw[1..], settable)
  }

  /**
   * `fill(**kw)`: the arguments are assigned in order until the first one whose name is not
   * settable; the ones before it stay assigned, since nothing is undone.
   */
  function FillSpec(attrs: Record, kw: Kwargs, settable: set<string>): Filled {
    var i := FirstUnsettable(kw, settable);
    Filled(Assign(attrs, kw[..i]), if i < |kw| then Some(kw[i].0) else None)
  }

  /** `fill` succeeds exactly when every given name is settable. */
  lemma FillSucceedsIff(attrs: Record, kw: Kwargs, settable: set<string>)
    ensures FillSpec(attrs, kw, settable).failedOn.None? <==> Dict(kw).Keys <= settable
  {
    var i := FirstUnsettable(kw, settable);
    forall n | n in Dict(kw) ensures i == |kw| ==> n in settable {
      DictHasName(kw, n);
    }
    if i < |kw| {
      DictHasName(kw, kw[i].0);
    }
  }

  /** A successful `fill` sets each given attribute to its value and leaves every other one alone. */
  lemma FillAssignsGiven(attrs: Record, kw: Kwargs, settable: set<string>)
    requires Dict(kw).Keys <= settable
    ensures FillSpec(attrs, kw, settable) == Filled(attrs + Dict(kw), None)
  {
    FillSucceedsIff(attrs, kw, settable);
    assert kw[..|kw|] == kw;
    AssignOverlays(attrs, kw);
  }

  /**
   * A `fill` that meets an unknown name fails with that name; the arguments before it are
   * assigned and no later one is.
   */
  lemma FillStopsAtUnknown(attrs: Record, kw: Kwargs, settable: set<string>)
    requires !(Dict(kw).Keys <= settable)
    ensures var i := FirstUnsettable(kw, settable);
      && i < |kw|
      && FillSpec(attrs, kw, settable) == Filled(attrs + Dict(kw[..i]), Some(kw[i].0))
      && kw[i].0 !in settable
      && forall n | n !in Dict(kw[..i]) :: Get(FillSpec(attrs, kw, settable).attrs, n) == Get(attrs, n)
  {
    FillSucceedsIff(attrs, kw, settable);
    AssignOverlays(attrs, kw[..FirstUnsettable(kw, settable)]);
  }

  /** A model instance: its attributes in memory and, once persisted, its key. */
  class Instance {
    const settable: set<string>
    var attrs: Record
    var key: Option<Key>

    /** `cls()`: a fresh, unpersisted instance. */
    constructor (settable: set<string>)
      ensures this.settable == settable && attrs == map[] && key == None
    {
      this.settable := settable;
      attrs := map[];
      key := None;
    }

    /** An instance loaded from the row stored under `key`. */
    constructor Loaded(settable: set<string>, key: Key, row: Record)
      ensures this.settable == settable && attrs == row && this.key == Some(key)
    {
      this.settable := settable;
      attrs := row;
      this.key := Some(key);
    }

    /** `fill(**kw)`: returns this instance, or the `KeyError` for the first unknown name. */
    method Fill(kw: Kwargs) returns (r: Result<Instance, Error>)
      modifies this
      ensures key == old(key)
      ensures attrs == FillSpec(old(attrs), kw, settable).attrs
      ensures match FillSpec(old(attrs), kw, settable).failedOn
              case None => r == Ok(this)
              case Some(n) => r == Err(UnknownAttribute(n))
    {
      var i := 0;
      while i < |kw|
        invariant 0 <= i <= |kw|
        invariant forall j | 0 <= j < i :: kw[j].0 in settable
        invariant key == old(key)
        invariant attrs == Assign(old(attrs), kw[..i])
      {
        var name := kw[i].0;
        if name !in settable {
          return Err(UnknownAttribute(name));
        }
        assert kw[..i + 1][..i] == kw[..i];
        attrs := attrs[name := kw[i].1];
        i := i + 1;
      }
      assert kw[..i] == kw;
      return Ok(this);
    }
  }

  /** What an operation leaves in the table, and the key of the record it returns or its error. */
  datatype Outcome = Outcome(db: Db, res: Result<Key, Error>)

  /** The instance reported to the caller is the stored row of the outcome, or the outcome's error. */
  ghost predicate Reports(r: Result<Instance, Error>, o: Outcome)
    reads if r.Ok? then {r.value} else {}
  {
    match o.res
    case Ok(k) => r.Ok? && r.value.key == Some(k) && k in o.db.rows && r.value.attrs == o.db.rows[k]
    case Err(e) => r == Err(e)
  }

  /** `session.add(self)`: an update of a persisted instance, an insert of a new one. */
  function SaveOp(key: Option<Key>, attrs: Record): Op {
    match key
    case Some(k) => Op.Update(k, attrs)
    case None => Insert(attrs)
  }

  /** The key under which `save` stores the instance. */
  function SavedKey(db: Db, key: Option<Key>, attrs: Record): Key {
    match key
    case Some(k) => k
    case None => InsertKey(db, attrs)
  }

  /** `save()`: add the instance and commit; on failure roll back and re-raise. */
  function SaveSpec(db: Db, key: Option<Key>, attrs: Record, ok: bool): Outcome {
    match Transact(db, [SaveOp(key, attrs)], ok)
    case Ok(d) => Outcome(d, Ok(SavedKey(db, key, attrs)))
    case Err(e) => Outcome(db, Err(e))
  }

  /**
   * A `save` either stores the instance's attributes under its key, with the key column set,
   * and changes no other row, or fails with a storage error and leaves the table as it was.
   */
  lemma SaveStores(db: Db, key: Option<Key>, attrs: Record, ok: bool)
    requires Valid(db)
    ensures var o := SaveSpec(db, key, attrs, ok);
      && Valid(o.db)
      && o.db.pk == db.pk
      && (o.res.Err? ==> o.db == db && o.res.error == StorageFailure)
      && (o.res.Ok? <==> ok && (key.Some? <==> SavedKey(db, key, attrs) in db.rows))
      && (o.res.Ok? ==>
            var k := o.res.value;
            && k == SavedKey(db, key, attrs)
            && o.db.rows == db.rows[k := attrs[db.pk := Int(k)]]
            && o.db.nextId == if key.None? && k >= db.nextId then k + 1 else db.nextId)
  {
    var op := SaveOp(key, attrs);
    assert ApplyOps(db, [op]) == ApplyOp(db, op);
  }

  /** `_flush_or_fail()`: commit; on failure roll back and re-raise. */
  method FlushOrFail(s: Session, ok: bool) returns (err: Option<Error>)
    modifies s
    ensures s.pending == []
    ensures s.db == Committed(old(s.db), old(s.pending), ok)
    ensures err.None? <==> Transact(old(s.db), old(s.pending), ok).Ok?
    ensures err.Some? ==> err.value == StorageFailure
  {
    err := s.Commit(ok);
    if err.Some? {
      s.Rollback();
    }
  }

  /** `save()`. */
  method Save(inst: Instance, s: Session, ok: bool) returns (r: Result<Instance, Error>)
    requires s.pending == []
    modifies inst, s
    ensures s.pending == []
    ensures var o := SaveSpec(old(s.db), old(inst.key), old(inst.attrs), ok);
      && s.db == o.db
      && Reports(r, o)
      && (r.Ok? ==> r.value == inst)
      && (r.Err? ==> inst.key == old(inst.key) && inst.attrs == old(inst.attrs))
  {
    var op := SaveOp(inst.key, inst.attrs);
    var k := SavedKey(s.db, inst.key, inst.attrs);
    ghost var db0 := s.db;
    s.Add(op);
    assert s.pending == [op];
    var err := FlushOrFail(s, ok);
    if err.Some? {
      return Err(err.value);
    }
    assert ApplyOps(db0, [op]) == ApplyOp(db0, op);
    inst.key := Some(k);
    inst.attrs := s.db.rows[k];
    r := Ok(inst);
  }

  /** `create(**kw)`: `cls().fill(**kw).save()`. */
  function CreateSpec(db: Db, settable: set<string>, kw: Kwargs, ok: bool): Outcome {
    var f := FillSpec(map[], kw, settable);
    match f.failedOn
    case Some(n) => Outcome(db, Err(UnknownAttribute(n)))
    case None => SaveSpec(db, None, f.attrs, ok)
  }

  /**
   * `create` with settable arguments inserts exactly one new row, filled from the arguments,
   * under the key they carry or the next autoincrement key; it fails and changes nothing when
   * that key is taken or the commit fails.
   */
  lemma CreateInserts(db: Db, settable: set<string>, kw: Kwargs, ok: bool)
    requires Valid(db)
    requires Dict(kw).Keys <= settable
    ensures var o := CreateSpec(db, settable, kw, ok);
      var k := InsertKey(db, Dict(kw));
      && Valid(o.db)
      && (ok && k !in db.rows ==>
            && o.res == Ok(k)
            && o.db.rows == db.rows[k := Dict(kw)[db.pk := Int(k)]]
            && o.db.nextId == (if k < db.nextId then db.nextId else k + 1)
            && |o.db.rows| == |db.rows| + 1)
      && (!ok || k in db.rows ==> o == Outcome(db, Err(StorageFailure)))
  {
    FillAssignsGiven(map[], kw, settable);
    assert map[] + Dict(kw) == Dict(kw);
    SaveStores(db, None, Dict(kw), ok);
  }

  /** A `create` whose arguments hold an unknown name stores nothing. */
  lemma CreateRejectsUnknown(db: Db, settable: set<string>, kw: Kwargs, ok: bool)
    requires !(Dict(kw).Keys <= settable)
    ensures var o := CreateSpec(db, settable, kw, ok);
      o.db == db && o.res.Err? && o.res.error.UnknownAttribute? && o.res.error.name !in settable
  {
    FillStopsAtUnknown(map[], kw, settable);
  }

  /** `instance.update(**kw)`: `self.fill(**kw).save()`. */
  function UpdateSpec(db: Db, settable: set<string>, key: Option<Key>, attrs: Record, kw: Kwargs, ok: bool): Outcome {
    var f := FillSpec(attrs, kw, settable);
    match f.failedOn
    case Some(n) => Outcome(db, Err(UnknownAttribute(n)))
    case None => SaveSpec(db, key, f.attrs, ok)
  }

  /**
   * `update` of a stored row with settable arguments overwrites exactly the given fields of
   * that row and adds no row; a failed commit changes nothing.
   */
  lemma UpdateOverwrites(db: Db, settable: set<string>, k: Key, attrs: Record, kw: Kwargs, ok: bool)
    requires Valid(db) && k in db.rows
    requires Dict(kw).Keys <= settable
    ensures var o := UpdateSpec(db, settable, Some(k), attrs, kw, ok);
      && Valid(o.db)
      && (ok ==> o.res == Ok(k) && o.db.rows == db.rows[k := (attrs + Dict(kw))[db.pk := Int(k)]])
      && (ok ==> o.db.rows.Keys == db.rows.Keys)
      && (!ok ==> o == Outcome(db, Err(StorageFailure)))
  {
    FillAssignsGiven(attrs, kw, settable);
    SaveStores(db, Some(k), attrs + Dict(kw), ok);
  }

  /** `self.update(**kw)`. An unknown name leaves the earlier names assigned on the instance; this call commits none of them. */
  method Update(inst: Instance, kw: Kwargs, s: Session, ok: bool) returns (r: Result<Instance, Error>)
    requires s.pending == []
    modifies inst, s
    ensures s.pending == []
    ensures var o := UpdateSpec(old(s.db), inst.settable, old(inst.key), old(inst.attrs), kw, ok);
      && s.db == o.db
      && Reports(r, o)
      && (r.Ok? ==> r.value == inst)
    ensures var f := FillSpec(old(inst.attrs), kw, inst.settable);
      f.failedOn.Some? ==> inst.attrs == f.attrs && inst.key == old(inst.key)
  {
    var fr := inst.Fill(kw);
    if fr.Err? {
      return fr;
    }
    r := Save(inst, s, ok);
  }

  /** `cls.create(**kw)`. */
  method Create(settable: set<string>, kw: Kwargs, s: Session, ok: bool) returns (r: Result<Instance, Error>)
    requires s.pending == []
    modifies s
    ensures s.pending == []
    ensures var o := CreateSpec(old(s.db), settable, kw, ok);
      s.db == o.db && Reports(r, o) && (r.Ok? ==> fresh(r.value) && r.value.settable == settable)
  {
    var inst := new Instance(settable);
    var fr := inst.Fill(kw);
    if fr.Err? {
      return fr;
    }
    r := Save(inst, s, ok);
  }

  /** `delete()`: `session.delete(self)` and commit; a never-persisted instance cannot be deleted. */
  function DeleteSpec(db: Db, key: Option<Key>, ok: bool): Outcome {
    match key
    case None => Outcome(db, Err(TransientDelete))
    case Some(k) =>
      match Transact(db, [Remove(k)], ok)
      case Ok(d) => Outcome(d, Ok(k))
      case Err(e) => Outcome(db, Err(e))
  }

  /** A base `delete` removes exactly the instance's row, or changes nothing and fails. */
  lemma DeleteRemoves(db: Db, key: Option<Key>, ok: bool)
    requires Valid(db)
    ensures var o := DeleteSpec(db, key, ok);
      && Valid(o.db)
      && (key.Some? && key.value in db.rows && ok ==> o == Outcome(db.(rows := db.rows - {key.value}), Ok(key.value)))
      && (key.None? ==> o == Outcome(db, Err(TransientDelete)))
      && (key.Some? && (key.value !in db.rows || !ok) ==> o == Outcome(db, Err(StorageFailure)))
  {
    if key.Some? {
      assert ApplyOps(db, [Remove(key.value)]) == ApplyOp(db, Remove(key.value));
    }
  }

  /** `self.delete()`. */
  method Delete(inst: Instance, s: Session, ok: bool) returns (err: Option<Error>)
    requires s.pending == []
    modifies s
    ensures s.pending == []
    ensures var o := DeleteSpec(old(s.db), inst.key, ok);
      s.db == o.db && (err.None? <==> o.res.Ok?) && (err.Some? ==> err.value == o.res.error)
  {
    if inst.key.None? {
      return Some(TransientDelete);
    }
    s.Add(Remove(inst.key.value));
    assert s.pending == [Remove(inst.key.value)];
    err := FlushOrFail(s, ok);
  }

  /** `cls().find(id)`: the row whose primary key is `id`; `None` when `id` is absent or null. */
  function Find(db: Db, id: Option<Value>): (r: Option<Key>)
    ensures r.Some? ==> r.value in db.rows && id == Some(Int(r.value))
    ensures r.None? ==> forall k | k in db.rows :: id != Some(Int(k))
  {
    match id
    case Some(Int(k)) => if k in db.rows then Some(k) else None
    case _ => None
  }

  /** `get_or_create(**kw)`: an existing row by id is returned as it is; otherwise `create`. */
  function GetOrCreateSpec(db: Db, settable: set<string>, kw: Kwargs, ok: bool): Outcome {
    match Find(db, Lookup(kw, "id"))
    case Some(k) => Outcome(db, Ok(k))
    case None => CreateSpec(db, settable, kw, ok)
  }

  /** A `get_or_create` hit returns the stored row, applies none of the arguments and adds nothing. */
  lemma GetOrCreateHit(db: Db, settable: set<string>, kw: Kwargs, ok: bool, k: Key)
    requires k in db.rows && Lookup(kw, "id") == Some(Int(k))
    ensures GetOrCreateSpec(db, settable, kw, ok) == Outcome(db, Ok(k))
  {
  }

  /**
   * A `get_or_create` miss with settable arguments creates exactly one new row filled from
   * them (it fails and changes nothing if the new key is taken or the commit fails).
   */
  lemma GetOrCreateMiss(db: Db, settable: set<string>, kw: Kwargs, ok: bool)
    requires Valid(db) && Dict(kw).Keys <= settable
    requires Find(db, Lookup(kw, "id")).None?
    ensures var o := GetOrCreateSpec(db, settable, kw, ok);
      var k := InsertKey(db, Dict(kw));
      && (ok && k !in db.rows ==> o.res == Ok(k) && o.db.rows == db.rows[k := Dict(kw)[db.pk := Int(k)]])
      && (!ok || k in db.rows ==> o == Outcome(db, Err(StorageFailure)))
  {
    CreateInserts(db, settable, kw, ok);
  }

  /**
   * Calling `get_or_create` twice with the same id returns the same row both times, and the
   * second call's other arguments are not applied.
   */
  lemma GetOrCreateTwice(db: Db, settable: set<string>, kw1: Kwargs, kw2: Kwargs, ok1: bool, ok2: bool, id: Key)
    requires Valid(db) && db.pk == "id"
    requires Lookup(kw1, "id") == Some(Int(id)) && Lookup(kw2, "id") == Some(Int(id))
    requires GetOrCreateSpec(db, settable, kw1, ok1).res.Ok?
    ensures var o1 := GetOrCreateSpec(db, settable, kw1, ok1);
      && o1.res == Ok(id)
      && GetOrCreateSpec(o1.db, settable, kw2, ok2) == Outcome(o1.db, Ok(id))
  {
    if id !in db.rows {
      var f := FillSpec(map[], kw1, settable);
      if !(Dict(kw1).Keys <= settable) {
        CreateRejectsUnknown(db, settable, kw1, ok1);
      }
      assert Dict(kw1).Keys <= settable;
      CreateInserts(db, settable, kw1, ok1);
      assert Dict(kw1)["id"] == Int(id);
      assert InsertKey(db, Dict(kw1)) == id;
    }
  }

  /** `upsert(**kw)`: an existing row by id is updated with the arguments; otherwise `create`. */
  function UpsertSpec(db: Db, settable: set<string>, kw: Kwargs, ok: bool): Outcome {
    match Find(db, Lookup(kw, "id"))
    case Some(k) => UpdateSpec(db, settable, Some(k), db.rows[k], kw, ok)
    case None => CreateSpec(db, settable, kw, ok)
  }

  /** An `upsert` hit overwrites exactly the given fields of that row and adds no row. */
  lemma UpsertHit(db: Db, settable: set<string>, kw: Kwargs, ok: bool, k: Key)
    requires Valid(db) && k in db.rows && Lookup(kw, "id") == Some(Int(k))
    requires Dict(kw).Keys <= settable && ok
    ensures var o := UpsertSpec(db, settable, kw, ok);
      && o.res == Ok(k)
      && o.db.rows == db.rows[k := (db.rows[k] + Dict(kw))[db.pk := Int(k)]]
      && o.db.rows.Keys == db.rows.Keys
  {
    UpdateOverwrites(db, settable, k, db.rows[k], kw, ok);
  }

  /** An `upsert` miss is a `create` with the same arguments. */
  lemma UpsertMiss(db: Db, settable: set<string>, kw: Kwargs, ok: bool)
    requires Valid(db) && Dict(kw).Keys <= settable
    requires Find(db, Lookup(kw, "id")).None?
    ensures var o := UpsertSpec(db, settable, kw, ok);
      var k := InsertKey(db, Dict(kw));
      && (ok && k !in db.rows ==> o.res == Ok(k) && o.db.rows == db.rows[k := Dict(kw)[db.pk := Int(k)]])
      && (!ok || k in db.rows ==> o == Outcome(db, Err(StorageFailure)))
  {
    CreateInserts(db, settable, kw, ok);
  }

  /** `cls.get_or_create(**kw)`. */
  method GetOrCreate(settable: set<string>, kw: Kwargs, s: Session, ok: bool) returns (r: Result<Instance, Error>)
    requires s.pending == []
    modifies s
    ensures s.pending == []
    ensures var o := GetOrCreateSpec(old(s.db), settable, kw, ok);
      s.db == o.db && Reports(r, o)
  {
    var found := Find(s.db, Lookup(kw, "id"));
    if found.Some? {
      var inst := new Instance.Loaded(settable, found.value, s.db.rows[found.value]);
      return Ok(inst);
    }
    r := Create(settable, kw, s, ok);
  }

  /** `cls.upsert(**kw)`. */
  method Upsert(settable: set<string>, kw: Kwargs, s: Session, ok: bool) returns (r: Result<Instance, Error>)
    requires s.pending == []
    modifies s
    ensures s.pending == []
    ensures var o := UpsertSpec(old(s.db), settable, kw, ok);
      s.db == o.db && Reports(r, o)
  {
    var found := Find(s.db, Lookup(kw, "id"));
    if found.Some? {
      var inst := new Instance.Loaded(settable, found.value, s.db.rows[found.value]);
      r := Update(inst, kw, s, ok);
      return;
    }
    r := Create(settable, kw, s, ok);
  }

  /** `where_or_fail(**filters)`: the matching rows, or an error naming the model and the filters. */
  function WhereOrFail(model: string, db: Db, filters: Kwargs): (r: Result<map<Key, Record>, Error>)
    ensures r.Err? <==> forall k | k in db.rows :: !Matches(db.rows[k], filters)
    ensures r.Err? ==> r.error == NoRowsMatching(model, filters)
    ensures r.Ok? ==> r.value != map[] && r.value == Where(db.rows, filters)
  {
    var m := Where(db.rows, filters);
    if m == map[] then
      Err(NoRowsMatching(model, filters))
    else
      assert exists k :: k in m by {
        if forall k :: k !in m { assert false; }
      }
      Ok(m)
  }
}
