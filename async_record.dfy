/**
 * The asynchronous active-record mixin (`AsyncRecordMixin`): primary-key lookup, save, create,
 * update, delete, destroy by ids, find, find-or-fail and bulk create in batches. Each awaited
 * step is modelled as the synchronous step it waits for.
 */
module AsyncRecord {
  import opened Common
  import opened Storage
  import opened Schemas
  import AR = ActiveRecord

  /** `_get_primary_key_name()`: the one primary-key column, or why there is none. */
  function PrimaryKeyName(m: Model): (r: Result<string, Error>)
    ensures r.Ok? <==> |PrimaryKeys(m.schema.columns)| == 1
    ensures r.Ok? ==> exists c | c in m.schema.columns :: c.primaryKey && c.name == r.value
    ensures |PrimaryKeys(m.schema.columns)| > 1 ==> r == Err(CompositePrimaryKey(m.name))
    ensures |PrimaryKeys(m.schema.columns)| == 0 ==> r == Err(NoPrimaryKeyColumn)
  {
    var pks := PrimaryKeys(m.schema.columns);
    if |pks| > 1 then Err(CompositePrimaryKey(m.name))
    else if |pks| == 0 then Err(NoPrimaryKeyColumn)
    else
      assert pks[0] in pks;
      Ok(pks[0])
  }

  /** The lookup succeeds exactly when the table has one primary-key column, and gives its name. */
  lemma PrimaryKeyNameSingle(m: Model)
    ensures PrimaryKeyName(m).Ok? <==> exists i :: OnlyKeyAt(m.schema.columns, i)
    ensures forall i | OnlyKeyAt(m.schema.columns, i) :: PrimaryKeyName(m) == Ok(m.schema.columns[i].name)
  {
    PrimaryKeysOne(m.schema.columns);
  }

  /** The historical twin of a model without clashing column names has the single primary key `history_id`. */
  lemma HistoricalPrimaryKeyName(m: Model)
    requires Recordable(m)
    ensures PrimaryKeyName(CreateHistorical(m)) == Ok("history_id")
  {
    HistoricalPrimaryKey(m);
  }

  /** The result of an operation that returns no record. */
  datatype Done = Done(db: Db, err: Option<Error>)

  /** `find_async(id)`: the first row whose primary key equals `id`; none for an empty key name. */
  function FindAsync(m: Model, db: Db, id: Value): Result<Option<Key>, Error> {
    match PrimaryKeyName(m)
    case Err(e) => Err(e)
    case Ok(pk) => if pk == "" then Ok(None) else Ok(First(Where(db.rows, [(pk, id)])))
  }

  /** A table described by the model: the storage keys it by the model's one primary-key column. */
  predicate KeyedBy(m: Model, db: Db) {
    Valid(db) && PrimaryKeyName(m) == Ok(db.pk) && db.pk != ""
  }

  /** `find_async` finds the row stored under `id` exactly when there is one. */
  lemma FindAsyncByKey(m: Model, db: Db, id: Value)
    requires KeyedBy(m, db)
    ensures forall k :: FindAsync(m, db, id) == Ok(Some(k)) <==> id == Int(k) && k in db.rows
    ensures FindAsync(m, db, id) == Ok(None) <==> forall k | k in db.rows :: id != Int(k)
  {
    var filters: Kwargs := [(db.pk, id)];
    var w := Where(db.rows, filters);
    forall k | k in db.rows ensures Matches(db.rows[k], filters) <==> id == Int(k) {
      assert filters[0] == (db.pk, id);
    }
  }

  /** `find_or_fail_async(id)`: the row stored under `id`, or an error naming the model and the id. */
  function FindOrFailAsync(m: Model, db: Db, id: Value): (r: Result<Key, Error>)
    ensures r.Ok? <==> FindAsync(m, db, id).Ok? && FindAsync(m, db, id).value.Some?
    ensures r.Ok? ==> FindAsync(m, db, id) == Ok(Some(r.value))
    ensures FindAsync(m, db, id) == Ok(None) ==> r == Err(ModelNotFound(m.name, id))
  {
    match FindAsync(m, db, id)
    case Err(e) => Err(e)
    case Ok(None) => Err(ModelNotFound(m.name, id))
    case Ok(Some(k)) => Ok(k)
  }

  /** In a table keyed by the model, `find_or_fail_async` fails exactly when no row is stored under `id`. */
  lemma FindOrFailAsyncIff(m: Model, db: Db, id: Value)
    requires KeyedBy(m, db)
    ensures FindOrFailAsync(m, db, id).Err? <==> forall k | k in db.rows :: id != Int(k)
    ensures FindOrFailAsync(m, db, id).Err? ==> FindOrFailAsync(m, db, id).error == ModelNotFound(m.name, id)
    ensures forall k :: FindOrFailAsync(m, db, id) == Ok(k) <==> id == Int(k) && k in db.rows
  {
    FindAsyncByKey(m, db, id);
  }

  /** `save_async()`. */
  method SaveAsync(inst: AR.Instance, s: Session, ok: bool) returns (r: Result<AR.Instance, Error>)
    requires s.pending == []
    modifies inst, s
    ensures s.pending == []
    ensures var o := AR.SaveSpec(old(s.db), old(inst.key), old(inst.attrs), ok);
      s.db == o.db && AR.Reports(r, o) && (r.Ok? ==> r.value == inst)
  {
    var op := AR.SaveOp(inst.key, inst.attrs);
    var k := AR.SavedKey(s.db, inst.key, inst.attrs);
    ghost var db0 := s.db;
    s.Add(op);
    assert s.pending == [op];
    var err := s.Commit(ok);
    if err.Some? {
      s.Rollback();
      return Err(err.value);
    }
    assert ApplyOps(db0, [op]) == ApplyOp(db0, op);
    inst.key := Some(k);
    inst.attrs := s.db.rows[k];
    r := Ok(inst);
  }

  /** `create_async(**kw)`: `cls().fill(**kw).save_async()`, the same outcome as `create`. */
  method CreateAsync(settable: set<string>, kw: Kwargs, s: Session, ok: bool) returns (r: Result<AR.Instance, Error>)
    requires s.pending == []
    modifies s
    ensures s.pending == []
    ensures var o := AR.CreateSpec(old(s.db), settable, kw, ok);
      s.db == o.db && AR.Reports(r, o)
  {
    var inst := new AR.Instance(settable);
    var fr := inst.Fill(kw);
    if fr.Err? {
      return fr;
    }
    r := SaveAsync(inst, s, ok);
  }

  /** `update_async(**kw)`: `self.fill(**kw).save_async()`, the same outcome as `update`. */
  method UpdateAsync(inst: AR.Instance, kw: Kwargs, s: Session, ok: bool) returns (r: Result<AR.Instance, Error>)
    requires s.pending == []
    modifies inst, s
    ensures s.pending == []
    ensures var o := AR.UpdateSpec(old(s.db), inst.settable, old(inst.key), old(inst.attrs), kw, ok);
      s.db == o.db && AR.Reports(r, o)
  {
    var fr := inst.Fill(kw);
    if fr.Err? {
      return fr;
    }
    r := SaveAsync(inst, s, ok);
  }

  /**
   * `delete_async()`: the same outcome as `delete`; an instance that was never persisted is
   * refused before anything is staged. On success the instance itself is returned.
   */
  method DeleteAsync(inst: AR.Instance, s: Session, ok: bool) returns (r: Result<AR.Instance, Error>)
    requires s.pending == []
    modifies s
    ensures s.pending == []
    ensures var o := AR.DeleteSpec(old(s.db), inst.key, ok);
      s.db == o.db && (r.Ok? <==> o.res.Ok?) && (r.Ok? ==> r.value == inst) && (r.Err? ==> r.error == o.res.error)
  {
    if inst.key.None? {
      return Err(TransientDelete);
    }
    s.Add(Remove(inst.key.value));
    assert s.pending == [Remove(inst.key.value)];
    var err := s.Commit(ok);
    if err.Some? {
      s.Rollback();
      return Err(err.value);
    }
    r := Ok(inst);
  }

  /** The keys of the rows whose primary-key column holds one of `ids` (`where(pk__in=ids)`). */
  function Doomed(db: Db, pk: string, ids: seq<Value>): set<Key> {
    set k | k in db.rows && Get(db.rows[k], pk) in ids
  }

  /**
   * `destroy_async(*ids)`: every row whose key is among `ids` is deleted in one commit; the
   * whole call fails and deletes nothing if that commit fails.
   */
  function DestroySpec(m: Model, db: Db, ids: seq<Value>, ok: bool): Done {
    match PrimaryKeyName(m)
    case Err(e) => Done(db, Some(e))
    case Ok(pk) =>
      if pk == "" then Done(db, None)
      else if ok then Done(db.(rows := db.rows - Doomed(db, pk, ids)), None)
      else Done(db, Some(StorageFailure))
  }

  /** In a table keyed by the model, `destroy_async` removes exactly the rows named by `ids` and keeps the rest as they are. */
  lemma DestroyExact(m: Model, db: Db, ids: seq<Value>)
    requires KeyedBy(m, db)
    ensures var d := DestroySpec(m, db, ids, true);
      && d.err == None
      && Valid(d.db)
      && (forall k :: k in d.db.rows <==> k in db.rows && Int(k) !in ids)
      && (forall k | k in d.db.rows :: d.db.rows[k] == db.rows[k])
  {
  }

  /** A failed commit destroys nothing. */
  lemma DestroyFailsCleanly(m: Model, db: Db, ids: seq<Value>)
    ensures DestroySpec(m, db, ids, false).db == db
    ensures DestroySpec(m, db, ids, false).err.Some? <==> PrimaryKeyName(m) != Ok("")
  {
  }

  /** `destroy_async(*ids)`. */
  method DestroyAsync(m: Model, ids: seq<Value>, s: Session, ok: bool) returns (err: Option<Error>)
    requires s.pending == []
    modifies s
    ensures s.pending == []
    ensures DestroySpec(m, old(s.db), ids, ok) == Done(s.db, err)
  {
    var pkr := PrimaryKeyName(m);
    if pkr.Err? {
      return Some(pkr.error);
    }
    var pk := pkr.value;
    if pk == "" {
      return None;
    }
    ghost var db0 := s.db;
    var doomed := Doomed(s.db, pk, ids);
    var left := doomed;
    assert db0.rows - (doomed - left) == db0.rows;
    while left != {}
      invariant left <= doomed <= db0.rows.Keys
      invariant s.db == db0
      invariant ApplyOps(db0, s.pending) == Some(db0.(rows := db0.rows - (doomed - left)))
      decreases |left|
    {
      var k := MinOf(left);
      ghost var d := db0.(rows := db0.rows - (doomed - left));
      assert k in d.rows;
      ApplyOpsSnoc(db0, s.pending, Remove(k));
      s.Add(Remove(k));
      assert d.rows - {k} == db0.rows - (doomed - (left - {k}));
      left := left - {k};
    }
    assert doomed - left == doomed;
    err := s.Commit(ok);
    if err.Some? {
      s.Rollback();
    }
  }

  /** `objs[i : i + b]` for `i` in `range(0, len(objs), b)`: consecutive batches of `b`, the last one shorter. */
  function Chunks(objs: seq<Kwargs>, b: nat): (r: seq<seq<Kwargs>>)
    requires b > 0
    ensures forall i | 0 <= i < |r| :: 0 < |r[i]| <= b
    ensures forall i | 0 <= i < |r| - 1 :: |r[i]| == b
    decreases |objs|
  {
    if objs == [] then []
    else
      var n := if |objs| < b then |objs| else b;
      [objs[..n]] + Chunks(objs[n..], b)
  }

  /** The batches one after another. */
  function Flatten(cs: seq<seq<Kwargs>>): seq<Kwargs>
    decreases |cs|
  {
    if cs == [] then [] else cs[0] + Flatten(cs[1..])
  }

  /** The batches hold every object once, in order. */
  lemma {:induction false} ChunksFlatten(objs: seq<Kwargs>, b: nat)
    requires b > 0
    ensures Flatten(Chunks(objs, b)) == objs
    decreases |objs|
  {
    if objs != [] {
      var n := if |objs| < b then |objs| else b;
      ChunksFlatten(objs[n..], b);
      assert objs[..n] + objs[n..] == objs;
    }
  }

  /** One more full batch adds `b` to both bounds. */
  lemma CountStep(n: nat, b: nat, len: int)
    requires n * b - b < len - b <= n * b
    ensures (n + 1) * b - b < len <= (n + 1) * b
  {
    assert (n + 1) * b == n * b + b;
  }

  /** There are `ceil(len(objs) / b)` batches, hence that many commits. */
  lemma {:induction false} ChunksCount(objs: seq<Kwargs>, b: nat)
    requires b > 0
    ensures |Chunks(objs, b)| * b - b < |objs| <= |Chunks(objs, b)| * b
    decreases |objs|
  {
    if objs != [] {
      if |objs| < b {
        assert Chunks(objs[|objs|..], b) == [] by {
          assert objs[|objs|..] == [];
        }
        assert |Chunks(objs, b)| == 1;
        assert 1 * b == b;
      } else {
        ChunksCount(objs[b..], b);
        var n := |Chunks(objs[b..], b)|;
        assert |Chunks(objs, b)| == n + 1;
        CountStep(n, b, |objs|);
      }
    }
  }

  /**
   * The rows of one batch: a fresh instance filled with each object in turn; the first object
   * holding an unknown name fails the batch.
   */
  function BuildChunk(settable: set<string>, chunk: seq<Kwargs>): Result<seq<Record>, Error>
    decreases |chunk|
  {
    if chunk == [] then Ok([])
    else
      match BuildChunk(settable, chunk[..|chunk| - 1])
      case Err(e) => Err(e)
      case Ok(rows) =>
        var f := AR.FillSpec(map[], chunk[|chunk| - 1], settable);
        match f.failedOn
        case Some(n) => Err(UnknownAttribute(n))
        case None => Ok(rows + [f.attrs])
  }

  /**
   * A batch fills if and only if every object names only settable attributes; its rows are then
   * the objects' attributes, and otherwise the error names an attribute that is not settable.
   */
  lemma {:induction false} BuildChunkFills(settable: set<string>, chunk: seq<Kwargs>)
    ensures var r := BuildChunk(settable, chunk);
      && (r.Ok? <==> forall i | 0 <= i < |chunk| :: Dict(chunk[i]).Keys <= settable)
      && (r.Ok? ==> |r.value| == |chunk| && forall i | 0 <= i < |chunk| :: r.value[i] == Dict(chunk[i]))
      && (r.Err? ==> r.error.UnknownAttribute? && r.error.name !in settable)
    decreases |chunk|
  {
    if chunk != [] {
      var p := chunk[..|chunk| - 1];
      var last := chunk[|chunk| - 1];
      assert forall i | 0 <= i < |p| :: p[i] == chunk[i];
      BuildChunkFills(settable, p);
      var f := AR.FillSpec(map[], last, settable);
      AR.FillSucceedsIff(map[], last, settable);
      match BuildChunk(settable, p) {
        case Err(e) =>
        case Ok(rows) =>
          match f.failedOn {
            case Some(n) =>
              AR.FillStopsAtUnknown(map[], last, settable);
            case None =>
              AR.FillAssignsGiven(map[], last, settable);
              assert map[] + Dict(last) == Dict(last);
          }
      }
    }
  }

  /** A batch that fails on a prefix fails the same way as a whole. */
  lemma {:induction false} BuildChunkFailsFrom(settable: set<string>, chunk: seq<Kwargs>, j: nat)
    requires j <= |chunk| && BuildChunk(settable, chunk[..j]).Err?
    ensures BuildChunk(settable, chunk) == BuildChunk(settable, chunk[..j])
    decreases |chunk| - j
  {
    if j < |chunk| {
      assert chunk[..j + 1][..j] == chunk[..j];
      BuildChunkFailsFrom(settable, chunk, j + 1);
    } else {
      assert chunk[..j] == chunk;
    }
  }

  /** `session.add_all` of the new instances of one batch. */
  function Inserts(rows: seq<Record>): seq<Op>
    decreases |rows|
  {
    if rows == [] then [] else [Insert(rows[0])] + Inserts(rows[1..])
  }

  /** One insert per new instance of the batch, in order. */
  lemma {:induction false} InsertsEach(rows: seq<Record>)
    ensures var r := Inserts(rows);
      |r| == |rows| && forall i | 0 <= i < |rows| :: r[i] == Insert(rows[i])
    decreases |rows|
  {
    if rows != [] {
      InsertsEach(rows[1..]);
      var r := Inserts(rows);
      assert r == [Insert(rows[0])] + Inserts(rows[1..]);
      forall i | 1 <= i < |rows| ensures r[i] == Insert(rows[i]) {
        assert r[i] == Inserts(rows[1..])[i - 1];
      }
    }
  }

  /** The batches from the `c`-th on, each filled, staged and committed on its own. */
  function BulkFrom(db: Db, settable: set<string>, chunks: seq<seq<Kwargs>>, ok: nat -> bool, c: nat): Done
    decreases |chunks|
  {
    if chunks == [] then Done(db, None)
    else match BuildChunk(settable, chunks[0])
      case Err(e) => Done(db, Some(e))
      case Ok(rows) =>
        match Transact(db, Inserts(rows), ok(c))
        case Err(e) => Done(db, Some(e))
        case Ok(d) => BulkFrom(d, settable, chunks[1..], ok, c + 1)
  }

  /**
   * `bulk_create_async(objs, batch_size)`: a zero batch size fails before anything is staged,
   * a negative one creates nothing, and otherwise the batches are committed one by one and the
   * first failing batch ends the call.
   */
  function BulkCreateSpec(db: Db, settable: set<string>, objs: seq<Kwargs>, batch: int, ok: nat -> bool): Done {
    if batch == 0 then Done(db, Some(InvalidBatchSize))
    else if batch < 0 then Done(db, None)
    else BulkFrom(db, settable, Chunks(objs, batch), ok, 0)
  }

  /** What follows a run of batches: nothing after a failure, otherwise the next batches. */
  function Continue(d: Done, settable: set<string>, chunks: seq<seq<Kwargs>>, ok: nat -> bool, c: nat): Done {
    if d.err.Some? then d else BulkFrom(d.db, settable, chunks, ok, c)
  }

  /** The first batch is committed on its own, then the rest follow. */
  lemma BulkCons(db: Db, settable: set<string>, chunks: seq<seq<Kwargs>>, ok: nat -> bool, c: nat)
    requires chunks != []
    ensures BulkFrom(db, settable, chunks, ok, c) == Continue(BulkFrom(db, settable, [chunks[0]], ok, c), settable, chunks[1..], ok, c + 1)
  {
    assert [chunks[0]][1..] == [];
  }

  /**
   * Committing batches `A + B` is committing `A` and then, unless that failed, `B`: the batches
   * committed before a failure stay committed.
   */
  lemma {:induction false} BulkSplit(db: Db, settable: set<string>, a: seq<seq<Kwargs>>, b: seq<seq<Kwargs>>, ok: nat -> bool, c: nat)
    ensures BulkFrom(db, settable, a + b, ok, c) == Continue(BulkFrom(db, settable, a, ok, c), settable, b, ok, c + |a|)
    decreases |a|
  {
    if a == [] {
      assert a + b == b;
    } else {
      assert (a + b)[1..] == a[1..] + b;
      BulkCons(db, settable, a + b, ok, c);
      BulkCons(db, settable, a, ok, c);
      var f := BulkFrom(db, settable, [a[0]], ok, c);
      if f.err.None? {
        BulkSplit(f.db, settable, a[1..], b, ok, c + 1);
      }
    }
  }

  /** Inserts never change a row that was already stored. */
  lemma {:induction false} InsertsKeep(db: Db, rows: seq<Record>)
    requires ApplyOps(db, Inserts(rows)).Some?
    ensures var d := ApplyOps(db, Inserts(rows)).value;
      forall k | k in db.rows :: k in d.rows && d.rows[k] == db.rows[k]
    decreases |rows|
  {
    if rows != [] {
      var ops := Inserts(rows);
      assert ops[1..] == Inserts(rows[1..]);
      var d1 := ApplyOp(db, ops[0]).value;
      InsertsKeep(d1, rows[1..]);
    }
  }

  /** Batches never change a row that was already stored, whether or not some batch fails. */
  lemma {:induction false} BulkKeepsExisting(db: Db, settable: set<string>, chunks: seq<seq<Kwargs>>, ok: nat -> bool, c: nat)
    ensures var d := BulkFrom(db, settable, chunks, ok, c).db;
      forall k | k in db.rows :: k in d.rows && d.rows[k] == db.rows[k]
    decreases |chunks|
  {
    if chunks != [] {
      match BuildChunk(settable, chunks[0]) {
        case Err(e) =>
        case Ok(rows) =>
          match Transact(db, Inserts(rows), ok(c)) {
            case Err(e) =>
            case Ok(d) =>
              InsertsKeep(db, rows);
              BulkKeepsExisting(d, settable, chunks[1..], ok, c + 1);
          }
      }
    }
  }

  /** An object that carries no key of its own gets the next autoincrement key. */
  predicate Keyless(db: Db, row: Record) {
    !Get(row, db.pk).Int?
  }

  /** Every row stored in `db` is stored unchanged in `d`. */
  predicate KeepsRows(db: Db, d: Db) {
    forall k | k in db.rows :: k in d.rows && d.rows[k] == db.rows[k]
  }

  /** Every key of `d` is a key of `db` or one of the `n` autoincrement keys after it. */
  predicate OnlyNewKeys(db: Db, d: Db, n: nat) {
    forall k | k in d.rows :: k in db.rows || db.nextId <= k < db.nextId + n
  }

  /** `d` holds the `i`-th of `rows`, carrying its key, under the `i`-th autoincrement key of `db`. */
  predicate AppendedRows(db: Db, d: Db, rows: seq<Record>) {
    forall i | 0 <= i < |rows| :: StoredAt(d, db.nextId + i, rows[i][db.pk := Int(db.nextId + i)])
  }

  /** `d` stores `row` under `k`. */
  predicate StoredAt(d: Db, k: Key, row: Record) {
    k in d.rows && d.rows[k] == row
  }

  /**
   * Inserting keyless rows into a well-formed table stores each one, in order, under the next
   * autoincrement keys, and changes nothing else.
   */
  lemma {:induction false} InsertsFresh(db: Db, rows: seq<Record>)
    requires Valid(db) && forall i | 0 <= i < |rows| :: Keyless(db, rows[i])
    ensures var r := ApplyOps(db, Inserts(rows));
      && r.Some? && Valid(r.value) && r.value.pk == db.pk
      && r.value.nextId == db.nextId + |rows|
      && KeepsRows(db, r.value) && OnlyNewKeys(db, r.value, |rows|) && AppendedRows(db, r.value, rows)
    decreases |rows|
  {
    if rows != [] {
      var ops := Inserts(rows);
      assert ops[1..] == Inserts(rows[1..]);
      assert db.nextId !in db.rows;
      var d1 := ApplyOp(db, ops[0]).value;
      InsertsFresh(d1, rows[1..]);
      var d := ApplyOps(d1, Inserts(rows[1..])).value;
      AppendedCons(db, d1, d, rows);
    }
  }

  /** The first row inserted into `db` giving `d1`, then the rest into `d1` giving `d`. */
  lemma AppendedCons(db: Db, d1: Db, d: Db, rows: seq<Record>)
    requires rows != [] && db.nextId !in db.rows
    requires d1 == Db(db.pk, db.rows[db.nextId := rows[0][db.pk := Int(db.nextId)]], db.nextId + 1)
    requires KeepsRows(d1, d) && OnlyNewKeys(d1, d, |rows| - 1) && AppendedRows(d1, d, rows[1..])
    ensures KeepsRows(db, d) && OnlyNewKeys(db, d, |rows|) && AppendedRows(db, d, rows)
  {
    forall k | k in db.rows ensures k in d.rows && d.rows[k] == db.rows[k] {
      assert k in d1.rows && d1.rows[k] == db.rows[k];
    }
    forall k | k in d.rows ensures k in db.rows || db.nextId <= k < db.nextId + |rows| {
      if k !in d1.rows { assert d1.nextId <= k < d1.nextId + |rows| - 1; }
    }
    forall i | 0 <= i < |rows|
      ensures StoredAt(d, db.nextId + i, rows[i][db.pk := Int(db.nextId + i)])
    {
      if i > 0 {
        assert rows[1..][i - 1] == rows[i];
        assert d1.nextId + (i - 1) == db.nextId + i;
      } else {
        assert db.nextId in d1.rows;
      }
    }
    assert AppendedRows(db, d, rows);
  }

  /** Batches of objects that fill cleanly, carry no key and all commit. */
  predicate CleanBatches(db: Db, settable: set<string>, objs: seq<Kwargs>) {
    forall i | 0 <= i < |objs| :: Dict(objs[i]).Keys <= settable && Keyless(db, Dict(objs[i]))
  }

  /** Clean objects stay clean in any part of the list, and for any table with the same key column. */
  lemma CleanSplit(db: Db, d: Db, settable: set<string>, x: seq<Kwargs>, y: seq<Kwargs>)
    requires CleanBatches(db, settable, x + y) && d.pk == db.pk
    ensures CleanBatches(db, settable, x) && CleanBatches(d, settable, y)
  {
    forall i | 0 <= i < |x| ensures Dict(x[i]).Keys <= settable && Keyless(db, Dict(x[i])) {
      assert (x + y)[i] == x[i];
    }
    forall i | 0 <= i < |y| ensures Dict(y[i]).Keys <= settable && Keyless(d, Dict(y[i])) {
      assert (x + y)[|x| + i] == y[i];
    }
  }

  /** `d` holds the attributes of the `i`-th of `objs`, keyed, under the `i`-th autoincrement key of `db`. */
  predicate AppendedObjects(db: Db, d: Db, objs: seq<Kwargs>) {
    forall i | 0 <= i < |objs| :: StoredAt(d, db.nextId + i, Dict(objs[i])[db.pk := Int(db.nextId + i)])
  }

  /** One batch's rows appended to `db` giving `d1`, then the later objects to `d1` giving `d`. */
  lemma AppendedConcat(db: Db, d1: Db, d: Db, ch: seq<Kwargs>, rest: seq<Kwargs>, rows: seq<Record>)
    requires |rows| == |ch| && forall i | 0 <= i < |ch| :: rows[i] == Dict(ch[i])
    requires d1.pk == db.pk && d1.nextId == db.nextId + |ch|
    requires KeepsRows(db, d1) && OnlyNewKeys(db, d1, |ch|) && AppendedRows(db, d1, rows)
    requires KeepsRows(d1, d) && OnlyNewKeys(d1, d, |rest|) && AppendedObjects(d1, d, rest)
    ensures KeepsRows(db, d) && OnlyNewKeys(db, d, |ch| + |rest|) && AppendedObjects(db, d, ch + rest)
  {
    forall k | k in db.rows ensures k in d.rows && d.rows[k] == db.rows[k] {
      assert k in d1.rows && d1.rows[k] == db.rows[k];
    }
    forall i | 0 <= i < |ch + rest|
      ensures StoredAt(d, db.nextId + i, Dict((ch + rest)[i])[db.pk := Int(db.nextId + i)])
    {
      if i < |ch| {
        assert (ch + rest)[i] == ch[i];
        assert StoredAt(d1, db.nextId + i, rows[i][db.pk := Int(db.nextId + i)]);
      } else {
        assert (ch + rest)[i] == rest[i - |ch|];
        assert d1.nextId + (i - |ch|) == db.nextId + i;
        assert StoredAt(d, d1.nextId + (i - |ch|), Dict(rest[i - |ch|])[d1.pk := Int(d1.nextId + (i - |ch|))]);
      }
    }
  }

  /**
   * Clean batches that all commit store the `i`-th object, keyed, under the `i`-th autoincrement
   * key, and change nothing else.
   */
  lemma {:induction false} BulkFromAllNew(db: Db, settable: set<string>, chunks: seq<seq<Kwargs>>, ok: nat -> bool, c: nat)
    requires Valid(db) && CleanBatches(db, settable, Flatten(chunks))
    requires forall j: nat :: ok(j)
    ensures var d := BulkFrom(db, settable, chunks, ok, c);
      && d.err == None && Valid(d.db) && d.db.pk == db.pk
      && d.db.nextId == db.nextId + |Flatten(chunks)|
      && KeepsRows(db, d.db) && OnlyNewKeys(db, d.db, |Flatten(chunks)|)
      && AppendedObjects(db, d.db, Flatten(chunks))
    decreases |chunks|
  {
    if chunks != [] {
      var ch := chunks[0];
      var rest := Flatten(chunks[1..]);
      assert Flatten(chunks) == ch + rest;
      CleanSplit(db, db, settable, ch, rest);
      BuildChunkFills(settable, ch);
      var rows := BuildChunk(settable, ch).value;
      InsertsFresh(db, rows);
      var d := ApplyOps(db, Inserts(rows)).value;
      CleanSplit(db, d, settable, ch, rest);
      BulkFromAllNew(d, settable, chunks[1..], ok, c + 1);
      AppendedConcat(db, d, BulkFrom(d, settable, chunks[1..], ok, c + 1).db, ch, rest, rows);
    }
  }

  /**
   * When every object fills cleanly and carries no key, and every commit succeeds, bulk create
   * stores the `i`-th object's attributes under the `i`-th autoincrement key, keeps every
   * existing row and adds no other row.
   */
  lemma BulkCreatesAll(db: Db, settable: set<string>, objs: seq<Kwargs>, batch: int, ok: nat -> bool)
    requires Valid(db) && batch > 0 && CleanBatches(db, settable, objs)
    requires forall j: nat :: ok(j)
    ensures var d := BulkCreateSpec(db, settable, objs, batch, ok);
      && d.err == None
      && d.db.nextId == db.nextId + |objs|
      && (forall k | k in db.rows :: k in d.db.rows && d.db.rows[k] == db.rows[k])
      && (forall k | k in d.db.rows :: k in db.rows || db.nextId <= k < db.nextId + |objs|)
      && forall i | 0 <= i < |objs| :: StoredAt(d.db, db.nextId + i, Dict(objs[i])[db.pk := Int(db.nextId + i)])
  {
    ChunksFlatten(objs, batch);
    BulkFromAllNew(db, settable, Chunks(objs, batch), ok, 0);
  }

  /** Five objects in batches of two make three commits, of two, two and one object. */
  lemma FiveInBatchesOfTwo(objs: seq<Kwargs>)
    requires |objs| == 5
    ensures var cs := Chunks(objs, 2);
      |cs| == 3 && |cs[0]| == 2 && |cs[1]| == 2 && |cs[2]| == 1
  {
    ChunksCount(objs, 2);
    ChunksFlatten(objs, 2);
    var cs := Chunks(objs, 2);
    assert cs[2..][1..] == cs[3..] == [];
    assert Flatten(cs[2..]) == cs[2];
    assert cs[1..][1..] == cs[2..];
    assert Flatten(cs[1..]) == cs[1] + cs[2];
  }

  /** A single clean batch that commits stores each of its objects under the next keys. */
  lemma FirstBatchStored(db: Db, settable: set<string>, ch: seq<Kwargs>, ok: nat -> bool)
    requires Valid(db) && CleanBatches(db, settable, ch)
    requires forall j: nat :: ok(j)
    ensures var f := BulkFrom(db, settable, [ch], ok, 0);
      && f.err == None && f.db.nextId == db.nextId + |ch|
      && KeepsRows(db, f.db) && OnlyNewKeys(db, f.db, |ch|)
      && forall i | 0 <= i < |ch| :: StoredAt(f.db, db.nextId + i, Dict(ch[i])[db.pk := Int(db.nextId + i)])
  {
    assert Flatten([ch]) == ch by {
      assert [ch][1..] == [];
    }
    BulkFromAllNew(db, settable, [ch], ok, 0);
  }

  /**
   * Five objects in batches of two, the fourth naming an unknown attribute: the first batch is
   * committed, the second fails to fill, and the call ends with that error after one commit.
   */
  lemma FourthOfFiveFails(db: Db, settable: set<string>, objs: seq<Kwargs>, ok: nat -> bool)
    requires Valid(db) && |objs| == 5 && CleanBatches(db, settable, objs[..2])
    requires !(Dict(objs[3]).Keys <= settable)
    requires forall j: nat :: ok(j)
    ensures var d := BulkCreateSpec(db, settable, objs, 2, ok);
      && d.err.Some? && d.err.value.UnknownAttribute? && d.err.value.name !in settable
      && d.db.nextId == db.nextId + 2
      && (forall k | k in db.rows :: k in d.db.rows && d.db.rows[k] == db.rows[k])
      && (forall k | k in d.db.rows :: k in db.rows || db.nextId <= k < db.nextId + 2)
      && StoredAt(d.db, db.nextId, Dict(objs[0])[db.pk := Int(db.nextId)])
      && StoredAt(d.db, db.nextId + 1, Dict(objs[1])[db.pk := Int(db.nextId + 1)])
  {
    var f := BulkFrom(db, settable, [objs[..2]], ok, 0);
    FirstBatchStored(db, settable, objs[..2], ok);
    assert objs[..2][0] == objs[0] && objs[..2][1] == objs[1];
    assert StoredAt(f.db, db.nextId + 0, Dict(objs[..2][0])[db.pk := Int(db.nextId + 0)]);
    assert StoredAt(f.db, db.nextId + 1, Dict(objs[..2][1])[db.pk := Int(db.nextId + 1)]);
    var second := BuildChunk(settable, objs[2..4]);
    assert second.Err? && second.error.UnknownAttribute? && second.error.name !in settable by {
      assert objs[2..4][1] == objs[3];
      BuildChunkFills(settable, objs[2..4]);
    }
    assert BulkCreateSpec(db, settable, objs, 2, ok) == Done(f.db, Some(second.error)) by {
      var cs := Chunks(objs, 2);
      var rest := Chunks(objs[2..], 2);
      assert cs == [objs[..2]] + rest;
      assert rest[0] == objs[2..4] by {
        assert objs[2..][..2] == objs[2..4];
      }
      BulkCons(db, settable, cs, ok, 0);
    }
  }

  /** `[cls().fill(**obj) for obj in chunk]`: the rows of one batch, or the first unknown name. */
  method FillBatch(settable: set<string>, chunk: seq<Kwargs>) returns (r: Result<seq<Record>, Error>)
    ensures r == BuildChunk(settable, chunk)
  {
    var rows: seq<Record> := [];
    var j := 0;
    while j < |chunk|
      invariant 0 <= j <= |chunk|
      invariant BuildChunk(settable, chunk[..j]) == Ok(rows)
    {
      var inst := new AR.Instance(settable);
      var fr := inst.Fill(chunk[j]);
      assert chunk[..j + 1][..j] == chunk[..j];
      if fr.Err? {
        BuildChunkFailsFrom(settable, chunk, j + 1);
        return Err(fr.error);
      }
      rows := rows + [inst.attrs];
      j := j + 1;
    }
    assert chunk[..j] == chunk;
    r := Ok(rows);
  }

  /** One round of the batching loop: the batch at `i` is filled and committed, then the rest follows. */
  lemma BulkStep(db: Db, settable: set<string>, objs: seq<Kwargs>, i: nat, b: nat, ok: nat -> bool, c: nat)
    requires i < |objs| && b > 0
    ensures var n := if |objs| - i < b then |objs| - i else b;
      BulkFrom(db, settable, Chunks(objs[i..], b), ok, c)
      == match BuildChunk(settable, objs[i..i + n])
         case Err(e) => Done(db, Some(e))
         case Ok(rows) =>
           match Transact(db, Inserts(rows), ok(c))
           case Err(e) => Done(db, Some(e))
           case Ok(d) => BulkFrom(d, settable, Chunks(objs[i + n..], b), ok, c + 1)
  {
    var n := if |objs| - i < b then |objs| - i else b;
    assert objs[i..][..n] == objs[i..i + n];
    assert objs[i..][n..] == objs[i + n..];
  }

  /** A batch that does not fill ends the loop with its error. */
  lemma BulkStepFillFails(db: Db, settable: set<string>, objs: seq<Kwargs>, i: nat, b: nat, ok: nat -> bool, c: nat, n: nat, e: Error)
    requires i < |objs| && b > 0 && n == (if |objs| - i < b then |objs| - i else b)
    requires BuildChunk(settable, objs[i..i + n]) == Err(e)
    ensures BulkFrom(db, settable, Chunks(objs[i..], b), ok, c) == Done(db, Some(e))
  {
    BulkStep(db, settable, objs, i, b, ok, c);
  }

  /** A batch whose commit fails ends the loop with the commit's error. */
  lemma BulkStepCommitFails(db: Db, settable: set<string>, objs: seq<Kwargs>, i: nat, b: nat, ok: nat -> bool, c: nat, n: nat, rows: seq<Record>, e: Error)
    requires i < |objs| && b > 0 && n == (if |objs| - i < b then |objs| - i else b)
    requires BuildChunk(settable, objs[i..i + n]) == Ok(rows)
    requires Transact(db, Inserts(rows), ok(c)) == Err(e)
    ensures BulkFrom(db, settable, Chunks(objs[i..], b), ok, c) == Done(db, Some(e))
  {
    BulkStep(db, settable, objs, i, b, ok, c);
  }

  /** A batch that commits hands the rest of the objects to the next round. */
  lemma BulkStepCommits(db: Db, settable: set<string>, objs: seq<Kwargs>, i: nat, b: nat, ok: nat -> bool, c: nat, n: nat, rows: seq<Record>, d: Db)
    requires i < |objs| && b > 0 && n == (if |objs| - i < b then |objs| - i else b)
    requires BuildChunk(settable, objs[i..i + n]) == Ok(rows)
    requires Transact(db, Inserts(rows), ok(c)) == Ok(d)
    ensures BulkFrom(db, settable, Chunks(objs[i..], b), ok, c) == BulkFrom(d, settable, Chunks(objs[i + n..], b), ok, c + 1)
  {
    BulkStep(db, settable, objs, i, b, ok, c);
  }

  /**
   * One round of `bulk_create_async`: fill the batch at `i`, stage it and commit it. A failure
   * rolls back and ends the loop with its error; a commit hands on to the next batch.
   */
  method CommitBatch(settable: set<string>, objs: seq<Kwargs>, i: nat, b: nat, s: Session, ok: nat -> bool, c: nat)
    returns (err: Option<Error>, n: nat)
    requires i < |objs| && b > 0 && s.pending == []
    modifies s
    ensures s.pending == []
    ensures n == if |objs| - i < b then |objs| - i else b
    ensures err.Some? ==> BulkFrom(old(s.db), settable, Chunks(objs[i..], b), ok, c) == Done(s.db, err)
    ensures err.None? ==>
      BulkFrom(old(s.db), settable, Chunks(objs[i..], b), ok, c) == BulkFrom(s.db, settable, Chunks(objs[i + n..], b), ok, c + 1)
  {
    n := if |objs| - i < b then |objs| - i else b;
    var chunk := objs[i..i + n];
    var built := FillBatch(settable, chunk);
    ghost var before := s.db;
    if built.Err? {
      BulkStepFillFails(before, settable, objs, i, b, ok, c, n, built.error);
      s.Rollback();
      return Some(built.error), n;
    }
    var rows := built.value;
    s.AddAll(Inserts(rows));
    assert s.pending == Inserts(rows);
    ghost var tr := Transact(before, Inserts(rows), ok(c));
    err := s.Commit(ok(c));
    if err.Some? {
      assert tr.Err? && err == Some(tr.error);
      BulkStepCommitFails(before, settable, objs, i, b, ok, c, n, rows, tr.error);
      s.Rollback();
      return;
    }
    assert tr == Ok(s.db);
    BulkStepCommits(before, settable, objs, i, b, ok, c, n, rows, s.db);
  }

  /** `bulk_create_async(objs, batch_size)`. */
  method BulkCreateAsync(settable: set<string>, objs: seq<Kwargs>, batch: int, s: Session, ok: nat -> bool)
    returns (err: Option<Error>)
    requires s.pending == []
    modifies s
    ensures s.pending == []
    ensures BulkCreateSpec(old(s.db), settable, objs, batch, ok) == Done(s.db, err)
  {
    if batch == 0 {
      return Some(InvalidBatchSize);
    }
    if batch < 0 {
      return None;
    }
    var b: nat := batch;
    ghost var db0 := s.db;
    ghost var spec := BulkFrom(db0, settable, Chunks(objs, b), ok, 0);
    assert BulkCreateSpec(db0, settable, objs, batch, ok) == spec;
    var i := 0;
    var c := 0;
    assert objs[0..] == objs;
    while i < |objs|
      invariant 0 <= i <= |objs|
      invariant s.pending == []
      invariant BulkFrom(s.db, settable, Chunks(objs[i..], b), ok, c) == spec
      decreases |objs| - i
    {
      var n;
      err, n := CommitBatch(settable, objs, i, b, s, ok, c);
      if err.Some? {
        assert spec == Done(s.db, err);
        return;
      }
      i := i + n;
      c := c + 1;
    }
    assert objs[i..] == [];
    assert spec == Done(s.db, None);
    err := None;
  }
}
