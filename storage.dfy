/**
 * The storage collaborator, abstracted: a table keyed by primary key, a session that
 * stages changes and commits them atomically, and the structured-filter query facade.
 */
module Storage {
  import opened Common

  /** A change staged in the session: `add` of a new or a persisted instance, or `delete`. */
  datatype Op = Insert(row: Record) | Update(key: Key, row: Record) | Remove(key: Key)

  /**
   * One table: the name of its primary-key column, its committed rows by key, and the next
   * value the storage hands out for an insert that carries no key of its own.
   */
  datatype Db = Db(pk: string, rows: map<Key, Record>, nextId: Key)

  /** Every row is stored under its own primary-key value, and autoincrement is above every key. */
  predicate Valid(db: Db) {
    forall k | k in db.rows :: k < db.nextId && Get(db.rows[k], db.pk) == Int(k)
  }

  /** The key an inserted row takes: its own primary-key value, or the next autoincrement value. */
  function InsertKey(db: Db, row: Record): Key {
    match Get(row, db.pk)
    case Int(k) => k
    case _ => db.nextId
  }

  /**
   * One staged change applied to the table, or `None` when the storage refuses it: an insert
   * whose key is taken (an integrity error) or an update or delete of a row that is gone.
   */
  function ApplyOp(db: Db, op: Op): (r: Option<Db>)
    ensures r.Some? ==> r.value.pk == db.pk
    ensures r.Some? && Valid(db) ==> Valid(r.value)
  {
    match op
    case Insert(row) =>
      var k := InsertKey(db, row);
      if k in db.rows then None
      else Some(Db(db.pk, db.rows[k := row[db.pk := Int(k)]], if k < db.nextId then db.nextId else k + 1))
    case Update(k, row) =>
      if k in db.rows then Some(db.(rows := db.rows[k := row[db.pk := Int(k)]])) else None
    case Remove(k) =>
      if k in db.rows then Some(db.(rows := db.rows - {k})) else None
  }

  /** The staged changes applied in order; `None` if any one is refused. */
  function ApplyOps(db: Db, ops: seq<Op>): (r: Option<Db>)
    ensures r.Some? ==> r.value.pk == db.pk
    ensures r.Some? && Valid(db) ==> Valid(r.value)
    decreases |ops|
  {
    if ops == [] then Some(db)
    else match ApplyOp(db, ops[0])
      case None => None
      case Some(d) => ApplyOps(d, ops[1..])
  }

  lemma {:induction false} ApplyOpsSnoc(db: Db, ops: seq<Op>, op: Op)
    ensures ApplyOps(db, ops + [op]) == match ApplyOps(db, ops) case None => None case Some(d) => ApplyOp(d, op)
    decreases |ops|
  {
    if ops == [] {
      assert [] + [op] == [op];
    } else {
      assert (ops + [op])[1..] == ops[1..] + [op];
      match ApplyOp(db, ops[0]) {
        case None =>
        case Some(d) => ApplyOpsSnoc(d, ops[1..], op);
      }
    }
  }

  /**
   * A commit of the staged changes: it succeeds when the storage's own commit succeeds (`ok`)
   * and no change is refused; the table then holds every change, and otherwise none of them.
   */
  function Transact(db: Db, ops: seq<Op>, ok: bool): (r: Result<Db, Error>)
    ensures r.Err? ==> r.error == StorageFailure
    ensures r.Ok? <==> ok && ApplyOps(db, ops).Some?
    ensures r.Ok? ==> Some(r.value) == ApplyOps(db, ops)
  {
    if !ok then Err(StorageFailure)
    else match ApplyOps(db, ops)
      case None => Err(StorageFailure)
      case Some(d) => Ok(d)
  }

  /** The table after a commit attempt: the committed one, or the old one after a rollback. */
  function Committed(db: Db, ops: seq<Op>, ok: bool): Db {
    match Transact(db, ops, ok)
    case Ok(d) => d
    case Err(_) => db
  }

  /** A database session: the committed table and the changes staged since the last commit. */
  class Session {
    var db: Db
    var pending: seq<Op>

    constructor (db: Db)
      ensures this.db == db && pending == []
    {
      this.db := db;
      pending := [];
    }

    /** `session.add` / `session.delete`: stage one change. */
    method Add(op: Op)
      modifies this
      ensures db == old(db) && pending == old(pending) + [op]
    {
      pending := pending + [op];
    }

    /** `session.add_all`: stage several changes, in order. */
    method AddAll(ops: seq<Op>)
      modifies this
      ensures db == old(db) && pending == old(pending) + ops
    {
      pending := pending + ops;
    }

    /** `session.commit()`: all staged changes, or none and an error. */
    method Commit(ok: bool) returns (err: Option<Error>)
      modifies this
      ensures match Transact(old(db), old(pending), ok)
              case Ok(d) => err == None && db == d && pending == []
              case Err(e) => err == Some(e) && db == old(db) && pending == old(pending)
    {
      var r := Transact(db, pending, ok);
      match r {
        case Ok(d) =>
          db := d;
          pending := [];
          err := None;
        case Err(e) =>
          err := Some(e);
      }
    }

    /** `session.rollback()`: drop the staged changes. */
    method Rollback()
      modifies this
      ensures db == old(db) && pending == []
    {
      pending := [];
    }
  }

  /** Every equality filter `name = value` holds of the row. */
  predicate Matches(row: Record, filters: Kwargs) {
    forall i | 0 <= i < |filters| :: Get(row, filters[i].0) == filters[i].1
  }

  /** `where(**filters)` over the table: the matching rows. */
  function Where(rows: map<Key, Record>, filters: Kwargs): (r: map<Key, Record>)
    ensures forall k :: k in r <==> k in rows && Matches(rows[k], filters)
    ensures forall k | k in r :: r[k] == rows[k]
  {
    map k | k in rows && Matches(rows[k], filters) :: rows[k]
  }

  /** `x` is the least element of `s`. */
  predicate IsLeast(x: Key, s: set<Key>) {
    x in s && forall j | j in s :: x <= j
  }

  /** The least element of a non-empty set of keys. */
  function MinOf(s: set<Key>): (m: Key)
    requires s != {}
    ensures m in s && forall j | j in s :: m <= j
  {
    HasLeast(s);
    var x :| IsLeast(x, s);
    x
  }

  lemma {:induction false} HasLeast(s: set<Key>)
    requires s != {}
    ensures exists x :: IsLeast(x, s)
    decreases |s|
  {
    if forall x :: x !in s { assert false; }
    var y :| y in s;
    if s == {y} {
      assert IsLeast(y, s);
    } else {
      var rest := s - {y};
      assert s == rest + {y};
      HasLeast(rest);
      var x :| IsLeast(x, rest);
      var m := if y < x then y else x;
      assert IsLeast(m, s) by {
        forall j | j in s ensures m <= j {
          if j != y { assert j in rest; }
        }
      }
    }
  }

  /** `first()` of a result that the storage returns in key order. */
  function First(m: map<Key, Record>): (r: Option<Key>)
    ensures r.None? <==> m == map[]
    ensures r.Some? ==> r.value in m && forall j | j in m :: r.value <= j
  {
    if m == map[] then None
    else
      assert m.Keys != {} by {
        if forall k :: k !in m { assert false; }
      }
      Some(MinOf(m.Keys))
  }
}
