/**
 * Model schemas and the derivation of a model's historical twin (`create_historical`).
 */
module Schemas {
  import opened Common

  /** The column types the models use. */
  datatype ColType = BigInteger | Integer | DateTime | String | Boolean

  /** A column default: none, a fixed value, or the database clock (`func.now()`). */
  datatype ColDefault = NoDefault | Fixed(v: Value) | ServerNow

  datatype Column = Column(name: string, ctype: ColType, primaryKey: bool, default: ColDefault)

  datatype Schema = Schema(tableName: string, columns: seq<Column>)

  /** A model class: its name, its table and its `__historical__` flag. */
  datatype Model = Model(name: string, schema: Schema, historical: bool)

  /** The names of some columns. */
  function Names(cols: seq<Column>): set<string> {
    set c | c in cols :: c.name
  }

  /** `settable_attributes`: every column of the model's table. */
  function Settable(m: Model): set<string> {
    Names(m.schema.columns)
  }

  /** The names of the primary-key columns, in table order. */
  function PrimaryKeys(cols: seq<Column>): (r: seq<string>)
    ensures forall n :: n in r <==> exists c | c in cols :: c.primaryKey && c.name == n
    ensures |r| <= |cols|
    decreases |cols|
  {
    if cols == [] then []
    else
      var rest := PrimaryKeys(cols[1..]);
      assert forall c | c in cols :: c == cols[0] || c in cols[1..];
      (if cols[0].primaryKey then [cols[0].name] else []) + rest
  }

  lemma {:induction false} PrimaryKeysConcat(a: seq<Column>, b: seq<Column>)
    ensures PrimaryKeys(a + b) == PrimaryKeys(a) + PrimaryKeys(b)
    decreases |a|
  {
    if a == [] {
      assert a + b == b;
    } else {
      var h := if a[0].primaryKey then [a[0].name] else [];
      assert (a + b)[0] == a[0] && (a + b)[1..] == a[1..] + b;
      assert PrimaryKeys(a + b) == h + PrimaryKeys(a[1..] + b);
      PrimaryKeysConcat(a[1..], b);
      assert h + (PrimaryKeys(a[1..]) + PrimaryKeys(b)) == (h + PrimaryKeys(a[1..])) + PrimaryKeys(b);
    }
  }

  /** A single column contributes its name exactly when it is a primary key. */
  lemma PrimaryKeysSingle(c: Column)
    ensures PrimaryKeys([c]) == if c.primaryKey then [c.name] else []
  {
    assert [c][1..] == [];
  }

  /** Column `i` is the one primary-key column of `cols`. */
  predicate OnlyKeyAt(cols: seq<Column>, i: int) {
    0 <= i < |cols| && cols[i].primaryKey && forall j | 0 <= j < |cols| && cols[j].primaryKey :: j == i
  }

  /**
   * There is exactly one primary-key name if and only if there is exactly one primary-key
   * column, and that name is the column's.
   */
  lemma {:induction false} PrimaryKeysOne(cols: seq<Column>)
    ensures |PrimaryKeys(cols)| == 1 <==> exists i :: OnlyKeyAt(cols, i)
    ensures forall i | OnlyKeyAt(cols, i) :: PrimaryKeys(cols) == [cols[i].name]
    decreases |cols|
  {
    if cols != [] {
      var rest := cols[1..];
      PrimaryKeysOne(rest);
      if !cols[0].primaryKey {
        KeyNotFirst(cols);
        forall i | OnlyKeyAt(cols, i) ensures PrimaryKeys(cols) == [cols[i].name] {
          assert OnlyKeyAt(rest, i - 1) && rest[i - 1] == cols[i];
        }
        if |PrimaryKeys(rest)| == 1 {
          var i :| OnlyKeyAt(rest, i);
          assert OnlyKeyAt(cols, i + 1);
        }
      } else if PrimaryKeys(rest) == [] {
        KeyFirstAlone(cols);
      } else {
        KeyFirstShared(cols);
      }
    }
  }

  /** Without a key in front, the keys are those of the rest, shifted by one. */
  lemma KeyNotFirst(cols: seq<Column>)
    requires cols != [] && !cols[0].primaryKey
    ensures PrimaryKeys(cols) == PrimaryKeys(cols[1..])
    ensures forall i | OnlyKeyAt(cols, i) :: OnlyKeyAt(cols[1..], i - 1)
    ensures forall i | OnlyKeyAt(cols[1..], i) :: OnlyKeyAt(cols, i + 1)
  {
    var rest := cols[1..];
    forall i | OnlyKeyAt(cols, i) ensures OnlyKeyAt(rest, i - 1) {
      forall j | 0 <= j < |rest| && rest[j].primaryKey ensures j == i - 1 {
        assert cols[j + 1] == rest[j];
      }
    }
    forall i | OnlyKeyAt(rest, i) ensures OnlyKeyAt(cols, i + 1) {
      forall j | 0 <= j < |cols| && cols[j].primaryKey ensures j == i + 1 {
        assert j > 0 && cols[j] == rest[j - 1];
      }
    }
  }

  /** A key in front and none behind it: that column is the only key. */
  lemma KeyFirstAlone(cols: seq<Column>)
    requires cols != [] && cols[0].primaryKey && PrimaryKeys(cols[1..]) == []
    ensures PrimaryKeys(cols) == [cols[0].name] && OnlyKeyAt(cols, 0)
    ensures forall i | OnlyKeyAt(cols, i) :: i == 0
  {
    forall j | 0 < j < |cols| ensures !cols[j].primaryKey {
      assert cols[j] == cols[1..][j - 1];
      KeyNamed(cols[1..], cols[j]);
    }
    assert PrimaryKeys(cols) == [cols[0].name] + PrimaryKeys(cols[1..]);
  }

  /** A primary-key column's name is among the primary-key names. */
  lemma KeyNamed(cols: seq<Column>, c: Column)
    requires c in cols
    ensures c.primaryKey ==> c.name in PrimaryKeys(cols)
  {
  }

  /** A key in front and another behind it: there is no single key column. */
  lemma KeyFirstShared(cols: seq<Column>)
    requires cols != [] && cols[0].primaryKey && PrimaryKeys(cols[1..]) != []
    ensures |PrimaryKeys(cols)| > 1 && forall i :: !OnlyKeyAt(cols, i)
  {
    var rest := cols[1..];
    var n := PrimaryKeys(rest)[0];
    assert n in PrimaryKeys(rest);
    var c :| c in rest && c.primaryKey && c.name == n;
    var j :| 0 <= j < |rest| && rest[j] == c;
    assert cols[j + 1] == c;
  }

  lemma {:induction false} PrimaryKeysNone(cols: seq<Column>)
    requires forall c | c in cols :: !c.primaryKey
    ensures PrimaryKeys(cols) == []
    decreases |cols|
  {
    if cols != [] {
      assert cols[0] in cols;
      PrimaryKeysNone(cols[1..]);
    }
  }

  /** The columns a historical model adds (`HistoricalBase`). */
  function HistoryColumns(): seq<Column> {
    [ Column("history_id", BigInteger, true, NoDefault),
      Column("history_date", DateTime, false, ServerNow),
      Column("history_change_reason", String, false, Fixed(Null)),
      Column("history_type", String, false, Fixed(Kind(ADD))),
      Column("history_user_id", BigInteger, false, NoDefault) ]
  }

  /** The names of the columns a historical model adds. */
  function HistoryNames(): set<string> {
    {"history_id", "history_date", "history_change_reason", "history_type", "history_user_id"}
  }

  /**
   * A model whose column names do not clash with the history columns. A clashing source column
   * replaces the history column of that name in the twin's class dictionary.
   */
  predicate Recordable(m: Model) {
    Settable(m) !! HistoryNames()
  }

  /**
   * The copies of the source columns other than `id`: same name and type, not a primary key,
   * no default.
   */
  function CopyColumns(cols: seq<Column>): seq<Column>
    decreases |cols|
  {
    if cols == [] then []
    else
      var c := cols[0];
      (if c.name == "id" then [] else [Column(c.name, c.ctype, false, NoDefault)]) + CopyColumns(cols[1..])
  }

  /**
   * The copies carry exactly the source's names other than `id`, none is a primary key or has a
   * default, and every source column other than `id` is copied with its name and type.
   */
  lemma {:induction false} CopyColumnsCopies(cols: seq<Column>)
    ensures var r := CopyColumns(cols);
      && Names(r) == Names(cols) - {"id"}
      && (forall c | c in r :: !c.primaryKey && c.default == NoDefault)
      && forall c | c in cols && c.name != "id" :: Column(c.name, c.ctype, false, NoDefault) in r
    decreases |cols|
  {
    if cols != [] {
      var c := cols[0];
      var h := if c.name == "id" then [] else [Column(c.name, c.ctype, false, NoDefault)];
      var rest := CopyColumns(cols[1..]);
      CopyColumnsCopies(cols[1..]);
      assert CopyColumns(cols) == h + rest;
      assert forall d | d in cols :: d == c || d in cols[1..];
      assert Names(cols) == {c.name} + Names(cols[1..]);
      NamesConcat(h, rest);
      if h != [] { NamesSingle(h[0]); }
    }
  }

  /** Every copy comes from a source column other than `id`: nothing else is added. */
  lemma {:induction false} CopyColumnsOnly(cols: seq<Column>)
    ensures forall c | c in CopyColumns(cols) ::
      exists d | d in cols && d.name != "id" :: c == Column(d.name, d.ctype, false, NoDefault)
    decreases |cols|
  {
    if cols != [] {
      CopyColumnsOnly(cols[1..]);
      forall c | c in CopyColumns(cols)
        ensures exists d | d in cols && d.name != "id" :: c == Column(d.name, d.ctype, false, NoDefault)
      {
        if c !in CopyColumns(cols[1..]) {
          assert cols[0] in cols;
        } else {
          var d :| d in cols[1..] && d.name != "id" && c == Column(d.name, d.ctype, false, NoDefault);
          assert d in cols;
        }
      }
    }
  }

  /** The copies of one column: none for `id`, and otherwise the one copy. */
  lemma CopyColumnsSingle(c: Column)
    ensures CopyColumns([c]) == if c.name == "id" then [] else [Column(c.name, c.ctype, false, NoDefault)]
  {
    assert [c][1..] == [];
  }

  /** The copies keep the source order: copying a concatenation concatenates the copies. */
  lemma {:induction false} CopyColumnsConcat(a: seq<Column>, b: seq<Column>)
    ensures CopyColumns(a + b) == CopyColumns(a) + CopyColumns(b)
    decreases |a|
  {
    if a == [] {
      assert a + b == b;
    } else {
      var h := if a[0].name == "id" then [] else [Column(a[0].name, a[0].ctype, false, NoDefault)];
      assert (a + b)[0] == a[0] && (a + b)[1..] == a[1..] + b;
      assert CopyColumns(a + b) == h + CopyColumns(a[1..] + b);
      CopyColumnsConcat(a[1..], b);
      assert h + (CopyColumns(a[1..]) + CopyColumns(b)) == (h + CopyColumns(a[1..])) + CopyColumns(b);
    }
  }

  /** The `id` column of a historical model: `Integer` when the source has one, `BigInteger` otherwise. */
  function IdColumn(m: Model): Column {
    Column("id", if "id" in Names(m.schema.columns) then Integer else BigInteger, false, NoDefault)
  }

  /**
   * `create_historical()`: `<Name>Historical` on table `<table>historical`, not itself
   * historical, with an `id` column, a copy of every other column and the history columns.
   */
  function CreateHistorical(m: Model): Model {
    Model(m.name + "Historical",
          Schema(m.schema.tableName + "historical",
                 [IdColumn(m)] + CopyColumns(m.schema.columns) + HistoryColumns()),
          false)
  }

  lemma {:induction false} NamesConcat(a: seq<Column>, b: seq<Column>)
    ensures Names(a + b) == Names(a) + Names(b)
  {
    forall c | c in a + b ensures c in a || c in b { }
    forall c | c in a ensures c in a + b { }
    forall c | c in b ensures c in a + b { }
  }

  /** A single column contributes its own name. */
  lemma NamesSingle(c: Column)
    ensures Names([c]) == {c.name}
  {
    assert c in [c];
  }

  /** The names of a non-empty column list: those of all but the last column, and the last one. */
  lemma NamesSnoc(cols: seq<Column>)
    requires cols != []
    ensures Names(cols) == Names(cols[..|cols| - 1]) + {cols[|cols| - 1].name}
  {
    var p := cols[..|cols| - 1];
    forall c | c in cols ensures c in p || c == cols[|cols| - 1] {
      var i :| 0 <= i < |cols| && cols[i] == c;
      if i < |cols| - 1 { assert p[i] == c; }
    }
    forall c | c in p ensures c in cols { }
  }

  /** `history_id` is the only primary key among the history columns. */
  lemma HistoryPrimaryKey()
    ensures PrimaryKeys(HistoryColumns()) == ["history_id"]
    ensures Names(HistoryColumns()) == HistoryNames()
  {
    var hc := HistoryColumns();
    assert PrimaryKeys(hc[4..]) == [];
    assert PrimaryKeys(hc[3..]) == [];
    assert PrimaryKeys(hc[2..]) == [];
    assert PrimaryKeys(hc[1..]) == [];
    assert hc[0] in hc && hc[1] in hc && hc[2] in hc && hc[3] in hc && hc[4] in hc;
  }

  /**
   * The historical twin is named after the source, lives in its own table and is not
   * historical itself, so deriving it does not recurse.
   */
  lemma HistoricalNaming(m: Model)
    ensures var h := CreateHistorical(m);
      && h.name == m.name + "Historical"
      && h.schema.tableName == m.schema.tableName + "historical"
      && !h.historical
  {
  }

  /** The historical twin can be filled with every attribute of the source, `id` and the history columns. */
  lemma HistoricalSettable(m: Model)
    ensures Settable(CreateHistorical(m)) == Settable(m) + {"id"} + HistoryNames()
  {
    var copies := CopyColumns(m.schema.columns);
    CopyColumnsCopies(m.schema.columns);
    var hc := HistoryColumns();
    assert Names(hc) == HistoryNames() by {
      HistoryPrimaryKey();
    }
    assert Names([IdColumn(m)] + copies) == {"id"} + Names(copies) by {
      NamesConcat([IdColumn(m)], copies);
      NamesSingle(IdColumn(m));
    }
    assert Names([IdColumn(m)] + copies + hc) == Names([IdColumn(m)] + copies) + Names(hc) by {
      NamesConcat([IdColumn(m)] + copies, hc);
    }
  }

  /** `history_id` is the one primary key of the historical twin. */
  lemma HistoricalPrimaryKey(m: Model)
    requires Recordable(m)
    ensures PrimaryKeys(CreateHistorical(m).schema.columns) == ["history_id"]
  {
    var copies := CopyColumns(m.schema.columns);
    CopyColumnsCopies(m.schema.columns);
    HistoryPrimaryKey();
    PrimaryKeysConcat([IdColumn(m)] + copies, HistoryColumns());
    PrimaryKeysConcat([IdColumn(m)], copies);
    PrimaryKeysNone(copies);
    assert PrimaryKeys([IdColumn(m)]) == [];
  }

  /** The `id` column of the historical twin is an `Integer` when the source has one, a `BigInteger` otherwise. */
  lemma HistoricalIdType(m: Model)
    ensures var h := CreateHistorical(m);
      && h.schema.columns[0].name == "id"
      && (h.schema.columns[0].ctype == Integer <==> "id" in Names(m.schema.columns))
      && (forall c | c in m.schema.columns && c.name != "id" ::
           Column(c.name, c.ctype, false, NoDefault) in h.schema.columns)
      && forall c | c in h.schema.columns[1..] ::
           c in HistoryColumns() || exists d | d in m.schema.columns && d.name != "id" :: c == Column(d.name, d.ctype, false, NoDefault)
  {
    var copies := CopyColumns(m.schema.columns);
    var cols := CreateHistorical(m).schema.columns;
    assert cols == [IdColumn(m)] + copies + HistoryColumns();
    assert cols[1..] == copies + HistoryColumns();
    assert forall c | c in m.schema.columns && c.name != "id" :: Column(c.name, c.ctype, false, NoDefault) in copies by {
      CopyColumnsCopies(m.schema.columns);
    }
    assert forall c | c in copies :: exists d | d in m.schema.columns && d.name != "id" :: c == Column(d.name, d.ctype, false, NoDefault) by {
      CopyColumnsOnly(m.schema.columns);
    }
  }
}
