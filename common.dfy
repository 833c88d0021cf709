/** Values, records, keyword arguments and errors shared by every layer of the model. */
module Common {

  datatype Option<+T> = None | Some(value: T)

  datatype Result<+T, +E> = Ok(value: T) | Err(error: E)

  /** A primary-key value of a stored row. */
  type Key = int

  /** An opaque reading of the wall clock, supplied by the caller. */
  type Time = int

  /** The tag carried by a history snapshot (`TypeHistorical`). */
  datatype HistoryType = ADD | UPDATE | DEL

  /** An attribute value; `Null` is SQL NULL / Python `None`. */
  datatype Value =
    | Null
    | Int(i: int)
    | Str(s: string)
    | Bool(b: bool)
    | Stamp(t: Time)
    | Kind(k: HistoryType)

  /** The attributes of one record, by name. */
  type Record = map<string, Value>

  /**
   * Keyword arguments in call order. Python's `**kwargs` never repeats a name; the type allows
   * repeats, and then `Dict` keeps the last value for a name while `fill` may stop before it.
   * The lemmas relating `fill` to `Dict` describe a real call only for lists without repeats.
   */
  type Kwargs = seq<(string, Value)>

  /** The errors the core raises, one constructor per Python exception path. */
  datatype Error =
    | UnknownAttribute(name: string)                // KeyError from fill
    | NoRowsMatching(model: string, filters: Kwargs) // ValueError from where_or_fail
    | StorageFailure                                // the session's commit raised
    | TransientDelete                               // deleting an instance that was never persisted
    | CompositePrimaryKey(model: string)            // InvalidRequestError from _get_primary_key_name
    | NoPrimaryKeyColumn                            // IndexError at primary_keys[0]
    | ModelNotFound(model: string, id: Value)       // ModelNotFoundError from find_or_fail_async
    | InvalidBatchSize                              // ValueError from range() with a zero step

  /** An attribute read; a missing attribute reads as `Null`. */
  function Get(r: Record, name: string): Value {
    if name in r then r[name] else Null
  }

  /** `r` with every pair of `kw` assigned in order (a later pair overrides an earlier one). */
  function Assign(r: Record, kw: Kwargs): Record
    decreases |kw|
  {
    if kw == [] then r
    else Assign(r, kw[..|kw| - 1])[kw[|kw| - 1].0 := kw[|kw| - 1].1]
  }

  /** The dictionary the keyword arguments denote. */
  function Dict(kw: Kwargs): Record {
    Assign(map[], kw)
  }

  /** `kwargs.get(name)`. */
  function Lookup(kw: Kwargs, name: string): Option<Value> {
    if name in Dict(kw) then Some(Dict(kw)[name]) else None
  }

  /** Every pair of `kw` whose name is `name` gets the value `v`; positions are kept. */
  function Replace(kw: Kwargs, name: string, v: Value): (r: Kwargs)
    ensures |r| == |kw|
  {
    seq(|kw|, i requires 0 <= i < |kw| => if kw[i].0 == name then (name, v) else kw[i])
  }

  /** `kwargs[name] = v`: overwrites the entry in place, or appends a new one. */
  function SetKw(kw: Kwargs, name: string, v: Value): (r: Kwargs)
    ensures Dict(r) == Dict(kw)[name := v]
  {
    if name in Dict(kw) then
      DictReplace(kw, name, v);
      Replace(kw, name, v)
    else
      assert (kw + [(name, v)])[..|kw|] == kw;
      kw + [(name, v)]
  }

  lemma {:induction false} DictReplace(kw: Kwargs, name: string, v: Value)
    ensures Dict(Replace(kw, name, v)) == if name in Dict(kw) then Dict(kw)[name := v] else Dict(kw)
    decreases |kw|
  {
    if kw != [] {
      var n := |kw|;
      var p := kw[..n - 1];
      var last := kw[n - 1];
      var rp := Replace(kw, name, v);
      assert rp[..n - 1] == Replace(p, name, v);
      DictReplace(p, name, v);
      assert Dict(rp) == Dict(Replace(p, name, v))[rp[n - 1].0 := rp[n - 1].1];
      assert Dict(kw) == Dict(p)[last.0 := last.1];
    }
  }

  /** A name is in the dictionary exactly when some pair carries it. */
  lemma {:induction false} DictHasName(kw: Kwargs, name: string)
    ensures name in Dict(kw) <==> exists i :: 0 <= i < |kw| && kw[i].0 == name
    decreases |kw|
  {
    if kw != [] {
      var n := |kw|;
      var p := kw[..n - 1];
      DictHasName(p, name);
      if name in Dict(p) {
        var i :| 0 <= i < |p| && p[i].0 == name;
        assert kw[i].0 == name;
      }
      if exists i :: 0 <= i < |kw| && kw[i].0 == name {
        var i :| 0 <= i < |kw| && kw[i].0 == name;
        if i < n - 1 { assert p[i].0 == name; }
      }
    }
  }

  /** Assigning keyword arguments overlays their dictionary on the record. */
  lemma {:induction false} AssignOverlays(r: Record, kw: Kwargs)
    ensures Assign(r, kw) == r + Dict(kw)
    decreases |kw|
  {
    if kw != [] {
      var n := |kw|;
      AssignOverlays(r, kw[..n - 1]);
      AssignOverlays(map[], kw[..n - 1]);
    }
  }

  /** The dictionary of a prefix extended by one pair. */
  lemma DictSnoc(kw: Kwargs, name: string, v: Value)
    ensures Dict(kw + [(name, v)]) == Dict(kw)[name := v]
  {
    assert (kw + [(name, v)])[..|kw|] == kw;
  }

  /** Overlaying `d[n := v] + u` on a record is overlaying `d`, then setting `n`, then `u`. */
  lemma OverlayStamped(a: Record, d: Record, n: string, v: Value, u: Record)
    ensures a + (d[n := v] + u) == (a + d)[n := v] + u
  {
    var l := a + (d[n := v] + u);
    var r := (a + d)[n := v] + u;
    assert l.Keys == r.Keys;
    forall x | x in l ensures l[x] == r[x] {
    }
  }

  /** Setting one entry is overlaying a one-entry dictionary. */
  lemma SetIsOverlay(m: Record, n: string, v: Value)
    ensures m[n := v] == m + map[n := v]
  {
  }
}
