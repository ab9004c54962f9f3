/**
 * Index registration and compilation (coal/index.go).
 *
 * An index is registered on a model's metadata with its fields, sort keys,
 * uniqueness, expiry and optional partial filter, and later compiled to the
 * options handed to the database.
 */
module Coal {
  import opened Common

  /** An ordered filter document (bson.D). */
  type FilterDoc = seq<(string, string)>

  /** A sort key: a database field and its direction (1 ascending, -1 descending). */
  datatype SortKey = SortKey(key: string, direction: int)

  /** An index registered with a model; expiry is a duration in nanoseconds. */
  datatype Index = Index(fields: seq<string>, keys: seq<SortKey>, unique: bool, expiry: int, filter: Option<FilterDoc>)

  /** The compiled index: keys and the options set on it. */
  datatype IndexModel = IndexModel(
    keys: seq<SortKey>,
    unique: bool,
    background: bool,
    expireAfterSeconds: Option<int>,
    partialFilter: Option<FilterDoc>)

  const EmptyFilterPanic: string := "coal: empty partial filter expression"

  /** strings.TrimPrefix(field, "-"): removes at most one leading dash. */
  function TrimDash(field: string): (r: string)
    ensures |field| > 0 && field[0] == '-' ==> "-" + r == field
    ensures !(|field| > 0 && field[0] == '-') ==> r == field
  {
    if |field| > 0 && field[0] == '-' then field[1..] else field
  }

  /** A field name prefixed with a dash sorts descending. */
  function ToSortKey(field: string, translate: string -> string): (k: SortKey)
    ensures k.direction == (if |field| > 0 && field[0] == '-' then -1 else 1)
    ensures k.key == translate(TrimDash(field))
  {
    SortKey(translate(TrimDash(field)), if |field| > 0 && field[0] == '-' then -1 else 1)
  }

  /** Go's int32 conversion: the value modulo 2^32, read as a signed number. */
  function Int32(x: int): (r: int)
    ensures -0x8000_0000 <= r < 0x8000_0000
    ensures (r - x) % 0x1_0000_0000 == 0
    ensures -0x8000_0000 <= x < 0x8000_0000 ==> r == x
  {
    (x + 0x8000_0000) % 0x1_0000_0000 - 0x8000_0000
  }

  /** Index.Compile: derive the index options. */
  function Compile(i: Index): (m: IndexModel)
    ensures m.keys == i.keys && m.unique == i.unique && m.background
    ensures m.expireAfterSeconds.Some? <==> i.expiry > 0
    ensures m.partialFilter == i.filter
  {
    IndexModel(
      i.keys,
      i.unique,
      true,
      if i.expiry > 0 then Some(Int32(i.expiry / Second)) else None,
      i.filter)
  }

  /**
   * A positive expiry below 2^31 seconds compiles to its whole number of
   * seconds: the largest count of seconds that does not exceed it.
   */
  lemma CompileExpiryInWholeSeconds(i: Index)
    requires 0 < i.expiry < 0x8000_0000 * Second
    ensures var s := Compile(i).expireAfterSeconds;
      s.Some? && s.value * Second <= i.expiry < (s.value + 1) * Second
  {
    var q := i.expiry / Second;
    assert q * Second <= i.expiry < (q + 1) * Second;
    assert 0 <= q < 0x8000_0000;
  }

  /**
   * `added` is the index addIndex registers for these arguments: its fields
   * are the given ones in order without their leading dash, its keys the
   * matching sort keys, and uniqueness, expiry and filter are as given.
   */
  predicate IndexFor(added: Index, unique: bool, expiry: int, fields: seq<string>, filter: Option<FilterDoc>,
                     translate: string -> string)
  {
    && |added.fields| == |fields| && |added.keys| == |fields|
    && (forall k :: 0 <= k < |fields| ==> added.fields[k] == TrimDash(fields[k]))
    && (forall k :: 0 <= k < |fields| ==> added.keys[k] == ToSortKey(fields[k], translate))
    && added.unique == unique && added.expiry == expiry && added.filter == filter
  }

  /** The metadata of a model: its registered indexes. */
  class Meta {
    var indexes: seq<Index>

    constructor ()
      ensures indexes == []
    {
      indexes := [];
    }

    /**
     * addIndex: append one index whose fields are the given ones without
     * their leading dash. `translate` maps a struct field to its database
     * key (the model's translator, which is not part of this model).
     */
    method AddIndexWithFilter(unique: bool, expiry: int, fields: seq<string>, filter: Option<FilterDoc>,
                              translate: string -> string)
      modifies this
      ensures |indexes| == |old(indexes)| + 1 && indexes[..|old(indexes)|] == old(indexes)
      ensures IndexFor(indexes[|old(indexes)|], unique, expiry, fields, filter, translate)
    {
      // translate keys
      var keys: seq<SortKey> := [];
      var cleanFields: seq<string> := [];
      var i := 0;
      while i < |fields|
        invariant 0 <= i <= |fields|
        invariant |keys| == i && |cleanFields| == i
        invariant forall k :: 0 <= k < i ==> cleanFields[k] == TrimDash(fields[k])
        invariant forall k :: 0 <= k < i ==> keys[k] == ToSortKey(fields[k], translate)
      {
        keys := keys + [ToSortKey(fields[i], translate)];
        cleanFields := cleanFields + [TrimDash(fields[i])];
        i := i + 1;
      }
      indexes := indexes + [Index(cleanFields, keys, unique, expiry, filter)];
    }

    /** AddIndex: an index without a partial filter. */
    method AddIndex(unique: bool, expiry: int, fields: seq<string>, translate: string -> string)
      modifies this
      ensures |indexes| == |old(indexes)| + 1 && indexes[..|old(indexes)|] == old(indexes)
      ensures IndexFor(indexes[|old(indexes)|], unique, expiry, fields, None, translate)
    {
      AddIndexWithFilter(unique, expiry, fields, None, translate);
    }

    /** AddPartialIndex: an empty filter is refused (a panic in Go) and nothing is added. */
    method AddPartialIndex(unique: bool, expiry: int, fields: seq<string>, filter: FilterDoc, translate: string -> string)
      returns (r: Result<(), string>)
      modifies this
      ensures filter == [] ==> r == Err(EmptyFilterPanic) && indexes == old(indexes)
      ensures filter != [] ==>
        && r == Ok(())
        && |indexes| == |old(indexes)| + 1 && indexes[..|old(indexes)|] == old(indexes)
        && IndexFor(indexes[|old(indexes)|], unique, expiry, fields, Some(filter), translate)
    {
      if filter == [] {
        return Err(EmptyFilterPanic);
      }
      AddIndexWithFilter(unique, expiry, fields, Some(filter), translate);
      r := Ok(());
    }

    /**
     * EnsureIndexes: create every registered index in order, stopping at the
     * first one the database refuses. `create` is the database's reply to a
     * compiled index (None on success); `sent` lists what was submitted.
     */
    method EnsureIndexes(create: IndexModel -> Option<string>) returns (sent: seq<IndexModel>, err: Option<string>)
      ensures |sent| <= |indexes|
      ensures forall k :: 0 <= k < |sent| ==> sent[k] == Compile(indexes[k])
      ensures err.None? ==> |sent| == |indexes| && forall k :: 0 <= k < |sent| ==> create(sent[k]).None?
      ensures err.Some? ==>
        && |sent| > 0 && err == create(sent[|sent| - 1])
        && forall k :: 0 <= k < |sent| - 1 ==> create(sent[k]).None?
    {
      sent := [];
      var i := 0;
      while i < |indexes|
        invariant 0 <= i <= |indexes| && |sent| == i
        invariant forall k :: 0 <= k < i ==> sent[k] == Compile(indexes[k])
        invariant forall k :: 0 <= k < i ==> create(sent[k]).None?
      {
        var model := Compile(indexes[i]);
        sent := sent + [model];
        var reply := create(model);
        if reply.Some? {
          return sent, reply;
        }
        i := i + 1;
      }
      err := None;
    }
  }
}
