/**
 * The profile collection: a key-value store from `guild-author` keys to
 * records, kept in insertion order. A record is a JavaScript object whose
 * properties are all strings: `id`, `guild`, and the properties the
 * set-commands write (`description`, the ten platform handles, `steamurl`).
 */
module ProfileStore {
  import opened Wrappers

  type Record = map<string, string>

  /** The whole collection: its keys in insertion order and the record under each. */
  datatype Snapshot = Snapshot(order: seq<string>, records: map<string, Record>)

  /** Each key is listed once, and the listed keys are exactly the stored ones. */
  predicate Wellformed(s: Snapshot)
  {
    && (forall i, j :: 0 <= i < j < |s.order| ==> s.order[i] != s.order[j])
    && (forall k :: k in s.records ==> k in s.order)
    && (forall k :: k in s.order ==> k in s.records)
  }

  /** The store holding nothing. */
  function Empty(): (s: Snapshot)
    ensures Wellformed(s)
    ensures forall k :: k !in s.records
  {
    Snapshot([], map[])
  }

  /** `get(key)`: the record under `key`, or None (JavaScript `undefined`). */
  function Get(s: Snapshot, key: string): (r: Option<Record>)
    ensures r.Some? <==> key in s.records
    ensures r.Some? ==> r.value == s.records[key]
  {
    if key in s.records then Some(s.records[key]) else None
  }

  /**
   * `has(key, path)`: the record under `key` has the property `path`, whatever
   * its value (the empty string included).
   */
  predicate Has(s: Snapshot, key: string, path: string)
  {
    key in s.records && path in s.records[key]
  }

  /** `ensure(key, init)`: stores `init` under `key` only when the key is absent. */
  function Ensured(s: Snapshot, key: string, init: Record): (t: Snapshot)
    ensures key in t.records
    ensures key in s.records ==> t == s
    ensures key !in s.records ==> t.records[key] == init && t.order == s.order + [key]
    ensures t.records.Keys == s.records.Keys + {key}
    ensures forall k :: k in s.records ==> t.records[k] == s.records[k]
  {
    if key in s.records then s else Snapshot(s.order + [key], s.records[key := init])
  }

  /** Ensuring twice, with any second default, is ensuring once. */
  lemma EnsureIdempotent(s: Snapshot, key: string, init: Record, init2: Record)
    ensures Ensured(Ensured(s, key, init), key, init2) == Ensured(s, key, init)
  {
  }

  /** Ensuring keeps the store well-formed. */
  lemma EnsurePreservesWellformed(s: Snapshot, key: string, init: Record)
    requires Wellformed(s)
    ensures Wellformed(Ensured(s, key, init))
  {
    if key !in s.records {
      assert key !in s.order;
      var o := s.order + [key];
      forall i, j | 0 <= i < j < |o| ensures o[i] != o[j] {
        if j == |s.order| {
          assert o[i] == s.order[i];
        }
      }
    }
  }

  /**
   * `set(key, value, path)`: writes one property of one record. A missing key
   * gets a record holding only that property, appended to the order.
   */
  function Written(s: Snapshot, key: string, path: string, value: string): (t: Snapshot)
    ensures t.records.Keys == s.records.Keys + {key}
    ensures forall k :: k in s.records && k != key ==> t.records[k] == s.records[k]
    ensures path in t.records[key] && t.records[key][path] == value
    ensures key in s.records ==> t.records[key].Keys == s.records[key].Keys + {path}
    ensures key in s.records ==>
              forall q :: q in s.records[key] && q != path ==> t.records[key][q] == s.records[key][q]
    ensures key !in s.records ==> t.records[key].Keys == {path}
    ensures key in s.records ==> t.order == s.order
    ensures key !in s.records ==> t.order == s.order + [key]
  {
    var record := if key in s.records then s.records[key] else map[];
    Snapshot(if key in s.records then s.order else s.order + [key],
             s.records[key := record[path := value]])
  }

  /** The record written is the old one, or an empty one, with the one property set. */
  lemma WrittenRecord(s: Snapshot, key: string, path: string, value: string)
    ensures Written(s, key, path, value).records[key]
            == (if key in s.records then s.records[key] else map[])[path := value]
  {
  }

  /** Writing the same value to the same property twice is writing it once. */
  lemma WriteIdempotent(s: Snapshot, key: string, path: string, value: string)
    ensures Written(Written(s, key, path, value), key, path, value) == Written(s, key, path, value)
  {
    var t := Written(s, key, path, value);
    assert t.records[key][path := value] == t.records[key];
    assert t.records[key := t.records[key]] == t.records;
  }

  /** Writing keeps the store well-formed. */
  lemma WritePreservesWellformed(s: Snapshot, key: string, path: string, value: string)
    requires Wellformed(s)
    ensures Wellformed(Written(s, key, path, value))
  {
    if key !in s.records {
      assert key !in s.order;
      var o := s.order + [key];
      forall i, j | 0 <= i < j < |o| ensures o[i] != o[j] {
        if j == |s.order| {
          assert o[i] == s.order[i];
        }
      }
    }
  }

  /**
   * The list's filter: `f.guild === guild && f[prop]`. A JavaScript string is
   * truthy exactly when it is non-empty, so a property holding "" does not pass.
   */
  predicate Listed(r: Record, guild: string, prop: string)
  {
    "guild" in r && r["guild"] == guild && prop in r && r[prop] != ""
  }

  /**
   * `filter(...).array()` over the keys in `order`: the records that pass,
   * in the order of their keys.
   */
  function FilterKeys(order: seq<string>, records: map<string, Record>, guild: string, prop: string)
    : (rs: seq<Record>)
    ensures |rs| <= |order|
    ensures forall i :: 0 <= i < |rs| ==> Listed(rs[i], guild, prop) && rs[i] in records.Values
    ensures forall k :: k in order && k in records && Listed(records[k], guild, prop) ==> records[k] in rs
  {
    if order == [] then []
    else
      var rest := FilterKeys(order[1..], records, guild, prop);
      var k := order[0];
      assert forall k' :: k' in order ==> k' == k || k' in order[1..];
      if k in records && Listed(records[k], guild, prop) then [records[k]] + rest else rest
  }

  /** Filtering keeps insertion order: it distributes over a split of the key order. */
  lemma {:induction false} FilterKeysAppend(o1: seq<string>, o2: seq<string>, records: map<string, Record>,
                                            guild: string, prop: string)
    ensures FilterKeys(o1 + o2, records, guild, prop)
            == FilterKeys(o1, records, guild, prop) + FilterKeys(o2, records, guild, prop)
  {
    if o1 == [] {
      assert o1 + o2 == o2;
    } else {
      assert (o1 + o2)[0] == o1[0];
      assert (o1 + o2)[1..] == o1[1..] + o2;
      FilterKeysAppend(o1[1..], o2, records, guild, prop);
    }
  }

  /** The records of `guild` whose property `prop` is truthy, in insertion order. */
  function Filtered(s: Snapshot, guild: string, prop: string): (rs: seq<Record>)
    ensures forall i :: 0 <= i < |rs| ==> Listed(rs[i], guild, prop) && rs[i] in s.records.Values
  {
    FilterKeys(s.order, s.records, guild, prop)
  }

  /** In a well-formed store every stored record that passes the filter is in its result. */
  lemma FilteredComplete(s: Snapshot, guild: string, prop: string, key: string)
    requires Wellformed(s)
    requires key in s.records && Listed(s.records[key], guild, prop)
    ensures s.records[key] in Filtered(s, guild, prop)
  {
  }

  /** Filtering depends only on the records of the keys it visits. */
  lemma {:induction false} FilterKeysAgree(order: seq<string>, r1: map<string, Record>, r2: map<string, Record>,
                                           guild: string, prop: string)
    requires forall k :: k in order ==> (k in r1 <==> k in r2) && (k in r1 ==> r1[k] == r2[k])
    ensures FilterKeys(order, r1, guild, prop) == FilterKeys(order, r2, guild, prop)
  {
    if order != [] {
      assert forall k :: k in order[1..] ==> k in order;
      FilterKeysAgree(order[1..], r1, r2, guild, prop);
    }
  }

  /** Ensuring a record that does not pass the filter leaves the filter's result as it was. */
  lemma FilteredUnaffectedByEnsure(s: Snapshot, key: string, init: Record, guild: string, prop: string)
    requires Wellformed(s) && !Listed(init, guild, prop)
    ensures Filtered(Ensured(s, key, init), guild, prop) == Filtered(s, guild, prop)
  {
    if key !in s.records {
      var t := Ensured(s, key, init);
      assert key !in s.order;
      FilterKeysAppend(s.order, [key], t.records, guild, prop);
      FilterKeysAgree(s.order, t.records, s.records, guild, prop);
      assert FilterKeys([key], t.records, guild, prop) == [];
    }
  }

  /** The in-memory collection, updated in place by the message handler. */
  class Store {
    var order: seq<string>
    var records: map<string, Record>

    ghost predicate Valid()
      reads this
    {
      Wellformed(Value())
    }

    function Value(): Snapshot
      reads this
    {
      Snapshot(order, records)
    }

    constructor ()
      ensures Valid() && Value() == Empty()
    {
      order := [];
      records := map[];
    }

    /** `ensure(key, init)`. */
    method Ensure(key: string, init: Record)
      requires Valid()
      modifies this
      ensures Valid()
      ensures Value() == Ensured(old(Value()), key, init)
    {
      EnsurePreservesWellformed(Value(), key, init);
      if key !in records {
        order := order + [key];
        records := records[key := init];
      }
    }

    /** `set(key, value, path)`. */
    method Set(key: string, value: string, path: string)
      requires Valid()
      modifies this
      ensures Valid()
      ensures Value() == Written(old(Value()), key, path, value)
    {
      WritePreservesWellformed(Value(), key, path, value);
      var record := if key in records then records[key] else map[];
      if key !in records {
        order := order + [key];
      }
      records := records[key := record[path := value]];
    }
  }
}
