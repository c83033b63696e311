/**
 * The storage tables as the adapters see them. Keyed tables are maps; tables that
 * the adapters scan in key order are sequences of entries in ascending key order.
 * A read of a key in `corrupt` fails, which stands for every storage-layer error
 * a `get` or an iterator item can carry.
 */
module Storage {
  import opened Wrappers
  import opened Primitives

  /** A table read by key only. */
  datatype Table<K, V> = Table(entries: map<K, V>, corrupt: set<K>)

  /** `storage::<T>().get(k)`: a read failure, a missing entry, or the stored value. */
  function Get<K, V>(t: Table<K, V>, name: TableName, k: K): Result<Option<V>, StorageError>
  {
    if k in t.corrupt then Err(ReadFailure(name))
    else if k in t.entries then Ok(Some(t.entries[k]))
    else Ok(None)
  }

  /** A table that storage iterates in key order. */
  datatype OrderedTable<V> = OrderedTable(entries: seq<(u32, V)>, corrupt: set<u32>)

  /** Storage keeps keys unique and iterates them in ascending order. */
  predicate Ascending<V>(t: OrderedTable<V>)
  {
    forall i, j :: 0 <= i < j < |t.entries| ==> t.entries[i].0 < t.entries[j].0
  }

  predicate HasKey<V>(t: OrderedTable<V>, k: u32)
  {
    exists i :: 0 <= i < |t.entries| && t.entries[i].0 == k
  }

  /** `k` is a key of `t` and no key of `t` is larger. */
  predicate IsMaxKey<V>(t: OrderedTable<V>, k: u32)
  {
    HasKey(t, k) && forall i :: 0 <= i < |t.entries| ==> t.entries[i].0 <= k
  }

  /** One item produced by an iterator over `t`. */
  function Item<V>(t: OrderedTable<V>, name: TableName, e: (u32, V)): Result<(u32, V), StorageError>
  {
    if e.0 in t.corrupt then Err(ReadFailure(name)) else Ok(e)
  }

  /** The items of a scan over `es` (a prefix of `t.entries`) from the last entry to the first. */
  function ScanReverse<V>(t: OrderedTable<V>, name: TableName, es: seq<(u32, V)>)
    : (r: seq<Result<(u32, V), StorageError>>)
    ensures |r| == |es|
    ensures forall i :: 0 <= i < |es| ==> r[i] == Item(t, name, es[|es| - 1 - i])
    decreases |es|
  {
    if es == [] then []
    else [Item(t, name, es[|es| - 1])] + ScanReverse(t, name, es[..|es| - 1])
  }

  /** `iter_all::<T>(Some(IterDirection::Reverse))`. */
  function IterAllReverse<V>(t: OrderedTable<V>, name: TableName): seq<Result<(u32, V), StorageError>>
  {
    ScanReverse(t, name, t.entries)
  }

  /** On a well-formed table the keys of a reverse scan strictly decrease. */
  lemma ReverseScanDescends<V>(t: OrderedTable<V>, name: TableName, i: nat, j: nat)
    requires Ascending(t)
    requires i < j < |t.entries|
    requires IterAllReverse(t, name)[i].Ok? && IterAllReverse(t, name)[j].Ok?
    ensures IterAllReverse(t, name)[i].value.0 > IterAllReverse(t, name)[j].value.0
  {
  }

  /**
   * `iter_all::<T>(Reverse).next().ok_or(not_found!(T))??` keeping the key: the first
   * item of a reverse scan. An empty table gives not-found, a failed first item
   * gives its error, otherwise the result is the largest key.
   */
  function LatestKey<V>(t: OrderedTable<V>, name: TableName): (r: Result<u32, StorageError>)
    ensures r == Err(NotFound(name)) <==> |t.entries| == 0
    ensures r.Ok? ==> HasKey(t, r.value) && r.value !in t.corrupt
    ensures r.Ok? && Ascending(t) ==> IsMaxKey(t, r.value)
    ensures r.Err? && |t.entries| > 0 ==>
      r == Err(ReadFailure(name)) && (Ascending(t) ==> exists k :: IsMaxKey(t, k) && k in t.corrupt)
    ensures forall k :: Ascending(t) && IsMaxKey(t, k) && k !in t.corrupt ==> r == Ok(k)
  {
    var scan := IterAllReverse(t, name);
    if |scan| == 0 then Err(NotFound(name))
    else
      var n := |t.entries|;
      assert scan[0] == Item(t, name, t.entries[n - 1]);
      assert Ascending(t) ==> IsMaxKey(t, t.entries[n - 1].0);
      match scan[0]
      case Err(e) => Err(e)
      case Ok(kv) => Ok(kv.0)
  }

  /** The value stored under `k` in `es`, searched front to back. */
  function Find<V>(es: seq<(u32, V)>, k: u32): (r: Option<V>)
    ensures r.Some? ==> exists i :: 0 <= i < |es| && es[i] == (k, r.value)
    ensures r.None? ==> forall i :: 0 <= i < |es| ==> es[i].0 != k
    decreases |es|
  {
    if es == [] then None
    else if es[0].0 == k then Some(es[0].1)
    else Find(es[1..], k)
  }

  /** `storage::<T>().get(k)` on an ordered table. */
  function Lookup<V>(t: OrderedTable<V>, name: TableName, k: u32): (r: Result<Option<V>, StorageError>)
    ensures r.Err? <==> k in t.corrupt
    ensures r.Err? ==> r.error == ReadFailure(name)
    ensures r == Ok(None) <==> k !in t.corrupt && !HasKey(t, k)
    ensures r.Ok? && r.value.Some? ==>
      exists i :: 0 <= i < |t.entries| && t.entries[i] == (k, r.value.value)
  {
    if k in t.corrupt then Err(ReadFailure(name))
    else
      var v := Find(t.entries, k);
      assert v.Some? ==> HasKey(t, k);
      Ok(v)
  }
}
