/**
 * The API server as the controllers see it: for one kind of object, a map
 * from (namespace, name) to the stored object, plus failures injected per key
 * so that every error path of the controllers can be reached.
 */
module ClusterStore {
  import opened Kube

  datatype Key = Key(namespace: string, name: string)

  function KeyOf(meta: ObjectMeta): Key {
    Key(meta.namespace, meta.name)
  }

  /**
   * Keys whose Get fails with something other than NotFound, whose Create
   * fails, and after whose creation the owner's status update fails.
   */
  datatype Faults = Faults(get: set<Key>, create: set<Key>, statusUpdate: set<Key>)

  datatype Store<T> = Store(objects: map<Key, T>, faults: Faults)

  function Get<T>(st: Store<T>, k: Key): Result<T> {
    if k in st.faults.get then Err(ApiError(GetCall))
    else if k in st.objects then Ok(st.objects[k])
    else Err(NotFound)
  }

  function Create<T>(st: Store<T>, k: Key, obj: T): Result<Store<T>> {
    if k in st.faults.create then Err(ApiError(CreateCall))
    else if k in st.objects then Err(AlreadyExists)
    else Ok(st.(objects := st.objects[k := obj]))
  }

  /** The status update the controller issues right after creating the object under `k`. */
  function StatusUpdate<T>(st: Store<T>, k: Key): Option<Error> {
    if k in st.faults.statusUpdate then Some(ApiError(StatusUpdateCall)) else None
  }

  /** `b` keeps every object of `a` unchanged and has the same injected faults. */
  predicate Extends<T(==)>(a: Store<T>, b: Store<T>) {
    && a.faults == b.faults
    && forall k :: k in a.objects ==> k in b.objects && b.objects[k] == a.objects[k]
  }

  /** The keys under which `items` would be stored. */
  function KeysOf<T>(items: seq<T>, metaOf: T -> ObjectMeta): set<Key>
    decreases |items|
  {
    if |items| == 0 then {} else {KeyOf(metaOf(items[0]))} + KeysOf(items[1..], metaOf)
  }

  /** No two of `items` share a key. */
  predicate DistinctKeys<T>(items: seq<T>, metaOf: T -> ObjectMeta)
    decreases |items|
  {
    |items| == 0 ||
    (KeyOf(metaOf(items[0])) !in KeysOf(items[1..], metaOf) && DistinctKeys(items[1..], metaOf))
  }

  /** `items` as a map from key to object; a later item wins over an earlier one with its key. */
  function ItemMap<T>(items: seq<T>, metaOf: T -> ObjectMeta): map<Key, T>
    decreases |items|
  {
    if |items| == 0 then map[] else map[KeyOf(metaOf(items[0])) := items[0]] + ItemMap(items[1..], metaOf)
  }

  /** The names of `items`, in order. */
  function Names<T>(items: seq<T>, metaOf: T -> ObjectMeta): seq<string>
    decreases |items|
  {
    if |items| == 0 then [] else [metaOf(items[0]).name] + Names(items[1..], metaOf)
  }

  /** The map built from `items` is keyed by exactly their keys. */
  lemma {:induction false} ItemMapKeys<T>(items: seq<T>, metaOf: T -> ObjectMeta)
    ensures ItemMap(items, metaOf).Keys == KeysOf(items, metaOf)
    decreases |items|
  {
    if |items| > 0 {
      ItemMapKeys(items[1..], metaOf);
    }
  }

  /** In the map built from items with distinct keys, each item sits under its own key. */
  lemma {:induction false} ItemMapAt<T>(items: seq<T>, metaOf: T -> ObjectMeta, i: nat)
    requires DistinctKeys(items, metaOf) && i < |items|
    ensures KeyOf(metaOf(items[i])) in ItemMap(items, metaOf)
    ensures ItemMap(items, metaOf)[KeyOf(metaOf(items[i]))] == items[i]
    decreases i
  {
    ItemMapKeys(items[1..], metaOf);
    if i > 0 {
      ItemMapAt(items[1..], metaOf, i - 1);
    }
  }

  /** Laying items with distinct keys over a map stores each item under its own key. */
  lemma UnionStoresEach<T>(m: map<Key, T>, items: seq<T>, metaOf: T -> ObjectMeta)
    requires DistinctKeys(items, metaOf)
    ensures forall i :: 0 <= i < |items| ==>
      KeyOf(metaOf(items[i])) in m + ItemMap(items, metaOf) && (m + ItemMap(items, metaOf))[KeyOf(metaOf(items[i]))] == items[i]
  {
    forall i | 0 <= i < |items|
      ensures (m + ItemMap(items, metaOf))[KeyOf(metaOf(items[i]))] == items[i]
    {
      ItemMapAt(items, metaOf, i);
    }
  }

  /** The keys of objects named `prefix` followed by each of `names`, all in `namespace`. */
  function PrefixedKeys(namespace: string, prefix: string, names: seq<string>): set<Key> {
    set n | n in names :: Key(namespace, prefix + n)
  }

  /**
   * Items keyed `prefix + names[i]` in one namespace are stored exactly under
   * PrefixedKeys, and distinct names give distinct keys.
   */
  lemma {:induction false} KeysOfPrefixed<T>(items: seq<T>, metaOf: T -> ObjectMeta, namespace: string, prefix: string, names: seq<string>)
    requires |items| == |names|
    requires forall i :: 0 <= i < |items| ==> KeyOf(metaOf(items[i])) == Key(namespace, prefix + names[i])
    ensures KeysOf(items, metaOf) == PrefixedKeys(namespace, prefix, names)
    ensures (forall i, j :: 0 <= i < j < |names| ==> names[i] != names[j]) ==> DistinctKeys(items, metaOf)
  {
    forall k | k in KeysOf(items, metaOf)
      ensures k in PrefixedKeys(namespace, prefix, names)
    {
      KeysOfIndex(items, metaOf, k);
    }
    forall k | k in PrefixedKeys(namespace, prefix, names)
      ensures k in KeysOf(items, metaOf)
    {
      var n :| n in names && k == Key(namespace, prefix + n);
      var i :| 0 <= i < |names| && names[i] == n;
      KeysOfIndex(items, metaOf, k);
    }
    if forall i, j :: 0 <= i < j < |names| ==> names[i] != names[j] {
      forall i, j | 0 <= i < j < |items|
        ensures KeyOf(metaOf(items[i])) != KeyOf(metaOf(items[j]))
      {
        assert (prefix + names[i])[|prefix|..] == names[i] && (prefix + names[j])[|prefix|..] == names[j];
      }
      PairwiseDistinctKeys(items, metaOf);
    }
  }

  /** No failure is injected for any of `keys`. */
  predicate Healthy(f: Faults, keys: set<Key>) {
    keys !! f.get && keys !! f.create && keys !! f.statusUpdate
  }

  /** A key belongs to KeysOf exactly when some item carries it. */
  lemma {:induction false} KeysOfIndex<T>(items: seq<T>, metaOf: T -> ObjectMeta, k: Key)
    ensures k in KeysOf(items, metaOf) <==> exists i :: 0 <= i < |items| && KeyOf(metaOf(items[i])) == k
    decreases |items|
  {
    if |items| > 0 {
      KeysOfIndex(items[1..], metaOf, k);
      if k in KeysOf(items[1..], metaOf) {
        var i :| 0 <= i < |items[1..]| && KeyOf(metaOf(items[1..][i])) == k;
        assert KeyOf(metaOf(items[i + 1])) == k;
      }
      if exists i :: 0 <= i < |items| && KeyOf(metaOf(items[i])) == k {
        var i :| 0 <= i < |items| && KeyOf(metaOf(items[i])) == k;
        if i > 0 {
          assert items[1..][i - 1] == items[i];
        }
      }
    }
  }

  /** Every item's key is among the items' keys. */
  lemma KeysOfAt<T>(items: seq<T>, metaOf: T -> ObjectMeta, i: nat)
    requires i < |items|
    ensures KeyOf(metaOf(items[i])) in KeysOf(items, metaOf)
  {
    KeysOfIndex(items, metaOf, KeyOf(metaOf(items[i])));
  }

  /** Items whose keys differ pairwise have distinct keys. */
  lemma {:induction false} PairwiseDistinctKeys<T>(items: seq<T>, metaOf: T -> ObjectMeta)
    requires forall i, j :: 0 <= i < j < |items| ==> KeyOf(metaOf(items[i])) != KeyOf(metaOf(items[j]))
    ensures DistinctKeys(items, metaOf)
    decreases |items|
  {
    if |items| > 0 {
      var k := KeyOf(metaOf(items[0]));
      var rest := items[1..];
      assert forall i :: 0 <= i < |rest| ==> KeyOf(metaOf(rest[i])) != k by {
        forall i | 0 <= i < |rest|
          ensures KeyOf(metaOf(rest[i])) != k
        {
          assert rest[i] == items[i + 1];
        }
      }
      KeysOfIndex(rest, metaOf, k);
      assert forall i, j :: 0 <= i < j < |rest| ==> KeyOf(metaOf(rest[i])) != KeyOf(metaOf(rest[j])) by {
        forall i, j | 0 <= i < j < |rest|
          ensures KeyOf(metaOf(rest[i])) != KeyOf(metaOf(rest[j]))
        {
          assert rest[i] == items[i + 1] && rest[j] == items[j + 1];
        }
      }
      PairwiseDistinctKeys(rest, metaOf);
    }
  }
}
