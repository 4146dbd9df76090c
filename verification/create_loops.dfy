/**
 * The two shapes of creation loop the job controllers run over a list of
 * built objects: create-if-absent (Get first, Create on NotFound) and
 * create-always (Create with no existence check). Both may append the name of
 * each created object to the owner's status and persist it after each one.
 */
module CreateLoops {
  import opened Kube
  import opened ClusterStore

  /** The state a creation loop leaves behind: the store, the status list, and the error it returns. */
  datatype Pass<T> = Pass(store: Store<T>, status: seq<string>, err: Option<Error>)

  /**
   * What a whole reconcile pass leaves behind: the result and error handed to
   * the controller runtime, the store, and the owner's recorded status list
   * (empty for owners that keep none).
   */
  datatype Reconciled<T> = Reconciled(result: CtrlResult, err: Option<Error>, store: Store<T>, status: seq<string>)

  /**
   * Create-if-absent: objects already stored are skipped; a NotFound one is
   * created and its name appended to `status`, which is then persisted. A
   * failed status update stops the loop and is returned only when
   * `statusErrorFatal` holds.
   */
  function CreateMissing<T(==)>(st: Store<T>, status: seq<string>, items: seq<T>,
                            metaOf: T -> ObjectMeta, statusErrorFatal: bool): (r: Pass<T>)
    ensures Extends(st, r.store)
    ensures status <= r.status
    ensures r.err.Some? ==>
      r.err.value == ApiError(GetCall) || r.err.value == ApiError(CreateCall) ||
      (statusErrorFatal && r.err.value == ApiError(StatusUpdateCall))
    ensures r.store.objects.Keys <= st.objects.Keys + KeysOf(items, metaOf)
    decreases |items|
  {
    if |items| == 0 then Pass(st, status, None)
    else
      var k := KeyOf(metaOf(items[0]));
      match Get(st, k)
      case Ok(_) => CreateMissing(st, status, items[1..], metaOf, statusErrorFatal)
      case Err(e) =>
        if e != NotFound then Pass(st, status, Some(e))
        else
          match Create(st, k, items[0])
          case Err(e') => Pass(st, status, Some(e'))
          case Ok(st') =>
            var status' := status + [metaOf(items[0]).name];
            match StatusUpdate(st', k)
            case Some(e'') => Pass(st', status', if statusErrorFatal then Some(e'') else None)
            case None => CreateMissing(st', status', items[1..], metaOf, statusErrorFatal)
  }

  /**
   * Create-always: every item is created in order and the first Create error
   * is returned. With `recordStatus` each created name is appended to
   * `status` and persisted; a failed status update ends the loop with no error.
   */
  function CreateEach<T(==)>(st: Store<T>, status: seq<string>, items: seq<T>,
                         metaOf: T -> ObjectMeta, recordStatus: bool): (r: Pass<T>)
    ensures Extends(st, r.store)
    ensures status <= r.status
    ensures !recordStatus ==> r.status == status
    ensures r.err.Some? ==> r.err.value == AlreadyExists || r.err.value == ApiError(CreateCall)
    ensures r.store.objects.Keys <= st.objects.Keys + KeysOf(items, metaOf)
    decreases |items|
  {
    if |items| == 0 then Pass(st, status, None)
    else
      var k := KeyOf(metaOf(items[0]));
      match Create(st, k, items[0])
      case Err(e) => Pass(st, status, Some(e))
      case Ok(st') =>
        if !recordStatus then CreateEach(st', status, items[1..], metaOf, false)
        else
          var status' := status + [metaOf(items[0]).name];
          if StatusUpdate(st', k).Some? then Pass(st', status', None)
          else CreateEach(st', status', items[1..], metaOf, true)
  }

  /**
   * The items create-if-absent creates when nothing fails: those whose key is
   * neither in `present` nor taken by an earlier item, in list order.
   */
  function FreshItems<T>(items: seq<T>, metaOf: T -> ObjectMeta, present: set<Key>): seq<T>
    decreases |items|
  {
    if |items| == 0 then []
    else
      var k := KeyOf(metaOf(items[0]));
      if k in present then FreshItems(items[1..], metaOf, present)
      else [items[0]] + FreshItems(items[1..], metaOf, present + {k})
  }

  /**
   * What create-if-absent leaves after a failure-free run over `done`: each
   * fresh item stored under its key, its name appended, no error.
   */
  function Settled<T>(st: Store<T>, status: seq<string>, done: seq<T>, metaOf: T -> ObjectMeta): Pass<T> {
    var made := FreshItems(done, metaOf, st.objects.Keys);
    Pass(st.(objects := st.objects + ItemMap(made, metaOf)), status + Names(made, metaOf), None)
  }

  /** Items with distinct keys, none of them present, are all fresh. */
  lemma {:induction false} FreshAll<T>(items: seq<T>, metaOf: T -> ObjectMeta, present: set<Key>)
    requires DistinctKeys(items, metaOf) && KeysOf(items, metaOf) !! present
    ensures FreshItems(items, metaOf, present) == items
    decreases |items|
  {
    if |items| > 0 {
      var k := KeyOf(metaOf(items[0]));
      assert KeysOf(items, metaOf) == {k} + KeysOf(items[1..], metaOf);
      FreshAll(items[1..], metaOf, present + {k});
      assert [items[0]] + items[1..] == items;
    }
  }

  /** A failure-free pass skips a first item that is already stored. */
  lemma SettledSkip<T>(st: Store<T>, status: seq<string>, items: seq<T>, metaOf: T -> ObjectMeta)
    requires |items| > 0 && KeyOf(metaOf(items[0])) in st.objects
    ensures Settled(st, status, items, metaOf) == Settled(st, status, items[1..], metaOf)
  {
  }

  /** A failure-free pass stores and records a first item that is not yet stored, then carries on from there. */
  lemma SettledTake<T>(st: Store<T>, status: seq<string>, items: seq<T>, metaOf: T -> ObjectMeta)
    requires |items| > 0 && KeyOf(metaOf(items[0])) !in st.objects
    ensures Settled(st, status, items, metaOf)
         == Settled(st.(objects := st.objects[KeyOf(metaOf(items[0])) := items[0]]),
                    status + [metaOf(items[0]).name], items[1..], metaOf)
  {
    var k := KeyOf(metaOf(items[0]));
    var name := metaOf(items[0]).name;
    var st' := st.(objects := st.objects[k := items[0]]);
    assert st'.objects.Keys == st.objects.Keys + {k};
    var fr := FreshItems(items[1..], metaOf, st.objects.Keys + {k});
    assert FreshItems(items, metaOf, st.objects.Keys) == [items[0]] + fr;
    assert ([items[0]] + fr)[1..] == fr;
    assert ItemMap([items[0]] + fr, metaOf) == map[k := items[0]] + ItemMap(fr, metaOf);
    assert Names([items[0]] + fr, metaOf) == [name] + Names(fr, metaOf);
    UpdateThenUnion(st.objects, k, items[0], ItemMap(fr, metaOf));
    assert (status + [name]) + Names(fr, metaOf) == status + ([name] + Names(fr, metaOf));
  }

  /**
   * With no injected failure, create-if-absent stores each item not yet
   * present (the first one for a shared key) under its key, leaves every
   * stored object alone, and appends exactly the created names in order.
   */
  lemma {:induction false} CreateMissingCompletes<T>(st: Store<T>, status: seq<string>, items: seq<T>,
                                                     metaOf: T -> ObjectMeta, statusErrorFatal: bool)
    requires Healthy(st.faults, KeysOf(items, metaOf))
    ensures CreateMissing(st, status, items, metaOf, statusErrorFatal) == Settled(st, status, items, metaOf)
    ensures CreateMissing(st, status, items, metaOf, statusErrorFatal).store.objects.Keys
         == st.objects.Keys + KeysOf(items, metaOf)
    decreases |items|
  {
    if |items| == 0 {
      assert st.(objects := st.objects + map[]) == st;
      assert status + [] == status;
    } else {
      var k := KeyOf(metaOf(items[0]));
      assert KeysOf(items, metaOf) == {k} + KeysOf(items[1..], metaOf);
      if k in st.objects {
        CreateMissingCompletes(st, status, items[1..], metaOf, statusErrorFatal);
        SettledSkip(st, status, items, metaOf);
      } else {
        var st' := st.(objects := st.objects[k := items[0]]);
        CreateMissingCompletes(st', status + [metaOf(items[0]).name], items[1..], metaOf, statusErrorFatal);
        SettledTake(st, status, items, metaOf);
      }
    }
  }

  /**
   * With no injected failure, items with distinct keys none of which is
   * stored yet are each stored under their own key by create-if-absent.
   */
  lemma CreateMissingStoresEach<T>(st: Store<T>, status: seq<string>, items: seq<T>,
                                   metaOf: T -> ObjectMeta, statusErrorFatal: bool)
    requires Healthy(st.faults, KeysOf(items, metaOf))
    requires DistinctKeys(items, metaOf) && KeysOf(items, metaOf) !! st.objects.Keys
    ensures var objects := CreateMissing(st, status, items, metaOf, statusErrorFatal).store.objects;
      forall i :: 0 <= i < |items| ==> KeyOf(metaOf(items[i])) in objects && objects[KeyOf(metaOf(items[i]))] == items[i]
  {
    CreateMissingCompletes(st, status, items, metaOf, statusErrorFatal);
    FreshAll(items, metaOf, st.objects.Keys);
    UnionStoresEach(st.objects, items, metaOf);
  }

  /**
   * Create-if-absent over a failure-free prefix of `j` items is that prefix's
   * run followed by a run over the rest from where the prefix left off.
   */
  lemma {:induction false} CreateMissingPrefix<T>(st: Store<T>, status: seq<string>, items: seq<T>,
                                                  metaOf: T -> ObjectMeta, statusErrorFatal: bool, j: nat)
    requires j <= |items| && Healthy(st.faults, KeysOf(items[..j], metaOf))
    ensures var p := CreateMissing(st, status, items[..j], metaOf, statusErrorFatal);
      CreateMissing(st, status, items, metaOf, statusErrorFatal) == CreateMissing(p.store, p.status, items[j..], metaOf, statusErrorFatal)
    decreases j
  {
    if j == 0 {
      assert items[..0] == [] && items[0..] == items;
    } else {
      var k := KeyOf(metaOf(items[0]));
      var rest := items[1..];
      assert items[..j][0] == items[0] && items[..j][1..] == rest[..j - 1];
      assert KeysOf(items[..j], metaOf) == {k} + KeysOf(rest[..j - 1], metaOf);
      assert rest[j - 1..] == items[j..];
      if k in st.objects {
        CreateMissingPrefix(st, status, rest, metaOf, statusErrorFatal, j - 1);
      } else {
        var st' := st.(objects := st.objects[k := items[0]]);
        CreateMissingPrefix(st', status + [metaOf(items[0]).name], rest, metaOf, statusErrorFatal, j - 1);
      }
    }
  }

  /**
   * A Get failure at item `j`, or a Create failure at a fresh item `j`, ends
   * create-if-absent there with that error: the items before it are created
   * as in a failure-free run, and nothing from `j` on is.
   */
  lemma CreateMissingFailsAt<T>(st: Store<T>, status: seq<string>, items: seq<T>,
                                metaOf: T -> ObjectMeta, statusErrorFatal: bool, j: nat)
    requires j < |items| && Healthy(st.faults, KeysOf(items[..j], metaOf))
    requires var k := KeyOf(metaOf(items[j]));
      k in st.faults.get || (k !in st.objects.Keys + KeysOf(items[..j], metaOf) && k in st.faults.create)
    ensures var k := KeyOf(metaOf(items[j]));
      CreateMissing(st, status, items, metaOf, statusErrorFatal)
      == Settled(st, status, items[..j], metaOf).(err := Some(if k in st.faults.get then ApiError(GetCall) else ApiError(CreateCall)))
  {
    CreateMissingPrefix(st, status, items, metaOf, statusErrorFatal, j);
    CreateMissingCompletes(st, status, items[..j], metaOf, statusErrorFatal);
    assert items[j..][0] == items[j];
  }

  /**
   * A status update that fails right after creating item `j` ends
   * create-if-absent there: the items before it are created as in a
   * failure-free run, item `j` stays created and its name appended, and the
   * failure is returned only when `statusErrorFatal` holds.
   */
  lemma CreateMissingStatusFailure<T>(st: Store<T>, status: seq<string>, items: seq<T>,
                                      metaOf: T -> ObjectMeta, statusErrorFatal: bool, j: nat)
    requires j < |items| && Healthy(st.faults, KeysOf(items[..j], metaOf))
    requires var k := KeyOf(metaOf(items[j]));
      && k !in st.faults.get + st.faults.create + st.objects.Keys + KeysOf(items[..j], metaOf)
      && k in st.faults.statusUpdate
    ensures var k := KeyOf(metaOf(items[j]));
      var p := Settled(st, status, items[..j], metaOf);
      CreateMissing(st, status, items, metaOf, statusErrorFatal)
      == Pass(p.store.(objects := p.store.objects[k := items[j]]),
              p.status + [metaOf(items[j]).name],
              if statusErrorFatal then Some(ApiError(StatusUpdateCall)) else None)
  {
    CreateMissingPrefix(st, status, items, metaOf, statusErrorFatal, j);
    CreateMissingCompletes(st, status, items[..j], metaOf, statusErrorFatal);
    assert items[j..][0] == items[j];
  }

  /** When every item is already stored and readable, create-if-absent writes nothing and appends nothing. */
  lemma {:induction false} CreateMissingSkipsPresent<T>(st: Store<T>, status: seq<string>, items: seq<T>,
                                                        metaOf: T -> ObjectMeta, statusErrorFatal: bool)
    requires KeysOf(items, metaOf) <= st.objects.Keys
    requires KeysOf(items, metaOf) !! st.faults.get
    ensures CreateMissing(st, status, items, metaOf, statusErrorFatal) == Pass(st, status, None)
    decreases |items|
  {
    if |items| > 0 {
      assert KeysOf(items, metaOf) == {KeyOf(metaOf(items[0]))} + KeysOf(items[1..], metaOf);
      CreateMissingSkipsPresent(st, status, items[1..], metaOf, statusErrorFatal);
    }
  }

  /** Running create-if-absent a second time over the same items creates nothing and appends nothing. */
  lemma CreateMissingIdempotent<T>(st: Store<T>, status: seq<string>, items: seq<T>,
                                   metaOf: T -> ObjectMeta, statusErrorFatal: bool)
    requires Healthy(st.faults, KeysOf(items, metaOf))
    ensures var r := CreateMissing(st, status, items, metaOf, statusErrorFatal);
      CreateMissing(r.store, r.status, items, metaOf, statusErrorFatal) == Pass(r.store, r.status, None)
  {
    var r := CreateMissing(st, status, items, metaOf, statusErrorFatal);
    CreateMissingCompletes(st, status, items, metaOf, statusErrorFatal);
    CreateMissingSkipsPresent(r.store, r.status, items, metaOf, statusErrorFatal);
  }

  /** Create-always over items with distinct, unused keys stores exactly those items and appends all their names. */
  lemma {:induction false} CreateEachStoresAll<T>(st: Store<T>, status: seq<string>, items: seq<T>,
                                                  metaOf: T -> ObjectMeta, recordStatus: bool)
    requires DistinctKeys(items, metaOf)
    requires KeysOf(items, metaOf) !! st.objects.Keys
    requires KeysOf(items, metaOf) !! st.faults.create
    requires recordStatus ==> KeysOf(items, metaOf) !! st.faults.statusUpdate
    ensures var r := CreateEach(st, status, items, metaOf, recordStatus);
      && r.err == None
      && r.store.objects == st.objects + ItemMap(items, metaOf)
      && r.status == status + (if recordStatus then Names(items, metaOf) else [])
    decreases |items|
  {
    if |items| > 0 {
      var k := KeyOf(metaOf(items[0]));
      var rest := items[1..];
      var name := metaOf(items[0]).name;
      assert KeysOf(items, metaOf) == {k} + KeysOf(rest, metaOf);
      assert k !in KeysOf(rest, metaOf);
      var st' := st.(objects := st.objects[k := items[0]]);
      assert Create(st, k, items[0]) == Ok(st');
      var status' := if recordStatus then status + [name] else status;
      assert CreateEach(st, status, items, metaOf, recordStatus) == CreateEach(st', status', rest, metaOf, recordStatus);
      CreateEachStoresAll(st', status', rest, metaOf, recordStatus);
      UpdateThenUnion(st.objects, k, items[0], ItemMap(rest, metaOf));
      if recordStatus {
        assert (status + [name]) + Names(rest, metaOf) == status + ([name] + Names(rest, metaOf));
      }
    }
  }

  lemma UpdateThenUnion<K, V>(m: map<K, V>, k: K, v: V, n: map<K, V>)
    ensures m[k := v] + n == m + (map[k := v] + n)
  {
  }

  /** Re-running create-always over the same non-empty items fails at once with AlreadyExists and writes nothing. */
  lemma CreateEachRerunFails<T>(st: Store<T>, status: seq<string>, items: seq<T>,
                                metaOf: T -> ObjectMeta, recordStatus: bool)
    requires |items| > 0
    requires DistinctKeys(items, metaOf)
    requires KeysOf(items, metaOf) !! st.objects.Keys
    requires KeysOf(items, metaOf) !! st.faults.create
    requires recordStatus ==> KeysOf(items, metaOf) !! st.faults.statusUpdate
    ensures var r := CreateEach(st, status, items, metaOf, recordStatus);
      CreateEach(r.store, r.status, items, metaOf, recordStatus) == Pass(r.store, r.status, Some(AlreadyExists))
  {
    var r := CreateEach(st, status, items, metaOf, recordStatus);
    CreateEachStoresAll(st, status, items, metaOf, recordStatus);
    var k := KeyOf(metaOf(items[0]));
    assert k in ItemMap(items, metaOf);
    assert KeysOf(items, metaOf) == {k} + KeysOf(items[1..], metaOf);
  }

  /** The error Create reports for key `k`: an injected failure first, then an occupied key. */
  function CreateError<T>(st: Store<T>, k: Key): Error {
    if k in st.faults.create then ApiError(CreateCall) else AlreadyExists
  }

  /**
   * The first `j` items create cleanly: their keys are distinct, not yet
   * stored, and fail neither Create nor, when names are recorded, the status
   * update.
   */
  predicate CleanPrefix<T>(st: Store<T>, items: seq<T>, metaOf: T -> ObjectMeta, j: nat, recordStatus: bool) {
    && j <= |items|
    && DistinctKeys(items[..j], metaOf)
    && KeysOf(items[..j], metaOf) !! st.objects.Keys
    && KeysOf(items[..j], metaOf) !! st.faults.create
    && (recordStatus ==> KeysOf(items[..j], metaOf) !! st.faults.statusUpdate)
  }

  /** The first `j` items of a list, split into its head and the first `j - 1` items of its tail. */
  lemma PrefixHead<T>(items: seq<T>, metaOf: T -> ObjectMeta, j: nat)
    requires 0 < j <= |items|
    ensures var k := KeyOf(metaOf(items[0]));
      var front := items[1..][..j - 1];
      && items[1..][j - 1..] == items[j..]
      && KeysOf(items[..j], metaOf) == {k} + KeysOf(front, metaOf)
      && ItemMap(items[..j], metaOf) == map[k := items[0]] + ItemMap(front, metaOf)
      && Names(items[..j], metaOf) == [metaOf(items[0]).name] + Names(front, metaOf)
      && (DistinctKeys(items[..j], metaOf) <==> k !in KeysOf(front, metaOf) && DistinctKeys(front, metaOf))
  {
    assert items[..j][0] == items[0] && items[..j][1..] == items[1..][..j - 1];
  }

  /** Create-always over a first item that creates cleanly is the run over the rest from the updated store. */
  lemma CreateEachFirst<T>(st: Store<T>, status: seq<string>, items: seq<T>,
                           metaOf: T -> ObjectMeta, recordStatus: bool)
    requires |items| > 0
    requires var k := KeyOf(metaOf(items[0]));
      k !in st.objects && k !in st.faults.create && (recordStatus ==> k !in st.faults.statusUpdate)
    ensures CreateEach(st, status, items, metaOf, recordStatus)
         == CreateEach(st.(objects := st.objects[KeyOf(metaOf(items[0])) := items[0]]),
                       if recordStatus then status + [metaOf(items[0]).name] else status,
                       items[1..], metaOf, recordStatus)
  {
  }

  /** After a clean first creation, the rest of a clean prefix is clean against the updated store. */
  lemma CleanPrefixTail<T>(st: Store<T>, items: seq<T>, metaOf: T -> ObjectMeta, j: nat, recordStatus: bool)
    requires CleanPrefix(st, items, metaOf, j, recordStatus) && j > 0
    ensures KeyOf(metaOf(items[0])) !in st.objects && KeyOf(metaOf(items[0])) !in st.faults.create
    ensures recordStatus ==> KeyOf(metaOf(items[0])) !in st.faults.statusUpdate
    ensures CleanPrefix(st.(objects := st.objects[KeyOf(metaOf(items[0])) := items[0]]), items[1..], metaOf, j - 1, recordStatus)
  {
    PrefixHead(items, metaOf, j);
  }

  /** Storing the head of a prefix and then the rest of it stores the whole prefix, and records its names in order. */
  lemma PrefixStep<T>(st: Store<T>, status: seq<string>, items: seq<T>, metaOf: T -> ObjectMeta, j: nat, recordStatus: bool)
    requires 0 < j <= |items|
    ensures var k := KeyOf(metaOf(items[0]));
      var front := items[1..][..j - 1];
      var st' := st.(objects := st.objects[k := items[0]]);
      var status' := if recordStatus then status + [metaOf(items[0]).name] else status;
      && st'.(objects := st'.objects + ItemMap(front, metaOf)) == st.(objects := st.objects + ItemMap(items[..j], metaOf))
      && status' + (if recordStatus then Names(front, metaOf) else [])
         == status + (if recordStatus then Names(items[..j], metaOf) else [])
  {
    var k := KeyOf(metaOf(items[0]));
    var front := items[1..][..j - 1];
    PrefixHead(items, metaOf, j);
    UpdateThenUnion(st.objects, k, items[0], ItemMap(front, metaOf));
    if recordStatus {
      assert (status + [metaOf(items[0]).name]) + Names(front, metaOf) == status + ([metaOf(items[0]).name] + Names(front, metaOf));
    }
  }

  /** Create-always over a clean prefix of `j` items stores them, records them, and carries on with the rest. */
  lemma {:induction false} CreateEachPrefix<T>(st: Store<T>, status: seq<string>, items: seq<T>,
                                               metaOf: T -> ObjectMeta, recordStatus: bool, j: nat)
    requires CleanPrefix(st, items, metaOf, j, recordStatus)
    ensures CreateEach(st, status, items, metaOf, recordStatus)
         == CreateEach(st.(objects := st.objects + ItemMap(items[..j], metaOf)),
                       status + (if recordStatus then Names(items[..j], metaOf) else []),
                       items[j..], metaOf, recordStatus)
    decreases j
  {
    if j == 0 {
      assert items[..0] == [] && items[0..] == items;
      assert st.(objects := st.objects + map[]) == st;
      assert status + [] == status;
    } else {
      var st' := st.(objects := st.objects[KeyOf(metaOf(items[0])) := items[0]]);
      var status' := if recordStatus then status + [metaOf(items[0]).name] else status;
      CleanPrefixTail(st, items, metaOf, j, recordStatus);
      CreateEachFirst(st, status, items, metaOf, recordStatus);
      CreateEachPrefix(st', status', items[1..], metaOf, recordStatus, j - 1);
      PrefixHead(items, metaOf, j);
      PrefixStep(st, status, items, metaOf, j, recordStatus);
    }
  }

  /**
   * A Create failure at item `j` (an injected failure, or a key already taken
   * before the loop or by an earlier item) ends create-always there with that
   * error: exactly the items before it are stored and recorded.
   */
  lemma CreateEachFailsAt<T>(st: Store<T>, status: seq<string>, items: seq<T>,
                             metaOf: T -> ObjectMeta, recordStatus: bool, j: nat)
    requires CleanPrefix(st, items, metaOf, j, recordStatus) && j < |items|
    requires KeyOf(metaOf(items[j])) in st.faults.create + st.objects.Keys + KeysOf(items[..j], metaOf)
    ensures CreateEach(st, status, items, metaOf, recordStatus)
         == Pass(st.(objects := st.objects + ItemMap(items[..j], metaOf)),
                 status + (if recordStatus then Names(items[..j], metaOf) else []),
                 Some(CreateError(st, KeyOf(metaOf(items[j])))))
  {
    CreateEachPrefix(st, status, items, metaOf, recordStatus, j);
    ItemMapKeys(items[..j], metaOf);
    assert items[j..][0] == items[j];
  }

  /**
   * A status update that fails right after creating item `j` ends
   * create-always there with no error: the items up to and including `j` are
   * stored and recorded, and none after it.
   */
  lemma CreateEachStatusFailureAt<T>(st: Store<T>, status: seq<string>, items: seq<T>,
                                     metaOf: T -> ObjectMeta, j: nat)
    requires CleanPrefix(st, items, metaOf, j, true) && j < |items|
    requires KeyOf(metaOf(items[j])) !in st.faults.create + st.objects.Keys + KeysOf(items[..j], metaOf)
    requires KeyOf(metaOf(items[j])) in st.faults.statusUpdate
    ensures var done := st.objects + ItemMap(items[..j], metaOf);
      CreateEach(st, status, items, metaOf, true)
      == Pass(st.(objects := done[KeyOf(metaOf(items[j])) := items[j]]),
              status + Names(items[..j], metaOf) + [metaOf(items[j]).name],
              None)
  {
    CreateEachPrefix(st, status, items, metaOf, true, j);
    ItemMapKeys(items[..j], metaOf);
    assert items[j..][0] == items[j];
  }
}
