/**
 * The create-if-absent step of controllers/data/reconcile.go that the data
 * endpoint's Deployment and Service go through: read the object named by the
 * metadata, and build and create it only when the read says NotFound.
 */
module DataReconcile {
  import opened Kube
  import opened Api
  import opened ClusterStore

  /** setObjectMeta: metadata holding just the given name, namespace and labels. */
  function SetObjectMeta(name: string, namespace: string, labels: map<string, string>): (r: ObjectMeta)
    ensures r.name == name && r.namespace == namespace && r.labels == labels
    ensures r.owner == None && r.finalizers == [] && !r.deleting
    ensures KeyOf(r) == Key(namespace, name)
  {
    Meta(name, namespace, labels)
  }

  /**
   * reconcileResource: a stored object is left alone; on NotFound the object
   * `build(endpoint, meta)` is created and a Create error returned; any other
   * Get error is returned with nothing created. The store after the call and
   * the error come back as a pair.
   */
  function ReconcileResource<T(==)>(build: (SnoopyDataEndpoint, ObjectMeta) -> T, metaOf: T -> ObjectMeta,
                                    endpoint: SnoopyDataEndpoint, meta: ObjectMeta, st: Store<T>): (r: (Store<T>, Option<Error>))
    ensures Extends(st, r.0)
    ensures KeyOf(meta) in st.faults.get ==> r == (st, Some(ApiError(GetCall)))
    ensures KeyOf(meta) !in st.faults.get && KeyOf(meta) in st.objects ==> r == (st, None)
    ensures KeyOf(meta) !in st.faults.get && KeyOf(meta) !in st.objects ==>
      var obj := build(endpoint, meta);
      var k := KeyOf(metaOf(obj));
      if k in st.faults.create then r == (st, Some(ApiError(CreateCall)))
      else if k in st.objects then r == (st, Some(AlreadyExists))
      else r == (st.(objects := st.objects[k := obj]), None)
  {
    match Get(st, KeyOf(meta))
    case Ok(_) => (st, None)
    case Err(e) =>
      if e != NotFound then (st, Some(e))
      else
        var obj := build(endpoint, meta);
        match Create(st, KeyOf(metaOf(obj)), obj)
        case Err(e') => (st, Some(e'))
        case Ok(st') => (st', None)
  }

  /**
   * When the built object carries the metadata's own key, a successful call
   * leaves the object stored under that key, and a second call with the same
   * metadata creates nothing and succeeds.
   */
  lemma ReconcileResourceIdempotent<T>(build: (SnoopyDataEndpoint, ObjectMeta) -> T, metaOf: T -> ObjectMeta,
                                       endpoint: SnoopyDataEndpoint, meta: ObjectMeta, st: Store<T>)
    requires KeyOf(metaOf(build(endpoint, meta))) == KeyOf(meta)
    requires ReconcileResource(build, metaOf, endpoint, meta, st).1 == None
    ensures var r := ReconcileResource(build, metaOf, endpoint, meta, st);
      && KeyOf(meta) in r.0.objects
      && ReconcileResource(build, metaOf, endpoint, meta, r.0) == (r.0, None)
  {
  }
}
