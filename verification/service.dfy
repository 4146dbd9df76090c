/**
 * The data endpoint's Service, built by controllers/data/service.go: one TCP
 * port named and numbered by the endpoint spec, forwarding to the server
 * port, selecting the pods labelled like the metadata it is given.
 */
module DataService {
  import opened Kube
  import opened Api
  import opened ClusterStore
  import opened DataReconcile
  import opened DataDeployment

  /** serviceForDataEndpoint: the given metadata owned by the endpoint, one port, and the metadata's labels as selector. */
  function ServiceForDataEndpoint(endpoint: SnoopyDataEndpoint, meta: ObjectMeta): (r: Service)
    ensures r.meta == WithOwner(meta, EndpointOwner(endpoint))
    ensures r.spec.ports == [ServicePort(endpoint.spec.serviceName, "TCP", endpoint.spec.servicePort, ServerPort)]
    ensures r.spec.selector == meta.labels
  {
    Service(
      WithOwner(meta, EndpointOwner(endpoint)),
      ServiceSpec([ServicePort(endpoint.spec.serviceName, "TCP", endpoint.spec.servicePort, ServerPort)], meta.labels))
  }

  /**
   * Built from the same metadata, the Service and the Deployment share a key,
   * the Service selects the Deployment's pods, and its one port forwards to a
   * port the server container opens.
   */
  lemma ServiceReachesDeployment(cfg: Settings, endpoint: SnoopyDataEndpoint, meta: ObjectMeta)
    ensures var s := ServiceForDataEndpoint(endpoint, meta);
      var d := DeploymentForDataEndpoint(cfg, endpoint, meta);
      && KeyOf(s.meta) == KeyOf(d.meta) == KeyOf(meta)
      && (forall k :: k in s.spec.selector ==>
            k in d.spec.template.meta.labels && d.spec.template.meta.labels[k] == s.spec.selector[k])
      && s.spec.ports[0].targetPort in d.spec.template.spec.containers[0].ports
  {
  }

  function ServiceBuilder(): (SnoopyDataEndpoint, ObjectMeta) -> Service {
    (endpoint: SnoopyDataEndpoint, meta: ObjectMeta) => ServiceForDataEndpoint(endpoint, meta)
  }

  function ServiceMeta(s: Service): ObjectMeta { s.meta }

  /** Reconciling the Service twice with the same metadata creates it at most once. */
  lemma ServiceReconcileIdempotent(endpoint: SnoopyDataEndpoint, meta: ObjectMeta, st: Store<Service>)
    requires ReconcileResource(ServiceBuilder(), ServiceMeta, endpoint, meta, st).1 == None
    ensures var r := ReconcileResource(ServiceBuilder(), ServiceMeta, endpoint, meta, st);
      && KeyOf(meta) in r.0.objects
      && ReconcileResource(ServiceBuilder(), ServiceMeta, endpoint, meta, r.0) == (r.0, None)
  {
    ReconcileResourceIdempotent(ServiceBuilder(), ServiceMeta, endpoint, meta, st);
  }
}
