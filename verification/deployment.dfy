/**
 * The data endpoint's Deployment, built by controllers/data/deployment.go:
 * one privileged server container listening on a fixed port, selected by the
 * labels of the metadata it is given, owned by the endpoint.
 */
module DataDeployment {
  import opened Kube
  import opened Api
  import opened Text
  import opened ClusterStore
  import opened DataReconcile

  /** The port the data server listens on and is told about on its command line. */
  const ServerPort := 51001

  /** The controller reference SetControllerReference writes for the endpoint. */
  function EndpointOwner(endpoint: SnoopyDataEndpoint): OwnerRef {
    OwnerOf("SnoopyDataEndpoint", endpoint.meta)
  }

  /**
   * deploymentForDataEndpoint: the given metadata owned by the endpoint, a
   * selector and pod labels equal to the metadata's labels, and one container
   * named after the metadata running `/server 51001` with port 51001 open.
   */
  function DeploymentForDataEndpoint(cfg: Settings, endpoint: SnoopyDataEndpoint, meta: ObjectMeta): (r: Deployment)
    ensures r.meta == WithOwner(meta, EndpointOwner(endpoint))
    ensures r.spec.selector == meta.labels && r.spec.template.meta.labels == meta.labels
    ensures |r.spec.template.spec.containers| == 1
    ensures var c := r.spec.template.spec.containers[0];
      && c.name == meta.name && c.image == cfg.dataEndpointImage
      && c.command == ["/server"] && c.args == ["51001"] && c.privileged
      && c.ports == [ServerPort]
  {
    var server := Container(meta.name, cfg.dataEndpointImage, true, ["/server"], ["51001"], true, [], [ServerPort]);
    Deployment(
      WithOwner(meta, EndpointOwner(endpoint)),
      DeploymentSpec(meta.labels, PodTemplateSpec(Meta("", "", meta.labels), PodSpec("", cfg.serviceAccountName, "", [server], []))))
  }

  /** The port the server is told on its command line is the port the container opens. */
  lemma ServerArgMatchesPort(cfg: Settings, endpoint: SnoopyDataEndpoint, meta: ObjectMeta)
    ensures var c := DeploymentForDataEndpoint(cfg, endpoint, meta).spec.template.spec.containers[0];
      ParseDecimal(c.args[0]) == Some(c.ports[0])
  {
    DecimalRoundTrip(ServerPort);
    assert DecimalString(ServerPort) == "51001";
  }

  /** deploymentForDataEndpoint as the builder reconcileResource is handed. */
  function DeploymentBuilder(cfg: Settings): (SnoopyDataEndpoint, ObjectMeta) -> Deployment {
    (endpoint: SnoopyDataEndpoint, meta: ObjectMeta) => DeploymentForDataEndpoint(cfg, endpoint, meta)
  }

  function DeploymentMeta(d: Deployment): ObjectMeta { d.meta }

  /** Reconciling the Deployment twice with the same metadata creates it at most once. */
  lemma DeploymentReconcileIdempotent(cfg: Settings, endpoint: SnoopyDataEndpoint, meta: ObjectMeta, st: Store<Deployment>)
    requires ReconcileResource(DeploymentBuilder(cfg), DeploymentMeta, endpoint, meta, st).1 == None
    ensures var r := ReconcileResource(DeploymentBuilder(cfg), DeploymentMeta, endpoint, meta, st);
      && KeyOf(meta) in r.0.objects
      && ReconcileResource(DeploymentBuilder(cfg), DeploymentMeta, endpoint, meta, r.0) == (r.0, None)
  {
    ReconcileResourceIdempotent(DeploymentBuilder(cfg), DeploymentMeta, endpoint, meta, st);
  }
}
