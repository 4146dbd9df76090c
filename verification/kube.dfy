/**
 * Kubernetes object shapes that the snoopy operator builds and reads, cut down
 * to the fields its controllers set or look at, plus the error vocabulary of
 * the API client the controllers talk to.
 */
module Kube {

  datatype Option<+T> = None | Some(value: T)

  /** The API call whose failure an error reports. */
  datatype Verb = GetCall | ListCall | CreateCall | UpdateCall | StatusUpdateCall

  datatype Error =
    | NotFound               // the API server holds no object under that name
    | AlreadyExists          // Create of a name that is already taken
    | ApiError(verb: Verb)   // any other failure of an API call (transport, permission, conflict)
    | NoRunningPods          // the pod listing matched nothing
    | OwnerRefRejected       // SetControllerReference refused to link the owner

  /** The `(value, error)` pair of a Go call, with exactly one side present. */
  datatype Result<+T> = Ok(value: T) | Err(error: Error)

  /** A Go call that either returns or panics (nil dereference, index or slice out of range). */
  datatype Outcome<+T> = Returned(value: T) | Panicked

  /** What a reconcile pass tells the controller runtime besides its error. */
  datatype CtrlResult = CtrlResult(requeue: bool)

  /** A controller reference to the custom resource that owns an object. */
  datatype OwnerRef = OwnerRef(kind: string, name: string)

  datatype ObjectMeta = ObjectMeta(
    name: string,
    namespace: string,
    labels: map<string, string>,
    owner: Option<OwnerRef>,
    finalizers: seq<string>,
    deleting: bool)           // a deletion timestamp is set

  /** Metadata with only name, namespace and labels filled in, as a Go struct literal leaves it. */
  function Meta(name: string, namespace: string, labels: map<string, string>): ObjectMeta {
    ObjectMeta(name, namespace, labels, None, [], false)
  }

  /** The metadata after SetControllerReference has linked it to `ref`. */
  function WithOwner(meta: ObjectMeta, ref: OwnerRef): ObjectMeta {
    meta.(owner := Some(ref))
  }

  datatype HostPathType = Directory | Socket

  datatype VolumeSource =
    | HostPath(path: string, kind: HostPathType)
    | EmptyDir
    | Secret(secretName: string)

  datatype Volume = Volume(name: string, source: VolumeSource)

  datatype VolumeMount = VolumeMount(name: string, mountPath: string, readOnly: bool)

  datatype Container = Container(
    name: string,
    image: string,
    pullAlways: bool,
    command: seq<string>,
    args: seq<string>,
    privileged: bool,
    mounts: seq<VolumeMount>,
    ports: seq<int>)

  datatype PodSpec = PodSpec(
    nodeName: string,
    serviceAccountName: string,
    restartPolicy: string,    // "" leaves the cluster default in place
    containers: seq<Container>,
    volumes: seq<Volume>)

  datatype PodTemplateSpec = PodTemplateSpec(meta: ObjectMeta, spec: PodSpec)

  datatype JobSpec = JobSpec(template: PodTemplateSpec)

  datatype JobTemplateSpec = JobTemplateSpec(meta: ObjectMeta, spec: JobSpec) {
    function Workload(): PodSpec { spec.template.spec }
  }

  datatype Job = Job(meta: ObjectMeta, spec: JobSpec) {
    function Workload(): PodSpec { spec.template.spec }
  }

  datatype ConcurrencyPolicy = Allow | Forbid | Replace

  datatype CronJobSpec = CronJobSpec(
    schedule: string,
    concurrencyPolicy: ConcurrencyPolicy,
    jobTemplate: JobTemplateSpec)

  datatype CronJob = CronJob(meta: ObjectMeta, spec: CronJobSpec) {
    function Workload(): PodSpec { spec.jobTemplate.spec.template.spec }
  }

  datatype DeploymentSpec = DeploymentSpec(selector: map<string, string>, template: PodTemplateSpec)

  datatype Deployment = Deployment(meta: ObjectMeta, spec: DeploymentSpec)

  datatype ServicePort = ServicePort(name: string, protocol: string, port: int, targetPort: int)

  datatype ServiceSpec = ServiceSpec(ports: seq<ServicePort>, selector: map<string, string>)

  datatype Service = Service(meta: ObjectMeta, spec: ServiceSpec)

  datatype ContainerStatus = ContainerStatus(containerID: string)

  /** A listed pod: its metadata, the node it was scheduled on and its containers' runtime ids. */
  datatype Pod = Pod(meta: ObjectMeta, nodeName: string, containerStatuses: seq<ContainerStatus>)

  /** Package-level settings of the operator binary that live outside the modelled files. */
  datatype Settings = Settings(podtracerImage: string, dataEndpointImage: string, serviceAccountName: string)

  function JobMeta(j: Job): ObjectMeta { j.meta }

  function CronJobMeta(c: CronJob): ObjectMeta { c.meta }
}

/**
 * The podtracer agent pod: where it runs, the binary it starts and the host
 * resources it mounts. The three job builders
 * declare their volumes and mounts as different subsets of these.
 */
module Agent {
  import opened Kube

  /** Every object the job builders emit lives in the operator's own namespace. */
  const OperatorNamespace := "snoopy-operator"

  const AgentBinary := "/usr/bin/podtracer"

  const ProcVolume := Volume("proc", HostPath("/proc", Directory))
  const CrioSockVolume := Volume("crio-sock", HostPath("/var/run/crio/crio.sock", Socket))
  const PcapDataVolume := Volume("pcap-data", EmptyDir)
  const KubeconfigVolume := Volume("kubeconfig", Secret("podtracer-kubeconfig"))

  const ProcMount := VolumeMount("proc", "/host/proc", false)
  const CrioSockMount := VolumeMount("crio-sock", "/var/run/crio/crio.sock", false)
  const PcapDataMount := VolumeMount("pcap-data", "/pcap-data", false)
  const KubeconfigMount := VolumeMount("kubeconfig", "/root/.kube", false)

  /** Every mount of every container names a volume the pod declares. */
  predicate MountsBacked(spec: PodSpec) {
    forall c, m :: c in spec.containers && m in c.mounts ==>
      exists v :: v in spec.volumes && v.name == m.name
  }

  /** Volume names are unique within the pod, as the API server demands. */
  predicate VolumeNamesUnique(spec: PodSpec) {
    forall i, j :: 0 <= i < j < |spec.volumes| ==> spec.volumes[i].name != spec.volumes[j].name
  }

  /** The volume `name` is declared but no container mounts it. */
  predicate Unmounted(spec: PodSpec, name: string) {
    (exists v :: v in spec.volumes && v.name == name) &&
    forall c, m :: c in spec.containers && m in c.mounts ==> m.name != name
  }

  /** The pod runs one privileged podtracer container on `node` with `args`, never restarted. */
  predicate RunsAgent(spec: PodSpec, node: string, args: seq<string>) {
    && spec.nodeName == node
    && spec.restartPolicy == "Never"
    && |spec.containers| == 1
    && spec.containers[0].command == [AgentBinary]
    && spec.containers[0].privileged
    && spec.containers[0].args == args
  }
}
