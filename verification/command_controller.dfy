/**
 * The Command reconciler of controllers/exec/command_controller.go: fetch
 * the Command, list its target pods, and for each pod build a one-shot Job
 * running podtracer against it and create it with no existence check.
 */
module ExecCommand {
  import opened Kube
  import opened Agent
  import opened Api
  import opened ClusterStore
  import opened CreateLoops
  import opened PodListing
  import opened PodtracerArgs

  /** The per-pod argument list, built inline by the reconcile loop. */
  function PodArgs(spec: CommandSpec, pod: Pod): seq<string> {
    CommandArgs(spec.command, spec.args, pod)
  }

  /**
   * GenerateCommandJob: the Job `tcpdump-<pod>` in the operator namespace,
   * running podtracer with `args` on `node` with all four agent volumes
   * mounted; it never fails.
   */
  function GenerateCommandJob(cfg: Settings, args: seq<string>, pod: string, node: string): (r: Result<Job>)
    ensures r.Ok?
    ensures r.value.meta == Meta("tcpdump-" + pod, OperatorNamespace, map["tcpdumpJob" := "snoopy-operator"])
    ensures r.value.spec.template.meta == Meta("", "", map["app" := "go-remote"])
    ensures RunsAgent(r.value.Workload(), node, args)
    ensures r.value.Workload().containers[0].mounts == [ProcMount, CrioSockMount, PcapDataMount, KubeconfigMount]
    ensures r.value.Workload().volumes == [ProcVolume, CrioSockVolume, PcapDataVolume, KubeconfigVolume]
  {
    var template := PodTemplateSpec(
      Meta("", "", map["app" := "go-remote"]),
      PodSpec(
        node, cfg.serviceAccountName, "Never",
        [Container("podtracer", cfg.podtracerImage, true, [AgentBinary], args, true,
                   [ProcMount, CrioSockMount, PcapDataMount, KubeconfigMount], [])],
        [ProcVolume, CrioSockVolume, PcapDataVolume, KubeconfigVolume]));
    Ok(Job(
      Meta("tcpdump-" + pod, OperatorNamespace, map["tcpdumpJob" := "snoopy-operator"]),
      JobSpec(template)))
  }

  /** Every mount is backed by a same-named volume, volume names are unique, and kubeconfig comes from its secret. */
  lemma CommandJobVolumes(cfg: Settings, args: seq<string>, pod: string, node: string)
    ensures MountsBacked(GenerateCommandJob(cfg, args, pod, node).value.Workload())
    ensures VolumeNamesUnique(GenerateCommandJob(cfg, args, pod, node).value.Workload())
    ensures Volume("kubeconfig", Secret("podtracer-kubeconfig")) in GenerateCommandJob(cfg, args, pod, node).value.Workload().volumes
  {
    var spec := GenerateCommandJob(cfg, args, pod, node).value.Workload();
    forall c, m | c in spec.containers && m in c.mounts
      ensures exists v :: v in spec.volumes && v.name == m.name
    {
      if m == ProcMount {
        assert ProcVolume in spec.volumes;
      } else if m == CrioSockMount {
        assert CrioSockVolume in spec.volumes;
      } else if m == PcapDataMount {
        assert PcapDataVolume in spec.volumes;
      } else {
        assert KubeconfigVolume in spec.volumes;
      }
    }
    assert "proc"[1] != "pcap-data"[1] && "proc"[0] != "crio-sock"[0] && "proc"[0] != "kubeconfig"[0];
    assert "crio-sock"[0] != "pcap-data"[0] && "crio-sock"[0] != "kubeconfig"[0] && "pcap-data"[0] != "kubeconfig"[0];
  }

  /** No declared volume is left unmounted. */
  lemma CommandJobVolumesMounted(cfg: Settings, args: seq<string>, pod: string, node: string)
    ensures var spec := GenerateCommandJob(cfg, args, pod, node).value.Workload();
      forall v :: v in spec.volumes ==> exists m :: m in spec.containers[0].mounts && m.name == v.name
  {
    var spec := GenerateCommandJob(cfg, args, pod, node).value.Workload();
    var mounts := spec.containers[0].mounts;
    forall v | v in spec.volumes
      ensures exists m :: m in mounts && m.name == v.name
    {
      if v == ProcVolume {
        assert ProcMount in mounts;
      } else if v == CrioSockVolume {
        assert CrioSockMount in mounts;
      } else if v == PcapDataVolume {
        assert PcapDataMount in mounts;
      } else {
        assert KubeconfigMount in mounts;
      }
    }
  }

  function Targets(cmd: Command, index: PodIndex): Result<seq<Pod>> {
    RunningPods(index, cmd.spec.labelSelector, cmd.spec.targetNamespace)
  }

  /** The Jobs of the loop, one per pod in listing order. */
  function Units(spec: CommandSpec, pods: seq<Pod>, cfg: Settings): (r: seq<Job>)
    ensures |r| == |pods|
    ensures forall i :: 0 <= i < |pods| ==>
      && r[i].meta.name == "tcpdump-" + pods[i].meta.name
      && r[i].meta.namespace == OperatorNamespace
      && RunsAgent(r[i].Workload(), pods[i].nodeName, PodArgs(spec, pods[i]))
  {
    seq(|pods|, i requires 0 <= i < |pods| =>
      GenerateCommandJob(cfg, PodArgs(spec, pods[i]), pods[i].meta.name, pods[i].nodeName).value)
  }

  function UnitKeys(pods: seq<Pod>): set<Key> {
    PrefixedKeys(OperatorNamespace, "tcpdump-", PodNames(pods))
  }

  /**
   * Reconcile: every fetch error is returned without requeue; a listing error
   * or an empty listing is returned with requeue; otherwise one Job per pod is
   * created in order and the first Create error is returned without requeue.
   */
  function Reconcile(fetched: Result<Command>, index: PodIndex, cfg: Settings, st: Store<Job>): (r: Reconciled<Job>)
    ensures fetched.Err? ==> r == Reconciled(CtrlResult(false), Some(fetched.error), st, [])
    ensures r.result.requeue <==> fetched.Ok? && Targets(fetched.value, index).Err?
    ensures fetched.Ok? && Targets(fetched.value, index).Err? ==>
      r.store == st && r.err == Some(Targets(fetched.value, index).error)
    ensures fetched.Ok? && Targets(fetched.value, index).Ok? ==>
      && (r.err.Some? ==> r.err.value == AlreadyExists || r.err.value == ApiError(CreateCall))
      && r.store.objects.Keys <= st.objects.Keys + UnitKeys(Targets(fetched.value, index).value)
    ensures Extends(st, r.store) && r.status == []
  {
    match fetched
    case Err(e) => Reconciled(CtrlResult(false), Some(e), st, [])
    case Ok(cmd) =>
      match Targets(cmd, index)
      case Err(e) => Reconciled(CtrlResult(true), Some(e), st, [])
      case Ok(pods) =>
        var units := Units(cmd.spec, pods, cfg);
        KeysOfPrefixed(units, JobMeta, OperatorNamespace, "tcpdump-", PodNames(pods));
        var p := CreateEach(st, [], units, JobMeta, false);
        Reconciled(CtrlResult(false), p.err, p.store, [])
  }

  predicate CleanFirstPass(cmd: Command, index: PodIndex, st: Store<Job>) {
    && Targets(cmd, index).Ok?
    && DistinctNames(Targets(cmd, index).value)
    && UnitKeys(Targets(cmd, index).value) !! st.objects.Keys + st.faults.create
  }

  /** A clean first pass stores exactly one Job per target pod and reports no error. */
  lemma ReconcileFirstPass(cmd: Command, index: PodIndex, cfg: Settings, st: Store<Job>)
    requires CleanFirstPass(cmd, index, st)
    ensures var pods := Targets(cmd, index).value;
      var r := Reconcile(Ok(cmd), index, cfg, st);
      && r == Reconciled(CtrlResult(false), None, r.store, [])
      && r.store.objects == st.objects + ItemMap(Units(cmd.spec, pods, cfg), JobMeta)
      && r.store.objects.Keys == st.objects.Keys + UnitKeys(pods)
  {
    var pods := Targets(cmd, index).value;
    var units := Units(cmd.spec, pods, cfg);
    KeysOfPrefixed(units, JobMeta, OperatorNamespace, "tcpdump-", PodNames(pods));
    CreateEachStoresAll(st, [], units, JobMeta, false);
    ItemMapKeys(units, JobMeta);
  }

  /**
   * A Create failure at Job `j` (an injected failure, or a key already taken
   * before the loop or by an earlier pod) after `j` clean creations is
   * returned without requeue: exactly the Jobs before it are stored.
   */
  lemma ReconcileFailsAt(cmd: Command, index: PodIndex, cfg: Settings, st: Store<Job>, j: nat)
    requires Targets(cmd, index).Ok?
    requires var units := Units(cmd.spec, Targets(cmd, index).value, cfg);
      && CleanPrefix(st, units, JobMeta, j, false) && j < |units|
      && KeyOf(units[j].meta) in st.faults.create + st.objects.Keys + KeysOf(units[..j], JobMeta)
    ensures var units := Units(cmd.spec, Targets(cmd, index).value, cfg);
      Reconcile(Ok(cmd), index, cfg, st)
      == Reconciled(CtrlResult(false), Some(CreateError(st, KeyOf(units[j].meta))),
                    st.(objects := st.objects + ItemMap(units[..j], JobMeta)), [])
  {
    var units := Units(cmd.spec, Targets(cmd, index).value, cfg);
    CreateEachFailsAt(st, [], units, JobMeta, false, j);
  }

  /** Reconciling the same Command again after a clean pass fails at once with AlreadyExists, without requeue, writing nothing. */
  lemma ReconcileRerunFails(cmd: Command, index: PodIndex, cfg: Settings, st: Store<Job>)
    requires CleanFirstPass(cmd, index, st)
    ensures var r := Reconcile(Ok(cmd), index, cfg, st);
      Reconcile(Ok(cmd), index, cfg, r.store) == Reconciled(CtrlResult(false), Some(AlreadyExists), r.store, [])
  {
    var pods := Targets(cmd, index).value;
    var units := Units(cmd.spec, pods, cfg);
    KeysOfPrefixed(units, JobMeta, OperatorNamespace, "tcpdump-", PodNames(pods));
    CreateEachRerunFails(st, [], units, JobMeta, false);
  }
}
