/**
 * The CommandJob reconciler of controllers/job/commandjob_controller.go: fetch
 * the CommandJob, list its target pods, and for each pod build a CronJob
 * running podtracer against it and create it with no existence check. It
 * sets no owner reference and keeps no status.
 */
module CommandJobController {
  import opened Kube
  import opened Agent
  import opened Api
  import opened ClusterStore
  import opened CreateLoops
  import opened PodListing
  import opened PodtracerArgs
  import CommandJobTemplates

  /** The per-pod argument list, built inline by the reconcile loop. */
  function PodArgs(spec: CommandJobSpec, pod: Pod): seq<string> {
    CommandArgs(spec.command, spec.args, pod)
  }

  function Targets(cmd: CommandJob, index: PodIndex): Result<seq<Pod>> {
    RunningPods(index, cmd.spec.labelSelector, cmd.spec.targetNamespace)
  }

  /** The CronJobs of the loop, one per pod in listing order; building one never fails. */
  function Units(spec: CommandJobSpec, pods: seq<Pod>, cfg: Settings): (r: seq<CronJob>)
    ensures |r| == |pods|
    ensures forall i :: 0 <= i < |pods| ==>
      && r[i].meta == Meta("snoopy-cronjob-" + pods[i].meta.name, OperatorNamespace, map["snoopyCronJob" := "CommandJob"])
      && r[i].spec.schedule == spec.schedule
      && RunsAgent(r[i].Workload(), pods[i].nodeName, PodArgs(spec, pods[i]))
  {
    seq(|pods|, i requires 0 <= i < |pods| =>
      CommandJobTemplates.CronJobFor(cfg, PodArgs(spec, pods[i]), pods[i].meta.name, pods[i].nodeName, spec.schedule).value)
  }

  function UnitKeys(pods: seq<Pod>): set<Key> {
    PrefixedKeys(OperatorNamespace, "snoopy-cronjob-", PodNames(pods))
  }

  /**
   * Reconcile: every fetch error, NotFound included, is returned without
   * requeue; a listing error or an empty listing is returned with requeue;
   * otherwise one CronJob per pod is created in order and the first Create
   * error is returned without requeue, earlier CronJobs staying created.
   */
  function Reconcile(fetched: Result<CommandJob>, index: PodIndex, cfg: Settings, st: Store<CronJob>): (r: Reconciled<CronJob>)
    ensures fetched.Err? ==> r == Reconciled(CtrlResult(false), Some(fetched.error), st, [])
    ensures r.result.requeue <==> fetched.Ok? && Targets(fetched.value, index).Err?
    ensures fetched.Ok? && Targets(fetched.value, index).Err? ==>
      r.store == st && r.err == Some(Targets(fetched.value, index).error)
    ensures fetched.Ok? && Targets(fetched.value, index).Ok? ==>
      && (r.err.Some? ==> r.err.value == AlreadyExists || r.err.value == ApiError(CreateCall))
      && r.store.objects.Keys <= st.objects.Keys + UnitKeys(Targets(fetched.value, index).value)
    ensures Extends(st, r.store) && r.status == []
  {
    match fetched
    case Err(e) => Reconciled(CtrlResult(false), Some(e), st, [])
    case Ok(cmd) =>
      match Targets(cmd, index)
      case Err(e) => Reconciled(CtrlResult(true), Some(e), st, [])
      case Ok(pods) =>
        var units := Units(cmd.spec, pods, cfg);
        KeysOfPrefixed(units, CronJobMeta, OperatorNamespace, "snoopy-cronjob-", PodNames(pods));
        var p := CreateEach(st, [], units, CronJobMeta, false);
        Reconciled(CtrlResult(false), p.err, p.store, [])
  }

  /** Preconditions for a clean first pass: pods listed, names distinct, their CronJob keys unused and creatable. */
  predicate CleanFirstPass(cmd: CommandJob, index: PodIndex, st: Store<CronJob>) {
    && Targets(cmd, index).Ok?
    && DistinctNames(Targets(cmd, index).value)
    && UnitKeys(Targets(cmd, index).value) !! st.objects.Keys + st.faults.create
  }

  /** A clean first pass stores exactly one CronJob per target pod and reports no error. */
  lemma ReconcileFirstPass(cmd: CommandJob, index: PodIndex, cfg: Settings, st: Store<CronJob>)
    requires CleanFirstPass(cmd, index, st)
    ensures var pods := Targets(cmd, index).value;
      var r := Reconcile(Ok(cmd), index, cfg, st);
      && r == Reconciled(CtrlResult(false), None, r.store, [])
      && r.store.objects == st.objects + ItemMap(Units(cmd.spec, pods, cfg), CronJobMeta)
      && r.store.objects.Keys == st.objects.Keys + UnitKeys(pods)
  {
    var pods := Targets(cmd, index).value;
    var units := Units(cmd.spec, pods, cfg);
    KeysOfPrefixed(units, CronJobMeta, OperatorNamespace, "snoopy-cronjob-", PodNames(pods));
    CreateEachStoresAll(st, [], units, CronJobMeta, false);
    ItemMapKeys(units, CronJobMeta);
  }

  /**
   * A Create failure at CronJob `j` (an injected failure, or a key already taken
   * before the loop or by an earlier pod) after `j` clean creations is
   * returned without requeue: exactly the CronJobs before it are stored.
   */
  lemma ReconcileFailsAt(cmd: CommandJob, index: PodIndex, cfg: Settings, st: Store<CronJob>, j: nat)
    requires Targets(cmd, index).Ok?
    requires var units := Units(cmd.spec, Targets(cmd, index).value, cfg);
      && CleanPrefix(st, units, CronJobMeta, j, false) && j < |units|
      && KeyOf(units[j].meta) in st.faults.create + st.objects.Keys + KeysOf(units[..j], CronJobMeta)
    ensures var units := Units(cmd.spec, Targets(cmd, index).value, cfg);
      Reconcile(Ok(cmd), index, cfg, st)
      == Reconciled(CtrlResult(false), Some(CreateError(st, KeyOf(units[j].meta))),
                    st.(objects := st.objects + ItemMap(units[..j], CronJobMeta)), [])
  {
    var units := Units(cmd.spec, Targets(cmd, index).value, cfg);
    CreateEachFailsAt(st, [], units, CronJobMeta, false, j);
  }

  /**
   * Reconciling the same CommandJob again after a clean pass re-issues Create
   * for the first pod, which fails with AlreadyExists; the error is returned
   * without requeue and nothing is written.
   */
  lemma ReconcileRerunFails(cmd: CommandJob, index: PodIndex, cfg: Settings, st: Store<CronJob>)
    requires CleanFirstPass(cmd, index, st)
    ensures var r := Reconcile(Ok(cmd), index, cfg, st);
      Reconcile(Ok(cmd), index, cfg, r.store) == Reconciled(CtrlResult(false), Some(AlreadyExists), r.store, [])
  {
    var pods := Targets(cmd, index).value;
    var units := Units(cmd.spec, pods, cfg);
    KeysOfPrefixed(units, CronJobMeta, OperatorNamespace, "snoopy-cronjob-", PodNames(pods));
    CreateEachRerunFails(st, [], units, CronJobMeta, false);
  }
}
