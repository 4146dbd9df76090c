/**
 * The SnoopyJob reconciler of controllers/job/snoopyjob_controller.go: fetch
 * the SnoopyJob, build one CronJob per target pod with the timer-only
 * podtracer options, and create each CronJob with no existence check,
 * recording its name in the SnoopyJob's status.
 *
 * In the source the options and schedule are read from the reconciler's Cmd
 * field, which nothing visible assigns; BuildCronJobForPodsAsWritten keeps
 * that reading, and BuildCronJobForPods reads them from the fetched SnoopyJob.
 */
module SnoopyJobController {
  import opened Kube
  import opened Agent
  import opened Api
  import opened ClusterStore
  import opened CreateLoops
  import opened PodListing
  import opened PodtracerArgs
  import SnoopyJobTemplates

  /** This file's buildPodtracerOptions: the run prefix and `-t` when a timer is set; never any data-service flags. */
  function BuildPodtracerOptions(spec: SnoopyJobSpec): (r: seq<string>)
    ensures |r| == 4 + (if spec.timer != "" then 2 else 0)
    ensures r[..4] == ["run", spec.command, "-a", spec.args]
    ensures spec.timer != "" ==> r[4..] == ["-t", spec.timer]
  {
    RunPrefix(spec.command, spec.args) + TimerFlags(spec.timer)
  }

  function PodArgs(spec: SnoopyJobSpec, pod: Pod): seq<string> {
    BuildPodtracerOptions(spec) + TargetFlags(pod)
  }

  /** Every pod's argument list reads back as the command and timer aimed at that pod, with no data sink whatever the spec says. */
  lemma PodArgsDecode(spec: SnoopyJobSpec, pod: Pod)
    ensures Decode(PodArgs(spec, pod)) == Some(Intended(spec.command, spec.args, spec.timer, "", "", pod))
    ensures Decode(PodArgs(spec, pod)).value.sink == None
  {
    assert SinkFlags("", "") == [];
    assert RunPrefix(spec.command, spec.args) + TimerFlags(spec.timer) + SinkFlags("", "") == BuildPodtracerOptions(spec);
    DecodeAssembled(spec.command, spec.args, spec.timer, "", "", pod);
  }

  /** The CronJob for one pod; a refused controller reference leaves it without an owner. */
  function CronJobUnit(spec: SnoopyJobSpec, pod: Pod, owner: Result<OwnerRef>, cfg: Settings): CronJob {
    var c := SnoopyJobTemplates.CronJobFor(cfg, PodArgs(spec, pod), pod.meta.name, pod.nodeName, spec.schedule).value;
    if owner.Ok? then c.(meta := WithOwner(c.meta, owner.value)) else c
  }

  function Targets(job: SnoopyJob, index: PodIndex): Result<seq<Pod>> {
    RunningPods(index, job.spec.labelSelector, job.spec.targetNamespace)
  }

  function Units(spec: SnoopyJobSpec, pods: seq<Pod>, owner: Result<OwnerRef>, cfg: Settings): seq<CronJob> {
    seq(|pods|, i requires 0 <= i < |pods| => CronJobUnit(spec, pods[i], owner, cfg))
  }

  /**
   * BuildCronJobForPods as written: the pods come from the fetched job, the
   * options and schedule from `cmd`, the reconciler's Cmd field. With Cmd
   * unset, the first pod dereferences a nil pointer.
   */
  function BuildCronJobForPodsAsWritten(job: SnoopyJob, cmd: Option<SnoopyJob>, index: PodIndex,
                                        owner: Result<OwnerRef>, cfg: Settings): (r: Outcome<Result<seq<CronJob>>>)
    ensures Targets(job, index).Err? ==> r == Returned(Err(Targets(job, index).error))
    ensures r.Returned? && r.value.Ok? ==> cmd.Some? && |r.value.value| == |Targets(job, index).value|
  {
    match Targets(job, index)
    case Err(e) => Returned(Err(e))
    case Ok(pods) =>
      if cmd.None? then Panicked
      else Returned(Ok(Units(cmd.value.spec, pods, owner, cfg)))
  }

  /** With Cmd never assigned, every SnoopyJob whose pods are listed makes the build panic. */
  lemma UnsetCmdPanics(job: SnoopyJob, index: PodIndex, owner: Result<OwnerRef>, cfg: Settings)
    requires Targets(job, index).Ok?
    ensures BuildCronJobForPodsAsWritten(job, None, index, owner, cfg) == Panicked
  {
  }

  /**
   * BuildCronJobForPods with the fetched SnoopyJob in place of Cmd: one
   * CronJob per target pod, in listing order. Only the listing can fail; a
   * refused controller reference is ignored and leaves the CronJob unowned.
   */
  function BuildCronJobForPods(job: SnoopyJob, index: PodIndex, owner: Result<OwnerRef>, cfg: Settings): (r: Result<seq<CronJob>>)
    ensures r.Ok? <==> Targets(job, index).Ok?
    ensures r.Err? ==> r == Err(Targets(job, index).error)
    ensures r.Ok? ==>
      var pods := Targets(job, index).value;
      && |r.value| == |pods|
      && forall i :: 0 <= i < |pods| ==>
        && r.value[i].meta.name == "snoopy-cronjob-" + pods[i].meta.name
        && r.value[i].meta.namespace == OperatorNamespace
        && r.value[i].meta.owner == (if owner.Ok? then Some(owner.value) else None)
        && r.value[i].spec.schedule == job.spec.schedule
        && RunsAgent(r.value[i].Workload(), pods[i].nodeName, PodArgs(job.spec, pods[i]))
  {
    match Targets(job, index)
    case Err(e) => Err(e)
    case Ok(pods) => Ok(Units(job.spec, pods, owner, cfg))
  }

  /** Assigning the fetched job to Cmd is exactly the correction: the as-written build then agrees with the corrected one. */
  lemma AsWrittenWithCmdAgrees(job: SnoopyJob, index: PodIndex, owner: Result<OwnerRef>, cfg: Settings)
    ensures BuildCronJobForPodsAsWritten(job, Some(job), index, owner, cfg) == Returned(BuildCronJobForPods(job, index, owner, cfg))
  {
  }

  /** The keys the built CronJobs are stored under. */
  function UnitKeys(pods: seq<Pod>): set<Key> {
    PrefixedKeys(OperatorNamespace, "snoopy-cronjob-", PodNames(pods))
  }

  /** The CronJobs of a build are stored exactly under their pods' keys, and distinct pod names give distinct keys. */
  lemma UnitsKeyed(spec: SnoopyJobSpec, pods: seq<Pod>, owner: Result<OwnerRef>, cfg: Settings)
    ensures KeysOf(Units(spec, pods, owner, cfg), CronJobMeta) == UnitKeys(pods)
    ensures DistinctNames(pods) ==> DistinctKeys(Units(spec, pods, owner, cfg), CronJobMeta)
  {
    KeysOfPrefixed(Units(spec, pods, owner, cfg), CronJobMeta, OperatorNamespace, "snoopy-cronjob-", PodNames(pods));
  }

  /**
   * ReconcileCronJobs: create-always over the built CronJobs, appending each
   * created name to the SnoopyJob's CronJobList. The first Create error is
   * returned; a failed status update ends the loop with no error.
   */
  function ReconcileCronJobs(job: SnoopyJob, units: seq<CronJob>, st: Store<CronJob>): (r: Pass<CronJob>)
    ensures Extends(st, r.store)
    ensures job.status.cronJobList <= r.status
    ensures r.err.Some? ==> r.err.value == AlreadyExists || r.err.value == ApiError(CreateCall)
  {
    CreateEach(st, job.status.cronJobList, units, CronJobMeta, true)
  }

  /**
   * Reconcile: NotFound on fetch ends quietly, any other fetch error is
   * returned without requeue; a build or create failure is returned with
   * requeue; success neither errs nor requeues.
   */
  function Reconcile(fetched: Result<SnoopyJob>, index: PodIndex, owner: Result<OwnerRef>, cfg: Settings,
                     st: Store<CronJob>): (r: Reconciled<CronJob>)
    ensures r.result.requeue <==> fetched.Ok? && r.err.Some?
    ensures fetched.Err? ==> r.store == st && r.err == (if fetched.error == NotFound then None else Some(fetched.error))
    ensures fetched.Ok? && Targets(fetched.value, index).Err? ==>
      r.store == st && r.err == Some(Targets(fetched.value, index).error)
    ensures Extends(st, r.store)
    ensures r.err.Some? ==> r.err.value != NotFound || fetched.Err?
  {
    match fetched
    case Err(e) => Reconciled(CtrlResult(false), if e == NotFound then None else Some(e), st, [])
    case Ok(job) =>
      match BuildCronJobForPods(job, index, owner, cfg)
      case Err(e) => Reconciled(CtrlResult(true), Some(e), st, job.status.cronJobList)
      case Ok(units) =>
        var p := ReconcileCronJobs(job, units, st);
        Reconciled(CtrlResult(p.err.Some?), p.err, p.store, p.status)
  }

  /** Preconditions for a clean first pass: pods listed, names distinct, their CronJob keys unused and free of faults. */
  predicate CleanFirstPass(job: SnoopyJob, index: PodIndex, st: Store<CronJob>) {
    && Targets(job, index).Ok?
    && DistinctNames(Targets(job, index).value)
    && UnitKeys(Targets(job, index).value) !! st.objects.Keys + st.faults.create + st.faults.statusUpdate
  }

  /** A clean first pass creates one CronJob per pod, records all their names, and neither errs nor requeues. */
  lemma ReconcileFirstPass(job: SnoopyJob, index: PodIndex, owner: Result<OwnerRef>, cfg: Settings, st: Store<CronJob>)
    requires CleanFirstPass(job, index, st)
    ensures var pods := Targets(job, index).value;
      var r := Reconcile(Ok(job), index, owner, cfg, st);
      && r.result == CtrlResult(false) && r.err == None
      && r.store.objects == st.objects + ItemMap(Units(job.spec, pods, owner, cfg), CronJobMeta)
      && r.store.objects.Keys == st.objects.Keys + UnitKeys(pods)
      && r.status == job.status.cronJobList + Names(Units(job.spec, pods, owner, cfg), CronJobMeta)
  {
    var pods := Targets(job, index).value;
    var units := Units(job.spec, pods, owner, cfg);
    assert BuildCronJobForPods(job, index, owner, cfg) == Ok(units);
    UnitsKeyed(job.spec, pods, owner, cfg);
    CreateEachStoresAll(st, job.status.cronJobList, units, CronJobMeta, true);
    ItemMapKeys(units, CronJobMeta);
    var p := ReconcileCronJobs(job, units, st);
    assert Reconcile(Ok(job), index, owner, cfg, st) == Reconciled(CtrlResult(false), None, p.store, p.status);
  }

  /**
   * A Create failure at CronJob `j` (an injected failure, or a key already
   * taken) after `j` clean creations is returned with requeue: exactly the
   * CronJobs before it are stored and their names recorded.
   */
  lemma ReconcileFailsAt(job: SnoopyJob, index: PodIndex, owner: Result<OwnerRef>, cfg: Settings, st: Store<CronJob>, j: nat)
    requires Targets(job, index).Ok?
    requires var units := Units(job.spec, Targets(job, index).value, owner, cfg);
      && CleanPrefix(st, units, CronJobMeta, j, true) && j < |units|
      && KeyOf(units[j].meta) in st.faults.create + st.objects.Keys + KeysOf(units[..j], CronJobMeta)
    ensures var units := Units(job.spec, Targets(job, index).value, owner, cfg);
      Reconcile(Ok(job), index, owner, cfg, st)
      == Reconciled(CtrlResult(true), Some(CreateError(st, KeyOf(units[j].meta))),
                    st.(objects := st.objects + ItemMap(units[..j], CronJobMeta)),
                    job.status.cronJobList + Names(units[..j], CronJobMeta))
  {
    var units := Units(job.spec, Targets(job, index).value, owner, cfg);
    assert BuildCronJobForPods(job, index, owner, cfg) == Ok(units);
    CreateEachFailsAt(st, job.status.cronJobList, units, CronJobMeta, true, j);
  }

  /**
   * A failed status update right after creating CronJob `j` ends the pass
   * with neither error nor requeue: CronJobs up to and including `j` are
   * stored and recorded, and none after it is created.
   */
  lemma ReconcileStatusFailureAt(job: SnoopyJob, index: PodIndex, owner: Result<OwnerRef>, cfg: Settings, st: Store<CronJob>, j: nat)
    requires Targets(job, index).Ok?
    requires var units := Units(job.spec, Targets(job, index).value, owner, cfg);
      && CleanPrefix(st, units, CronJobMeta, j, true) && j < |units|
      && KeyOf(units[j].meta) !in st.faults.create + st.objects.Keys + KeysOf(units[..j], CronJobMeta)
      && KeyOf(units[j].meta) in st.faults.statusUpdate
    ensures var units := Units(job.spec, Targets(job, index).value, owner, cfg);
      var done := st.objects + ItemMap(units[..j], CronJobMeta);
      Reconcile(Ok(job), index, owner, cfg, st)
      == Reconciled(CtrlResult(false), None,
                    st.(objects := done[KeyOf(units[j].meta) := units[j]]),
                    job.status.cronJobList + Names(units[..j], CronJobMeta) + [units[j].meta.name])
  {
    var units := Units(job.spec, Targets(job, index).value, owner, cfg);
    assert BuildCronJobForPods(job, index, owner, cfg) == Ok(units);
    CreateEachStatusFailureAt(st, job.status.cronJobList, units, CronJobMeta, j);
  }

  /**
   * Reconciling the same SnoopyJob again after a clean pass fails on the first
   * CronJob with AlreadyExists and requeues, writing nothing: the controller
   * does not treat an existing CronJob as done.
   */
  lemma ReconcileRerunRequeues(job: SnoopyJob, index: PodIndex, owner: Result<OwnerRef>, cfg: Settings, st: Store<CronJob>)
    requires CleanFirstPass(job, index, st)
    ensures var r := Reconcile(Ok(job), index, owner, cfg, st);
      var again := Reconcile(Ok(job.(status := SnoopyJobStatus(r.status))), index, owner, cfg, r.store);
      again == Reconciled(CtrlResult(true), Some(AlreadyExists), r.store, r.status)
  {
    var pods := Targets(job, index).value;
    var units := Units(job.spec, pods, owner, cfg);
    UnitsKeyed(job.spec, pods, owner, cfg);
    CreateEachRerunFails(st, job.status.cronJobList, units, CronJobMeta, true);
  }
}
