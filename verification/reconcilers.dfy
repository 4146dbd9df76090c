/**
 * The SnoopyJob helpers of controllers/job/reconcilers.go: the full podtracer
 * option list (timer and data-service flags), the per-pod fan-out into
 * CronJobs or Jobs owned by the SnoopyJob, and the create-if-absent loops that
 * record each created name in the SnoopyJob's status.
 */
module JobReconcilers {
  import opened Kube
  import opened Agent
  import opened Api
  import opened ClusterStore
  import opened CreateLoops
  import opened PodListing
  import opened PodtracerArgs
  import SnoopyJobTemplates
  import Text

  /** buildPodtracerOptions: the run prefix, then `-t` when a timer is set, then `-d`/`-p` when an address is set. */
  function BuildPodtracerOptions(spec: SnoopyJobSpec): (r: seq<string>)
    ensures |r| == 4 + (if spec.timer != "" then 2 else 0) + (if spec.dataServiceIP != "" then 4 else 0)
    ensures r[..4] == ["run", spec.command, "-a", spec.args]
    ensures spec.timer != "" ==> r[4..6] == ["-t", spec.timer]
    ensures spec.dataServiceIP != "" ==> r[|r| - 4..] == ["-d", spec.dataServiceIP, "-p", spec.dataServicePort]
  {
    RunPrefix(spec.command, spec.args) + TimerFlags(spec.timer) + SinkFlags(spec.dataServiceIP, spec.dataServicePort)
  }

  /** The full argument list for one target pod: the options, then the pod's own name and namespace. */
  function PodArgs(spec: SnoopyJobSpec, pod: Pod): seq<string> {
    BuildPodtracerOptions(spec) + TargetFlags(pod)
  }

  /** Every pod's argument list reads back as the SnoopyJob's command, timer and data service aimed at that pod. */
  lemma PodArgsDecode(spec: SnoopyJobSpec, pod: Pod)
    ensures Decode(PodArgs(spec, pod))
         == Some(Intended(spec.command, spec.args, spec.timer, spec.dataServiceIP, spec.dataServicePort, pod))
  {
    DecodeAssembled(spec.command, spec.args, spec.timer, spec.dataServiceIP, spec.dataServicePort, pod);
  }

  function CronJobUnit(spec: SnoopyJobSpec, pod: Pod, ref: OwnerRef, cfg: Settings): CronJob {
    var c := SnoopyJobTemplates.CronJobFor(cfg, PodArgs(spec, pod), pod.meta.name, pod.nodeName, spec.schedule).value;
    c.(meta := WithOwner(c.meta, ref))
  }

  function JobUnit(spec: SnoopyJobSpec, pod: Pod, ref: OwnerRef, cfg: Settings): Job {
    var j := SnoopyJobTemplates.JobFor(cfg, PodArgs(spec, pod), pod.meta.name, pod.nodeName).value;
    j.(meta := WithOwner(j.meta, ref))
  }

  /** The pods the SnoopyJob targets. */
  function Targets(sj: SnoopyJob, index: PodIndex): Result<seq<Pod>> {
    RunningPods(index, sj.spec.labelSelector, sj.spec.targetNamespace)
  }

  /**
   * buildCronJobForPods: one CronJob per target pod, in listing order, each
   * owned by the SnoopyJob. A listing error, an empty listing or a refused
   * controller reference is returned and no CronJob comes out.
   */
  function BuildCronJobForPods(sj: SnoopyJob, index: PodIndex, owner: Result<OwnerRef>, cfg: Settings): (r: Result<seq<CronJob>>)
    ensures r.Ok? <==> Targets(sj, index).Ok? && owner.Ok?
    ensures Targets(sj, index).Err? ==> r == Err(Targets(sj, index).error)
    ensures Targets(sj, index).Ok? && owner.Err? ==> r == Err(owner.error)
    ensures r.Ok? ==>
      var pods := Targets(sj, index).value;
      && |r.value| == |pods|
      && forall i :: 0 <= i < |pods| ==>
        && r.value[i].meta.name == "snoopy-cronjob-" + pods[i].meta.name
        && r.value[i].meta.namespace == OperatorNamespace
        && r.value[i].meta.owner == Some(owner.value)
        && r.value[i].spec.schedule == sj.spec.schedule
        && RunsAgent(r.value[i].Workload(), pods[i].nodeName, PodArgs(sj.spec, pods[i]))
  {
    match Targets(sj, index)
    case Err(e) => Err(e)
    case Ok(pods) =>
      if owner.Err? then Err(owner.error)
      else Ok(seq(|pods|, i requires 0 <= i < |pods| => CronJobUnit(sj.spec, pods[i], owner.value, cfg)))
  }

  /** buildJobForPods: the same fan-out producing one-shot Jobs. */
  function BuildJobForPods(sj: SnoopyJob, index: PodIndex, owner: Result<OwnerRef>, cfg: Settings): (r: Result<seq<Job>>)
    ensures r.Ok? <==> Targets(sj, index).Ok? && owner.Ok?
    ensures Targets(sj, index).Err? ==> r == Err(Targets(sj, index).error)
    ensures Targets(sj, index).Ok? && owner.Err? ==> r == Err(owner.error)
    ensures r.Ok? ==>
      var pods := Targets(sj, index).value;
      && |r.value| == |pods|
      && forall i :: 0 <= i < |pods| ==>
        && r.value[i].meta.name == "snoopy-job-" + pods[i].meta.name
        && r.value[i].meta.namespace == OperatorNamespace
        && r.value[i].meta.owner == Some(owner.value)
        && RunsAgent(r.value[i].Workload(), pods[i].nodeName, PodArgs(sj.spec, pods[i]))
  {
    match Targets(sj, index)
    case Err(e) => Err(e)
    case Ok(pods) =>
      if owner.Err? then Err(owner.error)
      else Ok(seq(|pods|, i requires 0 <= i < |pods| => JobUnit(sj.spec, pods[i], owner.value, cfg)))
  }

  /**
   * reconcileCronJobs: create-if-absent over the built CronJobs, appending to
   * the SnoopyJob's CronJobList. A failed status update ends the loop with no
   * error, so only Get and Create failures are ever reported.
   */
  function ReconcileCronJobs(sj: SnoopyJob, units: seq<CronJob>, st: Store<CronJob>): (r: Pass<CronJob>)
    ensures Extends(st, r.store)
    ensures sj.status.cronJobList <= r.status
    ensures r.err.Some? ==> r.err.value == ApiError(GetCall) || r.err.value == ApiError(CreateCall)
  {
    CreateMissing(st, sj.status.cronJobList, units, CronJobMeta, false)
  }

  /**
   * reconcileJobs: the same loop over Jobs, also appending to CronJobList,
   * but a failed status update is returned as the error.
   */
  function ReconcileJobs(sj: SnoopyJob, units: seq<Job>, st: Store<Job>): (r: Pass<Job>)
    ensures Extends(st, r.store)
    ensures sj.status.cronJobList <= r.status
    ensures r.err.Some? ==> r.err.value.ApiError? && r.err.value.verb in {GetCall, CreateCall, StatusUpdateCall}
  {
    CreateMissing(st, sj.status.cronJobList, units, JobMeta, true)
  }

  /**
   * A Get failure at CronJob `j`, or a Create failure at a CronJob `j` not yet
   * present, stops the loop there and is reported: only the CronJobs before
   * it are created and recorded.
   */
  lemma ReconcileCronJobsFailsAt(sj: SnoopyJob, units: seq<CronJob>, st: Store<CronJob>, j: nat)
    requires j < |units| && Healthy(st.faults, KeysOf(units[..j], CronJobMeta))
    requires var k := KeyOf(units[j].meta);
      k in st.faults.get || (k !in st.objects.Keys + KeysOf(units[..j], CronJobMeta) && k in st.faults.create)
    ensures var k := KeyOf(units[j].meta);
      ReconcileCronJobs(sj, units, st)
      == Settled(st, sj.status.cronJobList, units[..j], CronJobMeta)
           .(err := Some(if k in st.faults.get then ApiError(GetCall) else ApiError(CreateCall)))
  {
    CreateMissingFailsAt(st, sj.status.cronJobList, units, CronJobMeta, false, j);
  }

  /** The same stop for the one-shot Jobs. */
  lemma ReconcileJobsFailsAt(sj: SnoopyJob, units: seq<Job>, st: Store<Job>, j: nat)
    requires j < |units| && Healthy(st.faults, KeysOf(units[..j], JobMeta))
    requires var k := KeyOf(units[j].meta);
      k in st.faults.get || (k !in st.objects.Keys + KeysOf(units[..j], JobMeta) && k in st.faults.create)
    ensures var k := KeyOf(units[j].meta);
      ReconcileJobs(sj, units, st)
      == Settled(st, sj.status.cronJobList, units[..j], JobMeta)
           .(err := Some(if k in st.faults.get then ApiError(GetCall) else ApiError(CreateCall)))
  {
    CreateMissingFailsAt(st, sj.status.cronJobList, units, JobMeta, true, j);
  }

  /**
   * A failed status update right after creating CronJob `j` stops the loop
   * and reports nothing: CronJob `j` stays created and recorded, and none
   * after it is created.
   */
  lemma CronJobStatusFailureSwallowed(sj: SnoopyJob, units: seq<CronJob>, st: Store<CronJob>, j: nat)
    requires j < |units| && Healthy(st.faults, KeysOf(units[..j], CronJobMeta))
    requires KeyOf(units[j].meta) !in st.faults.get + st.faults.create + st.objects.Keys + KeysOf(units[..j], CronJobMeta)
    requires KeyOf(units[j].meta) in st.faults.statusUpdate
    ensures var p := Settled(st, sj.status.cronJobList, units[..j], CronJobMeta);
      ReconcileCronJobs(sj, units, st)
      == Pass(p.store.(objects := p.store.objects[KeyOf(units[j].meta) := units[j]]),
              p.status + [units[j].meta.name], None)
  {
    CreateMissingStatusFailure(st, sj.status.cronJobList, units, CronJobMeta, false, j);
  }

  /** A failed status update right after creating Job `j` stops the loop and is reported. */
  lemma JobStatusFailureReported(sj: SnoopyJob, units: seq<Job>, st: Store<Job>, j: nat)
    requires j < |units| && Healthy(st.faults, KeysOf(units[..j], JobMeta))
    requires KeyOf(units[j].meta) !in st.faults.get + st.faults.create + st.objects.Keys + KeysOf(units[..j], JobMeta)
    requires KeyOf(units[j].meta) in st.faults.statusUpdate
    ensures var p := Settled(st, sj.status.cronJobList, units[..j], JobMeta);
      ReconcileJobs(sj, units, st)
      == Pass(p.store.(objects := p.store.objects[KeyOf(units[j].meta) := units[j]]),
              p.status + [units[j].meta.name], Some(ApiError(StatusUpdateCall)))
  {
    CreateMissingStatusFailure(st, sj.status.cronJobList, units, JobMeta, true, j);
  }

  /**
   * With no injected failure on the CronJobs' keys, one pass stores every
   * CronJob whose key is not yet taken (the first one for a shared key),
   * leaves the rest of the store alone, and stores something under each
   * target pod's CronJob key. A second pass over the same CronJobs creates
   * nothing and appends nothing.
   */
  lemma CronJobsConverge(sj: SnoopyJob, index: PodIndex, owner: Result<OwnerRef>, cfg: Settings, st: Store<CronJob>)
    requires BuildCronJobForPods(sj, index, owner, cfg).Ok?
    requires Healthy(st.faults, KeysOf(BuildCronJobForPods(sj, index, owner, cfg).value, CronJobMeta))
    ensures var units := BuildCronJobForPods(sj, index, owner, cfg).value;
      var pods := Targets(sj, index).value;
      var r := ReconcileCronJobs(sj, units, st);
      && r.err == None
      && r.store.objects == st.objects + ItemMap(FreshItems(units, CronJobMeta, st.objects.Keys), CronJobMeta)
      && (forall p :: p in pods ==> Key(OperatorNamespace, "snoopy-cronjob-" + p.meta.name) in r.store.objects)
      && ReconcileCronJobs(sj.(status := SnoopyJobStatus(r.status)), units, r.store) == Pass(r.store, r.status, None)
  {
    var units := BuildCronJobForPods(sj, index, owner, cfg).value;
    var pods := Targets(sj, index).value;
    var r := ReconcileCronJobs(sj, units, st);
    CreateMissingCompletes(st, sj.status.cronJobList, units, CronJobMeta, false);
    CreateMissingIdempotent(st, sj.status.cronJobList, units, CronJobMeta, false);
    forall p | p in pods
      ensures Key(OperatorNamespace, "snoopy-cronjob-" + p.meta.name) in r.store.objects
    {
      var i :| 0 <= i < |pods| && pods[i] == p;
      KeysOfAt(units, CronJobMeta, i);
    }
  }

  /**
   * When the target pods' names are distinct and none of their CronJobs exists
   * yet, a pass with no injected failure stores each pod's CronJob, as built for
   * that pod, under the key named after it.
   */
  lemma CronJobsStoredPerPod(sj: SnoopyJob, index: PodIndex, owner: Result<OwnerRef>, cfg: Settings, st: Store<CronJob>)
    requires BuildCronJobForPods(sj, index, owner, cfg).Ok? && DistinctNames(Targets(sj, index).value)
    requires var keys := KeysOf(BuildCronJobForPods(sj, index, owner, cfg).value, CronJobMeta);
      Healthy(st.faults, keys) && keys !! st.objects.Keys
    ensures var units := BuildCronJobForPods(sj, index, owner, cfg).value;
      var pods := Targets(sj, index).value;
      var objects := ReconcileCronJobs(sj, units, st).store.objects;
      forall i :: 0 <= i < |pods| ==>
        Key(OperatorNamespace, "snoopy-cronjob-" + pods[i].meta.name) in objects
        && objects[Key(OperatorNamespace, "snoopy-cronjob-" + pods[i].meta.name)] == units[i]
  {
    var units := BuildCronJobForPods(sj, index, owner, cfg).value;
    var pods := Targets(sj, index).value;
    assert forall i :: 0 <= i < |units| ==> KeyOf(CronJobMeta(units[i])) == Key(OperatorNamespace, "snoopy-cronjob-" + PodNames(pods)[i]);
    KeysOfPrefixed(units, CronJobMeta, OperatorNamespace, "snoopy-cronjob-", PodNames(pods));
    CreateMissingStoresEach(st, sj.status.cronJobList, units, CronJobMeta, false);
  }

  /** The same convergence for the one-shot Jobs, whose status updates are checked. */
  lemma JobsConverge(sj: SnoopyJob, index: PodIndex, owner: Result<OwnerRef>, cfg: Settings, st: Store<Job>)
    requires BuildJobForPods(sj, index, owner, cfg).Ok?
    requires Healthy(st.faults, KeysOf(BuildJobForPods(sj, index, owner, cfg).value, JobMeta))
    ensures var units := BuildJobForPods(sj, index, owner, cfg).value;
      var pods := Targets(sj, index).value;
      var r := ReconcileJobs(sj, units, st);
      && r.err == None
      && r.store.objects == st.objects + ItemMap(FreshItems(units, JobMeta, st.objects.Keys), JobMeta)
      && (forall p :: p in pods ==> Key(OperatorNamespace, "snoopy-job-" + p.meta.name) in r.store.objects)
      && ReconcileJobs(sj.(status := SnoopyJobStatus(r.status)), units, r.store) == Pass(r.store, r.status, None)
  {
    var units := BuildJobForPods(sj, index, owner, cfg).value;
    var pods := Targets(sj, index).value;
    var r := ReconcileJobs(sj, units, st);
    CreateMissingCompletes(st, sj.status.cronJobList, units, JobMeta, true);
    CreateMissingIdempotent(st, sj.status.cronJobList, units, JobMeta, true);
    forall p | p in pods
      ensures Key(OperatorNamespace, "snoopy-job-" + p.meta.name) in r.store.objects
    {
      var i :| 0 <= i < |pods| && pods[i] == p;
      KeysOfAt(units, JobMeta, i);
    }
  }

  /**
   * When the target pods' names are distinct and none of their Jobs exists
   * yet, a pass with no injected failure stores each pod's Job, as built for
   * that pod, under the key named after it.
   */
  lemma JobsStoredPerPod(sj: SnoopyJob, index: PodIndex, owner: Result<OwnerRef>, cfg: Settings, st: Store<Job>)
    requires BuildJobForPods(sj, index, owner, cfg).Ok? && DistinctNames(Targets(sj, index).value)
    requires var keys := KeysOf(BuildJobForPods(sj, index, owner, cfg).value, JobMeta);
      Healthy(st.faults, keys) && keys !! st.objects.Keys
    ensures var units := BuildJobForPods(sj, index, owner, cfg).value;
      var pods := Targets(sj, index).value;
      var objects := ReconcileJobs(sj, units, st).store.objects;
      forall i :: 0 <= i < |pods| ==>
        Key(OperatorNamespace, "snoopy-job-" + pods[i].meta.name) in objects
        && objects[Key(OperatorNamespace, "snoopy-job-" + pods[i].meta.name)] == units[i]
  {
    var units := BuildJobForPods(sj, index, owner, cfg).value;
    var pods := Targets(sj, index).value;
    assert forall i :: 0 <= i < |units| ==> KeyOf(JobMeta(units[i])) == Key(OperatorNamespace, "snoopy-job-" + PodNames(pods)[i]);
    KeysOfPrefixed(units, JobMeta, OperatorNamespace, "snoopy-job-", PodNames(pods));
    CreateMissingStoresEach(st, sj.status.cronJobList, units, JobMeta, true);
  }

  /**
   * As written, a CronJob is named after the target pod alone and always
   * placed in the operator's namespace. Two target pods with one name in two
   * namespaces therefore build two different CronJobs under one key: the
   * loop creates the first and skips the second, so the second pod is never
   * traced, and its name is not recorded.
   */
  lemma NamespaceCollision(sj: SnoopyJob, index: PodIndex, owner: Result<OwnerRef>, cfg: Settings, st: Store<CronJob>)
    requires BuildCronJobForPods(sj, index, owner, cfg).Ok?
    requires var pods := Targets(sj, index).value;
      |pods| == 2 && pods[0].meta.name == pods[1].meta.name && pods[0].meta.namespace != pods[1].meta.namespace
    requires var k := Key(OperatorNamespace, "snoopy-cronjob-" + Targets(sj, index).value[0].meta.name);
      Healthy(st.faults, {k}) && k !in st.objects
    ensures var pods := Targets(sj, index).value;
      var units := BuildCronJobForPods(sj, index, owner, cfg).value;
      var k := Key(OperatorNamespace, "snoopy-cronjob-" + pods[0].meta.name);
      && KeyOf(units[0].meta) == k == KeyOf(units[1].meta)
      && units[0] != units[1]
      && ReconcileCronJobs(sj, units, st)
         == Pass(st.(objects := st.objects[k := units[0]]), sj.status.cronJobList + [units[0].meta.name], None)
  {
    var pods := Targets(sj, index).value;
    var units := BuildCronJobForPods(sj, index, owner, cfg).value;
    var k := Key(OperatorNamespace, "snoopy-cronjob-" + pods[0].meta.name);
    PodArgsDecode(sj.spec, pods[0]);
    PodArgsDecode(sj.spec, pods[1]);
    assert units[0].Workload().containers[0].args != units[1].Workload().containers[0].args;
    assert KeyOf(units[0].meta) == k == KeyOf(units[1].meta);
    var st' := st.(objects := st.objects[k := units[0]]);
    assert units[1..][1..] == [];
    assert CreateMissing(st', sj.status.cronJobList + [units[0].meta.name], units[1..], CronJobMeta, false)
        == Pass(st', sj.status.cronJobList + [units[0].meta.name], None);
  }

  /** The name the corrected builder gives a pod: its namespace, a dot, and its name. */
  function QualifiedName(pod: Pod): string {
    pod.meta.namespace + "." + pod.meta.name
  }

  /** A dot-free prefix before a dot is no longer than another dot-free prefix of the same string. */
  lemma DotPrefixNoLonger(x: string, s: string, y: string, t: string)
    requires Text.NoChar(x, '.') && Text.NoChar(y, '.') && x + "." + s == y + "." + t
    ensures |x| <= |y|
  {
    var u := x + "." + s;
    assert forall i :: 0 <= i < |x| ==> u[i] == x[i];
    assert u[|y|] == '.';
  }

  /** Namespaces never contain a dot, so the qualified name determines both parts. */
  lemma QualifiedNameInjective(p: Pod, q: Pod)
    requires Text.NoChar(p.meta.namespace, '.') && Text.NoChar(q.meta.namespace, '.')
    ensures QualifiedName(p) == QualifiedName(q) <==> p.meta.namespace == q.meta.namespace && p.meta.name == q.meta.name
  {
    var a := QualifiedName(p);
    var m := |p.meta.namespace|;
    if a == QualifiedName(q) {
      DotPrefixNoLonger(p.meta.namespace, p.meta.name, q.meta.namespace, q.meta.name);
      DotPrefixNoLonger(q.meta.namespace, q.meta.name, p.meta.namespace, p.meta.name);
      assert a[..m] == p.meta.namespace && QualifiedName(q)[..m] == q.meta.namespace;
      assert a[m + 1..] == p.meta.name && QualifiedName(q)[m + 1..] == q.meta.name;
    }
  }

  /** Corrected buildCronJobForPods: as BuildCronJobForPods, but each CronJob named after the pod's qualified name. */
  function BuildQualifiedCronJobs(sj: SnoopyJob, index: PodIndex, owner: Result<OwnerRef>, cfg: Settings): (r: Result<seq<CronJob>>)
    ensures r.Ok? <==> BuildCronJobForPods(sj, index, owner, cfg).Ok?
    ensures r.Err? ==> r == BuildCronJobForPods(sj, index, owner, cfg)
    ensures r.Ok? ==>
      var pods := Targets(sj, index).value;
      var plain := BuildCronJobForPods(sj, index, owner, cfg).value;
      && |r.value| == |pods|
      && forall i :: 0 <= i < |pods| ==>
        r.value[i] == plain[i].(meta := plain[i].meta.(name := "snoopy-cronjob-" + QualifiedName(pods[i])))
  {
    match BuildCronJobForPods(sj, index, owner, cfg)
    case Err(e) => Err(e)
    case Ok(plain) =>
      var pods := Targets(sj, index).value;
      Ok(seq(|pods|, i requires 0 <= i < |pods| =>
        plain[i].(meta := plain[i].meta.(name := "snoopy-cronjob-" + QualifiedName(pods[i])))))
  }

  /** The corrected CronJobs are keyed by the target pods' qualified names, in the operator's namespace. */
  lemma QualifiedKeys(sj: SnoopyJob, index: PodIndex, owner: Result<OwnerRef>, cfg: Settings)
    requires BuildQualifiedCronJobs(sj, index, owner, cfg).Ok?
    ensures var pods := Targets(sj, index).value;
      var units := BuildQualifiedCronJobs(sj, index, owner, cfg).value;
      && |units| == |pods|
      && forall i :: 0 <= i < |units| ==>
           KeyOf(CronJobMeta(units[i])) == Key(OperatorNamespace, "snoopy-cronjob-" + QualifiedNames(pods)[i])
  {
    var plain := BuildCronJobForPods(sj, index, owner, cfg).value;
    var pods := Targets(sj, index).value;
    forall i | 0 <= i < |pods|
      ensures plain[i].meta.namespace == OperatorNamespace
    {
    }
  }

  function QualifiedNames(pods: seq<Pod>): (r: seq<string>)
    ensures |r| == |pods| && forall i :: 0 <= i < |pods| ==> r[i] == QualifiedName(pods[i])
  {
    seq(|pods|, i requires 0 <= i < |pods| => QualifiedName(pods[i]))
  }

  /** Pods that are distinct objects, in dot-free namespaces, have distinct qualified names. */
  lemma QualifiedNamesDistinct(pods: seq<Pod>)
    requires forall i :: 0 <= i < |pods| ==> Text.NoChar(pods[i].meta.namespace, '.')
    requires forall i, j :: 0 <= i < j < |pods| ==>
      pods[i].meta.namespace != pods[j].meta.namespace || pods[i].meta.name != pods[j].meta.name
    ensures forall i, j :: 0 <= i < j < |pods| ==> QualifiedNames(pods)[i] != QualifiedNames(pods)[j]
  {
    forall i, j | 0 <= i < j < |pods|
      ensures QualifiedName(pods[i]) != QualifiedName(pods[j])
    {
      QualifiedNameInjective(pods[i], pods[j]);
    }
  }

  /**
   * With the corrected names, target pods that are distinct objects (no two
   * share both namespace and name) each get their own CronJob: a pass with
   * no injected failure and none of these CronJobs present stores every one
   * under its own key.
   */
  lemma QualifiedCronJobsConverge(sj: SnoopyJob, index: PodIndex, owner: Result<OwnerRef>, cfg: Settings, st: Store<CronJob>)
    requires BuildQualifiedCronJobs(sj, index, owner, cfg).Ok?
    requires var pods := Targets(sj, index).value;
      && (forall i :: 0 <= i < |pods| ==> Text.NoChar(pods[i].meta.namespace, '.'))
      && (forall i, j :: 0 <= i < j < |pods| ==>
            pods[i].meta.namespace != pods[j].meta.namespace || pods[i].meta.name != pods[j].meta.name)
    requires var units := BuildQualifiedCronJobs(sj, index, owner, cfg).value;
      Healthy(st.faults, KeysOf(units, CronJobMeta)) && KeysOf(units, CronJobMeta) !! st.objects.Keys
    ensures var pods := Targets(sj, index).value;
      var units := BuildQualifiedCronJobs(sj, index, owner, cfg).value;
      var r := ReconcileCronJobs(sj, units, st);
      && r.err == None
      && forall i :: 0 <= i < |pods| ==>
           var k := Key(OperatorNamespace, "snoopy-cronjob-" + QualifiedName(pods[i]));
           k in r.store.objects && r.store.objects[k] == units[i]
  {
    var pods := Targets(sj, index).value;
    var units := BuildQualifiedCronJobs(sj, index, owner, cfg).value;
    QualifiedKeys(sj, index, owner, cfg);
    QualifiedNamesDistinct(pods);
    KeysOfPrefixed(units, CronJobMeta, OperatorNamespace, "snoopy-cronjob-", QualifiedNames(pods));
    CreateMissingCompletes(st, sj.status.cronJobList, units, CronJobMeta, false);
    CreateMissingStoresEach(st, sj.status.cronJobList, units, CronJobMeta, false);
  }
}
