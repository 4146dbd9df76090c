/**
 * The CommandJob reconciler's CronJob builder. Its agent pod also mounts a
 * scratch volume for capture output, and declares a kubeconfig volume whose
 * mount is commented out in the source, so that volume is left unmounted.
 */
module CommandJobTemplates {
  import opened Kube
  import opened Agent

  function AgentPod(cfg: Settings, args: seq<string>, node: string): PodTemplateSpec {
    PodTemplateSpec(
      Meta("snoopy-worker", "", map["app" := "go-remote"]),
      PodSpec(
        node, cfg.serviceAccountName, "Never",
        [Container("podtracer", cfg.podtracerImage, true, [AgentBinary], args, true,
                   [ProcMount, CrioSockMount, PcapDataMount], [])],
        [ProcVolume, CrioSockVolume, PcapDataVolume, KubeconfigVolume]))
  }

  /** The CronJob for target pod `pod` on `node`, running podtracer with `args` on `schedule`; it never fails. */
  function CronJobFor(cfg: Settings, args: seq<string>, pod: string, node: string, schedule: string): (r: Result<CronJob>)
    ensures r.Ok?
    ensures r.value.meta == Meta("snoopy-cronjob-" + pod, OperatorNamespace, map["snoopyCronJob" := "CommandJob"])
    ensures r.value.spec.jobTemplate.meta == Meta("snoopy-job-" + pod, OperatorNamespace, map["snoopyJob" := "CommandJob"])
    ensures r.value.spec.schedule == schedule
    ensures r.value.spec.concurrencyPolicy == Replace
    ensures RunsAgent(r.value.Workload(), node, args)
    ensures r.value.Workload().containers[0].mounts == [ProcMount, CrioSockMount, PcapDataMount]
    ensures r.value.Workload().volumes == [ProcVolume, CrioSockVolume, PcapDataVolume, KubeconfigVolume]
  {
    var template := JobTemplateSpec(
      Meta("snoopy-job-" + pod, OperatorNamespace, map["snoopyJob" := "CommandJob"]),
      JobSpec(AgentPod(cfg, args, node)));
    Ok(CronJob(
      Meta("snoopy-cronjob-" + pod, OperatorNamespace, map["snoopyCronJob" := "CommandJob"]),
      CronJobSpec(schedule, Replace, template)))
  }

  /** All three mounts are backed by declared volumes, volume names are unique, and kubeconfig is declared but unmounted. */
  lemma CronJobVolumes(cfg: Settings, args: seq<string>, pod: string, node: string, schedule: string)
    ensures MountsBacked(CronJobFor(cfg, args, pod, node, schedule).value.Workload())
    ensures VolumeNamesUnique(CronJobFor(cfg, args, pod, node, schedule).value.Workload())
    ensures Unmounted(CronJobFor(cfg, args, pod, node, schedule).value.Workload(), "kubeconfig")
  {
    var spec := CronJobFor(cfg, args, pod, node, schedule).value.Workload();
    forall c, m | c in spec.containers && m in c.mounts
      ensures exists v :: v in spec.volumes && v.name == m.name
    {
      if m == ProcMount {
        assert ProcVolume in spec.volumes;
      } else if m == CrioSockMount {
        assert CrioSockVolume in spec.volumes;
      } else {
        assert PcapDataVolume in spec.volumes;
      }
    }
    assert KubeconfigVolume in spec.volumes;
  }
}
