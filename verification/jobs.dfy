/**
 * The SnoopyJob reconciler's object builders: the job template that runs the
 * podtracer agent next to one target pod, the one-shot Job and the recurring
 * CronJob wrapped around it.
 */
module SnoopyJobTemplates {
  import opened Kube
  import opened Agent

  /** The agent pod: one privileged podtracer container pinned to `node`, with /proc and the CRI-O socket mounted. */
  function AgentPod(cfg: Settings, args: seq<string>, node: string): PodTemplateSpec {
    PodTemplateSpec(
      Meta("snoopy-worker", "", map["app" := "go-remote"]),
      PodSpec(
        node, cfg.serviceAccountName, "Never",
        [Container("podtracer", cfg.podtracerImage, true, [AgentBinary], args, true,
                   [ProcMount, CrioSockMount], [])],
        [ProcVolume, CrioSockVolume]))
  }

  /** The job template for the target pod `pod` on node `node`; it never fails. */
  function JobTemplateFor(cfg: Settings, args: seq<string>, pod: string, node: string): (r: Result<JobTemplateSpec>)
    ensures r.Ok?
    ensures r.value.meta == Meta("snoopy-job-" + pod, OperatorNamespace, map["snoopyJob" := "SnoopyJob"])
    ensures RunsAgent(r.value.Workload(), node, args)
    ensures r.value.Workload().containers[0].mounts == [ProcMount, CrioSockMount]
    ensures r.value.Workload().volumes == [ProcVolume, CrioSockVolume]
  {
    Ok(JobTemplateSpec(
      Meta("snoopy-job-" + pod, OperatorNamespace, map["snoopyJob" := "SnoopyJob"]),
      JobSpec(AgentPod(cfg, args, node))))
  }

  /** The one-shot Job: exactly the template's metadata and spec; it never fails. */
  function JobFor(cfg: Settings, args: seq<string>, pod: string, node: string): (r: Result<Job>)
    ensures r.Ok?
    ensures r.value.meta == JobTemplateFor(cfg, args, pod, node).value.meta
    ensures r.value.spec == JobTemplateFor(cfg, args, pod, node).value.spec
  {
    var t := JobTemplateFor(cfg, args, pod, node).value;
    Ok(Job(t.meta, t.spec))
  }

  /** The recurring CronJob: schedule passed through, Replace on overlap, the job template inside; it never fails. */
  function CronJobFor(cfg: Settings, args: seq<string>, pod: string, node: string, schedule: string): (r: Result<CronJob>)
    ensures r.Ok?
    ensures r.value.meta == Meta("snoopy-cronjob-" + pod, OperatorNamespace, map["snoopyCronJob" := "SnoopyJob"])
    ensures r.value.spec.schedule == schedule
    ensures r.value.spec.concurrencyPolicy == Replace
    ensures r.value.spec.jobTemplate == JobTemplateFor(cfg, args, pod, node).value
  {
    var t := JobTemplateFor(cfg, args, pod, node).value;
    Ok(CronJob(
      Meta("snoopy-cronjob-" + pod, OperatorNamespace, map["snoopyCronJob" := "SnoopyJob"]),
      CronJobSpec(schedule, Replace, t)))
  }

  /** Every mount of the agent pod is backed by a declared volume, and volume names are unique. */
  lemma AgentPodWellFormed(cfg: Settings, args: seq<string>, pod: string, node: string, schedule: string)
    ensures MountsBacked(JobTemplateFor(cfg, args, pod, node).value.Workload())
    ensures VolumeNamesUnique(JobTemplateFor(cfg, args, pod, node).value.Workload())
    ensures CronJobFor(cfg, args, pod, node, schedule).value.Workload() == JobFor(cfg, args, pod, node).value.Workload()
  {
    var spec := JobTemplateFor(cfg, args, pod, node).value.Workload();
    forall c, m | c in spec.containers && m in c.mounts
      ensures exists v :: v in spec.volumes && v.name == m.name
    {
      if m == ProcMount {
        assert ProcVolume in spec.volumes;
      } else {
        assert CrioSockVolume in spec.volumes;
      }
    }
  }
}
