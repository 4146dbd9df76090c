/**
 * The pure parts of controllers/pcap/pod_inspect.go: stripping the runtime
 * prefix off container ids, the order in which getPid fails or panics, and
 * the empty-list rule of the label listing. The CRI-O connection and status
 * call are parameters.
 */
module PodInspect {
  import opened Kube
  import opened PodListing

  /** The length of the runtime prefix getContainerIDs drops, as in "cri-o://". */
  const RuntimePrefixLength := 8

  /** Every container id is long enough to slice off the runtime prefix. */
  predicate Sliceable(statuses: seq<ContainerStatus>) {
    forall i :: 0 <= i < |statuses| ==> |statuses[i].containerID| >= RuntimePrefixLength
  }

  /**
   * getContainerIDs: each container id without its first eight characters,
   * one per container status in order. Slicing a shorter id panics.
   */
  function ContainerIDs(statuses: seq<ContainerStatus>): (r: Outcome<seq<string>>)
    ensures r.Returned? <==> Sliceable(statuses)
    ensures r.Returned? ==>
      && |r.value| == |statuses|
      && forall i :: 0 <= i < |statuses| ==>
        statuses[i].containerID == statuses[i].containerID[..RuntimePrefixLength] + r.value[i]
    decreases |statuses|
  {
    if |statuses| == 0 then Returned([])
    else if |statuses[0].containerID| < RuntimePrefixLength then Panicked
    else
      match ContainerIDs(statuses[1..])
      case Panicked => Panicked
      case Returned(rest) => Returned([statuses[0].containerID[RuntimePrefixLength..]] + rest)
  }

  /** Ids written as an eight-character prefix followed by the runtime's own id come back as exactly those ids. */
  lemma {:induction false} ContainerIDsStripPrefix(statuses: seq<ContainerStatus>, prefix: string, ids: seq<string>)
    requires |prefix| == RuntimePrefixLength && |ids| == |statuses|
    requires forall i :: 0 <= i < |statuses| ==> statuses[i].containerID == prefix + ids[i]
    ensures ContainerIDs(statuses) == Returned(ids)
    decreases |statuses|
  {
    if |statuses| > 0 {
      ContainerIDsStripPrefix(statuses[1..], prefix, ids[1..]);
      assert (prefix + ids[0])[RuntimePrefixLength..] == ids[0];
      assert [ids[0]] + ids[1..] == ids;
    }
  }

  /**
   * getPid: the container ids are computed first, then CRI-O is dialled
   * (`connection` is its error, if any), then the first container's status is
   * asked for through `pidOf`, which stands for the status call, the JSON
   * parsing and the formatting of the pid. Indexing the first id of a pod
   * with no containers panics.
   */
  function GetPid(pod: Pod, connection: Option<Error>, pidOf: string -> Result<string>): (r: Outcome<Result<string>>)
    ensures r == Panicked <==>
      !Sliceable(pod.containerStatuses) || (connection.None? && |pod.containerStatuses| == 0)
    ensures r.Returned? && connection.Some? ==> r.value == Err(connection.value)
    ensures r.Returned? && connection.None? ==>
      r.value == pidOf(pod.containerStatuses[0].containerID[RuntimePrefixLength..])
  {
    match ContainerIDs(pod.containerStatuses)
    case Panicked => Panicked
    case Returned(ids) =>
      if connection.Some? then Returned(Err(connection.value))
      else if |ids| == 0 then Panicked
      else Returned(pidOf(ids[0]))
  }

  /** What listPodsWithMatchingLabels does: exit the process, or return pods with an optional error. */
  datatype Listing = ProcessExit | Listed(pods: seq<Pod>, err: Option<Error>)

  /**
   * listPodsWithMatchingLabels: a client that cannot be built or a failing
   * List exits the process; an empty result is an empty list plus an error.
   * The selector is the single pair `key: value`, across all namespaces.
   */
  function ListPodsWithMatchingLabels(clientReady: bool, index: PodIndex, key: string, value: string): (r: Listing)
    ensures r.ProcessExit? <==> !clientReady || index.listFails
    ensures r.Listed? ==> r.pods == Matching(index.pods, map[key := value], "")
    ensures r.Listed? ==> (r.err.Some? <==> |r.pods| == 0) && (r.err.Some? ==> r.err.value == NoRunningPods)
  {
    if !clientReady || index.listFails then ProcessExit
    else
      var pods := Matching(index.pods, map[key := value], "");
      if |pods| <= 0 then Listed([], Some(NoRunningPods)) else Listed(pods, None)
  }

  /** Every pod carrying the label pair is listed, whatever its namespace, and nothing else is. */
  lemma ListedExactly(index: PodIndex, key: string, value: string, p: Pod)
    requires !index.listFails
    ensures var r := ListPodsWithMatchingLabels(true, index, key, value);
      p in r.pods <==> p in index.pods && key in p.meta.labels && p.meta.labels[key] == value
  {
    MatchingComplete(index.pods, map[key := value], "", p);
  }
}
