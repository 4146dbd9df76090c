/**
 * The pod listing every job controller starts from. Each controller file
 * carries its own copy of GetRunningPodsByLabel; the copies are identical, so
 * they share this one definition: list the pods matching a label selector in
 * a namespace, fail with the API error when the List call fails, and turn an
 * empty listing into an error of its own.
 */
module PodListing {
  import opened Kube

  /** The pods the API server holds, in the order a List call returns them, and whether List fails. */
  datatype PodIndex = PodIndex(pods: seq<Pod>, listFails: bool)

  /** MatchingLabels: every selector entry is present on the pod with the same value. */
  predicate MatchesLabels(pod: Pod, selector: map<string, string>) {
    forall k :: k in selector ==> k in pod.meta.labels && pod.meta.labels[k] == selector[k]
  }

  /** InNamespace: the empty namespace lists across all namespaces. */
  predicate InNamespace(pod: Pod, namespace: string) {
    namespace == "" || pod.meta.namespace == namespace
  }

  predicate Selected(pod: Pod, selector: map<string, string>, namespace: string) {
    MatchesLabels(pod, selector) && InNamespace(pod, namespace)
  }

  function PodNames(pods: seq<Pod>): (r: seq<string>)
    ensures |r| == |pods| && forall i :: 0 <= i < |pods| ==> r[i] == pods[i].meta.name
  {
    seq(|pods|, i requires 0 <= i < |pods| => pods[i].meta.name)
  }

  /** No two pods of the list share a name. */
  predicate DistinctNames(pods: seq<Pod>) {
    forall i, j :: 0 <= i < j < |pods| ==> pods[i].meta.name != pods[j].meta.name
  }

  /** The pods a successful List call returns, in store order. */
  function Matching(pods: seq<Pod>, selector: map<string, string>, namespace: string): (r: seq<Pod>)
    ensures |r| <= |pods|
    ensures forall i :: 0 <= i < |r| ==> Selected(r[i], selector, namespace) && r[i] in pods
    decreases |pods|
  {
    if |pods| == 0 then []
    else
      var rest := Matching(pods[1..], selector, namespace);
      if Selected(pods[0], selector, namespace) then [pods[0]] + rest else rest
  }

  /** A pod is listed exactly when it is stored and selected. */
  lemma {:induction false} MatchingComplete(pods: seq<Pod>, selector: map<string, string>, namespace: string, p: Pod)
    ensures p in Matching(pods, selector, namespace) <==> p in pods && Selected(p, selector, namespace)
    decreases |pods|
  {
    if |pods| > 0 {
      MatchingComplete(pods[1..], selector, namespace, p);
      assert pods == [pods[0]] + pods[1..];
    }
  }

  /**
   * GetRunningPodsByLabel: the List error passes through unchanged, an empty
   * listing becomes NoRunningPods, and otherwise the listing is returned as is.
   */
  function RunningPods(index: PodIndex, selector: map<string, string>, namespace: string): (r: Result<seq<Pod>>)
    ensures index.listFails ==> r == Err(ApiError(ListCall))
    ensures r.Ok? ==> |r.value| > 0 && r.value == Matching(index.pods, selector, namespace)
    ensures r.Err? && !index.listFails ==> r.error == NoRunningPods
  {
    if index.listFails then Err(ApiError(ListCall))
    else
      var pods := Matching(index.pods, selector, namespace);
      if |pods| <= 0 then Err(NoRunningPods) else Ok(pods)
  }

  /** The listing succeeds exactly when List works and some stored pod is selected. */
  lemma RunningPodsSucceeds(index: PodIndex, selector: map<string, string>, namespace: string)
    ensures RunningPods(index, selector, namespace).Ok? <==>
      !index.listFails && exists p :: p in index.pods && Selected(p, selector, namespace)
  {
    var m := Matching(index.pods, selector, namespace);
    if |m| > 0 {
      MatchingComplete(index.pods, selector, namespace, m[0]);
    }
    if p :| p in index.pods && Selected(p, selector, namespace) {
      MatchingComplete(index.pods, selector, namespace, p);
    }
  }
}
