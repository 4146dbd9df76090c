/**
 * The SnoopyDataEndpoint reconciler of
 * controllers/data/snoopydataendpoint_controller.go: a two-state finalizer
 * machine. A live endpoint gets the operator's finalizer registered; an
 * endpoint being deleted gets it removed so that deletion can complete.
 */
module DataEndpointController {
  import opened Kube
  import opened Api

  const FinalizerName := "snoopydataendpoint.job.fennecproject.io"

  /** containsString: whether `s` occurs in `xs`, scanning in order and stopping at the first hit. */
  method ContainsString(xs: seq<string>, s: string) returns (found: bool)
    ensures found <==> s in xs
  {
    var i := 0;
    while i < |xs|
      invariant 0 <= i <= |xs|
      invariant s !in xs[..i]
    {
      if xs[i] == s {
        return true;
      }
      i := i + 1;
    }
    assert xs[..i] == xs;
    return false;
  }

  /** removeString: `xs` without any occurrence of `s`, the other elements kept in order. */
  function RemoveString(xs: seq<string>, s: string): (r: seq<string>)
    ensures s !in r
    ensures forall x :: x != s ==> multiset(r)[x] == multiset(xs)[x]
    ensures |r| == |xs| - multiset(xs)[s]
    decreases |xs|
  {
    if |xs| == 0 then []
    else
      var rest := RemoveString(xs[1..], s);
      assert xs == [xs[0]] + xs[1..];
      if xs[0] == s then rest else [xs[0]] + rest
  }

  /** Removal works element by element: it distributes over concatenation, so the survivors keep their order. */
  lemma {:induction false} RemoveStringConcat(a: seq<string>, b: seq<string>, s: string)
    ensures RemoveString(a + b, s) == RemoveString(a, s) + RemoveString(b, s)
    decreases |a|
  {
    if |a| > 0 {
      var ab := a + b;
      assert ab[0] == a[0] && ab[1..] == a[1..] + b;
      RemoveStringConcat(a[1..], b, s);
      var tail := RemoveString(a[1..], s) + RemoveString(b, s);
      assert RemoveString(ab[1..], s) == tail;
      if a[0] == s {
        assert RemoveString(ab, s) == tail;
        assert RemoveString(a, s) == RemoveString(a[1..], s);
      } else {
        assert RemoveString(ab, s) == [a[0]] + tail;
        assert RemoveString(a, s) == [a[0]] + RemoveString(a[1..], s);
        assert [a[0]] + tail == ([a[0]] + RemoveString(a[1..], s)) + RemoveString(b, s);
      }
    } else {
      assert a + b == b;
    }
  }

  /** Removing an absent string returns the list unchanged. */
  lemma {:induction false} RemoveAbsent(xs: seq<string>, s: string)
    requires s !in xs
    ensures RemoveString(xs, s) == xs
    decreases |xs|
  {
    if |xs| > 0 {
      assert xs[0] != s && s !in xs[1..];
      RemoveAbsent(xs[1..], s);
      assert [xs[0]] + xs[1..] == xs;
    }
  }

  /** Removing twice is removing once. */
  lemma RemoveStringIdempotent(xs: seq<string>, s: string)
    ensures RemoveString(RemoveString(xs, s), s) == RemoveString(xs, s)
  {
    RemoveAbsent(RemoveString(xs, s), s);
  }

  /** Appending a string and removing it again gives back the original list when it was absent. */
  lemma RemoveAfterAppend(xs: seq<string>, s: string)
    requires s !in xs
    ensures RemoveString(xs + [s], s) == xs
  {
    RemoveStringConcat(xs, [s], s);
    RemoveAbsent(xs, s);
    assert RemoveString([s], s) == [];
  }

  /** What one reconcile pass hands back, and the endpoint it wrote, if it wrote one. */
  datatype EndpointPass = EndpointPass(result: CtrlResult, err: Option<Error>, written: Option<SnoopyDataEndpoint>)

  function WithFinalizers(ep: SnoopyDataEndpoint, finalizers: seq<string>): SnoopyDataEndpoint {
    ep.(meta := ep.meta.(finalizers := finalizers))
  }

  /**
   * Reconcile: NotFound ends quietly and any other fetch error is returned.
   * A live endpoint without the finalizer gets it appended; an endpoint being
   * deleted with the finalizer gets it removed. Each write is one Update,
   * whose failure is returned with requeue. Anything else writes nothing.
   */
  function Reconcile(fetched: Result<SnoopyDataEndpoint>, updateFails: bool): (r: EndpointPass)
    ensures r.result.requeue <==> fetched.Ok? && r.err.Some?
    ensures fetched.Ok? && r.err.Some? ==> r.err.value == ApiError(UpdateCall)
    ensures fetched.Err? ==> r.written == None && r.err == (if fetched.error == NotFound then None else Some(fetched.error))
    ensures fetched.Ok? ==>
      var ep := fetched.value;
      var has := FinalizerName in ep.meta.finalizers;
      && (r.err.Some? <==> updateFails && ep.meta.deleting == has)
      && (!ep.meta.deleting && !has && !updateFails ==> r.written == Some(WithFinalizers(ep, ep.meta.finalizers + [FinalizerName])))
      && (ep.meta.deleting && has && !updateFails ==> r.written == Some(WithFinalizers(ep, RemoveString(ep.meta.finalizers, FinalizerName))))
      && (ep.meta.deleting != has ==> r == EndpointPass(CtrlResult(false), None, None))
  {
    match fetched
    case Err(e) => EndpointPass(CtrlResult(false), if e == NotFound then None else Some(e), None)
    case Ok(ep) =>
      var has := FinalizerName in ep.meta.finalizers;
      if !ep.meta.deleting && !has then
        if updateFails then EndpointPass(CtrlResult(true), Some(ApiError(UpdateCall)), None)
        else EndpointPass(CtrlResult(false), None, Some(WithFinalizers(ep, ep.meta.finalizers + [FinalizerName])))
      else if ep.meta.deleting && has then
        if updateFails then EndpointPass(CtrlResult(true), Some(ApiError(UpdateCall)), None)
        else EndpointPass(CtrlResult(false), None, Some(WithFinalizers(ep, RemoveString(ep.meta.finalizers, FinalizerName))))
      else EndpointPass(CtrlResult(false), None, None)
  }

  /** After a pass that writes, the finalizer is present exactly when the endpoint is live, and nothing else changed. */
  lemma WrittenSettles(ep: SnoopyDataEndpoint)
    ensures var r := Reconcile(Ok(ep), false);
      r.written.Some? ==>
        && (FinalizerName in r.written.value.meta.finalizers <==> !ep.meta.deleting)
        && r.written.value.spec == ep.spec
        && r.written.value.meta.(finalizers := ep.meta.finalizers) == ep.meta
  {
  }

  /** A second pass over what the first pass wrote writes nothing and reports nothing, whatever Update would do. */
  lemma SecondPassQuiet(ep: SnoopyDataEndpoint, updateFails: bool)
    requires Reconcile(Ok(ep), false).written.Some?
    ensures Reconcile(Ok(Reconcile(Ok(ep), false).written.value), updateFails) == EndpointPass(CtrlResult(false), None, None)
  {
    var w := Reconcile(Ok(ep), false).written.value;
    if ep.meta.deleting {
      assert FinalizerName !in w.meta.finalizers;
    } else {
      assert FinalizerName in w.meta.finalizers;
    }
  }

  /** Registering then releasing the finalizer gives back the original finalizer list. */
  lemma RegisterThenRelease(ep: SnoopyDataEndpoint)
    requires !ep.meta.deleting && FinalizerName !in ep.meta.finalizers
    ensures var added := Reconcile(Ok(ep), false).written.value;
      var deleting := added.(meta := added.meta.(deleting := true));
      Reconcile(Ok(deleting), false).written.value.meta.finalizers == ep.meta.finalizers
  {
    RemoveAfterAppend(ep.meta.finalizers, FinalizerName);
  }
}
