/** The queue side of the controller (`pkg/controller/controller.go`): which
    event an informer notification enqueues and with what delay, and what
    happens to a queue key after its event was handled. The informer, the
    worker loop and the rate limiter's back-off timing are not modelled. */
module Controller {
  import opened Outcomes
  import opened Kube
  import opened ControllerEvents
  import Reconciler

  /** How often a failing key is requeued before it is dropped. */
  const MaxRequeues: nat := 5

  /** What `handleError` does with a key: forget it after success, requeue it
      rate-limited, or forget it and drop the error after too many requeues. */
  datatype Disposal = Forgotten | Requeued | Dropped(error: Error)

  /** `handleError`, given the key's current requeue count. */
  function HandleError(err: Option<Error>, numRequeues: nat): (d: Disposal)
    ensures d == Forgotten <==> err == None
    ensures d == Requeued <==> err.Some? && numRequeues < MaxRequeues
    ensures d.Dropped? <==> err.Some? && numRequeues >= MaxRequeues
    ensures d.Dropped? ==> err == Some(d.error)
  {
    match err
    case None => Forgotten
    case Some(e) => if numRequeues < MaxRequeues then Requeued else Dropped(e)
  }

  /** The disposals of one key whose successive handlings answer `errs`, from a
      requeue count of `numRequeues` on: each requeue counts one more, and the
      key leaves the queue at its first disposal that is not a requeue (or
      when the answers run out). */
  function Disposals(errs: seq<Option<Error>>, numRequeues: nat): (ds: seq<Disposal>)
    ensures |ds| <= |errs|
    ensures |errs| > 0 ==> |ds| > 0
    ensures forall i :: 0 <= i < |ds| ==> ds[i] == HandleError(errs[i], numRequeues + i)
    ensures forall i :: 0 <= i < |ds| - 1 ==> ds[i] == Requeued
    decreases |errs|
  {
    if |errs| == 0 then []
    else
      var d := HandleError(errs[0], numRequeues);
      if d == Requeued then [d] + Disposals(errs[1..], numRequeues + 1) else [d]
  }

  /** A key is handled at most `MaxRequeues + 1` times: once, and again after
      each of at most `MaxRequeues` requeues. When it is handled that often it
      has left the queue. */
  lemma {:induction false} RetryBound(errs: seq<Option<Error>>, numRequeues: nat)
    requires numRequeues <= MaxRequeues
    ensures |Disposals(errs, numRequeues)| <= MaxRequeues + 1 - numRequeues
    ensures |errs| >= MaxRequeues + 1 - numRequeues ==>
              Disposals(errs, numRequeues)[|Disposals(errs, numRequeues)| - 1] != Requeued
    decreases |errs|
  {
    if |errs| > 0 && HandleError(errs[0], numRequeues) == Requeued {
      RetryBound(errs[1..], numRequeues + 1);
    }
  }

  /** The first successful handling ends the key's stay in the queue. */
  lemma {:induction false} SuccessForgets(errs: seq<Option<Error>>, numRequeues: nat, k: nat)
    requires k < |errs| && errs[k] == None
    requires forall i :: 0 <= i < k ==> errs[i].Some?
    requires numRequeues + k <= MaxRequeues
    ensures Disposals(errs, numRequeues) == seq(k, i => Requeued) + [Forgotten]
    decreases k
  {
    if k > 0 {
      SuccessForgets(errs[1..], numRequeues + 1, k - 1);
    }
  }

  /** How an event enters the queue: after a delay, or at once. */
  datatype Enqueued = AddAfter(event: Event, delay: int) | Add(event: Event)

  /** `onIngressAdded`: an update event whose old and new Ingress are both the
      added one, delayed until the creation delay has passed. */
  function OnIngressAdded(ing: Ingress, creationDelay: int, now: int): (q: Enqueued)
    ensures q.AddAfter? && q.event == UpdateEvent(ing, Some(ing))
    ensures q.delay == Reconciler.CreateAfter(ing, creationDelay, now)
  {
    AddAfter(UpdateEvent(ing, Some(ing)), Reconciler.CreateAfter(ing, creationDelay, now))
  }

  /** `onIngressUpdated`: the delay is computed from the NEW Ingress. */
  function OnIngressUpdated(previous: Ingress, ing: Ingress, creationDelay: int, now: int): (q: Enqueued)
    ensures q.AddAfter? && q.event == UpdateEvent(previous, Some(ing))
    ensures q.delay == Reconciler.CreateAfter(ing, creationDelay, now)
  {
    AddAfter(UpdateEvent(previous, Some(ing)), Reconciler.CreateAfter(ing, creationDelay, now))
  }

  /** `onIngressDeleted`: a delete event, enqueued without delay. */
  function OnIngressDeleted(ing: Ingress): (q: Enqueued)
    ensures q == Add(DeleteEvent(ing))
  {
    Add(DeleteEvent(ing))
  }

  /** The delay an add or update notification waits is the requeue time the
      reconciler answers for the new Ingress whenever it is positive, and the
      reconciler does not requeue otherwise. */
  lemma DelayMatchesReconcile(api: ServiceApi, previous: Ingress, ing: Ingress, creationDelay: int, now: int)
    ensures var q := OnIngressUpdated(previous, ing, creationDelay, now);
            var r := Reconciler.Reconcile(api, NamespacedName(ing.namespace, ing.name), Reconciler.Found(ing), creationDelay, now);
            && (q.delay > 0 <==> r.result.requeueAfter > 0)
            && (q.delay > 0 ==> r.result.requeueAfter == q.delay)
            && OnIngressAdded(ing, creationDelay, now).delay == q.delay
  {
  }

  /** Every enqueued event can be handled, and it is named after the Ingress
      the notification was about. */
  lemma EnqueuedEventsAreHandled(previous: Ingress, ing: Ingress, creationDelay: int, now: int)
    ensures var added := OnIngressAdded(ing, creationDelay, now).event;
            var updated := OnIngressUpdated(previous, ing, creationDelay, now).event;
            var deleted := OnIngressDeleted(ing).event;
            && (added.UpdateEvent? ==> added.newIngress.Some?) && Subject(added) == ing
            && (updated.UpdateEvent? ==> updated.newIngress.Some?) && Subject(updated) == ing
            && Subject(deleted) == ing
  {
  }
}
