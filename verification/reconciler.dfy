/** The Ingress reconciler (`pkg/controller/reconciler.go`): for a request
    naming an Ingress, it reads the Ingress and decides which one service
    call to make. Time is an integer count of nanoseconds; `now` is a parameter. */
module Reconciler {
  import opened Outcomes
  import opened Kube
  import Strconv
  import Annotations
  import MonitorService
  import opened ControllerEvents

  /** What reading the requested Ingress from the cluster gave. */
  datatype ReadResult = Found(ingress: Ingress) | Absent | ReadFailed(error: Error)

  /** `reconcile.Result`; only `RequeueAfter` is ever set, and 0 means none. */
  datatype ReconcileResult = ReconcileResult(requeueAfter: int)

  /** The service calls a reconciliation made, its result and its error. */
  datatype Reconciled = Reconciled(calls: seq<ServiceCall>, result: ReconcileResult, err: Option<Error>)

  /** `time.Until(creationTimestamp.Add(creationDelay))`: how long until the
      creation delay of the Ingress has passed. */
  function CreateAfter(ing: Ingress, creationDelay: int, now: int): int
  {
    ing.creationTimestamp + creationDelay - now
  }

  /** `Reconcile`: a missing Ingress has its monitor deleted through a
      metadata-only Ingress; an Ingress younger than the creation delay is
      requeued for when the delay has passed, with no service call; an older
      one has its monitor ensured when enabled and deleted otherwise. A read
      error and a service error are returned with an empty result. */
  function Reconcile(api: ServiceApi, key: NamespacedName, read: ReadResult, creationDelay: int, now: int): (r: Reconciled)
    ensures read.Absent? ==>
              r == Reconciled([DeleteCalled(MetadataOnly(key))], ReconcileResult(0), api.delete(MetadataOnly(key)))
    ensures read.ReadFailed? ==> r == Reconciled([], ReconcileResult(0), Some(read.error))
    ensures read.Found? && read.ingress.creationTimestamp + creationDelay > now ==>
              r == Reconciled([], ReconcileResult(read.ingress.creationTimestamp + creationDelay - now), None)
    ensures read.Found? && read.ingress.creationTimestamp + creationDelay <= now ==>
              var ing := read.ingress;
              && r.result == ReconcileResult(0)
              && |r.calls| == 1 && r.err == Answer(api, r.calls[0])
              && (Annotations.Enabled in ing.annotations && ing.annotations[Annotations.Enabled] in Strconv.TrueSpellings
                  ==> r.calls[0] == EnsureCalled(ing))
              && (!(Annotations.Enabled in ing.annotations && ing.annotations[Annotations.Enabled] in Strconv.TrueSpellings)
                  ==> r.calls[0] == DeleteCalled(ing))
    ensures r.result.requeueAfter >= 0
    ensures r.result.requeueAfter > 0 ==> r.calls == [] && r.err == None
    ensures r.err.Some? ==> r.result.requeueAfter == 0
  {
    match read
    case Absent =>
      var ing := MetadataOnly(key);
      Reconciled([DeleteCalled(ing)], ReconcileResult(0), api.delete(ing))
    case ReadFailed(e) => Reconciled([], ReconcileResult(0), Some(e))
    case Found(ing) =>
      var createAfter := CreateAfter(ing, creationDelay, now);
      if createAfter > 0 then Reconciled([], ReconcileResult(createAfter), None)
      else if Enabled(ing) then Reconciled([EnsureCalled(ing)], ReconcileResult(0), api.ensure(ing))
      else Reconciled([DeleteCalled(ing)], ReconcileResult(0), api.delete(ing))
  }

  /** The reconciliation the reconciler's tests describe: an enabled Ingress
      is annotated first; an annotation error is returned, and an Ingress
      the annotation changed is left for the next round without ensuring its
      monitor. Everything else is as in `Reconcile`. */
  function ReconcileAnnotating(api: ServiceApi, key: NamespacedName, read: ReadResult, creationDelay: int, now: int): (r: Reconciled)
    ensures !(read.Found? && read.ingress.creationTimestamp + creationDelay <= now && Enabled(read.ingress)) ==>
              r == Reconcile(api, key, read, creationDelay, now)
    ensures read.Found? && read.ingress.creationTimestamp + creationDelay <= now && Enabled(read.ingress) ==>
              var ing := read.ingress;
              && r.result == ReconcileResult(0)
              && |r.calls| >= 1 && r.calls[0] == AnnotateCalled(ing)
              && (api.annotate(ing).err.Some? ==> r.calls == [AnnotateCalled(ing)] && r.err == api.annotate(ing).err)
              && (api.annotate(ing).err.None? && api.annotate(ing).updated ==> r.calls == [AnnotateCalled(ing)] && r.err == None)
              && (api.annotate(ing).err.None? && !api.annotate(ing).updated ==>
                    r.calls == [AnnotateCalled(ing), EnsureCalled(ing)] && r.err == api.ensure(ing))
  {
    match read
    case Found(ing) =>
      if CreateAfter(ing, creationDelay, now) <= 0 && Enabled(ing) then
        var annotated := api.annotate(ing);
        if annotated.err.Some? then Reconciled([AnnotateCalled(ing)], ReconcileResult(0), annotated.err)
        else if annotated.updated then Reconciled([AnnotateCalled(ing)], ReconcileResult(0), None)
        else Reconciled([AnnotateCalled(ing), EnsureCalled(ing)], ReconcileResult(0), api.ensure(ing))
      else Reconcile(api, key, read, creationDelay, now)
    case _ => Reconcile(api, key, read, creationDelay, now)
  }

  /** When annotating changes nothing, the annotating reconciliation ensures
      or deletes exactly as `Reconcile` does, after the annotation call. */
  lemma AnnotatingAddsOnlyTheAnnotation(api: ServiceApi, key: NamespacedName, read: ReadResult, creationDelay: int, now: int)
    requires read.Found? ==> api.annotate(read.ingress) == Annotated(false, None)
    ensures var plain := Reconcile(api, key, read, creationDelay, now);
            var annotating := ReconcileAnnotating(api, key, read, creationDelay, now);
            && annotating.result == plain.result && annotating.err == plain.err
            && (annotating.calls == plain.calls || annotating.calls == [AnnotateCalled(read.ingress)] + plain.calls)
  {
  }

  /** Handling an update event after the creation delay has passed gives the
      error that reconciling the new Ingress gives, for the service of
      `pkg/monitor`, when the old and the new Ingress share their namespace
      and name. */
  lemma UpdateEventAgreesWithReconcile(svc: MonitorService.Service, previous: Ingress, ing: Ingress, creationDelay: int, now: int)
    requires previous.namespace == ing.namespace && previous.name == ing.name
    requires ing.creationTimestamp + creationDelay <= now
    ensures Handle(Of(svc), UpdateEvent(previous, Some(ing))).err
            == Reconcile(Of(svc), NamespacedName(ing.namespace, ing.name), Found(ing), creationDelay, now).err
  {
    if !Enabled(ing) {
      SameNameSameDelete(svc, previous, ing);
    }
  }

  /** Handling a delete event gives the error that reconciling the vanished
      Ingress gives. */
  lemma DeleteEventAgreesWithReconcile(svc: MonitorService.Service, ing: Ingress, creationDelay: int, now: int)
    ensures Handle(Of(svc), DeleteEvent(ing)).err
            == Reconcile(Of(svc), NamespacedName(ing.namespace, ing.name), Absent, creationDelay, now).err
  {
    SameNameSameDelete(svc, ing, MetadataOnly(NamespacedName(ing.namespace, ing.name)));
  }

  /** Deleting a monitor depends only on the Ingress's namespace and name. */
  lemma SameNameSameDelete(svc: MonitorService.Service, a: Ingress, b: Ingress)
    requires a.namespace == b.namespace && a.name == b.name
    ensures MonitorService.DeleteMonitor(svc, a) == MonitorService.DeleteMonitor(svc, b)
  {
  }

  /** The reconciler's test table, against a service that answers nil. */
  lemma ReconcileExamples(api: ServiceApi, creationDelay: int, now: int)
    requires creationDelay == 0 && now >= 0
    requires forall ing :: api.ensure(ing) == None && api.delete(ing) == None
    ensures var key := NamespacedName("kube-system", "foo");
            Reconcile(api, key, Absent, creationDelay, now)
            == Reconciled([DeleteCalled(Ingress("kube-system", "foo", 0, map[], [], []))], ReconcileResult(0), None)
    ensures var ing := Ingress("kube-system", "bar", 0, map[Annotations.Enabled := "true"], [], []);
            Reconcile(api, NamespacedName("kube-system", "bar"), Found(ing), creationDelay, now)
            == Reconciled([EnsureCalled(ing)], ReconcileResult(0), None)
    ensures var ing := Ingress("kube-system", "bar", 0, map[], [], []);
            Reconcile(api, NamespacedName("kube-system", "bar"), Found(ing), creationDelay, now)
            == Reconciled([DeleteCalled(ing)], ReconcileResult(0), None)
  {
    assert "true" in Strconv.TrueSpellings;
  }

  /** The annotating variant's tests: an unchanged Ingress gets its monitor
      ensured, a changed one does not. */
  lemma AnnotatingExamples(api: ServiceApi, updated: bool)
    requires forall ing :: api.ensure(ing) == None && api.annotate(ing) == Annotated(updated, None)
    ensures var ing := Ingress("kube-system", "bar", 0, map[Annotations.Enabled := "true"], [], []);
            ReconcileAnnotating(api, NamespacedName("kube-system", "bar"), Found(ing), 0, 0)
            == if updated then Reconciled([AnnotateCalled(ing)], ReconcileResult(0), None)
               else Reconciled([AnnotateCalled(ing), EnsureCalled(ing)], ReconcileResult(0), None)
  {
    assert "true" in Strconv.TrueSpellings;
  }

  /** An Ingress created at `now` with a one-minute creation delay is requeued
      for one minute later. */
  lemma DelayExample(api: ServiceApi, now: int)
    ensures var ing := Ingress("kube-system", "bar", now, map[Annotations.Enabled := "true"], [], []);
            Reconcile(api, NamespacedName("kube-system", "bar"), Found(ing), 60_000_000_000, now)
            == Reconciled([], ReconcileResult(60_000_000_000), None)
  {
  }
}
