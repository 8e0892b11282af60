/** The controller's queue items (`pkg/controller/events.go`) and the monitor
    service as the controller drives it. An update event carries the Ingress as
    it was and as it is now; a delete event carries the Ingress that is gone.
    Handling an event makes exactly one service call, and the event's error is
    that call's answer. */
module ControllerEvents {
  import opened Outcomes
  import opened Kube
  import Text
  import Strconv
  import Annotations
  import MonitorService
  import SourceRangeWhitelist

  /** What `AnnotateIngress` answers: whether it changed the Ingress, and an error. */
  datatype Annotated = Annotated(updated: bool, err: Option<Error>)

  /** `monitor.Service` as its callers see it: each operation is a function
      from the Ingress to the operation's Go result. */
  datatype ServiceApi = ServiceApi(
    ensure: Ingress -> Option<Error>,
    delete: Ingress -> Option<Error>,
    annotate: Ingress -> Annotated)

  /** The service of `pkg/monitor` behind the interface. */
  function Of(svc: MonitorService.Service): ServiceApi
  {
    ServiceApi(
      (ing: Ingress) => MonitorService.EnsureMonitor(svc, ing).out,
      (ing: Ingress) => MonitorService.DeleteMonitor(svc, ing).out,
      (ing: Ingress) => var r := SourceRangeWhitelist.AnnotateIngress(svc, ing); Annotated(r.updated, r.err))
  }

  /** One call into the service, with the Ingress it was given. */
  datatype ServiceCall =
    | EnsureCalled(ingress: Ingress)
    | DeleteCalled(ingress: Ingress)
    | AnnotateCalled(ingress: Ingress)

  /** The error a service call answers with. */
  function Answer(api: ServiceApi, c: ServiceCall): Option<Error>
  {
    match c
    case EnsureCalled(ing) => api.ensure(ing)
    case DeleteCalled(ing) => api.delete(ing)
    case AnnotateCalled(ing) => api.annotate(ing).err
  }

  /** The monitoring annotation of an Ingress reads true. */
  predicate Enabled(ing: Ingress)
  {
    Annotations.BoolValue(ing.annotations, Annotations.Enabled, [])
  }

  /** A queue item. The new Ingress of an update event is a pointer that may be
      nil; the controller always sets it. */
  datatype Event =
    | UpdateEvent(oldIngress: Ingress, newIngress: Option<Ingress>)
    | DeleteEvent(ingress: Ingress)

  /** The service calls an event's handling made, and its error. */
  datatype Handled = Handled(calls: seq<ServiceCall>, err: Option<Error>)

  /** `handle`: an update event ensures the monitor of the new Ingress when
      that Ingress is enabled, and otherwise deletes the monitor of the OLD
      Ingress; a delete event deletes the monitor of its Ingress. */
  function Handle(api: ServiceApi, e: Event): (r: Handled)
    requires e.UpdateEvent? ==> e.newIngress.Some?
    ensures |r.calls| == 1 && r.err == Answer(api, r.calls[0])
    ensures e.DeleteEvent? ==> r.calls == [DeleteCalled(e.ingress)]
    ensures e.UpdateEvent? ==>
              var ing := e.newIngress.value;
              && (Annotations.Enabled in ing.annotations && ing.annotations[Annotations.Enabled] in Strconv.TrueSpellings
                  ==> r.calls == [EnsureCalled(ing)])
              && (!(Annotations.Enabled in ing.annotations && ing.annotations[Annotations.Enabled] in Strconv.TrueSpellings)
                  ==> r.calls == [DeleteCalled(e.oldIngress)])
    ensures !r.calls[0].AnnotateCalled?
  {
    match e
    case UpdateEvent(previous, current) =>
      if Enabled(current.value) then Handled([EnsureCalled(current.value)], api.ensure(current.value))
      else Handled([DeleteCalled(previous)], api.delete(previous))
    case DeleteEvent(ing) => Handled([DeleteCalled(ing)], api.delete(ing))
  }

  /** The Ingress an event is named after: the new one of an update event when
      it is set, else the old one; the deleted one of a delete event. */
  function Subject(e: Event): Ingress
  {
    match e
    case UpdateEvent(previous, current) => if current.Some? then current.value else previous
    case DeleteEvent(ing) => ing
  }

  /** `String`: "namespace/name" of the Ingress the event is named after. */
  function Describe(e: Event): (s: string)
    ensures |s| == |Subject(e).namespace| + 1 + |Subject(e).name|
    ensures s[..|Subject(e).namespace|] == Subject(e).namespace
    ensures s[|Subject(e).namespace|] == '/'
    ensures s[|Subject(e).namespace| + 1..] == Subject(e).name
  {
    var ing := Subject(e);
    ing.namespace + "/" + ing.name
  }

  /** Kubernetes namespaces and names hold no '/': the description then
      splits back into exactly the namespace and the name. */
  lemma DescribeNamesSubject(e: Event)
    requires '/' !in Subject(e).namespace && '/' !in Subject(e).name
    ensures Text.Split(Describe(e), '/') == [Subject(e).namespace, Subject(e).name]
  {
    var ing := Subject(e);
    assert Describe(e) == ing.namespace + ['/'] + ing.name;
    Text.SplitAfterHead(ing.namespace, ing.name, '/');
    Text.SplitWithoutSeparator(ing.name, '/');
  }

  /** Two update events with the same new Ingress are handled alike when that
      Ingress is enabled, whatever their old Ingresses. */
  lemma EnabledIgnoresOld(api: ServiceApi, a: Ingress, b: Ingress, ing: Ingress)
    requires Enabled(ing)
    ensures Handle(api, UpdateEvent(a, Some(ing))) == Handle(api, UpdateEvent(b, Some(ing)))
  {
  }

  /** An update whose new Ingress is no longer enabled is handled like the
      deletion of the old Ingress. */
  lemma DisabledDeletesOld(api: ServiceApi, previous: Ingress, ing: Ingress)
    requires !Enabled(ing)
    ensures Handle(api, UpdateEvent(previous, Some(ing))) == Handle(api, DeleteEvent(previous))
  {
  }
}
