/** A reference provider whose state is a map from monitor name to monitor.
    It answers the service's calls the way a real monitoring backend does (a
    lookup of an unknown name is `MonitorNotFound`, a create assigns an ID), and
    `ApplyAll` replays a call log against the stored state. With it, the
    service's promises about the provider's state can be stated: ensuring a
    monitor makes the store hold exactly the built monitor, deleting removes it,
    and doing either twice is the same as doing it once. */
module MonitorStore {
  import opened Outcomes
  import opened Kube
  import opened Models
  import MonitorUrl
  import opened MonitorService

  type Store = map<string, Monitor>

  /** The ID the store assigns to a created monitor. */
  function AssignedId(name: string): string
  {
    "id-" + name
  }

  /** The provider's answers for the state `s`; every monitor has the same
      source ranges. */
  function StoreProvider(s: Store, ranges: seq<string>): (p: Provider)
    ensures forall n :: n in s ==> p.get(n) == Ok(s[n])
    ensures forall n :: n !in s ==> p.get(n) == Err(MonitorNotFound)
    ensures forall n :: n !in s ==> p.delete(n) == Some(MonitorNotFound)
  {
    Provider(
      (n: string) => if n in s then Ok(s[n]) else Err(MonitorNotFound),
      (m: Monitor) => if m.name in s then Some(Failure("monitor already exists")) else None,
      (m: Monitor) => if m.name in s then None else Some(MonitorNotFound),
      (n: string) => if n in s then None else Some(MonitorNotFound),
      (m: Monitor) => Ok(ranges))
  }

  /** What one call does to the stored state. */
  function Apply(s: Store, c: ProviderCall): Store
  {
    match c
    case GetCall(_) => s
    case SourceRangesCall(_) => s
    case CreateCall(m) => if m.name in s then s else s[m.name := m.(id := AssignedId(m.name))]
    case UpdateCall(m) => if m.name in s then s[m.name := m] else s
    case DeleteCall(n) => s - {n}
  }

  /** Replays a call log, first call first. */
  function ApplyAll(s: Store, calls: seq<ProviderCall>): Store
    decreases |calls|
  {
    if |calls| == 0 then s else ApplyAll(Apply(s, calls[0]), calls[1..])
  }

  /** The service talking to the store `s`. */
  function OnStore(svc: Service, s: Store, ranges: seq<string>): Service
  {
    svc.(provider := StoreProvider(s, ranges))
  }

  /** The monitor the store holds after ensuring `m`: the built monitor under
      the existing ID, or under a fresh ID if there was none. */
  function Ensured(s: Store, m: Monitor): Monitor
  {
    m.(id := if m.name in s then s[m.name].id else AssignedId(m.name))
  }

  /** Ensuring a supported Ingress whose monitor can be built succeeds, and
      afterwards the store holds the built monitor under its name (keeping an
      existing ID) and nothing else changed. */
  lemma EnsureConverges(svc: Service, s: Store, ranges: seq<string>, ing: Ingress)
    requires MonitorUrl.IsSupported(ing) && BuildMonitorModel(svc, ing).Ok?
    ensures EnsureMonitor(OnStore(svc, s, ranges), ing).out == None
    ensures ApplyAll(s, EnsureMonitor(OnStore(svc, s, ranges), ing).calls)
            == s[BuildMonitorModel(svc, ing).value.name := Ensured(s, BuildMonitorModel(svc, ing).value)]
  {
    var m := BuildMonitorModel(svc, ing).value;
    var svc' := OnStore(svc, s, ranges);
    assert BuildMonitorModel(svc', ing) == Ok(m);
    var r := EnsureMonitor(svc', ing);
    var c := if m.name in s then UpdateCall(m.(id := s[m.name].id)) else CreateCall(m);
    assert r.calls == [GetCall(m.name), c];
    assert ApplyAll(s, r.calls) == ApplyAll(s, [c]) by {
      assert r.calls[1..] == [c];
    }
    assert ApplyAll(s, [c]) == ApplyAll(Apply(s, c), []);
  }

  /** Ensuring a second time succeeds again and leaves the store as the first
      run left it. */
  lemma EnsureIdempotent(svc: Service, s: Store, ranges: seq<string>, ing: Ingress)
    requires MonitorUrl.IsSupported(ing) && BuildMonitorModel(svc, ing).Ok?
    ensures var s1 := ApplyAll(s, EnsureMonitor(OnStore(svc, s, ranges), ing).calls);
            && EnsureMonitor(OnStore(svc, s1, ranges), ing).out == None
            && ApplyAll(s1, EnsureMonitor(OnStore(svc, s1, ranges), ing).calls) == s1
  {
    var m := BuildMonitorModel(svc, ing).value;
    EnsureConverges(svc, s, ranges, ing);
    var s1 := ApplyAll(s, EnsureMonitor(OnStore(svc, s, ranges), ing).calls);
    EnsureConverges(svc, s1, ranges, ing);
    assert Ensured(s1, m) == Ensured(s, m);
  }

  /** An unsupported Ingress leaves the store alone. */
  lemma EnsureIgnoresUnsupported(svc: Service, s: Store, ranges: seq<string>, ing: Ingress)
    requires !MonitorUrl.IsSupported(ing)
    ensures ApplyAll(s, EnsureMonitor(OnStore(svc, s, ranges), ing).calls) == s
  {
  }

  /** Deleting succeeds whether or not the monitor exists, and afterwards the
      store no longer holds it; with NoDelete the store is left alone. */
  lemma DeleteConverges(svc: Service, s: Store, ranges: seq<string>, ing: Ingress)
    requires svc.namer(ing.namespace, ing.name).Ok?
    ensures DeleteMonitor(OnStore(svc, s, ranges), ing).out == None
    ensures !svc.noDelete ==>
              ApplyAll(s, DeleteMonitor(OnStore(svc, s, ranges), ing).calls) == s - {svc.namer(ing.namespace, ing.name).value}
    ensures svc.noDelete ==> ApplyAll(s, DeleteMonitor(OnStore(svc, s, ranges), ing).calls) == s
  {
    var r := DeleteMonitor(OnStore(svc, s, ranges), ing);
    if !svc.noDelete {
      assert ApplyAll(s, r.calls) == ApplyAll(Apply(s, r.calls[0]), r.calls[1..]);
    }
  }

  /** Deleting twice is deleting once. */
  lemma DeleteIdempotent(svc: Service, s: Store, ranges: seq<string>, ing: Ingress)
    requires svc.namer(ing.namespace, ing.name).Ok?
    ensures var s1 := ApplyAll(s, DeleteMonitor(OnStore(svc, s, ranges), ing).calls);
            && DeleteMonitor(OnStore(svc, s1, ranges), ing).out == None
            && ApplyAll(s1, DeleteMonitor(OnStore(svc, s1, ranges), ing).calls) == s1
  {
    DeleteConverges(svc, s, ranges, ing);
    var s1 := ApplyAll(s, DeleteMonitor(OnStore(svc, s, ranges), ing).calls);
    DeleteConverges(svc, s1, ranges, ing);
    if !svc.noDelete {
      var n := svc.namer(ing.namespace, ing.name).value;
      assert s1 - {n} == s1;
    }
  }
}
