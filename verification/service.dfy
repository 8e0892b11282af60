/** The monitor service (`pkg/monitor/service.go`): it decides, for one Ingress,
    which provider calls to make. Each operation returns the provider calls it
    made, in order, together with its Go result, so that contracts can speak
    about what was and was not called. */
module MonitorService {
  import opened Outcomes
  import opened Kube
  import opened Models
  import MonitorUrl
  import Annotations

  /** The service's configuration: its provider, its namer, the `url.Parse`
      oracle, and the `NoDelete` option. */
  datatype Service = Service(provider: Provider, namer: Namer, parseUrl: MonitorUrl.Parser, noDelete: bool)

  /** One call into the provider. */
  datatype ProviderCall =
    | GetCall(name: string)
    | CreateCall(monitor: Monitor)
    | UpdateCall(monitor: Monitor)
    | DeleteCall(name: string)
    | SourceRangesCall(monitor: Monitor)

  /** The provider calls an operation made and what it returned. */
  datatype Run<T> = Run(calls: seq<ProviderCall>, out: T)

  predicate IsCreate(c: ProviderCall) { c.CreateCall? }
  predicate IsUpdate(c: ProviderCall) { c.UpdateCall? }
  predicate IsDelete(c: ProviderCall) { c.DeleteCall? }

  /** `buildMonitorModel`: the name comes from the namer and the URL from
      `buildURL`, in that order; the monitor carries the Ingress's annotations
      and no ID. The first failure is returned. */
  function BuildMonitorModel(svc: Service, ing: Ingress): (r: Result<Monitor>)
    requires MonitorUrl.HasHost(ing)
    ensures svc.namer(ing.namespace, ing.name).Err? ==> r == Err(svc.namer(ing.namespace, ing.name).error)
    ensures svc.namer(ing.namespace, ing.name).Ok? && MonitorUrl.BuildURL(ing, svc.parseUrl).Err? ==>
              r == Err(MonitorUrl.BuildURL(ing, svc.parseUrl).error)
    ensures r.Ok? <==> svc.namer(ing.namespace, ing.name).Ok? && MonitorUrl.BuildURL(ing, svc.parseUrl).Ok?
    ensures r.Ok? ==> r.value == Monitor("", svc.namer(ing.namespace, ing.name).value,
                                          MonitorUrl.BuildURL(ing, svc.parseUrl).value, ing.annotations)
  {
    match svc.namer(ing.namespace, ing.name)
    case Err(e) => Err(e)
    case Ok(name) =>
      match MonitorUrl.BuildURL(ing, svc.parseUrl)
      case Err(e) => Err(e)
      case Ok(url) => Ok(Monitor("", name, url, ing.annotations))
  }

  /** `createMonitor`. */
  function CreateMonitor(p: Provider, m: Monitor): (r: Run<Option<Error>>)
    ensures r.calls == [CreateCall(m)] && r.out == p.create(m)
  {
    Run([CreateCall(m)], p.create(m))
  }

  /** `updateMonitor`: the new monitor takes over the old monitor's ID. */
  function UpdateMonitor(p: Provider, previous: Monitor, m: Monitor): (r: Run<Option<Error>>)
    ensures |r.calls| == 1 && r.calls[0].UpdateCall?
    ensures r.calls[0].monitor.id == previous.id
    ensures r.calls[0].monitor.(id := m.id) == m
    ensures r.out == p.update(r.calls[0].monitor)
  {
    var updated := m.(id := previous.id);
    Run([UpdateCall(updated)], p.update(updated))
  }

  /** `deleteMonitor`: a monitor that is already gone is not an error. */
  function DeleteByName(p: Provider, name: string): (r: Run<Option<Error>>)
    ensures r.calls == [DeleteCall(name)]
    ensures p.delete(name) == Some(MonitorNotFound) ==> r.out == None
    ensures p.delete(name) != Some(MonitorNotFound) ==> r.out == p.delete(name)
  {
    var err := p.delete(name);
    Run([DeleteCall(name)], if err == Some(MonitorNotFound) then None else err)
  }

  /** `EnsureMonitor`: an unsupported Ingress is skipped without error and
      without touching the provider. Otherwise the provider is asked for the
      monitor of that name: a missing monitor is created, an existing one is
      updated under its old ID, and any other lookup error is returned with
      nothing created or updated. */
  function EnsureMonitor(svc: Service, ing: Ingress): (r: Run<Option<Error>>)
    ensures !MonitorUrl.IsSupported(ing) ==> r == Run([], None)
    ensures MonitorUrl.IsSupported(ing) && BuildMonitorModel(svc, ing).Err? ==>
              r == Run([], Some(BuildMonitorModel(svc, ing).error))
    ensures MonitorUrl.IsSupported(ing) && BuildMonitorModel(svc, ing).Ok? ==>
              var m := BuildMonitorModel(svc, ing).value;
              var found := svc.provider.get(m.name);
              && |r.calls| >= 1 && r.calls[0] == GetCall(m.name)
              && (found == Err(MonitorNotFound) ==> r == Run([GetCall(m.name), CreateCall(m)], svc.provider.create(m)))
              && (found.Ok? ==> r == Run([GetCall(m.name), UpdateCall(m.(id := found.value.id))],
                                         svc.provider.update(m.(id := found.value.id))))
              && (found.Err? && found.error != MonitorNotFound ==> r == Run([GetCall(m.name)], Some(found.error)))
    ensures |r.calls| <= 2
    ensures forall i :: 0 <= i < |r.calls| ==> !IsDelete(r.calls[i]) && !r.calls[i].SourceRangesCall?
    ensures !(exists i :: 0 <= i < |r.calls| && IsCreate(r.calls[i]))
            || !(exists j :: 0 <= j < |r.calls| && IsUpdate(r.calls[j]))
  {
    if !MonitorUrl.IsSupported(ing) then Run([], None)
    else match BuildMonitorModel(svc, ing)
      case Err(e) => Run([], Some(e))
      case Ok(m) =>
        match svc.provider.get(m.name)
        case Err(MonitorNotFound) =>
          var created := CreateMonitor(svc.provider, m);
          Run([GetCall(m.name)] + created.calls, created.out)
        case Err(e) => Run([GetCall(m.name)], Some(e))
        case Ok(previous) =>
          var updated := UpdateMonitor(svc.provider, previous, m);
          Run([GetCall(m.name)] + updated.calls, updated.out)
  }

  /** `DeleteMonitor`: the name is rendered first (a failure is returned);
      with `NoDelete` set nothing is deleted; otherwise exactly the named
      monitor is deleted, its absence is not an error, and any other error of
      the provider is returned. */
  function DeleteMonitor(svc: Service, ing: Ingress): (r: Run<Option<Error>>)
    ensures svc.namer(ing.namespace, ing.name).Err? ==>
              r == Run([], Some(svc.namer(ing.namespace, ing.name).error))
    ensures svc.namer(ing.namespace, ing.name).Ok? && svc.noDelete ==> r == Run([], None)
    ensures svc.namer(ing.namespace, ing.name).Ok? && !svc.noDelete ==>
              r.calls == [DeleteCall(svc.namer(ing.namespace, ing.name).value)]
    ensures svc.namer(ing.namespace, ing.name).Ok? && !svc.noDelete ==>
              var err := svc.provider.delete(svc.namer(ing.namespace, ing.name).value);
              && (err == Some(MonitorNotFound) ==> r.out == None)
              && (err != Some(MonitorNotFound) ==> r.out == err)
    ensures svc.namer(ing.namespace, ing.name).Ok? ==> r.out != Some(MonitorNotFound)
  {
    match svc.namer(ing.namespace, ing.name)
    case Err(e) => Run([], Some(e))
    case Ok(name) =>
      if svc.noDelete then Run([], None)
      else DeleteByName(svc.provider, name)
  }

  /** `GetProviderIPSourceRanges`: an unsupported Ingress yields no ranges and no
      error without touching the provider; otherwise the provider is asked for
      the ranges of the monitor that would be built. */
  function GetProviderIPSourceRanges(svc: Service, ing: Ingress): (r: Run<Result<seq<string>>>)
    ensures !MonitorUrl.IsSupported(ing) ==> r == Run([], Ok([]))
    ensures MonitorUrl.IsSupported(ing) && BuildMonitorModel(svc, ing).Err? ==>
              r == Run([], Err(BuildMonitorModel(svc, ing).error))
    ensures MonitorUrl.IsSupported(ing) && BuildMonitorModel(svc, ing).Ok? ==>
              r == Run([SourceRangesCall(BuildMonitorModel(svc, ing).value)],
                       svc.provider.ipSourceRanges(BuildMonitorModel(svc, ing).value))
  {
    if !MonitorUrl.IsSupported(ing) then Run([], Ok([]))
    else match BuildMonitorModel(svc, ing)
      case Err(e) => Run([], Err(e))
      case Ok(m) => Run([SourceRangesCall(m)], svc.provider.ipSourceRanges(m))
  }

  /** The service of the tests: default namer, plain URL parser. */
  function TestService(p: Provider, noDelete: bool): Service
  {
    Service(p, DefaultNamer(), MonitorUrl.PlainParse, noDelete)
  }

  /** The Ingress of the service tests. */
  function TestIngress(): Ingress
  {
    RuleIngress("kube-system", "foo", map["ingress-monitor.bonial.com/enabled" := "true"], TestHost)
  }

  /** The host of the service tests' Ingress. */
  const TestHost: string := "foo.bar.baz"

  /** The URL the service tests expect: plain http, no path. */
  lemma TestIngressUrl()
    ensures MonitorUrl.IsSupported(TestIngress())
    ensures MonitorUrl.BuildURL(TestIngress(), MonitorUrl.PlainParse) == Ok("http://" + TestHost)
  {
    var enabled, h := "ingress-monitor.bonial.com/enabled", TestHost;
    assert Annotations.ForceHTTPS != enabled by {
      assert Annotations.ForceHTTPS[27] != enabled[27];
    }
    assert MonitorUrl.NginxForceSSLRedirect != enabled by {
      assert |MonitorUrl.NginxForceSSLRedirect| != |enabled|;
    }
    assert Annotations.PathOverride != enabled by {
      assert Annotations.PathOverride[27] != enabled[27];
    }
    assert MonitorUrl.PlainHost(h) && '*' !in h by {
      TestHostIsPlain();
    }
    assert TestIngress() == RuleIngress("kube-system", "foo", map[enabled := "true"], h);
    MonitorUrl.PlainRuleURL("kube-system", "foo", map[enabled := "true"], h);
  }

  /** The test host is a plain host name without a wildcard. */
  lemma TestHostIsPlain()
    ensures MonitorUrl.PlainHost(TestHost) && '*' !in TestHost
  {
  }

  /** The monitor the service tests expect to be built. */
  lemma TestMonitorBuilt(p: Provider, noDelete: bool)
    ensures MonitorUrl.IsSupported(TestIngress())
    ensures BuildMonitorModel(TestService(p, noDelete), TestIngress())
              == Ok(Monitor("", "kube-system-foo", "http://" + TestHost, TestIngress().annotations))
  {
    TestIngressUrl();
    assert DefaultName("kube-system", "foo") == "kube-system-foo";
  }

  /** The test monitor's name and the monitor the tests expect to be built. */
  const TestName: string := "kube-system-foo"

  function TestMonitor(): Monitor
  {
    Monitor("", TestName, "http://" + TestHost, TestIngress().annotations)
  }

  /** A monitor the provider does not know is created. */
  lemma EnsureCreatesMissing(p: Provider)
    requires p.get(TestName) == Err(MonitorNotFound)
    ensures EnsureMonitor(TestService(p, false), TestIngress()).calls
            == [GetCall(TestName), CreateCall(TestMonitor())]
    ensures EnsureMonitor(TestService(p, false), TestIngress()).out == p.create(TestMonitor())
  {
    TestMonitorBuilt(p, false);
  }

  /** A monitor the provider knows is updated under its existing ID. */
  lemma EnsureUpdatesExisting(p: Provider)
    requires p.get(TestName) == Ok(Monitor("123", TestName, "http://bar.baz", map[]))
    ensures EnsureMonitor(TestService(p, false), TestIngress()).calls
            == [GetCall(TestName), UpdateCall(TestMonitor().(id := "123"))]
  {
    TestMonitorBuilt(p, false);
  }

  /** A failed lookup creates and updates nothing and is returned. */
  lemma EnsureStopsOnLookupError(p: Provider)
    requires p.get(TestName) == Err(Failure("error"))
    ensures EnsureMonitor(TestService(p, false), TestIngress()) == Run([GetCall(TestName)], Some(Failure("error")))
  {
    TestMonitorBuilt(p, false);
  }

  /** An Ingress without rules is ignored without error. */
  lemma EnsureIgnoresInvalid(p: Provider)
    ensures EnsureMonitor(TestService(p, false), MetadataOnly(NamespacedName("kube-system", "foo"))) == Run([], None)
  {
  }

  /** Deleting asks the provider to delete the named monitor; its absence is
      no error; with NoDelete nothing is deleted. */
  lemma DeleteExamples(p: Provider)
    requires p.delete(TestName) == None || p.delete(TestName) == Some(MonitorNotFound)
    ensures DeleteMonitor(TestService(p, false), MetadataOnly(NamespacedName("kube-system", "foo")))
            == Run([DeleteCall(TestName)], None)
    ensures DeleteMonitor(TestService(p, true), MetadataOnly(NamespacedName("kube-system", "foo"))) == Run([], None)
  {
    assert DefaultName("kube-system", "foo") == TestName;
  }
}
