/** The null provider (`pkg/provider/null`): it performs no monitor actions.
    Every lookup reports `MonitorNotFound` and every change succeeds. The
    source of this provider has no `GetIPSourceRanges`; here it offers no
    source ranges. */
module NullProvider {
  import opened Outcomes
  import opened Kube
  import opened Models
  import MonitorUrl
  import opened MonitorService

  function Null(): Provider
  {
    Provider(
      (name: string) => Err(MonitorNotFound),
      (m: Monitor) => None,
      (m: Monitor) => None,
      (name: string) => None,
      (m: Monitor) => Ok([]))
  }

  /** What the null provider answers for any name and any monitor. */
  lemma NullAnswers(name: string, m: Monitor)
    ensures Null().get(name) == Err(MonitorNotFound)
    ensures Null().create(m) == None && Null().update(m) == None
    ensures Null().delete(name) == None
    ensures Null().ipSourceRanges(m) == Ok([])
  {
  }

  /** Against the null provider, ensuring a buildable monitor always looks it
      up, finds nothing, creates it and succeeds; it never updates. */
  lemma EnsureAlwaysCreates(svc: Service, ing: Ingress)
    requires MonitorUrl.IsSupported(ing) && BuildMonitorModel(svc, ing).Ok?
    ensures EnsureMonitor(svc.(provider := Null()), ing)
            == Run([GetCall(BuildMonitorModel(svc, ing).value.name), CreateCall(BuildMonitorModel(svc, ing).value)], None)
  {
    var m := BuildMonitorModel(svc, ing).value;
    var svc' := svc.(provider := Null());
    assert svc'.provider.get(m.name) == Err(MonitorNotFound) && svc'.provider.create(m) == None by {
      assert svc'.provider == Null();
    }
    assert BuildMonitorModel(svc', ing) == Ok(m);
    var r := EnsureMonitor(svc', ing);
    assert r.calls == [GetCall(m.name), CreateCall(m)];
    assert r.out == None;
  }

  /** Against the null provider, deleting never fails once the name renders. */
  lemma DeleteNeverFails(svc: Service, ing: Ingress)
    requires svc.namer(ing.namespace, ing.name).Ok?
    ensures DeleteMonitor(svc.(provider := Null()), ing).out == None
  {
  }
}
