/** The provider-neutral monitor record and the provider interface
    (`pkg/models`, `pkg/provider`). A provider is a record of functions, one per
    operation of `provider.Interface`; what a call does to the provider's own
    state is modelled separately (see MonitorStore). */
module Models {
  import opened Outcomes

  /** `models.Monitor`: the ID is assigned by the provider and is empty on a
      freshly built monitor. */
  datatype Monitor = Monitor(id: string, name: string, url: string, annotations: map<string, string>)

  /** `provider.Interface`. `get` answers `Err(MonitorNotFound)` when there is no
      monitor of that name; `create`, `update` and `delete` answer `None` on
      success. */
  datatype Provider = Provider(
    get: string -> Result<Monitor>,
    create: Monitor -> Option<Error>,
    update: Monitor -> Option<Error>,
    delete: string -> Option<Error>,
    ipSourceRanges: Monitor -> Result<seq<string>>)

  /** `Namer.Name`: renders the configured name template for an Ingress's
      namespace and name; rendering may fail. */
  type Namer = (string, string) -> Result<string>

  /** The default template `{{.Namespace}}-{{.IngressName}}`, rendered. */
  function DefaultName(namespace: string, name: string): (r: string)
    ensures |r| == |namespace| + 1 + |name|
    ensures r[..|namespace|] == namespace && r[|namespace|] == '-' && r[|namespace| + 1..] == name
  {
    namespace + "-" + name
  }

  /** The namer of the default template; it never fails. */
  function DefaultNamer(): Namer
  {
    (namespace: string, name: string) => Ok(DefaultName(namespace, name))
  }

  /** Names built from the default template identify the Ingress when the
      namespace contains no '-': the namespace is everything before the first '-'. */
  lemma DefaultNameInjective(ns1: string, n1: string, ns2: string, n2: string)
    requires '-' !in ns1 && '-' !in ns2
    requires DefaultName(ns1, n1) == DefaultName(ns2, n2)
    ensures ns1 == ns2 && n1 == n2
  {
  }

  /** Without that restriction two Ingresses can share a monitor: "a-b"/"c"
      and "a"/"b-c" both get the name "a-b-c". */
  lemma DefaultNameClash()
    ensures DefaultName("a-b", "c") == DefaultName("a", "b-c") == "a-b-c"
  {
  }
}
