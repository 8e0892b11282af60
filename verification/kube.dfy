/** The parts of a Kubernetes Ingress (extensions/v1beta1) that the controller
    reads. Timestamps are integers (nanoseconds); the zero value stands for an
    unset timestamp. */
module Kube {

  /** One entry of `spec.tls`. */
  datatype IngressTLS = IngressTLS(hosts: seq<string>)

  /** One entry of `spec.rules`; only its host matters here. */
  datatype IngressRule = IngressRule(host: string)

  datatype Ingress = Ingress(
    namespace: string,
    name: string,
    creationTimestamp: int,
    annotations: map<string, string>,
    tls: seq<IngressTLS>,
    rules: seq<IngressRule>)

  /** The key a reconcile request names an Ingress by. */
  datatype NamespacedName = NamespacedName(namespace: string, name: string)

  /** An Ingress that carries nothing but its namespace and name, as built for
      an object that no longer exists. */
  function MetadataOnly(key: NamespacedName): (ing: Ingress)
    ensures ing.namespace == key.namespace && ing.name == key.name
    ensures ing.annotations == map[] && ing.tls == [] && ing.rules == []
    ensures ing.creationTimestamp == 0
  {
    Ingress(key.namespace, key.name, 0, map[], [], [])
  }

  /** An Ingress with the given identity and annotations and one rule host. */
  function RuleIngress(namespace: string, name: string, annotations: map<string, string>, host: string): Ingress
  {
    Ingress(namespace, name, 0, annotations, [], [IngressRule(host)])
  }
}
