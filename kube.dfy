/** The Kubernetes API objects the bootstrap client reads and writes, reduced
    to the fields it touches, and the requests it can issue to the API server
    and to the host-command executor. Both of those are oracles here: an
    operation records the requests it issues (a `Call`) and is handed the
    reply the oracle gave (a `Reply`). */
module Kube {
  import opened Errors

  newtype int64 = x: int | -0x8000_0000_0000_0000 <= x < 0x8000_0000_0000_0000

  /** A Go call's two results: a value, and an error that is nil (`None`) on
      success. A collaborator may hand back a non-zero value together with an
      error; the client decides what to do with it. */
  datatype Reply<T> = Reply(value: T, err: Option<Error>)

  type Labels = map<string, string>

  datatype Node = Node(name: string, labels: Labels)
  datatype NodeList = NodeList(items: seq<Node>)

  datatype Pod = Pod(namespace: string, name: string, labels: Labels)
  datatype PodList = PodList(items: seq<Pod>)

  datatype ConfigMap = ConfigMap(namespace: string, name: string, data: map<string, string>)

  /** The patched etcd operator resource the API server answers a patch with. */
  datatype Etcd = Etcd(name: string)

  /** `metav1.Time`, as seconds since the epoch. */
  datatype Time = Time(seconds: int)

  /** `certificates/v1beta1.RequestConditionType`. */
  datatype ConditionType = Approved | Denied | Failed

  datatype CsrCondition = CsrCondition(
    kind: ConditionType,
    reason: string,
    message: string,
    lastUpdateTime: Time)

  datatype CsrSpec = CsrSpec(request: seq<bv8>, username: string, groups: seq<string>)

  /** A snapshot of a certificate signing request: metadata name, spec, and
      status (conditions and issued certificate). */
  datatype CsrValue = CsrValue(
    name: string,
    spec: CsrSpec,
    conditions: seq<CsrCondition>,
    certificate: seq<bv8>)

  datatype CsrList = CsrList(items: seq<CsrValue>)

  /** A certificate signing request object owned by the caller, which
      `ApproveCsr` updates in place. */
  class CertificateSigningRequest {
    var name: string
    var spec: CsrSpec
    var conditions: seq<CsrCondition>
    var certificate: seq<bv8>

    constructor (v: CsrValue)
      ensures Value() == v
    {
      name, spec, conditions, certificate := v.name, v.spec, v.conditions, v.certificate;
    }

    /** The object as it would be serialized into a request right now. */
    function Value(): (v: CsrValue)
      reads this
      ensures v.conditions == conditions
    {
      CsrValue(name, spec, conditions, certificate)
    }
  }

  /** `metav1.ListOptions`; the empty selector `""` selects everything. */
  datatype ListOptions = ListOptions(labelSelector: string)

  /** `v1.PodLogOptions`; `None` is a nil `SinceSeconds`, no time bound. */
  datatype PodLogOptions = PodLogOptions(sinceSeconds: Option<int64>)

  /** `k8s.io/apimachinery/pkg/types.PatchType`. */
  datatype PatchType = JsonPatch | MergePatch | StrategicMergePatch | ApplyPatch

  /** Opaque handles produced by the connection-building collaborators. */
  datatype RestConfig = RestConfig(host: string, credential: string)
  datatype Clientset = Clientset(config: RestConfig)
  datatype OperatorClientset = OperatorClientset(config: RestConfig)
  datatype CsrClient = CsrClient(parent: Clientset)

  /** A request issued to a collaborator, named after the client-go (or
      host-operations) call that issues it. */
  datatype Call =
    | BuildConfigFromFlags(masterUrl: string, kubeconfigPath: string)
    | NewKubernetesClient(config: RestConfig)
    | NewOperatorClient(config: RestConfig)
    | NodesList(nodeOpts: ListOptions)
    | EtcdsPatch(resource: string, patchType: PatchType, data: string)
    | ExecPrivilegeCommand(command: string, args: seq<string>)
    | CsrsList(csrOpts: ListOptions)
    | CsrsUpdateApproval(csr: CsrValue)
    | ConfigMapsGet(cmNamespace: string, cmName: string)
    | PodsList(podNamespace: string, podOpts: ListOptions)
    | PodLogsStream(logNamespace: string, pod: string, logOpts: PodLogOptions)
    | StreamCopy
    | StreamClose

  /** What a pure operation does: the requests it issued, in order, and what
      it returned. */
  datatype Exchange<T> = Exchange(calls: seq<Call>, ret: T)
}
