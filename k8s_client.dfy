/** The bootstrap Kubernetes client: connection building, node and pod
    queries, CSR listing and approval, the etcd non-HA override, and the
    `oc` command bridge. Every operation is given the replies of the API
    server or of the host executor it consults and returns, besides Go's
    results, the requests it issued, in order. */
module K8sClient {
  import opened Errors
  import opened Kube
  import EtcdPatch

  // ---------------------------------------------------------------------
  // Passing a collaborator's reply back to the caller

  /** The mapping every query uses: the collaborator's error comes back
      unchanged; with an error the value is the operation's zero value,
      whatever the collaborator returned beside it; without one it is the
      collaborator's value. */
  predicate Relays<T(==)>(reply: Reply<T>, ret: Reply<T>, zero: T) {
    && ret.err == reply.err
    && (reply.err.Some? ==> ret.value == zero)
    && (reply.err.None? ==> ret.value == reply.value)
  }

  /** The same mapping for an operation that returns a pointer: nil with an
      error, the collaborator's object without one. */
  predicate RelaysOrNil<T(==)>(reply: Reply<T>, ret: Reply<Option<T>>) {
    && ret.err == reply.err
    && (reply.err.Some? ==> ret.value.None?)
    && (reply.err.None? ==> ret.value == Some(reply.value))
  }

  function Relay<T(==)>(reply: Reply<T>, zero: T): (ret: Reply<T>)
    ensures Relays(reply, ret, zero)
  {
    if reply.err.Some? then Reply(zero, reply.err) else Reply(reply.value, None)
  }

  function RelayOrNil<T(==)>(reply: Reply<T>): (ret: Reply<Option<T>>)
    ensures RelaysOrNil(reply, ret)
    ensures ret.err.Some? <==> ret.value.None?
  {
    if reply.err.Some? then Reply(None, reply.err) else Reply(Some(reply.value), None)
  }

  // ---------------------------------------------------------------------
  // NewK8SClient

  /** The `k8sClient` struct. Its zero value, which construction returns
      beside an error, has every sub-client nil. */
  datatype Client = Client(
    core: Option<Clientset>,
    operator: Option<OperatorClientset>,
    csr: Option<CsrClient>)
  {
    predicate Usable() {
      core.Some? && operator.Some? && csr.Some?
    }
  }

  const ZeroClient := Client(None, None, None)

  const LoadingKubeconfig := "loading kubeconfig"
  const CreatingClient := "creating a Kubernetes client"

  /** The construction stages an error message can name. The two client
      stages share one message. */
  datatype Stage = LoadKubeconfig | CreateClient

  function StageContext(s: Stage): string {
    match s
    case LoadKubeconfig => LoadingKubeconfig
    case CreateClient => CreatingClient
  }

  /** Reads the failed stage back off an error message. */
  function StageOf(msg: string): Option<Stage> {
    if StartsWith(msg, LoadingKubeconfig + ": ") then Some(LoadKubeconfig)
    else if StartsWith(msg, CreatingClient + ": ") then Some(CreateClient)
    else None
  }

  /** A construction error names its stage, whatever the underlying error. */
  lemma ConstructionErrorNamesStage(e: Error, s: Stage)
    ensures StageOf(Message(Wrap(e, StageContext(s)))) == Some(s)
  {
    assert LoadingKubeconfig[0] == 'l' && CreatingClient[0] == 'c';
    match s
    case LoadKubeconfig => WrappedPrefix(e, LoadingKubeconfig, CreatingClient, 0);
    case CreateClient => WrappedPrefix(e, CreatingClient, LoadingKubeconfig, 0);
  }

  /** The error a failed construction stage returns: the cause wrapped with
      the stage's message, which names that stage. */
  function StageError(e: Error, s: Stage): (w: Error)
    ensures w == Wrap(e, StageContext(s))
    ensures StageOf(Message(w)) == Some(s)
  {
    ConstructionErrorNamesStage(e, s);
    Wrap(e, StageContext(s))
  }

  /** The requests a full construction issues, in order: both clients are
      built from the one loaded configuration. */
  function ConnectPlan(configPath: string, config: RestConfig): seq<Call> {
    [BuildConfigFromFlags("", configPath), NewKubernetesClient(config), NewOperatorClient(config)]
  }

  lemma ConnectPlanPrefixes(configPath: string, config: RestConfig)
    ensures ConnectPlan(configPath, config)[..1] == [BuildConfigFromFlags("", configPath)]
    ensures ConnectPlan(configPath, config)[..2]
         == [BuildConfigFromFlags("", configPath), NewKubernetesClient(config)]
    ensures ConnectPlan(configPath, config)[..3] == ConnectPlan(configPath, config)
  {
  }

  /** Loads the kubeconfig, then builds the core client, then the operator
      client, stopping at the first failure. `load`, `core` and `operator`
      are what the three builders answer. */
  method NewK8SClient(
    configPath: string,
    load: Reply<RestConfig>,
    core: Reply<Clientset>,
    operator: Reply<OperatorClientset>)
    returns (client: Client, err: Option<Error>, calls: seq<Call>)
    ensures err.None? <==> load.err.None? && core.err.None? && operator.err.None?
    ensures err.None? <==> client.Usable()
    ensures err.Some? ==> client == ZeroClient
    ensures err.None? ==>
      client == Client(Some(core.value), Some(operator.value), Some(CsrClient(core.value)))
    // a stage is attempted only when every earlier one succeeded
    ensures 1 <= |calls| <= 3 && calls == ConnectPlan(configPath, load.value)[..|calls|]
    ensures |calls| == if load.err.Some? then 1 else if core.err.Some? then 2 else 3
    ensures load.err.Some? ==> err == Some(Wrap(load.err.value, LoadingKubeconfig))
    ensures load.err.None? && core.err.Some? ==> err == Some(Wrap(core.err.value, CreatingClient))
    ensures load.err.None? && core.err.None? && operator.err.Some? ==>
      err == Some(Wrap(operator.err.value, CreatingClient))
    ensures err.Some? ==>
      StageOf(Message(err.value)) == Some(if load.err.Some? then LoadKubeconfig else CreateClient)
  {
    ConnectPlanPrefixes(configPath, load.value);
    calls := [BuildConfigFromFlags("", configPath)];
    if load.err.Some? {
      return ZeroClient, Some(StageError(load.err.value, LoadKubeconfig)), calls;
    }
    var config := load.value;
    calls := calls + [NewKubernetesClient(config)];
    if core.err.Some? {
      return ZeroClient, Some(StageError(core.err.value, CreateClient)), calls;
    }
    calls := calls + [NewOperatorClient(config)];
    if operator.err.Some? {
      return ZeroClient, Some(StageError(operator.err.value, CreateClient)), calls;
    }
    var csrClient := CsrClient(core.value);
    client := Client(Some(core.value), Some(operator.value), Some(csrClient));
    err := None;
  }

  // ---------------------------------------------------------------------
  // Nodes

  /** The well-known master role label, as a presence-only selector. */
  const MasterLabelSelector := "node-role.kubernetes.io/master"

  /** Lists the master nodes; a failed list gives an empty node list, not
      a nil one. */
  function ListMasterNodes(reply: Reply<NodeList>): (x: Exchange<Reply<NodeList>>)
    ensures x.calls == [NodesList(ListOptions(MasterLabelSelector))]
    ensures Relays(reply, x.ret, NodeList([]))
  {
    Exchange([NodesList(ListOptions(MasterLabelSelector))], Relay(reply, NodeList([])))
  }

  /** Lists every node: the request carries no selector. */
  function ListNodes(reply: Reply<NodeList>): (x: Exchange<Reply<NodeList>>)
    ensures x.calls == [NodesList(ListOptions(""))]
    ensures Relays(reply, x.ret, NodeList([]))
  {
    Exchange([NodesList(ListOptions(""))], Relay(reply, NodeList([])))
  }

  // ---------------------------------------------------------------------
  // The etcd non-HA override

  const EtcdResource := "cluster"
  const PatchFailed := "Failed to patch etcd"
  const UnPatchFailed := "Failed to unpatch etcd"

  datatype Direction = Enable | Disable

  /** Reads back off an error message which of the two patches failed. */
  function DirectionOf(msg: string): Option<Direction> {
    if StartsWith(msg, PatchFailed + ": ") then Some(Enable)
    else if StartsWith(msg, UnPatchFailed + ": ") then Some(Disable)
    else None
  }

  /** The two patch errors are told apart by their message alone. */
  lemma PatchErrorsNameDirection(e: Error)
    ensures DirectionOf(Message(Wrap(e, PatchFailed))) == Some(Enable)
    ensures DirectionOf(Message(Wrap(e, UnPatchFailed))) == Some(Disable)
  {
    assert PatchFailed[10] == 'p' && UnPatchFailed[10] == 'u';
    WrappedPrefix(e, PatchFailed, UnPatchFailed, 10);
    WrappedPrefix(e, UnPatchFailed, PatchFailed, 10);
  }

  /** Merge-patches the `cluster` etcd resource to allow a non-HA etcd. */
  function PatchEtcd(reply: Reply<Etcd>): (x: Exchange<Option<Error>>)
    ensures x.calls == [EtcdsPatch(EtcdResource, MergePatch, EtcdPatch.PatchData)]
    ensures x.calls[0].data == EtcdPatch.Text(EtcdPatch.EnableOverride())
    ensures x.ret.None? <==> reply.err.None?
    ensures reply.err.Some? ==> x.ret == Some(Wrap(reply.err.value, PatchFailed))
    ensures x.ret.Some? ==> DirectionOf(Message(x.ret.value)) == Some(Enable)
  {
    EtcdPatch.EnableOverrideIsPatchData();
    var call := EtcdsPatch(EtcdResource, MergePatch, EtcdPatch.PatchData);
    if reply.err.Some? then
      PatchErrorsNameDirection(reply.err.value);
      Exchange([call], Some(Wrap(reply.err.value, PatchFailed)))
    else
      Exchange([call], None)
  }

  /** Merge-patches the `cluster` etcd resource to drop the overrides again. */
  function UnPatchEtcd(reply: Reply<Etcd>): (x: Exchange<Option<Error>>)
    ensures x.calls == [EtcdsPatch(EtcdResource, MergePatch, EtcdPatch.UnPatchData)]
    ensures x.calls[0].data == EtcdPatch.Text(EtcdPatch.DisableOverride())
    ensures x.ret.None? <==> reply.err.None?
    ensures reply.err.Some? ==> x.ret == Some(Wrap(reply.err.value, UnPatchFailed))
    ensures x.ret.Some? ==> DirectionOf(Message(x.ret.value)) == Some(Disable)
  {
    EtcdPatch.DisableOverrideIsUnPatchData();
    var call := EtcdsPatch(EtcdResource, MergePatch, EtcdPatch.UnPatchData);
    if reply.err.Some? then
      PatchErrorsNameDirection(reply.err.value);
      Exchange([call], Some(Wrap(reply.err.value, UnPatchFailed)))
    else
      Exchange([call], None)
  }

  /** Enabling and disabling send different bodies to the same resource;
      `EtcdPatch.PatchesStayInsideOverrides` shows both bodies stay inside
      `spec.unsupportedConfigOverrides`. */
  lemma PatchPairTargetsOverridesOnly(r1: Reply<Etcd>, r2: Reply<Etcd>)
    ensures PatchEtcd(r1).calls[0].resource == UnPatchEtcd(r2).calls[0].resource == EtcdResource
    ensures PatchEtcd(r1).calls[0].data != UnPatchEtcd(r2).calls[0].data
  {
    assert |EtcdPatch.PatchData| != |EtcdPatch.UnPatchData|;
  }

  // ---------------------------------------------------------------------
  // The `oc` command bridge

  const OcCommand := "oc"
  const KubeconfigFlag := "--kubeconfig="

  /** The argument list `oc` is run with: the kubeconfig flag, then the
      caller's arguments in their order. */
  function OcArgs(args: seq<string>, kubeconfigPath: string): (argv: seq<string>)
    ensures |argv| == |args| + 1
    ensures argv[0] == KubeconfigFlag + kubeconfigPath
    ensures argv[1..] == args
  {
    [KubeconfigFlag + kubeconfigPath] + args
  }

  /** The inverse of `OcArgs`: recovers the path and the caller's arguments. */
  function SplitOcArgs(argv: seq<string>): Option<(string, seq<string>)> {
    if |argv| >= 1 && StartsWith(argv[0], KubeconfigFlag)
    then Some((argv[0][|KubeconfigFlag|..], argv[1..]))
    else None
  }

  lemma OcArgsRoundTrip(args: seq<string>, kubeconfigPath: string)
    ensures SplitOcArgs(OcArgs(args, kubeconfigPath)) == Some((kubeconfigPath, args))
  {
    var argv := OcArgs(args, kubeconfigPath);
    assert argv[0][..|KubeconfigFlag|] == KubeconfigFlag;
    assert argv[0][|KubeconfigFlag|..] == kubeconfigPath;
  }

  /** Runs `oc` through the privileged executor with the kubeconfig flag
      prepended. `exec` is what the executor answers; its output is passed
      back verbatim, and its error unwrapped with an empty output. */
  function RunOCctlCommand(args: seq<string>, kubeconfigPath: string, exec: Reply<string>)
    : (x: Exchange<Reply<string>>)
    ensures x.calls == [ExecPrivilegeCommand(OcCommand, OcArgs(args, kubeconfigPath))]
    ensures Relays(exec, x.ret, "")
  {
    Exchange([ExecPrivilegeCommand(OcCommand, OcArgs(args, kubeconfigPath))], Relay(exec, ""))
  }

  lemma RunOCctlCommandGetNodes(exec: Reply<string>)
    ensures RunOCctlCommand(["get", "nodes"], "/tmp/kubeconfig", exec).calls
         == [ExecPrivilegeCommand("oc", ["--kubeconfig=/tmp/kubeconfig", "get", "nodes"])]
  {
    var flag := KubeconfigFlag + "/tmp/kubeconfig";
    assert flag == "--kubeconfig=/tmp/kubeconfig";
    assert OcArgs(["get", "nodes"], "/tmp/kubeconfig") == [flag] + ["get", "nodes"];
    assert [flag] + ["get", "nodes"] == [flag, "get", "nodes"];
  }

  // ---------------------------------------------------------------------
  // Certificate signing requests

  /** Lists every CSR, unfiltered; nil on failure. */
  function ListCsrs(reply: Reply<CsrList>): (x: Exchange<Reply<Option<CsrList>>>)
    ensures x.calls == [CsrsList(ListOptions(""))]
    ensures RelaysOrNil(reply, x.ret)
  {
    Exchange([CsrsList(ListOptions(""))], RelayOrNil(reply))
  }

  const ApprovalReason := "NodeCSRApprove"
  const ApprovalMessage := "This CSR was approved by the assisted-installer-controller"

  function ApprovalCondition(now: Time): CsrCondition {
    CsrCondition(Approved, ApprovalReason, ApprovalMessage, now)
  }

  /** The condition list after approval: the earlier conditions, unchanged
      and in order, then one approval condition stamped `now`. */
  function WithApproval(conditions: seq<CsrCondition>, now: Time): (r: seq<CsrCondition>)
    ensures |r| == |conditions| + 1
    ensures r[..|conditions|] == conditions
    ensures r[|conditions|].kind == Approved
    ensures r[|conditions|].reason == ApprovalReason
    ensures r[|conditions|].message == ApprovalMessage
    ensures r[|conditions|].lastUpdateTime == now
  {
    conditions + [ApprovalCondition(now)]
  }

  predicate IsApproved(conditions: seq<CsrCondition>) {
    exists i :: 0 <= i < |conditions| && conditions[i].kind == Approved
  }

  /** Approval is additive: afterwards the CSR carries an approval whatever
      conditions it had, and each earlier condition keeps its position. */
  lemma ApprovalIsAdditive(conditions: seq<CsrCondition>, now: Time)
    ensures IsApproved(WithApproval(conditions, now))
    ensures forall i :: 0 <= i < |conditions| ==> WithApproval(conditions, now)[i] == conditions[i]
  {
    var r := WithApproval(conditions, now);
    assert r[|conditions|].kind == Approved;
    forall i | 0 <= i < |conditions| ensures r[i] == conditions[i] {
      assert r[..|conditions|][i] == r[i];
    }
  }

  /** Appends the approval condition to the caller's CSR, in place, and
      submits that same object as an approval update. `reply` is what the
      API server answers. The condition stays appended when the update
      fails, and the update's error comes back unchanged. */
  method ApproveCsr(csr: CertificateSigningRequest, now: Time, reply: Reply<CsrValue>)
    returns (err: Option<Error>, calls: seq<Call>)
    modifies csr`conditions
    ensures csr.conditions == WithApproval(old(csr.conditions), now)
    ensures unchanged(csr`name, csr`spec, csr`certificate)
    ensures calls == [CsrsUpdateApproval(csr.Value())]
    ensures err == reply.err
  {
    csr.conditions := csr.conditions + [ApprovalCondition(now)];
    calls := [CsrsUpdateApproval(csr.Value())];
    err := reply.err;
  }

  // ---------------------------------------------------------------------
  // Config maps and pods

  /** Reads one config map; nil on failure. */
  function GetConfigMap(namespace: string, name: string, reply: Reply<ConfigMap>)
    : (x: Exchange<Reply<Option<ConfigMap>>>)
    ensures x.calls == [ConfigMapsGet(namespace, name)]
    ensures RelaysOrNil(reply, x.ret)
  {
    Exchange([ConfigMapsGet(namespace, name)], RelayOrNil(reply))
  }

  /** Lists the pods of a namespace. `labelMatch` is a Go map that may be
      nil (`None`); `render` is the label-set formatting of client-go,
      which is not part of this model; `reply` is the API server's answer. */
  method GetPods(
    namespace: string,
    labelMatch: Option<Labels>,
    render: Labels -> string,
    reply: Reply<PodList>)
    returns (pods: Option<seq<Pod>>, err: Option<Error>, calls: seq<Call>)
    ensures |calls| == 1 && calls[0].PodsList? && calls[0].podNamespace == namespace
    ensures labelMatch.None? ==> calls[0].podOpts == ListOptions("")
    ensures labelMatch.Some? ==> calls[0].podOpts == ListOptions(render(labelMatch.value))
    ensures err == reply.err
    ensures err.Some? ==> pods.None?
    ensures err.None? ==> pods == Some(reply.value.items)
  {
    var listOptions := ListOptions("");
    if labelMatch.Some? {
      var matchLabels := labelMatch.value;
      listOptions := listOptions.(labelSelector := render(matchLabels));
    }
    calls := [PodsList(namespace, listOptions)];
    if reply.err.Some? {
      return None, reply.err, calls;
    }
    return Some(reply.value.items), None, calls;
  }

  /** The log options `GetPodLogs` requests. */
  predicate LogWindow(opts: PodLogOptions, sinceSeconds: int64) {
    && (opts.sinceSeconds.Some? <==> sinceSeconds > 0)
    && (opts.sinceSeconds.Some? ==> opts.sinceSeconds.value == sinceSeconds)
  }

  /** Reads a pod's logs, bounded to the last `sinceSeconds` seconds when that
      is positive. `openErr` is the error opening the stream gives (`None`
      when it opens); `drained` is what copying the opened stream into the
      buffer gives: the bytes copied and the copy error. The stream is closed
      exactly when it was opened, after the copy. */
  method GetPodLogs(
    namespace: string,
    podName: string,
    sinceSeconds: int64,
    openErr: Option<Error>,
    drained: Reply<string>)
    returns (logs: string, err: Option<Error>, calls: seq<Call>)
    ensures 1 <= |calls| && calls[0].PodLogsStream?
    ensures calls[0].logNamespace == namespace && calls[0].pod == podName
    ensures LogWindow(calls[0].logOpts, sinceSeconds)
    ensures openErr.Some? ==> |calls| == 1 && logs == "" && err == openErr
    ensures openErr.None? ==> calls[1..] == [StreamCopy, StreamClose]
    ensures openErr.None? ==> Relays(drained, Reply(logs, err), "")
    ensures StreamClose in calls <==> openErr.None?
  {
    var podLogOpts := PodLogOptions(None);
    if sinceSeconds > 0 {
      podLogOpts := podLogOpts.(sinceSeconds := Some(sinceSeconds));
    }
    calls := [PodLogsStream(namespace, podName, podLogOpts)];
    if openErr.Some? {
      return "", openErr, calls;
    }
    // the deferred Close runs after the copy on both paths below
    calls := calls + [StreamCopy, StreamClose];
    var buf := drained.value;
    if drained.err.Some? {
      return "", drained.err, calls;
    }
    return buf, None, calls;
  }
}
