# Bootstrap Kubernetes client — Dafny model

This project models the Kubernetes client that the assisted-installer
controller uses while it bootstraps a cluster (`src/k8s_client/k8s_client.go`).
The client does six things:

- it builds its connection from a kubeconfig;
- it lists nodes (all of them, or the masters only);
- it lists and approves certificate signing requests (CSRs);
- it turns etcd's unsupported non-HA override on and off with merge patches;
- it runs `oc` through the privileged host-command executor;
- it reads config maps, lists a namespace's pods (optionally by label) and
  reads a pod's logs.

The API server, the kubeconfig loader, the client builders and the executor
are collaborators the model cannot see. Each is an oracle. An operation
takes the reply the oracle gave as a parameter (`Reply<T>`: Go's value and
error pair). Besides Go's results, it returns the requests it issued, in
order (`seq<Call>`).

Files:

- `errors.dfy` (module `Errors`): Go errors and `pkg/errors` wrapping
  (`Wrap`, `Message`, `Cause`).
- `kube.dfy` (module `Kube`): the API objects, reduced to the fields the
  client touches; `int64`; the `Call` requests; and the caller-owned CSR
  class, `CertificateSigningRequest`.
- `etcd_patch.dfy` (module `EtcdPatch`): the two etcd merge-patch bodies as
  structured JSON, linked to the exact text the client sends.
- `k8s_client.dfy` (module `K8sClient`): the client's operations.

Form follows the source:

- `ApproveCsr` changes the caller's CSR object in place, so it is a method
  whose modifies clause names the CSR's conditions field.
- `NewK8SClient`, `GetPods` and `GetPodLogs` assign and return step by step,
  so they are methods.
- The rest only map a reply to a result, so they are functions.

Three behaviours of the code the model keeps:

- A failed construction returns the zero-value client, with every
  sub-client nil, together with the error (`k8s_client.go:55`, `:59`,
  `:63`). The model's `ZeroClient` is not `Usable()`.
- Both client-builder failures are wrapped with the same message,
  "creating a Kubernetes client" (`:59`, `:63`). So the message tells a
  kubeconfig failure from a client failure, but not the core client from
  the operator client. The request log does tell them apart.
- The patch bodies are sent with a space after each `:`, as the code's
  literals have them (`:88`, `:99`).

`Errors.Unwrap` and `Errors.Cause` are not called by the client. They model
what `pkg/errors` offers the client's callers on the errors it returns: the
annotated error and the root cause. `Errors.Wrap`'s contract states that
wrapping keeps both. `pkg/errors.Wrap` builds two layers, a stack-trace layer
around a message layer; `Errors.Unwrap` takes both layers in one step, so it
gives the annotated error where Go's `errors.Unwrap` gives the message layer.

## Model

| member | source | states |
|---|---|---|
| `K8sClient.NewK8SClient` | src/k8s_client/k8s_client.go:52-68 | nil error exactly when the kubeconfig load and both client builds succeed; then the client holds both clientsets and the CSR client derived from the core one. Otherwise it is the unusable zero value. The calls are a prefix of load, core build, operator build: a stage runs only after every earlier one succeeded, and both builds get the one loaded config. A load failure is wrapped "loading kubeconfig"; either build failure is wrapped "creating a Kubernetes client"; the message names the stage |
| `K8sClient.ConstructionErrorNamesStage` | src/k8s_client/k8s_client.go:53-64 | whatever the underlying error, the stage read back off a wrapped construction error's message is the stage that wrapped it |
| `Errors.Wrap` | src/k8s_client/k8s_client.go:55 | a wrapped error differs from the error it annotates, unwraps (both `pkg/errors` layers at once) to it, keeps its root cause, and its message is exactly the context, ": ", then that error's message |
| `K8sClient.ListMasterNodes` | src/k8s_client/k8s_client.go:70-76 | issues exactly one node list whose label selector is `node-role.kubernetes.io/master`. On error it returns an empty (non-nil) node list with the unchanged error, whatever the server sent beside it; otherwise the server's list |
| `K8sClient.ListNodes` | src/k8s_client/k8s_client.go:78-84 | issues one node list with empty options. Same result mapping: an empty list and the unchanged error on failure |
| `K8sClient.PatchEtcd` | src/k8s_client/k8s_client.go:86-95 | issues one merge patch to the resource `cluster`; its body is the structured override-enable document. Nil error exactly when the patch succeeds; otherwise the server's error wrapped "Failed to patch etcd", a message that reads back as the enable direction |
| `K8sClient.UnPatchEtcd` | src/k8s_client/k8s_client.go:97-106 | issues one merge patch to `cluster`; its body sets `unsupportedConfigOverrides` to null. Nil exactly on success; otherwise wrapped "Failed to unpatch etcd", reading back as the disable direction |
| `K8sClient.PatchErrorsNameDirection` | src/k8s_client/k8s_client.go:91-102 | the two patch errors can be told apart from their message alone |
| `K8sClient.PatchPairTargetsOverridesOnly` | src/k8s_client/k8s_client.go:88-100 | enable and disable target the same resource, `cluster`, with different bodies; where those bodies' fields lie is stated by `EtcdPatch.PatchesStayInsideOverrides` |
| `EtcdPatch.EnableOverrideIsPatchData` | src/k8s_client/k8s_client.go:88 | the enable document serializes to exactly the bytes sent. It sets `spec.unsupportedConfigOverrides.useUnsupportedUnsafeNonHANonProductionUnstableEtcd` to true, and that is its only leaf |
| `EtcdPatch.DisableOverrideIsUnPatchData` | src/k8s_client/k8s_client.go:99 | the disable document serializes to exactly the bytes sent. It sets `spec.unsupportedConfigOverrides` to null, and that is its only leaf |
| `EtcdPatch.PatchesStayInsideOverrides` | src/k8s_client/k8s_client.go:88-99 | every leaf path of either patch body starts with `spec.unsupportedConfigOverrides` |
| `K8sClient.OcArgs` | src/k8s_client/k8s_client.go:110 | argv is one longer than the caller's arguments: `--kubeconfig=<path>` first, then the caller's arguments unchanged and in order |
| `K8sClient.OcArgsRoundTrip` | src/k8s_client/k8s_client.go:110 | splitting the built argv recovers the kubeconfig path and the caller's arguments |
| `K8sClient.RunOCctlCommand` | src/k8s_client/k8s_client.go:108-116 | makes exactly one executor call, command `oc`, with the built argv. The executor's output comes back verbatim on success; on error the result is `""` with the executor's error unwrapped, even if the executor also produced output |
| `K8sClient.RunOCctlCommandGetNodes` | src/k8s_client/k8s_client.go:110-111 | `get nodes` with `/tmp/kubeconfig` runs `oc --kubeconfig=/tmp/kubeconfig get nodes` |
| `K8sClient.ListCsrs` | src/k8s_client/k8s_client.go:118-125 | issues one unfiltered CSR list; on error it returns nil with the unchanged error, otherwise the server's list |
| `K8sClient.WithApproval` | src/k8s_client/k8s_client.go:129-134 | N conditions become N+1. The first N are unchanged; the last is type Approved, reason "NodeCSRApprove", the controller's message, stamped with the given time |
| `K8sClient.ApprovalIsAdditive` | src/k8s_client/k8s_client.go:129-134 | after approval the CSR carries an Approved condition, and each earlier condition is still at its index |
| `K8sClient.ApproveCsr` | src/k8s_client/k8s_client.go:127-140 | appends the approval condition to the caller's object in place, and keeps it even when the update fails. Only the conditions field changes. The one request is an approval update of that same, already-changed object. The update's error comes back unchanged |
| `K8sClient.GetConfigMap` | src/k8s_client/k8s_client.go:142-148 | issues one get for the given namespace and name; on error it returns nil with the unchanged error |
| `K8sClient.GetPods` | src/k8s_client/k8s_client.go:150-163 | issues one pod list in the namespace. No selector when the label map is nil; the label set's rendering when it is not. On error it returns nil with the unchanged error; otherwise the list's items |
| `K8sClient.GetPodLogs` | src/k8s_client/k8s_client.go:165-184 | requests the named pod's log stream with `SinceSeconds` set exactly when `sinceSeconds > 0`, and then to that value. If the open fails: "" and that error, and nothing else is issued. If it opens: copy then close, so the stream is closed exactly when it was opened. A failed copy gives "" and the copy error, dropping the partial buffer; a full copy gives the entire stream |

## Left out

- Logging through logrus and `utils.NewLogWriter` is left out. It has no
  effect on any result. The logger argument of `NewK8SClient` is not
  modelled either.
- client-go, HTTP, kubeconfig parsing (`clientcmd.BuildConfigFromFlags`,
  `kubernetes.NewForConfig`, `operatorv1.NewForConfig`) and the executor
  are foreign code. They are oracles whose reply, success or error, is a
  parameter.
- `context.TODO()` / `context.Background()` and timeouts are left out. They
  carry no decision of this client.
- K8sClient.GetPods: the selector text comes from client-go's
  `labels.Set(...).String()`, which is not visible. It is the parameter
  `render`, so the model does not state which `key=value` pairs the
  selector holds.
- K8sClient.GetPodLogs: `io.Copy` streams byte by byte into the buffer.
  Here it is one oracle reply: the bytes copied and the copy error. The
  `string`/`[]byte` conversion is the identity on `seq<char>`.
- `metav1.Now()` reads the clock. Its value is the parameter `now` of
  `ApproveCsr`.
- The API server applies merge patches, patches twice, reconciles etcd,
  and checks versions on concurrent approval. This code does none of
  that, so the enable/disable round trip and patch idempotence on the
  server are not modelled.
- The operations take no client value. Calling one on the zero-value
  client is a nil dereference in Go, and the model does not cover it.
- Go's nil-versus-empty distinction is kept where the code returns nil on
  error: `ListCsrs` and `GetConfigMap` (pointers) and `GetPods` (a slice)
  give `None` then. The node lists are never nil in this code, so they are
  plain values. A nil pod slice inside a successful list is not
  distinguished from an empty one.
- The `K8SClient` interface, the `K8SClientBuilder` type and the generated
  executor mock (`src/ops/mock_ops.go`) hold no logic. Only the executor's
  `ExecPrivilegeCommand(logger, command, args...)` shape is used, as the
  `ExecPrivilegeCommand` request.
- There is nothing concurrent in the client, so concurrency is not modelled.
