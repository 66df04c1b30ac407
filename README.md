# gardenctl `ssh` through a bastion pod, in Dafny

This project models `pkg/cmd/ssh_pod.go` of gardenctl. That file opens an SSH
session to a cluster node through a temporary bastion pod. It does this in six
steps:

- It records the session attributes in a `PodInstanceAttribute`: the user,
  the pod name `bastion-<user>`, and the key, `terraform/main.tf` and
  `kubeconfig.yaml` paths under the key-pair directory.
- It resolves the node's address by infrastructure type (`fetchNodeIP`).
- It asks kubectl for the status of the bastion pod.
- It reuses a `Running` pod, or removes a `Completed` one.
- Otherwise it creates a pod and polls its status at most 15 times
  (`copySSHKey`).
- It copies the key into the pod, opens the session and deletes the pod.

Every external command (bash, kubectl, gcloud, az, aliyun) is an `Event`
appended to a trace held by a `Shell` object. Every answer the outside world
gives is read from an `Environment` of oracle functions. The status oracle is
indexed by the number of status checks made so far, so each
`podStatusCheck` gets its own answer.

The model has five modules:

- `Trim` (`trim.dfy`): Go's cutset `strings.TrimLeft` and `strings.TrimRight`,
  and the two-element `filepath.Join` that the paths use.
- `Commands` (`commands.dfy`): the events, the oracles, and the `Shell` class
  with one method per kind of command.
- `Poll` (`poll.dfy`): `PollEvents`, the specification of copySSHKey's poll,
  with its bound, stopping and sleep-count lemmas.
- `NodeIP` (`node_ip.dfy`): the alicloud instance-ID derivation and `Resolve`,
  the specification of fetchNodeIP.
- `SshPod` (`ssh_pod.dfy`):
  - the `PodInstanceAttribute` class. Its methods are `fetchNodeIP`,
    `copySSHKey`, `createBastionPod`, `sshBastionPod` and
    `cleanupBastionPod`.
  - `SshToPod`, proved against `SessionTrace`, the specification of the
    whole run.
  - the lemmas that state the ordering of the whole run.

The Go methods change the fields of their receiver and issue commands one
after another. They are Dafny methods with `modifies` clauses, and each one
ensures the trace it leaves equals a specification function of the oracles
(`Resolve`, `PollEvents`, `Provision`, `Session`, `SessionTrace`). The lemmas
then state what the source promises about those functions.

## Model

| member | source | states |
|---|---|---|
| `Trim.TrimLeft` | pkg/cmd/ssh_pod.go:85 | definition of `strings.TrimLeft`: drop leading characters while they are in the cutset; its properties are the `TrimLeft…` lemmas below |
| `Trim.TrimRight` | pkg/cmd/ssh_pod.go:85 | definition of `strings.TrimRight`: drop trailing characters while they are in the cutset; its properties are the `TrimRight…` lemmas below |
| `Trim.Join` | pkg/cmd/ssh_pod.go:46-48 | definition of `filepath.Join` of a directory and a clean element; its property is `JoinShape` |
| `Trim.TrimLeftShape` | pkg/cmd/ssh_pod.go:85 | TrimLeft keeps a suffix of its input, everything it removed is in the cutset, and what it keeps does not start with a cutset character |
| `Trim.TrimRightShape` | pkg/cmd/ssh_pod.go:85 | TrimRight keeps a prefix, everything it removed is in the cutset, and what it keeps does not end with a cutset character |
| `Trim.TrimLeftUnique` | pkg/cmd/ssh_pod.go:85 | TrimLeft cuts exactly at the end of the longest run of cutset characters at the start (reference characterization) |
| `Trim.TrimRightUnique` | pkg/cmd/ssh_pod.go:85 | TrimRight cuts exactly at the start of the longest run of cutset characters at the end |
| `Trim.TrimLeftIdempotent` | pkg/cmd/ssh_pod.go:85 | trimming the left end twice removes nothing more |
| `Trim.TrimRightIdempotent` | pkg/cmd/ssh_pod.go:85 | trimming the right end twice removes nothing more |
| `Trim.JoinShape` | pkg/cmd/ssh_pod.go:46-48 | a joined path is the element below the directory, with the directory's trailing separators collapsed into exactly one; an empty directory gives the element itself |
| `NodeIP.Stem` | pkg/cmd/ssh_pod.go:85 | definition of `TrimRight(TrimLeft(NodeName, "iz"), "z")`; its property is `StemShape` |
| `NodeIP.AlicloudInstanceID` | pkg/cmd/ssh_pod.go:85 | definition of `"i-"` + the stem; its properties are `AlicloudInstanceIDCharacterized` and the four examples |
| `NodeIP.InfraOf` | pkg/cmd/ssh_pod.go:68-98 | definition of the switch's case selection; its property is `InfraOfNames` |
| `NodeIP.Resolve` | pkg/cmd/ssh_pod.go:66-99 | definition of what fetchNodeIP does per infrastructure type: the commands, the address and the instance ID; its properties are the `Resolve…` lemmas, and `FetchNodeIP` is proved against it |
| `NodeIP.StemShape` | pkg/cmd/ssh_pod.go:85 | the instance-ID stem is a contiguous piece of the node name, preceded only by `i`/`z` and followed only by `z`; it does not start with `i` or `z` and does not end with `z` |
| `NodeIP.AlicloudInstanceIDCharacterized` | pkg/cmd/ssh_pod.go:85 | for any cut of the node name into a leading `i`/`z` run, a middle and a trailing `z` run meeting those boundary conditions, the instance ID is `"i-"` + middle |
| `NodeIP.AlicloudInstanceIDExample` | pkg/cmd/ssh_pod.go:85 | `izabc123z` gives `i-abc123` |
| `NodeIP.AlicloudInstanceIDLeadingRun` | pkg/cmd/ssh_pod.go:85 | cutset semantics: `iizone` loses its first three characters and gives `i-one` |
| `NodeIP.AlicloudInstanceIDInnerZ` | pkg/cmd/ssh_pod.go:85 | only the ends are trimmed: `zigzag` gives `i-gzag` |
| `NodeIP.AlicloudInstanceIDEmptyStem` | pkg/cmd/ssh_pod.go:85 | a node name made only of `i` and `z` gives the bare `i-` |
| `NodeIP.InfraOfNames` | pkg/cmd/ssh_pod.go:68-98 | the switch takes exactly `aws`, `google`, `azurerm`, `alicloud` and `openstack` to their own cases and every other string to the default |
| `NodeIP.ResolveNodeNameIsAddress` | pkg/cmd/ssh_pod.go:69-95 | for `aws` (69-70) and `openstack` (94-95) the address is the node name exactly, and the only command is the read of the infrastructure type |
| `NodeIP.ResolveByFindIP` | pkg/cmd/ssh_pod.go:71-83 | google: the address is findIP of the gcloud output; azurerm: an address exists if and only if az succeeded, and then it is findIP of its output; neither stores an instance ID |
| `NodeIP.ResolveAlicloud` | pkg/cmd/ssh_pod.go:84-92 | alicloud queries aliyun with the derived instance ID and stores it; an address exists if and only if the address list exists and is non-empty, and then it is element 0; an empty list ends in the index panic |
| `NodeIP.ResolveEvents` | pkg/cmd/ssh_pod.go:66-99 | every resolution starts by reading the infrastructure type and issues no pod command; it ends the process, with its last event, exactly when it finds no address |
| `NodeIP.ResolveInstanceID` | pkg/cmd/ssh_pod.go:84-85 | an instance ID is stored if and only if the infrastructure type is `alicloud` |
| `NodeIP.ResolveExitTwo` | pkg/cmd/ssh_pod.go:77-98 | `os.Exit(2)` is called if and only if the type is unknown or the az query failed; the resolution ends the process with status 2 if and only if one of those holds or alicloud returned an empty address list, whose `ips[0]` panics |
| `Commands.Shell.ExecWhoami` | pkg/cmd/ssh_pod.go:43 | one whoami command, whose output is the user oracle; no status answer consumed |
| `Commands.Shell.ExecInfraType` | pkg/cmd/ssh_pod.go:67 | one read of the infrastructure type from this main.tf path, whose output is the type oracle for that path |
| `Commands.Shell.Gcloud` | pkg/cmd/ssh_pod.go:72-75 | one gcloud describe of this node, whose captured output is the gcloud oracle for that node |
| `Commands.Shell.Az` | pkg/cmd/ssh_pod.go:78 | one az address listing of this node, whose output or error is the az oracle for that node |
| `Commands.Shell.Aliyun` | pkg/cmd/ssh_pod.go:86 | one aliyun describe of this instance ID, whose reply or error is the aliyun oracle for that ID |
| `Commands.Shell.PodStatusCheck` | pkg/cmd/ssh_pod.go:102-108 | each status check appends one status-check event for this pod and kubeconfig, returns the next status answer and consumes it |
| `Poll.PollEvents` | pkg/cmd/ssh_pod.go:119-126 | definition of the poll's events for a sequence of status answers; its properties are the `Poll…` lemmas, and `CopySSHKey` is proved against it |
| `Poll.PollOnlyChecksAndSleeps` | pkg/cmd/ssh_pod.go:119-127 | the poll issues only status checks of this pod and sleeps |
| `Poll.FailuresCounts` | pkg/cmd/ssh_pod.go:120-126 | n failed attempts are exactly n status checks and n sleeps |
| `Poll.PollBounded` | pkg/cmd/ssh_pod.go:119-126 | the poll makes at least one and at most 15 status checks |
| `Poll.PollStopsAtFirstRunning` | pkg/cmd/ssh_pod.go:120-123 | when check j is the first to read `Running`, the poll is j failed attempts followed by that check, with no sleep after it |
| `Poll.PollEndsRunning` | pkg/cmd/ssh_pod.go:119-126 | in that case exactly j + 1 checks are made |
| `Poll.PollExhausted` | pkg/cmd/ssh_pod.go:119-126 | when no check reads `Running`, the poll is exactly 15 failed attempts, each a check followed by a sleep |
| `Poll.PollEndsExhausted` | pkg/cmd/ssh_pod.go:119-126 | in that case exactly 15 checks are made |
| `Poll.FailuresFront` | pkg/cmd/ssh_pod.go:120-126 | a failed attempt can be split off the front of a run of failed attempts as well as off its end |
| `Poll.PollShapeFrom` | pkg/cmd/ssh_pod.go:119-126 | from any attempt on, the poll is some number of failed attempts that fits the bound, then one more check unless the bound was reached |
| `Poll.PollSleepsEqualFailedChecks` | pkg/cmd/ssh_pod.go:119-126 | the number of sleeps equals the number of failed checks, at most 15, and the number of checks is that plus the final `Running` check if there was one |
| `Poll.FailedChecksAreNotRunning` | pkg/cmd/ssh_pod.go:120-123 | the failed checks are exactly the answers before the first `Running` |
| `SshPod.PodName` | pkg/cmd/ssh_pod.go:44 | definition of `"bastion-"` + the user; its property is `PodNameInjective` |
| `SshPod.KeyPath` | pkg/cmd/ssh_pod.go:46 | definition of the key path, `key` joined under the key-pair directory |
| `SshPod.TerraformMainPath` | pkg/cmd/ssh_pod.go:47 | definition of the `terraform/main.tf` path under the key-pair directory |
| `SshPod.KubeConfigPath` | pkg/cmd/ssh_pod.go:48 | definition of the `kubeconfig.yaml` path under the key-pair directory |
| `SshPod.Provision` | pkg/cmd/ssh_pod.go:60-63 | definition of fresh provisioning: create, the poll, copy, ssh, cleanup; its properties are `ProvisionShape` and `ProvisionPod` |
| `SshPod.Session` | pkg/cmd/ssh_pod.go:51-63 | definition of the run from the status check on, by the status read; its properties are `SessionShape` and `SessionUsesPod`, and `RunSession` is proved against it |
| `SshPod.SessionTrace` | pkg/cmd/ssh_pod.go:40-64 | definition of the whole run: whoami, the resolution, then `Session` when an address was found; its properties are the `Session…` lemmas, and `SshToPod` is proved against it |
| `SshPod.PodNameInjective` | pkg/cmd/ssh_pod.go:44 | the pod name `bastion-<user>` determines the user: two users never share a pod name |
| `SshPod.PodInstanceAttribute.constructor` | pkg/cmd/ssh_pod.go:41 | a fresh attribute record has every field empty, as the Go zero value does |
| `SshPod.PodInstanceAttribute.FetchNodeIP` | pkg/cmd/ssh_pod.go:66-99 | the method issues exactly `Resolve`'s events, stores `Resolve`'s address and instance ID when there are any, changes no other field, and reports whether the process goes on |
| `SshPod.PodInstanceAttribute.RunSession` | pkg/cmd/ssh_pod.go:51-63 | from the status check on, the trace gains exactly `Session`: ssh, cleanup and exit 0 for `Running`; a cleanup and then fresh provisioning for `Completed`; fresh provisioning for any other status |
| `SshPod.PodInstanceAttribute.ProvisionPod` | pkg/cmd/ssh_pod.go:60-63 | create, the poll, copy, ssh, cleanup, in this order, as `Provision` states |
| `SshPod.PodInstanceAttribute.CreateBastionPod` | pkg/cmd/ssh_pod.go:110-115 | one pod-creation command for this pod through this kubeconfig, and no status answer consumed |
| `SshPod.PodInstanceAttribute.CopySSHKey` | pkg/cmd/ssh_pod.go:118-130 | the loop issues exactly the poll `PollEvents` specifies and consumes exactly `ChecksMade` status answers; then exactly one key copy follows, whatever the poll saw |
| `SshPod.PodInstanceAttribute.SshBastionPod` | pkg/cmd/ssh_pod.go:133-142 | one session command through this pod to the stored address |
| `SshPod.PodInstanceAttribute.CleanupBastionPod` | pkg/cmd/ssh_pod.go:145-149 | one forced deletion of this pod |
| `SshPod.SshToPod` | pkg/cmd/ssh_pod.go:40-64 | the whole run leaves exactly `SessionTrace`. The attributes hold the user, `bastion-<user>`, the three joined paths and the node name, plus the resolved address and instance ID (empty when there are none) |
| `SshPod.SessionUnresolved` | pkg/cmd/ssh_pod.go:49-51 | when no address is found, the run is whoami and the resolution, it ends with the termination, and no pod command is issued |
| `SshPod.SessionReusesRunningPod` | pkg/cmd/ssh_pod.go:51-55 | for a `Running` pod, the run after the resolution is exactly status check, ssh, cleanup and exit 0, with no create and no key copy |
| `SshPod.ProvisionShape` | pkg/cmd/ssh_pod.go:60-63 | fresh provisioning is create first, the poll, then copy, ssh and cleanup last. Create and delete happen nowhere else, nothing ends the process, and every pod command uses this pod, key and address |
| `SshPod.ProvisionShapeOf` | pkg/cmd/ssh_pod.go:60-63 | the same for any poll made only of checks of this pod and sleeps |
| `SshPod.SessionShape` | pkg/cmd/ssh_pod.go:51-60 | any status other than `Running` leads to the status check, a cleanup only for `Completed`, and then fresh provisioning |
| `SshPod.SessionProvisionOrder` | pkg/cmd/ssh_pod.go:49-63 | for a status other than `Running`, the whole run follows one layout. It is whoami, the resolution and the status check, then a cleanup only for `Completed`, then create right after. The poll reads the answers after the first status check, and the run ends with copy, ssh and cleanup |
| `SshPod.SessionProvisionsOnce` | pkg/cmd/ssh_pod.go:49-63 | in that case the pod is created exactly once. It is deleted only at the very end, and for `Completed` also just after the status check. Nothing ends the process: the run ends with exactly one final cleanup |
| `SshPod.ResolvedPrefix` | pkg/cmd/ssh_pod.go:41-49 | when an address is found, nothing before the status check acts on a pod or ends the process |
| `SshPod.ProvisionAfterOrder` | pkg/cmd/ssh_pod.go:51-63 | the layout of `SessionProvisionOrder` after any prefix |
| `SshPod.OrderOfPieces` | pkg/cmd/ssh_pod.go:51-63 | positions in a prefix, then the status check with an optional cleanup, then the provisioning |
| `SshPod.ProvisionAfterOnly` | pkg/cmd/ssh_pod.go:51-63 | `SessionProvisionsOnce` after any prefix that neither acts on a pod nor ends the process |
| `SshPod.OnlyInPieces` | pkg/cmd/ssh_pod.go:51-63 | where in such a concatenation create, delete and termination events can occur |
| `SshPod.SessionPodCommands` | pkg/cmd/ssh_pod.go:44-63 | every pod command comes after whoami and the resolution, and only when an address was found. It acts on `bastion-<user>` through the joined kubeconfig path, copies the joined key path and connects to the resolved address |
| `SshPod.SessionUsesPod` | pkg/cmd/ssh_pod.go:51-63 | every pod command after the resolution uses this pod, kubeconfig, key and address |

## Left out

- Running bash, kubectl, gcloud, az and aliyun, and the `whoami` call, is
  process I/O. Each command is a trace event, and its answer is an oracle
  field of `Environment`.
- `findIP`, `decodeAndQueryFromJSONString`, `ArrayOfStrings`, `capture`,
  `operate`, `ExecCmdReturnOutput` and `checkError` are defined in files that
  are not part of this model. The model treats them as follows:
  - `findIP` is the oracle `findIP`.
  - The JSON decoding and lookup together are the oracle `ipList`. Its `None`
    is an error from `ArrayOfStrings`.
  - `gcloud` and `az` give the captured outputs.
  - `operate`, `capture` and `ExecCmdReturnOutput` are the command layer
    itself: every `operate` call (status check, create, key copy, delete)
    is one trace event that always returns and never ends the process, and
    every captured or returned output is an oracle answer. The properties
    "exactly one final cleanup" and "nothing ends the process"
    (`SessionProvisionsOnce`, `ProvisionShape`) rest on this.
  - A `checkError` on a non-nil error is the event `FatalError`, which ends
    the process. Its exit status is not modelled.
- The `head | awk | tr` pipeline that reads the infrastructure type from
  `main.tf` (line 67) is shell text processing. It is the oracle `infraType`.
- The errors that `ExecCmdReturnOutput` returns for `whoami` and that pipeline
  are ignored by the source. The model has no error for them either.
- An empty address list makes the source fail on `ips[0]`. The model records
  this Go runtime panic as the event `IndexPanic`.
- The terminal stream wiring of `sshBastionPod` (lines 135-138), and printing
  the error of its `cmd.Run` (lines 139-141), are output only: in both cases
  the run goes on with the cleanup.
- The sleep durations are left out: only the number of sleeps is modelled.
- All console output (`fmt.Printf`, `fmt.Println`, including the misused format
  string at line 97) is left out.
- The exact text and quoting of the command lines is left out. Each event
  keeps the arguments that identify what it acts on: the kubeconfig, pod,
  key, address, node name or instance ID.
- `path`, `user` and `sshPublicKey` are parameters of `SshToPod`. The source
  does not use them, so the model does not either.
- Join: models `filepath.Join(dir, elem)` only for the constant, clean
  elements the source passes. An empty directory gives the element, and
  trailing separators of the directory collapse into one. The rest of
  `filepath.Clean`, such as `.`, `..` and repeated separators inside the
  directory, is not modelled.
- A Go cutset string is modelled as the set of its characters, which is what
  the source's trimming depends on.
- `RunSession` and `ProvisionPod` split the body of `sshToPod` into smaller
  methods so that the proofs stay small. They issue the same commands in the
  same order as the source.
- Status answers are indexed by how many checks were made before. The model
  therefore does not relate the answers to the pod's real life cycle (for
  example, that a deleted pod is no longer `Running`): any sequence of
  answers is allowed.
- The code does not check that the address is non-empty before the session
  is attached (an empty node name on aws, or an empty `findIP` result, goes
  through); the model follows the code.
- Only an unknown type and a failed az query call `os.Exit(2)`. The alicloud
  errors go through `checkError`, whose exit status is not modelled, and an
  empty address list panics, which the Go runtime ends with status 2
  (`ExitsWithStatusTwo`, `ResolveExitTwo`).
