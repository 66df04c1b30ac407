/** The command layer behind pkg/cmd/ssh_pod.go: every external command
    (bash, kubectl, gcloud, az, aliyun) is an event appended to a trace, and
    every answer such a command gives back is read from an oracle. */
module Commands {

  datatype Option<T> = None | Some(value: T)

  /** One observable step of the program, in the order it happens. */
  datatype Event =
    | Whoami                                            // bash -c whoami
    | ReadInfraType(terraformMain: string)              // head | awk | tr on main.tf
    | GcloudDescribe(instance: string)                  // gcloud compute instances describe
    | AzListIPs(vmName: string)                         // az vm list-ip-addresses
    | AliyunDescribe(instanceID: string)                // aliyun ecs DescribeInstanceAttribute
    | StatusCheck(kubeConfig: string, pod: string)      // kubectl get pod ... status.phase
    | Sleep                                             // time.Sleep between two status checks
    | CreatePod(kubeConfig: string, pod: string)        // kubectl run
    | CopyKey(kubeConfig: string, key: string, pod: string)     // kubectl cp key pod:/tmp
    | Ssh(kubeConfig: string, pod: string, ip: string)  // kubectl exec -it ... ssh gardener@ip
    | DeletePod(kubeConfig: string, pod: string)        // kubectl delete --grace-period=0 --force
    | Exit(code: int)                                   // os.Exit(code)
    | FatalError                                        // checkError on a non-nil error
    | IndexPanic                                        // ips[0] on an empty slice

  /** The commands that act on, or ask about, the bastion pod. */
  predicate IsPodCommand(e: Event)
  {
    e.StatusCheck? || e.CreatePod? || e.CopyKey? || e.Ssh? || e.DeletePod?
  }

  /** The events after which the process is gone. */
  predicate IsTermination(e: Event)
  {
    e.Exit? || e.FatalError? || e.IndexPanic?
  }

  /** The events after which the process is gone with exit status 2:
      os.Exit(2), and an unrecovered Go runtime panic, which the Go runtime
      ends with status 2. The status after checkError is not known here. */
  predicate ExitsWithStatusTwo(e: Event)
  {
    e == Exit(2) || e.IndexPanic?
  }

  /** What the outside world answers. An answer of None is a command that
      returned an error. */
  datatype Environment = Environment(
    whoami: string,                       // trimmed output of whoami
    infraType: string -> string,          // infrastructure type read from a main.tf path
    gcloud: string -> string,             // captured gcloud output for a node
    az: string -> Option<string>,         // az output for a node
    aliyun: string -> Option<string>,     // aliyun JSON reply for an instance ID
    ipList: string -> Option<seq<string>>,  // VpcAttributes.PrivateIpAddress.IpAddress of a reply
    findIP: string -> string,             // findIP applied to a command output
    status: nat -> string)                // answer of the n-th pod status check

  /** The process's view of the outside world: the answers it will get and
      the trace of what it has done so far. */
  class Shell {
    const env: Environment
    var trace: seq<Event>
    var statusCalls: nat   // how many pod status checks have been answered

    constructor (env: Environment)
      ensures this.env == env && trace == [] && statusCalls == 0
    {
      this.env := env;
      trace := [];
      statusCalls := 0;
    }

    /** Issue a command whose output is not used. */
    method Run(e: Event)
      modifies this
      ensures trace == old(trace) + [e] && statusCalls == old(statusCalls)
    {
      trace := trace + [e];
    }

    method ExecWhoami() returns (out: string)
      modifies this
      ensures out == env.whoami
      ensures trace == old(trace) + [Whoami] && statusCalls == old(statusCalls)
    {
      trace := trace + [Whoami];
      out := env.whoami;
    }

    method ExecInfraType(terraformMain: string) returns (kind: string)
      modifies this
      ensures kind == env.infraType(terraformMain)
      ensures trace == old(trace) + [ReadInfraType(terraformMain)] && statusCalls == old(statusCalls)
    {
      trace := trace + [ReadInfraType(terraformMain)];
      kind := env.infraType(terraformMain);
    }

    method Gcloud(instance: string) returns (captured: string)
      modifies this
      ensures captured == env.gcloud(instance)
      ensures trace == old(trace) + [GcloudDescribe(instance)] && statusCalls == old(statusCalls)
    {
      trace := trace + [GcloudDescribe(instance)];
      captured := env.gcloud(instance);
    }

    method Az(vmName: string) returns (output: Option<string>)
      modifies this
      ensures output == env.az(vmName)
      ensures trace == old(trace) + [AzListIPs(vmName)] && statusCalls == old(statusCalls)
    {
      trace := trace + [AzListIPs(vmName)];
      output := env.az(vmName);
    }

    method Aliyun(instanceID: string) returns (res: Option<string>)
      modifies this
      ensures res == env.aliyun(instanceID)
      ensures trace == old(trace) + [AliyunDescribe(instanceID)] && statusCalls == old(statusCalls)
    {
      trace := trace + [AliyunDescribe(instanceID)];
      res := env.aliyun(instanceID);
    }

    /** podStatusCheck: the phase of the pod labelled run=pod, as kubectl
        prints it; each call consumes the next answer. */
    method PodStatusCheck(kubeConfig: string, pod: string) returns (phase: string)
      modifies this
      ensures phase == env.status(old(statusCalls))
      ensures trace == old(trace) + [StatusCheck(kubeConfig, pod)]
      ensures statusCalls == old(statusCalls) + 1
    {
      trace := trace + [StatusCheck(kubeConfig, pod)];
      phase := env.status(statusCalls);
      statusCalls := statusCalls + 1;
    }
  }
}
