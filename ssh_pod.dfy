/** sshToPod and the PodInstanceAttribute methods of pkg/cmd/ssh_pod.go:
    the session through a bastion pod, proved against the trace it must
    leave behind. */
module SshPod {
  import opened Commands
  import opened Trim
  import opened Poll
  import opened NodeIP

  function PodName(uid: string): string
  {
    "bastion-" + uid
  }

  /** The pod name tells the user it belongs to. */
  lemma PodNameInjective(uid1: string, uid2: string)
    requires PodName(uid1) == PodName(uid2)
    ensures uid1 == uid2
  {
    assert uid1 == PodName(uid1)[8..];
    assert uid2 == PodName(uid2)[8..];
  }

  function KeyPath(keypairDir: string): string { Join(keypairDir, "key") }
  function TerraformMainPath(keypairDir: string): string { Join(keypairDir, "terraform/main.tf") }
  function KubeConfigPath(keypairDir: string): string { Join(keypairDir, "kubeconfig.yaml") }

  /** Fresh provisioning: create the pod, wait for it, copy the key, attach
      the session, tear the pod down. The poll reads status answers from
      number `start` on. */
  function Provision(status: nat -> string, start: nat, kubeConfig: string, key: string, pod: string, ip: string): seq<Event>
  {
    [CreatePod(kubeConfig, pod)] + PollEvents(status, start, 0, kubeConfig, pod)
      + [CopyKey(kubeConfig, key, pod), Ssh(kubeConfig, pod, ip), DeletePod(kubeConfig, pod)]
  }

  /** What sshToPod does once the node's address is known: the first pod
      status check reads status answer number s0. */
  function Session(status: nat -> string, s0: nat, kubeConfig: string, key: string, pod: string, ip: string): seq<Event>
  {
    var checked := [StatusCheck(kubeConfig, pod)];
    if status(s0) == "Running" then
      checked + [Ssh(kubeConfig, pod, ip), DeletePod(kubeConfig, pod), Exit(0)]
    else if status(s0) == "Completed" then
      checked + [DeletePod(kubeConfig, pod)] + Provision(status, s0 + 1, kubeConfig, key, pod, ip)
    else
      checked + Provision(status, s0 + 1, kubeConfig, key, pod, ip)
  }

  /** Everything sshToPod does, when the first pod status check it makes
      reads status answer number s0. */
  function SessionTrace(env: Environment, nodeName: string, keypairDir: string, s0: nat): seq<Event>
  {
    var r := Resolve(env, nodeName, TerraformMainPath(keypairDir));
    [Whoami] + r.events +
      match r.ip
      case None => []
      case Some(ip) => Session(env.status, s0, KubeConfigPath(keypairDir), KeyPath(keypairDir), PodName(env.whoami), ip)
  }

  /** PodInstanceAttribute: the state of one session. A fresh value has
      every field empty, as Go's zero value does. */
  class PodInstanceAttribute {
    var uid: string
    var bastionPodName: string
    var nodeName: string
    var key: string
    var terraformMain: string
    var bastionIPAddress: string
    var kubeConfig: string
    var instanceID: string

    constructor ()
      ensures uid == [] && bastionPodName == [] && nodeName == [] && key == []
      ensures terraformMain == [] && bastionIPAddress == [] && kubeConfig == [] && instanceID == []
    {
      uid, bastionPodName, nodeName, key := [], [], [], [];
      terraformMain, bastionIPAddress, kubeConfig, instanceID := [], [], [], [];
    }

    /** fetchNodeIP: resolve the node's address by infrastructure type.
        resolved is false where the Go code ends the process; the trace
        then ends with that termination. */
    method FetchNodeIP(sh: Shell) returns (resolved: bool)
      modifies this, sh
      ensures var r := Resolve(sh.env, nodeName, terraformMain);
        resolved == r.ip.Some? &&
        sh.trace == old(sh.trace) + r.events && sh.statusCalls == old(sh.statusCalls) &&
        bastionIPAddress == (if r.ip.Some? then r.ip.value else old(bastionIPAddress)) &&
        instanceID == (if r.instanceID.Some? then r.instanceID.value else old(instanceID))
      ensures uid == old(uid) && bastionPodName == old(bastionPodName) && nodeName == old(nodeName)
      ensures key == old(key) && terraformMain == old(terraformMain) && kubeConfig == old(kubeConfig)
    {
      var infraType := sh.ExecInfraType(terraformMain);
      match InfraOf(infraType) {
      case Aws =>
        bastionIPAddress := nodeName;
      case Google =>
        var captured := sh.Gcloud(nodeName);
        bastionIPAddress := sh.env.findIP(captured);
      case Azure =>
        var output := sh.Az(nodeName);
        if output.None? {
          sh.Run(Exit(2));
          return false;
        }
        bastionIPAddress := sh.env.findIP(output.value);
      case Alicloud =>
        instanceID := AlicloudInstanceID(nodeName);
        var res := sh.Aliyun(instanceID);
        if res.None? {
          sh.Run(FatalError);
          return false;
        }
        var ips := sh.env.ipList(res.value);
        if ips.None? {
          sh.Run(FatalError);
          return false;
        }
        if |ips.value| == 0 {
          sh.Run(IndexPanic);
          return false;
        }
        bastionIPAddress := ips.value[0];
      case OpenStack =>
        bastionIPAddress := nodeName;
      case Unknown =>
        sh.Run(Exit(2));
        return false;
      }
      resolved := true;
    }

    /** The rest of sshToPod, once fetchNodeIP has found the address. */
    method RunSession(sh: Shell)
      modifies sh
      ensures sh.trace == old(sh.trace) + Session(sh.env.status, old(sh.statusCalls), kubeConfig, key, bastionPodName, bastionIPAddress)
    {
      ghost var t0, s0, st := sh.trace, sh.statusCalls, sh.env.status;
      var kube, key, pod, ip := kubeConfig, this.key, bastionPodName, bastionIPAddress;
      var value := sh.PodStatusCheck(kube, pod);
      ghost var t1 := sh.trace;
      assert t1 == t0 + [StatusCheck(kube, pod)] && sh.statusCalls == s0 + 1 && value == st(s0);
      if value == "Running" {
        SshBastionPod(sh);
        CleanupBastionPod(sh);
        sh.Run(Exit(0));
        assert sh.trace == t1 + [Ssh(kube, pod, ip)] + [DeletePod(kube, pod)] + [Exit(0)];
        RunningTail(t0, st, s0, kube, key, pod, ip);
      } else if value == "Completed" {
        CleanupBastionPod(sh);
        ghost var t2 := sh.trace;
        assert t2 == t1 + [DeletePod(kube, pod)] && sh.statusCalls == s0 + 1;
        ProvisionPod(sh);
        assert sh.trace == t2 + Provision(st, s0 + 1, kube, key, pod, ip);
        CompletedTail(t0, st, s0, kube, key, pod, ip);
      } else {
        ProvisionPod(sh);
        assert sh.trace == t1 + Provision(st, s0 + 1, kube, key, pod, ip);
        FreshTail(t0, st, s0, kube, key, pod, ip);
      }
    }

    /** The last four steps of sshToPod: a fresh bastion pod, the key copied
        into it, the session, the clean-up. */
    method ProvisionPod(sh: Shell)
      modifies sh
      ensures sh.trace == old(sh.trace) + Provision(sh.env.status, old(sh.statusCalls), kubeConfig, key, bastionPodName, bastionIPAddress)
    {
      ghost var t0 := sh.trace;
      CreateBastionPod(sh);
      CopySSHKey(sh);
      SshBastionPod(sh);
      CleanupBastionPod(sh);
      ProvisionAppend(t0, sh.env.status, old(sh.statusCalls), kubeConfig, key, bastionPodName, bastionIPAddress);
    }

    /** createBastionPod */
    method CreateBastionPod(sh: Shell)
      modifies sh
      ensures sh.trace == old(sh.trace) + [CreatePod(kubeConfig, bastionPodName)]
      ensures sh.statusCalls == old(sh.statusCalls)
    {
      sh.Run(CreatePod(kubeConfig, bastionPodName));
    }

    /** copySSHKey: poll the pod's status at most MaxAttempts times, stop at
        the first "Running", sleep after every other answer, then copy the
        key whatever the poll saw. */
    method CopySSHKey(sh: Shell)
      modifies sh
      ensures var evs := PollEvents(sh.env.status, old(sh.statusCalls), 0, kubeConfig, bastionPodName);
        sh.trace == old(sh.trace) + evs + [CopyKey(kubeConfig, key, bastionPodName)] &&
        sh.statusCalls == old(sh.statusCalls) + ChecksMade(sh.env.status, old(sh.statusCalls))
    {
      var kube, pod := kubeConfig, bastionPodName;
      ghost var s0, t0, st := sh.statusCalls, sh.trace, sh.env.status;
      var attemptCnt := 0;
      while attemptCnt < MaxAttempts
        invariant 0 <= attemptCnt <= MaxAttempts
        invariant sh.statusCalls == s0 + attemptCnt
        invariant sh.trace == t0 + Failures(kube, pod, attemptCnt)
        invariant forall i :: s0 <= i < s0 + attemptCnt ==> st(i) != "Running"
      {
        var phase := sh.PodStatusCheck(kube, pod);
        if phase == "Running" {
          PollEndsRunning(st, s0, attemptCnt, kube, pod);
          break;
        }
        sh.Run(Sleep);
        assert sh.trace == t0 + (Failures(kube, pod, attemptCnt) + [StatusCheck(kube, pod), Sleep]);
        attemptCnt := attemptCnt + 1;
      }
      if attemptCnt == MaxAttempts {
        PollEndsExhausted(st, s0, kube, pod);
      }
      sh.Run(CopyKey(kube, key, pod));
    }

    /** sshBastionPod: the interactive session through the pod to the
        node's address. */
    method SshBastionPod(sh: Shell)
      modifies sh
      ensures sh.trace == old(sh.trace) + [Ssh(kubeConfig, bastionPodName, bastionIPAddress)]
      ensures sh.statusCalls == old(sh.statusCalls)
    {
      sh.Run(Ssh(kubeConfig, bastionPodName, bastionIPAddress));
    }

    /** cleanupBastionPod */
    method CleanupBastionPod(sh: Shell)
      modifies sh
      ensures sh.trace == old(sh.trace) + [DeletePod(kubeConfig, bastionPodName)]
      ensures sh.statusCalls == old(sh.statusCalls)
    {
      sh.Run(DeletePod(kubeConfig, bastionPodName));
    }
  }

  /** sshToPod. path, user and sshPublicKey are taken and not used, as in the
      Go code. */
  method SshToPod(nodeName: string, path: string, user: string, pathSSKeypair: string, sshPublicKey: seq<bv8>, sh: Shell)
    returns (a: PodInstanceAttribute)
    modifies sh
    ensures fresh(a)
    ensures sh.trace == old(sh.trace) + SessionTrace(sh.env, nodeName, pathSSKeypair, old(sh.statusCalls))
    ensures a.nodeName == nodeName && a.uid == sh.env.whoami && a.bastionPodName == PodName(sh.env.whoami)
    ensures a.key == KeyPath(pathSSKeypair) && a.terraformMain == TerraformMainPath(pathSSKeypair)
    ensures a.kubeConfig == KubeConfigPath(pathSSKeypair)
    ensures var r := Resolve(sh.env, nodeName, TerraformMainPath(pathSSKeypair));
      a.bastionIPAddress == (if r.ip.Some? then r.ip.value else []) &&
      a.instanceID == (if r.instanceID.Some? then r.instanceID.value else [])
  {
    ghost var t0, s0 := sh.trace, sh.statusCalls;
    ghost var r := Resolve(sh.env, nodeName, TerraformMainPath(pathSSKeypair));
    a := new PodInstanceAttribute();
    a.nodeName := nodeName;
    a.uid := sh.ExecWhoami();
    a.bastionPodName := PodName(a.uid);
    a.key := KeyPath(pathSSKeypair);
    a.terraformMain := TerraformMainPath(pathSSKeypair);
    a.kubeConfig := KubeConfigPath(pathSSKeypair);
    assert sh.trace == t0 + [Whoami] && sh.statusCalls == s0;
    var resolved := a.FetchNodeIP(sh);
    assert sh.trace == t0 + [Whoami] + r.events && sh.statusCalls == s0;
    Append(t0, [Whoami], r.events);
    if resolved {
      ghost var session := Session(sh.env.status, s0, a.kubeConfig, a.key, a.bastionPodName, a.bastionIPAddress);
      a.RunSession(sh);
      assert sh.trace == t0 + [Whoami] + r.events + session;
      Append(t0, [Whoami] + r.events, session);
    }
  }

  lemma Append<T>(t: seq<T>, x: seq<T>, y: seq<T>)
    ensures t + x + y == t + (x + y)
  {
  }
  lemma RunningTail(t: seq<Event>, status: nat -> string, s0: nat, kube: string, key: string, pod: string, ip: string)
    requires status(s0) == "Running"
    ensures t + [StatusCheck(kube, pod)] + [Ssh(kube, pod, ip)] + [DeletePod(kube, pod)] + [Exit(0)]
      == t + Session(status, s0, kube, key, pod, ip)
  {
  }

  lemma ProvisionAppend(t: seq<Event>, status: nat -> string, start: nat, kube: string, key: string, pod: string, ip: string)
    ensures t + [CreatePod(kube, pod)] + PollEvents(status, start, 0, kube, pod) + [CopyKey(kube, key, pod)]
        + [Ssh(kube, pod, ip)] + [DeletePod(kube, pod)]
      == t + Provision(status, start, kube, key, pod, ip)
  {
  }

  lemma CompletedTail(t: seq<Event>, status: nat -> string, s0: nat, kube: string, key: string, pod: string, ip: string)
    requires status(s0) == "Completed"
    ensures t + [StatusCheck(kube, pod)] + [DeletePod(kube, pod)] + Provision(status, s0 + 1, kube, key, pod, ip)
      == t + Session(status, s0, kube, key, pod, ip)
  {
  }

  lemma FreshTail(t: seq<Event>, status: nat -> string, s0: nat, kube: string, key: string, pod: string, ip: string)
    requires status(s0) != "Running" && status(s0) != "Completed"
    ensures t + [StatusCheck(kube, pod)] + Provision(status, s0 + 1, kube, key, pod, ip)
      == t + Session(status, s0, kube, key, pod, ip)
  {
  }

  /** When fetchNodeIP finds no address, the process ends there: the trace
      is whoami and the resolution, it ends with that termination, and no
      pod command is issued. */
  lemma SessionUnresolved(env: Environment, nodeName: string, keypairDir: string, s0: nat)
    requires Resolve(env, nodeName, TerraformMainPath(keypairDir)).ip.None?
    ensures var t := SessionTrace(env, nodeName, keypairDir, s0);
      t == [Whoami] + Resolve(env, nodeName, TerraformMainPath(keypairDir)).events &&
      IsTermination(t[|t| - 1]) &&
      (forall e :: e in t ==> !IsPodCommand(e))
  {
    ResolveEvents(env, nodeName, TerraformMainPath(keypairDir));
  }

  /** A pod that is already "Running" is used as it is: ssh, cleanup,
      exit 0, and no pod is created and no key copied. */
  lemma SessionReusesRunningPod(env: Environment, nodeName: string, keypairDir: string, s0: nat)
    requires Resolve(env, nodeName, TerraformMainPath(keypairDir)).ip.Some?
    requires env.status(s0) == "Running"
    ensures var r := Resolve(env, nodeName, TerraformMainPath(keypairDir));
      var kube, pod := KubeConfigPath(keypairDir), PodName(env.whoami);
      var t := SessionTrace(env, nodeName, keypairDir, s0);
      t == [Whoami] + r.events + [StatusCheck(kube, pod), Ssh(kube, pod, r.ip.value), DeletePod(kube, pod), Exit(0)] &&
      (forall e :: e in t ==> !e.CreatePod? && !e.CopyKey?)
  {
    ResolveEvents(env, nodeName, TerraformMainPath(keypairDir));
  }

  /** The pod commands of a trace all act on pod `pod` through `kube`, copy
      `key` and connect to `ip`. */
  predicate UsesPod(t: seq<Event>, kube: string, key: string, pod: string, ip: string)
  {
    forall i :: 0 <= i < |t| && IsPodCommand(t[i]) ==>
      t[i].kubeConfig == kube && t[i].pod == pod &&
      (t[i].CopyKey? ==> t[i].key == key) && (t[i].Ssh? ==> t[i].ip == ip)
  }

  /** A fresh pod: created first, deleted last and only then, the key copy
      and the session just before the deletion, the poll in between, and
      nothing that ends the process. */
  lemma ProvisionShape(status: nat -> string, start: nat, kube: string, key: string, pod: string, ip: string)
    ensures var p := Provision(status, start, kube, key, pod, ip);
      |p| >= 5 && p[0] == CreatePod(kube, pod) &&
      p[1..|p| - 3] == PollEvents(status, start, 0, kube, pod) &&
      p[|p| - 3..] == [CopyKey(kube, key, pod), Ssh(kube, pod, ip), DeletePod(kube, pod)] &&
      UsesPod(p, kube, key, pod, ip) &&
      (forall i :: 0 <= i < |p| ==>
        !IsTermination(p[i]) && (p[i].CreatePod? ==> i == 0) && (p[i].DeletePod? ==> i == |p| - 1))
  {
    var poll := PollEvents(status, start, 0, kube, pod);
    PollOnlyChecksAndSleeps(status, start, 0, kube, pod);
    PollBounded(status, start, kube, pod);
    ProvisionShapeOf(poll, kube, key, pod, ip);
  }

  /** ProvisionShape for any poll made of checks of the pod and sleeps. */
  lemma ProvisionShapeOf(poll: seq<Event>, kube: string, key: string, pod: string, ip: string)
    requires forall i :: 0 <= i < |poll| ==> poll[i] in {StatusCheck(kube, pod), Sleep}
    ensures var p := [CreatePod(kube, pod)] + poll + [CopyKey(kube, key, pod), Ssh(kube, pod, ip), DeletePod(kube, pod)];
      p[1..|p| - 3] == poll &&
      UsesPod(p, kube, key, pod, ip) &&
      (forall i :: 0 <= i < |p| ==>
        !IsTermination(p[i]) && (p[i].CreatePod? ==> i == 0) && (p[i].DeletePod? ==> i == |p| - 1))
  {
    var p := [CreatePod(kube, pod)] + poll + [CopyKey(kube, key, pod), Ssh(kube, pod, ip), DeletePod(kube, pod)];
    assert forall i :: 1 <= i < |p| - 3 ==> p[i] == poll[i - 1];
  }

  /** Any status but "Running" provisions a pod: after the status check
      comes the clean-up of a "Completed" pod, and otherwise directly the
      provisioning. */
  lemma SessionShape(status: nat -> string, s0: nat, kube: string, key: string, pod: string, ip: string)
    requires status(s0) != "Running"
    ensures Session(status, s0, kube, key, pod, ip)
      == StaleCleanup(status(s0), kube, pod) + Provision(status, s0 + 1, kube, key, pod, ip)
  {
  }

  /** The status check, followed by the clean-up of a "Completed" pod. */
  function StaleCleanup(phase: string, kube: string, pod: string): seq<Event>
  {
    if phase == "Completed" then [StatusCheck(kube, pod), DeletePod(kube, pod)] else [StatusCheck(kube, pod)]
  }

  /** SessionTrace for a node whose address is found and whose pod is not
      "Running". With k the position after the status check and c that of
      the creation: a "Completed" pod is deleted at k and the new one is
      created right after it, any other status creates at k; the poll
      fills the gap up to the key copy, the session and the final clean-up,
      which is the last event. */
  lemma SessionProvisionOrder(env: Environment, nodeName: string, keypairDir: string, s0: nat)
    requires Resolve(env, nodeName, TerraformMainPath(keypairDir)).ip.Some?
    requires env.status(s0) != "Running"
    ensures var r := Resolve(env, nodeName, TerraformMainPath(keypairDir));
      var kube, key, pod := KubeConfigPath(keypairDir), KeyPath(keypairDir), PodName(env.whoami);
      var t := SessionTrace(env, nodeName, keypairDir, s0);
      var k := |r.events| + 2;
      var c := if env.status(s0) == "Completed" then k + 1 else k;
      |t| >= c + 5 &&
      t[..k] == [Whoami] + r.events + [StatusCheck(kube, pod)] &&
      (env.status(s0) == "Completed" ==> t[k] == DeletePod(kube, pod)) &&
      t[c] == CreatePod(kube, pod) &&
      t[c + 1..|t| - 3] == PollEvents(env.status, s0 + 1, 0, kube, pod) &&
      t[|t| - 3..] == [CopyKey(kube, key, pod), Ssh(kube, pod, r.ip.value), DeletePod(kube, pod)]
  {
    var r := Resolve(env, nodeName, TerraformMainPath(keypairDir));
    ProvisionAfterOrder([Whoami] + r.events, env.status, s0, KubeConfigPath(keypairDir), KeyPath(keypairDir), PodName(env.whoami), r.ip.value);
  }

  /** The same paths: the pod is created at c only, deleted only at the end
      and, when it was "Completed", at k; nothing ends the process. */
  lemma SessionProvisionsOnce(env: Environment, nodeName: string, keypairDir: string, s0: nat)
    requires Resolve(env, nodeName, TerraformMainPath(keypairDir)).ip.Some?
    requires env.status(s0) != "Running"
    ensures var r := Resolve(env, nodeName, TerraformMainPath(keypairDir));
      var t := SessionTrace(env, nodeName, keypairDir, s0);
      var k := |r.events| + 2;
      var c := if env.status(s0) == "Completed" then k + 1 else k;
      forall i :: 0 <= i < |t| ==>
        !IsTermination(t[i]) &&
        (t[i].CreatePod? ==> i == c) &&
        (t[i].DeletePod? ==> i == |t| - 1 || (env.status(s0) == "Completed" && i == k))
  {
    var r := Resolve(env, nodeName, TerraformMainPath(keypairDir));
    ResolvedPrefix(env, nodeName, TerraformMainPath(keypairDir));
    ProvisionAfterOnly([Whoami] + r.events, env.status, s0, KubeConfigPath(keypairDir), KeyPath(keypairDir), PodName(env.whoami), r.ip.value);
  }

  /** Before the status check: whoami and a resolution that found an
      address, neither of which acts on a pod or ends the process. */
  lemma ResolvedPrefix(env: Environment, nodeName: string, terraformMain: string)
    requires Resolve(env, nodeName, terraformMain).ip.Some?
    ensures var prefix := [Whoami] + Resolve(env, nodeName, terraformMain).events;
      forall i :: 0 <= i < |prefix| ==> !IsPodCommand(prefix[i]) && !IsTermination(prefix[i])
  {
    var r := Resolve(env, nodeName, terraformMain);
    ResolveEvents(env, nodeName, terraformMain);
    var prefix := [Whoami] + r.events;
    assert forall i :: 1 <= i < |prefix| ==> prefix[i] == r.events[i - 1];
  }

  /** SessionProvisionOrder after any prefix. */
  lemma ProvisionAfterOrder(prefix: seq<Event>, status: nat -> string, s0: nat, kube: string, key: string, pod: string, ip: string)
    requires status(s0) != "Running"
    ensures var t := prefix + Session(status, s0, kube, key, pod, ip);
      var k := |prefix| + 1;
      var c := if status(s0) == "Completed" then k + 1 else k;
      |t| >= c + 5 &&
      t[..k] == prefix + [StatusCheck(kube, pod)] &&
      (status(s0) == "Completed" ==> t[k] == DeletePod(kube, pod)) &&
      t[c] == CreatePod(kube, pod) &&
      t[c + 1..|t| - 3] == PollEvents(status, s0 + 1, 0, kube, pod) &&
      t[|t| - 3..] == [CopyKey(kube, key, pod), Ssh(kube, pod, ip), DeletePod(kube, pod)]
  {
    var mid := StaleCleanup(status(s0), kube, pod);
    var p := Provision(status, s0 + 1, kube, key, pod, ip);
    SessionShape(status, s0, kube, key, pod, ip);
    ProvisionShape(status, s0 + 1, kube, key, pod, ip);
    assert |mid| == if status(s0) == "Completed" then 2 else 1;
    OrderOfPieces(prefix, mid, p, kube, pod);
  }

  lemma OrderOfPieces(prefix: seq<Event>, mid: seq<Event>, p: seq<Event>, kube: string, pod: string)
    requires mid == [StatusCheck(kube, pod)] || mid == [StatusCheck(kube, pod), DeletePod(kube, pod)]
    requires |p| >= 4
    ensures var t := prefix + (mid + p);
      var k := |prefix| + 1;
      var c := |prefix| + |mid|;
      |t| == c + |p| &&
      t[..k] == prefix + [StatusCheck(kube, pod)] &&
      (|mid| == 2 ==> t[k] == DeletePod(kube, pod)) &&
      t[c] == p[0] && t[c + 1..|t| - 3] == p[1..|p| - 3] && t[|t| - 3..] == p[|p| - 3..]
  {
    var t := prefix + (mid + p);
    assert t[..|prefix| + 1] == prefix + [StatusCheck(kube, pod)];
    assert t[|prefix| + |mid|..] == p;
  }

  /** SessionProvisionsOnce after any prefix that neither acts on a pod nor
      ends the process. */
  lemma ProvisionAfterOnly(prefix: seq<Event>, status: nat -> string, s0: nat, kube: string, key: string, pod: string, ip: string)
    requires status(s0) != "Running"
    requires forall i :: 0 <= i < |prefix| ==> !IsPodCommand(prefix[i]) && !IsTermination(prefix[i])
    ensures var t := prefix + Session(status, s0, kube, key, pod, ip);
      var k := |prefix| + 1;
      var c := if status(s0) == "Completed" then k + 1 else k;
      forall i :: 0 <= i < |t| ==>
        !IsTermination(t[i]) &&
        (t[i].CreatePod? ==> i == c) &&
        (t[i].DeletePod? ==> i == |t| - 1 || (status(s0) == "Completed" && i == k))
  {
    var mid := StaleCleanup(status(s0), kube, pod);
    var p := Provision(status, s0 + 1, kube, key, pod, ip);
    SessionShape(status, s0, kube, key, pod, ip);
    ProvisionShape(status, s0 + 1, kube, key, pod, ip);
    assert |mid| == if status(s0) == "Completed" then 2 else 1;
    OnlyInPieces(prefix, mid, p, kube, pod);
  }

  lemma OnlyInPieces(prefix: seq<Event>, mid: seq<Event>, p: seq<Event>, kube: string, pod: string)
    requires forall i :: 0 <= i < |prefix| ==> !IsPodCommand(prefix[i]) && !IsTermination(prefix[i])
    requires mid == [StatusCheck(kube, pod)] || mid == [StatusCheck(kube, pod), DeletePod(kube, pod)]
    requires forall i :: 0 <= i < |p| ==>
      !IsTermination(p[i]) && (p[i].CreatePod? ==> i == 0) && (p[i].DeletePod? ==> i == |p| - 1)
    ensures var t := prefix + (mid + p);
      var k := |prefix| + 1;
      var c := |prefix| + |mid|;
      forall i :: 0 <= i < |t| ==>
        !IsTermination(t[i]) &&
        (t[i].CreatePod? ==> i == c) &&
        (t[i].DeletePod? ==> i == |t| - 1 || (|mid| == 2 && i == k))
  {
    var t := prefix + (mid + p);
    forall i | 0 <= i < |t|
      ensures !IsTermination(t[i]) && (t[i].CreatePod? ==> i == |prefix| + |mid|)
      ensures t[i].DeletePod? ==> i == |t| - 1 || (|mid| == 2 && i == |prefix| + 1)
    {
      if i < |prefix| {
        assert t[i] == prefix[i];
      } else if i < |prefix| + |mid| {
        assert t[i] == mid[i - |prefix|];
      } else {
        assert t[i] == p[i - |prefix| - |mid|];
      }
    }
  }

  /** Indexing into a concatenation. */
  lemma Splice(head: seq<Event>, p: seq<Event>)
    ensures forall i :: 0 <= i < |head| ==> (head + p)[i] == head[i]
    ensures forall i :: |head| <= i < |head| + |p| ==> (head + p)[i] == p[i - |head|]
    ensures (head + p)[|head|..] == p && (head + p)[..|head|] == head
  {
  }

  /** Every pod command acts on the user's own bastion pod through the
      kubeconfig of the key-pair directory, and comes after whoami and
      fetchNodeIP; the key copied is the directory's key and the session
      goes to the address fetchNodeIP found. */
  lemma SessionPodCommands(env: Environment, nodeName: string, keypairDir: string, s0: nat)
    ensures var r := Resolve(env, nodeName, TerraformMainPath(keypairDir));
      var t := SessionTrace(env, nodeName, keypairDir, s0);
      (forall i :: 0 <= i < |t| && IsPodCommand(t[i]) ==> 1 + |r.events| <= i && r.ip.Some?) &&
      (r.ip.Some? ==> UsesPod(t, KubeConfigPath(keypairDir), KeyPath(keypairDir), PodName(env.whoami), r.ip.value))
  {
    var r := Resolve(env, nodeName, TerraformMainPath(keypairDir));
    var kube, key, pod := KubeConfigPath(keypairDir), KeyPath(keypairDir), PodName(env.whoami);
    var prefix := [Whoami] + r.events;
    var t := SessionTrace(env, nodeName, keypairDir, s0);
    ResolveEvents(env, nodeName, TerraformMainPath(keypairDir));
    assert forall i :: 0 <= i < |prefix| ==> prefix[i] == Whoami || prefix[i] in r.events;
    if r.ip.Some? {
      var ip := r.ip.value;
      var s := Session(env.status, s0, kube, key, pod, ip);
      assert t == prefix + s;
      SessionUsesPod(env.status, s0, kube, key, pod, ip);
      Splice(prefix, s);
    } else {
      assert t == prefix;
    }
  }

  /** SessionPodCommands for the part after fetchNodeIP. */
  lemma SessionUsesPod(status: nat -> string, s0: nat, kube: string, key: string, pod: string, ip: string)
    ensures UsesPod(Session(status, s0, kube, key, pod, ip), kube, key, pod, ip)
  {
    if status(s0) != "Running" {
      var s := Session(status, s0, kube, key, pod, ip);
      var k := if status(s0) == "Completed" then 2 else 1;
      SessionShape(status, s0, kube, key, pod, ip);
      ProvisionShape(status, s0 + 1, kube, key, pod, ip);
      Splice(s[..k], s[k..]);
      assert s == s[..k] + s[k..];
    }
  }
}
