/** fetchNodeIP as a specification: what each infrastructure type asks of
    the outside world, which address it settles on, and how it fails. */
module NodeIP {
  import opened Commands
  import opened Trim

  /** The body of an alicloud instance ID: the node name with every leading
      'i' or 'z' and then every trailing 'z' cut away. */
  function Stem(nodeName: string): string
  {
    TrimRight(TrimLeft(nodeName, {'i', 'z'}), {'z'})
  }

  /** The stem is a contiguous piece of the node name, preceded only by 'i'
      and 'z', followed only by 'z', not starting with 'i' or 'z' and not
      ending with 'z'. */
  lemma StemShape(nodeName: string)
    ensures var stem := Stem(nodeName);
      var lo := |nodeName| - |TrimLeft(nodeName, {'i', 'z'})|;
      0 <= lo && lo + |stem| <= |nodeName| && stem == nodeName[lo..lo + |stem|] &&
      (forall i :: 0 <= i < lo ==> nodeName[i] in {'i', 'z'}) &&
      (forall i :: lo + |stem| <= i < |nodeName| ==> nodeName[i] == 'z') &&
      (stem == [] || (stem[0] !in {'i', 'z'} && stem[|stem| - 1] != 'z'))
  {
    var left := TrimLeft(nodeName, {'i', 'z'});
    var stem := TrimRight(left, {'z'});
    TrimLeftShape(nodeName, {'i', 'z'});
    TrimRightShape(left, {'z'});
    var lo := |nodeName| - |left|;
    assert left == nodeName[lo..];
    assert stem == left[..|stem|];
    forall i | lo + |stem| <= i < |nodeName|
      ensures nodeName[i] == 'z'
    {
      assert nodeName[i] == left[i - lo];
      assert left[i - lo] in {'z'};
    }
  }

  /** The instance ID fetchNodeIP queries aliyun with. */
  function AlicloudInstanceID(nodeName: string): string
  {
    "i-" + Stem(nodeName)
  }

  /** Reference definition of the instance ID: for any cut of the node name
      into a run of 'i'/'z', a middle that does not start with 'i'/'z' and
      does not end with 'z', and a run of 'z', the ID is "i-" + middle. */
  lemma AlicloudInstanceIDCharacterized(nodeName: string, lo: nat, hi: nat)
    requires lo <= hi <= |nodeName|
    requires forall i :: 0 <= i < lo ==> nodeName[i] in {'i', 'z'}
    requires lo == |nodeName| || nodeName[lo] !in {'i', 'z'}
    requires forall i :: hi <= i < |nodeName| ==> nodeName[i] == 'z'
    requires hi == lo || nodeName[hi - 1] != 'z'
    ensures Stem(nodeName) == nodeName[lo..hi]
    ensures AlicloudInstanceID(nodeName) == "i-" + nodeName[lo..hi]
  {
    TrimLeftUnique(nodeName, {'i', 'z'}, lo);
    TrailingZsOfSlice(nodeName, lo, hi);
  }

  lemma TrailingZsOfSlice(nodeName: string, lo: nat, hi: nat)
    requires lo <= hi <= |nodeName|
    requires forall i :: hi <= i < |nodeName| ==> nodeName[i] == 'z'
    requires hi == lo || nodeName[hi - 1] != 'z'
    ensures TrimRight(nodeName[lo..], {'z'}) == nodeName[lo..hi]
  {
    var left := nodeName[lo..];
    forall i | hi - lo <= i < |left|
      ensures left[i] in {'z'}
    {
      assert left[i] == nodeName[lo + i];
    }
    assert hi - lo == 0 || left[hi - lo - 1] !in {'z'} by {
      if hi > lo {
        assert left[hi - lo - 1] == nodeName[hi - 1];
      }
    }
    TrimRightUnique(left, {'z'}, hi - lo);
  }

  lemma AlicloudInstanceIDExample()
    ensures AlicloudInstanceID("izabc123z") == "i-abc123"
  {
    AlicloudInstanceIDCharacterized("izabc123z", 2, 8);
  }

  /** Cutsets, not prefixes: "iizone" loses its first three characters. */
  lemma AlicloudInstanceIDLeadingRun()
    ensures AlicloudInstanceID("iizone") == "i-one"
  {
    AlicloudInstanceIDCharacterized("iizone", 3, 6);
  }

  /** Only the ends are trimmed: "zigzag" keeps the 'z' after its 'g'. */
  lemma AlicloudInstanceIDInnerZ()
    ensures AlicloudInstanceID("zigzag") == "i-gzag"
  {
    AlicloudInstanceIDCharacterized("zigzag", 2, 6);
  }

  /** A node name made only of 'i' and 'z' leaves an empty stem. */
  lemma AlicloudInstanceIDEmptyStem()
    ensures AlicloudInstanceID("izzz") == "i-"
  {
    AlicloudInstanceIDCharacterized("izzz", 4, 4);
  }

  /** The cases of fetchNodeIP's switch on the infrastructure type. */
  datatype Infra = Aws | Google | Azure | Alicloud | OpenStack | Unknown

  function InfraOf(infraType: string): Infra
  {
    match infraType
    case "aws" => Aws
    case "google" => Google
    case "azurerm" => Azure
    case "alicloud" => Alicloud
    case "openstack" => OpenStack
    case _ => Unknown
  }

  /** The switch recognises exactly the five type names, each as itself. */
  lemma InfraOfNames(infraType: string)
    ensures InfraOf(infraType) == Aws <==> infraType == "aws"
    ensures InfraOf(infraType) == Google <==> infraType == "google"
    ensures InfraOf(infraType) == Azure <==> infraType == "azurerm"
    ensures InfraOf(infraType) == Alicloud <==> infraType == "alicloud"
    ensures InfraOf(infraType) == OpenStack <==> infraType == "openstack"
    ensures InfraOf(infraType) == Unknown <==> infraType !in {"aws", "google", "azurerm", "alicloud", "openstack"}
  {
  }

  /** What fetchNodeIP does: the events it issues, the address it stores in
      BastionIPAddress (None when the process ends instead) and the
      InstanceID it stores (alicloud only). */
  datatype Resolution = Resolution(events: seq<Event>, ip: Option<string>, instanceID: Option<string>)

  /** The private addresses aliyun reports for an instance; None when the
      query or the JSON lookup returned an error. */
  function AlicloudIPs(env: Environment, instanceID: string): Option<seq<string>>
  {
    match env.aliyun(instanceID)
    case None => None
    case Some(res) => env.ipList(res)
  }

  function Resolve(env: Environment, nodeName: string, terraformMain: string): Resolution
  {
    var read := [ReadInfraType(terraformMain)];
    match InfraOf(env.infraType(terraformMain))
    case Aws => Resolution(read, Some(nodeName), None)
    case Google =>
      Resolution(read + [GcloudDescribe(nodeName)], Some(env.findIP(env.gcloud(nodeName))), None)
    case Azure =>
      (match env.az(nodeName)
       case None => Resolution(read + [AzListIPs(nodeName), Exit(2)], None, None)
       case Some(output) => Resolution(read + [AzListIPs(nodeName)], Some(env.findIP(output)), None))
    case Alicloud =>
      var id := AlicloudInstanceID(nodeName);
      var queried := read + [AliyunDescribe(id)];
      (match env.aliyun(id)
       case None => Resolution(queried + [FatalError], None, Some(id))
       case Some(res) =>
         (match env.ipList(res)
          case None => Resolution(queried + [FatalError], None, Some(id))
          case Some(ips) =>
            if |ips| == 0 then Resolution(queried + [IndexPanic], None, Some(id))
            else Resolution(queried, Some(ips[0]), Some(id))))
    case OpenStack => Resolution(read, Some(nodeName), None)
    case Unknown => Resolution(read + [Exit(2)], None, None)
  }

  /** aws and openstack: the node name is the address, and nothing but the
      infrastructure type is asked of the outside world. */
  lemma ResolveNodeNameIsAddress(env: Environment, nodeName: string, terraformMain: string)
    requires env.infraType(terraformMain) in {"aws", "openstack"}
    ensures Resolve(env, nodeName, terraformMain).ip == Some(nodeName)
    ensures Resolve(env, nodeName, terraformMain).events == [ReadInfraType(terraformMain)]
  {
    InfraOfNames(env.infraType(terraformMain));
  }

  /** google and azurerm: the address is findIP of the provider CLI's
      output for the node. */
  lemma ResolveByFindIP(env: Environment, nodeName: string, terraformMain: string)
    requires env.infraType(terraformMain) in {"google", "azurerm"}
    ensures var r := Resolve(env, nodeName, terraformMain);
      r.instanceID.None? &&
      (env.infraType(terraformMain) == "google" ==>
        r.ip == Some(env.findIP(env.gcloud(nodeName))) && r.events[1] == GcloudDescribe(nodeName)) &&
      (env.infraType(terraformMain) == "azurerm" ==>
        r.events[1] == AzListIPs(nodeName) &&
        (r.ip.Some? <==> env.az(nodeName).Some?) &&
        (r.ip.Some? ==> r.ip.value == env.findIP(env.az(nodeName).value)))
  {
    InfraOfNames(env.infraType(terraformMain));
  }

  /** alicloud: the instance ID is derived from the node name and queried,
      and the address is element 0 of the returned list, which must be
      non-empty. */
  lemma ResolveAlicloud(env: Environment, nodeName: string, terraformMain: string)
    requires env.infraType(terraformMain) == "alicloud"
    ensures var r := Resolve(env, nodeName, terraformMain);
      var id := AlicloudInstanceID(nodeName);
      var ips := AlicloudIPs(env, id);
      r.instanceID == Some(id) &&
      r.events[..2] == [ReadInfraType(terraformMain), AliyunDescribe(id)] &&
      (r.ip.Some? <==> ips.Some? && |ips.value| > 0) &&
      (r.ip.Some? ==> r.ip.value == ips.value[0]) &&
      (ips.Some? && ips.value == [] ==> r.events[|r.events| - 1] == IndexPanic)
  {
    InfraOfNames(env.infraType(terraformMain));
  }

  /** The shape every resolution has: it starts by reading the
      infrastructure type, issues no pod command, and ends the process
      (with its last event) exactly when it stores no address. */
  lemma ResolveEvents(env: Environment, nodeName: string, terraformMain: string)
    ensures var r := Resolve(env, nodeName, terraformMain);
      |r.events| >= 1 && r.events[0] == ReadInfraType(terraformMain) &&
      (forall e :: e in r.events ==> !IsPodCommand(e)) &&
      (forall i :: 0 <= i < |r.events| - 1 ==> !IsTermination(r.events[i])) &&
      (r.ip.None? <==> IsTermination(r.events[|r.events| - 1]))
  {
    var r := Resolve(env, nodeName, terraformMain);
    if InfraOf(env.infraType(terraformMain)) == Alicloud {
      var id := AlicloudInstanceID(nodeName);
      assert r.events[..2] == [ReadInfraType(terraformMain), AliyunDescribe(id)];
      assert |r.events| == 2 || r.events == r.events[..2] + [r.events[2]];
    }
  }

  /** Only alicloud stores an instance ID. */
  lemma ResolveInstanceID(env: Environment, nodeName: string, terraformMain: string)
    ensures Resolve(env, nodeName, terraformMain).instanceID.Some? <==> env.infraType(terraformMain) == "alicloud"
  {
    InfraOfNames(env.infraType(terraformMain));
  }

  /** The process ends with exit status 2 exactly for an unknown
      infrastructure type, a failed az query (both through os.Exit(2)) and
      an alicloud reply with an empty address list (through the runtime
      panic of ips[0]); os.Exit(2) itself is called only in the first two. */
  lemma ResolveExitTwo(env: Environment, nodeName: string, terraformMain: string)
    ensures var r := Resolve(env, nodeName, terraformMain);
      var infra := InfraOf(env.infraType(terraformMain));
      var ips := AlicloudIPs(env, AlicloudInstanceID(nodeName));
      |r.events| > 0 &&
      (Exit(2) in r.events <==> infra == Unknown || (infra == Azure && env.az(nodeName).None?)) &&
      (ExitsWithStatusTwo(r.events[|r.events| - 1]) <==>
        infra == Unknown || (infra == Azure && env.az(nodeName).None?) ||
        (infra == Alicloud && ips.Some? && |ips.value| == 0))
  {
  }
}
