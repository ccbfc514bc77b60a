// controllers/baremetalinstance/provisioner.go: Reconcile as the controller runs it, over the API
// server, the agents, and the endpoints. It does what Provisioner.Decide says.
module ProvisionerController {
  import opened Common
  import opened Objects
  import opened Store
  import opened Provisioner
  import Agent
  import Endpoints
  import Networking
  import NetworkData

  // action.ImageRequest, without the image URL and the user data, which are fixed; uid and hostname
  // make up the metadata.
  datatype ImageRequest = ImageRequest(diskPath: string, uid: nat, hostname: string, networkData: NetworkData.Data)

  predicate Takes(boots: map<string, Agent.Boot>, machine: string) {
    machine in boots && Agent.Accepts(boots[machine])
  }

  // The agents that answer on the network, by machine, and the image request each took last.
  class AgentNetwork {
    var boots: map<string, Agent.Boot>
    var images: map<string, ImageRequest>

    constructor ()
      ensures boots == map[] && images == map[]
    {
      boots, images := map[], map[];
    }

    method GetStatus(machine: string) returns (answer: AgentAnswer)
      ensures answer == AnswerOf(boots, machine)
    {
      if machine !in boots {
        return AgentError;
      }
      return if boots[machine].current == None then AgentIdle else AgentBusy(boots[machine].current.value);
    }

    /** POST /clean: accepted, or a conflict. */
    method PostClean(machine: string) returns (err: Outcome)
      modifies this`boots
      ensures boots == PostTo(old(boots), machine, Agent.CleaningDisks)
    {
      if machine !in boots {
        return Fail("no answer");
      }
      if boots[machine].current == None {
        boots := boots[machine := Agent.Started(boots[machine], Agent.CleaningDisks)];
      }
      return Pass;
    }

    /** POST /image: accepted, or a conflict. */
    method PostImage(machine: string, request: ImageRequest) returns (err: Outcome)
      modifies this
      ensures boots == PostTo(old(boots), machine, Agent.Imaging)
      ensures images == if Takes(old(boots), machine) then old(images)[machine := request] else old(images)
    {
      if machine !in boots {
        return Fail("no answer");
      }
      if boots[machine].current == None {
        boots := boots[machine := Agent.Started(boots[machine], Agent.Imaging)];
        images := images[machine := request];
      }
      return Pass;
    }
  }

  function NetworkAnswerOf(reg: Endpoints.Registry, k: Key, bmi: Instance, bmh: Hardware): NetworkAnswer {
    if Networking.ReadyCount(reg, k.name, bmi.uid, bmh.nics) == |bmh.nics| then AllAddressed else NotAllAddressed
  }

  /** Everything a pass could read, read at once. */
  function FullRun(c: Cluster, boots: map<string, Agent.Boot>, reg: Endpoints.Registry, k: Key, bmi: Instance): Run {
    var bmh := HardwareAt(c, HardwareKey(k, bmi));
    Run(bmi, Some(bmh),
        Some(if bmi.agentInfo.Some? then AnswerOf(boots, bmi.agentInfo.value) else AgentError),
        Some(if bmh.Some? then NetworkAnswerOf(reg, k, bmi, bmh.value) else NotAllAddressed))
  }

  /** Some endpoint of the instance has no usable address, so that no network data can be made. */
  ghost predicate DataFails(reg: Endpoints.Registry, k: Key, uid: nat) {
    exists j :: j in reg.endpoints && reg.endpoints[j].instanceLabel == Some(k.name)
      && NetworkData.Relevant(reg.endpoints[j], uid) && !NetworkData.HasAddress(reg.endpoints[j])
  }

  /** names is what List returned for the instance label: every endpoint with it once. */
  ghost predicate Labelled(reg: Endpoints.Registry, instance: string, names: seq<Key>) {
    && (forall i, j :: 0 <= i < j < |names| ==> names[i] != names[j])
    && (forall j :: j in names <==> j in reg.endpoints && reg.endpoints[j].instanceLabel == Some(instance))
  }

  function EndpointsAt(reg: Endpoints.Registry, names: seq<Key>): seq<Endpoints.Endpoint>
    requires forall j :: j in names ==> j in reg.endpoints
  {
    seq(|names|, i requires 0 <= i < |names| => assert names[i] in names; reg.endpoints[names[i]])
  }

  /** The network data of the instance, in the order of some listing of its endpoints. */
  ghost predicate IsDataOf(reg: Endpoints.Registry, k: Key, uid: nat, data: NetworkData.Data) {
    exists names :: Labelled(reg, k.name, names) && NetworkData.DataOf(EndpointsAt(reg, names), uid) == Some(data)
  }

  /** The request is for this instance, its hardware's image drive and its endpoints. */
  ghost predicate IsRequestFor(reg: Endpoints.Registry, k: Key, bmi: Instance, bmh: Hardware, request: ImageRequest) {
    && request.diskPath == "/dev/" + bmh.imageDrive
    && request.uid == bmi.uid && request.hostname == k.name
    && IsDataOf(reg, k, bmi.uid, request.networkData)
  }

  /** The image requests that agents took: one more exactly if the pass sent one to an idle agent. */
  ghost predicate Requested(before: map<string, ImageRequest>, after: map<string, ImageRequest>,
                            boots: map<string, Agent.Boot>, reg: Endpoints.Registry, k: Key, r: Run, e: Effect) {
    if e.PostImage? && r.bmi.agentInfo.Some? && r.bmh.Some? && r.bmh.value.Some? && Takes(boots, r.bmi.agentInfo.value) then
      var machine := r.bmi.agentInfo.value;
      && machine in after && after == before[machine := after[machine]]
      && IsRequestFor(reg, k, r.bmi, r.bmh.value.value, after[machine])
    else after == before
  }

  /** The pass gets as far as the network data of the image. */
  predicate MakesData(k: Key, r: Run) {
    !r.bmi.deleting && Decide(k, r.(agent := None)).NeedAgent? && r.agent != Some(AgentError)
  }

  /** What an uninterrupted pass does: what Decide says, unless the network data fails first. */
  ghost function EffectOf(k: Key, r: Run, reg: Endpoints.Registry): Effect {
    if MakesData(k, r) && DataFails(reg, k, r.bmi.uid) then NoEffect else Decide(k, r)
  }

  function ApplyTo(c: Cluster, k: Key, r: Run, e: Effect): Cluster {
    match e
    case UpdateInstance(bmi) => WriteInstance(c, k, bmi)
    case UpdateHardware(bmh) => WriteHardware(c, HardwareKey(k, r.bmi), bmh)
    case _ => c
  }

  function SendTo(boots: map<string, Agent.Boot>, r: Run, e: Effect): map<string, Agent.Boot> {
    if r.bmi.agentInfo.None? then boots
    else if e.PostImage? then PostTo(boots, r.bmi.agentInfo.value, Agent.Imaging)
    else if e.PostClean? then PostTo(boots, r.bmi.agentInfo.value, Agent.CleaningDisks)
    else boots
  }

  /** The endpoints after the pass: one more if it networks the instance and a NIC has none. */
  function EndpointsAfter(reg: Endpoints.Registry, k: Key, r: Run, generated: Key): Endpoints.Registry {
    if r.bmh.Some? && r.bmh.value.Some? && Decide(k, r.(network := None)).NeedNetwork?
    then Networking.Networked(reg, k.name, r.bmi.uid, r.bmh.value.value.nics, r.bmh.value.value.discovered, generated)
    else reg
  }

  /** The hardware is the instance's, and ready to be networked and imaged. */
  predicate Claimed(bmi: Instance, bmh: Hardware) {
    && !bmi.deleting && bmi.Is(InstanceScheduled, StatusTrue) && bmi.phase == Provisioning
    && !bmh.deleting && !bmh.HasTaint(NotReadyKey)
    && bmh.instanceRef.Some? && bmh.instanceRef.value.uid == bmi.uid
  }

  /** What is left to decide once the hardware is claimed. */
  lemma WhenClaimed(k: Key, r: Run)
    requires r.bmh.Some? && r.bmh.value.Some? && Claimed(r.bmi, r.bmh.value.value) && r.network.Some?
    ensures var networked := r.bmi.Is(InstanceNetworked, StatusTrue);
            && (Decide(k, r.(network := None)).NeedNetwork? <==> r.bmi.Is(InstanceNetworked, StatusFalse))
            && (MakesData(k, r) <==> networked && DecideImaging(r.(agent := None)).NeedAgent? && r.agent != Some(AgentError))
            && Decide(k, r) ==
                 if !r.bmi.Has(InstanceNetworked) then UpdateInstance(r.bmi.SetCondition(InstanceNetworked, StatusFalse))
                 else if r.bmi.Is(InstanceNetworked, StatusFalse) then
                   if r.network == Some(AllAddressed) then UpdateInstance(r.bmi.SetCondition(InstanceNetworked, StatusTrue))
                   else NoEffect
                 else if networked then DecideImaging(r)
                 else NoEffect
  {
  }

  lemma ImagingIgnores(r: Run, q: Run)
    requires q.bmi == r.bmi && q.agent == r.agent
    ensures DecideImaging(q) == DecideImaging(r)
  {
  }

  lemma DataFailsIff(reg: Endpoints.Registry, k: Key, uid: nat, names: seq<Key>)
    requires Labelled(reg, k.name, names)
    ensures NetworkData.DataOf(EndpointsAt(reg, names), uid).None? <==> DataFails(reg, k, uid)
  {
    var list := EndpointsAt(reg, names);
    NetworkData.NoDataIff(list, uid);
    forall j | j in names
      ensures exists i :: 0 <= i < |list| && list[i] == reg.endpoints[j]
    {
      var i :| 0 <= i < |names| && names[i] == j;
      assert list[i] == reg.endpoints[j];
    }
    assert forall i :: 0 <= i < |list| ==> names[i] in names;
  }

  class ProvisionerReconciler {

    method ListData(endpoints: Endpoints.EndpointServer, k: Key, uid: nat) returns (data: Option<NetworkData.Data>)
      ensures data.None? <==> DataFails(endpoints.View(), k, uid)
      ensures data.Some? ==> IsDataOf(endpoints.View(), k, uid, data.value)
    {
      hide DataFails, NetworkData.DataOf;
      var names := endpoints.ListByLabels(k.name, None);
      assert Labelled(endpoints.View(), k.name, names);
      var list := [];
      for n := 0 to |names|
        invariant list == EndpointsAt(endpoints.View(), names)[..n]
      {
        list := list + [endpoints.endpoints[names[n]]];
      }
      assert list == EndpointsAt(endpoints.View(), names);
      data := NetworkData.BuildNetworkData(list, uid);
      DataFailsIff(endpoints.View(), k, uid, names);
    }

    /** The dialogue with the agent that cleans the disks. */
    method Clean(api: ApiServer, agents: AgentNetwork, k: Key, bmi: Instance, bmh: Hardware) returns (err: Outcome)
      requires bmi.deleting && bmi.agentInfo.Some? && bmh.instanceRef.Some? && bmh.instanceRef.value.uid == bmi.uid
      requires bmi.phase == Cleaning && bmi.Has(InstanceCleaned) && bmi.hardwareName != ""
      requires !bmi.Is(InstanceCleaned, StatusTrue) && !bmi.Is(InstanceCleaned, StatusError)
      modifies api, agents`boots
      ensures var r := Run(bmi, Some(Some(bmh)), Some(AnswerOf(old(agents.boots), bmi.agentInfo.value)), None);
              var e := DecideDeleting(k, r);
              api.View() == ApplyTo(old(api.View()), k, r, e) && agents.boots == SendTo(old(agents.boots), r, e)
    {
      err := Pass;
      var agentStatus := agents.GetStatus(bmi.agentInfo.value);
      if agentStatus == AgentError {
        return Fail("could not check agent status");
      }
      if agentStatus == AgentIdle {
        err := agents.PostClean(bmi.agentInfo.value);
        return;
      }
      if agentStatus.status.actionType != Agent.CleaningDisks {
        return;
      }
      if !agentStatus.status.done {
        return;
      }
      if agentStatus.status.failed {
        err := api.UpdateInstanceStatus(k, bmi.SetCondition(InstanceCleaned, StatusError));
        return;
      }
      err := api.UpdateHardwareStatus(HardwareKey(k, bmi), bmh.(instanceRef := None));
    }

    method ReconcileDeleting(api: ApiServer, agents: AgentNetwork, k: Key, fetched: Instance) returns (err: Outcome)
      requires fetched.deleting
      modifies api, agents`boots
      ensures var answer := if fetched.agentInfo.Some? then AnswerOf(old(agents.boots), fetched.agentInfo.value) else AgentError;
              var r := Run(fetched, Some(HardwareAt(old(api.View()), HardwareKey(k, fetched))), Some(answer), None);
              var e := DecideDeleting(k, r);
              api.View() == ApplyTo(old(api.View()), k, r, e) && agents.boots == SendTo(old(agents.boots), r, e)
    {
      var bmi := fetched;
      err := Pass;
      if bmi.phase == Terminating || bmi.phase == Terminated {
        return;
      }
      if !bmi.Has(InstanceCleaned) {
        err := api.UpdateInstanceStatus(k, bmi.SetCondition(InstanceCleaned, StatusFalse));
        return;
      }
      if bmi.Is(InstanceCleaned, StatusTrue) {
        bmi := bmi.(phase := Terminating, agentInfo := None);
        err := api.UpdateInstanceStatus(k, bmi);
        return;
      }
      if bmi.Is(InstanceCleaned, StatusError) {
        return;
      }
      if bmi.phase != Cleaning {
        bmi := bmi.(phase := Cleaning);
        err := api.UpdateInstanceStatus(k, bmi);
        return;
      }
      if |bmi.hardwareName| == 0 {
        bmi := bmi.(phase := Terminating);
        err := api.UpdateInstanceStatus(k, bmi);
        return;
      }
      var bmh := api.GetHardware(HardwareKey(k, bmi));
      if bmh == None || (bmh.value.instanceRef != None && bmh.value.instanceRef.value.uid != bmi.uid) {
        bmi := bmi.(phase := Terminating);
        err := api.UpdateInstanceStatus(k, bmi);
        return;
      }
      if bmh.value.instanceRef == None {
        err := api.UpdateInstanceStatus(k, bmi.SetCondition(InstanceCleaned, StatusTrue));
        return;
      }
      if bmi.agentInfo == None {
        return;
      }
      err := Clean(api, agents, k, bmi, bmh.value);
    }

    /** The part once the instance is networked. */
    method Image(api: ApiServer, agents: AgentNetwork, endpoints: Endpoints.EndpointServer, k: Key,
                 fetched: Instance, bmh: Hardware)
      returns (err: Outcome)
      modifies api, agents
      ensures var answer := if fetched.agentInfo.Some? then AnswerOf(old(agents.boots), fetched.agentInfo.value) else AgentError;
              var r := Run(fetched, Some(Some(bmh)), Some(answer), None);
              var asks := DecideImaging(r.(agent := None)).NeedAgent? && answer != AgentError;
              var e := if asks && DataFails(endpoints.View(), k, fetched.uid) then NoEffect else DecideImaging(r);
              && api.View() == ApplyTo(old(api.View()), k, r, e)
              && agents.boots == SendTo(old(agents.boots), r, e)
              && Requested(old(agents.images), agents.images, old(agents.boots), endpoints.View(), k, r, e)
    {
      hide DataFails, IsDataOf;
      var bmi := fetched;
      err := Pass;
      if !bmi.Has(InstanceImaged) {
        err := api.UpdateInstanceStatus(k, bmi.SetCondition(InstanceImaged, StatusFalse));
        return;
      }
      if bmi.Is(InstanceImaged, StatusTrue) {
        bmi := bmi.(phase := Running, agentInfo := None);
        err := api.UpdateInstanceStatus(k, bmi);
        return;
      }
      if bmi.Is(InstanceImaged, StatusError) {
        return;
      }
      if bmi.agentInfo == None {
        return;
      }
      var agentStatus := agents.GetStatus(bmi.agentInfo.value);
      if agentStatus == AgentError {
        return Fail("could not check agent status");
      }
      var data := ListData(endpoints, k, bmi.uid);
      if data == None {
        return Fail("no network data");
      }
      if agentStatus == AgentIdle {
        var request := ImageRequest("/dev/" + bmh.imageDrive, bmi.uid, k.name, data.value);
        err := agents.PostImage(bmi.agentInfo.value, request);
        return;
      }
      if agentStatus.status.actionType != Agent.Imaging {
        return;
      }
      if !agentStatus.status.done {
        return;
      }
      if agentStatus.status.failed {
        err := api.UpdateInstanceStatus(k, bmi.SetCondition(InstanceImaged, StatusError));
        return;
      }
      err := api.UpdateInstanceStatus(k, bmi.SetCondition(InstanceImaged, StatusTrue));
    }

    method HasNotReadyTaint(taints: seq<Taint>) returns (found: bool)
      ensures found <==> exists i :: 0 <= i < |taints| && taints[i].key == NotReadyKey
    {
      for t := 0 to |taints|
        invariant forall i :: 0 <= i < t ==> taints[i].key != NotReadyKey
      {
        if taints[t].key == NotReadyKey {
          return true;
        }
      }
      return false;
    }

    /** Networking, then imaging, once the hardware is claimed. */
    method ProvisionClaimed(api: ApiServer, agents: AgentNetwork, endpoints: Endpoints.EndpointServer, k: Key,
                            bmi: Instance, bmh: Hardware, generated: Key)
      returns (err: Outcome)
      requires Claimed(bmi, bmh)
      modifies api, agents, endpoints
      ensures var c, boots, images, reg := old(api.View()), old(agents.boots), old(agents.images), old(endpoints.View());
              var answer := if bmi.agentInfo.Some? then AnswerOf(boots, bmi.agentInfo.value) else AgentError;
              var r := Run(bmi, Some(Some(bmh)), Some(answer), Some(NetworkAnswerOf(reg, k, bmi, bmh)));
              var e := EffectOf(k, r, reg);
              && api.View() == ApplyTo(c, k, r, e)
              && agents.boots == SendTo(boots, r, e)
              && Requested(images, agents.images, boots, reg, k, r, e)
              && endpoints.View() == EndpointsAfter(reg, k, r, generated)
    {
      hide DataFails, IsRequestFor, Networking.ReadyCount, Networking.Networked, AnswerOf, PutInstance;
      ghost var answer := if bmi.agentInfo.Some? then AnswerOf(agents.boots, bmi.agentInfo.value) else AgentError;
      ghost var r := Run(bmi, Some(Some(bmh)), Some(answer), Some(NetworkAnswerOf(endpoints.View(), k, bmi, bmh)));
      WhenClaimed(k, r);
      ImagingIgnores(r, Run(bmi, Some(Some(bmh)), Some(answer), None));
      ImagingIgnores(r.(agent := None), Run(bmi, Some(Some(bmh)), None, None));
      hide Decide, DecideImaging, MakesData, Claimed;
      err := Pass;
      if !bmi.Has(InstanceNetworked) {
        err := api.UpdateInstanceStatus(k, bmi.SetCondition(InstanceNetworked, StatusFalse));
        return;
      }
      if bmi.Is(InstanceNetworked, StatusFalse) {
        var networking := new Networking.InstanceNetworking();
        var allAddressed;
        allAddressed, err := networking.EnsureEndpoints(endpoints, k.name, bmi.uid, bmh.nics, bmh.discovered, generated);
        if !allAddressed {
          return;
        }
        err := api.UpdateInstanceStatus(k, bmi.SetCondition(InstanceNetworked, StatusTrue));
        return;
      }
      if bmi.Is(InstanceNetworked, StatusTrue) {
        err := Image(api, agents, endpoints, k, bmi, bmh);
      }
    }

    method Provision(api: ApiServer, agents: AgentNetwork, endpoints: Endpoints.EndpointServer, k: Key,
                     bmi: Instance, generated: Key)
      returns (err: Outcome)
      requires !bmi.deleting && bmi.Is(InstanceScheduled, StatusTrue)
      modifies api, agents, endpoints
      ensures var c, boots, images, reg := old(api.View()), old(agents.boots), old(agents.images), old(endpoints.View());
              var r := FullRun(c, boots, reg, k, bmi);
              var e := EffectOf(k, r, reg);
              && api.View() == ApplyTo(c, k, r, e)
              && agents.boots == SendTo(boots, r, e)
              && Requested(images, agents.images, boots, reg, k, r, e)
              && endpoints.View() == EndpointsAfter(reg, k, r, generated)
    {
      hide DataFails, IsRequestFor, Networking.ReadyCount, Networking.Networked, DecideImaging;
      err := Pass;
      if bmi.phase != Provisioning {
        return;
      }
      var found := api.GetHardware(HardwareKey(k, bmi));
      if found == None {
        return;
      }
      var bmh := found.value;
      if bmh.deleting {
        return;
      }
      if bmh.instanceRef != None && bmh.instanceRef.value.uid != bmi.uid {
        return;
      }
      var notReady := HasNotReadyTaint(bmh.taints);
      if notReady {
        return;
      }
      if bmh.instanceRef == None {
        bmh := bmh.(instanceRef := Some(RefTo(k, bmi)));
        err := api.UpdateHardwareStatus(HardwareKey(k, bmi), bmh);
        return;
      }
      hide Decide, EffectOf, EndpointsAfter, SendTo, ApplyTo, Requested;
      err := ProvisionClaimed(api, agents, endpoints, k, bmi, bmh, generated);
    }

    /** One uninterrupted reconcile does what Decide says about everything it could have read. */
    method Reconcile(api: ApiServer, agents: AgentNetwork, endpoints: Endpoints.EndpointServer, k: Key, generated: Key)
      returns (err: Outcome)
      modifies api, agents, endpoints
      ensures var c, boots, images, reg := old(api.View()), old(agents.boots), old(agents.images), old(endpoints.View());
              if k !in c.instances then
                api.View() == c && agents.boots == boots && agents.images == images && endpoints.View() == reg
              else
                var r := FullRun(c, boots, reg, k, c.instances[k]);
                var e := EffectOf(k, r, reg);
                && api.View() == ApplyTo(c, k, r, e)
                && agents.boots == SendTo(boots, r, e)
                && Requested(images, agents.images, boots, reg, k, r, e)
                && endpoints.View() == EndpointsAfter(reg, k, r, generated)
    {
      hide DataFails, IsRequestFor, NetworkAnswerOf, Networking.Networked, DecideImaging, DecideProvisioning;
      err := Pass;
      var fetched := api.GetInstance(k);
      if fetched == None {
        return;
      }
      var bmi := fetched.value;
      if !bmi.Is(InstanceScheduled, StatusTrue) {
        return;
      }
      if bmi.deleting {
        err := ReconcileDeleting(api, agents, k, bmi);
        return;
      }
      hide Decide, EffectOf, EndpointsAfter, SendTo, ApplyTo, Requested;
      err := Provision(api, agents, endpoints, k, bmi, generated);
    }
  }
}
