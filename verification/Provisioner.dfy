// controllers/baremetalinstance/provisioner.go: what one pass decides about the objects it read.
module Provisioner {
  import opened Common
  import opened Objects
  import Agent

  // The answer of the status request: no usable answer, 204, or 200 with a status.
  datatype AgentAnswer = AgentError | AgentIdle | AgentBusy(status: Agent.ActionStatus)

  /** What the agent of a machine answers, if one is running. */
  function AnswerOf(boots: map<string, Agent.Boot>, machine: string): AgentAnswer {
    if machine !in boots then AgentError
    else
      match boots[machine].current
      case None => AgentIdle
      case Some(status) => AgentBusy(status)
  }

  /** The agents after a request was sent to a machine. */
  function PostTo(boots: map<string, Agent.Boot>, machine: string, t: Agent.ActionType): map<string, Agent.Boot> {
    if machine in boots && Agent.Accepts(boots[machine]) then boots[machine := Agent.Started(boots[machine], t)] else boots
  }

  /** What the answer says about the boot: an idle agent was never asked, and a busy one reports on
      the first request it got. Only an idle agent takes a request, and then reports on that one. */
  lemma AnswerTells(boots: map<string, Agent.Boot>, machine: string, events: seq<Agent.AgentEvent>, t: Agent.ActionType)
    requires machine in boots && boots[machine] == Agent.RunBoot(events)
    ensures AnswerOf(boots, machine) == AgentIdle <==> forall j :: 0 <= j < |events| ==> !events[j].Request?
    ensures forall i :: 0 <= i < |events| && Agent.AcceptedAt(events, i) ==>
              AnswerOf(boots, machine).AgentBusy? && AnswerOf(boots, machine).status.actionType == events[i].actionType
    ensures AnswerOf(PostTo(boots, machine, t), machine) ==
              if AnswerOf(boots, machine) == AgentIdle then AgentBusy(Agent.ActionStatus(t, false, false))
              else AnswerOf(boots, machine)
  {
    Agent.FreeUntilFirstRequest(events);
    forall i | 0 <= i < |events| && Agent.AcceptedAt(events, i)
      ensures boots[machine].current.Some? && boots[machine].current.value.actionType == events[i].actionType
    {
      Agent.OneActionPerBoot(events, i);
    }
  }

  // What the loop over the NICs found out.
  datatype NetworkAnswer = AllAddressed | NotAllAddressed

  // A reconcile in flight: the instance it fetched and the answers it got since.
  datatype Run = Run(
    bmi: Instance,
    bmh: Option<Option<Hardware>>,
    agent: Option<AgentAnswer>,
    network: Option<NetworkAnswer>)

  datatype Effect =
    | NoEffect
    | NeedHardware
    | NeedAgent
    | NeedNetwork
    | UpdateInstance(bmi: Instance)
    | UpdateHardware(bmh: Hardware)
    | PostClean
    | PostImage

  /** The hardware an instance is scheduled on. */
  function HardwareKey(k: Key, bmi: Instance): Key {
    Key(k.ns, bmi.hardwareName)
  }

  function RefTo(k: Key, bmi: Instance): InstanceRef {
    InstanceRef(k, bmi.uid)
  }

  function DecideDeleting(k: Key, r: Run): Effect {
    var bmi := r.bmi;
    if bmi.phase == Terminating || bmi.phase == Terminated then NoEffect
    else if !bmi.Has(InstanceCleaned) then UpdateInstance(bmi.SetCondition(InstanceCleaned, StatusFalse))
    else if bmi.Is(InstanceCleaned, StatusTrue) then
      UpdateInstance(bmi.(phase := Terminating, agentInfo := None))
    else if bmi.Is(InstanceCleaned, StatusError) then NoEffect
    else if bmi.phase != Cleaning then UpdateInstance(bmi.(phase := Cleaning))
    else if bmi.hardwareName == "" then UpdateInstance(bmi.(phase := Terminating))
    else
      match r.bmh
      case None => NeedHardware
      case Some(None) => UpdateInstance(bmi.(phase := Terminating))
      case Some(Some(bmh)) =>
        if bmh.instanceRef.Some? && bmh.instanceRef.value.uid != bmi.uid then
          UpdateInstance(bmi.(phase := Terminating))
        else if bmh.instanceRef.None? then UpdateInstance(bmi.SetCondition(InstanceCleaned, StatusTrue))
        else if bmi.agentInfo.None? then NoEffect
        else
          match r.agent
          case None => NeedAgent
          case Some(AgentError) => NoEffect
          case Some(AgentIdle) => PostClean
          case Some(AgentBusy(status)) =>
            if status.actionType != Agent.CleaningDisks || !status.done then NoEffect
            else if status.failed then UpdateInstance(bmi.SetCondition(InstanceCleaned, StatusError))
            else UpdateHardware(bmh.(instanceRef := None))
  }

  /** The part once the hardware is claimed and the networked condition is true. */
  function DecideImaging(r: Run): Effect {
    var bmi := r.bmi;
    if !bmi.Has(InstanceImaged) then UpdateInstance(bmi.SetCondition(InstanceImaged, StatusFalse))
    else if bmi.Is(InstanceImaged, StatusTrue) then UpdateInstance(bmi.(phase := Running, agentInfo := None))
    else if bmi.Is(InstanceImaged, StatusError) then NoEffect
    else if bmi.agentInfo.None? then NoEffect
    else
      match r.agent
      case None => NeedAgent
      case Some(AgentError) => NoEffect
      case Some(AgentIdle) => PostImage
      case Some(AgentBusy(status)) =>
        if status.actionType != Agent.Imaging || !status.done then NoEffect
        else if status.failed then UpdateInstance(bmi.SetCondition(InstanceImaged, StatusError))
        else UpdateInstance(bmi.SetCondition(InstanceImaged, StatusTrue))
  }

  function DecideProvisioning(k: Key, r: Run): Effect {
    var bmi := r.bmi;
    if bmi.phase != Provisioning then NoEffect
    else
      match r.bmh
      case None => NeedHardware
      case Some(None) => NoEffect
      case Some(Some(bmh)) =>
        if bmh.deleting then NoEffect
        else if bmh.instanceRef.Some? && bmh.instanceRef.value.uid != bmi.uid then NoEffect
        else if bmh.HasTaint(NotReadyKey) then NoEffect
        else if bmh.instanceRef.None? then UpdateHardware(bmh.(instanceRef := Some(RefTo(k, bmi))))
        else if !bmi.Has(InstanceNetworked) then UpdateInstance(bmi.SetCondition(InstanceNetworked, StatusFalse))
        else if bmi.Is(InstanceNetworked, StatusFalse) then
          match r.network
          case None => NeedNetwork
          case Some(NotAllAddressed) => NoEffect
          case Some(AllAddressed) => UpdateInstance(bmi.SetCondition(InstanceNetworked, StatusTrue))
        else if bmi.Is(InstanceNetworked, StatusTrue) then DecideImaging(r)
        else NoEffect
  }

  function Decide(k: Key, r: Run): Effect {
    if !r.bmi.Is(InstanceScheduled, StatusTrue) then NoEffect
    else if r.bmi.deleting then DecideDeleting(k, r)
    else DecideProvisioning(k, r)
  }
}
