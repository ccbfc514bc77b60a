// The whole instance and hardware life cycle as a transition system: any number of instances
// and machines, every controller, the discovery server's /ready handler, the agents, and users.
// A reconcile is not atomic. Each one reads objects at different moments, keeps what it read
// in a run, and later tries one write, which the API server refuses if the object moved on.
// A controller has at most one run per key; different controllers and keys interleave freely.
//
// dirty and bound are history: dirty records whose image was last accepted on a machine and
// not cleaned off since; bound records the hardware object /ready last found for a machine.
module Lifecycle {
  import opened Common
  import opened Objects
  import opened Store
  import opened Agent
  import Provisioner
  import Scheduler
  import InstanceController
  import HardwareController
  import HardwareWebhook
  import opened Discovery

  // A scheduler run that holds the lock has listed the hardware of its namespace at some point
  // and found some of the names unused by any instance.
  datatype SchedulerRun =
    | Unlocked(bmi: Instance)
    | Locked(bmi: Instance, listed: map<Key, Hardware>, unused: set<string>)

  datatype HardwareRun = HardwareRun(bmh: Hardware, tenant: Option<Option<nat>>)

  // A /ready request that found exactly one hardware object, with an instance on it.
  datatype ReadyRun = ReadyRun(machine: string, hardware: Key, ref: InstanceRef, bmi: Option<Instance>)

  datatype State = State(
    api: Cluster,
    boots: map<string, Boot>,
    dirty: map<string, nat>,
    bound: map<string, Key>,
    controllerRuns: map<Key, Instance>,
    schedulerRuns: map<Key, SchedulerRun>,
    lock: Option<Key>,
    provisionerRuns: map<Key, Provisioner.Run>,
    hardwareRuns: map<Key, HardwareRun>,
    readyRuns: map<nat, ReadyRun>)

  const INIT := State(Cluster(map[], map[], 0, 0), map[], map[], map[], map[], map[], None, map[], map[], map[])

  datatype Event =
    // users
    | CreateInstance(k: Key, obj: Instance)
    | DeleteInstance(k: Key)
    | ReleaseInstance(k: Key, finalizer: Finalizer)
    | CreateHardware(k: Key, bmh: Hardware)
    | EditHardware(k: Key, bmh: Hardware)
    | DeleteHardware(k: Key)
    | ReleaseHardware(k: Key, finalizer: Finalizer)
    // machines
    | PowerOff(machine: string)
    | BootAgent(machine: string)
    | EndAction(machine: string, failed: bool)
    // instance controller
    | ControllerRead(k: Key)
    | ControllerWrite(k: Key)
    // scheduler
    | SchedulerRead(k: Key)
    | SchedulerWrite(k: Key)
    | SchedulerLock(k: Key)
    | SchedulerList(k: Key)
    | SchedulerCheck(k: Key, name: string)
    | SchedulerAssign(k: Key, name: string, tolerates: Scheduler.Tolerates)
    | SchedulerUnassign(k: Key)
    // provisioner
    | ProvisionerRead(k: Key)
    | ProvisionerReadHardware(k: Key)
    | ProvisionerAskAgent(k: Key)
    | ProvisionerNetwork(k: Key, network: Provisioner.NetworkAnswer)
    | ProvisionerWrite(k: Key)
    | ProvisionerClaimOrRelease(k: Key)
    | ProvisionerPost(k: Key)
    // hardware controller
    | HardwareRead(k: Key)
    | HardwareLookup(k: Key)
    | HardwareWrite(k: Key, discoveries: seq<Option<Discovered>>)
    // /ready
    | ReadyFind(id: nat, machine: string, k: Key)
    | ReadyRead(id: nat)
    | ReadyWrite(id: nat)
    // a run that ends without a write: nothing to do, an error, or a crash
    | AbortController(k: Key)
    | AbortScheduler(k: Key)
    | AbortProvisioner(k: Key)
    | AbortHardware(k: Key)
    | AbortReady(id: nat)

  // ---------------------------------------------------------------- users

  predicate NewInstance(c: Cluster, obj: Instance) {
    && obj.uid == c.nextUid
    && !obj.deleting && OwnFinalizer in obj.finalizers
    && obj.phase == NoPhase && obj.conditions == map[] && obj.hardwareName == "" && obj.agentInfo == None
  }

  function AfterCreateInstance(c: Cluster, k: Key, obj: Instance): Cluster {
    PutInstance(c, k, obj).(nextUid := c.nextUid + 1)
  }

  predicate NewHardware(bmh: Hardware) {
    && !bmh.deleting && OwnFinalizer in bmh.finalizers
    && bmh.instanceRef == None && bmh.discovered == None && bmh.conditions == map[]
    && HardwareWebhook.NicsAllowed(bmh.nics)
  }

  /** What a user may change of a hardware object: the spec without the system UUID, and labels. */
  predicate SpecEdit(before: Hardware, after: Hardware) {
    && after.version == before.version
    && after.deleting == before.deleting
    && after.finalizers == before.finalizers
    && after.systemUUID == before.systemUUID
    && after.conditions == before.conditions
    && after.instanceRef == before.instanceRef
    && after.discovered == before.discovered
  }

  predicate UserWrites(c: Cluster, e: Event, c': Cluster) {
    match e
    case CreateInstance(k, obj) =>
      k !in c.instances && NewInstance(c, obj) && c' == AfterCreateInstance(c, k, obj)
    case DeleteInstance(k) => c' == Store.DeleteInstance(c, k)
    case ReleaseInstance(k, finalizer) =>
      && finalizer.ForeignFinalizer? && k in c.instances
      && c' == SubmitInstance(c, k, c.instances[k].(finalizers := c.instances[k].finalizers - {finalizer}))
    case CreateHardware(k, bmh) =>
      k !in c.hardware && k.name != "" && NewHardware(bmh) && c' == PutHardware(c, k, bmh)
    case EditHardware(k, bmh) =>
      k in c.hardware && SpecEdit(c.hardware[k], bmh) && c' == SubmitHardware(c, k, bmh)
    case DeleteHardware(k) => c' == Store.DeleteHardware(c, k)
    case ReleaseHardware(k, finalizer) =>
      && finalizer.ForeignFinalizer? && k in c.hardware
      && c' == SubmitHardware(c, k, c.hardware[k].(finalizers := c.hardware[k].finalizers - {finalizer}))
    case _ => false
  }

  predicate UserNext(s: State, e: Event, s': State) {
    s' == s.(api := s'.api) && UserWrites(s.api, e, s'.api)
  }

  // ---------------------------------------------------------------- machines

  /** The disks are clean once a clean action ends without an error. */
  predicate EndsClean(b: Boot, failed: bool) {
    b.current.Some? && !b.current.value.done && b.current.value.actionType == CleaningDisks && !failed
  }

  function AfterEndAction(s: State, machine: string, failed: bool): State
    requires machine in s.boots
  {
    var b := s.boots[machine];
    s.(boots := s.boots[machine := Finished(b, failed)],
       dirty := if EndsClean(b, failed) then s.dirty - {machine} else s.dirty)
  }

  predicate MachineNext(s: State, e: Event, s': State) {
    match e
    case PowerOff(machine) => s' == s.(boots := s.boots - {machine})
    case BootAgent(machine) => s' == s.(boots := s.boots[machine := FRESH_BOOT])
    case EndAction(machine, failed) => machine in s.boots && s' == AfterEndAction(s, machine, failed)
    case _ => false
  }

  // ---------------------------------------------------------------- instance controller

  predicate ControllerNext(s: State, e: Event, s': State) {
    match e
    case ControllerRead(k) =>
      && k in s.api.instances && k !in s.controllerRuns
      && s' == s.(controllerRuns := s.controllerRuns[k := s.api.instances[k]])
    case ControllerWrite(k) =>
      && k in s.controllerRuns
      && var effect := InstanceController.Decide(s.controllerRuns[k]);
         && !effect.NoEffect?
         && s' == s.(api := InstanceController.Apply(s.api, k, effect), controllerRuns := s.controllerRuns - {k})
    case AbortController(k) => s' == s.(controllerRuns := s.controllerRuns - {k})
    case _ => false
  }

  // ---------------------------------------------------------------- scheduler

  function ReleaseLock(s: State, k: Key): Option<Key> {
    if s.lock == Some(k) then None else s.lock
  }

  /** The run is over and holds no lock any more. */
  function EndScheduler(s: State, k: Key): State {
    s.(schedulerRuns := s.schedulerRuns - {k}, lock := ReleaseLock(s, k))
  }

  predicate SchedulerNext(s: State, e: Event, s': State) {
    match e
    case SchedulerRead(k) =>
      && k in s.api.instances && k !in s.schedulerRuns
      && s' == s.(schedulerRuns := s.schedulerRuns[k := Unlocked(s.api.instances[k])])
    case SchedulerWrite(k) =>
      && k in s.schedulerRuns
      && var effect := Scheduler.Decide(s.schedulerRuns[k].bmi);
         && effect.UpdateInstance?
         && s' == EndScheduler(s.(api := WriteInstance(s.api, k, effect.bmi)), k)
    case SchedulerLock(k) =>
      && k in s.schedulerRuns && s.schedulerRuns[k].Unlocked? && s.lock == None
      && var effect := Scheduler.Decide(s.schedulerRuns[k].bmi);
         && (effect.Unassign? || effect.FindHardware?)
         && s' == s.(schedulerRuns := s.schedulerRuns[k := Locked(s.schedulerRuns[k].bmi, map[], {})],
                     lock := Some(k))
    case SchedulerList(k) =>
      && k in s.schedulerRuns && s.schedulerRuns[k].Locked? && s.schedulerRuns[k].listed == map[]
      && var listed := map h | h in s.api.hardware && h.ns == k.ns :: s.api.hardware[h];
         s' == s.(schedulerRuns := s.schedulerRuns[k := s.schedulerRuns[k].(listed := listed)])
    case SchedulerCheck(k, name) =>
      && k in s.schedulerRuns && s.schedulerRuns[k].Locked?
      && name != "" && NameUnused(s.api, name)
      && var r := s.schedulerRuns[k];
         s' == s.(schedulerRuns := s.schedulerRuns[k := r.(unused := r.unused + {name})])
    case SchedulerAssign(k, name, tolerates) =>
      && k in s.schedulerRuns && s.schedulerRuns[k].Locked?
      && var r := s.schedulerRuns[k];
         && Scheduler.Decide(r.bmi).FindHardware?
         && name != "" && name in r.unused && Key(k.ns, name) in r.listed
         && (var bmh := r.listed[Key(k.ns, name)];
             && !bmh.deleting && bmh.instanceRef == None && bmh.canProvision
             && Scheduler.SelectorMatches(r.bmi.selector, bmh.labels)
             && Scheduler.ToleratesAll(r.bmi, bmh, tolerates))
         && s' == EndScheduler(s.(api := WriteInstance(s.api, k, r.bmi.(hardwareName := name))), k)
    case SchedulerUnassign(k) =>
      && k in s.schedulerRuns && s.schedulerRuns[k].Locked?
      && var effect := Scheduler.Decide(s.schedulerRuns[k].bmi);
         && effect.Unassign?
         && s' == EndScheduler(s.(api := WriteInstance(s.api, k, effect.bmi)), k)
    case AbortScheduler(k) => s' == EndScheduler(s, k)
    case _ => false
  }

  // ---------------------------------------------------------------- provisioner

  function Answer(s: State, machine: string): Provisioner.AgentAnswer {
    Provisioner.AnswerOf(s.boots, machine)
  }

  function EndProvisioner(s: State, k: Key): State {
    s.(provisionerRuns := s.provisionerRuns - {k})
  }

  /** An action request reaches the machine. An accepted image request dirties it. */
  function AfterPost(s: State, machine: string, t: ActionType, uid: nat): State {
    if machine in s.boots && Accepts(s.boots[machine])
    then s.(boots := s.boots[machine := Started(s.boots[machine], t)],
            dirty := if t == Imaging then s.dirty[machine := uid] else s.dirty)
    else s
  }

  function Posted(k: Key, r: Provisioner.Run): ActionType {
    if Provisioner.Decide(k, r).PostImage? then Imaging else CleaningDisks
  }

  /** A claim or a release, if the hardware did not move on; a release forgets the machine. */
  function AfterClaimOrRelease(s: State, hk: Key, bmh: Hardware): State {
    if FreshHardware(s.api, hk, bmh) then
      s.(api := PutHardware(s.api, hk, bmh),
         bound := if bmh.instanceRef.None? then Unbind(s.bound, hk) else s.bound)
    else s
  }

  predicate ProvisionerReads(s: State, e: Event, s': State) {
    match e
    case ProvisionerRead(k) =>
      && k in s.api.instances && k !in s.provisionerRuns
      && s' == s.(provisionerRuns := s.provisionerRuns[k := Provisioner.Run(s.api.instances[k], None, None, None)])
    case ProvisionerReadHardware(k) =>
      && k in s.provisionerRuns
      && var r := s.provisionerRuns[k];
         && Provisioner.Decide(k, r).NeedHardware?
         && s' == s.(provisionerRuns := s.provisionerRuns[k :=
                       r.(bmh := Some(HardwareAt(s.api, Provisioner.HardwareKey(k, r.bmi))))])
    case ProvisionerAskAgent(k) =>
      && k in s.provisionerRuns
      && var r := s.provisionerRuns[k];
         && Provisioner.Decide(k, r).NeedAgent? && r.bmi.agentInfo.Some?
         && s' == s.(provisionerRuns := s.provisionerRuns[k :=
                       r.(agent := Some(Answer(s, r.bmi.agentInfo.value)))])
    case ProvisionerNetwork(k, network) =>
      && k in s.provisionerRuns
      && var r := s.provisionerRuns[k];
         && Provisioner.Decide(k, r).NeedNetwork?
         && s' == s.(provisionerRuns := s.provisionerRuns[k := r.(network := Some(network))])
    case _ => false
  }

  predicate ProvisionerActs(s: State, e: Event, s': State) {
    match e
    case ProvisionerWrite(k) =>
      && k in s.provisionerRuns
      && var effect := Provisioner.Decide(k, s.provisionerRuns[k]);
         var s1 := EndProvisioner(s, k);
         && effect.UpdateInstance?
         && s' == s1.(api := WriteInstance(s1.api, k, effect.bmi))
    case ProvisionerClaimOrRelease(k) =>
      && k in s.provisionerRuns
      && var r := s.provisionerRuns[k];
         var effect := Provisioner.Decide(k, r);
         && effect.UpdateHardware?
         && s' == AfterClaimOrRelease(EndProvisioner(s, k), Provisioner.HardwareKey(k, r.bmi), effect.bmh)
    case ProvisionerPost(k) =>
      && k in s.provisionerRuns
      && var r := s.provisionerRuns[k];
         var effect := Provisioner.Decide(k, r);
         && r.bmi.agentInfo.Some?
         && (effect.PostClean? || effect.PostImage?)
         && s' == AfterPost(EndProvisioner(s, k), r.bmi.agentInfo.value, Posted(k, r), r.bmi.uid)
    case AbortProvisioner(k) => s' == EndProvisioner(s, k)
    case _ => false
  }

  /** Forgets the machine a hardware object was found for. */
  function Unbind(bound: map<string, Key>, hk: Key): map<string, Key> {
    map m | m in bound && bound[m] != hk :: bound[m]
  }

  // ---------------------------------------------------------------- hardware controller

  predicate HardwareNext(s: State, e: Event, s': State) {
    match e
    case HardwareRead(k) =>
      && k in s.api.hardware && k !in s.hardwareRuns
      && s' == s.(hardwareRuns := s.hardwareRuns[k := HardwareRun(s.api.hardware[k], None)])
    case HardwareLookup(k) =>
      && k in s.hardwareRuns && s.hardwareRuns[k].bmh.instanceRef.Some?
      && var r := s.hardwareRuns[k];
         s' == s.(hardwareRuns := s.hardwareRuns[k :=
                    r.(tenant := Some(InstanceUid(s.api, r.bmh.instanceRef.value.key)))])
    case HardwareWrite(k, discoveries) =>
      && k in s.hardwareRuns
      && var r := s.hardwareRuns[k];
         var effect := HardwareController.Decide(r.bmh, r.tenant, discoveries);
         && !effect.NeedInstance?
         && s' == s.(api := HardwareController.Apply(s.api, k, r.bmh, effect),
                     hardwareRuns := s.hardwareRuns - {k})
    case AbortHardware(k) => s' == s.(hardwareRuns := s.hardwareRuns - {k})
    case _ => false
  }

  // ---------------------------------------------------------------- /ready

  predicate ReadyNext(s: State, e: Event, s': State) {
    match e
    case ReadyFind(id, machine, k) =>
      && id !in s.readyRuns && machine != ""
      && OnlyHardware(s.api, machine, k) && s.api.hardware[k].instanceRef.Some?
      && s' == s.(readyRuns := s.readyRuns[id :=
                    ReadyRun(machine, k, s.api.hardware[k].instanceRef.value, None)],
                  bound := s.bound[machine := k])
    case ReadyRead(id) =>
      && id in s.readyRuns && s.readyRuns[id].ref.key in s.api.instances
      && var r := s.readyRuns[id];
         s' == s.(readyRuns := s.readyRuns[id := r.(bmi := Some(s.api.instances[r.ref.key]))])
    case ReadyWrite(id) =>
      && id in s.readyRuns && s.readyRuns[id].bmi.Some?
      && var r := s.readyRuns[id];
         var bmi := r.bmi.value;
         && WantsAgent(bmi, r.ref)
         && s' == s.(api := WriteInstance(s.api, r.ref.key, bmi.(agentInfo := Some(r.machine))),
                     readyRuns := s.readyRuns - {id})
    case AbortReady(id) => s' == s.(readyRuns := s.readyRuns - {id})
    case _ => false
  }

  predicate Next(s: State, e: Event, s': State) {
    || UserNext(s, e, s')
    || MachineNext(s, e, s')
    || ControllerNext(s, e, s')
    || SchedulerNext(s, e, s')
    || ProvisionerReads(s, e, s')
    || ProvisionerActs(s, e, s')
    || HardwareNext(s, e, s')
    || ReadyNext(s, e, s')
  }

  // ---------------------------------------------------------------- runs

  predicate StepAt(states: seq<State>, events: seq<Event>, i: nat) {
    i < |events| && i + 1 < |states| && Next(states[i], events[i], states[i + 1])
  }

  /** states[0] is the initial state and event i leads from states[i] to states[i + 1]. */
  ghost predicate IsRun(states: seq<State>, events: seq<Event>) {
    && |states| == |events| + 1
    && states[0] == INIT
    && forall i :: 0 <= i < |events| ==> StepAt(states, events, i)
  }
}
