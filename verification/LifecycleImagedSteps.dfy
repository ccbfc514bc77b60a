// Every step keeps what is known of images: an imaged instance has its image on a machine whose
// imaging ended well, a pass of the provisioner that saw such an end saw that of its own instance,
// and a machine that reports one carries that image. Only the end of an imaging action brings a new
// one, and disks only come clean when their instance is on its way out.
module LifecycleImagedSteps {
  import opened Common
  import opened Objects
  import opened Store
  import opened Agent
  import opened Lifecycle
  import opened LifecycleInvariant
  import opened LifecycleSafety
  import opened LifecycleNetworked
  import opened LifecycleProgress
  import Provisioner
  import Scheduler
  import InstanceController
  import HardwareController

  // Machines with the instance whose imaging ended well on them.
  type Images = set<(string, nat)>

  /** Event e is the end, without an error, of an imaging action on the machine. */
  predicate ImagingEnded(s: State, e: Event, machine: string) {
    && e == EndAction(machine, false) && machine in s.boots && s.boots[machine].current.Some?
    && s.boots[machine].current.value.actionType == Imaging && !s.boots[machine].current.value.done
  }

  /** The image event e brings to its end, if it does. */
  function Ended(s: State, e: Event): Images {
    if e.EndAction? && ImagingEnded(s, e, e.machine) && e.machine in s.dirty then {(e.machine, s.dirty[e.machine])} else {}
  }

  predicate ActiveImaged(bmi: Instance) {
    bmi.Is(InstanceImaged, StatusTrue) && (bmi.phase == Provisioning || bmi.phase == Running)
  }

  /** The image on the machine is that of the instance, and its imaging ended well. */
  predicate HasImage(s: State, images: Images, machine: string, uid: nat) {
    machine in s.dirty && s.dirty[machine] == uid && (machine, uid) in images
  }

  ghost predicate InstanceImagedOk(s: State, images: Images, bmi: Instance) {
    ActiveImaged(bmi) ==> exists machine :: HasImage(s, images, machine, bmi.uid)
  }

  predicate SawImagedWell(r: Provisioner.Run) {
    r.agent == Some(Provisioner.AgentBusy(ActionStatus(Imaging, true, false)))
  }

  predicate RunImagedOk(images: Images, r: Provisioner.Run) {
    WorksOnHardware(r) && r.bmi.phase == Provisioning && r.bmi.agentInfo.Some? && SawImagedWell(r) ==>
      (r.bmi.agentInfo.value, r.bmi.uid) in images
  }

  predicate MachineImagedOk(s: State, images: Images, machine: string) {
    machine in s.boots && s.boots[machine].current == Some(ActionStatus(Imaging, true, false)) ==>
      machine in s.dirty && (machine, s.dirty[machine]) in images
  }

  ghost predicate AllImagedOk(s: State, images: Images) {
    && (forall k :: k in s.api.instances ==> InstanceImagedOk(s, images, s.api.instances[k]))
    && (forall k :: k in s.provisionerRuns ==> RunImagedOk(images, s.provisionerRuns[k]))
    && (forall machine :: MachineImagedOk(s, images, machine))
  }

  // ---------------------------------------------------------------- machines

  lemma DirtyTenant(s: State, machine: string)
    requires MachineOk(s, machine) && MachinesBoundOk(s) && AllHardwareOk(s) && machine in s.dirty
    ensures machine in s.bound && s.bound[machine] in s.api.hardware
    ensures s.api.hardware[s.bound[machine]].systemUUID == machine
    ensures exists k :: k in s.api.instances && s.api.instances[k].uid == s.dirty[machine]
              && Provisioner.HardwareKey(k, s.api.instances[k]) == s.bound[machine]
  {
    var hk := s.bound[machine];
    assert BoundOk(s, machine);
    assert HardwareOk(s, hk, s.api.hardware[hk]);
    var k := s.api.hardware[hk].instanceRef.value.key;
    assert s.api.instances[k].uid == s.dirty[machine];
  }

  /** An instance has its image on one machine only. */
  lemma OneMachinePerImage(s: State, a: string, b: string)
    requires Inv(s) && a in s.dirty && b in s.dirty && s.dirty[a] == s.dirty[b]
    ensures a == b
  {
    assert MachineOk(s, a) && MachineOk(s, b);
    DirtyTenant(s, a);
    DirtyTenant(s, b);
    hide Inv, MachineOk, MachinesBoundOk, AllHardwareOk;
    var k :| k in s.api.instances && s.api.instances[k].uid == s.dirty[a]
             && Provisioner.HardwareKey(k, s.api.instances[k]) == s.bound[a];
    var j :| j in s.api.instances && s.api.instances[j].uid == s.dirty[b]
             && Provisioner.HardwareKey(j, s.api.instances[j]) == s.bound[b];
    if j != k {
      UidsDiffer(s, k, j);
    }
  }

  lemma UidsDiffer(s: State, k: Key, j: Key)
    requires Inv(s) && k in s.api.instances && j in s.api.instances && j != k
    ensures s.api.instances[k].uid != s.api.instances[j].uid
  {
    assert DistinctInstances(s.api.instances[k], s.api.instances[j]);
  }

  /** A machine reports an image that ended well: it did before, or this is its end. */
  lemma ImageReported(s: State, e: Event, s': State, machine: string)
    requires Next(s, e, s')
    requires machine in s'.boots && s'.boots[machine].current == Some(ActionStatus(Imaging, true, false))
    ensures ImagingEnded(s, e, machine)
            || (machine in s.boots && s.boots[machine] == s'.boots[machine] && !DisksCleaned(s, e, machine))
  {
    hide ProvisionerActs, ProvisionerReads, SchedulerNext, UserNext, ControllerNext, HardwareNext, ReadyNext;
    if MachineNext(s, e, s') {
    } else if ProvisionerActs(s, e, s') {
      ProvisionerReportsNot(s, e, s', machine);
    } else {
      OthersKeepBoots(s, e, s');
    }
  }

  lemma ProvisionerReportsNot(s: State, e: Event, s': State, machine: string)
    requires ProvisionerActs(s, e, s')
    requires machine in s'.boots && s'.boots[machine].current == Some(ActionStatus(Imaging, true, false))
    ensures machine in s.boots && s.boots[machine] == s'.boots[machine]
  {
    hide Provisioner.Decide, WriteInstance, PutHardware;
  }

  lemma UsersKeepPasses(s: State, e: Event, s': State)
    requires UserNext(s, e, s') || ControllerNext(s, e, s')
    ensures s'.boots == s.boots && s'.provisionerRuns == s.provisionerRuns
  {
    hide UserWrites, WriteInstance, InstanceController.Decide;
  }

  lemma HardwareKeepsPasses(s: State, e: Event, s': State)
    requires HardwareNext(s, e, s') || ReadyNext(s, e, s')
    ensures s'.boots == s.boots && s'.provisionerRuns == s.provisionerRuns
  {
    hide WriteInstance, HardwareController.Decide, HardwareController.Apply;
  }

  lemma SchedulerKeepsPasses(s: State, e: Event, s': State)
    requires SchedulerNext(s, e, s')
    ensures s'.boots == s.boots && s'.provisionerRuns == s.provisionerRuns
  {
    hide WriteInstance, Scheduler.Decide, Scheduler.ToleratesAll, Scheduler.SelectorMatches, NameUnused;
  }

  lemma ReadsKeepBoots(s: State, e: Event, s': State)
    requires ProvisionerReads(s, e, s')
    ensures s'.boots == s.boots
  {
    hide Provisioner.Decide;
  }

  lemma OthersKeepBoots(s: State, e: Event, s': State)
    requires Next(s, e, s') && !MachineNext(s, e, s') && !ProvisionerActs(s, e, s')
    ensures s'.boots == s.boots
  {
    hide UserNext, MachineNext, ControllerNext, SchedulerNext, ProvisionerReads, ProvisionerActs, HardwareNext, ReadyNext;
    if ProvisionerReads(s, e, s') {
      ReadsKeepBoots(s, e, s');
    } else if SchedulerNext(s, e, s') {
      SchedulerKeepsPasses(s, e, s');
    } else if HardwareNext(s, e, s') || ReadyNext(s, e, s') {
      HardwareKeepsPasses(s, e, s');
    } else {
      UsersKeepPasses(s, e, s');
    }
  }

  lemma MachineFacts(s: State, images: Images, machine: string)
    requires Inv(s) && AllImagedOk(s, images)
    ensures MachineImagedOk(s, images, machine)
    ensures forall e :: ImagingEnded(s, e, machine) ==> machine in s.dirty
  {
    assert MachineOk(s, machine);
  }

  lemma MachineStaysImagedOk(s: State, e: Event, s': State, images: Images, machine: string)
    requires Inv(s) && Next(s, e, s') && AllImagedOk(s, images)
    ensures MachineImagedOk(s', images + Ended(s, e), machine)
  {
    hide Inv, Next, AllImagedOk, ImagingEnded, DisksCleaned, Ended;
    if machine in s'.boots && s'.boots[machine].current == Some(ActionStatus(Imaging, true, false)) {
      MachineFacts(s, images, machine);
      ImageReported(s, e, s', machine);
      if ImagingEnded(s, e, machine) {
        EndKeepsDirty(s, e, s', machine);
      } else {
        DirtyStep(s, e, s', machine, s.dirty[machine]);
      }
    }
  }

  lemma EndKeepsDirty(s: State, e: Event, s': State, machine: string)
    requires Next(s, e, s') && ImagingEnded(s, e, machine)
    ensures s'.dirty == s.dirty && Ended(s, e) == if machine in s.dirty then {(machine, s.dirty[machine])} else {}
  {
    assert MachineNext(s, e, s');
  }

  // ---------------------------------------------------------------- instances

  /** An instance with the condition had it before. */
  ghost predicate CopiesImaged(c: Cluster, c': Cluster) {
    forall k :: k in c'.instances && ActiveImaged(c'.instances[k]) ==>
      k in c.instances && c.instances[k].uid == c'.instances[k].uid && ActiveImaged(c.instances[k])
  }

  lemma WriteCopies(c: Cluster, k: Key, read: Instance, obj: Instance)
    requires InstanceReadOk(c, k, read) && obj.version == read.version && obj.uid == read.uid
    requires FreshInstance(c, k, read) && ActiveImaged(obj) ==> ActiveImaged(read)
    ensures CopiesImaged(c, WriteInstance(c, k, obj))
  {
  }

  lemma UserCopies(c: Cluster, e: Event, c': Cluster)
    requires UserWrites(c, e, c')
    ensures CopiesImaged(c, c')
  {
    if e.CreateHardware? || e.EditHardware? || e.DeleteHardware? || e.ReleaseHardware? {
      HardwareEditsKeepInstances(c, e, c');
    }
  }

  lemma ControllerCopies(s: State, e: Event, s': State)
    requires InstancesOk(s) && ControllerRunsOk(s) && ControllerNext(s, e, s')
    ensures CopiesImaged(s.api, s'.api)
  {
    if e.ControllerWrite? {
      var read := s.controllerRuns[e.k];
      assert InstanceReadOk(s.api, e.k, read);
      WriteCopies(s.api, e.k, read, InstanceController.Decide(read).bmi);
    }
  }

  lemma SchedulerCopies(s: State, e: Event, s': State)
    requires InstancesOk(s) && SchedulerRunsOk(s) && SchedulerNext(s, e, s')
    ensures CopiesImaged(s.api, s'.api)
  {
    hide Scheduler.ToleratesAll, Scheduler.SelectorMatches, NameUnused;
    if e.SchedulerWrite? || e.SchedulerUnassign? || e.SchedulerAssign? {
      var read := s.schedulerRuns[e.k].bmi;
      assert SchedulerRunOk(s, e.k, s.schedulerRuns[e.k]);
      var obj := if e.SchedulerAssign? then read.(hardwareName := e.name) else Scheduler.Decide(read).bmi;
      if FreshInstance(s.api, e.k, read) {
        assert InstanceOk(s, e.k, read);
        SchedulerImagesNot(s, e, e.k, read);
      }
      SchedulerKeepsIdentity(read);
      WriteCopies(s.api, e.k, read, obj);
    }
    hide Scheduler.Decide, WriteInstance;
  }

  lemma SchedulerImagesNot(s: State, e: Event, k: Key, read: Instance)
    requires InstanceShape(s, read)
    ensures var d := Scheduler.Decide(read);
            && (d.UpdateInstance? || d.Unassign? ==> (ActiveImaged(d.bmi) ==> ActiveImaged(read)))
  {
  }

  lemma SchedulerKeepsIdentity(read: Instance)
    ensures var d := Scheduler.Decide(read);
            d.UpdateInstance? || d.Unassign? ==> d.bmi.version == read.version && d.bmi.uid == read.uid
  {
  }

  lemma ReadyCopies(s: State, e: Event, s': State)
    requires ReadyRunsOk(s) && ReadyNext(s, e, s')
    ensures CopiesImaged(s.api, s'.api)
  {
    if e.ReadyWrite? {
      var r := s.readyRuns[e.id];
      assert ReadyRunOk(s, r);
      WriteCopies(s.api, r.ref.key, r.bmi.value, r.bmi.value.(agentInfo := Some(r.machine)));
    }
  }

  lemma HardwareCopies(s: State, e: Event, s': State)
    requires HardwareNext(s, e, s')
    ensures CopiesImaged(s.api, s'.api)
  {
    hide HardwareController.Decide, HardwareController.Apply;
    if e.HardwareWrite? {
      var r := s.hardwareRuns[e.k];
      ApplyCopies(s.api, e.k, r.bmh, HardwareController.Decide(r.bmh, r.tenant, e.discoveries));
    }
  }

  lemma ApplyCopies(c: Cluster, hk: Key, h: Hardware, effect: HardwareController.HardwareEffect)
    ensures CopiesImaged(c, HardwareController.Apply(c, hk, h, effect))
  {
  }

  /** The provisioner sets the condition only when it saw the end of the imaging. */
  lemma ProvisionerImages(s: State, k: Key, r: Provisioner.Run)
    requires InstanceShape(s, r.bmi)
    ensures var d := Provisioner.Decide(k, r);
            d.UpdateInstance? && ActiveImaged(d.bmi) ==>
              ActiveImaged(r.bmi) ||
              (WorksOnHardware(r) && r.bmi.phase == Provisioning && r.bmi.agentInfo.Some? && SawImagedWell(r))
  {
  }

  /** The image that a pass saw ended well is the image of its instance. */
  lemma SawOwnImage(s: State, k: Key, r: Provisioner.Run, images: Images)
    requires ProvisionerRunOk(s, k, r) && RunImagedOk(images, r)
    requires WorksOnHardware(r) && r.bmi.phase == Provisioning && r.bmi.agentInfo.Some? && SawImagedWell(r)
    ensures HasImage(s, images, r.bmi.agentInfo.value, r.bmi.uid)
  {
  }

  lemma ProvisionerHadImage(s: State, e: Event, s': State, images: Images, k: Key)
    requires InstancesOk(s) && ProvisionerRunsOk(s) && ProvisionerActs(s, e, s') && AllImagedOk(s, images)
    requires k in s'.api.instances && ActiveImaged(s'.api.instances[k])
    ensures exists machine :: HasImage(s, images, machine, s'.api.instances[k].uid)
  {
    hide Provisioner.Decide, HasImage;
    if e.ProvisionerWrite? {
      var r := s.provisionerRuns[e.k];
      assert ProvisionerRunOk(s, e.k, r) && RunImagedOk(images, r);
      ProvisionerDecidesForward(e.k, r);
      if e.k == k && FreshInstance(s.api, k, r.bmi) {
        assert InstanceOk(s, k, r.bmi);
        ProvisionerWroteImage(s, k, r, images);
      } else {
        assert s'.api.instances[k] == s.api.instances[k];
        assert InstanceImagedOk(s, images, s.api.instances[k]);
      }
    } else {
      OtherActsKeepInstances(s, e, s');
      assert InstanceImagedOk(s, images, s.api.instances[k]);
    }
  }

  lemma ProvisionerWroteImage(s: State, k: Key, r: Provisioner.Run, images: Images)
    requires ProvisionerRunOk(s, k, r) && RunImagedOk(images, r) && InstanceShape(s, r.bmi)
    requires InstanceImagedOk(s, images, r.bmi)
    requires Provisioner.Decide(k, r).UpdateInstance? && ActiveImaged(Provisioner.Decide(k, r).bmi)
    ensures exists machine :: HasImage(s, images, machine, r.bmi.uid)
  {
    ProvisionerImages(s, k, r);
    hide Provisioner.Decide, HasImage, ProvisionerRunOk, RunImagedOk, InstanceShape, WorksOnHardware, SawImagedWell;
    if !ActiveImaged(r.bmi) {
      SawOwnImage(s, k, r, images);
    }
  }

  /** An imaged instance has its image on some machine. */
  lemma InstanceHadImage(s: State, e: Event, s': State, images: Images, k: Key)
    requires Inv(s) && Next(s, e, s') && AllImagedOk(s, images)
    requires k in s'.api.instances && ActiveImaged(s'.api.instances[k])
    ensures exists machine :: HasImage(s, images, machine, s'.api.instances[k].uid)
  {
    if ProvisionerActs(s, e, s') {
      ProvisionerHadImage(s, e, s', images, k);
    } else {
      OthersCopy(s, e, s');
      hide Inv, Next, ActiveImaged, HasImage;
      assert InstanceImagedOk(s, images, s.api.instances[k]);
    }
  }

  lemma OthersCopy(s: State, e: Event, s': State)
    requires Inv(s) && Next(s, e, s') && !ProvisionerActs(s, e, s')
    ensures CopiesImaged(s.api, s'.api)
  {
    hide UserNext, MachineNext, ControllerNext, SchedulerNext, ProvisionerReads, ProvisionerActs, HardwareNext, ReadyNext;
    hide ActiveImaged, InstanceOk, MachineOk, SchedulerRunOk, ProvisionerRunOk;
    if UserNext(s, e, s') {
      UserIsUserWrites(s, e, s');
      UserCopies(s.api, e, s'.api);
    } else if MachineNext(s, e, s') {
      MachinesKeepApi(s, e, s');
    } else if ProvisionerReads(s, e, s') {
      ReadsKeepApi(s, e, s');
    } else if ControllerNext(s, e, s') {
      ControllerCopies(s, e, s');
    } else if SchedulerNext(s, e, s') {
      SchedulerCopies(s, e, s');
    } else if HardwareNext(s, e, s') {
      HardwareCopies(s, e, s');
    } else {
      ReadyCopies(s, e, s');
    }
  }

  lemma UserIsUserWrites(s: State, e: Event, s': State)
    requires UserNext(s, e, s')
    ensures UserWrites(s.api, e, s'.api)
  {
    hide UserWrites;
  }

  /** Disks that come clean carry no image of an instance that goes on being imaged. */
  lemma CleanedIsOther(s: State, e: Event, s': State, machine: string, k: Key)
    requires Inv(s) && Inv(s') && Next(s, e, s') && DisksCleaned(s, e, machine) && machine in s.dirty
    requires k in s'.api.instances && ActiveImaged(s'.api.instances[k])
    ensures s.dirty[machine] != s'.api.instances[k].uid
  {
    ActiveHasDirty(s', k);
    CleaningTakes(s, e, s', machine);
    hide Inv, Next, DisksCleaned;
    var hk := Provisioner.HardwareKey(k, s'.api.instances[k]);
    var own := s'.api.hardware[hk].systemUUID;
    if s.dirty[machine] == s'.api.instances[k].uid {
      OneMachinePerImage(s, machine, own);
    }
  }

  lemma ActiveHasDirty(s: State, k: Key)
    requires Inv(s) && k in s.api.instances && ActiveImaged(s.api.instances[k])
    ensures ImagedBy(s, k, s.api.instances[k])
  {
    assert InstanceOk(s, k, s.api.instances[k]);
  }

  lemma CleaningTakes(s: State, e: Event, s': State, machine: string)
    requires Next(s, e, s') && DisksCleaned(s, e, machine)
    ensures s'.dirty == s.dirty - {machine}
  {
    assert MachineNext(s, e, s');
  }

  lemma InstanceStaysImagedOk(s: State, e: Event, s': State, images: Images, k: Key)
    requires Inv(s) && Inv(s') && Next(s, e, s') && AllImagedOk(s, images) && k in s'.api.instances
    ensures InstanceImagedOk(s', images + Ended(s, e), s'.api.instances[k])
  {
    hide Inv, Next, AllImagedOk, ActiveImaged, DisksCleaned, Ended;
    if ActiveImaged(s'.api.instances[k]) {
      InstanceHadImage(s, e, s', images, k);
      var machine :| HasImage(s, images, machine, s'.api.instances[k].uid);
      if DisksCleaned(s, e, machine) {
        CleanedIsOther(s, e, s', machine, k);
      }
      DirtyStep(s, e, s', machine, s'.api.instances[k].uid);
      assert HasImage(s', images + Ended(s, e), machine, s'.api.instances[k].uid);
    }
  }

  // ---------------------------------------------------------------- passes of the provisioner

  lemma ReadsAnswer(s: State, e: Event, s': State, k: Key)
    requires ProvisionerReads(s, e, s') && k in s'.provisionerRuns
    ensures s'.dirty == s.dirty
    ensures var r := s'.provisionerRuns[k];
            || r.agent == None
            || (k in s.provisionerRuns && s.provisionerRuns[k].bmi == r.bmi && s.provisionerRuns[k].agent == r.agent)
            || (r.bmi.agentInfo.Some? && r.agent == Some(Answer(s, r.bmi.agentInfo.value)))
  {
    hide Provisioner.Decide;
  }

  lemma MachinesKeepPasses(s: State, e: Event, s': State)
    requires MachineNext(s, e, s')
    ensures s'.provisionerRuns == s.provisionerRuns
  {
  }

  lemma OthersKeepPasses(s: State, e: Event, s': State)
    requires Next(s, e, s') && !ProvisionerReads(s, e, s') && !ProvisionerActs(s, e, s')
    ensures s'.provisionerRuns == s.provisionerRuns
  {
    hide UserNext, MachineNext, ControllerNext, SchedulerNext, ProvisionerReads, ProvisionerActs, HardwareNext, ReadyNext;
    if MachineNext(s, e, s') {
      MachinesKeepPasses(s, e, s');
    } else if SchedulerNext(s, e, s') {
      SchedulerKeepsPasses(s, e, s');
    } else if HardwareNext(s, e, s') || ReadyNext(s, e, s') {
      HardwareKeepsPasses(s, e, s');
    } else {
      UsersKeepPasses(s, e, s');
    }
  }

  /** The answer that an image ended well is about the image of the instance that asked. */
  lemma AnswerIsOwn(s: State, s': State, images: Images, k: Key, r: Provisioner.Run)
    requires ProvisionerRunOk(s', k, r) && s'.dirty == s.dirty
    requires r.bmi.agentInfo.Some? && r.agent == Some(Answer(s, r.bmi.agentInfo.value))
    requires MachineImagedOk(s, images, r.bmi.agentInfo.value)
    ensures RunImagedOk(images, r)
  {
  }

  lemma RunStaysImagedOk(s: State, e: Event, s': State, images: Images, k: Key)
    requires Inv(s') && Next(s, e, s') && AllImagedOk(s, images) && k in s'.provisionerRuns
    ensures RunImagedOk(images, s'.provisionerRuns[k])
  {
    hide UserNext, MachineNext, ControllerNext, SchedulerNext, ProvisionerReads, ProvisionerActs, HardwareNext, ReadyNext;
    var r := s'.provisionerRuns[k];
    assert ProvisionerRunOk(s', k, r);
    hide Inv, ProvisionerRunOk;
    if k in s.provisionerRuns {
      assert RunImagedOk(images, s.provisionerRuns[k]);
    }
    if ProvisionerReads(s, e, s') {
      ReadsAnswer(s, e, s', k);
      if r.bmi.agentInfo.Some? && r.agent == Some(Answer(s, r.bmi.agentInfo.value)) {
        assert MachineImagedOk(s, images, r.bmi.agentInfo.value);
        AnswerIsOwn(s, s', images, k, r);
      }
    } else if ProvisionerActs(s, e, s') {
      ActsEndRun(s, e, s');
    } else {
      OthersKeepPasses(s, e, s');
    }
  }
}
