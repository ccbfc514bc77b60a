// No step takes an agent off an instance that is past its cleaning: the provisioner does not look at
// the instance any more, the scheduler only unassigns and terminates it, a request of an agent comes
// too late, and the webhook refuses what writes the main resource. An instance in cleaning whose
// hardware is gone only gets there, as long as nobody creates the hardware again and no pass in
// flight saw it free.
module LifecycleLingeringSteps {
  import opened Common
  import opened Objects
  import opened Store
  import opened Lifecycle
  import opened LifecycleInvariant
  import opened LifecycleProgress
  import opened LifecycleDeletion
  import opened LifecycleReachability
  import opened LifecycleRefinement
  import Provisioner
  import Scheduler
  import InstanceController
  import HardwareController
  import Discovery

  // ---------------------------------------------------------------- past the cleaning

  /** Instance uid is being deleted, past its cleaning, and still has an agent and its finalizer. */
  predicate Lingers(c: Cluster, k: Key, uid: nat) {
    && k in c.instances
    && var bmi := c.instances[k];
       bmi.uid == uid && bmi.deleting && OwnFinalizer in bmi.finalizers && AgentLingers(bmi)
  }

  lemma PutElsewhere(c: Cluster, j: Key, obj: Instance, k: Key, uid: nat)
    requires Lingers(c, k, uid) && j != k
    ensures Lingers(PutInstance(c, j, obj), k, uid)
  {
  }

  lemma UserLeavesLingering(c: Cluster, e: Event, c': Cluster, k: Key, uid: nat)
    requires Lingers(c, k, uid) && UserWrites(c, e, c')
    ensures Lingers(c', k, uid)
  {
    if e.CreateHardware? || e.EditHardware? || e.DeleteHardware? || e.ReleaseHardware? {
      HardwareEditsKeepInstances(c, e, c');
    } else {
      hide SubmitHardware, NewHardware, SpecEdit;
    }
  }

  lemma ControllerLeavesLingering(s: State, e: Event, s': State, k: Key, uid: nat)
    requires ControllerRunsOk(s) && ControllerNext(s, e, s') && Lingers(s.api, k, uid)
    ensures Lingers(s'.api, k, uid)
  {
    if e.ControllerWrite? && s'.api != s.api {
      var read := s.controllerRuns[e.k];
      assert InstanceReadOk(s.api, e.k, read);
      if e.k != k {
        PutElsewhere(s.api, e.k, InstanceController.Decide(read).bmi, k, uid);
      }
    }
  }

  lemma SchedulerWriteLingers(c: Cluster, k: Key, uid: nat, read: Instance)
    requires Lingers(c, k, uid) && InstanceReadOk(c, k, read) && FreshInstance(c, k, read)
    requires Scheduler.Decide(read).UpdateInstance? || Scheduler.Decide(read).Unassign?
    ensures Lingers(WriteInstance(c, k, Scheduler.Decide(read).bmi), k, uid)
  {
  }

  lemma SchedulerPutLingers(c: Cluster, j: Key, read: Instance, k: Key, uid: nat)
    requires Lingers(c, k, uid) && InstanceReadOk(c, j, read)
    requires Scheduler.Decide(read).UpdateInstance? || Scheduler.Decide(read).Unassign?
    ensures Lingers(WriteInstance(c, j, Scheduler.Decide(read).bmi), k, uid)
  {
    SchedulerKeepsVersion(read);
    hide Lingers, PutInstance, Scheduler.Decide;
    if j != k {
      PutElsewhere(c, j, Scheduler.Decide(read).bmi, k, uid);
    } else if FreshInstance(c, k, read) {
      SchedulerWriteLingers(c, k, uid, read);
    }
  }

  lemma AssignLingers(c: Cluster, j: Key, read: Instance, name: string, k: Key, uid: nat)
    requires Lingers(c, k, uid) && InstanceReadOk(c, j, read) && Scheduler.Decide(read).FindHardware?
    ensures Lingers(WriteInstance(c, j, read.(hardwareName := name)), k, uid)
  {
    hide Lingers, PutInstance, Scheduler.Decide;
    if j != k {
      PutElsewhere(c, j, read.(hardwareName := name), k, uid);
    } else if FreshInstance(c, k, read) {
      NotLookedFor(c, k, uid, read);
    }
  }

  lemma SchedulerLeavesLingering(s: State, e: Event, s': State, k: Key, uid: nat)
    requires SchedulerRunsOk(s) && SchedulerNext(s, e, s') && Lingers(s.api, k, uid)
    ensures Lingers(s'.api, k, uid)
  {
    hide Lingers, WriteInstance, Scheduler.Decide, Scheduler.ToleratesAll, Scheduler.SelectorMatches, NameUnused;
    if e.SchedulerWrite? || e.SchedulerUnassign? {
      assert SchedulerRunOk(s, e.k, s.schedulerRuns[e.k]);
      SchedulerPutLingers(s.api, e.k, s.schedulerRuns[e.k].bmi, k, uid);
    } else if e.SchedulerAssign? {
      assert SchedulerRunOk(s, e.k, s.schedulerRuns[e.k]);
      AssignLingers(s.api, e.k, s.schedulerRuns[e.k].bmi, e.name, k, uid);
    }
  }

  lemma SchedulerKeepsVersion(read: Instance)
    requires Scheduler.Decide(read).UpdateInstance? || Scheduler.Decide(read).Unassign?
    ensures Scheduler.Decide(read).bmi.version == read.version
  {
  }

  lemma NotLookedFor(c: Cluster, k: Key, uid: nat, read: Instance)
    requires Lingers(c, k, uid) && InstanceReadOk(c, k, read) && FreshInstance(c, k, read)
    ensures !Scheduler.Decide(read).FindHardware?
  {
  }

  lemma NothingForLingering(k: Key, r: Provisioner.Run)
    requires AgentLingers(r.bmi) && r.bmi.deleting
    ensures Provisioner.Decide(k, r).NoEffect?
  {
  }

  lemma ProvisionerLeavesLingering(s: State, e: Event, s': State, k: Key, uid: nat)
    requires ProvisionerRunsOk(s) && ProvisionerActs(s, e, s') && Lingers(s.api, k, uid)
    ensures Lingers(s'.api, k, uid)
  {
    if !e.ProvisionerWrite? {
      OtherActsKeepInstances(s, e, s');
    } else if s'.api != s.api {
      var r := s.provisionerRuns[e.k];
      assert ProvisionerRunOk(s, e.k, r);
      ProvisionerDecidesForward(e.k, r);
      if e.k == k {
        NothingForLingering(k, r);
      } else {
        PutElsewhere(s.api, e.k, Provisioner.Decide(e.k, r).bmi, k, uid);
      }
      hide Provisioner.Decide, HardwareWorkOk;
    }
  }

  lemma HardwareLeavesLingering(s: State, e: Event, s': State, k: Key, uid: nat)
    requires HardwareNext(s, e, s') && Lingers(s.api, k, uid)
    ensures Lingers(s'.api, k, uid)
  {
    hide HardwareController.Decide, HardwareController.Apply;
    if e.HardwareWrite? {
      var r := s.hardwareRuns[e.k];
      ApplyKeepsDeleting(s.api, e.k, r.bmh, HardwareController.Decide(r.bmh, r.tenant, e.discoveries), k);
    }
  }

  lemma ReadyLeavesLingering(s: State, e: Event, s': State, k: Key, uid: nat)
    requires ReadyRunsOk(s) && ReadyNext(s, e, s') && Lingers(s.api, k, uid)
    ensures Lingers(s'.api, k, uid)
  {
    hide Discovery.OnlyHardware, Gone;
    if e.ReadyWrite? && s'.api != s.api {
      var r := s.readyRuns[e.id];
      assert ReadyRunOk(s, r);
      if r.ref.key != k {
        PutElsewhere(s.api, r.ref.key, r.bmi.value.(agentInfo := Some(r.machine)), k, uid);
      }
    }
  }

  lemma NextLeavesLingering(s: State, e: Event, s': State, k: Key, uid: nat)
    requires Inv(s) && Next(s, e, s') && Lingers(s.api, k, uid)
    ensures Lingers(s'.api, k, uid)
  {
    hide Lingers;
    if UserNext(s, e, s') {
      UserLeavesLingering(s.api, e, s'.api, k, uid);
    } else if MachineNext(s, e, s') {
      MachinesKeepApi(s, e, s');
    } else if ProvisionerReads(s, e, s') {
      ReadsKeepApi(s, e, s');
    } else if ControllerNext(s, e, s') {
      ControllerLeavesLingering(s, e, s', k, uid);
    } else if SchedulerNext(s, e, s') {
      SchedulerLeavesLingering(s, e, s', k, uid);
    } else if ProvisionerActs(s, e, s') {
      ProvisionerLeavesLingering(s, e, s', k, uid);
    } else if HardwareNext(s, e, s') {
      HardwareLeavesLingering(s, e, s', k, uid);
    } else {
      ReadyLeavesLingering(s, e, s', k, uid);
    }
  }

  // ---------------------------------------------------------------- without its hardware

  /** A pass of the provisioner in flight saw the hardware of the instance free, and will mark the
      instance as cleaned. */
  predicate SawFree(s: State, k: Key) {
    && k in s.provisionerRuns
    && var r := s.provisionerRuns[k];
       && FreshInstance(s.api, k, r.bmi)
       && Provisioner.Decide(k, r).UpdateInstance? && Provisioner.Decide(k, r).bmi.Is(InstanceCleaned, StatusTrue)
  }

  /** The instance as far as this is about objects. */
  predicate Strayed(k: Key, uid: nat, hk: Key, bmi: Instance) {
    && bmi.uid == uid && bmi.deleting && OwnFinalizer in bmi.finalizers && bmi.agentInfo.Some?
    && bmi.Is(InstanceScheduled, StatusTrue) && bmi.phase == Cleaning && !bmi.Is(InstanceCleaned, StatusTrue)
    && Provisioner.HardwareKey(k, bmi) == hk
  }

  /** Instance uid is being cleaned, with an agent, on hardware that is gone. */
  predicate Lost(s: State, k: Key, uid: nat, hk: Key) {
    && k in s.api.instances && Strayed(k, uid, hk, s.api.instances[k])
    && hk !in s.api.hardware && !SawFree(s, k)
  }

  predicate Forsaken(s: State, k: Key, uid: nat, hk: Key) {
    Lingers(s.api, k, uid) || Lost(s, k, uid, hk)
  }

  /** The step leaves the instance, its hardware, and the pass over it alone. */
  lemma LostFrame(s: State, s': State, k: Key, uid: nat, hk: Key)
    requires Lost(s, k, uid, hk)
    requires k in s'.api.instances && s'.api.instances[k] == s.api.instances[k] && hk !in s'.api.hardware
    requires k in s'.provisionerRuns ==> k in s.provisionerRuns && s'.provisionerRuns[k] == s.provisionerRuns[k]
    ensures Lost(s', k, uid, hk)
  {
    hide Provisioner.Decide;
  }

  lemma NothingForLost(k: Key, uid: nat, hk: Key, bmi: Instance)
    requires Strayed(k, uid, hk, bmi)
    ensures InstanceController.Decide(bmi).NoEffect? && Scheduler.Decide(bmi).NoEffect?
  {
  }

  lemma ControllerLosesNone(s: State, e: Event, s': State, k: Key, uid: nat, hk: Key)
    requires ControllerRunsOk(s) && ControllerNext(s, e, s') && Lost(s, k, uid, hk)
    ensures Lost(s', k, uid, hk)
  {
    NothingForLost(k, uid, hk, s.api.instances[k]);
    if e.ControllerWrite? {
      assert InstanceReadOk(s.api, e.k, s.controllerRuns[e.k]);
    }
    hide SawFree, Strayed;
    LostFrame(s, s', k, uid, hk);
  }

  lemma SchedulerLeavesLost(c: Cluster, j: Key, read: Instance, obj: Instance, k: Key, uid: nat, hk: Key)
    requires k in c.instances && Strayed(k, uid, hk, c.instances[k]) && InstanceReadOk(c, j, read)
    requires !Scheduler.Decide(read).NoEffect? && obj.version == read.version
    ensures var c' := WriteInstance(c, j, obj); k in c'.instances && c'.instances[k] == c.instances[k]
  {
    NothingForLost(k, uid, hk, c.instances[k]);
    hide Strayed, Scheduler.Decide;
  }

  lemma SchedulerLosesNone(s: State, e: Event, s': State, k: Key, uid: nat, hk: Key)
    requires SchedulerRunsOk(s) && SchedulerNext(s, e, s') && Lost(s, k, uid, hk)
    ensures Lost(s', k, uid, hk)
  {
    hide Strayed, SawFree, WriteInstance, Scheduler.Decide, Scheduler.ToleratesAll, Scheduler.SelectorMatches, NameUnused;
    if e.SchedulerWrite? || e.SchedulerUnassign? {
      var read := s.schedulerRuns[e.k].bmi;
      assert SchedulerRunOk(s, e.k, s.schedulerRuns[e.k]);
      SchedulerKeepsVersion(read);
      SchedulerLeavesLost(s.api, e.k, read, Scheduler.Decide(read).bmi, k, uid, hk);
      OnlyInstances(s.api, e.k, Scheduler.Decide(read).bmi);
    } else if e.SchedulerAssign? {
      var read := s.schedulerRuns[e.k].bmi;
      assert SchedulerRunOk(s, e.k, s.schedulerRuns[e.k]);
      SchedulerLeavesLost(s.api, e.k, read, read.(hardwareName := e.name), k, uid, hk);
      OnlyInstances(s.api, e.k, read.(hardwareName := e.name));
    }
    LostFrame(s, s', k, uid, hk);
  }

  lemma OnlyInstances(c: Cluster, j: Key, obj: Instance)
    ensures WriteInstance(c, j, obj).hardware == c.hardware
  {
  }

  /** Only a pass that saw the hardware free marks the instance as cleaned. */
  lemma MarksWhenSeenFree(k: Key, uid: nat, hk: Key, r: Provisioner.Run)
    requires Strayed(k, uid, hk, r.bmi) && Provisioner.Decide(k, r).UpdateInstance?
    ensures var obj := Provisioner.Decide(k, r).bmi;
            if obj.Is(InstanceCleaned, StatusTrue)
            then r.bmh.Some? && r.bmh.value.Some? && r.bmh.value.value.instanceRef.None?
            else obj == r.bmi.(phase := obj.phase, conditions := obj.conditions)
                 && (obj.phase == Terminating || Strayed(k, uid, hk, obj))
  {
  }

  /** A pass that still asks for something did not see the hardware free. */
  lemma AsksUnlessSeenFree(k: Key, uid: nat, hk: Key, r: Provisioner.Run)
    requires Strayed(k, uid, hk, r.bmi)
    ensures var e := Provisioner.Decide(k, r);
            && (e.NeedAgent? ==> r.bmh.Some? && r.bmh.value.Some? && r.bmh.value.value.instanceRef.Some?)
            && !e.NeedNetwork?
  {
  }

  /** A pass over this instance that now knows more did not see the hardware free. */
  lemma ReadsNoneFree(s: State, e: Event, s': State, k: Key, uid: nat, hk: Key)
    requires ProvisionerRunsOk(s) && ProvisionerReads(s, e, s') && Lost(s, k, uid, hk) && e.k == k
    ensures !SawFree(s', k)
  {
    var r := s'.provisionerRuns[k];
    if k in s.provisionerRuns {
      assert ProvisionerRunOk(s, k, s.provisionerRuns[k]);
    }
    if FreshInstance(s.api, k, r.bmi) && Provisioner.Decide(k, r).UpdateInstance? {
      MarksWhenSeenFree(k, uid, hk, r);
      if k in s.provisionerRuns {
        AsksUnlessSeenFree(k, uid, hk, s.provisionerRuns[k]);
      }
    }
    hide Provisioner.Decide, HardwareWorkOk;
  }

  lemma ReadsLoseNone(s: State, e: Event, s': State, k: Key, uid: nat, hk: Key)
    requires ProvisionerRunsOk(s) && ProvisionerReads(s, e, s') && Lost(s, k, uid, hk)
    ensures Lost(s', k, uid, hk)
  {
    ReadsKeepApi(s, e, s');
    if e.k == k {
      ReadsNoneFree(s, e, s', k, uid, hk);
      hide SawFree, Strayed, ProvisionerReads, ProvisionerRunsOk;
    } else {
      hide SawFree, Strayed, Provisioner.Decide, ProvisionerRunsOk;
      LostFrame(s, s', k, uid, hk);
    }
  }

  lemma WritesWhatIsLost(s: State, k: Key, uid: nat, hk: Key, r: Provisioner.Run)
    requires Lost(s, k, uid, hk) && k in s.provisionerRuns && s.provisionerRuns[k] == r && ProvisionerRunOk(s, k, r)
    requires Provisioner.Decide(k, r).UpdateInstance?
    ensures var s' := EndProvisioner(s, k).(api := WriteInstance(s.api, k, Provisioner.Decide(k, r).bmi));
            Forsaken(s', k, uid, hk)
  {
    hide HardwareWorkOk;
    ProvisionerDecidesForward(k, r);
    if FreshInstance(s.api, k, r.bmi) {
      MarksWhenSeenFree(k, uid, hk, r);
    }
    hide Provisioner.Decide;
  }

  /** A write elsewhere. */
  lemma OtherPutLosesNone(s: State, j: Key, obj: Instance, s': State, k: Key, uid: nat, hk: Key)
    requires Lost(s, k, uid, hk) && j != k && s' == EndProvisioner(s, j).(api := WriteInstance(s.api, j, obj))
    ensures Lost(s', k, uid, hk)
  {
    hide SawFree, Strayed;
    LostFrame(s, s', k, uid, hk);
  }

  lemma ActsLoseNone(s: State, e: Event, s': State, k: Key, uid: nat, hk: Key)
    requires ProvisionerRunsOk(s) && ProvisionerActs(s, e, s') && Lost(s, k, uid, hk)
    ensures Forsaken(s', k, uid, hk)
  {
    hide SawFree, Strayed, Provisioner.Decide, ProvisionerRunOk;
    if e.ProvisionerWrite? {
      var r := s.provisionerRuns[e.k];
      assert ProvisionerRunOk(s, e.k, r);
      if e.k == k {
        WritesWhatIsLost(s, k, uid, hk, r);
      } else {
        OtherPutLosesNone(s, e.k, Provisioner.Decide(e.k, r).bmi, s', k, uid, hk);
      }
    } else {
      OtherActsKeepInstances(s, e, s');
      LostFrame(s, s', k, uid, hk);
    }
  }

  lemma HardwareLosesNone(s: State, e: Event, s': State, k: Key, uid: nat, hk: Key)
    requires HardwareNext(s, e, s') && Lost(s, k, uid, hk)
    ensures Lost(s', k, uid, hk)
  {
    hide HardwareController.Decide, HardwareController.Apply, SawFree;
    if e.HardwareWrite? {
      var r := s.hardwareRuns[e.k];
      var effect := HardwareController.Decide(r.bmh, r.tenant, e.discoveries);
      ApplyKeepsDeleting(s.api, e.k, r.bmh, effect, k);
      ApplyBringsNone(s.api, e.k, r.bmh, effect, hk);
    }
    LostFrame(s, s', k, uid, hk);
  }

  lemma ApplyBringsNone(c: Cluster, j: Key, h: Hardware, effect: HardwareController.HardwareEffect, hk: Key)
    requires hk !in c.hardware
    ensures hk !in HardwareController.Apply(c, j, h, effect).hardware
  {
  }

  lemma ReportIsNotSeen(s: State, s': State, k: Key, uid: nat, hk: Key, machine: string)
    requires ProvisionerRunsOk(s) && Lost(s, k, uid, hk)
    requires s'.api == PutInstance(s.api, k, s.api.instances[k].(agentInfo := Some(machine)))
    requires s'.provisionerRuns == s.provisionerRuns
    ensures Lost(s', k, uid, hk)
  {
    hide Provisioner.Decide, HardwareWorkOk;
    if k in s.provisionerRuns {
      assert ProvisionerRunOk(s, k, s.provisionerRuns[k]);
    }
  }

  lemma ReadyLosesNone(s: State, e: Event, s': State, k: Key, uid: nat, hk: Key)
    requires ReadyRunsOk(s) && ProvisionerRunsOk(s) && ReadyNext(s, e, s') && Lost(s, k, uid, hk)
    ensures Lost(s', k, uid, hk)
  {
    hide Discovery.OnlyHardware, Gone, SawFree, Strayed, ProvisionerRunsOk;
    if e.ReadyWrite? && s'.api != s.api && s.readyRuns[e.id].ref.key == k {
      assert ReadyRunOk(s, s.readyRuns[e.id]);
      ReportIsNotSeen(s, s', k, uid, hk, s.readyRuns[e.id].machine);
    } else {
      LostFrame(s, s', k, uid, hk);
    }
  }

  /** Whatever happens without users, such an instance keeps an agent. */
  lemma NextKeepsForsaken(s: State, e: Event, s': State, k: Key, uid: nat, hk: Key)
    requires Inv(s) && Next(s, e, s') && !ByUser(e) && Forsaken(s, k, uid, hk)
    ensures Forsaken(s', k, uid, hk)
  {
    hide Lingers, Lost, ControllerRunsOk, SchedulerRunsOk, ProvisionerRunsOk, HardwareRunsOk, ReadyRunsOk;
    if Lingers(s.api, k, uid) {
      NextLeavesLingering(s, e, s', k, uid);
    } else if MachineNext(s, e, s') {
      MachineLosesNone(s, e, s', k, uid, hk);
    } else if ProvisionerReads(s, e, s') {
      ReadsLoseNone(s, e, s', k, uid, hk);
    } else if ControllerNext(s, e, s') {
      ControllerLosesNone(s, e, s', k, uid, hk);
    } else if SchedulerNext(s, e, s') {
      SchedulerLosesNone(s, e, s', k, uid, hk);
    } else if ProvisionerActs(s, e, s') {
      ActsLoseNone(s, e, s', k, uid, hk);
    } else if HardwareNext(s, e, s') {
      HardwareLosesNone(s, e, s', k, uid, hk);
    } else {
      assert !UserNext(s, e, s');
      ReadyLosesNone(s, e, s', k, uid, hk);
    }
  }

  lemma MachineLosesNone(s: State, e: Event, s': State, k: Key, uid: nat, hk: Key)
    requires MachineNext(s, e, s') && Lost(s, k, uid, hk)
    ensures Lost(s', k, uid, hk)
  {
    hide SawFree, Strayed;
    LostFrame(s, s', k, uid, hk);
  }
}
