// How instances move on: phases never go back, and the deletion of an instance comes closer with
// every write its controllers get through.
module LifecycleProgress {
  import opened Common
  import opened Objects
  import opened Store
  import opened Lifecycle
  import opened LifecycleInvariant
  import opened LifecycleSafety
  import Provisioner
  import Scheduler
  import InstanceController
  import HardwareController

  // ---------------------------------------------------------------- phases

  /** Instances are only created with a new UID, and an existing one only moves on. */
  ghost predicate InstancesMoveOn(c: Cluster, c': Cluster) {
    && c.nextUid <= c'.nextUid
    && forall k :: k in c'.instances && c'.instances[k].uid < c.nextUid ==>
         MovedOn(c, k, c'.instances[k])
  }

  predicate MovedOn(c: Cluster, k: Key, now: Instance) {
    && k in c.instances && c.instances[k].uid == now.uid
    && PhaseIndex(c.instances[k].phase) <= PhaseIndex(now.phase)
    && (c.instances[k].deleting ==> now.deleting)
  }

  lemma WriteMovesOn(c: Cluster, k: Key, read: Instance, obj: Instance)
    requires InstanceReadOk(c, k, read) && obj.version == read.version
    requires obj.uid == read.uid && PhaseIndex(read.phase) <= PhaseIndex(obj.phase)
    requires read.deleting ==> obj.deleting
    ensures InstancesMoveOn(c, WriteInstance(c, k, obj))
  {
  }

  lemma UserMovesOn(c: Cluster, e: Event, c': Cluster)
    requires UserWrites(c, e, c')
    ensures InstancesMoveOn(c, c')
  {
    if e.CreateHardware? || e.EditHardware? || e.DeleteHardware? || e.ReleaseHardware? {
      HardwareEditsKeepInstances(c, e, c');
    }
  }

  lemma HardwareEditsKeepInstances(c: Cluster, e: Event, c': Cluster)
    requires UserWrites(c, e, c')
    requires e.CreateHardware? || e.EditHardware? || e.DeleteHardware? || e.ReleaseHardware?
    ensures c'.instances == c.instances && c'.nextUid == c.nextUid
  {
  }

  lemma SchedulerMovesOn(s: State, e: Event, s': State)
    requires SchedulerRunsOk(s) && SchedulerNext(s, e, s')
    ensures InstancesMoveOn(s.api, s'.api)
  {
    if e.SchedulerWrite? || e.SchedulerUnassign? {
      assert SchedulerRunOk(s, e.k, s.schedulerRuns[e.k]);
      var read := s.schedulerRuns[e.k].bmi;
      WriteMovesOn(s.api, e.k, read, Scheduler.Decide(read).bmi);
    } else if e.SchedulerAssign? {
      assert SchedulerRunOk(s, e.k, s.schedulerRuns[e.k]);
      var read := s.schedulerRuns[e.k].bmi;
      WriteMovesOn(s.api, e.k, read, read.(hardwareName := e.name));
    }
  }

  lemma ControllerMovesOn(s: State, e: Event, s': State)
    requires ControllerRunsOk(s) && ControllerNext(s, e, s')
    ensures InstancesMoveOn(s.api, s'.api)
  {
    if e.ControllerWrite? {
      var read := s.controllerRuns[e.k];
      assert InstanceReadOk(s.api, e.k, read);
      WriteMovesOn(s.api, e.k, read, InstanceController.Decide(read).bmi);
    }
  }

  lemma ProvisionerDecidesForward(k: Key, r: Provisioner.Run)
    ensures var effect := Provisioner.Decide(k, r);
            effect.UpdateInstance? ==>
              && effect.bmi.version == r.bmi.version && effect.bmi.uid == r.bmi.uid
              && effect.bmi.deleting == r.bmi.deleting
              && PhaseIndex(r.bmi.phase) <= PhaseIndex(effect.bmi.phase)
  {
  }

  lemma ProvisionerWriteMovesOn(s: State, k: Key, r: Provisioner.Run)
    requires ProvisionerRunOk(s, k, r) && Provisioner.Decide(k, r).UpdateInstance?
    ensures InstancesMoveOn(s.api, WriteInstance(s.api, k, Provisioner.Decide(k, r).bmi))
  {
    ProvisionerDecidesForward(k, r);
    WriteMovesOn(s.api, k, r.bmi, Provisioner.Decide(k, r).bmi);
  }

  lemma OtherActsKeepInstances(s: State, e: Event, s': State)
    requires ProvisionerActs(s, e, s') && !e.ProvisionerWrite?
    ensures s'.api.instances == s.api.instances && s'.api.nextUid == s.api.nextUid
  {
  }

  lemma MachinesKeepApi(s: State, e: Event, s': State)
    requires MachineNext(s, e, s')
    ensures s'.api == s.api
  {
  }

  lemma ReadsKeepApi(s: State, e: Event, s': State)
    requires ProvisionerReads(s, e, s')
    ensures s'.api == s.api
  {
  }

  lemma ProvisionerMovesOn(s: State, e: Event, s': State)
    requires ProvisionerRunsOk(s) && ProvisionerActs(s, e, s')
    ensures InstancesMoveOn(s.api, s'.api)
  {
    if e.ProvisionerWrite? {
      assert ProvisionerRunOk(s, e.k, s.provisionerRuns[e.k]);
      ProvisionerWriteMovesOn(s, e.k, s.provisionerRuns[e.k]);
    } else {
      OtherActsKeepInstances(s, e, s');
    }
  }

  lemma ApplyMovesOn(c: Cluster, hk: Key, h: Hardware, effect: HardwareController.HardwareEffect)
    ensures InstancesMoveOn(c, HardwareController.Apply(c, hk, h, effect))
  {
  }

  lemma HardwareMovesOn(s: State, e: Event, s': State)
    requires HardwareNext(s, e, s')
    ensures InstancesMoveOn(s.api, s'.api)
  {
    hide HardwareController.Decide, HardwareController.Apply;
    if e.HardwareWrite? {
      var r := s.hardwareRuns[e.k];
      ApplyMovesOn(s.api, e.k, r.bmh, HardwareController.Decide(r.bmh, r.tenant, e.discoveries));
    }
  }

  lemma ReadyMovesOn(s: State, e: Event, s': State)
    requires ReadyRunsOk(s) && ReadyNext(s, e, s')
    ensures InstancesMoveOn(s.api, s'.api)
  {
    if e.ReadyWrite? {
      var r := s.readyRuns[e.id];
      assert ReadyRunOk(s, r);
      WriteMovesOn(s.api, r.ref.key, r.bmi.value, r.bmi.value.(agentInfo := Some(r.machine)));
    }
  }

  lemma NextMovesOn(s: State, e: Event, s': State)
    requires Inv(s) && Next(s, e, s')
    ensures InstancesMoveOn(s.api, s'.api)
  {
    if UserNext(s, e, s') {
      UserMovesOn(s.api, e, s'.api);
    } else if MachineNext(s, e, s') {
      MachinesKeepApi(s, e, s');
    } else if ProvisionerReads(s, e, s') {
      ReadsKeepApi(s, e, s');
    } else if ControllerNext(s, e, s') {
      ControllerMovesOn(s, e, s');
    } else if SchedulerNext(s, e, s') {
      SchedulerMovesOn(s, e, s');
    } else if ProvisionerActs(s, e, s') {
      ProvisionerMovesOn(s, e, s');
    } else if HardwareNext(s, e, s') {
      HardwareMovesOn(s, e, s');
    } else {
      ReadyMovesOn(s, e, s');
    }
  }

  /** In every run, an instance that exists at two moments went through the phases in order in
      between, and stayed deleting once it was. */
  lemma {:induction false} PhasesOnlyMoveForward(states: seq<State>, events: seq<Event>, i: nat, j: nat, k: Key)
    requires IsRun(states, events) && i <= j < |states|
    requires k in states[j].api.instances && states[j].api.instances[k].uid < states[i].api.nextUid
    ensures k in states[i].api.instances && states[i].api.instances[k].uid == states[j].api.instances[k].uid
    ensures PhaseIndex(states[i].api.instances[k].phase) <= PhaseIndex(states[j].api.instances[k].phase)
    ensures states[i].api.instances[k].deleting ==> states[j].api.instances[k].deleting
    decreases j
  {
    hide Inv, Next;
    if i < j {
      assert StepAt(states, events, j - 1);
      InvInEveryRun(states, events, j - 1);
      NextMovesOn(states[j - 1], events[j - 1], states[j]);
      UidsGrow(states, events, i, j - 1);
      assert MovedOn(states[j - 1].api, k, states[j].api.instances[k]);
      PhasesOnlyMoveForward(states, events, i, j - 1, k);
    }
  }

  lemma {:induction false} UidsGrow(states: seq<State>, events: seq<Event>, i: nat, j: nat)
    requires IsRun(states, events) && i <= j < |states|
    ensures states[i].api.nextUid <= states[j].api.nextUid
    decreases j
  {
    hide Inv, Next;
    if i < j {
      assert StepAt(states, events, j - 1);
      InvInEveryRun(states, events, j - 1);
      NextMovesOn(states[j - 1], events[j - 1], states[j]);
      UidsGrow(states, events, i, j - 1);
    }
  }
}
