// Where the networked condition of an instance comes from: in every run, an instance that has it
// had a pass of its provisioner hear that all NICs are addressed.
module LifecycleNetworked {
  import opened Common
  import opened Objects
  import opened Store
  import opened Lifecycle
  import opened Discovery
  import opened LifecycleProgress
  import Provisioner
  import Scheduler
  import InstanceController
  import HardwareController

  // Instances, by key and UID, for which all NICs were found addressed.
  type Answers = set<(Key, nat)>

  /** The answer event e brings, if it is that all NICs are addressed. */
  function Heard(s: State, e: Event): Answers {
    if e.ProvisionerNetwork? && e.network.AllAddressed? && e.k in s.provisionerRuns
    then {(e.k, s.provisionerRuns[e.k].bmi.uid)}
    else {}
  }

  /** The networked condition of a stored or fetched instance is true for a reason. */
  predicate Known(heard: Answers, k: Key, bmi: Instance) {
    bmi.Is(InstanceNetworked, StatusTrue) ==> (k, bmi.uid) in heard
  }

  predicate RunKnown(heard: Answers, k: Key, r: Provisioner.Run) {
    Known(heard, k, r.bmi) && (r.network == Some(Provisioner.AllAddressed) ==> (k, r.bmi.uid) in heard)
  }

  ghost predicate InstancesKnown(c: Cluster, heard: Answers) {
    forall k :: k in c.instances ==> Known(heard, k, c.instances[k])
  }

  ghost predicate RunsKnown(s: State, heard: Answers) {
    && (forall k :: k in s.controllerRuns ==> Known(heard, k, s.controllerRuns[k]))
    && (forall k :: k in s.schedulerRuns ==> Known(heard, k, s.schedulerRuns[k].bmi))
    && (forall k :: k in s.provisionerRuns ==> RunKnown(heard, k, s.provisionerRuns[k]))
    && (forall id :: id in s.readyRuns && s.readyRuns[id].bmi.Some? ==>
          Known(heard, s.readyRuns[id].ref.key, s.readyRuns[id].bmi.value))
  }

  ghost predicate AllKnown(s: State, heard: Answers) {
    InstancesKnown(s.api, heard) && RunsKnown(s, heard)
  }

  lemma MoreKnown(s: State, heard: Answers, more: Answers)
    requires AllKnown(s, heard) && heard <= more
    ensures AllKnown(s, more)
  {
  }

  lemma WriteKnown(c: Cluster, k: Key, obj: Instance, heard: Answers)
    requires InstancesKnown(c, heard) && Known(heard, k, obj)
    ensures InstancesKnown(PutInstance(c, k, obj), heard) && InstancesKnown(WriteInstance(c, k, obj), heard)
  {
  }

  // ---------------------------------------------------------------- steps

  lemma UserKnown(c: Cluster, e: Event, c': Cluster, heard: Answers)
    requires InstancesKnown(c, heard) && UserWrites(c, e, c')
    ensures InstancesKnown(c', heard)
  {
    hide InstancesKnown;
    match e {
      case CreateInstance(k, obj) =>
        WriteKnown(c, k, obj, heard);
        NextUidKnown(c, k, obj, heard);
      case DeleteInstance(k) =>
        if k in c.instances && !c.instances[k].deleting {
          StoredKnown(c, k, heard);
          WriteKnown(c, k, c.instances[k].(deleting := true), heard);
        }
      case ReleaseInstance(k, finalizer) =>
        StoredKnown(c, k, heard);
        WriteKnown(c, k, c.instances[k].(finalizers := c.instances[k].finalizers - {finalizer}), heard);
      case _ => SameInstancesKnown(c, c', heard);
    }
  }

  lemma StoredKnown(c: Cluster, k: Key, heard: Answers)
    requires InstancesKnown(c, heard) && k in c.instances
    ensures Known(heard, k, c.instances[k])
  {
  }

  lemma NextUidKnown(c: Cluster, k: Key, obj: Instance, heard: Answers)
    requires InstancesKnown(PutInstance(c, k, obj), heard)
    ensures InstancesKnown(AfterCreateInstance(c, k, obj), heard)
  {
  }

  lemma SameInstancesKnown(c: Cluster, c': Cluster, heard: Answers)
    requires InstancesKnown(c, heard) && c'.instances == c.instances
    ensures InstancesKnown(c', heard)
  {
  }

  lemma ControllerKnown(s: State, e: Event, s': State, heard: Answers)
    requires AllKnown(s, heard) && ControllerNext(s, e, s')
    ensures AllKnown(s', heard)
  {
    if e.ControllerWrite? {
      WriteKnown(s.api, e.k, InstanceController.Decide(s.controllerRuns[e.k]).bmi, heard);
    }
  }

  lemma SchedulerKnown(s: State, e: Event, s': State, heard: Answers)
    requires AllKnown(s, heard) && SchedulerNext(s, e, s')
    ensures AllKnown(s', heard)
  {
    hide Scheduler.ToleratesAll, Scheduler.SelectorMatches, NameUnused;
    if e.SchedulerWrite? || e.SchedulerUnassign? {
      SchedulerCopies(s.schedulerRuns[e.k].bmi);
      WriteKnown(s.api, e.k, Scheduler.Decide(s.schedulerRuns[e.k].bmi).bmi, heard);
    } else if e.SchedulerAssign? {
      WriteKnown(s.api, e.k, s.schedulerRuns[e.k].bmi.(hardwareName := e.name), heard);
    }
    hide Scheduler.Decide, WriteInstance;
  }

  lemma SchedulerCopies(bmi: Instance)
    ensures var effect := Scheduler.Decide(bmi);
            effect.UpdateInstance? || effect.Unassign? ==>
              && effect.bmi.uid == bmi.uid
              && (effect.bmi.Is(InstanceNetworked, StatusTrue) <==> bmi.Is(InstanceNetworked, StatusTrue))
  {
  }

  lemma ProvisionerReadsKnown(s: State, e: Event, s': State, heard: Answers)
    requires AllKnown(s, heard) && ProvisionerReads(s, e, s')
    ensures AllKnown(s', heard + Heard(s, e))
  {
    hide Provisioner.Decide;
  }

  /** A pass only sets the condition when it heard that all NICs are addressed. */
  lemma ProvisionerCopies(k: Key, r: Provisioner.Run)
    ensures var effect := Provisioner.Decide(k, r);
            effect.UpdateInstance? ==>
              && effect.bmi.uid == r.bmi.uid
              && (effect.bmi.Is(InstanceNetworked, StatusTrue) ==>
                    r.bmi.Is(InstanceNetworked, StatusTrue) || r.network == Some(Provisioner.AllAddressed))
  {
  }

  lemma ProvisionerKnown(s: State, e: Event, s': State, heard: Answers)
    requires AllKnown(s, heard) && ProvisionerActs(s, e, s')
    ensures AllKnown(s', heard)
  {
    hide Provisioner.Decide, InstancesKnown, Known, RunKnown, PutInstance;
    if e.ProvisionerWrite? {
      ProvisionerWriteKnown(s, e.k, heard);
    } else {
      OtherActsKeepInstances(s, e, s');
      SameInstancesKnown(s.api, s'.api, heard);
    }
    hide WriteInstance, AfterClaimOrRelease, AfterPost;
    ActsEndRun(s, e, s');
  }

  lemma ActsEndRun(s: State, e: Event, s': State)
    requires ProvisionerActs(s, e, s')
    ensures s'.controllerRuns == s.controllerRuns && s'.schedulerRuns == s.schedulerRuns && s'.readyRuns == s.readyRuns
    ensures s'.provisionerRuns == s.provisionerRuns - {e.k}
  {
    hide Provisioner.Decide, WriteInstance, PutHardware, Unbind;
  }

  lemma ProvisionerWriteKnown(s: State, k: Key, heard: Answers)
    requires AllKnown(s, heard) && k in s.provisionerRuns && Provisioner.Decide(k, s.provisionerRuns[k]).UpdateInstance?
    ensures InstancesKnown(WriteInstance(s.api, k, Provisioner.Decide(k, s.provisionerRuns[k]).bmi), heard)
  {
    hide Provisioner.Decide;
    ProvisionerCopies(k, s.provisionerRuns[k]);
    WriteKnown(s.api, k, Provisioner.Decide(k, s.provisionerRuns[k]).bmi, heard);
  }

  lemma HardwareKnown(s: State, e: Event, s': State, heard: Answers)
    requires AllKnown(s, heard) && HardwareNext(s, e, s')
    ensures AllKnown(s', heard)
  {
    hide HardwareController.Decide, HardwareController.Apply, InstancesKnown;
    if e.HardwareWrite? {
      var r := s.hardwareRuns[e.k];
      ApplyKnown(s.api, e.k, r.bmh, HardwareController.Decide(r.bmh, r.tenant, e.discoveries), heard);
    }
  }

  lemma ApplyKnown(c: Cluster, hk: Key, h: Hardware, effect: HardwareController.HardwareEffect, heard: Answers)
    requires InstancesKnown(c, heard)
    ensures InstancesKnown(HardwareController.Apply(c, hk, h, effect), heard)
  {
  }

  lemma ReadyKnown(s: State, e: Event, s': State, heard: Answers)
    requires AllKnown(s, heard) && ReadyNext(s, e, s')
    ensures AllKnown(s', heard)
  {
    hide OnlyHardware;
    if e.ReadyWrite? {
      var r := s.readyRuns[e.id];
      WriteKnown(s.api, r.ref.key, r.bmi.value.(agentInfo := Some(r.machine)), heard);
    }
    hide WriteInstance;
  }

  lemma MachineKnown(s: State, e: Event, s': State, heard: Answers)
    requires AllKnown(s, heard) && MachineNext(s, e, s')
    ensures AllKnown(s', heard)
  {
  }

  lemma NextKeepsKnown(s: State, e: Event, s': State, heard: Answers)
    requires AllKnown(s, heard) && Next(s, e, s')
    ensures AllKnown(s', heard + Heard(s, e))
  {
    if ProvisionerReads(s, e, s') {
      ProvisionerReadsKnown(s, e, s', heard);
    } else {
      if UserNext(s, e, s') {
        UserKnown(s.api, e, s'.api, heard);
      } else if MachineNext(s, e, s') {
        MachineKnown(s, e, s', heard);
      } else if ControllerNext(s, e, s') {
        ControllerKnown(s, e, s', heard);
      } else if SchedulerNext(s, e, s') {
        SchedulerKnown(s, e, s', heard);
      } else if ProvisionerActs(s, e, s') {
        ProvisionerKnown(s, e, s', heard);
      } else if HardwareNext(s, e, s') {
        HardwareKnown(s, e, s', heard);
      } else {
        ReadyKnown(s, e, s', heard);
      }
      MoreKnown(s', heard, heard + Heard(s, e));
    }
  }

  // ---------------------------------------------------------------- runs

  function HeardBy(states: seq<State>, events: seq<Event>, i: nat): Answers
    requires |states| == |events| + 1 && i <= |events|
    decreases i
  {
    if i == 0 then {} else HeardBy(states, events, i - 1) + Heard(states[i - 1], events[i - 1])
  }

  lemma {:induction false} KnownInEveryRun(states: seq<State>, events: seq<Event>, i: nat)
    requires IsRun(states, events) && i <= |events|
    ensures AllKnown(states[i], HeardBy(states, events, i))
    decreases i
  {
    hide Next;
    if i > 0 {
      hide AllKnown, Heard;
      KnownInEveryRun(states, events, i - 1);
      assert StepAt(states, events, i - 1);
      NextKeepsKnown(states[i - 1], events[i - 1], states[i], HeardBy(states, events, i - 1));
    }
  }

  /** Event m is the answer, to a pass over instance uid, that all NICs are addressed. */
  predicate AnsweredAt(states: seq<State>, events: seq<Event>, m: nat, k: Key, uid: nat) {
    && m < |events| && m < |states|
    && events[m] == ProvisionerNetwork(k, Provisioner.AllAddressed)
    && k in states[m].provisionerRuns && states[m].provisionerRuns[k].bmi.uid == uid
  }

  lemma {:induction false} HeardWasAnswered(states: seq<State>, events: seq<Event>, i: nat, k: Key, uid: nat)
    returns (m: nat)
    requires |states| == |events| + 1 && i <= |events| && (k, uid) in HeardBy(states, events, i)
    ensures m < i && AnsweredAt(states, events, m, k, uid)
    decreases i
  {
    if (k, uid) in Heard(states[i - 1], events[i - 1]) {
      m := i - 1;
    } else {
      m := HeardWasAnswered(states, events, i - 1, k, uid);
    }
  }

  /** In every run, an instance whose networked condition is true was, at an earlier moment, found
      to have all its NICs addressed, under the same UID. */
  lemma NetworkedWasAnswered(states: seq<State>, events: seq<Event>, i: nat, k: Key) returns (m: nat)
    requires IsRun(states, events) && i < |states|
    requires k in states[i].api.instances && states[i].api.instances[k].Is(InstanceNetworked, StatusTrue)
    ensures m < i && AnsweredAt(states, events, m, k, states[i].api.instances[k].uid)
  {
    KnownInEveryRun(states, events, i);
    assert Known(HeardBy(states, events, i), k, states[i].api.instances[k]);
    hide IsRun, AllKnown;
    m := HeardWasAnswered(states, events, i, k, states[i].api.instances[k].uid);
  }
}
