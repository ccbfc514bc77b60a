// What becomes of a deletion whose machine cannot be told by its system UUID: no agent is bound
// to the instance while that is so, and with an empty UUID it is so for good.
module LifecycleIdentity {
  import opened Common
  import opened Objects
  import opened Store
  import opened Lifecycle
  import opened LifecycleInvariant
  import opened LifecycleSafety
  import opened LifecycleDeletion
  import opened LifecycleNetworked
  import opened LifecycleIdentitySteps
  import Provisioner
  import Scheduler
  import InstanceController
  import HardwareController
  import Discovery

  /** The deletion of instance uid gets no agent and does not get past its cleaning: it is as it
      was, but for the begin of the cleaning, on the same hardware. */
  lemma {:induction false} AdriftWhileUnidentified(states: seq<State>, events: seq<Event>, i: nat, j: nat,
                                                   k: Key, uid: nat, hk: Key, uuid: string)
    requires IsRun(states, events) && i <= j < |states|
    requires Adrift(states[i], k, uid, hk, uuid) && NoRequest(states[i], k, uid)
    requires forall t :: i <= t < j ==> Unidentified(states[t].api, hk, uuid)
    ensures Adrift(states[j], k, uid, hk, uuid) && NoRequest(states[j], k, uid)
    decreases j
  {
    hide Inv, Next, Adrift, NoRequest, Unidentified, AgentsRemembered;
    if i < j {
      AdriftWhileUnidentified(states, events, i, j - 1, k, uid, hk, uuid);
      InvInEveryRun(states, events, j - 1);
      AgentsRememberedInEveryRun(states, events, j - 1);
      assert StepAt(states, events, j - 1);
      NextKeepsAdrift(states[j - 1], events[j - 1], states[j], k, uid, hk, uuid);
    }
  }

  ghost predicate RequestsNamed(s: State) {
    forall id :: id in s.readyRuns ==> s.readyRuns[id].machine != ""
  }

  lemma ReadyNames(s: State, e: Event, s': State)
    requires RequestsNamed(s) && ReadyNext(s, e, s')
    ensures RequestsNamed(s')
  {
    hide Discovery.OnlyHardware, WriteInstance;
  }

  lemma OthersKeepRequests(s: State, e: Event, s': State)
    requires Next(s, e, s') && !ReadyNext(s, e, s')
    ensures s'.readyRuns == s.readyRuns
  {
    hide UserNext, MachineNext, ControllerNext, SchedulerNext, ProvisionerReads, ProvisionerActs, HardwareNext, ReadyNext;
    if MachineNext(s, e, s') || ProvisionerReads(s, e, s') {
      ReadsKeepRequests(s, e, s');
    } else if ProvisionerActs(s, e, s') {
      ActsEndRun(s, e, s');
    } else if SchedulerNext(s, e, s') {
      SchedulerKeepsRequests(s, e, s');
    } else {
      UsersKeepRequests(s, e, s');
    }
  }

  lemma SchedulerKeepsRequests(s: State, e: Event, s': State)
    requires SchedulerNext(s, e, s')
    ensures s'.readyRuns == s.readyRuns
  {
    hide WriteInstance, Scheduler.Decide, Scheduler.ToleratesAll, Scheduler.SelectorMatches, NameUnused;
  }

  lemma UsersKeepRequests(s: State, e: Event, s': State)
    requires UserNext(s, e, s') || ControllerNext(s, e, s') || HardwareNext(s, e, s')
    ensures s'.readyRuns == s.readyRuns
  {
    hide UserWrites, WriteInstance, InstanceController.Decide, HardwareController.Decide, HardwareController.Apply;
  }

  lemma {:induction false} RequestsAreNamed(states: seq<State>, events: seq<Event>, i: nat)
    requires IsRun(states, events) && i < |states|
    ensures RequestsNamed(states[i])
    decreases i
  {
    hide Next;
    if i > 0 {
      RequestsAreNamed(states, events, i - 1);
      assert StepAt(states, events, i - 1);
      if ReadyNext(states[i - 1], events[i - 1], states[i]) {
        ReadyNames(states[i - 1], events[i - 1], states[i]);
      } else {
        OthersKeepRequests(states[i - 1], events[i - 1], states[i]);
      }
    }
  }

  /** No request can be about hardware without a UUID. */
  lemma NamelessHasNoRequest(s: State, k: Key, uid: nat, hk: Key)
    requires Inv(s) && RequestsNamed(s) && Adrift(s, k, uid, hk, "")
    ensures NoRequest(s, k, uid)
  {
    hide InstancesOk, InstancesDistinct, MachinesOk, ProvisionerRunsOk, SchedulerRunsOk;
    forall id | id in s.readyRuns ensures s.readyRuns[id].ref != InstanceRef(k, uid) {
      assert ReadyRunOk(s, s.readyRuns[id]);
      if s.readyRuns[id].hardware in s.api.hardware {
        assert HardwareOk(s, s.readyRuns[id].hardware, s.api.hardware[s.readyRuns[id].hardware]);
      }
    }
  }

  /** The other half of DeletionCanEnd: an instance that claimed hardware with an empty system UUID
      and has no agent when it is deleted never gets one; from then on, in every run, it stays where
      it is, with the hardware claimed. */
  lemma NamelessDeletionNeverEnds(states: seq<State>, events: seq<Event>, i: nat, j: nat, k: Key)
    requires IsRun(states, events) && i <= j < |states|
    requires k in states[i].api.instances && states[i].api.instances[k].deleting
    requires var bmi := states[i].api.instances[k];
             && Owns(states[i], k, bmi) && bmi.agentInfo.None?
             && states[i].api.hardware[Provisioner.HardwareKey(k, bmi)].systemUUID == ""
             && !CleaningFailed(bmi)
    ensures var bmi := states[i].api.instances[k];
            Adrift(states[j], k, bmi.uid, Provisioner.HardwareKey(k, bmi), "")
  {
    var bmi := states[i].api.instances[k];
    InvInEveryRun(states, events, i);
    RequestsAreNamed(states, events, i);
    OwnerIsUncleaned(states[i], k);
    NamelessHasNoRequest(states[i], k, bmi.uid, Provisioner.HardwareKey(k, bmi));
    hide IsRun, Inv, Adrift, NoRequest;
    AdriftWhileUnidentified(states, events, i, j, k, bmi.uid, Provisioner.HardwareKey(k, bmi), "");
  }

  lemma OwnerIsUncleaned(s: State, k: Key)
    requires Inv(s) && k in s.api.instances && s.api.instances[k].deleting
    requires Owns(s, k, s.api.instances[k]) && s.api.instances[k].agentInfo.None? && !CleaningFailed(s.api.instances[k])
    ensures var bmi := s.api.instances[k];
            var hk := Provisioner.HardwareKey(k, bmi);
            Adrift(s, k, bmi.uid, hk, s.api.hardware[hk].systemUUID)
  {
    var hk := Provisioner.HardwareKey(k, s.api.instances[k]);
    assert HardwareOk(s, hk, s.api.hardware[hk]);
    assert InstanceOk(s, k, s.api.instances[k]);
  }

  /** And with a UUID that several hardware objects have: as long as that is so, and no request that
      found the hardware before is in flight, the deletion does not get past its cleaning either. */
  lemma SharedDeletionWaits(states: seq<State>, events: seq<Event>, i: nat, j: nat, k: Key)
    requires IsRun(states, events) && i <= j < |states|
    requires k in states[i].api.instances && states[i].api.instances[k].deleting
    requires var bmi := states[i].api.instances[k];
             && Owns(states[i], k, bmi) && bmi.agentInfo.None? && !CleaningFailed(bmi)
             && NoRequest(states[i], k, bmi.uid)
             && forall t :: i <= t < j ==>
                  !Discovery.OnlyHardware(states[t].api, states[i].api.hardware[Provisioner.HardwareKey(k, bmi)].systemUUID,
                                          Provisioner.HardwareKey(k, bmi))
    ensures var bmi := states[i].api.instances[k];
            var hk := Provisioner.HardwareKey(k, bmi);
            Adrift(states[j], k, bmi.uid, hk, states[i].api.hardware[hk].systemUUID)
  {
    var bmi := states[i].api.instances[k];
    var hk := Provisioner.HardwareKey(k, bmi);
    InvInEveryRun(states, events, i);
    OwnerIsUncleaned(states[i], k);
    hide IsRun, Inv, Adrift, NoRequest, Discovery.OnlyHardware;
    AdriftWhileUnidentified(states, events, i, j, k, bmi.uid, hk, states[i].api.hardware[hk].systemUUID);
  }
}
