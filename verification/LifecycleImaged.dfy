// Where the imaged condition of an instance comes from: an imaging action that was requested for
// it, on the machine of its hardware, and ended without an error.
module LifecycleImaged {
  import opened Common
  import opened Objects
  import opened Store
  import opened Agent
  import opened Lifecycle
  import opened LifecycleInvariant
  import opened LifecycleSafety
  import opened LifecycleImagedSteps
  import Provisioner
  import Scheduler
  import InstanceController
  import HardwareController

  lemma NextKeepsImagedOk(s: State, e: Event, s': State, images: Images)
    requires Inv(s) && Inv(s') && Next(s, e, s') && AllImagedOk(s, images)
    ensures AllImagedOk(s', images + Ended(s, e))
  {
    hide Inv, Next, Ended, InstanceImagedOk, RunImagedOk, MachineImagedOk;
    forall k | k in s'.api.instances ensures InstanceImagedOk(s', images + Ended(s, e), s'.api.instances[k]) {
      InstanceStaysImagedOk(s, e, s', images, k);
    }
    forall k | k in s'.provisionerRuns ensures RunImagedOk(images + Ended(s, e), s'.provisionerRuns[k]) {
      RunStaysImagedOk(s, e, s', images, k);
      MoreImages(images, images + Ended(s, e), s'.provisionerRuns[k]);
    }
    forall machine ensures MachineImagedOk(s', images + Ended(s, e), machine) {
      MachineStaysImagedOk(s, e, s', images, machine);
    }
  }

  lemma MoreImages(images: Images, more: Images, r: Provisioner.Run)
    requires RunImagedOk(images, r) && images <= more
    ensures RunImagedOk(more, r)
  {
  }

  function EndedBy(states: seq<State>, events: seq<Event>, i: nat): Images
    requires |states| == |events| + 1 && i <= |events|
    decreases i
  {
    if i == 0 then {} else EndedBy(states, events, i - 1) + Ended(states[i - 1], events[i - 1])
  }

  lemma {:induction false} ImagedOkInEveryRun(states: seq<State>, events: seq<Event>, i: nat)
    requires IsRun(states, events) && i <= |events|
    ensures AllImagedOk(states[i], EndedBy(states, events, i))
    decreases i
  {
    hide Next, Inv;
    if i > 0 {
      hide AllImagedOk, Ended;
      ImagedOkInEveryRun(states, events, i - 1);
      InvInEveryRun(states, events, i - 1);
      InvInEveryRun(states, events, i);
      assert StepAt(states, events, i - 1);
      NextKeepsImagedOk(states[i - 1], events[i - 1], states[i], EndedBy(states, events, i - 1));
    }
  }

  /** The machine is not started again between event a and event b. */
  ghost predicate SameBoot(events: seq<Event>, machine: string, a: nat, b: nat) {
    forall j :: a < j < b && j < |events| ==> events[j] != PowerOff(machine) && events[j] != BootAgent(machine)
  }

  predicate IsImaging(s: State, machine: string) {
    machine in s.boots && s.boots[machine].current.Some? && s.boots[machine].current.value.actionType == Imaging
  }

  lemma ImagingStep(s: State, e: Event, s': State, machine: string)
    requires Next(s, e, s') && IsImaging(s', machine)
    ensures (exists uid :: ImageAccepted(s, e, machine, uid))
            || (IsImaging(s, machine) && !DisksCleaned(s, e, machine) && e != PowerOff(machine) && e != BootAgent(machine))
  {
    hide ProvisionerActs, ProvisionerReads, SchedulerNext, UserNext, ControllerNext, HardwareNext, ReadyNext;
    if MachineNext(s, e, s') {
    } else if ProvisionerActs(s, e, s') {
      ProvisionerImagingStep(s, e, s', machine);
    } else {
      OthersKeepBoots(s, e, s');
      NoBootOutside(s, e, s', machine);
    }
  }

  lemma NoBootOutside(s: State, e: Event, s': State, machine: string)
    requires Next(s, e, s') && !MachineNext(s, e, s')
    ensures e != PowerOff(machine) && e != BootAgent(machine) && !e.EndAction?
  {
    hide WriteInstance, Scheduler.Decide, Provisioner.Decide, HardwareController.Decide, InstanceController.Decide;
  }

  lemma ProvisionerImagingStep(s: State, e: Event, s': State, machine: string)
    requires ProvisionerActs(s, e, s') && IsImaging(s', machine)
    ensures (exists uid :: ImageAccepted(s, e, machine, uid))
            || (IsImaging(s, machine) && !DisksCleaned(s, e, machine) && e != PowerOff(machine) && e != BootAgent(machine))
  {
    hide Provisioner.Decide, WriteInstance, PutHardware;
    if e.ProvisionerPost? && !IsImaging(s, machine) {
      assert ImageAccepted(s, e, machine, s.provisionerRuns[e.k].bmi.uid);
    }
  }

  /** A machine in an imaging action accepted it, for the instance whose image it carries, in this boot. */
  lemma {:induction false} ImagingWasAccepted(states: seq<State>, events: seq<Event>, i: nat, machine: string)
    returns (a: nat)
    requires IsRun(states, events) && i < |states| && IsImaging(states[i], machine)
    ensures machine in states[i].dirty && a < i
    ensures ImageAccepted(states[a], events[a], machine, states[i].dirty[machine]) && SameBoot(events, machine, a, i)
    decreases i
  {
    hide Next, Inv, ImageAccepted, DisksCleaned, IsImaging;
    assert i > 0 by {
      NothingBoots(machine);
    }
    assert StepAt(states, events, i - 1);
    var s, e, s' := states[i - 1], events[i - 1], states[i];
    InvInEveryRun(states, events, i - 1);
    ImagingStep(s, e, s', machine);
    if uid: nat :| ImageAccepted(s, e, machine, uid) {
      AcceptedNow(s, e, s', machine, uid);
      a := i - 1;
    } else {
      a := ImagingWasAccepted(states, events, i - 1, machine);
      DirtyStep(s, e, s', machine, s.dirty[machine]);
    }
  }

  lemma NothingBoots(machine: string)
    ensures !IsImaging(INIT, machine)
  {
  }

  lemma AcceptedNow(s: State, e: Event, s': State, machine: string, uid: nat)
    requires Next(s, e, s') && ImageAccepted(s, e, machine, uid)
    ensures machine in s'.dirty && s'.dirty[machine] == uid
  {
    PostsAreActs(s, e, s');
    AcceptedDirties(s, e, s', machine, uid);
  }

  lemma {:induction false} EndedAt(states: seq<State>, events: seq<Event>, i: nat, machine: string, uid: nat)
    returns (b: nat)
    requires |states| == |events| + 1 && i <= |events| && (machine, uid) in EndedBy(states, events, i)
    ensures b < i && ImagingEnded(states[b], events[b], machine)
    ensures machine in states[b].dirty && states[b].dirty[machine] == uid
    decreases i
  {
    if (machine, uid) in Ended(states[i - 1], events[i - 1]) {
      b := i - 1;
    } else {
      b := EndedAt(states, events, i - 1, machine, uid);
    }
  }

  lemma OwnMachine(s: State, k: Key, machine: string)
    requires Inv(s) && k in s.api.instances && ActiveImaged(s.api.instances[k])
    requires machine in s.dirty && s.dirty[machine] == s.api.instances[k].uid
    ensures var hk := Provisioner.HardwareKey(k, s.api.instances[k]);
            hk in s.api.hardware && s.api.hardware[hk].systemUUID == machine
  {
    ActiveHasDirty(s, k);
    OneMachinePerImage(s, machine, s.api.hardware[Provisioner.HardwareKey(k, s.api.instances[k])].systemUUID);
  }

  /** In every run, when an instance is imaged and is being provisioned or runs, the machine of its
      hardware accepted an image for this very instance at an earlier moment, and in the same boot
      the imaging ended without an error. */
  lemma ImagedInstanceHasImage(states: seq<State>, events: seq<Event>, i: nat, k: Key)
    returns (machine: string, a: nat, b: nat)
    requires IsRun(states, events) && i < |states| && k in states[i].api.instances
    requires ActiveImaged(states[i].api.instances[k]) || states[i].api.instances[k].phase == Running
    ensures var bmi := states[i].api.instances[k];
            var hk := Key(k.ns, bmi.hardwareName);
            && hk in states[i].api.hardware && states[i].api.hardware[hk].systemUUID == machine
            && a < b < i
            && ImageAccepted(states[a], events[a], machine, bmi.uid)
            && ImagingEnded(states[b], events[b], machine)
            && SameBoot(events, machine, a, b)
  {
    var bmi := states[i].api.instances[k];
    ImagedOkInEveryRun(states, events, i);
    InvInEveryRun(states, events, i);
    if bmi.phase == Running {
      RunningMeans(states, events, i, k);
    }
    assert InstanceImagedOk(states[i], EndedBy(states, events, i), bmi);
    hide IsRun, Inv, AllImagedOk, ImageAccepted, ImagingEnded;
    machine :| HasImage(states[i], EndedBy(states, events, i), machine, bmi.uid);
    OwnMachine(states[i], k, machine);
    b := EndedAt(states, events, i, machine, bmi.uid);
    EndedIsImaging(states[b], events[b], machine);
    a := ImagingWasAccepted(states, events, b, machine);
  }

  lemma EndedIsImaging(s: State, e: Event, machine: string)
    requires ImagingEnded(s, e, machine)
    ensures IsImaging(s, machine)
  {
  }
}
