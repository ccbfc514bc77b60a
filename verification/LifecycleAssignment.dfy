// What the scheduler assigns, in every run: hardware that passed all its filters at a moment the
// lock was held, and that is still nobody's when it is assigned.
module LifecycleAssignment {
  import opened Common
  import opened Objects
  import opened Store
  import opened Lifecycle
  import opened LifecycleInvariant
  import opened LifecycleSafety
  import Provisioner
  import Scheduler

  /** The toleration check of the run is the same throughout. */
  ghost predicate Uses(events: seq<Event>, tolerates: Scheduler.Tolerates) {
    forall i :: 0 <= i < |events| && events[i].SchedulerAssign? ==> events[i].tolerates == tolerates
  }

  /** Instance k holds the lock from moment m to moment i. */
  predicate HoldsLock(states: seq<State>, k: Key, m: nat, i: nat)
    requires i < |states|
  {
    m <= i && forall j :: m <= j <= i ==> states[j].lock == Some(k)
  }

  /** Moment m is one since which k holds the lock, and the object was stored then. */
  predicate StoredAt(states: seq<State>, i: nat, k: Key, hk: Key, bmh: Hardware, m: nat)
    requires i < |states|
  {
    HoldsLock(states, k, m, i) && hk in states[m].api.hardware && states[m].api.hardware[hk] == bmh
  }

  lemma StillHolding(states: seq<State>, i: nat, k: Key, hk: Key, bmh: Hardware, m: nat)
    requires 0 < i < |states| && StoredAt(states, i - 1, k, hk, bmh, m) && states[i].lock == Some(k)
    ensures StoredAt(states, i, k, hk, bmh, m)
  {
  }

  lemma StoredJustBefore(states: seq<State>, i: nat, k: Key, hk: Key, bmh: Hardware)
    requires 0 < i < |states| && states[i - 1].lock == Some(k) && states[i].lock == Some(k)
    requires hk in states[i - 1].api.hardware && states[i - 1].api.hardware[hk] == bmh
    ensures StoredAt(states, i, k, hk, bmh, i - 1)
  {
  }

  lemma ListingStep(s: State, e: Event, s': State, k: Key, hk: Key)
    requires Inv(s) && Next(s, e, s')
    requires k in s'.schedulerRuns && s'.schedulerRuns[k].Locked? && hk in s'.schedulerRuns[k].listed
    ensures s.lock == Some(k)
    ensures (k in s.schedulerRuns && s.schedulerRuns[k].Locked? && hk in s.schedulerRuns[k].listed
             && s.schedulerRuns[k].listed[hk] == s'.schedulerRuns[k].listed[hk])
            || (hk in s.api.hardware && s.api.hardware[hk] == s'.schedulerRuns[k].listed[hk])
  {
    if SchedulerNext(s, e, s') {
      SchedulerListingStep(s, e, s', k, hk);
    } else {
      OthersKeepScheduler(s, e, s');
      assert SchedulerRunOk(s, k, s.schedulerRuns[k]);
    }
  }

  lemma SchedulerListingStep(s: State, e: Event, s': State, k: Key, hk: Key)
    requires SchedulerRunsOk(s) && SchedulerNext(s, e, s')
    requires k in s'.schedulerRuns && s'.schedulerRuns[k].Locked? && hk in s'.schedulerRuns[k].listed
    ensures s.lock == Some(k)
    ensures (k in s.schedulerRuns && s.schedulerRuns[k].Locked? && hk in s.schedulerRuns[k].listed
             && s.schedulerRuns[k].listed[hk] == s'.schedulerRuns[k].listed[hk])
            || (hk in s.api.hardware && s.api.hardware[hk] == s'.schedulerRuns[k].listed[hk])
  {
    hide Scheduler.Decide, NameUnused, Scheduler.SelectorMatches, Scheduler.ToleratesAll, InstanceReadOk, WriteInstance;
    if k in s.schedulerRuns {
      assert SchedulerRunOk(s, k, s.schedulerRuns[k]);
    }
  }

  lemma WorldKeepsScheduler(s: State, e: Event, s': State)
    requires UserNext(s, e, s') || MachineNext(s, e, s') || ControllerNext(s, e, s')
    ensures s'.schedulerRuns == s.schedulerRuns && s'.lock == s.lock
  {
    hide UserWrites;
  }

  lemma ProvisionerKeepsScheduler(s: State, e: Event, s': State)
    requires ProvisionerReads(s, e, s') || ProvisionerActs(s, e, s')
    ensures s'.schedulerRuns == s.schedulerRuns && s'.lock == s.lock
  {
    hide Provisioner.Decide;
  }

  lemma HardwareKeepsScheduler(s: State, e: Event, s': State)
    requires HardwareNext(s, e, s') || ReadyNext(s, e, s')
    ensures s'.schedulerRuns == s.schedulerRuns && s'.lock == s.lock
  {
  }

  lemma OthersKeepScheduler(s: State, e: Event, s': State)
    requires Next(s, e, s') && !SchedulerNext(s, e, s')
    ensures s'.schedulerRuns == s.schedulerRuns && s'.lock == s.lock
  {
    hide UserNext, MachineNext, ControllerNext, SchedulerNext, ProvisionerReads, ProvisionerActs, HardwareNext, ReadyNext;
    if UserNext(s, e, s') || MachineNext(s, e, s') || ControllerNext(s, e, s') {
      WorldKeepsScheduler(s, e, s');
    } else if ProvisionerReads(s, e, s') || ProvisionerActs(s, e, s') {
      ProvisionerKeepsScheduler(s, e, s');
    } else {
      HardwareKeepsScheduler(s, e, s');
    }
  }

  /** What a pass has listed was stored at a moment since which it holds the lock. */
  lemma {:induction false} ListedWasStored(states: seq<State>, events: seq<Event>, i: nat, k: Key, hk: Key)
    returns (m: nat)
    requires IsRun(states, events) && i < |states|
    requires k in states[i].schedulerRuns && states[i].schedulerRuns[k].Locked? && hk in states[i].schedulerRuns[k].listed
    ensures StoredAt(states, i, k, hk, states[i].schedulerRuns[k].listed[hk], m)
  {
    hide Inv, Next, StoredAt;
    InvInEveryRun(states, events, i);
    HolderIsLocked(states[i], k);
    if i > 0 {
      InvInEveryRun(states, events, i - 1);
      assert StepAt(states, events, i - 1);
      ListingStep(states[i - 1], events[i - 1], states[i], k, hk);
      var bmh := states[i].schedulerRuns[k].listed[hk];
      if hk in states[i - 1].api.hardware && states[i - 1].api.hardware[hk] == bmh {
        m := i - 1;
        StoredJustBefore(states, i, k, hk, bmh);
      } else {
        m := ListedWasStored(states, events, i - 1, k, hk);
        StillHolding(states, i, k, hk, bmh, m);
      }
    }
  }

  lemma HolderIsLocked(s: State, k: Key)
    requires Inv(s) && k in s.schedulerRuns && s.schedulerRuns[k].Locked?
    ensures s.lock == Some(k)
  {
    assert SchedulerRunOk(s, k, s.schedulerRuns[k]);
  }

  /** The object passed every filter of the scheduler. */
  predicate Passed(bmi: Instance, bmh: Hardware, tolerates: Scheduler.Tolerates) {
    && !bmh.deleting && bmh.instanceRef == None && bmh.canProvision
    && Scheduler.SelectorMatches(bmi.selector, bmh.labels)
    && Scheduler.ToleratesAll(bmi, bmh, tolerates)
  }

  /** Nobody is assigned to the hardware, and it names nobody. */
  ghost predicate IsNobodys(c: Cluster, hk: Key) {
    NameUnused(c, hk.name) && (hk in c.hardware ==> c.hardware[hk].instanceRef == None)
  }

  lemma UnusedIsUnowned(s: State, hk: Key)
    requires Inv(s) && NameUnused(s.api, hk.name)
    ensures IsNobodys(s.api, hk)
  {
    if hk in s.api.hardware {
      assert HardwareOk(s, hk, s.api.hardware[hk]);
    }
  }

  /** Whenever the scheduler assigns hardware to an instance, the hardware was undeleted, unowned,
      open for provisioning, selected and fully tolerated as it was stored at a moment since which
      the lock is held; and still nobody is assigned to it and it names no instance. */
  lemma AssignedHardwareIsFree(states: seq<State>, events: seq<Event>, i: nat, tolerates: Scheduler.Tolerates)
    requires IsRun(states, events) && Uses(events, tolerates) && i < |events| && events[i].SchedulerAssign?
    ensures var k := events[i].k;
            var hk := Key(k.ns, events[i].name);
            && IsNobodys(states[i].api, hk)
            && k in states[i].schedulerRuns
            && exists m: nat :: HoldsLock(states, k, m, i) && hk in states[m].api.hardware
                 && Passed(states[i].schedulerRuns[k].bmi, states[m].api.hardware[hk], tolerates)
  {
    var k, name := events[i].k, events[i].name;
    var hk := Key(k.ns, name);
    InvInEveryRun(states, events, i);
    assert StepAt(states, events, i);
    AssignGuard(states[i], events[i], states[i + 1]);
    UnusedIsUnowned(states[i], hk);
    var m := ListedWasStored(states, events, i, k, hk);
    hide Inv, IsRun, Next, NameUnused, Passed, HoldsLock;
  }

  lemma AssignGuard(s: State, e: Event, s': State)
    requires Inv(s) && Next(s, e, s') && e.SchedulerAssign?
    ensures var hk := Key(e.k.ns, e.name);
            && e.k in s.schedulerRuns && s.schedulerRuns[e.k].Locked? && hk in s.schedulerRuns[e.k].listed
            && Passed(s.schedulerRuns[e.k].bmi, s.schedulerRuns[e.k].listed[hk], e.tolerates)
            && NameUnused(s.api, e.name)
  {
    assert SchedulerNext(s, e, s');
    assert SchedulerRunOk(s, e.k, s.schedulerRuns[e.k]);
    hide Scheduler.Decide, Scheduler.SelectorMatches, Scheduler.ToleratesAll;
  }
}
