// How a deletion gets to its end: unless it is held up, the controllers can always get one more
// write through, without any user.
module LifecycleReachability {
  import opened Common
  import opened Objects
  import opened Store
  import opened Lifecycle
  import opened LifecycleInvariant
  import opened LifecycleProvisionerSteps
  import opened LifecycleSafety
  import opened LifecycleSteps
  import opened LifecycleProgress
  import opened LifecycleDeletion
  import opened LifecycleRefinement
  import Provisioner
  import Scheduler
  import InstanceController

  // ---------------------------------------------------------------- runs that go on

  function Last(states: seq<State>): State
    requires states != []
  {
    states[|states| - 1]
  }

  lemma Extend(states: seq<State>, events: seq<Event>, e: Event, s': State)
    requires IsRun(states, events) && Next(Last(states), e, s')
    ensures IsRun(states + [s'], events + [e])
  {
    hide Next;
    var states', events' := states + [s'], events + [e];
    forall i | 0 <= i < |events'|
      ensures StepAt(states', events', i)
    {
      if i < |events| {
        assert StepAt(states, events, i);
      }
    }
  }

  /** A run goes on with any events that lead on from its last state. */
  lemma {:induction false} Continue(states: seq<State>, events: seq<Event>, more: seq<Event>, s': State)
    returns (states': seq<State>)
    requires IsRun(states, events) && Leads(Last(states), more, s')
    ensures IsRun(states', events + more) && states <= states' && Last(states') == s'
    decreases |more|
  {
    hide Next;
    if more == [] {
      assert events + more == events;
      return states;
    }
    var s1 :| Next(Last(states), more[0], s1) && Leads(s1, more[1..], s');
    Extend(states, events, more[0], s1);
    states' := Continue(states + [s1], events + [more[0]], more[1..], s');
    assert events + [more[0]] + more[1..] == events + more;
  }

  lemma {:induction false} LeadsWithoutUsers(s: State, events: seq<Event>, s': State, i: nat)
    requires Leads(s, events, s') && i < |events|
    ensures !ByUser(events[i])
    decreases i
  {
    hide Next, ByUser;
    if i > 0 {
      var s1 :| Next(s, events[0], s1) && Leads(s1, events[1..], s');
      LeadsWithoutUsers(s1, events[1..], s', i - 1);
    }
  }

  lemma {:induction false} LeadsOn(s: State, first: seq<Event>, s1: State, second: seq<Event>, s': State)
    requires Leads(s, first, s1) && Leads(s1, second, s')
    ensures Leads(s, first + second, s')
    decreases |first|
  {
    hide Next, ByUser;
    if first == [] {
      assert first + second == second;
    } else {
      var t :| Next(s, first[0], t) && Leads(t, first[1..], s1);
      LeadsOn(t, first[1..], s1, second, s');
      OneStep(s, first[0], t, first[1..] + second, s');
      assert [first[0]] + (first[1..] + second) == first + second;
    }
  }

  // ---------------------------------------------------------------- one more write

  /** The runs that could be in the way have ended. */
  function Calm(s: State, k: Key): State {
    var s1 := EndScheduler(EndProvisioner(s.(controllerRuns := s.controllerRuns - {k}), k), k);
    if s1.lock.Some? then EndScheduler(s1, s1.lock.value) else s1
  }

  predicate NothingInTheWay(s: State, k: Key) {
    k !in s.controllerRuns && k !in s.schedulerRuns && k !in s.provisionerRuns && s.lock == None
  }

  lemma AbortsOther(s: State, k: Key)
    ensures Next(s, AbortController(k), s.(controllerRuns := s.controllerRuns - {k}))
    ensures Next(s, AbortProvisioner(k), EndProvisioner(s, k))
  {
    assert ControllerNext(s, AbortController(k), s.(controllerRuns := s.controllerRuns - {k}));
    assert ProvisionerActs(s, AbortProvisioner(k), EndProvisioner(s, k));
  }

  lemma AbortsScheduler(s: State, k: Key)
    ensures Next(s, AbortScheduler(k), EndScheduler(s, k))
  {
    assert SchedulerNext(s, AbortScheduler(k), EndScheduler(s, k));
  }

  lemma EndsRuns(s: State, k: Key) returns (events: seq<Event>)
    ensures Leads(s, events, EndScheduler(EndProvisioner(s.(controllerRuns := s.controllerRuns - {k}), k), k))
  {
    hide Next, Leads;
    var s1 := s.(controllerRuns := s.controllerRuns - {k});
    var s2 := EndProvisioner(s1, k);
    var s3 := EndScheduler(s2, k);
    AbortsOther(s, k);
    AbortsOther(s1, k);
    AbortsScheduler(s2, k);
    TwoSteps(s1, AbortProvisioner(k), s2, AbortScheduler(k), s3);
    OneStep(s, AbortController(k), s1, [AbortProvisioner(k), AbortScheduler(k)], s3);
    events := [AbortController(k)] + [AbortProvisioner(k), AbortScheduler(k)];
  }

  lemma CalmsDown(s: State, k: Key) returns (events: seq<Event>)
    ensures Leads(s, events, Calm(s, k))
    ensures NothingInTheWay(Calm(s, k), k)
    ensures Calm(s, k).api == s.api && Calm(s, k).boots == s.boots
  {
    hide Next, Leads;
    events := EndsRuns(s, k);
    var s3 := EndScheduler(EndProvisioner(s.(controllerRuns := s.controllerRuns - {k}), k), k);
    if s3.lock.Some? {
      AbortsScheduler(s3, s3.lock.value);
      LastStep(s3, AbortScheduler(s3.lock.value), Calm(s, k));
      LeadsOn(s, events, s3, [AbortScheduler(s3.lock.value)], Calm(s, k));
      events := events + [AbortScheduler(s3.lock.value)];
    }
  }

  /** Instance k was there, and if it still is, it is the same one, being deleted. */
  predicate StillDeleted(c: Cluster, c': Cluster, k: Key) {
    && k in c.instances
    && (k in c'.instances ==> c'.instances[k].uid == c.instances[k].uid && c'.instances[k].deleting)
  }

  lemma WriteStillDeletes(c: Cluster, k: Key, obj: Instance)
    requires k in c.instances && c.instances[k].deleting && obj.uid == c.instances[k].uid && obj.deleting
    ensures StillDeleted(c, WriteInstance(c, k, obj), k)
  {
  }

  // ---------------------------------------------------------------- agents that are left behind

  /** The instance is past its cleaning, and still has an agent. */
  predicate AgentLingers(bmi: Instance) {
    bmi.agentInfo.Some? && (bmi.phase == Terminating || bmi.phase == Terminated)
  }

  /** The hardware of the instance went away before its cleaning was found done. */
  predicate HardwareLost(c: Cluster, k: Key, bmi: Instance) {
    && bmi.agentInfo.Some? && bmi.phase == Cleaning && !bmi.Is(InstanceCleaned, StatusTrue)
    && Provisioner.HardwareKey(k, bmi) !in c.hardware
  }

  /** An agent is on the instance that no pass will take off. */
  predicate AgentLeft(c: Cluster, k: Key, bmi: Instance) {
    AgentLingers(bmi) || HardwareLost(c, k, bmi)
  }

  predicate Clear(c: Cluster, k: Key) {
    k in c.instances ==> !AgentLeft(c, k, c.instances[k])
  }

  /** What the invariant says about instance k and its hardware. */
  predicate InstanceStands(s: State, k: Key, bmi: Instance) {
    var hk := Provisioner.HardwareKey(k, bmi);
    && InstanceShape(s, bmi)
    && (bmi.agentInfo.Some? && bmi.phase == Provisioning ==> Owns(s, k, bmi))
    && (hk in s.api.hardware && s.api.hardware[hk].instanceRef.Some? ==> Owns(s, k, bmi))
    && (Owns(s, k, bmi) ==> OwnFinalizer in s.api.hardware[hk].finalizers)
  }

  lemma InvStands(s: State, k: Key)
    requires Inv(s) && k in s.api.instances && s.api.instances[k].deleting
    ensures InstanceStands(s, k, s.api.instances[k])
  {
    var hk := Provisioner.HardwareKey(k, s.api.instances[k]);
    InstanceFacts(s, k);
    NoOtherTenant(s, k, s.api.instances[k]);
    if hk in s.api.hardware {
      assert HardwareOk(s, hk, s.api.hardware[hk]);
    }
    hide Inv;
  }

  lemma WriteStaysClear(c: Cluster, k: Key, obj: Instance)
    requires k in c.instances && Clear(c, k) && !AgentLeft(c, k, obj)
    ensures Clear(WriteInstance(c, k, obj), k)
  {
  }

  lemma SchedulerLeavesNoAgent(c: Cluster, k: Key, bmi: Instance)
    requires bmi.deleting && !AgentLeft(c, k, bmi)
    requires Scheduler.Decide(bmi).UpdateInstance? || Scheduler.Decide(bmi).Unassign?
    requires PhaseIndex(bmi.phase) <= PhaseIndex(Pending) ==> bmi.agentInfo.None?
    requires ActivePhase(bmi.phase) ==> bmi.Is(InstanceScheduled, StatusTrue)
    ensures !AgentLeft(c, k, Scheduler.Decide(bmi).bmi)
  {
  }

  lemma ProvisionerLeavesNoAgent(s: State, k: Key, bmi: Instance)
    requires bmi.deleting && InstanceStands(s, k, bmi) && !AgentLeft(s.api, k, bmi)
    requires Provisioner.Decide(k, PassNow(s, k, bmi)).UpdateInstance?
    ensures !AgentLeft(s.api, k, Provisioner.Decide(k, PassNow(s, k, bmi)).bmi)
  {
  }

  lemma ReleaseStaysClear(s: State, hk: Key, bmh: Hardware, k: Key)
    requires Clear(s.api, k) && OwnFinalizer in bmh.finalizers
    ensures Clear(AfterClaimOrRelease(s, hk, bmh).api, k)
  {
  }

  // ---------------------------------------------------------------- writes that are due

  /** Event e is a write for the deletion of instance k that gets through, and pre leads up to it.
      It leaves no agent behind. */
  ghost predicate WriteDue(s: State, pre: seq<Event>, s1: State, e: Event, s': State, k: Key) {
    && Leads(s, pre, s1) && s1.api == s.api
    && Next(s1, e, s') && Lands(s1, e, k) && !ByUser(e)
    && StillDeleted(s.api, s'.api, k)
    && (Clear(s.api, k) ==> Clear(s'.api, k))
  }

  lemma ControllerLands(s: State, k: Key)
    requires k in s.api.instances && s.api.instances[k].deleting && OwnFinalizer in s.api.instances[k].finalizers
    requires LetGo(s.api.instances[k])
    ensures Lands(s.(controllerRuns := s.controllerRuns[k := s.api.instances[k]]), ControllerWrite(k), k)
    ensures StillDeleted(s.api, InstanceController.Reconciled(s.api, k), k)
    ensures Clear(InstanceController.Reconciled(s.api, k), k)
  {
  }

  lemma ControllerGetsThrough(s: State, k: Key) returns (pre: seq<Event>, s1: State, e: Event, s': State)
    requires NothingInTheWay(s, k) && k in s.api.instances && s.api.instances[k].deleting
    requires LetGo(s.api.instances[k]) && OwnFinalizer in s.api.instances[k].finalizers
    ensures WriteDue(s, pre, s1, e, s', k)
  {
    hide Next, Lands, Leads, StillDeleted, InstanceController.Reconciled, Clear;
    pre, e := [ControllerRead(k)], ControllerWrite(k);
    s1, s' := s.(controllerRuns := s.controllerRuns[k := s.api.instances[k]]), s.(api := InstanceController.Reconciled(s.api, k));
    ControllerReads(s, k);
    ControllerEnds(s, k);
    ControllerLands(s, k);
    LastStep(s, ControllerRead(k), s1);
  }

  lemma SchedulerLands(s: State, k: Key)
    requires k in s.api.instances && s.api.instances[k].deleting
    requires Scheduler.Decide(s.api.instances[k]).UpdateInstance? || Scheduler.Decide(s.api.instances[k]).Unassign?
    ensures Lands(LifecycleRefinement.Pass(s, k), SchedulerWrite(k), k)
    ensures Lands(Holding(s, k, map[], {}), SchedulerUnassign(k), k)
    ensures StillDeleted(s.api, WriteInstance(s.api, k, Scheduler.Decide(s.api.instances[k]).bmi), k)
  {
    WriteStillDeletes(s.api, k, Scheduler.Decide(s.api.instances[k]).bmi);
  }

  lemma SchedulerStaysClear(s: State, k: Key)
    requires k in s.api.instances && s.api.instances[k].deleting && InstanceStands(s, k, s.api.instances[k])
    requires Scheduler.Decide(s.api.instances[k]).UpdateInstance? || Scheduler.Decide(s.api.instances[k]).Unassign?
    requires Clear(s.api, k)
    ensures Clear(WriteInstance(s.api, k, Scheduler.Decide(s.api.instances[k]).bmi), k)
  {
    hide Owns, WriteInstance, Scheduler.Decide;
    SchedulerLeavesNoAgent(s.api, k, s.api.instances[k]);
    WriteStaysClear(s.api, k, Scheduler.Decide(s.api.instances[k]).bmi);
  }

  lemma SchedulerGetsThrough(s: State, k: Key) returns (pre: seq<Event>, s1: State, e: Event, s': State)
    requires NothingInTheWay(s, k) && k in s.api.instances && s.api.instances[k].deleting
    requires InstanceStands(s, k, s.api.instances[k])
    requires Scheduler.Decide(s.api.instances[k]).UpdateInstance? || Scheduler.Decide(s.api.instances[k]).Unassign?
    ensures WriteDue(s, pre, s1, e, s', k)
  {
    hide Next, Lands, Leads, StillDeleted, Scheduler.Decide, WriteInstance, Clear;
    s' := s.(api := WriteInstance(s.api, k, Scheduler.Decide(s.api.instances[k]).bmi));
    SchedulerReads(s, k);
    SchedulerLands(s, k);
    if Clear(s.api, k) {
      SchedulerStaysClear(s, k);
    }
    if Scheduler.Decide(s.api.instances[k]).UpdateInstance? {
      SchedulerWrites(s, k);
      pre, s1, e := [SchedulerRead(k)], LifecycleRefinement.Pass(s, k), SchedulerWrite(k);
      LastStep(s, SchedulerRead(k), s1);
    } else {
      SchedulerLocks(s, k);
      SchedulerUnassigns(s, k);
      pre, s1, e := [SchedulerRead(k), SchedulerLock(k)], Holding(s, k, map[], {}), SchedulerUnassign(k);
      TwoSteps(s, SchedulerRead(k), LifecycleRefinement.Pass(s, k), SchedulerLock(k), s1);
    }
  }

  /** A pass over a deleting instance never asks for the network, and decides on what it read as
      if it had read everything. */
  lemma DeletingOnDemand(k: Key, r: Provisioner.Run, full: Provisioner.Run)
    requires r.bmi.deleting && PartOf(r, full) && full.bmh.Some? && (r.bmi.agentInfo.Some? ==> full.agent.Some?)
    ensures var e := Provisioner.Decide(k, r);
            && (e.NeedHardware? ==> r.bmh.None?)
            && (e.NeedAgent? ==> r.agent.None? && r.bmi.agentInfo.Some?)
            && !e.NeedNetwork?
            && (!e.NeedHardware? && !e.NeedAgent? ==> e == Provisioner.Decide(k, full))
  {
  }

  lemma ReadsNext(s: State, k: Key, r: Provisioner.Run) returns (e: Event, r': Provisioner.Run)
    requires k in s.api.instances
    requires r.bmi == s.api.instances[k] && r.bmi.deleting && PartOf(r, PassNow(s, k, r.bmi))
    requires Provisioner.Decide(k, r).NeedHardware? || Provisioner.Decide(k, r).NeedAgent?
    ensures Next(InFlight(s, k, r), e, InFlight(s, k, r')) && !ByUser(e)
    ensures r'.bmi == r.bmi && PartOf(r', PassNow(s, k, r.bmi)) && Unread(r') < Unread(r)
  {
    var full := PassNow(s, k, r.bmi);
    DeletingOnDemand(k, r, full);
    hide Next, Provisioner.Decide, InFlight;
    if Provisioner.Decide(k, r).NeedHardware? {
      ReadsHardware(s, k, r);
      e, r' := ProvisionerReadHardware(k), r.(bmh := full.bmh);
    } else {
      AsksAgent(s, k, r);
      e, r' := ProvisionerAskAgent(k), r.(agent := full.agent);
    }
  }

  lemma {:induction false} ReadsWhatItNeeds(s: State, k: Key, r: Provisioner.Run)
    returns (events: seq<Event>, r': Provisioner.Run)
    requires k in s.api.instances && k !in s.provisionerRuns
    requires r.bmi == s.api.instances[k] && r.bmi.deleting && PartOf(r, PassNow(s, k, r.bmi))
    ensures Leads(InFlight(s, k, r), events, InFlight(s, k, r'))
    ensures PartOf(r', PassNow(s, k, r.bmi)) && Provisioner.Decide(k, r') == Provisioner.Decide(k, PassNow(s, k, r.bmi))
    decreases Unread(r)
  {
    DeletingOnDemand(k, r, PassNow(s, k, r.bmi));
    hide Next, ByUser, Provisioner.Decide, InFlight;
    if Provisioner.Decide(k, r).NeedHardware? || Provisioner.Decide(k, r).NeedAgent? {
      hide Leads;
      var e, r1 := ReadsNext(s, k, r);
      events, r' := ReadsWhatItNeeds(s, k, r1);
      OneStep(InFlight(s, k, r), e, InFlight(s, k, r1), events, InFlight(s, k, r'));
      events := [e] + events;
    } else {
      assert Leads(InFlight(s, k, r), [], InFlight(s, k, r));
      events, r' := [], r;
    }
  }

  lemma ProvisionerLands(s: State, k: Key, r: Provisioner.Run)
    requires k in s.api.instances && s.api.instances[k].deleting
    requires r.bmi == s.api.instances[k] && PartOf(r, PassNow(s, k, r.bmi))
    ensures Provisioner.Decide(k, r).UpdateInstance? ==>
              Lands(InFlight(s, k, r), ProvisionerWrite(k), k)
              && StillDeleted(s.api, WriteInstance(s.api, k, Provisioner.Decide(k, r).bmi), k)
    ensures Provisioner.Decide(k, r).UpdateHardware? ==>
              Lands(InFlight(s, k, r), ProvisionerClaimOrRelease(k), k)
  {
    hide Provisioner.Decide;
    if Provisioner.Decide(k, r).UpdateInstance? {
      ProvisionerDecidesForward(k, r);
      WriteStillDeletes(s.api, k, Provisioner.Decide(k, r).bmi);
    } else if Provisioner.Decide(k, r).UpdateHardware? {
      CleaningUnderWay(k, r);
    }
  }

  lemma ProvisionerStaysClear(s: State, k: Key)
    requires k in s.api.instances && s.api.instances[k].deleting && InstanceStands(s, k, s.api.instances[k])
    requires Provisioner.Decide(k, PassNow(s, k, s.api.instances[k])).UpdateInstance? && Clear(s.api, k)
    ensures Clear(WriteInstance(s.api, k, Provisioner.Decide(k, PassNow(s, k, s.api.instances[k])).bmi), k)
  {
    hide Owns, WriteInstance, Provisioner.Decide, InstanceStands;
    ProvisionerLeavesNoAgent(s, k, s.api.instances[k]);
    WriteStaysClear(s.api, k, Provisioner.Decide(k, PassNow(s, k, s.api.instances[k])).bmi);
  }

  lemma ReleaseStillDeletes(s: State, hk: Key, bmh: Hardware, k: Key)
    requires k in s.api.instances && s.api.instances[k].deleting
    ensures StillDeleted(s.api, AfterClaimOrRelease(s, hk, bmh).api, k)
  {
  }

  lemma ProvisionerGetsThrough(s: State, k: Key) returns (pre: seq<Event>, s1: State, e: Event, s': State)
    requires NothingInTheWay(s, k) && k in s.api.instances && s.api.instances[k].deleting
    requires InstanceStands(s, k, s.api.instances[k])
    requires var d := Provisioner.Decide(k, PassNow(s, k, s.api.instances[k])); d.UpdateInstance? || d.UpdateHardware?
    ensures WriteDue(s, pre, s1, e, s', k)
  {
    hide Next, Provisioner.Decide, Leads, Lands, StillDeleted, WriteInstance, AfterClaimOrRelease, Clear;
    var r0 := Provisioner.Run(s.api.instances[k], None, None, None);
    ProvisionerStarts(s, k);
    var events, r := ReadsWhatItNeeds(s, k, r0);
    ProvisionerLands(s, k, r);
    OneStep(s, ProvisionerRead(k), InFlight(s, k, r0), events, InFlight(s, k, r));
    pre, s1 := [ProvisionerRead(k)] + events, InFlight(s, k, r);
    if Provisioner.Decide(k, r).UpdateInstance? {
      ProvisionerWritesInstance(s, k, r);
      if Clear(s.api, k) {
        ProvisionerStaysClear(s, k);
      }
      e, s' := ProvisionerWrite(k), s.(api := WriteInstance(s.api, k, Provisioner.Decide(k, r).bmi));
    } else {
      ProvisionerWritesHardware(s, k, r);
      ReleaseStillDeletes(s, Provisioner.HardwareKey(k, r.bmi), Provisioner.Decide(k, r).bmh, k);
      CleaningUnderWay(k, r);
      if Clear(s.api, k) {
        ReleaseStaysClear(s, Provisioner.HardwareKey(k, r.bmi), Provisioner.Decide(k, r).bmh, k);
      }
      e := ProvisionerClaimOrRelease(k);
      s' := AfterClaimOrRelease(s, Provisioner.HardwareKey(k, r.bmi), Provisioner.Decide(k, r).bmh);
    }
  }

  /** Whatever is in flight, a controller can get a write for the deletion through whenever there
      is one to make. */
  lemma GetsThrough(s: State, k: Key) returns (pre: seq<Event>, s1: State, e: Event, s': State)
    requires k in s.api.instances && s.api.instances[k].deleting && CanMove(s, k, s.api.instances[k])
    requires InstanceStands(s, k, s.api.instances[k])
    ensures WriteDue(s, pre, s1, e, s', k)
  {
    var calming := CalmsDown(s, k);
    var calm, bmi := Calm(s, k), s.api.instances[k];
    assert PassNow(calm, k, bmi) == PassNow(s, k, bmi);
    assert InstanceStands(calm, k, bmi);
    hide Calm, NothingInTheWay, Next, Leads, Lands, Provisioner.Decide, Scheduler.Decide, LetGo, InstanceStands, Clear;
    if LetGo(bmi) && OwnFinalizer in bmi.finalizers {
      pre, s1, e, s' := ControllerGetsThrough(calm, k);
    } else if Scheduler.Decide(bmi).UpdateInstance? || Scheduler.Decide(bmi).Unassign? {
      pre, s1, e, s' := SchedulerGetsThrough(calm, k);
    } else {
      pre, s1, e, s' := ProvisionerGetsThrough(calm, k);
    }
    LeadsOn(s, calming, calm, pre, s1);
    pre := calming + pre;
  }

  // ---------------------------------------------------------------- to the end

  /** The run goes on, and instance k is still the one that is being deleted, if it is there. */
  ghost predicate GoesOn(states: seq<State>, events: seq<Event>, states': seq<State>, events': seq<Event>, k: Key)
    requires states != []
  {
    && IsRun(states', events') && states <= states' && events <= events'
    && StillDeleted(Last(states).api, Last(states').api, k)
  }

  /** Nothing that users do happens from the end of events on. */
  ghost predicate Unaided(events: seq<Event>, events': seq<Event>) {
    forall i :: |events| <= i < |events'| ==> !ByUser(events'[i])
  }

  /** In every run, a deletion that is not done and not held up can be continued, without any user,
      so that a write of one of its controllers gets through and brings it closer to its end. */
  lemma DeletionMovesOn(states: seq<State>, events: seq<Event>, k: Key)
    returns (states': seq<State>, events': seq<Event>)
    requires IsRun(states, events)
    requires k in Last(states).api.instances && Last(states).api.instances[k].deleting
    requires RankAt(Last(states), k) > 0 && !HeldUp(Last(states), k, Last(states).api.instances[k])
    ensures GoesOn(states, events, states', events', k) && Unaided(events, events') && |events'| > |events|
    ensures Lands(states'[|events'| - 1], events'[|events'| - 1], k)
    ensures k in Last(states').api.instances ==> RankAt(Last(states'), k) < RankAt(Last(states), k)
    ensures Clear(Last(states).api, k) ==> Clear(Last(states').api, k)
  {
    var s := Last(states);
    InvInEveryRun(states, events, |events|);
    MovesIff(s, k);
    InvStands(s, k);
    hide Inv, IsRun, CanMove, RankAt, HeldUp, WriteDue, Lands, Clear, InstanceStands;
    var pre, s1, e, s' := GetsThrough(s, k);
    states' := DueWriteExtends(states, events, pre, s1, e, s', k);
    events' := events + pre + [e];
    DueWriteLowersRank(s, pre, s1, e, s', k);
  }

  lemma DueWriteExtends(states: seq<State>, events: seq<Event>,
                        pre: seq<Event>, s1: State, e: Event, s': State, k: Key)
    returns (states': seq<State>)
    requires IsRun(states, events) && WriteDue(Last(states), pre, s1, e, s', k)
    ensures GoesOn(states, events, states', events + pre + [e], k) && Unaided(events, events + pre + [e]) && Inv(s1)
    ensures |states'| == |events + pre| + 2 && states'[|events + pre|] == s1 && Last(states') == s'
    ensures Lands(s1, e, k) && (Clear(Last(states).api, k) ==> Clear(s'.api, k))
  {
    hide Inv, Next, Leads, Lands, StillDeleted, ByUser, Clear;
    var states1 := Continue(states, events, pre, s1);
    InvInEveryRun(states1, events + pre, |events + pre|);
    Extend(states1, events + pre, e, s');
    states' := states1 + [s'];
    forall i | 0 <= i < |pre| ensures !ByUser(pre[i]) {
      LeadsWithoutUsers(Last(states), pre, s1, i);
    }
    hide IsRun;
  }

  lemma DueWriteLowersRank(s: State, pre: seq<Event>, s1: State, e: Event, s': State, k: Key)
    requires Inv(s1) && WriteDue(s, pre, s1, e, s', k) && s.api.instances[k].deleting
    ensures k in s'.api.instances ==> RankAt(s', k) < RankAt(s, k)
  {
    hide Inv, Next, Leads, Lands, Owns, Rank;
    if k in s'.api.instances {
      NextLowersRank(s1, e, s', k);
      SameApiSameRank(s, s1, k);
    }
  }

  lemma SameApiSameRank(s: State, s1: State, k: Key)
    requires k in s.api.instances && s1.api == s.api
    ensures RankAt(s1, k) == RankAt(s, k)
  {
  }

  /** Nothing of this repository holds the instance any more, or the deletion is held up. */
  predicate AtRest(s: State, k: Key) {
    k in s.api.instances ==> RankAt(s, k) == 0 || HeldUp(s, k, s.api.instances[k])
  }

  /** In every run, a deletion can be continued, without any user, until it comes to rest; and if no
      agent was left behind, none is then. */
  lemma {:induction false} DeletionComesToRest(states: seq<State>, events: seq<Event>, k: Key)
    returns (states': seq<State>, events': seq<Event>)
    requires IsRun(states, events)
    requires k in Last(states).api.instances && Last(states).api.instances[k].deleting
    ensures GoesOn(states, events, states', events', k) && Unaided(events, events') && AtRest(Last(states'), k)
    ensures k in Last(states').api.instances ==> RankAt(Last(states'), k) <= RankAt(Last(states), k)
    ensures Clear(Last(states).api, k) ==> Clear(Last(states').api, k)
    decreases RankAt(Last(states), k)
  {
    hide RankAt, HeldUp, Lands, Clear, ByUser;
    if AtRest(Last(states), k) {
      return states, events;
    }
    hide IsRun;
    states', events' := DeletionMovesOn(states, events, k);
    if k in Last(states').api.instances {
      states', events' := DeletionComesToRest(states', events', k);
    }
  }

  /** The hardware of the instance is clean and released, or it never had any. */
  predicate PastCleaning(s: State, k: Key, bmi: Instance) {
    || !bmi.Is(InstanceScheduled, StatusTrue)
    || PhaseIndex(bmi.phase) > PhaseIndex(Cleaning)
    || bmi.Is(InstanceCleaned, StatusTrue)
    || (bmi.phase == Cleaning && !Owns(s, k, bmi) && bmi.Has(InstanceCleaned) && !bmi.Is(InstanceCleaned, StatusError))
  }

  /** The controllers are done with the instance: it is gone, or it is terminated and only somebody
      else's finalizer keeps it. */
  predicate Ended(s: State, k: Key) {
    k in s.api.instances ==>
      s.api.instances[k].phase == Terminated && OwnFinalizer !in s.api.instances[k].finalizers
  }

  lemma LowRankIsPast(s: State, k: Key)
    requires k in s.api.instances && RankAt(s, k) <= 4 && Clear(s.api, k) && AtRest(s, k)
    ensures Ended(s, k)
  {
  }

  lemma PastIsLow(s: State, k: Key)
    requires k in s.api.instances && PastCleaning(s, k, s.api.instances[k])
    ensures RankAt(s, k) <= 5
    ensures RankAt(s, k) == 5 ==> !AtRest(s, k)
  {
  }

  /** Once the cleaning succeeded and no agent was left behind, the deletion can be continued to its
      end, without any user. */
  lemma TerminatedIsReached(states: seq<State>, events: seq<Event>, k: Key)
    returns (states': seq<State>, events': seq<Event>)
    requires IsRun(states, events)
    requires k in Last(states).api.instances && Last(states).api.instances[k].deleting
    requires PastCleaning(Last(states), k, Last(states).api.instances[k]) && Clear(Last(states).api, k)
    ensures GoesOn(states, events, states', events', k) && Unaided(events, events') && Ended(Last(states'), k)
  {
    PastIsLow(Last(states), k);
    hide IsRun, PastCleaning, Lands, Clear, ByUser;
    states', events' := states, events;
    if RankAt(Last(states), k) == 5 {
      states', events' := DeletionMovesOn(states, events, k);
    }
    if k in Last(states').api.instances {
      states', events' := DeletionComesToRest(states', events', k);
      if k in Last(states').api.instances {
        LowRankIsPast(Last(states'), k);
      }
    }
  }
}
