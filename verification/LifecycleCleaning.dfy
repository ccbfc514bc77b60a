// The part of a deletion that needs the machine: as long as the cleaning did not fail and no agent
// was left behind, an agent that cleans the disks lets the deletion end; once the cleaning failed,
// no controller ever moves on.
module LifecycleCleaning {
  import opened Common
  import opened Objects
  import opened Store
  import opened Agent
  import opened Lifecycle
  import opened LifecycleInvariant
  import opened LifecycleSafety
  import opened LifecycleProgress
  import opened LifecycleDeletion
  import opened LifecycleReachability
  import opened LifecycleRefinement
  import Provisioner
  import Scheduler
  import InstanceController
  import HardwareController
  import Discovery

  // ---------------------------------------------------------------- the wait for the agent

  /** The instance is being cleaned: its hardware is claimed, and the outcome is open. */
  predicate BeingCleaned(s: State, k: Key, bmi: Instance) {
    && bmi.deleting && bmi.Is(InstanceScheduled, StatusTrue) && bmi.hardwareName != ""
    && bmi.phase == Cleaning && Owns(s, k, bmi)
    && bmi.Has(InstanceCleaned) && !bmi.Is(InstanceCleaned, StatusTrue) && !bmi.Is(InstanceCleaned, StatusError)
  }

  predicate ReportsClean(s: State, machine: string) {
    Answer(s, machine) == Provisioner.AgentBusy(ActionStatus(CleaningDisks, true, false))
  }

  /** A machine boots into its agent, and is in no action yet. */
  function Rebooted(s: State, machine: string): State {
    s.(boots := s.boots[machine := FRESH_BOOT])
  }

  lemma Reboots(s: State, machine: string)
    ensures Next(s, BootAgent(machine), Rebooted(s, machine))
  {
    assert MachineNext(s, BootAgent(machine), Rebooted(s, machine));
  }

  lemma EndsWell(s: State, machine: string)
    requires machine in s.boots
    ensures Next(s, EndAction(machine, false), AfterEndAction(s, machine, false))
  {
    assert MachineNext(s, EndAction(machine, false), AfterEndAction(s, machine, false));
  }

  lemma AsksToClean(s: State, k: Key, bmi: Instance)
    requires BeingCleaned(s, k, bmi) && bmi.agentInfo.Some? && Answer(s, bmi.agentInfo.value).AgentIdle?
    ensures Provisioner.Decide(k, PassNow(s, k, bmi)).PostClean?
  {
  }

  /** An agent that was just started and asked cleans, and reports so. */
  lemma CleansWell(s: State, machine: string, uid: nat) returns (s': State)
    ensures Next(AfterPost(Rebooted(s, machine), machine, CleaningDisks, uid), EndAction(machine, false), s')
    ensures s'.api == s.api && s'.provisionerRuns == s.provisionerRuns && ReportsClean(s', machine)
  {
    var s1 := AfterPost(Rebooted(s, machine), machine, CleaningDisks, uid);
    EndsWell(s1, machine);
    s' := AfterEndAction(s1, machine, false);
    hide Next;
  }

  /** A pass of the provisioner asks an idle agent to clean. */
  lemma ProvisionerAsksToClean(s: State, k: Key) returns (events: seq<Event>)
    requires k !in s.provisionerRuns
    requires k in s.api.instances && BeingCleaned(s, k, s.api.instances[k]) && s.api.instances[k].agentInfo.Some?
    requires Answer(s, s.api.instances[k].agentInfo.value).AgentIdle?
    ensures var bmi := s.api.instances[k];
            Leads(s, events, AfterPost(s, bmi.agentInfo.value, CleaningDisks, bmi.uid))
  {
    var bmi := s.api.instances[k];
    var r0 := Provisioner.Run(bmi, None, None, None);
    AsksToClean(s, k, bmi);
    ProvisionerStarts(s, k);
    var asked, r := ReadsWhatItNeeds(s, k, r0);
    hide Next, Leads, Provisioner.Decide, AfterPost, BeingCleaned;
    ProvisionerPosts(s, k, r);
    var s' := AfterPost(s, bmi.agentInfo.value, CleaningDisks, bmi.uid);
    LastStep(InFlight(s, k, r), ProvisionerPost(k), s');
    LeadsOn(InFlight(s, k, r0), asked, InFlight(s, k, r), [ProvisionerPost(k)], s');
    OneStep(s, ProvisionerRead(k), InFlight(s, k, r0), asked + [ProvisionerPost(k)], s');
    events := [ProvisionerRead(k)] + (asked + [ProvisionerPost(k)]);
  }

  /** The agent is started again, is asked to clean, and does. */
  lemma AgentCleans(s: State, k: Key) returns (events: seq<Event>, s': State)
    requires k !in s.provisionerRuns
    requires k in s.api.instances && BeingCleaned(s, k, s.api.instances[k]) && s.api.instances[k].agentInfo.Some?
    ensures Leads(s, events, s') && s'.api == s.api && k !in s'.provisionerRuns
    ensures ReportsClean(s', s.api.instances[k].agentInfo.value)
  {
    var bmi := s.api.instances[k];
    var machine := bmi.agentInfo.value;
    var s1 := Rebooted(s, machine);
    Reboots(s, machine);
    var asking := ProvisionerAsksToClean(s1, k);
    hide Next, Leads, AfterPost, ReportsClean, BeingCleaned;
    s' := CleansWell(s, machine, bmi.uid);
    var s2 := AfterPost(s1, machine, CleaningDisks, bmi.uid);
    LastStep(s2, EndAction(machine, false), s');
    LeadsOn(s1, asking, s2, [EndAction(machine, false)], s');
    OneStep(s, BootAgent(machine), s1, asking + [EndAction(machine, false)], s');
    events := [BootAgent(machine)] + (asking + [EndAction(machine, false)]);
  }

  lemma DecidesToRelease(s: State, k: Key, bmi: Instance)
    requires BeingCleaned(s, k, bmi) && bmi.agentInfo.Some? && ReportsClean(s, bmi.agentInfo.value)
    ensures Provisioner.Decide(k, PassNow(s, k, bmi)).UpdateHardware?
  {
  }

  lemma ReleaseFrees(s: State, k: Key, bmi: Instance, bmh: Hardware)
    requires FreshHardware(s.api, Provisioner.HardwareKey(k, bmi), bmh) && bmh.instanceRef.None?
    ensures var s' := AfterClaimOrRelease(s, Provisioner.HardwareKey(k, bmi), bmh);
            s'.api.instances == s.api.instances && !Owns(s', k, bmi)
    ensures OwnFinalizer in bmh.finalizers ==>
              Stored(AfterClaimOrRelease(s, Provisioner.HardwareKey(k, bmi), bmh).api, Provisioner.HardwareKey(k, bmi), bmh)
  {
  }

  /** The hardware is stored like this, but for its version. */
  predicate Stored(c: Cluster, hk: Key, bmh: Hardware) {
    hk in c.hardware && c.hardware[hk] == bmh.(version := c.hardware[hk].version)
  }

  /** The hardware of the instance is still stored, and free. */
  predicate LetGoOf(c: Cluster, c': Cluster, hk: Key) {
    hk in c.hardware && (OwnFinalizer in c.hardware[hk].finalizers ==> Stored(c', hk, c.hardware[hk].(instanceRef := None)))
  }

  /** The provisioner sees that the disks are clean, and releases the hardware. */
  lemma Releases(s: State, k: Key) returns (events: seq<Event>, s': State)
    requires k !in s.provisionerRuns
    requires k in s.api.instances && BeingCleaned(s, k, s.api.instances[k]) && s.api.instances[k].agentInfo.Some?
    requires ReportsClean(s, s.api.instances[k].agentInfo.value)
    ensures Leads(s, events, s') && s'.api.instances == s.api.instances && !Owns(s', k, s.api.instances[k])
    ensures LetGoOf(s.api, s'.api, Provisioner.HardwareKey(k, s.api.instances[k]))
  {
    var bmi := s.api.instances[k];
    var r0 := Provisioner.Run(bmi, None, None, None);
    DecidesToRelease(s, k, bmi);
    ProvisionerStarts(s, k);
    var asked, r := ReadsWhatItNeeds(s, k, r0);
    hide Next, Leads, Provisioner.Decide, ReportsClean, AfterClaimOrRelease;
    ProvisionerWritesHardware(s, k, r);
    CleaningUnderWay(k, r);
    assert Provisioner.HardwareKey(k, bmi) in s.api.hardware;
    hide Owns;
    ReleaseFrees(s, k, bmi, Provisioner.Decide(k, r).bmh);
    s' := AfterClaimOrRelease(s, Provisioner.HardwareKey(k, bmi), Provisioner.Decide(k, r).bmh);
    LastStep(InFlight(s, k, r), ProvisionerClaimOrRelease(k), s');
    LeadsOn(InFlight(s, k, r0), asked, InFlight(s, k, r), [ProvisionerClaimOrRelease(k)], s');
    events := asked + [ProvisionerClaimOrRelease(k)];
    OneStep(s, ProvisionerRead(k), InFlight(s, k, r0), events, s');
    events := [ProvisionerRead(k)] + events;
  }

  /** The machine of the hardware has a system UUID of its own, so /ready can tell which it is. */
  predicate Identified(s: State, k: Key, bmi: Instance) {
    var hk := Provisioner.HardwareKey(k, bmi);
    && hk in s.api.hardware && s.api.hardware[hk].systemUUID != ""
    && Discovery.OnlyHardware(s.api, s.api.hardware[hk].systemUUID, hk)
  }

  lemma AbortsReady(s: State, id: nat)
    ensures Next(s, AbortReady(id), s.(readyRuns := s.readyRuns - {id}))
  {
    assert ReadyNext(s, AbortReady(id), s.(readyRuns := s.readyRuns - {id}));
  }

  /** The instance as it is stored once its agent reported. */
  predicate OnlyGotAgent(s: State, s': State, k: Key) {
    && k in s.api.instances && k in s'.api.instances
    && s'.api.hardware == s.api.hardware
    && s'.api.instances[k].agentInfo.Some?
    && s'.api.instances[k] ==
         s.api.instances[k].(version := s'.api.instances[k].version, agentInfo := s'.api.instances[k].agentInfo)
  }

  lemma ReportStores(s: State, k: Key, machine: string, bound: map<string, Key>)
    requires k in s.api.instances && s.api.instances[k].deleting && s.api.instances[k].finalizers != {}
    ensures var c' := WriteInstance(s.api, k, s.api.instances[k].(agentInfo := Some(machine)));
            OnlyGotAgent(s, s.(api := c', bound := bound), k)
  {
  }

  /** The agent reports, and is bound to the instance. */
  lemma AgentReports(s: State, k: Key) returns (events: seq<Event>, s': State)
    requires k in s.api.instances && BeingCleaned(s, k, s.api.instances[k]) && Identified(s, k, s.api.instances[k])
    requires s.api.instances[k].finalizers != {}
    ensures Leads(s, events, s') && OnlyGotAgent(s, s', k)
  {
    var hk := Provisioner.HardwareKey(k, s.api.instances[k]);
    var machine := s.api.hardware[hk].systemUUID;
    var s1 := s.(readyRuns := s.readyRuns - {0});
    AbortsReady(s, 0);
    hide Next, Leads, Discovery.OnlyHardware;
    assert Discovery.BindsTo(s1.api, machine, hk, k);
    ReportStores(s1, k, machine, s1.bound[machine := hk]);
    hide WriteInstance, Discovery.BindsTo;
    var report := ReadyInSteps(s1, 0, machine, hk, k);
    s' := s1.(api := WriteInstance(s.api, k, s.api.instances[k].(agentInfo := Some(machine))), bound := s1.bound[machine := hk]);
    OneStep(s, AbortReady(0), s1, report, s');
    events := [AbortReady(0)] + report;
  }

  lemma StillBeingCleaned(s: State, s': State, k: Key)
    requires k in s.api.instances && BeingCleaned(s, k, s.api.instances[k])
    requires OnlyGotAgent(s, s', k) || s'.api == s.api
    ensures BeingCleaned(s', k, s'.api.instances[k])
  {
  }

  lemma ReleasedIsPast(s: State, s': State, k: Key)
    requires k in s.api.instances && BeingCleaned(s, k, s.api.instances[k])
    requires s'.api.instances == s.api.instances && !Owns(s', k, s.api.instances[k])
    ensures PastCleaning(s', k, s'.api.instances[k])
  {
  }

  /** With an agent, the disks can be cleaned and the hardware released. */
  lemma CleaningSucceeds(s: State, k: Key) returns (events: seq<Event>, s': State)
    requires k in s.api.instances && BeingCleaned(s, k, s.api.instances[k]) && s.api.instances[k].agentInfo.Some?
    ensures Leads(s, events, s') && s'.api.instances == s.api.instances
    ensures PastCleaning(s', k, s.api.instances[k])
    ensures LetGoOf(s.api, s'.api, Provisioner.HardwareKey(k, s.api.instances[k]))
  {
    var calming := CalmsDown(s, k);
    var calm := Calm(s, k);
    StillBeingCleaned(s, calm, k);
    hide Calm, Leads, BeingCleaned, ReportsClean, Owns, LetGoOf;
    var cleaning, s1 := AgentCleans(calm, k);
    StillBeingCleaned(calm, s1, k);
    var releasing;
    releasing, s' := Releases(s1, k);
    ReleasedIsPast(s1, s', k);
    LeadsOn(s, calming, calm, cleaning, s1);
    LeadsOn(s, calming + cleaning, s1, releasing, s');
    events := calming + cleaning + releasing;
  }

  // ---------------------------------------------------------------- the whole deletion

  /** A pass of the provisioner that writes the instance without reading anything else. */
  lemma ProvisionerStep(s: State, k: Key, obj: Instance)
    requires k in s.api.instances && k !in s.provisionerRuns
    requires Provisioner.Decide(k, Provisioner.Run(s.api.instances[k], None, None, None)) == Provisioner.UpdateInstance(obj)
    ensures Leads(s, [ProvisionerRead(k), ProvisionerWrite(k)], s.(api := WriteInstance(s.api, k, obj)))
  {
    hide Next, Leads, Provisioner.Decide, WriteInstance;
    var r := Provisioner.Run(s.api.instances[k], None, None, None);
    ProvisionerStarts(s, k);
    ProvisionerWritesInstance(s, k, r);
    TwoSteps(s, ProvisionerRead(k), InFlight(s, k, r), ProvisionerWrite(k), s.(api := WriteInstance(s.api, k, obj)));
  }

  /** The cleaning of the instance did not begin yet. */
  predicate Uncleaned(bmi: Instance) {
    && bmi.deleting && bmi.finalizers != {} && bmi.Is(InstanceScheduled, StatusTrue) && bmi.hardwareName != ""
    && PhaseIndex(bmi.phase) <= PhaseIndex(Cleaning)
    && !bmi.Is(InstanceCleaned, StatusTrue) && !bmi.Is(InstanceCleaned, StatusError)
  }

  /** The instance as it is stored when its cleaning begins. */
  predicate CleaningBegan(s: State, s': State, k: Key) {
    && k in s.api.instances && k in s'.api.instances
    && s'.api.hardware == s.api.hardware
    && var before, after := s.api.instances[k], s'.api.instances[k];
       && Uncleaned(after) && after.phase == Cleaning && after.Has(InstanceCleaned)
       && after.uid == before.uid && after.hardwareName == before.hardwareName && after.agentInfo == before.agentInfo
  }

  lemma MarksUncleaned(s: State, k: Key) returns (s': State)
    requires k in s.api.instances && k !in s.provisionerRuns && Uncleaned(s.api.instances[k])
    requires !s.api.instances[k].Has(InstanceCleaned)
    ensures Leads(s, [ProvisionerRead(k), ProvisionerWrite(k)], s')
    ensures s'.api.hardware == s.api.hardware && k !in s'.provisionerRuns && k in s'.api.instances
    ensures s'.api.instances[k] ==
              s.api.instances[k].SetCondition(InstanceCleaned, StatusFalse).(version := s'.api.instances[k].version)
  {
    var obj := s.api.instances[k].SetCondition(InstanceCleaned, StatusFalse);
    s' := s.(api := WriteInstance(s.api, k, obj));
    ProvisionerStep(s, k, obj);
    hide Leads, Provisioner.Decide;
  }

  lemma EntersCleaning(s: State, k: Key) returns (s': State)
    requires k in s.api.instances && k !in s.provisionerRuns && Uncleaned(s.api.instances[k])
    requires s.api.instances[k].Has(InstanceCleaned) && s.api.instances[k].phase != Cleaning
    ensures Leads(s, [ProvisionerRead(k), ProvisionerWrite(k)], s')
    ensures CleaningBegan(s, s', k)
  {
    var obj := s.api.instances[k].(phase := Cleaning);
    s' := s.(api := WriteInstance(s.api, k, obj));
    ProvisionerStep(s, k, obj);
    hide Leads, Provisioner.Decide;
  }

  lemma CleaningBegins(s: State, k: Key) returns (events: seq<Event>, s': State)
    requires k in s.api.instances && Uncleaned(s.api.instances[k])
    ensures Leads(s, events, s') && CleaningBegan(s, s', k)
  {
    events := CalmsDown(s, k);
    s' := Calm(s, k);
    hide Leads, Calm;
    if !s'.api.instances[k].Has(InstanceCleaned) {
      var s1 := MarksUncleaned(s', k);
      LeadsOn(s, events, s', [ProvisionerRead(k), ProvisionerWrite(k)], s1);
      events, s' := events + [ProvisionerRead(k), ProvisionerWrite(k)], s1;
    }
    if s'.api.instances[k].phase != Cleaning {
      var s2 := EntersCleaning(s', k);
      LeadsOn(s, events, s', [ProvisionerRead(k), ProvisionerWrite(k)], s2);
      events, s' := events + [ProvisionerRead(k), ProvisionerWrite(k)], s2;
    }
  }

  /** The agent of the instance is known, or will be once the machine reports. */
  predicate AgentCanBeFound(s: State, k: Key, bmi: Instance) {
    Owns(s, k, bmi) && bmi.agentInfo.None? ==> Identified(s, k, bmi)
  }

  /** The hardware was claimed and is clean and released in the end, or was not claimed. */
  lemma CleaningEnds(s: State, k: Key) returns (events: seq<Event>, s': State)
    requires k in s.api.instances && Uncleaned(s.api.instances[k]) && AgentCanBeFound(s, k, s.api.instances[k])
    requires s.api.instances[k].phase == Cleaning && s.api.instances[k].Has(InstanceCleaned)
    requires ClaimKeeps(s, k, s.api.instances[k]) && Clear(s.api, k)
    ensures Leads(s, events, s') && StillDeleted(s.api, s'.api, k)
    ensures k in s'.api.instances && PastCleaning(s', k, s'.api.instances[k]) && Clear(s'.api, k)
  {
    if !Owns(s, k, s.api.instances[k]) {
      return [], s;
    }
    events, s' := [], s;
    if s.api.instances[k].agentInfo.None? {
      events, s' := AgentReports(s, k);
      StillBeingCleaned(s, s', k);
    }
    var s1 := s';
    assert ClaimKeeps(s1, k, s1.api.instances[k]);
    hide Leads, Identified, PastCleaning, Owns, Clear, LetGoOf, ClaimKeeps;
    var more;
    more, s' := CleaningSucceeds(s1, k);
    LetGoIsClear(s1, s'.api, k);
    hide BeingCleaned;
    LeadsOn(s, events, s1, more, s');
    events := events + more;
  }

  /** The finalizer keeps hardware that is claimed. */
  predicate ClaimKeeps(s: State, k: Key, bmi: Instance) {
    Owns(s, k, bmi) ==> OwnFinalizer in s.api.hardware[Provisioner.HardwareKey(k, bmi)].finalizers
  }

  lemma LetGoIsClear(s: State, c': Cluster, k: Key)
    requires k in s.api.instances && BeingCleaned(s, k, s.api.instances[k]) && ClaimKeeps(s, k, s.api.instances[k])
    requires c'.instances == s.api.instances && LetGoOf(s.api, c', Provisioner.HardwareKey(k, s.api.instances[k]))
    ensures Clear(c', k)
  {
  }

  lemma UncleanedOrPast(s: State, k: Key)
    requires Inv(s) && k in s.api.instances && s.api.instances[k].deleting && !CleaningFailed(s.api.instances[k])
    ensures PastCleaning(s, k, s.api.instances[k]) || Uncleaned(s.api.instances[k])
  {
    assert InstanceOk(s, k, s.api.instances[k]);
  }

  /** Nothing but the instance and its wait for an agent moved on. */
  lemma BeganStands(s: State, s': State, k: Key)
    requires CleaningBegan(s, s', k) && AgentCanBeFound(s, k, s.api.instances[k])
    requires InstanceStands(s, k, s.api.instances[k]) && Clear(s.api, k)
    requires PhaseIndex(s.api.instances[k].phase) <= PhaseIndex(Cleaning) && !s.api.instances[k].Is(InstanceCleaned, StatusTrue)
    ensures AgentCanBeFound(s', k, s'.api.instances[k]) && StillDeleted(s.api, s'.api, k)
    ensures Clear(s'.api, k) && ClaimKeeps(s', k, s'.api.instances[k])
  {
  }

  /** From every reachable state, the deletion of an instance whose cleaning did not fail and on
      which no agent was left can be continued to its end, without any user: the wait for the agent
      ends as well, if the machine of the claimed hardware can be told. */
  lemma DeletionCanEnd(states: seq<State>, events: seq<Event>, k: Key)
    returns (states': seq<State>, events': seq<Event>)
    requires IsRun(states, events)
    requires k in Last(states).api.instances && Last(states).api.instances[k].deleting
    requires !CleaningFailed(Last(states).api.instances[k]) && Clear(Last(states).api, k)
    requires AgentCanBeFound(Last(states), k, Last(states).api.instances[k])
    ensures GoesOn(states, events, states', events', k) && Unaided(events, events') && Ended(Last(states'), k)
  {
    InvInEveryRun(states, events, |events|);
    UncleanedOrPast(Last(states), k);
    InvStands(Last(states), k);
    hide IsRun, Inv, Leads, PastCleaning, Uncleaned, AgentCanBeFound, CleaningBegan, CleaningFailed, Clear;
    hide InstanceStands, ByUser;
    if PastCleaning(Last(states), k, Last(states).api.instances[k]) {
      states', events' := TerminatedIsReached(states, events, k);
    } else {
      var more, s' := CleaningComesThrough(Last(states), k);
      states' := Continue(states, events, more, s');
      forall i | 0 <= i < |more| ensures !ByUser(more[i]) {
        LeadsWithoutUsers(Last(states), more, s', i);
      }
      states', events' := TerminatedIsReached(states', events + more, k);
    }
  }

  lemma CleaningComesThrough(s: State, k: Key) returns (events: seq<Event>, s': State)
    requires k in s.api.instances && Uncleaned(s.api.instances[k]) && AgentCanBeFound(s, k, s.api.instances[k])
    requires InstanceStands(s, k, s.api.instances[k]) && Clear(s.api, k)
    ensures Leads(s, events, s') && StillDeleted(s.api, s'.api, k)
    ensures k in s'.api.instances && PastCleaning(s', k, s'.api.instances[k]) && Clear(s'.api, k)
  {
    var first, s1 := CleaningBegins(s, k);
    BeganStands(s, s1, k);
    hide Leads, PastCleaning, AgentCanBeFound, Clear, ClaimKeeps;
    var second;
    second, s' := CleaningEnds(s1, k);
    LeadsOn(s, first, s1, second, s');
    events := first + second;
  }

  // ---------------------------------------------------------------- once the cleaning failed

  /** The deletion of instance uid is stuck: its cleaning failed. */
  predicate Stuck(c: Cluster, k: Key, uid: nat) {
    && k in c.instances
    && var bmi := c.instances[k];
       bmi.uid == uid && bmi.deleting && OwnFinalizer in bmi.finalizers && CleaningFailed(bmi)
  }

  lemma UserLeavesStuck(c: Cluster, e: Event, c': Cluster, k: Key, uid: nat)
    requires Stuck(c, k, uid) && UserWrites(c, e, c')
    ensures Stuck(c', k, uid)
  {
    hide CleaningFailed;
    if e.CreateHardware? || e.EditHardware? || e.DeleteHardware? || e.ReleaseHardware? {
      HardwareEditsKeepInstances(c, e, c');
    } else {
      hide PutHardware, SpecEdit, NewHardware;
      InstanceEditsLeaveStuck(c, e, c', k, uid);
    }
  }

  lemma InstanceEditsLeaveStuck(c: Cluster, e: Event, c': Cluster, k: Key, uid: nat)
    requires Stuck(c, k, uid) && UserWrites(c, e, c')
    requires e.CreateInstance? || e.DeleteInstance? || e.ReleaseInstance?
    ensures Stuck(c', k, uid)
  {
    if e.ReleaseInstance? {
      assert OwnFinalizer in c.instances[k].finalizers - {e.finalizer};
    }
  }

  /** No controller has anything to write for a stuck instance. */
  lemma NothingForStuck(k: Key, r: Provisioner.Run)
    requires r.bmi.deleting && CleaningFailed(r.bmi)
    ensures InstanceController.Decide(r.bmi).NoEffect? && Scheduler.Decide(r.bmi).NoEffect?
    ensures Provisioner.Decide(k, r).NoEffect?
  {
  }

  lemma WriteLeavesStuck(c: Cluster, j: Key, obj: Instance, k: Key, uid: nat)
    requires Stuck(c, k, uid)
    requires j != k || !FreshInstance(c, k, obj)
    ensures Stuck(WriteInstance(c, j, obj), k, uid)
  {
  }

  lemma ControllerLeavesStuck(s: State, e: Event, s': State, k: Key, uid: nat)
    requires ControllerRunsOk(s) && ControllerNext(s, e, s') && Stuck(s.api, k, uid)
    ensures Stuck(s'.api, k, uid)
  {
    if e.ControllerWrite? {
      var read := s.controllerRuns[e.k];
      assert InstanceReadOk(s.api, e.k, read);
      if e.k == k && FreshInstance(s.api, k, read) {
        NothingForStuck(k, Provisioner.Run(read, None, None, None));
        assert false;
      }
      WriteLeavesStuck(s.api, e.k, InstanceController.Decide(read).bmi, k, uid);
    }
  }

  lemma NotReadByScheduler(c: Cluster, k: Key, uid: nat, read: Instance)
    requires Stuck(c, k, uid) && InstanceReadOk(c, k, read) && !Scheduler.Decide(read).NoEffect?
    ensures !FreshInstance(c, k, read)
  {
    if FreshInstance(c, k, read) {
      NothingForStuck(k, Provisioner.Run(read, None, None, None));
    }
  }

  lemma SchedulerLeavesStuck(s: State, e: Event, s': State, k: Key, uid: nat)
    requires SchedulerRunsOk(s) && SchedulerNext(s, e, s') && Stuck(s.api, k, uid)
    ensures Stuck(s'.api, k, uid)
  {
    hide Stuck, CleaningFailed, Scheduler.ToleratesAll, Scheduler.SelectorMatches;
    if e.SchedulerWrite? || e.SchedulerUnassign? {
      var read := s.schedulerRuns[e.k].bmi;
      assert SchedulerRunOk(s, e.k, s.schedulerRuns[e.k]);
      if e.k == k {
        NotReadByScheduler(s.api, k, uid, read);
      }
      WriteLeavesStuck(s.api, e.k, Scheduler.Decide(read).bmi, k, uid);
    } else if e.SchedulerAssign? {
      var read := s.schedulerRuns[e.k].bmi;
      assert SchedulerRunOk(s, e.k, s.schedulerRuns[e.k]);
      if e.k == k {
        NotReadByScheduler(s.api, k, uid, read);
      }
      WriteLeavesStuck(s.api, e.k, read.(hardwareName := e.name), k, uid);
    }
  }

  lemma ProvisionerLeavesStuck(s: State, e: Event, s': State, k: Key, uid: nat)
    requires ProvisionerRunsOk(s) && ProvisionerActs(s, e, s') && Stuck(s.api, k, uid)
    ensures Stuck(s'.api, k, uid)
  {
    if e.ProvisionerWrite? {
      var r := s.provisionerRuns[e.k];
      assert ProvisionerRunOk(s, e.k, r);
      ProvisionerDecidesForward(e.k, r);
      if e.k == k && FreshInstance(s.api, k, r.bmi) {
        NothingForStuck(k, r);
        assert false;
      }
      WriteLeavesStuck(s.api, e.k, Provisioner.Decide(e.k, r).bmi, k, uid);
    } else {
      OtherActsKeepInstances(s, e, s');
    }
  }

  lemma HardwareLeavesStuck(s: State, e: Event, s': State, k: Key, uid: nat)
    requires HardwareNext(s, e, s') && Stuck(s.api, k, uid)
    ensures Stuck(s'.api, k, uid)
  {
    hide HardwareController.Decide;
    if e.HardwareWrite? {
      var r := s.hardwareRuns[e.k];
      ApplyKeepsDeleting(s.api, e.k, r.bmh, HardwareController.Decide(r.bmh, r.tenant, e.discoveries), k);
    }
  }

  lemma ReadyLeavesStuck(s: State, e: Event, s': State, k: Key, uid: nat)
    requires ReadyRunsOk(s) && ReadyNext(s, e, s') && Stuck(s.api, k, uid)
    ensures Stuck(s'.api, k, uid)
  {
    if e.ReadyWrite? {
      assert ReadyRunOk(s, s.readyRuns[e.id]);
    }
  }

  lemma NextLeavesStuck(s: State, e: Event, s': State, k: Key, uid: nat)
    requires Inv(s) && Next(s, e, s') && Stuck(s.api, k, uid)
    ensures Stuck(s'.api, k, uid)
  {
    hide Stuck;
    if UserNext(s, e, s') {
      UserLeavesStuck(s.api, e, s'.api, k, uid);
    } else if MachineNext(s, e, s') {
      MachinesKeepApi(s, e, s');
    } else if ProvisionerReads(s, e, s') {
      ReadsKeepApi(s, e, s');
    } else if ControllerNext(s, e, s') {
      ControllerLeavesStuck(s, e, s', k, uid);
    } else if SchedulerNext(s, e, s') {
      SchedulerLeavesStuck(s, e, s', k, uid);
    } else if ProvisionerActs(s, e, s') {
      ProvisionerLeavesStuck(s, e, s', k, uid);
    } else if HardwareNext(s, e, s') {
      HardwareLeavesStuck(s, e, s', k, uid);
    } else {
      ReadyLeavesStuck(s, e, s', k, uid);
    }
  }

  lemma FailedIsStuck(s: State, k: Key)
    requires Inv(s) && k in s.api.instances && s.api.instances[k].deleting && CleaningFailed(s.api.instances[k])
    ensures Stuck(s.api, k, s.api.instances[k].uid)
  {
    assert InstanceOk(s, k, s.api.instances[k]);
  }

  /** Once the cleaning failed, the deletion never ends: from then on, in every run, the instance
      stays where it is. */
  lemma {:induction false} FailedCleaningIsFinal(states: seq<State>, events: seq<Event>, i: nat, j: nat, k: Key)
    requires IsRun(states, events) && i <= j < |states|
    requires k in states[i].api.instances && states[i].api.instances[k].deleting
    requires CleaningFailed(states[i].api.instances[k])
    ensures Stuck(states[j].api, k, states[i].api.instances[k].uid)
    decreases j
  {
    hide Inv, Next, Stuck, CleaningFailed;
    if i == j {
      InvInEveryRun(states, events, i);
      FailedIsStuck(states[i], k);
    } else {
      FailedCleaningIsFinal(states, events, i, j - 1, k);
      InvInEveryRun(states, events, j - 1);
      assert StepAt(states, events, j - 1);
      NextLeavesStuck(states[j - 1], events[j - 1], states[j], k, states[i].api.instances[k].uid);
    }
  }
}
