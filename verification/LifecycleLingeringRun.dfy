// A run that leads to an instance LifecycleLingering shows never to go away.
module LifecycleLingeringRun {
  import opened Common
  import opened Objects
  import opened Store
  import opened Lifecycle
  import opened LifecycleInvariant
  import opened LifecycleDeletion
  import opened LifecycleReachability
  import opened LifecycleRefinement
  import opened LifecycleCleaning
  import opened LifecycleNameless
  import Provisioner
  import Scheduler
  import HardwareController
  import HardwareWebhook

  // ---------------------------------------------------------------- the hardware goes away

  /** Hardware that was never discovered, as it is once its tenant let go of it. */
  predicate Released(h: Hardware) {
    && h.instanceRef.None? && h.taints == [] && h.finalizers == {OwnFinalizer} && h.discovered.None?
    && HardwareWebhook.NicsAllowed(h.nics)
  }

  lemma ReconcileTaints(c: Cluster, hk: Key)
    requires hk in c.hardware && c.hardware[hk].deleting && Released(c.hardware[hk])
    ensures var c' := HardwareController.ReconcileHardware(c, hk, []);
            && hk in c'.hardware && c'.instances == c.instances
            && var h := c'.hardware[hk];
               h == c.hardware[hk].(taints := [HardwareController.NO_SCHEDULE_TAINT], version := h.version)
  {
    hide HardwareWebhook.NicsAllowed;
  }

  lemma ReconcileRemoves(c: Cluster, hk: Key)
    requires hk in c.hardware && c.hardware[hk].deleting
    requires Released(c.hardware[hk].(taints := [])) && c.hardware[hk].taints == [HardwareController.NO_SCHEDULE_TAINT]
    ensures var c' := HardwareController.ReconcileHardware(c, hk, []);
            hk !in c'.hardware && c'.instances == c.instances
  {
    hide HardwareWebhook.NicsAllowed;
    var h := c.hardware[hk];
    assert HardwareController.TaintIndex(h.taints, NoScheduleKey) == 0;
    assert h.finalizers - {OwnFinalizer} == {};
  }

  lemma AbortsHardware(s: State, hk: Key)
    ensures Next(s, AbortHardware(hk), s.(hardwareRuns := s.hardwareRuns - {hk}))
  {
    assert HardwareNext(s, AbortHardware(hk), s.(hardwareRuns := s.hardwareRuns - {hk}));
  }

  /** Its deletion takes two reconciles. */
  lemma HardwareGoes(s: State, hk: Key) returns (events: seq<Event>, s': State)
    requires hk in s.api.hardware && s.api.hardware[hk].deleting && Released(s.api.hardware[hk])
    ensures Leads(s, events, s') && s'.api.instances == s.api.instances && hk !in s'.api.hardware
  {
    var s1 := s.(hardwareRuns := s.hardwareRuns - {hk});
    AbortsHardware(s, hk);
    ReconcileTaints(s1.api, hk);
    hide Next, Leads, HardwareController.ReconcileHardware;
    var first := HardwareReconcileInSteps(s1, hk, []);
    var s2 := s1.(api := HardwareController.ReconcileHardware(s1.api, hk, []));
    ReconcileRemoves(s2.api, hk);
    var second := HardwareReconcileInSteps(s2, hk, []);
    s' := s2.(api := HardwareController.ReconcileHardware(s2.api, hk, []));
    LeadsOn(s1, first, s2, second, s');
    OneStep(s, AbortHardware(hk), s1, first + second, s');
    events := [AbortHardware(hk)] + (first + second);
  }

  // ---------------------------------------------------------------- the agent is left behind

  /** The instance is being cleaned, and did not fail. */
  predicate InCleaning(bmi: Instance) {
    && bmi.deleting && bmi.finalizers != {} && bmi.Is(InstanceScheduled, StatusTrue) && bmi.hardwareName != ""
    && bmi.Has(InstanceCleaned) && !bmi.Is(InstanceCleaned, StatusError)
  }

  lemma DecidesToTerminate(s: State, k: Key, bmi: Instance)
    requires InCleaning(bmi) && HardwareLost(s.api, k, bmi)
    ensures Provisioner.Decide(k, PassNow(s, k, bmi)) == Provisioner.UpdateInstance(bmi.(phase := Terminating))
  {
  }

  /** The next pass of the provisioner does not find the hardware. */
  lemma TerminatesWithAgent(s: State, k: Key) returns (events: seq<Event>, s': State)
    requires k in s.api.instances && InCleaning(s.api.instances[k]) && HardwareLost(s.api, k, s.api.instances[k])
    ensures Leads(s, events, s')
    ensures k in s'.api.instances && s'.api.instances[k].deleting && AgentLingers(s'.api.instances[k])
  {
    var bmi := s.api.instances[k];
    var calming := CalmsDown(s, k);
    var calm := Calm(s, k);
    DecidesToTerminate(calm, k, bmi);
    hide Calm, Next, Leads, Provisioner.Decide;
    var r0 := Provisioner.Run(bmi, None, None, None);
    ProvisionerStarts(calm, k);
    var asked, r := ReadsWhatItNeeds(calm, k, r0);
    ProvisionerWritesInstance(calm, k, r);
    s' := calm.(api := WriteInstance(calm.api, k, bmi.(phase := Terminating)));
    LastStep(InFlight(calm, k, r), ProvisionerWrite(k), s');
    LeadsOn(InFlight(calm, k, r0), asked, InFlight(calm, k, r), [ProvisionerWrite(k)], s');
    OneStep(calm, ProvisionerRead(k), InFlight(calm, k, r0), asked + [ProvisionerWrite(k)], s');
    LeadsOn(s, calming, calm, [ProvisionerRead(k)] + (asked + [ProvisionerWrite(k)]), s');
    events := calming + ([ProvisionerRead(k)] + (asked + [ProvisionerWrite(k)]));
  }

  // ---------------------------------------------------------------- the whole run

  lemma CanBeCleaned(s: State, s': State, k: Key, hk: Key)
    requires CleaningBegan(s, s', k) && Owns(s, k, s.api.instances[k]) && Provisioner.HardwareKey(k, s.api.instances[k]) == hk
    requires s.api.hardware.Keys == {hk} && s.api.hardware[hk].systemUUID != ""
    ensures BeingCleaned(s', k, s'.api.instances[k]) && Identified(s', k, s'.api.instances[k])
  {
  }

  /** The agent of a deleting instance cleans, and the hardware is released. */
  lemma GetsCleaned(s: State, k: Key, hk: Key) returns (events: seq<Event>, s': State)
    requires k in s.api.instances && Uncleaned(s.api.instances[k]) && Owns(s, k, s.api.instances[k])
    requires Provisioner.HardwareKey(k, s.api.instances[k]) == hk
    requires s.api.hardware.Keys == {hk} && s.api.hardware[hk].systemUUID != ""
    ensures Leads(s, events, s') && LetGoOf(s.api, s'.api, hk)
    ensures k in s'.api.instances && InCleaning(s'.api.instances[k]) && s'.api.instances[k].agentInfo.Some?
    ensures s'.api.instances[k].phase == Cleaning && !s'.api.instances[k].Is(InstanceCleaned, StatusTrue)
    ensures Provisioner.HardwareKey(k, s'.api.instances[k]) == hk
  {
    var beginning, s1 := CleaningBegins(s, k);
    CanBeCleaned(s, s1, k, hk);
    var reporting, s2 := AgentReports(s1, k);
    StillBeingCleaned(s1, s2, k);
    var cleaning;
    cleaning, s' := CleaningSucceeds(s2, k);
    hide Leads;
    LeadsOn(s, beginning, s1, reporting, s2);
    LeadsOn(s, beginning + reporting, s2, cleaning, s');
    events := beginning + reporting + cleaning;
    hide Owns, Identified, PastCleaning, LetGoOf;
  }

  lemma DeletesHardware(states: seq<State>, events: seq<Event>, hk: Key) returns (s': State)
    requires IsRun(states, events) && hk in Last(states).api.hardware && !Last(states).api.hardware[hk].deleting
    requires Released(Last(states).api.hardware[hk])
    ensures IsRun(states + [s'], events + [DeleteHardware(hk)]) && s'.api.instances == Last(states).api.instances
    ensures hk in s'.api.hardware && s'.api.hardware[hk].deleting && Released(s'.api.hardware[hk])
  {
    var s := Last(states);
    hide IsRun, HardwareWebhook.NicsAllowed;
    s' := s.(api := Store.DeleteHardware(s.api, hk));
    assert UserNext(s, DeleteHardware(hk), s');
    hide UserNext, Released;
    Extend(states, events, DeleteHardware(hk), s');
  }

  /** A new instance on new hardware claims it and is deleted; its agent cleans and the hardware is
      released; the hardware is deleted and gone before the provisioner looks again; and then the
      agent stays on the instance. */
  lemma LingeringAgentHappens(k: Key, obj: Instance, hk: Key, bmh: Hardware, tolerates: Scheduler.Tolerates)
    returns (states: seq<State>, events: seq<Event>)
    requires NewInstance(INIT.api, obj) && obj.selector == map[] && hk.ns == k.ns && hk.name != ""
    requires NewHardware(bmh) && bmh.canProvision && bmh.taints == [] && bmh.finalizers == {OwnFinalizer}
    requires bmh.systemUUID != ""
    ensures IsRun(states, events)
    ensures var s := Last(states);
            k in s.api.instances && s.api.instances[k].deleting && AgentLingers(s.api.instances[k])
  {
    hide IsRun, Leads, LetGoOf, HardwareWebhook.NicsAllowed;
    var bmi, h, revision;
    states, events, bmi, h, revision := GetsClaimed(k, obj, hk, bmh, tolerates);
    var s1 := DeleteStage(states, events, k, bmi, hk, h, revision);
    states, events := states + [s1], events + [DeleteInstance(k)];
    var cleaning, s2 := GetsCleaned(s1, k, hk);
    LetGoIsStored(s1.api, s2.api, hk);
    states := Continue(states, events, cleaning, s2);
    events := events + cleaning;
    var s3 := DeletesHardware(states, events, hk);
    states, events := states + [s3], events + [DeleteHardware(hk)];
    var going, s4 := HardwareGoes(s3, hk);
    states := Continue(states, events, going, s4);
    events := events + going;
    var terminating, s5 := TerminatesWithAgent(s4, k);
    states := Continue(states, events, terminating, s5);
    events := events + terminating;
  }

  lemma LetGoIsStored(c: Cluster, c': Cluster, hk: Key)
    requires LetGoOf(c, c', hk) && OwnFinalizer in c.hardware[hk].finalizers
    ensures Stored(c', hk, c.hardware[hk].(instanceRef := None))
  {
  }
}
