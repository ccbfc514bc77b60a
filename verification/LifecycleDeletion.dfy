// The deletion of an instance: every write of its controllers that gets through brings it
// closer to the end, and it is only ever held up by a failed cleaning, by its agent, or by an agent
// that was left on it.
module LifecycleDeletion {
  import opened Common
  import opened Objects
  import opened Store
  import opened Agent
  import opened Lifecycle
  import opened LifecycleInvariant
  import opened LifecycleSteps
  import opened LifecycleOtherSteps
  import opened LifecycleProvisionerSteps
  import opened LifecycleSafety
  import opened LifecycleProgress
  import Provisioner
  import Scheduler
  import InstanceController
  import InstanceWebhook
  import HardwareController
  import HardwareWebhook

  /** How many writes a deleting instance may still need. */
  function Rank(bmi: Instance, owns: bool): (r: nat)
    ensures r <= 8
  {
    if bmi.phase == Terminated then if OwnFinalizer in bmi.finalizers then 1 else 0
    else if !bmi.Is(InstanceScheduled, StatusTrue) then 2
    else if bmi.phase == Terminating then 3
    else if bmi.Is(InstanceCleaned, StatusTrue) then 4
    else if bmi.Is(InstanceCleaned, StatusError) then 5
    else if !bmi.Has(InstanceCleaned) then 8
    else if bmi.phase != Cleaning then 7
    else if owns then 6
    else 5
  }

  function RankAt(s: State, k: Key): nat
    requires k in s.api.instances
  {
    Rank(s.api.instances[k], Owns(s, k, s.api.instances[k]))
  }

  /** The instance controller takes the finalizer off, and the webhook lets it. */
  predicate LetGo(bmi: Instance) {
    var effect := InstanceController.Decide(bmi);
    effect.Update? && InstanceWebhook.Admitted(bmi, effect.bmi)
  }

  /** A write of one of the controllers for the deletion of instance k gets through. */
  predicate Lands(s: State, e: Event, k: Key) {
    && k in s.api.instances && s.api.instances[k].deleting
    && match e
       case ControllerWrite(j) =>
         && j == k && k in s.controllerRuns && FreshInstance(s.api, k, s.controllerRuns[k])
         && OwnFinalizer in s.controllerRuns[k].finalizers && LetGo(s.controllerRuns[k])
       case SchedulerWrite(j) =>
         j == k && k in s.schedulerRuns && FreshInstance(s.api, k, s.schedulerRuns[k].bmi)
       case SchedulerUnassign(j) =>
         j == k && k in s.schedulerRuns && FreshInstance(s.api, k, s.schedulerRuns[k].bmi)
       case ProvisionerWrite(j) =>
         j == k && k in s.provisionerRuns && FreshInstance(s.api, k, s.provisionerRuns[k].bmi)
       case ProvisionerClaimOrRelease(j) =>
         && j == k && k in s.provisionerRuns
         && var r := s.provisionerRuns[k];
            && r.bmi.deleting && r.bmh.Some? && r.bmh.value.Some?
            && FreshHardware(s.api, Provisioner.HardwareKey(k, r.bmi), r.bmh.value.value)
       case _ => false
  }

  // ---------------------------------------------------------------- what each write does to the rank

  lemma ControllerLowers(bmi: Instance, owns: bool)
    requires bmi.deleting && OwnFinalizer in bmi.finalizers && LetGo(bmi)
    ensures forall now :: Rank(InstanceController.Decide(bmi).bmi, now) < Rank(bmi, owns)
  {
  }

  lemma SchedulerLowers(bmi: Instance, owns: bool)
    requires bmi.deleting
    requires Scheduler.Decide(bmi).UpdateInstance? || Scheduler.Decide(bmi).Unassign?
    ensures forall now :: Rank(Scheduler.Decide(bmi).bmi, now) < Rank(bmi, owns)
  {
  }

  lemma ProvisionerLowers(k: Key, r: Provisioner.Run, owns: bool, now: bool)
    requires r.bmi.deleting && Provisioner.Decide(k, r).UpdateInstance?
    requires (r.bmi.phase == Cleaning && r.bmh.Some? && r.bmh.value.Some? &&
              r.bmh.value.value.instanceRef.Some? && r.bmh.value.value.instanceRef.value.uid == r.bmi.uid) ==> owns
    requires now ==> owns
    ensures Rank(Provisioner.Decide(k, r).bmi, now) < Rank(r.bmi, owns)
  {
  }

  // ---------------------------------------------------------------- ownership during cleaning

  /** The reference of instance k was there before, unless this is its claim. */
  ghost predicate NoNewTenant(c: Cluster, c': Cluster, k: Key) {
    forall hk :: hk in c'.hardware && c'.hardware[hk].instanceRef.Some? && c'.hardware[hk].instanceRef.value.key == k ==>
      hk in c.hardware && c.hardware[hk].instanceRef == c'.hardware[hk].instanceRef
  }

  lemma PutBringsNoTenant(c: Cluster, hk: Key, obj: Hardware, k: Key)
    requires obj.instanceRef.Some? && obj.instanceRef.value.key == k ==>
               hk in c.hardware && c.hardware[hk].instanceRef == obj.instanceRef
    ensures NoNewTenant(c, PutHardware(c, hk, obj), k)
  {
  }

  lemma SameHardwareBringsNoTenant(c: Cluster, c': Cluster, k: Key)
    requires c'.hardware == c.hardware
    ensures NoNewTenant(c, c', k)
  {
  }

  lemma UserBringsNoTenant(c: Cluster, e: Event, c': Cluster, k: Key)
    requires UserWrites(c, e, c')
    ensures NoNewTenant(c, c', k)
  {
    SameHardwareBringsNoTenant(c, c, k);
    match e {
      case CreateHardware(hk, bmh) => PutBringsNoTenant(c, hk, bmh, k);
      case EditHardware(hk, bmh) => PutBringsNoTenant(c, hk, bmh, k);
      case DeleteHardware(hk) =>
        if hk in c.hardware && !c.hardware[hk].deleting {
          PutBringsNoTenant(c, hk, c.hardware[hk].(deleting := true), k);
        }
      case ReleaseHardware(hk, f) =>
        PutBringsNoTenant(c, hk, c.hardware[hk].(finalizers := c.hardware[hk].finalizers - {f}), k);
      case _ => assert c'.hardware == c.hardware;
    }
  }

  lemma HardwareBringsNoTenant(s: State, hk: Key, r: HardwareRun, discoveries: seq<Option<Discovered>>, k: Key)
    requires HardwareRunOk(s, hk, r) && AllHardwareOk(s)
    ensures var effect := HardwareController.Decide(r.bmh, r.tenant, discoveries);
            NoNewTenant(s.api, HardwareController.Apply(s.api, hk, r.bmh, effect), k)
  {
    var effect := HardwareController.Decide(r.bmh, r.tenant, discoveries);
    if effect.Writes() {
      HardwareEffectVersion(r.bmh, r.tenant, discoveries);
      SameHardwareBringsNoTenant(s.api, s.api, k);
      if FreshHardware(s.api, hk, r.bmh) {
        assert HardwareOk(s, hk, s.api.hardware[hk]);
        HardwareEffectIsOk(r.bmh, r.tenant, discoveries);
        PutBringsNoTenant(s.api, hk, effect.bmh, k);
      }
      hide HardwareController.Decide, HardwareWebhook.Admitted;
    }
  }

  lemma ClaimBringsOther(s: State, k: Key, j: Key, r: Provisioner.Run)
    requires WorksOnHardware(r) ==> StillThere(s.api, j, r.bmi)
    requires k in s.api.instances && s.api.instances[k].phase != Provisioning
    requires Provisioner.Decide(j, r).UpdateHardware?
    ensures var hk := Provisioner.HardwareKey(j, r.bmi);
            NoNewTenant(s.api, AfterClaimOrRelease(EndProvisioner(s, j), hk, Provisioner.Decide(j, r).bmh).api, k)
  {
    HardwareEffect(j, r);
    hide Provisioner.Decide;
    PutBringsNoTenant(s.api, Provisioner.HardwareKey(j, r.bmi), Provisioner.Decide(j, r).bmh, k);
  }

  lemma OwnsFromBefore(s: State, s': State, k: Key, bmi: Instance)
    requires NoNewTenant(s.api, s'.api, k) && Owns(s', k, bmi)
    ensures Owns(s, k, bmi)
  {
  }

  // ---------------------------------------------------------------- one step

  /** The instance is as it was, and owns no more than it did while it is being cleaned. */
  ghost predicate Untouched(s: State, s': State, k: Key) {
    && k in s.api.instances
    && (k in s'.api.instances && s'.api.instances[k].uid == s.api.instances[k].uid ==>
          && s'.api.instances[k] == s.api.instances[k].(version := s'.api.instances[k].version,
                                                        finalizers := s'.api.instances[k].finalizers,
                                                        agentInfo := s'.api.instances[k].agentInfo)
          && (OwnFinalizer in s'.api.instances[k].finalizers <==> OwnFinalizer in s.api.instances[k].finalizers))
    && (s.api.instances[k].phase == Cleaning ==> NoNewTenant(s.api, s'.api, k))
  }

  lemma UntouchedKeepsRank(s: State, s': State, k: Key)
    requires Untouched(s, s', k) && k in s'.api.instances && s'.api.instances[k].uid == s.api.instances[k].uid
    ensures RankAt(s', k) <= RankAt(s, k)
  {
    if s.api.instances[k].phase == Cleaning && Owns(s', k, s'.api.instances[k]) {
      OwnsFromBefore(s, s', k, s'.api.instances[k]);
    }
  }

  /** A write of instance k by a run that read what is stored now. */
  ghost predicate WritesInstance(s: State, s': State, k: Key, obj: Instance) {
    && k in s.api.instances
    && s'.api == PutInstance(s.api, k, obj)
  }

  lemma WriteLowersRank(s: State, s': State, k: Key, obj: Instance)
    requires WritesInstance(s, s', k, obj)
    requires var owns := Owns(s, k, s.api.instances[k]);
             Rank(obj, Owns(s, k, obj)) < Rank(s.api.instances[k], owns)
    ensures k in s'.api.instances ==> RankAt(s', k) < RankAt(s, k)
  {
  }

  /** What a step has to do with the deletion of instance k. */
  ghost predicate RankStep(s: State, e: Event, s': State, k: Key) {
    k in s.api.instances && s.api.instances[k].deleting &&
    k in s'.api.instances && s'.api.instances[k].uid == s.api.instances[k].uid ==>
      && RankAt(s', k) <= RankAt(s, k)
      && (Lands(s, e, k) ==> RankAt(s', k) < RankAt(s, k))
  }

  lemma UserRank(s: State, e: Event, s': State, k: Key)
    requires UserNext(s, e, s') && k in s.api.instances && s.api.instances[k].deleting
    requires k in s'.api.instances && s'.api.instances[k].uid == s.api.instances[k].uid
    ensures Untouched(s, s', k)
  {
    UserBringsNoTenant(s.api, e, s'.api, k);
    hide NoNewTenant, HardwareWebhook.Admitted;
    if e.CreateHardware? || e.EditHardware? || e.DeleteHardware? || e.ReleaseHardware? {
      HardwareEditsKeepInstances(s.api, e, s'.api);
      hide UserWrites;
    } else {
      hide SubmitHardware;
    }
  }

  lemma SameObjectsRank(s: State, s': State, k: Key)
    requires s'.api == s.api && k in s.api.instances
    ensures Untouched(s, s', k)
  {
  }

  /** A write of instance k is refused, or is for another instance. */
  lemma ElsewhereUntouched(s: State, s': State, k: Key, j: Key, obj: Instance)
    requires k in s.api.instances && s'.api == WriteInstance(s.api, j, obj)
    requires j != k || !FreshInstance(s.api, k, obj)
    ensures Untouched(s, s', k)
  {
  }

  lemma ControllerRank(s: State, e: Event, s': State, k: Key)
    requires ControllerRunsOk(s) && ControllerNext(s, e, s')
    ensures RankStep(s, e, s', k)
  {
    if e.ControllerWrite? && k in s.api.instances && s.api.instances[k].deleting && k in s'.api.instances {
      var read := s.controllerRuns[e.k];
      var obj := InstanceController.Decide(read).bmi;
      assert InstanceReadOk(s.api, e.k, read);
      if s'.api == s.api {
        SameObjectsRank(s, s', k);
        UntouchedKeepsRank(s, s', k);
      } else if e.k != k {
        ElsewhereUntouched(s, s', k, e.k, obj);
        UntouchedKeepsRank(s, s', k);
      } else if OwnFinalizer in read.finalizers {
        ControllerLowers(read, Owns(s, k, read));
        WriteLowersRank(s, s', k, obj);
      }
    }
  }

  lemma SchedulerWriteRank(s: State, s': State, k: Key, read: Instance)
    requires InstanceReadOk(s.api, k, read) && FreshInstance(s.api, k, read) && s.api.instances[k].deleting
    requires Scheduler.Decide(read).UpdateInstance? || Scheduler.Decide(read).Unassign?
    requires s'.api == WriteInstance(s.api, k, Scheduler.Decide(read).bmi)
    ensures k in s'.api.instances ==> RankAt(s', k) < RankAt(s, k)
  {
    SchedulerLowers(read, Owns(s, k, read));
    WriteLowersRank(s, s', k, Scheduler.Decide(read).bmi);
  }

  lemma SchedulerRank(s: State, e: Event, s': State, k: Key)
    requires SchedulerRunsOk(s) && SchedulerNext(s, e, s')
    requires k in s.api.instances && s.api.instances[k].deleting && k in s'.api.instances
    requires s'.api.instances[k].uid == s.api.instances[k].uid
    ensures RankStep(s, e, s', k)
  {
    hide Rank, Owns, WriteInstance, Scheduler.ToleratesAll, Scheduler.SelectorMatches, NameUnused;
    if e.SchedulerWrite? || e.SchedulerUnassign? {
      var read := s.schedulerRuns[e.k].bmi;
      assert SchedulerRunOk(s, e.k, s.schedulerRuns[e.k]);
      if e.k == k && FreshInstance(s.api, k, read) {
        SchedulerWriteRank(s, s', k, read);
      } else {
        ElsewhereUntouched(s, s', k, e.k, Scheduler.Decide(read).bmi);
        UntouchedKeepsRank(s, s', k);
      }
    } else if e.SchedulerAssign? {
      var read := s.schedulerRuns[e.k].bmi;
      assert SchedulerRunOk(s, e.k, s.schedulerRuns[e.k]);
      ElsewhereUntouched(s, s', k, e.k, read.(hardwareName := e.name));
      UntouchedKeepsRank(s, s', k);
    } else {
      SameObjectsRank(s, s', k);
      UntouchedKeepsRank(s, s', k);
    }
  }

  lemma ReadyRank(s: State, e: Event, s': State, k: Key)
    requires ReadyRunsOk(s) && ReadyNext(s, e, s') && k in s.api.instances
    ensures Untouched(s, s', k)
  {
    if e.ReadyWrite? {
      assert ReadyRunOk(s, s.readyRuns[e.id]);
    }
  }

  lemma ApplyKeepsDeleting(c: Cluster, hk: Key, h: Hardware, effect: HardwareController.HardwareEffect, k: Key)
    requires k in c.instances && c.instances[k].deleting
    ensures var c' := HardwareController.Apply(c, hk, h, effect);
            k in c'.instances && c'.instances[k] == c.instances[k]
  {
  }

  lemma HardwareRank(s: State, e: Event, s': State, k: Key)
    requires HardwareRunsOk(s) && AllHardwareOk(s) && HardwareNext(s, e, s')
    requires k in s.api.instances && s.api.instances[k].deleting
    ensures Untouched(s, s', k)
  {
    if e.HardwareWrite? {
      assert HardwareRunOk(s, e.k, s.hardwareRuns[e.k]);
      ApplyKeepsDeleting(s.api, e.k, s.hardwareRuns[e.k].bmh,
                         HardwareController.Decide(s.hardwareRuns[e.k].bmh, s.hardwareRuns[e.k].tenant, e.discoveries), k);
      HardwareBringsNoTenant(s, e.k, s.hardwareRuns[e.k], e.discoveries, k);
    }
  }

  // ---------------------------------------------------------------- the provisioner

  lemma ProvisionerWriteRank(s: State, s': State, k: Key, r: Provisioner.Run)
    requires ProvisionerRunOk(s, k, r) && FreshInstance(s.api, k, r.bmi) && r.bmi.deleting
    requires Provisioner.Decide(k, r).UpdateInstance?
    requires s'.api == WriteInstance(s.api, k, Provisioner.Decide(k, r).bmi)
    ensures k in s'.api.instances ==> RankAt(s', k) < RankAt(s, k)
  {
    var obj := Provisioner.Decide(k, r).bmi;
    ProvisionerDecidesForward(k, r);
    SameHardwareName(k, r);
    ProvisionerLowers(k, r, Owns(s, k, r.bmi), Owns(s, k, obj));
    WriteLowersRank(s, s', k, obj);
  }

  lemma SameHardwareName(k: Key, r: Provisioner.Run)
    ensures var effect := Provisioner.Decide(k, r);
            effect.UpdateInstance? ==> effect.bmi.hardwareName == r.bmi.hardwareName
  {
  }

  lemma CleaningUnderWay(k: Key, r: Provisioner.Run)
    requires r.bmi.deleting && Provisioner.Decide(k, r).UpdateHardware?
    ensures r.bmi.phase == Cleaning && r.bmi.Is(InstanceScheduled, StatusTrue) && r.bmi.Has(InstanceCleaned)
    ensures !r.bmi.Is(InstanceCleaned, StatusTrue) && !r.bmi.Is(InstanceCleaned, StatusError)
    ensures r.bmh.Some? && r.bmh.value.Some? && r.bmh.value.value.instanceRef.Some?
    ensures Provisioner.Decide(k, r).bmh == r.bmh.value.value.(instanceRef := None)
  {
  }

  lemma ReleaseRank(s: State, s': State, k: Key, r: Provisioner.Run)
    requires ProvisionerRunOk(s, k, r) && r.bmi.deleting && Provisioner.Decide(k, r).UpdateHardware?
    requires FreshHardware(s.api, Provisioner.HardwareKey(k, r.bmi), Provisioner.Decide(k, r).bmh)
    requires s'.api == PutHardware(s.api, Provisioner.HardwareKey(k, r.bmi), Provisioner.Decide(k, r).bmh)
    ensures k in s.api.instances && k in s'.api.instances && RankAt(s', k) < RankAt(s, k)
  {
    CleaningUnderWay(k, r);
  }

  lemma ClaimOrReleaseRank(s: State, s': State, j: Key, r: Provisioner.Run, k: Key)
    requires ProvisionerRunOk(s, j, r) && Provisioner.Decide(j, r).UpdateHardware?
    requires k in s.api.instances && s.api.instances[k].deleting
    requires s'.api == AfterClaimOrRelease(EndProvisioner(s, j), Provisioner.HardwareKey(j, r.bmi),
                                           Provisioner.Decide(j, r).bmh).api
    ensures k in s'.api.instances && RankAt(s', k) <= RankAt(s, k)
    ensures j == k && r.bmi.deleting
            && FreshHardware(s.api, Provisioner.HardwareKey(j, r.bmi), Provisioner.Decide(j, r).bmh) ==>
              RankAt(s', k) < RankAt(s, k)
  {
    if j == k && r.bmi.deleting && FreshHardware(s.api, Provisioner.HardwareKey(j, r.bmi), Provisioner.Decide(j, r).bmh) {
      ReleaseRank(s, s', k, r);
    } else {
      if s.api.instances[k].phase == Cleaning {
        ClaimBringsOther(s, k, j, r);
      }
      UntouchedKeepsRank(s, s', k);
    }
  }

  lemma ProvisionerRank(s: State, e: Event, s': State, k: Key)
    requires ProvisionerRunsOk(s) && ProvisionerActs(s, e, s')
    requires k in s.api.instances && s.api.instances[k].deleting && k in s'.api.instances
    requires s'.api.instances[k].uid == s.api.instances[k].uid
    ensures RankStep(s, e, s', k)
  {
    hide Rank, Owns, HardwareWorkOk, Provisioner.Decide, WriteInstance, AfterClaimOrRelease, AfterPost;
    match e {
      case ProvisionerWrite(j) =>
        var r := s.provisionerRuns[j];
        assert ProvisionerRunOk(s, j, r);
        ProvisionerDecidesForward(j, r);
        if j == k && FreshInstance(s.api, k, r.bmi) {
          ProvisionerWriteRank(s, s', k, r);
        } else {
          ElsewhereUntouched(s, s', k, j, Provisioner.Decide(j, r).bmi);
          UntouchedKeepsRank(s, s', k);
        }
      case ProvisionerClaimOrRelease(j) =>
        assert ProvisionerRunOk(s, j, s.provisionerRuns[j]);
        ClaimOrReleaseRank(s, s', j, s.provisionerRuns[j], k);
        if s.provisionerRuns[j].bmi.deleting {
          CleaningUnderWay(j, s.provisionerRuns[j]);
        }
      case _ =>
        PostsKeepApi(s, e, s');
        SameObjectsRank(s, s', k);
        UntouchedKeepsRank(s, s', k);
    }
  }

  lemma PostsKeepApi(s: State, e: Event, s': State)
    requires ProvisionerActs(s, e, s') && !e.ProvisionerWrite? && !e.ProvisionerClaimOrRelease?
    ensures s'.api == s.api
  {
    hide Provisioner.Decide;
  }

  lemma UntouchedIsRankStep(s: State, e: Event, s': State, k: Key)
    requires Untouched(s, s', k) && !Lands(s, e, k)
    ensures RankStep(s, e, s', k)
  {
    if k in s'.api.instances && s'.api.instances[k].uid == s.api.instances[k].uid {
      UntouchedKeepsRank(s, s', k);
    }
  }

  lemma UserRankStep(s: State, e: Event, s': State, k: Key)
    requires UserNext(s, e, s') && k in s.api.instances && s.api.instances[k].deleting
    requires k in s'.api.instances && s'.api.instances[k].uid == s.api.instances[k].uid
    ensures RankStep(s, e, s', k)
  {
    UserRank(s, e, s', k);
    UntouchedIsRankStep(s, e, s', k);
  }

  lemma QuietRankStep(s: State, e: Event, s': State, k: Key)
    requires MachineNext(s, e, s') || ProvisionerReads(s, e, s')
    requires k in s.api.instances
    ensures RankStep(s, e, s', k)
  {
    if MachineNext(s, e, s') {
      MachinesKeepApi(s, e, s');
    } else {
      ReadsKeepApi(s, e, s');
    }
    SameObjectsRank(s, s', k);
    UntouchedIsRankStep(s, e, s', k);
  }

  lemma HardwareRankStep(s: State, e: Event, s': State, k: Key)
    requires HardwareRunsOk(s) && AllHardwareOk(s) && HardwareNext(s, e, s')
    requires k in s.api.instances && s.api.instances[k].deleting
    ensures RankStep(s, e, s', k)
  {
    HardwareRank(s, e, s', k);
    UntouchedIsRankStep(s, e, s', k);
  }

  lemma ReadyRankStep(s: State, e: Event, s': State, k: Key)
    requires ReadyRunsOk(s) && ReadyNext(s, e, s') && k in s.api.instances
    ensures RankStep(s, e, s', k)
  {
    ReadyRank(s, e, s', k);
    UntouchedIsRankStep(s, e, s', k);
  }

  /** No step raises the rank of a deleting instance, and a write that gets through lowers it. */
  lemma NextLowersRank(s: State, e: Event, s': State, k: Key)
    requires Inv(s) && Next(s, e, s')
    requires k in s.api.instances && s.api.instances[k].deleting && k in s'.api.instances
    requires s'.api.instances[k].uid == s.api.instances[k].uid
    ensures RankStep(s, e, s', k)
  {
    if UserNext(s, e, s') {
      UserRankStep(s, e, s', k);
    } else if MachineNext(s, e, s') || ProvisionerReads(s, e, s') {
      QuietRankStep(s, e, s', k);
    } else if ControllerNext(s, e, s') {
      ControllerRank(s, e, s', k);
    } else if SchedulerNext(s, e, s') {
      SchedulerRank(s, e, s', k);
    } else if ProvisionerActs(s, e, s') {
      ProvisionerRank(s, e, s', k);
    } else if HardwareNext(s, e, s') {
      HardwareRankStep(s, e, s', k);
    } else {
      ReadyRankStep(s, e, s', k);
    }
  }

  // ---------------------------------------------------------------- whole runs

  /** How many writes for the deletion of instance k get through between two moments. */
  function LandedWrites(states: seq<State>, events: seq<Event>, k: Key, i: nat, j: nat): nat
    requires |states| == |events| + 1 && i <= j <= |events|
    decreases j
  {
    if i == j then 0
    else LandedWrites(states, events, k, i, j - 1) + if Lands(states[j - 1], events[j - 1], k) then 1 else 0
  }

  lemma StillDeletingBefore(states: seq<State>, events: seq<Event>, i: nat, j: nat, k: Key)
    requires IsRun(states, events) && i < j <= |events|
    requires k in states[i].api.instances && states[i].api.instances[k].deleting
    requires k in states[j].api.instances && states[j].api.instances[k].uid == states[i].api.instances[k].uid
    ensures k in states[j - 1].api.instances && states[j - 1].api.instances[k].deleting
    ensures states[j - 1].api.instances[k].uid == states[i].api.instances[k].uid
  {
    InvInEveryRun(states, events, i);
    assert InstanceOk(states[i], k, states[i].api.instances[k]);
    UidsGrow(states, events, i, j - 1);
    PhasesOnlyMoveForward(states, events, j - 1, j, k);
    PhasesOnlyMoveForward(states, events, i, j - 1, k);
  }

  lemma RankStepInRun(states: seq<State>, events: seq<Event>, j: nat, k: Key)
    requires IsRun(states, events) && j < |events|
    requires k in states[j].api.instances && states[j].api.instances[k].deleting
    requires k in states[j + 1].api.instances && states[j + 1].api.instances[k].uid == states[j].api.instances[k].uid
    ensures RankStep(states[j], events[j], states[j + 1], k)
  {
    InvInEveryRun(states, events, j);
    assert StepAt(states, events, j);
    NextLowersRank(states[j], events[j], states[j + 1], k);
  }

  /** However the controllers are interleaved, the deletion of an instance takes at most eight of
      their writes. */
  lemma {:induction false} DeletionTakesFewWrites(states: seq<State>, events: seq<Event>, i: nat, j: nat, k: Key)
    requires IsRun(states, events) && i <= j <= |events|
    requires k in states[i].api.instances && states[i].api.instances[k].deleting
    requires k in states[j].api.instances && states[j].api.instances[k].uid == states[i].api.instances[k].uid
    ensures LandedWrites(states, events, k, i, j) + RankAt(states[j], k) <= RankAt(states[i], k) <= 8
    decreases j
  {
    if i < j {
      StillDeletingBefore(states, events, i, j, k);
      DeletionTakesFewWrites(states, events, i, j - 1, k);
      RankStepInRun(states, events, j - 1, k);
    }
  }

  // ---------------------------------------------------------------- never stuck

  /** The provisioner pass that would see the state as it is now. */
  function PassNow(s: State, k: Key, bmi: Instance): Provisioner.Run {
    Provisioner.Run(bmi,
                    Some(HardwareAt(s.api, Provisioner.HardwareKey(k, bmi))),
                    if bmi.agentInfo.Some? then Some(Answer(s, bmi.agentInfo.value)) else None,
                    None)
  }

  /** Some controller would change something for the instance if it ran now. */
  predicate CanMove(s: State, k: Key, bmi: Instance) {
    || (LetGo(bmi) && OwnFinalizer in bmi.finalizers)
    || Scheduler.Decide(bmi).UpdateInstance? || Scheduler.Decide(bmi).Unassign?
    || Provisioner.Decide(k, PassNow(s, k, bmi)).UpdateInstance?
    || Provisioner.Decide(k, PassNow(s, k, bmi)).UpdateHardware?
  }

  /** The cleaning failed: a user has to step in. */
  predicate CleaningFailed(bmi: Instance) {
    bmi.Is(InstanceScheduled, StatusTrue) && bmi.Is(InstanceCleaned, StatusError) &&
    PhaseIndex(bmi.phase) <= PhaseIndex(Cleaning)
  }

  /** The hardware is still claimed and its agent did not report the end of a clean action. */
  predicate WaitsForAgent(s: State, k: Key, bmi: Instance) {
    && bmi.Is(InstanceScheduled, StatusTrue) && bmi.phase == Cleaning && Owns(s, k, bmi)
    && bmi.Has(InstanceCleaned) && !bmi.Is(InstanceCleaned, StatusTrue) && !bmi.Is(InstanceCleaned, StatusError)
    && (bmi.agentInfo.None? ||
         var answer := Answer(s, bmi.agentInfo.value);
         !(answer.AgentBusy? && answer.status.actionType == CleaningDisks && answer.status.done))
  }

  /** The instance is terminated with an agent on it: the webhook refuses to take the finalizer off. */
  predicate HeldByAgent(bmi: Instance) {
    bmi.phase == Terminated && bmi.agentInfo.Some?
  }

  /** The deletion does not go on by itself: its cleaning failed, its agent did not clean yet, or an
      agent was left on it. */
  predicate HeldUp(s: State, k: Key, bmi: Instance) {
    CleaningFailed(bmi) || WaitsForAgent(s, k, bmi) || HeldByAgent(bmi)
  }

  /** In every reachable state, a deleting instance can move on unless its controllers are done
      with it, its cleaning failed, it waits for its agent, or an agent was left on it when it was
      terminated; and in those four cases no controller can change anything. */
  lemma MovesUnlessHeldUp(states: seq<State>, events: seq<Event>, i: nat, k: Key)
    requires IsRun(states, events) && i < |states|
    requires k in states[i].api.instances && states[i].api.instances[k].deleting
    ensures var bmi := states[i].api.instances[k];
            CanMove(states[i], k, bmi) <==> RankAt(states[i], k) > 0 && !HeldUp(states[i], k, bmi)
  {
    hide IsRun;
    InvInEveryRun(states, events, i);
    hide Inv;
    MovesIff(states[i], k);
  }

  lemma MovesIff(s: State, k: Key)
    requires Inv(s) && k in s.api.instances && s.api.instances[k].deleting
    ensures var bmi := s.api.instances[k];
            CanMove(s, k, bmi) <==> RankAt(s, k) > 0 && !HeldUp(s, k, bmi)
  {
    InstanceFacts(s, k);
    NoOtherTenant(s, k, s.api.instances[k]);
    hide Inv, CanMove, Rank, HeldUp;
    MovesWhen(s, k, s.api.instances[k]);
  }

  lemma MovesWhen(s: State, k: Key, bmi: Instance)
    requires InstanceShape(s, bmi) && bmi.deleting
    requires var hk := Provisioner.HardwareKey(k, bmi);
             hk in s.api.hardware && s.api.hardware[hk].instanceRef.Some? ==> Owns(s, k, bmi)
    ensures CanMove(s, k, bmi) <==> Rank(bmi, Owns(s, k, bmi)) > 0 && !HeldUp(s, k, bmi)
  {
  }
}
