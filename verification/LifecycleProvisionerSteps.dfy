// The steps of the provisioner keep the invariant. Its instance writes are guarded by their own
// version; its claims, releases and action requests act on something else than the instance it
// read, and are right because nobody but the provisioner moves such an instance on.
module LifecycleProvisionerSteps {
  import opened Common
  import opened Objects
  import opened Store
  import opened Agent
  import opened Lifecycle
  import opened LifecycleInvariant
  import opened LifecycleWrites
  import opened LifecycleTenancy
  import opened LifecycleSteps
  import Provisioner

  lemma ProvisionerRunChanges(s: State, k: Key, r: Provisioner.Run)
    requires Inv(s) && ProvisionerRunOk(s, k, r)
    ensures Inv(s.(provisionerRuns := s.provisionerRuns[k := r]))
  {
    var s' := s.(provisionerRuns := s.provisionerRuns[k := r]);
    RunsFrame(s, s');
    forall j | j in s'.provisionerRuns ensures ProvisionerRunOk(s', j, s'.provisionerRuns[j]) {
      ProvisionerRunFrame(s, s', j, if j == k then r else s.provisionerRuns[j]);
    }
  }

  lemma EndProvisionerKeepsInv(s: State, k: Key)
    requires Inv(s)
    ensures Inv(EndProvisioner(s, k))
  {
    var s' := EndProvisioner(s, k);
    RunsFrame(s, s');
    forall j | j in s'.provisionerRuns ensures ProvisionerRunOk(s', j, s'.provisionerRuns[j]) {
      ProvisionerRunFrame(s, s', j, s.provisionerRuns[j]);
    }
  }

  // ---------------------------------------------------------------- reads

  lemma FirstReadIsOk(s: State, k: Key, bmi: Instance)
    requires k in s.api.instances && s.api.instances[k] == bmi && InstanceOk(s, k, bmi)
    ensures ProvisionerRunOk(s, k, Provisioner.Run(bmi, None, None, None))
  {
  }

  /** The hardware an instance is scheduled on names no other instance. */
  lemma NoOtherTenant(s: State, k: Key, read: Instance)
    requires AllHardwareOk(s) && InstancesDistinct(s.api) && StillThere(s.api, k, read)
    ensures var hk := Provisioner.HardwareKey(k, read);
            hk in s.api.hardware && s.api.hardware[hk].instanceRef.Some? ==> Owns(s, k, read)
  {
    var hk := Provisioner.HardwareKey(k, read);
    if hk in s.api.hardware && s.api.hardware[hk].instanceRef.Some? {
      assert HardwareOk(s, hk, s.api.hardware[hk]);
      var j := s.api.hardware[hk].instanceRef.value.key;
      assert j != k ==> DistinctInstances(s.api.instances[j], s.api.instances[k]);
    }
  }

  lemma HardwareReadIsOk(s: State, k: Key, r: Provisioner.Run)
    requires ProvisionerRunOk(s, k, r) && r.bmh == None
    requires AllHardwareOk(s) && InstancesDistinct(s.api)
    ensures ProvisionerRunOk(s, k, r.(bmh := Some(HardwareAt(s.api, Provisioner.HardwareKey(k, r.bmi)))))
  {
    var hk := Provisioner.HardwareKey(k, r.bmi);
    if hk in s.api.hardware {
      assert HardwareOk(s, hk, s.api.hardware[hk]);
    }
    if WorksOnHardware(r) {
      NoOtherTenant(s, k, r.bmi);
    }
  }

  lemma AgentAnswerIsOk(s: State, k: Key, r: Provisioner.Run)
    requires ProvisionerRunOk(s, k, r) && r.bmi.agentInfo.Some?
    requires MachineOk(s, r.bmi.agentInfo.value)
    ensures ProvisionerRunOk(s, k, r.(agent := Some(Answer(s, r.bmi.agentInfo.value))))
  {
  }

  lemma FirstReadKeepsInv(s: State, k: Key)
    requires Inv(s) && k in s.api.instances
    ensures Inv(s.(provisionerRuns := s.provisionerRuns[k := Provisioner.Run(s.api.instances[k], None, None, None)]))
  {
    InstanceFacts(s, k);
    FirstReadIsOk(s, k, s.api.instances[k]);
    ProvisionerRunChanges(s, k, Provisioner.Run(s.api.instances[k], None, None, None));
  }

  lemma HardwareReadKeepsInv(s: State, k: Key, r: Provisioner.Run)
    requires Inv(s) && k in s.provisionerRuns && r == s.provisionerRuns[k] && r.bmh == None
    ensures Inv(s.(provisionerRuns := s.provisionerRuns[k :=
                     r.(bmh := Some(HardwareAt(s.api, Provisioner.HardwareKey(k, r.bmi))))]))
  {
    assert ProvisionerRunOk(s, k, r);
    HardwareReadIsOk(s, k, r);
    ProvisionerRunChanges(s, k, r.(bmh := Some(HardwareAt(s.api, Provisioner.HardwareKey(k, r.bmi)))));
  }

  lemma AgentAnswerKeepsInv(s: State, k: Key, r: Provisioner.Run)
    requires Inv(s) && k in s.provisionerRuns && r == s.provisionerRuns[k] && r.bmi.agentInfo.Some?
    ensures Inv(s.(provisionerRuns := s.provisionerRuns[k :=
                     r.(agent := Some(Answer(s, r.bmi.agentInfo.value)))]))
  {
    assert ProvisionerRunOk(s, k, r);
    assert MachineOk(s, r.bmi.agentInfo.value);
    AgentAnswerIsOk(s, k, r);
    ProvisionerRunChanges(s, k, r.(agent := Some(Answer(s, r.bmi.agentInfo.value))));
  }

  lemma NetworkAnswerKeepsInv(s: State, k: Key, r: Provisioner.Run, network: Provisioner.NetworkAnswer)
    requires Inv(s) && k in s.provisionerRuns && r == s.provisionerRuns[k]
    ensures Inv(s.(provisionerRuns := s.provisionerRuns[k := r.(network := Some(network))]))
  {
    assert ProvisionerRunOk(s, k, r);
    ProvisionerRunChanges(s, k, r.(network := Some(network)));
  }

  lemma AskedWhileUnknown(k: Key, r: Provisioner.Run)
    requires Provisioner.Decide(k, r).NeedHardware?
    ensures r.bmh == None
  {
  }

  // ---------------------------------------------------------------- instance writes

  lemma DeletingWriteIsOk(s: State, k: Key, r: Provisioner.Run)
    requires InstanceOk(s, k, r.bmi) && (Owns(s, k, r.bmi) ==> ActivePhase(r.bmi.phase))
    requires ProvisionerRunOk(s, k, r)
    requires r.bmi.deleting && r.bmi.phase != Cleaning && Provisioner.Decide(k, r).UpdateInstance?
    ensures InstanceWriteOk(EndProvisioner(s, k), k, r.bmi, Provisioner.Decide(k, r).bmi)
  {
  }

  lemma CleaningWriteIsOk(s: State, k: Key, r: Provisioner.Run)
    requires InstanceOk(s, k, r.bmi)
    requires ProvisionerRunOk(s, k, r)
    requires r.bmi.deleting && r.bmi.phase == Cleaning && Provisioner.Decide(k, r).UpdateInstance?
    ensures InstanceWriteOk(EndProvisioner(s, k), k, r.bmi, Provisioner.Decide(k, r).bmi)
  {
  }

  lemma ProvisioningWriteIsOk(s: State, k: Key, r: Provisioner.Run)
    requires InstanceOk(s, k, r.bmi) && (Owns(s, k, r.bmi) ==> ActivePhase(r.bmi.phase))
    requires ProvisionerRunOk(s, k, r)
    requires !r.bmi.deleting && Provisioner.Decide(k, r).UpdateInstance?
    ensures InstanceWriteOk(EndProvisioner(s, k), k, r.bmi, Provisioner.Decide(k, r).bmi)
  {
  }

  lemma DecidedWriteKeepsVersion(k: Key, r: Provisioner.Run)
    ensures var effect := Provisioner.Decide(k, r);
            effect.UpdateInstance? ==> effect.bmi.version == r.bmi.version
  {
  }

  lemma ProvisionerWriteKeepsInv(s: State, k: Key, r: Provisioner.Run)
    requires Inv(s) && k in s.provisionerRuns && r == s.provisionerRuns[k]
    requires Provisioner.Decide(k, r).UpdateInstance?
    ensures var s1 := EndProvisioner(s, k);
            Inv(s1.(api := WriteInstance(s1.api, k, Provisioner.Decide(k, r).bmi)))
  {
    var s1 := EndProvisioner(s, k);
    assert ProvisionerRunOk(s, k, r);
    if k in s.api.instances && s.api.instances[k] == r.bmi {
      InstanceFacts(s, k);
      if r.bmi.deleting && r.bmi.phase == Cleaning {
        CleaningWriteIsOk(s, k, r);
      } else if r.bmi.deleting {
        DeletingWriteIsOk(s, k, r);
      } else {
        ProvisioningWriteIsOk(s, k, r);
      }
    }
    DecidedWriteKeepsVersion(k, r);
    EndProvisionerKeepsInv(s, k);
    WriteInstanceKeepsInv(s1, k, r.bmi, Provisioner.Decide(k, r).bmi);
  }

  // ---------------------------------------------------------------- claims and releases

  /** What the provisioner knows when it writes a hardware object. */
  lemma HardwareEffect(k: Key, r: Provisioner.Run)
    requires Provisioner.Decide(k, r).UpdateHardware?
    ensures r.bmi.Is(InstanceScheduled, StatusTrue) && r.bmh.Some? && r.bmh.value.Some?
    ensures var bmh := r.bmh.value.value;
            if r.bmi.deleting then
              && r.bmi.phase == Cleaning && bmh.instanceRef.Some? && r.bmi.agentInfo.Some? && SawCleaned(r)
              && Provisioner.Decide(k, r).bmh == bmh.(instanceRef := None)
            else
              && r.bmi.phase == Provisioning && bmh.instanceRef.None? && !bmh.deleting
              && Provisioner.Decide(k, r).bmh == bmh.(instanceRef := Some(Provisioner.RefTo(k, r.bmi)))
  {
  }

  lemma ClaimIsClaim(s: State, k: Key, r: Provisioner.Run)
    requires ProvisionerRunOk(s, k, r) && Provisioner.Decide(k, r).UpdateHardware? && !r.bmi.deleting
    requires FreshHardware(s.api, Provisioner.HardwareKey(k, r.bmi), Provisioner.Decide(k, r).bmh)
    ensures var s1 := EndProvisioner(s, k);
            var hk := Provisioner.HardwareKey(k, r.bmi);
            IsClaim(s1, hk, k, AfterClaimOrRelease(s1, hk, Provisioner.Decide(k, r).bmh))
  {
    HardwareEffect(k, r);
  }

  lemma ReleaseIsRelease(s: State, k: Key, r: Provisioner.Run)
    requires ProvisionerRunOk(s, k, r) && MachinesBoundOk(s)
    requires Provisioner.Decide(k, r).UpdateHardware? && r.bmi.deleting
    requires FreshHardware(s.api, Provisioner.HardwareKey(k, r.bmi), Provisioner.Decide(k, r).bmh)
    ensures var s1 := EndProvisioner(s, k);
            var hk := Provisioner.HardwareKey(k, r.bmi);
            IsRelease(s1, hk, k, AfterClaimOrRelease(s1, hk, Provisioner.Decide(k, r).bmh))
  {
    HardwareEffect(k, r);
    var hk := Provisioner.HardwareKey(k, r.bmi);
    forall m | m in s.bound && s.bound[m] == hk
      ensures m !in s.dirty && !CleaningNow(s, m)
    {
      assert BoundOk(s, m);
    }
  }

  lemma ClaimOrReleaseKeepsInv(s: State, k: Key, r: Provisioner.Run)
    requires Inv(s) && k in s.provisionerRuns && r == s.provisionerRuns[k]
    requires Provisioner.Decide(k, r).UpdateHardware?
    ensures Inv(AfterClaimOrRelease(EndProvisioner(s, k), Provisioner.HardwareKey(k, r.bmi),
                                    Provisioner.Decide(k, r).bmh))
  {
    var hk := Provisioner.HardwareKey(k, r.bmi);
    var bmh := Provisioner.Decide(k, r).bmh;
    var s1 := EndProvisioner(s, k);
    EndProvisionerKeepsInv(s, k);
    assert ProvisionerRunOk(s, k, r);
    if FreshHardware(s.api, hk, bmh) {
      if r.bmi.deleting {
        ReleaseIsRelease(s, k, r);
        ReleaseKeepsInv(s1, hk, k, AfterClaimOrRelease(s1, hk, bmh));
      } else {
        ClaimIsClaim(s, k, r);
        ClaimKeepsInv(s1, hk, k, AfterClaimOrRelease(s1, hk, bmh));
      }
    }
  }

  // ---------------------------------------------------------------- action requests

  /** What the provisioner knows when it asks the agent for an action. */
  lemma PostEffect(k: Key, r: Provisioner.Run)
    requires var effect := Provisioner.Decide(k, r); effect.PostClean? || effect.PostImage?
    ensures r.bmi.Is(InstanceScheduled, StatusTrue) && r.bmi.agentInfo.Some? && r.bmh.Some? && r.bmh.value.Some?
    ensures r.bmh.value.value.instanceRef.Some?
    ensures r.bmi.phase == if Provisioner.Decide(k, r).PostImage? then Provisioning else Cleaning
  {
  }

  /** A request for an action, sent for the tenant of the machine. */
  ghost predicate TenantPosts(s: State, machine: string, t: ActionType, k: Key, s': State) {
    && k in s.api.instances && k !in s.provisionerRuns
    && var bmi := s.api.instances[k];
       && bmi.phase == (if t == Imaging then Provisioning else Cleaning)
       && Owns(s, k, bmi) && BoundTo(s, machine, Provisioner.HardwareKey(k, bmi))
       && s' == AfterPost(s, machine, t, bmi.uid)
  }

  /** The image on a machine, if any, is that of its tenant. */
  lemma DirtyOfTenant(s: State, machine: string, k: Key, bmi: Instance)
    requires MachineOk(s, machine) && Owns(s, k, bmi) && BoundTo(s, machine, Provisioner.HardwareKey(k, bmi))
    ensures machine in s.dirty ==> s.dirty[machine] == bmi.uid
  {
  }

  lemma PostKeepsImaged(s: State, machine: string, t: ActionType, k: Key, s': State, j: Key, bmi: Instance)
    requires TenantPosts(s, machine, t, k, s') && MachineOk(s, machine)
    requires ImagedBy(s, j, bmi)
    ensures ImagedBy(s', j, bmi)
  {
    DirtyOfTenant(s, machine, k, s.api.instances[k]);
  }

  lemma PostKeepsInstances(s: State, machine: string, t: ActionType, k: Key, s': State)
    requires TenantPosts(s, machine, t, k, s') && MachineOk(s, machine) && InstancesOk(s)
    ensures InstancesOk(s')
  {
    forall j | j in s'.api.instances ensures InstanceOk(s', j, s'.api.instances[j]) {
      assert InstanceOk(s, j, s.api.instances[j]);
      if ImagedBy(s, j, s.api.instances[j]) {
        PostKeepsImaged(s, machine, t, k, s', j, s.api.instances[j]);
      }
    }
  }

  lemma PostKeepsProvisioner(s: State, machine: string, t: ActionType, k: Key, s': State)
    requires TenantPosts(s, machine, t, k, s') && MachineOk(s, machine) && ProvisionerRunsOk(s)
    ensures ProvisionerRunsOk(s')
  {
    forall j | j in s'.provisionerRuns ensures ProvisionerRunOk(s', j, s'.provisionerRuns[j]) {
      var r := s.provisionerRuns[j];
      assert ProvisionerRunOk(s, j, r);
      if WorksOnHardware(r) && ImagedBy(s, j, r.bmi) {
        PostKeepsImaged(s, machine, t, k, s', j, r.bmi);
      }
    }
  }

  lemma PostKeepsMachines(s: State, machine: string, t: ActionType, k: Key, s': State)
    requires TenantPosts(s, machine, t, k, s') && MachinesOk(s)
    ensures MachinesOk(s')
  {
    forall m ensures MachineOk(s', m) {
      assert MachineOk(s, m);
    }
  }

  lemma PostKeepsInv(s: State, machine: string, t: ActionType, k: Key, s': State)
    requires Inv(s) && TenantPosts(s, machine, t, k, s')
    ensures Inv(s')
  {
    assert MachineOk(s, machine);
    MachineChangeKeepsRest(s, s');
    PostKeepsInstances(s, machine, t, k, s');
    PostKeepsProvisioner(s, machine, t, k, s');
    PostKeepsMachines(s, machine, t, k, s');
  }

  /** A run that read the instance as tenant of its hardware still has both where they were. */
  lemma TenantStays(s: State, k: Key, r: Provisioner.Run)
    requires ProvisionerRunOk(s, k, r) && WorksOnHardware(r) && r.bmi.agentInfo.Some?
    requires r.bmh.Some? && r.bmh.value.Some? && r.bmh.value.value.instanceRef.Some?
    ensures StillThere(s.api, k, r.bmi)
    ensures Owns(s, k, s.api.instances[k])
    ensures BoundTo(s, r.bmi.agentInfo.value, Provisioner.HardwareKey(k, s.api.instances[k]))
  {
  }

  lemma PostIsTenants(s: State, k: Key, r: Provisioner.Run)
    requires ProvisionerRunOk(s, k, r) && r.bmi.agentInfo.Some?
    requires Provisioner.Decide(k, r).PostClean? || Provisioner.Decide(k, r).PostImage?
    ensures var s1 := EndProvisioner(s, k);
            var t := Posted(k, r);
            TenantPosts(s1, r.bmi.agentInfo.value, t, k, AfterPost(s1, r.bmi.agentInfo.value, t, r.bmi.uid))
  {
    PostEffect(k, r);
    TenantStays(s, k, r);
  }

  lemma ProvisionerPostKeepsInv(s: State, k: Key, r: Provisioner.Run)
    requires Inv(s) && k in s.provisionerRuns && r == s.provisionerRuns[k] && r.bmi.agentInfo.Some?
    requires Provisioner.Decide(k, r).PostClean? || Provisioner.Decide(k, r).PostImage?
    ensures Inv(AfterPost(EndProvisioner(s, k), r.bmi.agentInfo.value, Posted(k, r), r.bmi.uid))
  {
    var s1 := EndProvisioner(s, k);
    var t := Posted(k, r);
    assert ProvisionerRunOk(s, k, r);
    PostIsTenants(s, k, r);
    EndProvisionerKeepsInv(s, k);
    PostKeepsInv(s1, r.bmi.agentInfo.value, t, k, AfterPost(s1, r.bmi.agentInfo.value, t, r.bmi.uid));
  }

  // ---------------------------------------------------------------- all steps

  lemma ProvisionerReadsKeepInv(s: State, e: Event, s': State)
    requires Inv(s) && ProvisionerReads(s, e, s')
    ensures Inv(s')
  {
    match e {
      case ProvisionerRead(k) => FirstReadKeepsInv(s, k);
      case ProvisionerReadHardware(k) =>
        AskedWhileUnknown(k, s.provisionerRuns[k]);
        HardwareReadKeepsInv(s, k, s.provisionerRuns[k]);
      case ProvisionerAskAgent(k) => AgentAnswerKeepsInv(s, k, s.provisionerRuns[k]);
      case ProvisionerNetwork(k, network) => NetworkAnswerKeepsInv(s, k, s.provisionerRuns[k], network);
    }
  }

  lemma ProvisionerActsKeepInv(s: State, e: Event, s': State)
    requires Inv(s) && ProvisionerActs(s, e, s')
    ensures Inv(s')
  {
    match e {
      case ProvisionerWrite(k) => ProvisionerWriteKeepsInv(s, k, s.provisionerRuns[k]);
      case ProvisionerClaimOrRelease(k) => ClaimOrReleaseKeepsInv(s, k, s.provisionerRuns[k]);
      case ProvisionerPost(k) => ProvisionerPostKeepsInv(s, k, s.provisionerRuns[k]);
      case AbortProvisioner(k) => EndProvisionerKeepsInv(s, k);
    }
  }
}
