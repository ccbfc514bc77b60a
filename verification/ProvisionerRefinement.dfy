// The reconcile of the provisioner and the transition system say the same, as far as instances,
// hardware and agents go: uninterrupted, it is a sequence of steps of Lifecycle.
module ProvisionerRefinement {
  import opened Common
  import opened Objects
  import opened Store
  import opened Agent
  import opened Lifecycle
  import opened LifecycleRefinement
  import Provisioner
  import ProvisionerController
  import Endpoints

  function Everything(s: State, reg: Endpoints.Registry, k: Key): Provisioner.Run
    requires k in s.api.instances
  {
    ProvisionerController.FullRun(s.api, s.boots, reg, k, s.api.instances[k])
  }

  /** What the pass ends with, and what it leaves alone. */
  ghost predicate ProvisionerResult(s: State, k: Key, reg: Endpoints.Registry, s': State)
    requires k in s.api.instances
  {
    var full := Everything(s, reg, k);
    var e := ProvisionerController.EffectOf(k, full, reg);
    && s'.api == ProvisionerController.ApplyTo(s.api, k, full, e)
    && s'.boots == ProvisionerController.SendTo(s.boots, full, e)
    && OnlyResult(s, s')
  }

  lemma LastStateIsResult(s: State, k: Key, r: Provisioner.Run, d: Provisioner.Effect)
    ensures var s' := LastState(s, k, r, d);
            && s'.api == ProvisionerController.ApplyTo(s.api, k, r, d)
            && s'.boots == ProvisionerController.SendTo(s.boots, r, d)
            && OnlyResult(s, s')
  {
    hide AfterClaimOrRelease, AfterPost, OnlyResult, WriteInstance, WriteHardware, Provisioner.PostTo;
    WriteIsWritten(s, s.api);
    if d.UpdateInstance? {
      WriteIsWritten(s, WriteInstance(s.api, k, d.bmi));
    } else if d.UpdateHardware? {
      ClaimIsWritten(s, Provisioner.HardwareKey(k, r.bmi), d.bmh);
    } else if (d.PostClean? || d.PostImage?) && r.bmi.agentInfo.Some? {
      PostIsSent(s, r.bmi.agentInfo.value, if d.PostImage? then Imaging else CleaningDisks, r.bmi.uid);
    }
  }

  lemma ProvisionerEnds(s: State, k: Key, reg: Endpoints.Registry, r: Provisioner.Run) returns (e: Event, s': State)
    requires k in s.api.instances && k !in s.provisionerRuns && r.bmi == s.api.instances[k]
    requires Provisioner.Decide(k, r) == Provisioner.Decide(k, Everything(s, reg, k))
    requires var d := Provisioner.Decide(k, r); !d.NeedHardware? && !d.NeedAgent? && !d.NeedNetwork?
    ensures Next(InFlight(s, k, r), e, s') && !ByUser(e) && ProvisionerResult(s, k, reg, s')
  {
    hide Next, InFlight, Provisioner.Decide, ProvisionerController.MakesData, ProvisionerController.DataFails;
    hide LastState, ProvisionerController.ApplyTo, ProvisionerController.SendTo;
    var full := Everything(s, reg, k);
    var d := ProvisionerController.EffectOf(k, full, reg);
    LastStepLeads(s, k, r, d);
    LastStateIsResult(s, k, r, d);
    OnlyInstanceMatters(s, k, r, full, d);
    e, s' := LastEvent(k, d), LastState(s, k, r, d);
  }

  lemma OnlyInstanceMatters(s: State, k: Key, r: Provisioner.Run, full: Provisioner.Run, d: Provisioner.Effect)
    requires r.bmi == full.bmi
    ensures ProvisionerController.ApplyTo(s.api, k, r, d) == ProvisionerController.ApplyTo(s.api, k, full, d)
    ensures ProvisionerController.SendTo(s.boots, r, d) == ProvisionerController.SendTo(s.boots, full, d)
  {
  }

  /** The pass asks for more, and gets it. */
  lemma ProvisionerAsks(s: State, k: Key, reg: Endpoints.Registry, r: Provisioner.Run) returns (e: Event, r': Provisioner.Run)
    requires k in s.api.instances && PartOf(r, Everything(s, reg, k))
    requires var d := Provisioner.Decide(k, r); d.NeedHardware? || d.NeedAgent? || d.NeedNetwork?
    ensures Next(InFlight(s, k, r), e, InFlight(s, k, r')) && !ByUser(e)
    ensures PartOf(r', Everything(s, reg, k)) && Unread(r') < Unread(r)
  {
    var full := Everything(s, reg, k);
    DecideOnDemand(k, r, full);
    hide Next, Provisioner.Decide, InFlight;
    var d := Provisioner.Decide(k, r);
    if d.NeedHardware? {
      ReadsHardware(s, k, r);
      e, r' := ProvisionerReadHardware(k), r.(bmh := full.bmh);
    } else if d.NeedAgent? {
      AsksAgent(s, k, r);
      e, r' := ProvisionerAskAgent(k), r.(agent := full.agent);
    } else {
      AsksNetwork(s, k, r, full.network.value);
      e, r' := ProvisionerNetwork(k, full.network.value), r.(network := full.network);
    }
  }

  lemma {:induction false} ProvisionerGoesOn(s: State, k: Key, reg: Endpoints.Registry, r: Provisioner.Run)
    returns (events: seq<Event>, s': State)
    requires k in s.api.instances && k !in s.provisionerRuns && PartOf(r, Everything(s, reg, k))
    ensures Leads(InFlight(s, k, r), events, s') && ProvisionerResult(s, k, reg, s')
    decreases Unread(r)
  {
    DecideOnDemand(k, r, Everything(s, reg, k));
    hide Next, Leads, ByUser, Provisioner.Decide, InFlight, ProvisionerResult;
    var d := Provisioner.Decide(k, r);
    if d.NeedHardware? || d.NeedAgent? || d.NeedNetwork? {
      var e, r' := ProvisionerAsks(s, k, reg, r);
      events, s' := ProvisionerGoesOn(s, k, reg, r');
      OneStep(InFlight(s, k, r), e, InFlight(s, k, r'), events, s');
      events := [e] + events;
    } else {
      var e;
      e, s' := ProvisionerEnds(s, k, reg, r);
      LastStep(InFlight(s, k, r), e, s');
      events := [e];
    }
  }

  /** ProvisionerReconciler.Reconcile in steps, as far as instances, hardware and agents go. */
  lemma ProvisionerReconcileInSteps(s: State, k: Key, reg: Endpoints.Registry) returns (events: seq<Event>, s': State)
    requires k in s.api.instances && k !in s.provisionerRuns
    ensures Leads(s, events, s') && ProvisionerResult(s, k, reg, s')
  {
    var r := Provisioner.Run(s.api.instances[k], None, None, None);
    ProvisionerStarts(s, k);
    hide Next, Leads, InFlight, ProvisionerResult;
    events, s' := ProvisionerGoesOn(s, k, reg, r);
    OneStep(s, ProvisionerRead(k), InFlight(s, k, r), events, s');
    events := [ProvisionerRead(k)] + events;
  }
}
