// webhooks/baremetalinstance_webhook.go: which creates and updates of instances are admitted.
module InstanceWebhook {
  import opened Common
  import opened Objects

  // What is wrong with an instance. An agent is modelled by its machine, so its IP parses.
  datatype InstanceError =
    | HardwareNameOnCreate
    | AgentOnCreate
    | PhaseEmptied
    | ConditionRemoved(conditionType: InstanceConditionType)
    | SelectorChanged
    | TolerationsChanged
    | AgentInPhase
    | HardwareNameChanged

  predicate RejectsCreate(bmi: Instance, e: InstanceError) {
    match e
    case HardwareNameOnCreate => bmi.hardwareName != ""
    case AgentOnCreate => bmi.agentInfo.Some?
    case _ => false
  }

  /** An agent is only expected on a machine that is being provisioned or cleaned. */
  predicate AgentAllowed(bmi: Instance) {
    bmi.agentInfo.Some? ==> bmi.phase == Provisioning || bmi.phase == Cleaning
  }

  predicate RejectsUpdate(was: Instance, now: Instance, e: InstanceError) {
    match e
    case PhaseEmptied => was.phase != NoPhase && now.phase == NoPhase
    case ConditionRemoved(t) => t in was.conditions && t !in now.conditions
    case SelectorChanged => now.selector != was.selector
    case TolerationsChanged => now.tolerations != was.tolerations
    case AgentInPhase => !AgentAllowed(now)
    case HardwareNameChanged => !now.deleting && was.hardwareName != "" && now.hardwareName != was.hardwareName
    case _ => false
  }

  /** An update of the main resource that is let through. */
  predicate Admitted(was: Instance, now: Instance) {
    && (now.phase == NoPhase ==> was.phase == NoPhase)
    && (forall t :: t in was.conditions ==> t in now.conditions)
    && now.selector == was.selector && now.tolerations == was.tolerations
    && AgentAllowed(now)
    && (now.deleting || was.hardwareName == "" || now.hardwareName == was.hardwareName)
  }

  class BareMetalInstanceWebhook {

    method ValidateCreate(bmi: Instance) returns (allErrs: seq<InstanceError>)
      ensures forall e :: e in allErrs <==> RejectsCreate(bmi, e)
    {
      allErrs := [];
      if |bmi.hardwareName| > 0 {
        allErrs := allErrs + [HardwareNameOnCreate];
      }
      if bmi.agentInfo != None {
        allErrs := allErrs + [AgentOnCreate];
      }
    }

    method RemovedConditions(now: Instance, was: Instance) returns (allErrs: seq<InstanceError>)
      ensures forall e :: e in allErrs <==>
                e.ConditionRemoved? && e.conditionType in was.conditions && e.conditionType !in now.conditions
    {
      allErrs := [];
      var rest := was.conditions.Keys;
      while rest != {}
        invariant rest <= was.conditions.Keys
        invariant forall e :: e in allErrs <==>
                    e.ConditionRemoved? && e.conditionType in was.conditions.Keys - rest && e.conditionType !in now.conditions
        decreases rest
      {
        var t :| t in rest;
        rest := rest - {t};
        if t !in now.conditions {
          allErrs := allErrs + [ConditionRemoved(t)];
        }
      }
    }

    /** The checks of what never changes once it is set. */
    method ChangedFields(now: Instance, was: Instance) returns (allErrs: seq<InstanceError>)
      ensures forall e :: e in allErrs <==>
                (e.SelectorChanged? || e.TolerationsChanged? || e.HardwareNameChanged?) && RejectsUpdate(was, now, e)
    {
      allErrs := [];
      if now.selector != was.selector {
        allErrs := allErrs + [SelectorChanged];
      }
      if now.tolerations != was.tolerations {
        allErrs := allErrs + [TolerationsChanged];
      }
      if !now.deleting {
        if |was.hardwareName| > 0 && now.hardwareName != was.hardwareName {
          allErrs := allErrs + [HardwareNameChanged];
        }
      }
    }

    /** Every error is reported, and nothing else; the update is let through exactly without one. */
    method ValidateUpdate(now: Instance, was: Instance) returns (allErrs: seq<InstanceError>)
      ensures forall e :: e in allErrs <==> RejectsUpdate(was, now, e)
      ensures allErrs == [] <==> Admitted(was, now)
    {
      hide Admitted;
      allErrs := [];
      if was.phase != NoPhase && now.phase == NoPhase {
        allErrs := allErrs + [PhaseEmptied];
      }
      var removed := RemovedConditions(now, was);
      allErrs := allErrs + removed;
      var changed := ChangedFields(now, was);
      allErrs := allErrs + changed;
      if now.agentInfo != None {
        if now.phase != Provisioning && now.phase != Cleaning {
          allErrs := allErrs + [AgentInPhase];
        }
      }
      NoErrorIsAdmitted(was, now);
      assert allErrs != [] ==> allErrs[0] in allErrs;
    }

    /** An instance that is not being deleted gets the finalizer. */
    method Default(deleting: bool, finalizers: set<Finalizer>) returns (after: set<Finalizer>)
      ensures after == if deleting then finalizers else finalizers + {OwnFinalizer}
    {
      after := finalizers;
      if !deleting {
        if OwnFinalizer !in finalizers {
          after := finalizers + {OwnFinalizer};
        }
      }
    }
  }

  lemma NoErrorIsAdmitted(was: Instance, now: Instance)
    ensures Admitted(was, now) <==> forall e :: !RejectsUpdate(was, now, e)
  {
    if forall e :: !RejectsUpdate(was, now, e) {
      assert !RejectsUpdate(was, now, PhaseEmptied) && !RejectsUpdate(was, now, AgentInPhase);
      assert !RejectsUpdate(was, now, SelectorChanged) && !RejectsUpdate(was, now, TolerationsChanged);
      assert !RejectsUpdate(was, now, HardwareNameChanged);
      forall t | t in was.conditions ensures t in now.conditions {
        assert !RejectsUpdate(was, now, ConditionRemoved(t));
      }
    }
  }
}
