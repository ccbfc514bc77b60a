// Which deletions can end, exactly: what an agent that was left behind means.
module LifecycleLingering {
  import opened Common
  import opened Objects
  import opened Store
  import opened Lifecycle
  import opened LifecycleInvariant
  import opened LifecycleSafety
  import opened LifecycleDeletion
  import opened LifecycleReachability
  import opened LifecycleRefinement
  import opened LifecycleCleaning
  import opened LifecycleLingeringSteps
  import Provisioner

  lemma LingersFrom(s: State, k: Key)
    requires Inv(s) && k in s.api.instances && s.api.instances[k].deleting && AgentLingers(s.api.instances[k])
    ensures Lingers(s.api, k, s.api.instances[k].uid)
  {
    assert InstanceOk(s, k, s.api.instances[k]);
  }

  /** An agent that is still on a deleting instance past its cleaning stays there, whatever users
      do: from then on, in every run, the instance keeps it and the finalizer of its controllers. */
  lemma {:induction false} LingeringAgentStays(states: seq<State>, events: seq<Event>, i: nat, j: nat, k: Key)
    requires IsRun(states, events) && i <= j < |states|
    requires k in states[i].api.instances && states[i].api.instances[k].deleting
    requires AgentLingers(states[i].api.instances[k])
    ensures Lingers(states[j].api, k, states[i].api.instances[k].uid)
    decreases j
  {
    hide Inv, Next, Lingers, AgentLingers;
    if i == j {
      InvInEveryRun(states, events, i);
      LingersFrom(states[i], k);
    } else {
      LingeringAgentStays(states, events, i, j - 1, k);
      InvInEveryRun(states, events, j - 1);
      assert StepAt(states, events, j - 1);
      NextLeavesLingering(states[j - 1], events[j - 1], states[j], k, states[i].api.instances[k].uid);
    }
  }

  lemma LostFrom(s: State, k: Key)
    requires Inv(s) && k in s.api.instances && s.api.instances[k].deleting
    requires HardwareLost(s.api, k, s.api.instances[k]) && !SawFree(s, k)
    ensures Forsaken(s, k, s.api.instances[k].uid, Provisioner.HardwareKey(k, s.api.instances[k]))
  {
    assert InstanceOk(s, k, s.api.instances[k]);
    hide SawFree;
  }

  /** An instance with an agent whose hardware went away before its cleaning was found done keeps an
      agent as long as no user does anything, unless a pass in flight saw the hardware free. */
  lemma {:induction false} LostHardwareStaysLost(states: seq<State>, events: seq<Event>, i: nat, j: nat, k: Key)
    requires IsRun(states, events) && i <= j < |states|
    requires k in states[i].api.instances && states[i].api.instances[k].deleting
    requires HardwareLost(states[i].api, k, states[i].api.instances[k]) && !SawFree(states[i], k)
    requires forall t :: i <= t < j ==> !ByUser(events[t])
    ensures Forsaken(states[j], k, states[i].api.instances[k].uid, Provisioner.HardwareKey(k, states[i].api.instances[k]))
    decreases j
  {
    var bmi := states[i].api.instances[k];
    hide Inv, Next, Forsaken, HardwareLost, SawFree, ByUser;
    if i == j {
      InvInEveryRun(states, events, i);
      LostFrom(states[i], k);
    } else {
      LostHardwareStaysLost(states, events, i, j - 1, k);
      InvInEveryRun(states, events, j - 1);
      assert StepAt(states, events, j - 1);
      NextKeepsForsaken(states[j - 1], events[j - 1], states[j], k, bmi.uid, Provisioner.HardwareKey(k, bmi));
    }
  }

  // ---------------------------------------------------------------- the ends that are in reach

  /** Some continuation of the run brings the deletion to its end. */
  ghost predicate CanEnd(states: seq<State>, events: seq<Event>, k: Key)
    requires states != []
  {
    exists states', events' :: GoesOn(states, events, states', events', k) && Ended(Last(states'), k)
  }

  /** Some continuation without users does. */
  ghost predicate CanEndUnaided(states: seq<State>, events: seq<Event>, k: Key)
    requires states != []
  {
    exists states', events' ::
      GoesOn(states, events, states', events', k) && Unaided(events, events') && Ended(Last(states'), k)
  }

  lemma LastIsIn(states: seq<State>, events: seq<Event>, states': seq<State>, events': seq<Event>, k: Key)
    requires IsRun(states, events) && GoesOn(states, events, states', events', k)
    ensures |states| - 1 == |events| <= |events'| == |states'| - 1
    ensures states'[|events|] == Last(states) && Last(states') == states'[|events'|]
  {
  }

  lemma StuckNeverEnds(states: seq<State>, events: seq<Event>, k: Key)
    requires IsRun(states, events)
    requires k in Last(states).api.instances && Last(states).api.instances[k].deleting
    requires CleaningFailed(Last(states).api.instances[k]) || AgentLingers(Last(states).api.instances[k])
    ensures !CanEnd(states, events, k)
  {
    forall states', events' | GoesOn(states, events, states', events', k) ensures !Ended(Last(states'), k) {
      LastIsIn(states, events, states', events', k);
      hide IsRun;
      if CleaningFailed(Last(states).api.instances[k]) {
        FailedCleaningIsFinal(states', events', |events|, |events'|, k);
      } else {
        LingeringAgentStays(states', events', |events|, |events'|, k);
      }
    }
  }

  lemma LostNeverEndsUnaided(states: seq<State>, events: seq<Event>, k: Key)
    requires IsRun(states, events)
    requires k in Last(states).api.instances && Last(states).api.instances[k].deleting
    requires HardwareLost(Last(states).api, k, Last(states).api.instances[k]) && !SawFree(Last(states), k)
    ensures !CanEndUnaided(states, events, k)
  {
    forall states', events' | GoesOn(states, events, states', events', k) && Unaided(events, events')
      ensures !Ended(Last(states'), k)
    {
      LastIsIn(states, events, states', events', k);
      hide IsRun, SawFree;
      LostHardwareStaysLost(states', events', |events|, |events'|, k);
    }
  }

  // ---------------------------------------------------------------- the ways there

  /** The pass that saw the hardware free marks the instance as cleaned. */
  lemma MarkedAsCleaned(s: State, k: Key) returns (s': State)
    requires k in s.api.instances && s.api.instances[k].deleting && InstanceOk(s, k, s.api.instances[k])
    requires HardwareLost(s.api, k, s.api.instances[k]) && SawFree(s, k)
    requires ProvisionerRunOk(s, k, s.provisionerRuns[k])
    ensures Next(s, ProvisionerWrite(k), s') && StillDeleted(s.api, s'.api, k)
    ensures k in s'.api.instances && PastCleaning(s', k, s'.api.instances[k]) && Clear(s'.api, k)
  {
    var r := s.provisionerRuns[k];
    MarksLast(k, r);
    hide Provisioner.Decide, HardwareWorkOk;
    var obj := s.api.instances[k].SetCondition(InstanceCleaned, StatusTrue);
    var s1 := EndProvisioner(s, k);
    s' := s1.(api := WriteInstance(s1.api, k, obj));
    hide InstanceShape, Owns;
    assert ProvisionerActs(s, ProvisionerWrite(k), s');
    hide ProvisionerActs;
  }

  lemma MarksLast(k: Key, r: Provisioner.Run)
    requires r.bmi.deleting && r.bmi.phase == Cleaning && !r.bmi.Is(InstanceCleaned, StatusTrue)
    requires Provisioner.Decide(k, r).UpdateInstance? && Provisioner.Decide(k, r).bmi.Is(InstanceCleaned, StatusTrue)
    ensures Provisioner.Decide(k, r).bmi == r.bmi.SetCondition(InstanceCleaned, StatusTrue)
  {
  }

  lemma LostEndsIfSeen(states: seq<State>, events: seq<Event>, k: Key)
    requires IsRun(states, events)
    requires k in Last(states).api.instances && Last(states).api.instances[k].deleting
    requires HardwareLost(Last(states).api, k, Last(states).api.instances[k]) && SawFree(Last(states), k)
    ensures CanEndUnaided(states, events, k)
  {
    InvInEveryRun(states, events, |events|);
    assert InstanceOk(Last(states), k, Last(states).api.instances[k]);
    assert ProvisionerRunOk(Last(states), k, Last(states).provisionerRuns[k]);
    hide Inv, IsRun, HardwareLost, SawFree, PastCleaning, Clear, Next, InstanceOk, ProvisionerRunOk, Ended;
    var s' := MarkedAsCleaned(Last(states), k);
    Extend(states, events, ProvisionerWrite(k), s');
    var states', events' := TerminatedIsReached(states + [s'], events + [ProvisionerWrite(k)], k);
    assert GoesOn(states, events, states', events', k) && Unaided(events, events');
  }

  /** Hardware that anybody could create. */
  function Plain(): Hardware {
    Hardware(0, false, {OwnFinalizer}, map[], "", false, "", [], [], map[], None, None)
  }

  /** A user creates hardware with the name of the one that is gone. */
  lemma Recreated(s: State, k: Key) returns (s': State)
    requires Inv(s) && k in s.api.instances && s.api.instances[k].deleting
    requires HardwareLost(s.api, k, s.api.instances[k])
    ensures Next(s, CreateHardware(Provisioner.HardwareKey(k, s.api.instances[k]), Plain()), s')
    ensures s'.api.instances == s.api.instances && Clear(s'.api, k)
    ensures AgentCanBeFound(s', k, s.api.instances[k])
  {
    assert InstanceOk(s, k, s.api.instances[k]);
    hide Inv;
    var hk := Provisioner.HardwareKey(k, s.api.instances[k]);
    s' := s.(api := PutHardware(s.api, hk, Plain()));
    assert UserNext(s, CreateHardware(hk, Plain()), s');
    hide UserNext;
  }

  lemma LostEndsWithUsers(states: seq<State>, events: seq<Event>, k: Key)
    requires IsRun(states, events)
    requires k in Last(states).api.instances && Last(states).api.instances[k].deleting
    requires !CleaningFailed(Last(states).api.instances[k])
    requires HardwareLost(Last(states).api, k, Last(states).api.instances[k])
    ensures CanEnd(states, events, k)
  {
    InvInEveryRun(states, events, |events|);
    hide Inv, IsRun, HardwareLost, CleaningFailed, Clear, Next, AgentCanBeFound;
    var s' := Recreated(Last(states), k);
    var e := CreateHardware(Provisioner.HardwareKey(k, Last(states).api.instances[k]), Plain());
    Extend(states, events, e, s');
    var states', events' := DeletionCanEnd(states + [s'], events + [e], k);
    assert GoesOn(states, events, states', events', k);
  }

  /** Exactly which deletions can end, if the machine of claimed hardware can be told: with users,
      those whose cleaning did not fail and that are not past it with an agent; without users, those
      that in addition did not lose their hardware with an agent on them, unless a pass in flight
      saw the hardware free. */
  lemma DeletionEndsIff(states: seq<State>, events: seq<Event>, k: Key)
    requires IsRun(states, events)
    requires k in Last(states).api.instances && Last(states).api.instances[k].deleting
    requires AgentCanBeFound(Last(states), k, Last(states).api.instances[k])
    ensures var s, bmi := Last(states), Last(states).api.instances[k];
            && (CanEnd(states, events, k) <==> !CleaningFailed(bmi) && !AgentLingers(bmi))
            && (CanEndUnaided(states, events, k) <==>
                  !CleaningFailed(bmi) && !AgentLingers(bmi) && (HardwareLost(s.api, k, bmi) ==> SawFree(s, k)))
  {
    var s, bmi := Last(states), Last(states).api.instances[k];
    hide IsRun, CleaningFailed, HardwareLost, SawFree, AgentCanBeFound, Ended, ByUser;
    if CleaningFailed(bmi) || AgentLingers(bmi) {
      StuckNeverEnds(states, events, k);
    } else if HardwareLost(s.api, k, bmi) {
      LostEndsWithUsers(states, events, k);
      if SawFree(s, k) {
        LostEndsIfSeen(states, events, k);
      } else {
        LostNeverEndsUnaided(states, events, k);
      }
    } else {
      var states', events' := DeletionCanEnd(states, events, k);
      assert GoesOn(states, events, states', events', k);
    }
  }
}
