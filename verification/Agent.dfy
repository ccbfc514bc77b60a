// pkg/agent/manager.go: the agent that runs on a machine between two boots. It accepts one
// action per boot and reports on it for the rest of the boot.
module Agent {
  import opened Common

  datatype ActionType = Imaging | CleaningDisks

  // action.Status; failed stands for a non-empty error.
  datatype ActionStatus = ActionStatus(actionType: ActionType, done: bool, failed: bool)

  // One boot of a machine into the agent.
  datatype Boot = Boot(current: Option<ActionStatus>)

  const FRESH_BOOT := Boot(None)

  /** Whether a request is accepted (202) or refused as a conflict (409). */
  predicate Accepts(b: Boot) {
    b.current.None?
  }

  function Started(b: Boot, t: ActionType): Boot {
    if Accepts(b) then Boot(Some(ActionStatus(t, false, false))) else b
  }

  /** The disk work came to an end, with or without an error. */
  function Finished(b: Boot, failed: bool): Boot {
    if b.current.Some? && !b.current.value.done
    then Boot(Some(ActionStatus(b.current.value.actionType, true, failed)))
    else b
  }

  // What can happen to one boot, in any order.
  datatype AgentEvent = Request(actionType: ActionType) | Ends(failed: bool)

  function RunBoot(events: seq<AgentEvent>): Boot
    decreases |events|
  {
    if events == [] then FRESH_BOOT
    else
      var before := RunBoot(events[..|events| - 1]);
      match events[|events| - 1]
      case Request(t) => Started(before, t)
      case Ends(failed) => Finished(before, failed)
  }

  predicate IsFirstRequest(events: seq<AgentEvent>, i: nat) {
    i < |events| && events[i].Request? && forall j :: 0 <= j < i ==> !events[j].Request?
  }

  /** Event e is where the work requested by event i came to its end. */
  predicate IsEndOf(events: seq<AgentEvent>, i: nat, e: nat) {
    i < e < |events| && events[e].Ends? && forall j :: i < j < e ==> !events[j].Ends?
  }

  /** The outcome of the request at i, as far as there is one. */
  ghost predicate IsOutcome(events: seq<AgentEvent>, i: nat, status: ActionStatus) {
    if status.done then exists e: nat :: IsEndOf(events, i, e) && events[e].failed == status.failed
    else !status.failed && forall j :: i < j < |events| ==> !events[j].Ends?
  }

  /** What a status says about the history of the boot: nothing was requested, or the status is of
      the first request and tells how its work ended, if it did. */
  ghost predicate Tells(events: seq<AgentEvent>, status: Option<ActionStatus>) {
    match status
    case None => forall j :: 0 <= j < |events| ==> !events[j].Request?
    case Some(a) => exists i: nat :: IsFirstRequest(events, i) && a.actionType == events[i].actionType && IsOutcome(events, i, a)
  }

  class Manager {
    var currentAction: Option<ActionStatus>
    ghost var history: seq<AgentEvent>

    ghost function View(): Boot
      reads this
    {
      Boot(currentAction)
    }

    ghost predicate Valid()
      reads this
    {
      View() == RunBoot(history)
    }

    constructor ()
      ensures Valid() && history == [] && View() == FRESH_BOOT
    {
      currentAction, history := None, [];
    }

    method DoAction(actionType: ActionType) returns (accepted: bool)
      requires Valid()
      modifies this
      ensures Valid() && history == old(history) + [Request(actionType)]
      ensures accepted <==> Accepts(old(View()))
      ensures View() == Started(old(View()), actionType)
    {
      history := history + [Request(actionType)];
      assert history[..|history| - 1] == old(history);
      if currentAction == None {
        currentAction := Some(ActionStatus(actionType, false, false));
        return true;
      }
      return false;
    }

    /** The goroutine that does the work of the action comes to its end. */
    method ActionEnds(failed: bool)
      requires Valid()
      modifies this
      ensures Valid() && history == old(history) + [Ends(failed)]
    {
      history := history + [Ends(failed)];
      assert history[..|history| - 1] == old(history);
      if currentAction.Some? && !currentAction.value.done {
        currentAction := Some(currentAction.value.(done := true, failed := failed));
      }
    }

    method CurrentStatus() returns (status: Option<ActionStatus>)
      requires Valid()
      ensures Tells(history, status)
    {
      StatusTells(history);
      return currentAction;
    }
  }

  /** The status of a boot tells its history. */
  lemma {:induction false} StatusTells(events: seq<AgentEvent>)
    ensures Tells(events, RunBoot(events).current)
    decreases |events|
  {
    if events != [] {
      var rest := events[..|events| - 1];
      StatusTells(rest);
      assert forall j :: 0 <= j < |rest| ==> events[j] == rest[j];
      var before := RunBoot(rest).current;
      if before.None? {
        assert events[|rest|].Request? ==> IsFirstRequest(events, |rest|);
      } else {
        var i: nat :| IsFirstRequest(rest, i) && before.value.actionType == rest[i].actionType
                      && IsOutcome(rest, i, before.value);
        assert IsFirstRequest(events, i);
        OutcomeStays(rest, events[|rest|], i, before.value);
        assert rest + [events[|rest|]] == events;
      }
    }
  }

  lemma OutcomeStays(rest: seq<AgentEvent>, event: AgentEvent, i: nat, status: ActionStatus)
    requires i < |rest| && IsOutcome(rest, i, status)
    ensures event.Ends? && !status.done ==> IsOutcome(rest + [event], i, status.(done := true, failed := event.failed))
    ensures event.Request? || status.done ==> IsOutcome(rest + [event], i, status)
  {
    var events := rest + [event];
    if status.done {
      var e: nat :| IsEndOf(rest, i, e) && rest[e].failed == status.failed;
      assert IsEndOf(events, i, e);
    } else if event.Ends? {
      assert IsEndOf(events, i, |rest|);
    }
  }

  predicate AcceptedAt(events: seq<AgentEvent>, i: nat)
    requires i < |events|
  {
    events[i].Request? && Accepts(RunBoot(events[..i]))
  }

  /** In any history of one boot, the first request is the only one ever accepted, and the
      status reported from then on is the status of that request. */
  lemma {:induction false} OneActionPerBoot(events: seq<AgentEvent>, i: nat)
    requires i < |events|
    ensures AcceptedAt(events, i) <==> IsFirstRequest(events, i)
    ensures AcceptedAt(events, i) ==>
              RunBoot(events).current.Some? && RunBoot(events).current.value.actionType == events[i].actionType
  {
    FreeUntilFirstRequest(events[..i]);
    if AcceptedAt(events, i) {
      ActionStays(events, i);
    }
  }

  lemma {:induction false} FreeUntilFirstRequest(events: seq<AgentEvent>)
    ensures Accepts(RunBoot(events)) <==> forall j :: 0 <= j < |events| ==> !events[j].Request?
  {
    if events != [] {
      var rest := events[..|events| - 1];
      FreeUntilFirstRequest(rest);
      assert events == rest + [events[|events| - 1]];
    }
  }

  lemma {:induction false} ActionStays(events: seq<AgentEvent>, i: nat)
    requires i < |events| && AcceptedAt(events, i)
    ensures RunBoot(events).current.Some? && RunBoot(events).current.value.actionType == events[i].actionType
    decreases |events|
  {
    var rest := events[..|events| - 1];
    if i < |rest| {
      assert rest[..i] == events[..i];
      ActionStays(rest, i);
    }
  }
}
