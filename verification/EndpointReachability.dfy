// How the deletion of an endpoint gets to its end, unless the controllers skip it.
module EndpointReachability {
  import opened Common
  import opened Objects
  import opened Endpoints
  import opened EndpointRuns
  import opened EndpointInvariant
  import opened EndpointSteps
  import opened EndpointSafety
  import opened EndpointRefinement

  // ---------------------------------------------------------------- runs that go on

  function Last(states: seq<State>): State
    requires states != []
  {
    states[|states| - 1]
  }

  lemma Extend(states: seq<State>, events: seq<Event>, e: Event, s': State)
    requires IsRun(states, events) && Next(Last(states), e, s')
    ensures IsRun(states + [s'], events + [e])
  {
    hide Next;
    var states', events' := states + [s'], events + [e];
    forall i | 0 <= i < |events'|
      ensures StepAt(states', events', i)
    {
      if i < |events| {
        assert StepAt(states, events, i);
      }
    }
  }

  /** A run goes on with any events that lead on from its last state. */
  lemma {:induction false} Continue(states: seq<State>, events: seq<Event>, more: seq<Event>, s': State)
    returns (states': seq<State>)
    requires IsRun(states, events) && Leads(Last(states), more, s')
    ensures IsRun(states', events + more) && states <= states' && Last(states') == s'
    decreases |more|
  {
    hide Next;
    if more == [] {
      assert events + more == events;
      return states;
    }
    var s1 :| Next(Last(states), more[0], s1) && Leads(s1, more[1..], s');
    Extend(states, events, more[0], s1);
    states' := Continue(states + [s1], events + [more[0]], more[1..], s');
    assert events + [more[0]] + more[1..] == events + more;
  }

  lemma {:induction false} LeadsOn(s: State, first: seq<Event>, s1: State, second: seq<Event>, s': State)
    requires Leads(s, first, s1) && Leads(s1, second, s')
    ensures Leads(s, first + second, s')
    decreases |first|
  {
    hide Next;
    if first == [] {
      assert first + second == second;
    } else {
      var t :| Next(s, first[0], t) && Leads(t, first[1..], s1);
      LeadsOn(t, first[1..], s1, second, s');
      OneStep(s, first[0], t, first[1..] + second, s');
      assert [first[0]] + (first[1..] + second) == first + second;
    }
  }

  // ---------------------------------------------------------------- one more write

  /** The runs that could be in the way have ended. */
  function Calm(s: State, k: Key): State {
    var s1 := EndNetwork(s.(controlRuns := s.controlRuns - {k}), k);
    if s1.lock.Some? then EndNetwork(s1, s1.lock.value) else s1
  }

  lemma Aborts(s: State, k: Key)
    ensures Next(s, AbortControl(k), s.(controlRuns := s.controlRuns - {k}))
    ensures Next(s, AbortNetwork(k), EndNetwork(s, k))
  {
    assert ControlNext(s, AbortControl(k), s.(controlRuns := s.controlRuns - {k}));
    assert NetworkNext(s, AbortNetwork(k), EndNetwork(s, k));
  }

  lemma CalmsDown(s: State, k: Key) returns (events: seq<Event>)
    ensures Leads(s, events, Calm(s, k))
    ensures Calm(s, k).api == s.api
    ensures k !in Calm(s, k).networkRuns && k !in Calm(s, k).controlRuns && Calm(s, k).lock == None
  {
    hide Next, Leads;
    var s1 := s.(controlRuns := s.controlRuns - {k});
    var s2 := EndNetwork(s1, k);
    Aborts(s, k);
    Aborts(s1, k);
    LastStep(s1, AbortNetwork(k), s2);
    OneStep(s, AbortControl(k), s1, [AbortNetwork(k)], s2);
    events := [AbortControl(k)] + [AbortNetwork(k)];
    if s2.lock.Some? {
      Aborts(s2, s2.lock.value);
      LastStep(s2, AbortNetwork(s2.lock.value), Calm(s, k));
      LeadsOn(s, events, s2, [AbortNetwork(s2.lock.value)], Calm(s, k));
      events := events + [AbortNetwork(s2.lock.value)];
    }
  }

  /** What Network does next for a deleting endpoint, with what it would find now. */
  function NextWrite(c: Registry, k: Key): Endpoint
    requires k in c.endpoints && c.endpoints[k].deleting && !Skipped(c.endpoints[k]) && c.endpoints[k].phase != Deleted
  {
    Decide(c.endpoints[k], Some(NetworkAt(c, NetworkKey(k, c.endpoints[k])))).bme
  }

  lemma NextWriteIsRight(c: Registry, k: Key)
    requires k in c.endpoints && c.endpoints[k].deleting && !Skipped(c.endpoints[k]) && c.endpoints[k].phase != Deleted
    ensures var bme := c.endpoints[k];
            && Decide(bme, None).NeedNetwork?
            && Decide(bme, Some(NetworkAt(c, NetworkKey(k, bme)))) == UpdateEndpoint(NextWrite(c, k))
            && NextWrite(c, k).deleting && !Skipped(NextWrite(c, k)) && Rank(NextWrite(c, k)) < Rank(bme)
            && NextWrite(c, k).finalizers == bme.finalizers && NextWrite(c, k).version == bme.version
  {
  }

  /** The endpoint is being deleted, and not one the controllers skip. */
  predicate GoesAway(s: State, k: Key) {
    BeingDeleted(s, k) && !Skipped(s.api.endpoints[k])
  }

  /** Whatever is in flight, Network can get its next write for the deletion through. */
  lemma NetworkGetsThrough(s: State, k: Key) returns (pre: seq<Event>, s1: State, s': State)
    requires GoesAway(s, k) && s.api.endpoints[k].phase != Deleted && OwnFinalizer in s.api.endpoints[k].finalizers
    ensures Leads(s, pre, s1) && Next(s1, NetworkWrite(k), s')
    ensures Lands(s1, NetworkWrite(k), k)
    ensures GoesAway(s', k) && Rank(s'.api.endpoints[k]) < Rank(s.api.endpoints[k])
  {
    NextWriteIsRight(s.api, k);
    var bme, obj := s.api.endpoints[k], NextWrite(s.api, k);
    var calming := CalmsDown(s, k);
    var calm := Calm(s, k);
    var r0 := NetworkRun(bme, None, None);
    var r := NetworkRun(bme, Some(Found(calm, k)), None);
    NetworkReads(calm, k);
    NetworkFetches(calm, k);
    NetworkWrites(calm, k, r);
    s1, s' := EndpointRefinement.Pass(calm, k, r, None), calm.(api := WriteEndpoint(calm.api, k, obj));
    WriteStays(s.api, k, obj);
    hide Next, Leads, Decide, NextWrite, Skipped, Rank, WriteEndpoint, Calm;
    LastStep(EndpointRefinement.Pass(calm, k, r0, None), NetworkFetch(k), s1);
    OneStep(calm, NetworkRead(k), EndpointRefinement.Pass(calm, k, r0, None), [NetworkFetch(k)], s1);
    LeadsOn(s, calming, calm, [NetworkRead(k)] + [NetworkFetch(k)], s1);
    pre := calming + ([NetworkRead(k)] + [NetworkFetch(k)]);
  }

  lemma WriteStays(c: Registry, k: Key, obj: Endpoint)
    requires k in c.endpoints && obj.version == c.endpoints[k].version && obj.finalizers != {}
    ensures var c' := WriteEndpoint(c, k, obj);
            k in c'.endpoints && c'.endpoints[k] == obj.(version := c'.endpoints[k].version)
  {
  }

  lemma ControlWrites(s: State, k: Key)
    requires BeingDeleted(s, k) && s.api.endpoints[k].phase == Deleted && k !in s.controlRuns
    ensures var bme := s.api.endpoints[k];
            var s1 := s.(controlRuns := s.controlRuns[k := bme]);
            && ControlNext(s, ControlRead(k), s1)
            && ControlNext(s1, ControlWrite(k),
                           s.(api := WriteEndpoint(s.api, k, bme.(finalizers := bme.finalizers - {OwnFinalizer}))))
  {
    hide WriteEndpoint;
    assert s.controlRuns[k := s.api.endpoints[k]] - {k} == s.controlRuns;
  }

  lemma ReleaseStored(c: Registry, k: Key)
    requires k in c.endpoints
    ensures var bme := c.endpoints[k];
            var c' := WriteEndpoint(c, k, bme.(finalizers := bme.finalizers - {OwnFinalizer}));
            k in c'.endpoints ==>
              c'.endpoints[k] == bme.(finalizers := bme.finalizers - {OwnFinalizer}, version := c'.endpoints[k].version)
  {
  }

  /** Controller lets go of a deleted endpoint. */
  lemma ControlLetsGo(s: State, k: Key) returns (events: seq<Event>, s': State)
    requires BeingDeleted(s, k) && s.api.endpoints[k].phase == Deleted
    ensures Leads(s, events, s')
    ensures k in s'.api.endpoints ==>
              var bme := s.api.endpoints[k];
              s'.api.endpoints[k] ==
                bme.(finalizers := bme.finalizers - {OwnFinalizer}, version := s'.api.endpoints[k].version)
  {
    var calming := CalmsDown(s, k);
    var calm, bme := Calm(s, k), s.api.endpoints[k];
    ControlWrites(calm, k);
    ReleaseStored(s.api, k);
    hide Calm, Leads, ControlNext, UserNext, WorldNext, NetworkNext, NicsNext, WriteEndpoint;
    var s1 := calm.(controlRuns := calm.controlRuns[k := bme]);
    s' := calm.(api := WriteEndpoint(calm.api, k, bme.(finalizers := bme.finalizers - {OwnFinalizer})));
    LastStep(s1, ControlWrite(k), s');
    OneStep(calm, ControlRead(k), s1, [ControlWrite(k)], s');
    LeadsOn(s, calming, calm, [ControlRead(k)] + [ControlWrite(k)], s');
    events := calming + ([ControlRead(k)] + [ControlWrite(k)]);
  }

  // ---------------------------------------------------------------- to the end

  ghost predicate GoesOn(states: seq<State>, events: seq<Event>, states': seq<State>, events': seq<Event>) {
    IsRun(states', events') && states <= states' && events <= events'
  }

  /** In every run, the deletion of an endpoint that is not skipped and not done can be continued so
      that a write of Network gets through and brings it closer to its end. */
  lemma DeletionMovesOn(states: seq<State>, events: seq<Event>, k: Key) returns (states': seq<State>, events': seq<Event>)
    requires IsRun(states, events) && GoesAway(Last(states), k) && Last(states).api.endpoints[k].phase != Deleted
    ensures GoesOn(states, events, states', events') && |events'| > |events|
    ensures Lands(states'[|events'| - 1], events'[|events'| - 1], k)
    ensures GoesAway(Last(states'), k)
    ensures Rank(Last(states').api.endpoints[k]) < Rank(Last(states).api.endpoints[k])
  {
    InvInEveryRun(states, events, |events|);
    HeldUntilDeleted(Last(states), k);
    hide Inv, Next, Leads, Lands, GoesAway, Rank;
    var pre, s1, s' := NetworkGetsThrough(Last(states), k);
    var states1 := Continue(states, events, pre, s1);
    assert |states1| == |events + pre| + 1;
    hide IsRun;
    Extend(states1, events + pre, NetworkWrite(k), s');
    states', events' := states1 + [s'], events + pre + [NetworkWrite(k)];
  }

  lemma HeldUntilDeleted(s: State, k: Key)
    requires Inv(s) && k in s.api.endpoints
    ensures s.api.endpoints[k].phase != Deleted ==> OwnFinalizer in s.api.endpoints[k].finalizers
    ensures s.api.endpoints[k].phase == Deleted ==> s.api.endpoints[k].address.None?
  {
    assert EndpointOk(s.api, s.home, s.api.endpoints[k]);
  }

  /** The controllers are done: the endpoint is gone, or Deleted without an address, and only
      somebody else's finalizer keeps it. */
  predicate IsOver(s: State, k: Key) {
    k in s.api.endpoints ==>
      var bme := s.api.endpoints[k];
      bme.deleting && bme.phase == Deleted && bme.address.None? && OwnFinalizer !in bme.finalizers
  }

  lemma LastStage(states: seq<State>, events: seq<Event>, k: Key) returns (states': seq<State>, events': seq<Event>)
    requires IsRun(states, events) && GoesAway(Last(states), k) && Last(states).api.endpoints[k].phase == Deleted
    ensures GoesOn(states, events, states', events') && IsOver(Last(states'), k)
  {
    InvInEveryRun(states, events, |events|);
    HeldUntilDeleted(Last(states), k);
    hide Inv, Next, Leads;
    var more, s' := ControlLetsGo(Last(states), k);
    states' := Continue(states, events, more, s');
    events' := events + more;
    hide IsRun;
  }

  /** In every run, the deletion of an endpoint can be continued to its end, unless the controllers
      skip it, which then is so for good. */
  lemma {:induction false} DeletedIsReached(states: seq<State>, events: seq<Event>, k: Key)
    returns (states': seq<State>, events': seq<Event>)
    requires IsRun(states, events) && GoesAway(Last(states), k)
    ensures GoesOn(states, events, states', events') && IsOver(Last(states'), k)
    decreases Rank(Last(states).api.endpoints[k])
  {
    if Last(states).api.endpoints[k].phase == Deleted {
      states', events' := LastStage(states, events, k);
    } else {
      states', events' := DeletionMovesOn(states, events, k);
      hide IsRun, GoesAway, Rank, IsOver;
      states', events' := DeletedIsReached(states', events', k);
    }
  }
}
