// What a pass of the provisioner over the NICs saw, and when: every endpoint it counts as seen was,
// at a moment of that very pass, the one endpoint of its NIC, and addressed.
module EndpointPasses {
  import opened Common
  import opened Endpoints
  import opened Networking
  import opened EndpointRuns
  import opened EndpointInvariant
  import opened EndpointSteps
  import Allocator
  import Networks

  /** The runs belong to one pass. */
  predicate SamePass(a: NicRun, b: NicRun) {
    a.uid == b.uid && a.nics == b.nics && a.found == b.found
  }

  /** From moment m to moment i the same pass for instance k is in flight. */
  predicate InPass(states: seq<State>, k: Key, m: nat, i: nat)
    requires i < |states|
  {
    m <= i && k in states[i].nicRuns &&
    forall j :: m <= j <= i ==> k in states[j].nicRuns && SamePass(states[j].nicRuns[k], states[i].nicRuns[k])
  }

  lemma PassGoesOn(states: seq<State>, k: Key, m: nat, i: nat)
    requires 0 < i < |states| && InPass(states, k, m, i - 1)
    requires k in states[i].nicRuns && SamePass(states[i - 1].nicRuns[k], states[i].nicRuns[k])
    ensures InPass(states, k, m, i)
  {
  }

  lemma PassBegan(states: seq<State>, k: Key, i: nat)
    requires 0 < i < |states| && k in states[i - 1].nicRuns && k in states[i].nicRuns
    requires SamePass(states[i - 1].nicRuns[k], states[i].nicRuns[k])
    ensures InPass(states, k, i - 1, i)
  {
  }

  /** In c the NIC has exactly this endpoint, and it is addressed. */
  predicate OnlyAddressed(c: Registry, instance: string, uid: nat, nic: string, bme: Key) {
    OwnedKeys(c, instance, uid, nic) == {bme} && bme in c.endpoints && c.endpoints[bme].phase == Addressed
  }

  /** Moment m of the pass is one at which the endpoint seen for NIC n was its only one, addressed. */
  predicate SeenAt(states: seq<State>, i: nat, k: Key, n: nat, m: nat)
    requires i < |states|
  {
    && InPass(states, k, m, i)
    && var r := states[i].nicRuns[k];
       && n < |r.seen| && n < |r.nics|
       && OnlyAddressed(states[m].api, k.name, r.uid, r.nics[n].name, r.seen[n])
  }

  /** Moment m of the pass is the one of its listing. */
  predicate ListedAt(states: seq<State>, i: nat, k: Key, m: nat)
    requires i < |states|
  {
    && InPass(states, k, m, i)
    && var r := states[i].nicRuns[k];
       && |r.seen| < |r.nics|
       && r.listed == Some(OwnedListing(states[m].api, k.name, r.uid, r.nics[|r.seen|].name))
  }

  /** What a step does to the pass of instance k. */
  predicate PassStep(s: State, e: Event, s': State, k: Key) {
    k in s'.nicRuns ==>
      var r' := s'.nicRuns[k];
      || (r'.seen == [] && r'.listed == None)
      || (k in s.nicRuns && SamePass(s.nicRuns[k], r') &&
           var r := s.nicRuns[k];
           || r' == r
           || (|r.seen| < |r.nics| && r'.seen == r.seen
               && r'.listed == Some(OwnedListing(s.api, k.name, r.uid, r.nics[|r.seen|].name)))
           || (r.listed.Some? && r'.listed == None && |r'.seen| == |r.seen| + 1 && r'.seen[..|r.seen|] == r.seen
               && r.listed.value.Keys == {r'.seen[|r.seen|]} && r.listed.value[r'.seen[|r.seen|]].phase == Addressed))
  }

  lemma NicsPassStep(s: State, e: Event, s': State, k: Key)
    requires NicsNext(s, e, s')
    ensures PassStep(s, e, s', k)
  {
    hide Macs, OwnedListing;
  }

  lemma OthersKeepPasses(s: State, e: Event, s': State)
    requires UserNext(s, e, s') || WorldNext(s, e, s') || NetworkNext(s, e, s') || ControlNext(s, e, s')
    ensures s'.nicRuns == s.nicRuns
  {
    hide Decide, Networks.Admissible, Allocator.IsNext;
  }

  lemma NextPassStep(s: State, e: Event, s': State, k: Key)
    requires Next(s, e, s')
    ensures PassStep(s, e, s', k)
  {
    hide UserNext, WorldNext, NetworkNext, ControlNext, NicsNext, OwnedListing;
    if NicsNext(s, e, s') {
      NicsPassStep(s, e, s', k);
    } else {
      OthersKeepPasses(s, e, s');
    }
  }

  /** A listing shows the endpoints of the NIC at a moment of the pass. */
  lemma {:induction false} ListingWasTrue(states: seq<State>, events: seq<Event>, i: nat, k: Key) returns (m: nat)
    requires IsRun(states, events) && i < |states| && k in states[i].nicRuns && states[i].nicRuns[k].listed.Some?
    ensures m <= i && ListedAt(states, i, k, m)
  {
    hide Next, OwnedListing, InPass;
    if i > 0 {
      assert StepAt(states, events, i - 1);
      NextPassStep(states[i - 1], events[i - 1], states[i], k);
      if states[i].nicRuns[k] == states[i - 1].nicRuns[k] {
        m := ListingWasTrue(states, events, i - 1, k);
        PassGoesOn(states, k, m, i);
      } else {
        m := i - 1;
        PassBegan(states, k, i);
      }
    }
  }

  lemma ListedOnly(c: Registry, instance: string, uid: nat, nic: string, bme: Key)
    requires OwnedListing(c, instance, uid, nic).Keys == {bme}
    requires OwnedListing(c, instance, uid, nic)[bme].phase == Addressed
    ensures OnlyAddressed(c, instance, uid, nic, bme)
  {
    assert OwnedListing(c, instance, uid, nic).Keys == OwnedKeys(c, instance, uid, nic);
    assert bme in OwnedKeys(c, instance, uid, nic);
  }

  /** Every endpoint a pass counts as seen was, at a moment of the pass, the only endpoint of its
      NIC, and addressed. */
  lemma {:induction false} SeenWasAddressed(states: seq<State>, events: seq<Event>, i: nat, k: Key, n: nat)
    returns (m: nat)
    requires IsRun(states, events) && i < |states| && k in states[i].nicRuns && n < |states[i].nicRuns[k].seen|
    ensures m <= i && SeenAt(states, i, k, n, m)
  {
    hide Next, OwnedListing, InPass, OnlyAddressed;
    if i > 0 {
      assert StepAt(states, events, i - 1);
      NextPassStep(states[i - 1], events[i - 1], states[i], k);
      var r, r' := states[i - 1].nicRuns[k], states[i].nicRuns[k];
      if n < |r.seen| {
        m := SeenWasAddressed(states, events, i - 1, k, n);
        assert r'.seen[n] == r.seen[n];
      } else {
        m := ListingWasTrue(states, events, i - 1, k);
        ListedOnly(states[m].api, k.name, r.uid, r.nics[n].name, r'.seen[n]);
      }
      PassGoesOn(states, k, m, i);
    }
  }

  /** When the networked condition turns true, every NIC that was read had exactly one endpoint of
      the instance, addressed, at a moment of the pass; whatever endpoint there is for the NIC now
      is that one, and unless it is being deleted it is addressed and has an address. */
  lemma NetworkedMeans(states: seq<State>, events: seq<Event>, i: nat, n: nat)
    requires IsRun(states, events) && i < |events| && events[i].NicsNetworked?
    requires events[i].k in states[i].nicRuns ==> n < |states[i].nicRuns[events[i].k].nics|
    ensures events[i].k in states[i].nicRuns
    ensures var k := events[i].k;
            var r := states[i].nicRuns[k];
            && n < |r.seen|
            && (exists m: nat :: InPass(states, k, m, i)
                  && OnlyAddressed(states[m].api, k.name, r.uid, r.nics[n].name, r.seen[n]))
            && forall j :: j in OwnedKeys(states[i].api, k.name, r.uid, r.nics[n].name) ==>
                 && j == r.seen[n]
                 && var bme := states[i].api.endpoints[j];
                    !bme.deleting ==> bme.phase == Addressed && bme.address.Some?
  {
    InvInEveryRun(states, events, i);
    assert StepAt(states, events, i);
    var s, ik := states[i], events[i].k;
    AllSeen(s, events[i], states[i + 1]);
    var m := SeenWasAddressed(states, events, i, ik, n);
    var r := s.nicRuns[ik];
    hide IsRun, Next, InPass, OnlyAddressed;
    forall j | j in OwnedKeys(s.api, ik.name, r.uid, r.nics[n].name)
      ensures j == r.seen[n] && (!s.api.endpoints[j].deleting ==>
                s.api.endpoints[j].phase == Addressed && s.api.endpoints[j].address.Some?)
    {
      SeenIsOnly(s, ik, n, j);
    }
  }

  lemma AllSeen(s: State, e: Event, s': State)
    requires Next(s, e, s') && e.NicsNetworked?
    ensures e.k in s.nicRuns && |s.nicRuns[e.k].seen| == |s.nicRuns[e.k].nics|
  {
    assert NicsNext(s, e, s');
  }

  /** The endpoint of a NIC that was passed is the one seen. */
  lemma SeenIsOnly(s: State, k: Key, n: nat, j: Key)
    requires Inv(s) && k in s.nicRuns && n < |s.nicRuns[k].seen| && n < |s.nicRuns[k].nics|
    requires j in s.api.endpoints && MadeForNic(s.api.endpoints[j], s.nicRuns[k].uid, s.nicRuns[k].nics[n])
    ensures j == s.nicRuns[k].seen[n]
    ensures !s.api.endpoints[j].deleting ==> s.api.endpoints[j].phase == Addressed && s.api.endpoints[j].address.Some?
  {
    assert NicRunOk(s.api, s.home, k, s.nicRuns[k]);
    assert EndpointOk(s.api, s.home, s.api.endpoints[j]);
  }
}
