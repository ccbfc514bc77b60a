// The two transition systems together: they meet where the provisioner hears that all NICs are
// addressed, which is where its pass over the NICs ends.
module NetworkedInstances {
  import opened Common
  import opened Objects
  import opened EndpointPasses
  import Lifecycle
  import LifecycleNetworked
  import LifecycleSafety
  import EndpointRuns

  // A run of each system, and for every answer the provisioner got, the event of the other system
  // that was this answer.
  datatype Joint = Joint(
    life: seq<Lifecycle.State>,
    lifeEvents: seq<Lifecycle.Event>,
    net: seq<EndpointRuns.State>,
    netEvents: seq<EndpointRuns.Event>,
    answers: map<nat, nat>)

  predicate IsAnswer(j: Joint, m: nat) {
    m < |j.lifeEvents| && j.lifeEvents[m].ProvisionerNetwork? && j.lifeEvents[m].network.AllAddressed?
  }

  /** Event m of the life cycle and event t of the other system are the same: the pass is over the
      NICs of the hardware that was read, for the instance that was read. */
  predicate SameEvent(j: Joint, m: nat, t: nat) {
    && m < |j.lifeEvents| && m < |j.life| && IsAnswer(j, m)
    && t < |j.netEvents| && t < |j.net|
    && var k := j.lifeEvents[m].k;
       && j.netEvents[t] == EndpointRuns.NicsNetworked(k)
       && k in j.life[m].provisionerRuns && k in j.net[t].nicRuns
       && var r := j.life[m].provisionerRuns[k];
          && r.bmh.Some? && r.bmh.value.Some?
          && j.net[t].nicRuns[k].uid == r.bmi.uid && j.net[t].nicRuns[k].nics == r.bmh.value.value.nics
  }

  /** The two runs agree on the events they share, and on their order. */
  ghost predicate IsJointRun(j: Joint) {
    && Lifecycle.IsRun(j.life, j.lifeEvents) && EndpointRuns.IsRun(j.net, j.netEvents)
    && (forall m :: IsAnswer(j, m) ==> m in j.answers && SameEvent(j, m, j.answers[m]))
    && (forall m, n :: m in j.answers && n in j.answers && m < n ==> j.answers[m] < j.answers[n])
  }

  /** At a moment of the pass that ended at t, the NIC had exactly one endpoint of the instance,
      and it was addressed. */
  ghost predicate WasAddressed(j: Joint, k: Key, uid: nat, nic: string, t: nat) {
    t < |j.net| &&
    exists u: nat, bme: Key :: InPass(j.net, k, u, t) && OnlyAddressed(j.net[u].api, k.name, uid, nic, bme)
  }

  /** In every joint run, an instance whose networked condition is true, and so every instance that
      is running, had an earlier answer that its NICs are addressed, and in the pass that led to it
      every NIC of the hardware that was read had exactly one endpoint of this instance, addressed. */
  lemma NetworkedInstancesAreAddressed(j: Joint, i: nat, k: Key) returns (m: nat)
    requires IsJointRun(j) && i < |j.life| && k in j.life[i].api.instances
    requires j.life[i].api.instances[k].phase == Running || j.life[i].api.instances[k].Is(InstanceNetworked, StatusTrue)
    ensures m < i && m in j.answers && SameEvent(j, m, j.answers[m]) && j.lifeEvents[m].k == k
    ensures var r := j.life[m].provisionerRuns[k];
            && r.bmi.uid == j.life[i].api.instances[k].uid
            && forall n :: 0 <= n < |r.bmh.value.value.nics| ==>
                 WasAddressed(j, k, r.bmi.uid, r.bmh.value.value.nics[n].name, j.answers[m])
  {
    hide EndpointRuns.IsRun, Lifecycle.IsRun, OnlyAddressed;
    if j.life[i].api.instances[k].phase == Running {
      LifecycleSafety.RunningMeans(j.life, j.lifeEvents, i, k);
    }
    m := LifecycleNetworked.NetworkedWasAnswered(j.life, j.lifeEvents, i, k);
    assert IsAnswer(j, m);
    var t := j.answers[m];
    forall n | 0 <= n < |j.net[t].nicRuns[k].nics|
      ensures WasAddressed(j, k, j.net[t].nicRuns[k].uid, j.net[t].nicRuns[k].nics[n].name, t)
    {
      NetworkedMeans(j.net, j.netEvents, t, n);
      var r := j.net[t].nicRuns[k];
      var u: nat :| InPass(j.net, k, u, t) && OnlyAddressed(j.net[u].api, k.name, r.uid, r.nics[n].name, r.seen[n]);
    }
  }
}
