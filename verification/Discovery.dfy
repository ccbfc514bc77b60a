// pkg/discovery/server.go, the /ready handler: an agent reports that it booted, and is bound to
// the instance of the hardware with its system UUID.
module Discovery {
  import opened Common
  import opened Objects
  import opened Store

  /** The hardware objects with this system UUID. */
  function WithUUID(c: Cluster, machine: string): set<Key> {
    set k | k in c.hardware && c.hardware[k].systemUUID == machine
  }

  /** The only hardware object with this system UUID. */
  predicate OnlyHardware(c: Cluster, machine: string, k: Key) {
    && k in c.hardware && c.hardware[k].systemUUID == machine
    && forall h :: h in c.hardware && c.hardware[h].systemUUID == machine ==> h == k
  }

  /** The instance may be given an agent. */
  predicate WantsAgent(bmi: Instance, ref: InstanceRef) {
    bmi.uid == ref.uid && (bmi.phase == Provisioning || bmi.phase == Cleaning)
  }

  /** The instance the machine reports for, if there is one that waits for it. */
  predicate BindsTo(c: Cluster, machine: string, hk: Key, k: Key) {
    && machine != "" && OnlyHardware(c, machine, hk)
    && c.hardware[hk].instanceRef.Some?
    && c.hardware[hk].instanceRef.value.key == k
    && k in c.instances
    && WantsAgent(c.instances[k], c.hardware[hk].instanceRef.value)
  }

  datatype Response = NoContent | BadRequest | NotFound | InternalError

  class Server {

    /** List with the index on spec.systemUUID. */
    method ListByUUID(api: ApiServer, machine: string) returns (items: seq<Key>)
      ensures |items| == |WithUUID(api.View(), machine)|
      ensures forall k :: k in items <==> k in WithUUID(api.View(), machine)
    {
      items := [];
      var rest := api.hardware.Keys;
      ghost var found: set<Key> := {};
      while rest != {}
        invariant rest <= api.hardware.Keys
        invariant found == set k | k in api.hardware.Keys - rest && api.hardware[k].systemUUID == machine
        invariant |items| == |found| && forall k :: k in items <==> k in found
        decreases rest
      {
        var k :| k in rest;
        rest := rest - {k};
        if api.hardware[k].systemUUID == machine {
          items := items + [k];
          found := found + {k};
        }
      }
      assert found == WithUUID(api.View(), machine);
    }

    /** One request, uninterrupted. It binds the agent exactly when the machine has one hardware
        object whose instance waits for an agent, and refuses an empty UUID before it looks. */
    method Ready(api: ApiServer, machine: string) returns (response: Response)
      modifies api
      ensures response == NoContent <==> exists hk, k :: BindsTo(old(api.View()), machine, hk, k)
      ensures forall hk, k :: BindsTo(old(api.View()), machine, hk, k) ==>
                var bmi := old(api.View()).instances[k];
                api.View() == WriteInstance(old(api.View()), k, bmi.(agentInfo := Some(machine)))
      ensures response != NoContent ==> api.View() == old(api.View())
      ensures response == BadRequest <==> machine == ""
      ensures response == InternalError ==> |WithUUID(old(api.View()), machine)| > 1
    {
      if |machine| == 0 {
        return BadRequest;
      }
      ghost var c := api.View();
      var items := ListByUUID(api, machine);
      if |items| == 0 {
        NotTheOnlyOne(c, machine);
        return NotFound;
      }
      if |items| > 1 {
        NotTheOnlyOne(c, machine);
        return InternalError;
      }
      var hk := items[0];
      assert hk in items;
      TheOnlyOne(c, machine, hk);
      var bmh := api.hardware[hk];
      if bmh.instanceRef == None {
        return NotFound;
      }
      var fetched := api.GetInstance(bmh.instanceRef.value.key);
      if fetched == None {
        return NotFound;
      }
      var bmi := fetched.value;
      if bmi.uid != bmh.instanceRef.value.uid {
        return NotFound;
      }
      if bmi.phase != Provisioning && bmi.phase != Cleaning {
        return NotFound;
      }
      assert BindsTo(c, machine, hk, bmh.instanceRef.value.key);
      bmi := bmi.(agentInfo := Some(machine));
      var err := api.UpdateInstanceStatus(bmh.instanceRef.value.key, bmi);
      return NoContent;
    }
  }

  lemma TheOnlyOne(c: Cluster, machine: string, hk: Key)
    requires |WithUUID(c, machine)| == 1 && hk in WithUUID(c, machine)
    ensures OnlyHardware(c, machine, hk)
    ensures forall other :: OnlyHardware(c, machine, other) ==> other == hk
  {
    assert |WithUUID(c, machine) - {hk}| == 0;
    forall h | h in c.hardware && c.hardware[h].systemUUID == machine ensures h == hk {
      assert h in WithUUID(c, machine);
    }
  }

  lemma NotTheOnlyOne(c: Cluster, machine: string)
    requires |WithUUID(c, machine)| != 1
    ensures forall hk :: !OnlyHardware(c, machine, hk)
  {
    forall hk ensures !OnlyHardware(c, machine, hk) {
      assert OnlyHardware(c, machine, hk) ==> WithUUID(c, machine) == {hk};
    }
  }
}
