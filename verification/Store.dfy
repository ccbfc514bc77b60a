// The API server as the controllers see it: a store of objects with resource versions.
// A write carries the version that was read and is refused when the stored one moved on. A write
// of the main resource, spec and finalizers, passes the webhook of its kind as well; a write of
// the status does not. An object that is deleting goes away with its last finalizer.
module Store {
  import opened Common
  import opened Objects
  import InstanceWebhook
  import HardwareWebhook

  datatype Cluster = Cluster(
    instances: map<Key, Instance>,
    hardware: map<Key, Hardware>,
    revision: nat,
    nextUid: nat)

  predicate FreshInstance(c: Cluster, k: Key, read: Instance) {
    k in c.instances && c.instances[k].version == read.version
  }

  predicate FreshHardware(c: Cluster, k: Key, read: Hardware) {
    k in c.hardware && c.hardware[k].version == read.version
  }

  /** Stores an instance, or drops it when nothing holds a deleting object any more. */
  function PutInstance(c: Cluster, k: Key, obj: Instance): Cluster {
    var rev := c.revision + 1;
    if obj.deleting && obj.finalizers == {}
    then c.(instances := c.instances - {k}, revision := rev)
    else c.(instances := c.instances[k := obj.(version := rev)], revision := rev)
  }

  function PutHardware(c: Cluster, k: Key, obj: Hardware): Cluster {
    var rev := c.revision + 1;
    if obj.deleting && obj.finalizers == {}
    then c.(hardware := c.hardware - {k}, revision := rev)
    else c.(hardware := c.hardware[k := obj.(version := rev)], revision := rev)
  }

  /** A compare-and-swap write of the status of an object that was read earlier. */
  function WriteInstance(c: Cluster, k: Key, obj: Instance): Cluster {
    if FreshInstance(c, k, obj) then PutInstance(c, k, obj) else c
  }

  function WriteHardware(c: Cluster, k: Key, obj: Hardware): Cluster {
    if FreshHardware(c, k, obj) then PutHardware(c, k, obj) else c
  }

  /** The same of the main resource, which the webhook may refuse. */
  function SubmitInstance(c: Cluster, k: Key, obj: Instance): Cluster {
    if FreshInstance(c, k, obj) && InstanceWebhook.Admitted(c.instances[k], obj) then PutInstance(c, k, obj) else c
  }

  function SubmitHardware(c: Cluster, k: Key, obj: Hardware): Cluster {
    if FreshHardware(c, k, obj) && HardwareWebhook.Admitted(c.hardware[k], obj) then PutHardware(c, k, obj) else c
  }

  /** A delete request: the finalizers keep the object, marked as deleting. */
  function DeleteInstance(c: Cluster, k: Key): Cluster {
    if k in c.instances && !c.instances[k].deleting
    then PutInstance(c, k, c.instances[k].(deleting := true))
    else c
  }

  function DeleteHardware(c: Cluster, k: Key): Cluster {
    if k in c.hardware && !c.hardware[k].deleting
    then PutHardware(c, k, c.hardware[k].(deleting := true))
    else c
  }

  /** The UID behind an instance name, or None when there is no such instance. */
  function InstanceUid(c: Cluster, k: Key): Option<nat> {
    if k in c.instances then Some(c.instances[k].uid) else None
  }

  function InstanceAt(c: Cluster, k: Key): Option<Instance> {
    if k in c.instances then Some(c.instances[k]) else None
  }

  /** No instance, in whatever namespace, is assigned to hardware of this name. */
  predicate NameUnused(c: Cluster, name: string) {
    forall k :: k in c.instances ==> c.instances[k].hardwareName != name
  }

  function HardwareAt(c: Cluster, k: Key): Option<Hardware> {
    if k in c.hardware then Some(c.hardware[k]) else None
  }

  // The client every controller holds.
  class ApiServer {
    var instances: map<Key, Instance>
    var hardware: map<Key, Hardware>
    var revision: nat
    var nextUid: nat

    ghost function View(): Cluster
      reads this
    {
      Cluster(instances, hardware, revision, nextUid)
    }

    constructor ()
      ensures View() == Cluster(map[], map[], 0, 0)
    {
      instances, hardware, revision, nextUid := map[], map[], 0, 0;
    }

    method GetInstance(k: Key) returns (obj: Option<Instance>)
      ensures obj == InstanceAt(View(), k)
    {
      return if k in instances then Some(instances[k]) else None;
    }

    method GetHardware(k: Key) returns (obj: Option<Hardware>)
      ensures obj == HardwareAt(View(), k)
    {
      return if k in hardware then Some(hardware[k]) else None;
    }

    /** List with the index on status.hardwareName, asked only whether it is empty. */
    method AnyInstanceOn(name: string) returns (found: bool)
      ensures found <==> !NameUnused(View(), name)
    {
      found := false;
      var rest := instances.Keys;
      while rest != {}
        invariant rest <= instances.Keys
        invariant found <==> exists k :: k in instances.Keys - rest && instances[k].hardwareName == name
        decreases rest
      {
        var k :| k in rest;
        rest := rest - {k};
        if instances[k].hardwareName == name {
          found := true;
        }
      }
    }

    /** Status().Update. */
    method UpdateInstanceStatus(k: Key, obj: Instance) returns (err: Outcome)
      modifies this
      ensures err.Fail? <==> !FreshInstance(old(View()), k, obj)
      ensures View() == WriteInstance(old(View()), k, obj)
    {
      if k !in instances || instances[k].version != obj.version {
        return Fail("conflict");
      }
      revision := revision + 1;
      if obj.deleting && obj.finalizers == {} {
        instances := instances - {k};
      } else {
        instances := instances[k := obj.(version := revision)];
      }
      return Pass;
    }

    method UpdateHardwareStatus(k: Key, obj: Hardware) returns (err: Outcome)
      modifies this
      ensures err.Fail? <==> !FreshHardware(old(View()), k, obj)
      ensures View() == WriteHardware(old(View()), k, obj)
    {
      if k !in hardware || hardware[k].version != obj.version {
        return Fail("conflict");
      }
      revision := revision + 1;
      if obj.deleting && obj.finalizers == {} {
        hardware := hardware - {k};
      } else {
        hardware := hardware[k := obj.(version := revision)];
      }
      return Pass;
    }

    /** Update. */
    method UpdateInstance(k: Key, obj: Instance) returns (err: Outcome)
      modifies this
      ensures err.Fail? <==>
              !FreshInstance(old(View()), k, obj) || !InstanceWebhook.Admitted(old(View()).instances[k], obj)
      ensures View() == SubmitInstance(old(View()), k, obj)
    {
      if k in instances && !InstanceWebhook.Admitted(instances[k], obj) {
        return Fail("denied");
      }
      err := UpdateInstanceStatus(k, obj);
    }

    method UpdateHardware(k: Key, obj: Hardware) returns (err: Outcome)
      modifies this
      ensures err.Fail? <==>
              !FreshHardware(old(View()), k, obj) || !HardwareWebhook.Admitted(old(View()).hardware[k], obj)
      ensures View() == SubmitHardware(old(View()), k, obj)
    {
      if k in hardware && !HardwareWebhook.Admitted(hardware[k], obj) {
        return Fail("denied");
      }
      err := UpdateHardwareStatus(k, obj);
    }

    method Delete(k: Key) returns (err: Outcome)
      modifies this
      ensures View() == DeleteInstance(old(View()), k)
    {
      if k !in instances {
        return Fail("not found");
      }
      if !instances[k].deleting {
        var obj := instances[k].(deleting := true);
        err := UpdateInstanceStatus(k, obj);
      }
      return Pass;
    }
  }
}
