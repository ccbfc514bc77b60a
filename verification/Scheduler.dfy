// controllers/baremetalinstance/scheduler.go: gives a pending instance a free piece of hardware.
module Scheduler {
  import opened Common
  import opened Objects
  import opened Store

  datatype Effect =
    | NoEffect
    | UpdateInstance(bmi: Instance)
    | Unassign(bmi: Instance)
    | FindHardware

  /** One pass over a fetched instance. Unassign and FindHardware hold the schedule lock. */
  function Decide(bmi: Instance): Effect {
    if bmi.deleting then
      if bmi.phase == Terminated then NoEffect
      else if !bmi.Is(InstanceScheduled, StatusTrue) then UpdateInstance(bmi.(phase := Terminated))
      else if bmi.phase != Terminating then NoEffect
      else Unassign(bmi.SetCondition(InstanceScheduled, StatusFalse).(hardwareName := ""))
    else if bmi.phase != Pending then NoEffect
    else if !bmi.Has(InstanceScheduled) then UpdateInstance(bmi.SetCondition(InstanceScheduled, StatusFalse))
    else if bmi.Is(InstanceScheduled, StatusTrue) then UpdateInstance(bmi.(phase := Provisioning))
    else if bmi.hardwareName != "" then UpdateInstance(bmi.SetCondition(InstanceScheduled, StatusTrue))
    else FindHardware
  }

  // ---------------------------------------------------------------- choosing hardware

  // Whether a toleration tolerates a taint is decided by the Kubernetes API library.
  type Tolerates = (Toleration, Taint) -> bool

  predicate SelectorMatches(selector: map<string, string>, labels: map<string, string>) {
    forall key :: key in selector ==> key in labels && labels[key] == selector[key]
  }

  /** The taint keeps instances off the hardware unless they tolerate it. */
  predicate Repels(taint: Taint) {
    taint.effect == NoScheduleEffect || taint.effect == NoExecuteEffect
  }

  predicate Tolerated(tolerations: seq<Toleration>, taint: Taint, tolerates: Tolerates) {
    exists t :: 0 <= t < |tolerations| && tolerates(tolerations[t], taint)
  }

  predicate ToleratesAll(bmi: Instance, bmh: Hardware, tolerates: Tolerates) {
    forall t :: 0 <= t < |bmh.taints| && Repels(bmh.taints[t]) ==> Tolerated(bmi.tolerations, bmh.taints[t], tolerates)
  }

  // The slice a listed hardware object ends up in, if any.
  datatype Verdict = Deleting | AlreadyScheduled | SelectorMismatch | Unschedulable | NotTolerated | Acceptable

  function Judge(c: Cluster, bmi: Instance, name: string, bmh: Hardware, tolerates: Tolerates): Verdict {
    if bmh.deleting then Deleting
    else if bmh.instanceRef.Some? || !NameUnused(c, name) then AlreadyScheduled
    else if !SelectorMatches(bmi.selector, bmh.labels) then SelectorMismatch
    else if !bmh.canProvision then Unschedulable
    else if !ToleratesAll(bmi, bmh, tolerates) then NotTolerated
    else Acceptable
  }

  /** The verdict on one name of a listing. */
  function VerdictOn(c: Cluster, ns: string, bmi: Instance, tolerates: Tolerates, name: string): Verdict {
    var hk := Key(ns, name);
    if hk in c.hardware then Judge(c, bmi, name, c.hardware[hk], tolerates) else Deleting
  }

  /** names is what List returned for the namespace: every hardware object of it once. */
  ghost predicate Listing(c: Cluster, ns: string, names: seq<string>) {
    && (forall name :: name in names <==> Key(ns, name) in c.hardware)
    && (forall i, j :: 0 <= i < j < |names| ==> names[i] != names[j])
  }

  function Slice(c: Cluster, ns: string, bmi: Instance, tolerates: Tolerates, names: seq<string>, v: Verdict): seq<string> {
    Filter(names, name => VerdictOn(c, ns, bmi, tolerates, name) == v)
  }

  /** The instance after one pass that found hardware, or as it was when none was acceptable. */
  function Assigned(c: Cluster, k: Key, bmi: Instance, tolerates: Tolerates, names: seq<string>, choice: nat): Cluster {
    var acceptable := Slice(c, k.ns, bmi, tolerates, names, Acceptable);
    if acceptable == [] then c
    else WriteInstance(c, k, bmi.(hardwareName := acceptable[choice % |acceptable|]))
  }

  /** The store after one uninterrupted reconcile; choice stands for the random number. */
  function Reconciled(c: Cluster, k: Key, tolerates: Tolerates, names: seq<string>, choice: nat): Cluster {
    if k !in c.instances then c
    else
      match Decide(c.instances[k])
      case NoEffect => c
      case UpdateInstance(bmi) => WriteInstance(c, k, bmi)
      case Unassign(bmi) => WriteInstance(c, k, bmi)
      case FindHardware => Assigned(c, k, c.instances[k], tolerates, names, choice)
  }

  class InstanceScheduler {

    method MatchesSelector(selector: map<string, string>, labels: map<string, string>) returns (matches: bool)
      ensures matches <==> SelectorMatches(selector, labels)
    {
      matches := true;
      var rest := selector.Keys;
      while rest != {}
        invariant rest <= selector.Keys
        invariant matches <==> forall key :: key in selector.Keys - rest ==> key in labels && labels[key] == selector[key]
        decreases rest
      {
        var key :| key in rest;
        rest := rest - {key};
        if key !in labels || labels[key] != selector[key] {
          matches := false;
        }
      }
    }

    method CheckTaints(bmi: Instance, bmh: Hardware, tolerates: Tolerates) returns (toleratesAll: bool)
      ensures toleratesAll <==> ToleratesAll(bmi, bmh, tolerates)
    {
      toleratesAll := true;
      for t := 0 to |bmh.taints|
        invariant toleratesAll
        invariant forall i :: 0 <= i < t && Repels(bmh.taints[i]) ==> Tolerated(bmi.tolerations, bmh.taints[i], tolerates)
      {
        var taint := bmh.taints[t];
        if taint.effect != NoScheduleEffect && taint.effect != NoExecuteEffect {
          continue;
        }
        var tolerated := false;
        for i := 0 to |bmi.tolerations|
          invariant !tolerated
          invariant forall j :: 0 <= j < i ==> !tolerates(bmi.tolerations[j], taint)
        {
          if tolerates(bmi.tolerations[i], taint) {
            tolerated := true;
            break;
          }
        }
        if !tolerated {
          assert !Tolerated(bmi.tolerations, bmh.taints[t], tolerates);
          toleratesAll := false;
          break;
        }
      }
    }

    method JudgeOne(api: ApiServer, bmi: Instance, name: string, bmh: Hardware, tolerates: Tolerates)
      returns (v: Verdict)
      ensures v == Judge(api.View(), bmi, name, bmh, tolerates)
    {
      if bmh.deleting {
        return Deleting;
      }
      if bmh.instanceRef.Some? {
        return AlreadyScheduled;
      }
      var inUse := api.AnyInstanceOn(name);
      if inUse {
        return AlreadyScheduled;
      }
      if |bmi.selector| > 0 {
        var matches := MatchesSelector(bmi.selector, bmh.labels);
        if !matches {
          return SelectorMismatch;
        }
      }
      if !bmh.canProvision {
        return Unschedulable;
      }
      var toleratesAll := CheckTaints(bmi, bmh, tolerates);
      if !toleratesAll {
        return NotTolerated;
      }
      return Acceptable;
    }

    /** The loop over the listed hardware that fills the five slices. */
    method Classify(api: ApiServer, ns: string, bmi: Instance, tolerates: Tolerates, names: seq<string>)
      returns (scheduled: seq<string>, notMatching: seq<string>, unschedulable: seq<string>,
               notTolerated: seq<string>, acceptable: seq<string>)
      requires forall name :: name in names ==> Key(ns, name) in api.hardware
      ensures scheduled == Slice(api.View(), ns, bmi, tolerates, names, AlreadyScheduled)
      ensures notMatching == Slice(api.View(), ns, bmi, tolerates, names, SelectorMismatch)
      ensures unschedulable == Slice(api.View(), ns, bmi, tolerates, names, Unschedulable)
      ensures notTolerated == Slice(api.View(), ns, bmi, tolerates, names, NotTolerated)
      ensures acceptable == Slice(api.View(), ns, bmi, tolerates, names, Acceptable)
    {
      hide Slice, Judge;
      scheduled, notMatching, unschedulable, notTolerated, acceptable := [], [], [], [], [];
      SliceOfNothing(api.View(), ns, bmi, tolerates);
      for i := 0 to |names|
        invariant scheduled == Slice(api.View(), ns, bmi, tolerates, names[..i], AlreadyScheduled)
        invariant notMatching == Slice(api.View(), ns, bmi, tolerates, names[..i], SelectorMismatch)
        invariant unschedulable == Slice(api.View(), ns, bmi, tolerates, names[..i], Unschedulable)
        invariant notTolerated == Slice(api.View(), ns, bmi, tolerates, names[..i], NotTolerated)
        invariant acceptable == Slice(api.View(), ns, bmi, tolerates, names[..i], Acceptable)
      {
        var name := names[i];
        var v := JudgeOne(api, bmi, name, api.hardware[Key(ns, name)], tolerates);
        assert names[..i + 1] == names[..i] + [name];
        SliceGrows(api.View(), ns, bmi, tolerates, names[..i], name);
        match v {
          case Deleting =>
          case AlreadyScheduled => scheduled := scheduled + [name];
          case SelectorMismatch => notMatching := notMatching + [name];
          case Unschedulable => unschedulable := unschedulable + [name];
          case NotTolerated => notTolerated := notTolerated + [name];
          case Acceptable => acceptable := acceptable + [name];
        }
      }
      assert names[..|names|] == names;
    }

    method Reconcile(api: ApiServer, k: Key, tolerates: Tolerates, names: seq<string>, choice: nat)
      returns (err: Outcome)
      requires Listing(api.View(), k.ns, names)
      modifies api
      ensures api.View() == Reconciled(old(api.View()), k, tolerates, names, choice)
    {
      err := Pass;
      var fetched := api.GetInstance(k);
      if fetched == None {
        return;
      }
      var bmi := fetched.value;
      if bmi.deleting {
        if bmi.phase == Terminated {
          return;
        }
        if !bmi.Is(InstanceScheduled, StatusTrue) {
          bmi := bmi.(phase := Terminated);
          err := api.UpdateInstanceStatus(k, bmi);
          return;
        }
        if bmi.phase != Terminating {
          return;
        }
        bmi := bmi.SetCondition(InstanceScheduled, StatusFalse);
        bmi := bmi.(hardwareName := "");
        err := api.UpdateInstanceStatus(k, bmi);
        return;
      }
      if bmi.phase != Pending {
        return;
      }
      if !bmi.Has(InstanceScheduled) {
        bmi := bmi.SetCondition(InstanceScheduled, StatusFalse);
        err := api.UpdateInstanceStatus(k, bmi);
        return;
      }
      if bmi.Is(InstanceScheduled, StatusTrue) {
        bmi := bmi.(phase := Provisioning);
        err := api.UpdateInstanceStatus(k, bmi);
        return;
      }
      if |bmi.hardwareName| > 0 {
        bmi := bmi.SetCondition(InstanceScheduled, StatusTrue);
        err := api.UpdateInstanceStatus(k, bmi);
        return;
      }
      var scheduled, notMatching, unschedulable, notTolerated, acceptable :=
        Classify(api, k.ns, bmi, tolerates, names);
      if |acceptable| == 0 {
        return;
      }
      bmi := bmi.(hardwareName := acceptable[choice % |acceptable|]);
      err := api.UpdateInstanceStatus(k, bmi);
    }
  }

  lemma SliceOfNothing(c: Cluster, ns: string, bmi: Instance, tolerates: Tolerates)
    ensures forall v :: Slice(c, ns, bmi, tolerates, [], v) == []
  {
  }

  lemma SliceGrows(c: Cluster, ns: string, bmi: Instance, tolerates: Tolerates, names: seq<string>, name: string)
    ensures forall v :: Slice(c, ns, bmi, tolerates, names + [name], v) ==
                        Slice(c, ns, bmi, tolerates, names, v) +
                        if VerdictOn(c, ns, bmi, tolerates, name) == v then [name] else []
  {
    forall v
      ensures Slice(c, ns, bmi, tolerates, names + [name], v) ==
              Slice(c, ns, bmi, tolerates, names, v) +
              if VerdictOn(c, ns, bmi, tolerates, name) == v then [name] else []
    {
      FilterConcat(names, [name], n => VerdictOn(c, ns, bmi, tolerates, n) == v);
    }
  }

  /** A name the scheduler assigns belongs to hardware that was not deleting, owned by nobody,
      assigned to nobody, open for provisioning, selected and tolerated when it was listed; and
      the scheduler gives up exactly when there is no such hardware. */
  lemma AssignsAcceptableHardware(c: Cluster, k: Key, tolerates: Tolerates, names: seq<string>, choice: nat)
    requires Listing(c, k.ns, names) && k in c.instances && Decide(c.instances[k]).FindHardware?
    ensures var bmi := c.instances[k];
            var c' := Reconciled(c, k, tolerates, names, choice);
            if c' == c then
              forall hk :: hk in c.hardware && hk.ns == k.ns ==>
                Judge(c, bmi, hk.name, c.hardware[hk], tolerates) != Acceptable
            else
              && k in c'.instances
              && var name := c'.instances[k].hardwareName;
                 && c' == WriteInstance(c, k, bmi.(hardwareName := name))
                 && Key(k.ns, name) in c.hardware && NameUnused(c, name)
                 && var bmh := c.hardware[Key(k.ns, name)];
                    && !bmh.deleting && bmh.instanceRef == None && bmh.canProvision
                    && SelectorMatches(bmi.selector, bmh.labels)
                    && ToleratesAll(bmi, bmh, tolerates)
  {
    var bmi := c.instances[k];
    var acceptable := Slice(c, k.ns, bmi, tolerates, names, Acceptable);
    if acceptable == [] {
      forall hk | hk in c.hardware && hk.ns == k.ns
        ensures Judge(c, bmi, hk.name, c.hardware[hk], tolerates) != Acceptable
      {
        assert hk == Key(k.ns, hk.name);
        assert hk.name in names && hk.name !in acceptable;
      }
    } else {
      var name := acceptable[choice % |acceptable|];
      assert name in acceptable;
    }
  }

  /** Every listed object that is not being deleted is counted in exactly one slice, so that all
      hardware is taken exactly when the first slice is as long as the listing. */
  lemma {:induction false} SlicesAddUp(c: Cluster, ns: string, bmi: Instance, tolerates: Tolerates, names: seq<string>)
    ensures |Slice(c, ns, bmi, tolerates, names, Deleting)| + |Slice(c, ns, bmi, tolerates, names, AlreadyScheduled)|
            + |Slice(c, ns, bmi, tolerates, names, SelectorMismatch)| + |Slice(c, ns, bmi, tolerates, names, Unschedulable)|
            + |Slice(c, ns, bmi, tolerates, names, NotTolerated)| + |Slice(c, ns, bmi, tolerates, names, Acceptable)|
            == |names|
  {
    if names != [] {
      var rest := names[..|names| - 1];
      var name := names[|names| - 1];
      assert names == rest + [name];
      SlicesAddUp(c, ns, bmi, tolerates, rest);
      SliceGrows(c, ns, bmi, tolerates, rest, name);
    }
  }

  // ---------------------------------------------------------------- the loop variable

  /** With the Go version the repository is built with, every pointer the loop stores is to the
      one loop variable, which ends up holding the last listed object: that one is assigned. */
  function AliasedChoice(c: Cluster, ns: string, bmi: Instance, tolerates: Tolerates, names: seq<string>): Option<string> {
    if Slice(c, ns, bmi, tolerates, names, Acceptable) == [] then None else Some(names[|names| - 1])
  }

  /** Through the shared pointer the assigned hardware is acceptable exactly when the last listed
      object is, whenever anything is assigned at all. */
  lemma AliasedChoiceIsRightIff(c: Cluster, ns: string, bmi: Instance, tolerates: Tolerates, names: seq<string>)
    requires names != []
    ensures var choice := AliasedChoice(c, ns, bmi, tolerates, names);
            (choice.Some? && VerdictOn(c, ns, bmi, tolerates, choice.value) == Acceptable)
            <==> VerdictOn(c, ns, bmi, tolerates, names[|names| - 1]) == Acceptable
  {
    var last := names[|names| - 1];
    assert last in names;
    if VerdictOn(c, ns, bmi, tolerates, last) == Acceptable {
      assert last in Slice(c, ns, bmi, tolerates, names, Acceptable);
    }
  }

  /** No two instances are assigned to hardware of one name. */
  ghost predicate Exclusive(c: Cluster) {
    forall k, j :: k in c.instances && j in c.instances && k != j && c.instances[k].hardwareName != "" ==>
      c.instances[k].hardwareName != c.instances[j].hardwareName
  }

  /** The store after the assignment through the shared pointer. */
  function AliasedAssigned(c: Cluster, k: Key, tolerates: Tolerates, names: seq<string>): Cluster
    requires k in c.instances
  {
    match AliasedChoice(c, k.ns, c.instances[k], tolerates, names)
    case None => c
    case Some(name) => WriteInstance(c, k, c.instances[k].(hardwareName := name))
  }

  /** Through the shared pointer assignments stay exclusive exactly when nothing listed is
      acceptable or nobody is assigned to the last listed object, whatever becomes of the
      acceptable ones. */
  lemma AliasedAssignmentIsExclusiveIff(c: Cluster, k: Key, tolerates: Tolerates, names: seq<string>)
    requires Exclusive(c) && k in c.instances && Decide(c.instances[k]).FindHardware?
    requires names != [] && names[|names| - 1] != ""
    ensures Exclusive(AliasedAssigned(c, k, tolerates, names)) <==>
            Slice(c, k.ns, c.instances[k], tolerates, names, Acceptable) == [] || NameUnused(c, names[|names| - 1])
  {
    hide Slice;
    var c', last := AliasedAssigned(c, k, tolerates, names), names[|names| - 1];
    if AliasedChoice(c, k.ns, c.instances[k], tolerates, names).Some? {
      assert c'.instances[k].hardwareName == last;
      if !NameUnused(c, last) {
        var j :| j in c.instances && c.instances[j].hardwareName == last;
        assert j != k && c'.instances[j] == c.instances[j];
      }
    }
  }

  /** A free machine listed before one that is another instance's: through the shared pointer a
      second instance is assigned to the latter. */
  lemma AliasedChoiceIsNotExclusive(bmi: Instance, other: Instance, free: Hardware, taken: Hardware, tolerates: Tolerates)
    requires bmi.hardwareName == "" && other.hardwareName == "b" && Decide(bmi).FindHardware?
    requires !free.deleting && free.instanceRef == None && free.canProvision && free.taints == []
    requires taken.instanceRef == Some(InstanceRef(Key("n", "y"), other.uid)) && taken.systemUUID != free.systemUUID
    requires bmi.selector == map[]
    ensures var c := Cluster(map[Key("n", "x") := bmi, Key("n", "y") := other],
                             map[Key("n", "a") := free, Key("n", "b") := taken], 0, 0);
            Exclusive(c) && !Exclusive(AliasedAssigned(c, Key("n", "x"), tolerates, ["a", "b"]))
  {
    var c := Cluster(map[Key("n", "x") := bmi, Key("n", "y") := other],
                     map[Key("n", "a") := free, Key("n", "b") := taken], 0, 0);
    assert c.instances[Key("n", "y")].hardwareName == "b";
    assert NameUnused(c, "a");
    assert VerdictOn(c, "n", bmi, tolerates, "a") == Acceptable;
    assert "a" in ["a", "b"];
    assert "a" in Slice(c, "n", bmi, tolerates, ["a", "b"], Acceptable);
    AliasedAssignmentIsExclusiveIff(c, Key("n", "x"), tolerates, ["a", "b"]);
  }
}
