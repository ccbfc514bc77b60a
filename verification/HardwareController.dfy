// controllers/baremetalhardware_controller.go: the reconcile of a piece of hardware, as the
// function Decide and as the method the controller runs.
module HardwareController {
  import opened Common
  import opened Objects
  import opened Store

  const NO_SCHEDULE_TAINT := Taint(NoScheduleKey, "", NoScheduleEffect)
  const NOT_READY_TAINT := Taint(NotReadyKey, "", NoScheduleEffect)

  /** What a pass does with its fetched copy. NeedInstance asks for the instance behind the
      instanceRef: the pass goes on with the answer. Update writes the main resource, and passes
      the webhook; UpdateStatus writes the status. */
  datatype HardwareEffect =
    | NoEffect
    | NeedInstance
    | Update(bmh: Hardware)
    | UpdateStatus(bmh: Hardware)
    | DeleteTenant
  {
    predicate Writes() {
      Update? || UpdateStatus?
    }
  }

  /** The position of the first taint with this key, or |taints|. */
  function TaintIndex(taints: seq<Taint>, key: TaintKey): (i: nat)
    ensures i <= |taints|
    ensures i < |taints| ==> taints[i].key == key
    ensures forall j :: 0 <= j < i ==> taints[j].key != key
  {
    if taints == [] || taints[0].key == key then 0 else TaintIndex(taints[1..], key) + 1
  }

  function WithoutFirst(taints: seq<Taint>, key: TaintKey): seq<Taint> {
    var i := TaintIndex(taints, key);
    if i < |taints| then taints[..i] + taints[i + 1..] else taints
  }

  predicate NicFound(name: string, found: Discovered) {
    exists i :: 0 <= i < |found.nics| && found.nics[i].name == name
  }

  /** Every interface the NIC stands for was discovered. */
  predicate NicPresent(nic: NIC, found: Discovered) {
    if nic.bond.Some?
    then forall i :: 0 <= i < |nic.bond.value.interfaces| ==> NicFound(nic.bond.value.interfaces[i], found)
    else NicFound(nic.name, found)
  }

  predicate NicsPresent(nics: seq<NIC>, found: Discovered) {
    forall i :: 0 <= i < |nics| ==> NicPresent(nics[i], found)
  }

  /** The reason the NicsValid condition should carry for known hardware. */
  function NicsReason(nics: seq<NIC>, found: Discovered): HardwareReason {
    if nics == [] then NicsAreNotSet
    else if NicsPresent(nics, found) then ValidNics
    else InvalidNics
  }

  function ImageDriveReason(imageDrive: string, found: Discovered): HardwareReason {
    if imageDrive == "" then ImageDriveIsNotSet
    else if imageDrive in found.storage then ValidImageDrive
    else InvalidImageDrive
  }

  /** The one status each reason is set with. */
  function StatusOfReason(r: HardwareReason): ConditionStatus {
    if r == HardwareIsSet || r == ValidImageDrive || r == ValidNics then StatusTrue else StatusFalse
  }

  predicate ConditionsMet(h: Hardware) {
    h.Is(ImageDriveValid, StatusTrue) && h.Is(NicsValid, StatusTrue) && h.Is(HardwareSet, StatusTrue)
  }

  /** The taint list after one pass over one managed key, or the same list when it is right. */
  function AdjustTaint(taints: seq<Taint>, wanted: bool, taint: Taint): seq<Taint> {
    if wanted then
      if TaintIndex(taints, taint.key) < |taints| then taints else taints + [taint]
    else WithoutFirst(taints, taint.key)
  }

  function SetIfOther(h: Hardware, t: HardwareConditionType, r: HardwareReason): HardwareEffect {
    if h.HasReason(t, r) then NoEffect else UpdateStatus(h.SetCondition(t, StatusOfReason(r), r))
  }

  /** The part after taints and instanceRef. */
  function DecideConditions(h: Hardware, discoveries: seq<Option<Discovered>>): HardwareEffect {
    match h.discovered
    case Some(found) =>
      if !h.HasReason(HardwareSet, HardwareIsSet) then SetIfOther(h, HardwareSet, HardwareIsSet)
      else if !h.HasReason(NicsValid, NicsReason(h.nics, found)) then
        SetIfOther(h, NicsValid, NicsReason(h.nics, found))
      else SetIfOther(h, ImageDriveValid, ImageDriveReason(h.imageDrive, found))
    case None =>
      if !h.HasReason(HardwareSet, HardwareIsNotSet) then SetIfOther(h, HardwareSet, HardwareIsNotSet)
      else if |discoveries| != 1 || discoveries[0].None? then NoEffect
      else UpdateStatus(h.(discovered := discoveries[0]))
  }

  /** Whether the instance found under the name of the instanceRef is not the tenant. */
  predicate Stale(ref: InstanceRef, uid: Option<nat>) {
    uid != Some(ref.uid)
  }

  function DecideDeleting(h: Hardware, tenant: Option<Option<nat>>): HardwareEffect {
    if TaintIndex(h.taints, NoScheduleKey) == |h.taints| then
      Update(h.(taints := h.taints + [NO_SCHEDULE_TAINT]))
    else if h.instanceRef.Some? then
      match tenant
      case None => NeedInstance
      case Some(uid) =>
        if Stale(h.instanceRef.value, uid) then UpdateStatus(h.(instanceRef := None)) else DeleteTenant
    else Update(h.(finalizers := h.finalizers - {OwnFinalizer}))
  }

  /** One pass. tenant answers the lookup of the instance behind the instanceRef, once made;
      discoveries are the discovery objects with the system UUID of this hardware. */
  function Decide(h: Hardware, tenant: Option<Option<nat>>, discoveries: seq<Option<Discovered>>): HardwareEffect {
    if h.deleting then DecideDeleting(h, tenant)
    else
      var schedulable := AdjustTaint(h.taints, !h.canProvision, NO_SCHEDULE_TAINT);
      if schedulable != h.taints then Update(h.(taints := schedulable))
      else
        var ready := AdjustTaint(h.taints, !ConditionsMet(h), NOT_READY_TAINT);
        if ready != h.taints then Update(h.(taints := ready))
        else if h.instanceRef.Some? && tenant.None? then NeedInstance
        else if h.instanceRef.Some? && Stale(h.instanceRef.value, tenant.value) then
          UpdateStatus(h.(instanceRef := None))
        else DecideConditions(h, discoveries)
  }

  /** The answer to the lookup, when the store does not move during the pass. */
  function Tenant(c: Cluster, h: Hardware): Option<Option<nat>> {
    if h.instanceRef.Some? then Some(InstanceUid(c, h.instanceRef.value.key)) else None
  }

  /** A pass looks the tenant up only when its first decision asks for it, and then goes on. */
  lemma LookupOnDemand(h: Hardware, tenant: Option<Option<nat>>, discoveries: seq<Option<Discovered>>)
    ensures var first := Decide(h, None, discoveries);
            first.NeedInstance? || Decide(h, tenant, discoveries) == first
    ensures h.instanceRef.None? || tenant.Some? ==> !Decide(h, tenant, discoveries).NeedInstance?
  {
  }

  /** The store after what a pass decided. */
  function Apply(c: Cluster, k: Key, h: Hardware, e: HardwareEffect): Cluster {
    match e
    case Update(bmh) => SubmitHardware(c, k, bmh)
    case UpdateStatus(bmh) => WriteHardware(c, k, bmh)
    case DeleteTenant => if h.instanceRef.Some? then DeleteInstance(c, h.instanceRef.value.key) else c
    case _ => c
  }

  /** The store after one uninterrupted reconcile. */
  function ReconcileHardware(c: Cluster, k: Key, discoveries: seq<Option<Discovered>>): Cluster {
    if k !in c.hardware then c
    else
      var h := c.hardware[k];
      Apply(c, k, h, Decide(h, Tenant(c, h), discoveries))
  }

  class HardwareReconciler {

    method FindTaint(taints: seq<Taint>, key: TaintKey) returns (taintIndex: int)
      ensures taintIndex == if TaintIndex(taints, key) < |taints| then TaintIndex(taints, key) else -1
    {
      taintIndex := -1;
      for idx := 0 to |taints|
        invariant taintIndex == -1
        invariant forall j :: 0 <= j < idx ==> taints[j].key != key
      {
        if taints[idx].key == key {
          FirstTaint(taints, key, idx);
          return idx;
        }
      }
    }

    method FindNic(name: string, nics: seq<DiscoveredNIC>) returns (foundNic: bool)
      ensures foundNic <==> exists i :: 0 <= i < |nics| && nics[i].name == name
    {
      foundNic := false;
      for i := 0 to |nics|
        invariant !foundNic
        invariant forall j :: 0 <= j < i ==> nics[j].name != name
      {
        if nics[i].name == name {
          foundNic := true;
          break;
        }
      }
    }

    method FindAllNics(nics: seq<NIC>, found: Discovered) returns (foundAllNics: bool)
      ensures foundAllNics <==> NicsPresent(nics, found)
    {
      foundAllNics := true;
      for i := 0 to |nics|
        invariant foundAllNics
        invariant forall j :: 0 <= j < i ==> NicPresent(nics[j], found)
      {
        var nic := nics[i];
        if nic.bond.Some? {
          var foundAllBondNics := true;
          var interfaces := nic.bond.value.interfaces;
          for b := 0 to |interfaces|
            invariant foundAllBondNics
            invariant forall j :: 0 <= j < b ==> NicFound(interfaces[j], found)
          {
            var foundNic := FindNic(interfaces[b], found.nics);
            if !foundNic {
              assert !NicFound(interfaces[b], found);
              foundAllBondNics := false;
              break;
            }
          }
          if !foundAllBondNics {
            assert !NicPresent(nics[i], found);
            foundAllNics := false;
            break;
          }
        } else {
          var foundNic := FindNic(nic.name, found.nics);
          if !foundNic {
            assert !NicPresent(nics[i], found);
            foundAllNics := false;
            break;
          }
        }
      }
    }

    method FindDrive(imageDrive: string, storage: seq<string>) returns (foundImageDrive: bool)
      ensures foundImageDrive <==> imageDrive in storage
    {
      foundImageDrive := false;
      for i := 0 to |storage|
        invariant foundImageDrive <==> imageDrive in storage[..i]
      {
        if storage[i] == imageDrive {
          foundImageDrive := true;
        }
      }
    }

    method Reconcile(api: ApiServer, k: Key, discoveries: seq<Option<Discovered>>) returns (err: Outcome)
      modifies api
      ensures api.View() == ReconcileHardware(old(api.View()), k, discoveries)
    {
      hide AdjustTaint, ConditionsMet, DecideDeleting, DecideConditions, PutHardware, PutInstance;
      var fetched := api.GetHardware(k);
      if fetched == None {
        return Pass;
      }
      var bmh := fetched.value;
      if bmh.deleting {
        err := ReconcileDeleting(api, k, bmh);
        return;
      }
      var settled;
      settled, err := ReconcileTaint(api, k, bmh, !bmh.canProvision, NO_SCHEDULE_TAINT);
      if !settled {
        return;
      }
      settled, err := ReconcileTaint(api, k, bmh, !ConditionsMet(bmh), NOT_READY_TAINT);
      if !settled {
        return;
      }
      if bmh.instanceRef.Some? {
        var ref := bmh.instanceRef.value;
        var bmi := api.GetInstance(ref.key);
        if bmi == None || bmi.value.uid != ref.uid {
          bmh := bmh.(instanceRef := None);
          err := api.UpdateHardwareStatus(k, bmh);
          return;
        }
      }
      err := ReconcileConditions(api, k, bmh, discoveries);
    }

    method ReconcileDeleting(api: ApiServer, k: Key, fetched: Hardware) returns (err: Outcome)
      modifies api
      ensures api.View() ==
              Apply(old(api.View()), k, fetched, DecideDeleting(fetched, Tenant(old(api.View()), fetched)))
    {
      var bmh := fetched;
      var taintIndex := FindTaint(bmh.taints, NoScheduleKey);
      if taintIndex < 0 {
        bmh := bmh.(taints := bmh.taints + [NO_SCHEDULE_TAINT]);
        err := api.UpdateHardware(k, bmh);
        return;
      }
      if bmh.instanceRef.Some? {
        var ref := bmh.instanceRef.value;
        var bmi := api.GetInstance(ref.key);
        if bmi == None {
          bmh := bmh.(instanceRef := None);
          err := api.UpdateHardwareStatus(k, bmh);
          return;
        }
        if bmi.value.uid != ref.uid {
          bmh := bmh.(instanceRef := None);
          err := api.UpdateHardwareStatus(k, bmh);
          return;
        }
        err := api.Delete(ref.key);
        return;
      }
      bmh := bmh.(finalizers := bmh.finalizers - {OwnFinalizer});
      err := api.UpdateHardware(k, bmh);
    }

    /** Adds or removes one managed taint; settled says that the list was right already. */
    method ReconcileTaint(api: ApiServer, k: Key, fetched: Hardware, wanted: bool, taint: Taint)
      returns (settled: bool, err: Outcome)
      modifies api
      ensures var adjusted := AdjustTaint(fetched.taints, wanted, taint);
              && (settled <==> adjusted == fetched.taints)
              && api.View() ==
                   if settled then old(api.View())
                   else SubmitHardware(old(api.View()), k, fetched.(taints := adjusted))
    {
      var bmh := fetched;
      err := Pass;
      var taintIndex := FindTaint(bmh.taints, taint.key);
      if !wanted {
        if taintIndex >= 0 {
          bmh := bmh.(taints := bmh.taints[..taintIndex] + bmh.taints[taintIndex + 1..]);
          assert |bmh.taints| != |fetched.taints|;
          err := api.UpdateHardware(k, bmh);
          return false, err;
        }
      } else if taintIndex < 0 {
        bmh := bmh.(taints := bmh.taints + [taint]);
        assert |bmh.taints| != |fetched.taints|;
        err := api.UpdateHardware(k, bmh);
        return false, err;
      }
      return true, err;
    }

    method ReconcileConditions(api: ApiServer, k: Key, fetched: Hardware, discoveries: seq<Option<Discovered>>)
      returns (err: Outcome)
      modifies api
      ensures api.View() == Apply(old(api.View()), k, fetched, DecideConditions(fetched, discoveries))
    {
      var bmh := fetched;
      err := Pass;
      if bmh.discovered.Some? {
        var found := bmh.discovered.value;
        if !bmh.HasReason(HardwareSet, HardwareIsSet) {
          bmh := bmh.SetCondition(HardwareSet, StatusTrue, HardwareIsSet);
          err := api.UpdateHardwareStatus(k, bmh);
          return;
        }
        var nicsStatus, nicsReason := StatusFalse, NicsAreNotSet;
        if |bmh.nics| > 0 {
          var foundAllNics := FindAllNics(bmh.nics, found);
          if foundAllNics {
            nicsStatus, nicsReason := StatusTrue, ValidNics;
          } else {
            nicsStatus, nicsReason := StatusFalse, InvalidNics;
          }
        }
        if !bmh.HasReason(NicsValid, nicsReason) {
          bmh := bmh.SetCondition(NicsValid, nicsStatus, nicsReason);
          err := api.UpdateHardwareStatus(k, bmh);
          return;
        }
        var driveStatus, driveReason := StatusFalse, ImageDriveIsNotSet;
        if |bmh.imageDrive| > 0 {
          var foundImageDrive := FindDrive(bmh.imageDrive, found.storage);
          if foundImageDrive {
            driveStatus, driveReason := StatusTrue, ValidImageDrive;
          } else {
            driveStatus, driveReason := StatusFalse, InvalidImageDrive;
          }
        }
        if !bmh.HasReason(ImageDriveValid, driveReason) {
          bmh := bmh.SetCondition(ImageDriveValid, driveStatus, driveReason);
          err := api.UpdateHardwareStatus(k, bmh);
        }
        return;
      }
      if !bmh.HasReason(HardwareSet, HardwareIsNotSet) {
        bmh := bmh.SetCondition(HardwareSet, StatusFalse, HardwareIsNotSet);
        err := api.UpdateHardwareStatus(k, bmh);
        return;
      }
      if |discoveries| != 1 || discoveries[0] == None {
        return;
      }
      bmh := bmh.(discovered := discoveries[0]);
      err := api.UpdateHardwareStatus(k, bmh);
    }
  }

  lemma FirstTaint(taints: seq<Taint>, key: TaintKey, i: nat)
    requires i < |taints| && taints[i].key == key
    requires forall j :: 0 <= j < i ==> taints[j].key != key
    ensures TaintIndex(taints, key) == i
  {
  }
}
