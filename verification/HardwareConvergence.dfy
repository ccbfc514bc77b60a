// The hardware reconcile loop comes to rest: in a world left alone it reaches what the spec asks
// for, unless the webhook refuses its writes.
module HardwareConvergence {
  import opened Common
  import opened Objects
  import opened Store
  import opened HardwareController
  import HardwareWebhook
  import MacAddresses

  // What stays put while the loop settles: the instances and the discovery objects.
  datatype World = World(instances: map<Key, Instance>, discoveries: seq<Option<Discovered>>)

  function TenantIn(w: World, h: Hardware): Option<Option<nat>> {
    if h.instanceRef.None? then None
    else if h.instanceRef.value.key in w.instances then Some(Some(w.instances[h.instanceRef.value.key].uid))
    else Some(None)
  }

  function DecideIn(w: World, h: Hardware): HardwareEffect {
    Decide(h, TenantIn(w, h), w.discoveries)
  }

  /** What one pass wants to store. */
  function Wanted(w: World, h: Hardware): Hardware {
    var effect := DecideIn(w, h);
    if effect.Writes() then effect.bmh else h
  }

  /** The webhook refuses the write of the pass. */
  predicate Refused(w: World, h: Hardware) {
    DecideIn(w, h).Update? && !HardwareWebhook.Admitted(h, DecideIn(w, h).bmh)
  }

  /** The object after one pass. */
  function Pass(w: World, h: Hardware): Hardware {
    if Refused(w, h) then h else Wanted(w, h)
  }

  function Passes(w: World, h: Hardware, n: nat): Hardware
    decreases n
  {
    if n == 0 then h else Passes(w, Pass(w, h), n - 1)
  }

  predicate Settled(w: World, h: Hardware) {
    DecideIn(w, h).NoEffect?
  }

  // ---------------------------------------------------------------- what a pass writes

  /** A write of the part about conditions changes one condition, or copies the discovery. */
  lemma ConditionWrites(h: Hardware, discoveries: seq<Option<Discovered>>)
    ensures var e := DecideConditions(h, discoveries);
            e.NoEffect? || (e.UpdateStatus? &&
              e.bmh == h.(conditions := e.bmh.conditions, discovered := e.bmh.discovered))
  {
    hide NicsReason, ImageDriveReason;
  }

  /** A write changes the taints, or drops the reference, or is about conditions. */
  lemma PassWrites(w: World, h: Hardware)
    requires !h.deleting
    ensures var h' := Wanted(w, h);
            h' == h.(taints := h'.taints, instanceRef := h'.instanceRef, conditions := h'.conditions,
                     discovered := h'.discovered)
    ensures DecideIn(w, h).NoEffect? || DecideIn(w, h).Writes()
    ensures DecideIn(w, h).Update? ==> Wanted(w, h) == h.(taints := Wanted(w, h).taints)
  {
    hide AdjustTaint, ConditionsMet, DecideConditions;
    ConditionWrites(h, w.discoveries);
  }

  /** The webhook lets the taint writes of a pass through exactly when the NIC list is admitted and
      the discovered hardware, if any, is fit. */
  lemma RefusedIff(w: World, h: Hardware)
    requires !h.deleting
    ensures Refused(w, h) <==>
              DecideIn(w, h).Update? &&
              !(HardwareWebhook.NicsAllowed(h.nics) && HardwareWebhook.FitOrUnknown(h.discovered))
  {
    PassWrites(w, h);
    hide DecideIn, HardwareWebhook.NicsAllowed, HardwareWebhook.Fit;
  }

  lemma PutStores(c: Cluster, k: Key, obj: Hardware)
    requires !obj.deleting
    ensures var c' := PutHardware(c, k, obj);
            && k in c'.hardware && c'.hardware[k] == obj.(version := c'.hardware[k].version)
            && c'.instances == c.instances && c'.hardware - {k} == c.hardware - {k} && c' != c
  {
  }

  /** A reconcile of an object that is not being deleted is one pass, and touches nothing else. It
      writes nothing exactly when the object is settled or the write is refused. */
  lemma ReconcileIsPass(c: Cluster, k: Key, discoveries: seq<Option<Discovered>>)
    requires k in c.hardware && !c.hardware[k].deleting
    ensures var c' := ReconcileHardware(c, k, discoveries);
            var w := World(c.instances, discoveries);
            && k in c'.hardware && c'.instances == c.instances
            && c'.hardware[k] == Pass(w, c.hardware[k]).(version := c'.hardware[k].version)
            && c'.hardware - {k} == c.hardware - {k}
            && (Settled(w, c.hardware[k]) || Refused(w, c.hardware[k]) <==> c' == c)
  {
    var w, h := World(c.instances, discoveries), c.hardware[k];
    PassWrites(w, h);
    assert TenantIn(w, h) == Tenant(c, h);
    PutStores(c, k, Wanted(w, h));
    hide Decide, HardwareWebhook.Admitted, PutHardware;
  }

  // ---------------------------------------------------------------- the measure

  function Has(b: bool): nat {
    if b then 1 else 0
  }

  function CountOf(taints: seq<Taint>, key: TaintKey): (n: nat)
    ensures n <= |taints|
    ensures n == 0 <==> forall i :: 0 <= i < |taints| ==> taints[i].key != key
  {
    if taints == [] then 0 else Has(taints[0].key == key) + CountOf(taints[1..], key)
  }

  /** The writes one managed taint still needs: one to add it, or one for every copy. */
  function TaintDistance(taints: seq<Taint>, wanted: bool, key: TaintKey): nat {
    if wanted then Has(CountOf(taints, key) == 0) else CountOf(taints, key)
  }

  function Distance(h: Hardware): nat {
    TaintDistance(h.taints, !h.canProvision, NoScheduleKey) + TaintDistance(h.taints, !ConditionsMet(h), NotReadyKey)
  }

  predicate WillDiscover(w: World) {
    |w.discoveries| == 1 && w.discoveries[0].Some?
  }

  /** The conditions that do not carry the reason they should, for known hardware. */
  function WrongReasons(h: Hardware, found: Discovered): (n: nat)
    ensures n <= 3
  {
    Has(!h.HasReason(HardwareSet, HardwareIsSet))
    + Has(!h.HasReason(NicsValid, NicsReason(h.nics, found)))
    + Has(!h.HasReason(ImageDriveValid, ImageDriveReason(h.imageDrive, found)))
  }

  predicate RefIsStale(w: World, h: Hardware) {
    h.instanceRef.Some? && Stale(h.instanceRef.value, TenantIn(w, h).value)
  }

  /** The writes to anything but taints that may still be needed. */
  function Work(w: World, h: Hardware): (n: nat)
    ensures n <= 6
  {
    Has(RefIsStale(w, h)) +
    match h.discovered
    case Some(found) => WrongReasons(h, found)
    case None => Has(!h.HasReason(HardwareSet, HardwareIsNotSet)) + if WillDiscover(w) then 4 else 0
  }

  /** As many not-ready taints as there are, but at least one. */
  function Copies(h: Hardware): nat {
    var n := CountOf(h.taints, NotReadyKey);
    if n == 0 then 1 else n
  }

  function Measure(w: World, h: Hardware): nat {
    Work(w, h) * (Copies(h) + 1) + Distance(h)
  }

  // ---------------------------------------------------------------- taints

  lemma {:induction false} CountAppend(taints: seq<Taint>, t: Taint, key: TaintKey)
    ensures CountOf(taints + [t], key) == CountOf(taints, key) + Has(t.key == key)
  {
    if taints == [] {
      assert taints + [t] == [t];
    } else {
      assert (taints + [t])[1..] == taints[1..] + [t];
      CountAppend(taints[1..], t, key);
    }
  }

  lemma WithoutFirstCons(taints: seq<Taint>, key: TaintKey)
    requires taints != []
    ensures WithoutFirst(taints, key) ==
            if taints[0].key == key then taints[1..] else [taints[0]] + WithoutFirst(taints[1..], key)
  {
    var i := TaintIndex(taints, key);
    if 0 < i < |taints| {
      assert taints[..i] == [taints[0]] + taints[1..][..i - 1];
      assert taints[i + 1..] == taints[1..][i..];
    } else if i == |taints| {
      assert taints == [taints[0]] + taints[1..];
    }
  }

  lemma {:induction false} CountWithoutFirst(taints: seq<Taint>, key: TaintKey, other: TaintKey)
    ensures CountOf(WithoutFirst(taints, key), other) ==
            CountOf(taints, other) - Has(other == key && CountOf(taints, key) > 0)
    ensures CountOf(taints, key) == 0 ==> WithoutFirst(taints, key) == taints
  {
    if taints != [] {
      WithoutFirstCons(taints, key);
      hide WithoutFirst, TaintIndex;
      CountWithoutFirst(taints[1..], key, other);
    }
  }

  lemma IndexIsCount(taints: seq<Taint>, key: TaintKey)
    ensures TaintIndex(taints, key) < |taints| <==> CountOf(taints, key) > 0
  {
  }

  /** Adjusting one taint does nothing when it is right, and brings it one write closer otherwise;
      it does not touch the other taint. */
  lemma AdjustLowersDistance(taints: seq<Taint>, wanted: bool, taint: Taint, other: TaintKey)
    requires other != taint.key
    ensures var adjusted := AdjustTaint(taints, wanted, taint);
            && CountOf(adjusted, other) == CountOf(taints, other)
            && (adjusted == taints <==> TaintDistance(taints, wanted, taint.key) == 0)
            && (adjusted != taints ==>
                  TaintDistance(adjusted, wanted, taint.key) == TaintDistance(taints, wanted, taint.key) - 1)
            && (CountOf(adjusted, taint.key) <= CountOf(taints, taint.key) || CountOf(adjusted, taint.key) == 1)
  {
    hide WithoutFirst, TaintIndex, CountOf;
    CountAppend(taints, taint, taint.key);
    CountAppend(taints, taint, other);
    CountWithoutFirst(taints, taint.key, taint.key);
    CountWithoutFirst(taints, taint.key, other);
    IndexIsCount(taints, taint.key);
    assert |taints + [taint]| != |taints|;
  }

  predicate Unmanaged(t: Taint) {
    t.key != NoScheduleKey && t.key != NotReadyKey
  }

  /** The taints that are not the controller's business, in order. */
  function Others(taints: seq<Taint>): seq<Taint> {
    Filter(taints, t => Unmanaged(t))
  }

  lemma {:induction false} WithoutFirstKeepsOthers(taints: seq<Taint>, key: TaintKey)
    requires key == NoScheduleKey || key == NotReadyKey
    ensures Others(WithoutFirst(taints, key)) == Others(taints)
  {
    if taints != [] {
      WithoutFirstCons(taints, key);
      hide WithoutFirst, TaintIndex;
      WithoutFirstKeepsOthers(taints[1..], key);
      var rest := WithoutFirst(taints[1..], key);
      assert ([taints[0]] + rest)[1..] == rest;
    }
  }

  lemma AdjustKeepsOthers(taints: seq<Taint>, wanted: bool, taint: Taint)
    requires !Unmanaged(taint)
    ensures Others(AdjustTaint(taints, wanted, taint)) == Others(taints)
  {
    WithoutFirstKeepsOthers(taints, taint.key);
    FilterConcat(taints, [taint], t => Unmanaged(t));
  }

  // ---------------------------------------------------------------- every write comes closer

  lemma RightReason(h: Hardware, t: HardwareConditionType, reason: HardwareReason)
    requires !h.HasReason(t, reason)
    ensures SetIfOther(h, t, reason) == UpdateStatus(h.SetCondition(t, StatusOfReason(reason), reason))
    ensures h.SetCondition(t, StatusOfReason(reason), reason).HasReason(t, reason)
    ensures var h' := h.SetCondition(t, StatusOfReason(reason), reason);
            h'.nics == h.nics && h'.imageDrive == h.imageDrive
    ensures forall other, r :: other != t ==>
              h.SetCondition(t, StatusOfReason(reason), reason).HasReason(other, r) == h.HasReason(other, r)
  {
  }

  lemma KnownWriteLowersWork(h: Hardware, found: Discovered, discoveries: seq<Option<Discovered>>)
    requires h.discovered == Some(found) && DecideConditions(h, discoveries).UpdateStatus?
    ensures WrongReasons(DecideConditions(h, discoveries).bmh, found) < WrongReasons(h, found)
  {
    var nics, drive := NicsReason(h.nics, found), ImageDriveReason(h.imageDrive, found);
    hide NicsReason, ImageDriveReason, StatusOfReason, Hardware.HasReason, Hardware.SetCondition;
    if !h.HasReason(HardwareSet, HardwareIsSet) {
      RightReason(h, HardwareSet, HardwareIsSet);
    } else if !h.HasReason(NicsValid, nics) {
      RightReason(h, NicsValid, nics);
    } else if !h.HasReason(ImageDriveValid, drive) {
      RightReason(h, ImageDriveValid, drive);
    }
  }

  /** A condition write leaves less work, and taints and reference alone. */
  lemma ConditionWriteLowersWork(w: World, h: Hardware)
    requires DecideConditions(h, w.discoveries).UpdateStatus?
    ensures var h' := DecideConditions(h, w.discoveries).bmh;
            Work(w, h') < Work(w, h) && h'.taints == h.taints && h'.canProvision == h.canProvision
  {
    ConditionWrites(h, w.discoveries);
    hide NicsReason, ImageDriveReason, Stale;
    if h.discovered.Some? {
      KnownWriteLowersWork(h, h.discovered.value, w.discoveries);
      hide WrongReasons;
    } else {
      hide WrongReasons;
    }
  }

  lemma DroppingLowersWork(w: World, h: Hardware)
    requires RefIsStale(w, h)
    ensures Work(w, h.(instanceRef := None)) < Work(w, h)
  {
    hide NicsReason, ImageDriveReason, Stale;
  }

  lemma TaintsAreNoWork(w: World, h: Hardware, taints: seq<Taint>)
    ensures Work(w, h.(taints := taints)) == Work(w, h)
    ensures ConditionsMet(h.(taints := taints)) == ConditionsMet(h)
  {
    hide NicsReason, ImageDriveReason, Stale;
  }

  lemma LessWork(w: nat, w': nat, c: nat, d': nat)
    requires w' < w && d' <= c
    ensures w' * (c + 1) + d' < w * (c + 1)
  {
    assert (w' + 1) * (c + 1) <= w * (c + 1);
  }

  lemma SameWork(w: nat, c: nat, c': nat, d: nat, d': nat)
    requires c' <= c && d' < d
    ensures w * (c' + 1) + d' < w * (c + 1) + d
  {
    assert w * (c' + 1) <= w * (c + 1);
  }

  lemma TaintWriteLowersMeasure(w: World, h: Hardware, wanted: bool, taint: Taint, other: TaintKey)
    requires (taint == NO_SCHEDULE_TAINT && other == NotReadyKey && wanted == !h.canProvision)
             || (taint == NOT_READY_TAINT && other == NoScheduleKey && wanted == !ConditionsMet(h))
    requires AdjustTaint(h.taints, wanted, taint) != h.taints
    ensures Measure(w, h.(taints := AdjustTaint(h.taints, wanted, taint))) < Measure(w, h)
  {
    hide AdjustTaint, ConditionsMet, Work, CountOf;
    var adjusted := AdjustTaint(h.taints, wanted, taint);
    var h' := h.(taints := adjusted);
    AdjustLowersDistance(h.taints, wanted, taint, other);
    TaintsAreNoWork(w, h, adjusted);
    SameWork(Work(w, h), Copies(h), Copies(h'), Distance(h), Distance(h'));
  }

  lemma OtherWriteLowersMeasure(w: World, h: Hardware, h': Hardware)
    requires h'.taints == h.taints && h'.canProvision == h.canProvision && Work(w, h') < Work(w, h)
    requires TaintDistance(h.taints, !h.canProvision, NoScheduleKey) == 0
    ensures Measure(w, h') < Measure(w, h)
  {
    hide ConditionsMet, Work, CountOf;
    LessWork(Work(w, h), Work(w, h'), Copies(h), Distance(h'));
  }

  lemma WantedLowersMeasure(w: World, h: Hardware)
    requires !h.deleting
    ensures Settled(w, h) <==> Wanted(w, h) == h
    ensures !Settled(w, h) ==> Measure(w, Wanted(w, h)) < Measure(w, h)
  {
    hide AdjustTaint, ConditionsMet, DecideConditions, Work, Measure, Stale, CountOf;
    PassWrites(w, h);
    ConditionWrites(h, w.discoveries);
    if AdjustTaint(h.taints, !h.canProvision, NO_SCHEDULE_TAINT) != h.taints {
      TaintWriteLowersMeasure(w, h, !h.canProvision, NO_SCHEDULE_TAINT, NotReadyKey);
    } else if AdjustTaint(h.taints, !ConditionsMet(h), NOT_READY_TAINT) != h.taints {
      TaintWriteLowersMeasure(w, h, !ConditionsMet(h), NOT_READY_TAINT, NoScheduleKey);
    } else {
      AdjustLowersDistance(h.taints, !h.canProvision, NO_SCHEDULE_TAINT, NotReadyKey);
      if RefIsStale(w, h) {
        DroppingLowersWork(w, h);
        OtherWriteLowersMeasure(w, h, h.(instanceRef := None));
      } else if DecideConditions(h, w.discoveries).UpdateStatus? {
        ConditionWriteLowersWork(w, h);
        OtherWriteLowersMeasure(w, h, DecideConditions(h, w.discoveries).bmh);
      }
    }
  }

  /** A pass changes nothing exactly when the object is settled or its write is refused, and
      otherwise leaves less to do. */
  lemma WriteLowersMeasure(w: World, h: Hardware)
    requires !h.deleting
    ensures Settled(w, h) || Refused(w, h) <==> Pass(w, h) == h
    ensures Pass(w, h) != h ==> Measure(w, Pass(w, h)) < Measure(w, h)
  {
    WantedLowersMeasure(w, h);
    hide DecideIn, Measure, HardwareWebhook.Admitted;
  }

  // ---------------------------------------------------------------- convergence

  lemma {:induction false} RestStays(w: World, h: Hardware, n: nat)
    requires Pass(w, h) == h
    ensures Passes(w, h, n) == h
  {
    if n > 0 {
      hide Pass;
      RestStays(w, h, n - 1);
    }
  }

  lemma PassUndeleted(w: World, h: Hardware)
    requires !h.deleting
    ensures !Pass(w, h).deleting
  {
    PassWrites(w, h);
    hide DecideIn, HardwareWebhook.Admitted;
  }

  lemma {:induction false} RestsWithinMeasure(w: World, h: Hardware, n: nat)
    requires !h.deleting && Measure(w, h) <= n
    ensures Pass(w, Passes(w, h, n)) == Passes(w, h, n)
    ensures !Passes(w, h, n).deleting
    decreases n
  {
    hide Measure, Pass, Settled, Refused;
    WriteLowersMeasure(w, h);
    if Pass(w, h) == h {
      RestStays(w, h, n);
    } else {
      PassUndeleted(w, h);
      RestsWithinMeasure(w, Pass(w, h), n - 1);
    }
  }

  lemma {:induction false} TwoKeys(taints: seq<Taint>, a: TaintKey, b: TaintKey)
    requires a != b
    ensures CountOf(taints, a) + CountOf(taints, b) <= |taints|
  {
    if taints != [] {
      TwoKeys(taints[1..], a, b);
    }
  }

  /** Whatever the object, the loop is done after 7 passes per taint and 14 more: every further pass
      leaves the object as it is, because nothing is left to write or because the write is refused. */
  lemma HardwareConverges(w: World, h: Hardware, n: nat)
    requires !h.deleting && n >= 7 * |h.taints| + 14
    ensures Pass(w, Passes(w, h, n)) == Passes(w, h, n)
    ensures Settled(w, Passes(w, h, n)) <==> !Refused(w, Passes(w, h, n))
  {
    TwoKeys(h.taints, NoScheduleKey, NotReadyKey);
    MeasureIsLinear(w, h);
    RestsWithinMeasure(w, h, n);
    WriteLowersMeasure(w, Passes(w, h, n));
    hide Decide, Measure, Passes, HardwareWebhook.Admitted;
  }

  lemma MeasureIsLinear(w: World, h: Hardware)
    requires CountOf(h.taints, NoScheduleKey) + CountOf(h.taints, NotReadyKey) <= |h.taints|
    ensures Measure(w, h) <= 7 * |h.taints| + 14
  {
    hide ConditionsMet, CountOf;
    var work := Work(w, h);
    hide Work;
    assert Copies(h) <= |h.taints| + 1;
    assert Distance(h) <= |h.taints| + 2;
    AtMostSix(work, Copies(h) + 1);
  }

  lemma AtMostSix(w: nat, c: nat)
    requires w <= 6
    ensures w * c <= 6 * c
  {
  }

  // ---------------------------------------------------------------- what it settles on

  /** The reason of a condition determines its status. */
  ghost predicate ReasonsTell(h: Hardware) {
    forall t :: t in h.conditions ==> h.conditions[t].status == StatusOfReason(h.conditions[t].reason)
  }

  /** No pass of the controller, whatever it found, stores a reason with another status. */
  lemma EffectKeepsReasons(h: Hardware, tenant: Option<Option<nat>>, discoveries: seq<Option<Discovered>>)
    requires ReasonsTell(h)
    ensures var e := Decide(h, tenant, discoveries);
            e.Writes() ==> ReasonsTell(e.bmh)
  {
    hide AdjustTaint, ConditionsMet, NicsReason, ImageDriveReason, Stale;
  }

  lemma PassKeepsReasons(w: World, h: Hardware)
    requires ReasonsTell(h)
    ensures ReasonsTell(Pass(w, h))
  {
    EffectKeepsReasons(h, TenantIn(w, h), w.discoveries);
    hide Decide, ReasonsTell, Refused;
  }

  lemma WantedKeepsOthers(w: World, h: Hardware)
    requires !h.deleting
    ensures Others(Wanted(w, h).taints) == Others(h.taints)
  {
    AdjustKeepsOthers(h.taints, !h.canProvision, NO_SCHEDULE_TAINT);
    AdjustKeepsOthers(h.taints, !ConditionsMet(h), NOT_READY_TAINT);
    hide AdjustTaint, ConditionsMet, DecideConditions, Stale, Others;
    ConditionWrites(h, w.discoveries);
  }

  /** Nothing the spec needs is missing. */
  predicate HardwareReady(h: Hardware) {
    && h.discovered.Some?
    && h.nics != [] && NicsPresent(h.nics, h.discovered.value)
    && h.imageDrive != "" && h.imageDrive in h.discovered.value.storage
  }

  lemma SettledTaints(w: World, h: Hardware)
    requires !h.deleting && Settled(w, h)
    ensures h.HasTaint(NoScheduleKey) <==> !h.canProvision
    ensures h.HasTaint(NotReadyKey) <==> !ConditionsMet(h)
    ensures DecideConditions(h, w.discoveries).NoEffect?
  {
    hide ConditionsMet, Stale, DecideConditions;
    RightTaints(h);
    hide AdjustTaint;
  }

  lemma SettledConditions(w: World, h: Hardware)
    requires DecideConditions(h, w.discoveries).NoEffect? && ReasonsTell(h)
    ensures ConditionsMet(h) <==> HardwareReady(h)
  {
    hide NicsPresent;
  }

  /** Where the loop comes to rest, the not-ready taint says exactly that the hardware is unknown,
      no NICs are listed, an interface is missing, or the image drive is missing; the unschedulable
      taint says exactly that the hardware may not be provisioned. */
  lemma SettledMeans(w: World, h: Hardware)
    requires !h.deleting && Settled(w, h) && ReasonsTell(h)
    ensures h.HasTaint(NotReadyKey) <==> !HardwareReady(h)
    ensures h.HasTaint(NoScheduleKey) <==> !h.canProvision
  {
    SettledTaints(w, h);
    SettledConditions(w, h);
    hide Settled, HardwareReady;
  }

  /** The discovery the object will have in the end. */
  function FinalDiscovery(w: World, h: Hardware): Option<Discovered> {
    if h.discovered.None? && WillDiscover(w) then w.discoveries[0] else h.discovered
  }

  lemma WantedKeepsFinalDiscovery(w: World, h: Hardware)
    requires !h.deleting
    ensures FinalDiscovery(w, Wanted(w, h)) == FinalDiscovery(w, h)
    ensures Settled(w, h) ==> h.discovered == FinalDiscovery(w, h)
  {
    hide AdjustTaint, ConditionsMet, NicsReason, ImageDriveReason, Stale;
  }

  /** What a pass neither writes nor changes the outcome of. */
  ghost predicate SameBusiness(w: World, h: Hardware, r: Hardware) {
    && !r.deleting && ReasonsTell(r) && Others(r.taints) == Others(h.taints)
    && r.nics == h.nics && r.imageDrive == h.imageDrive && r.canProvision == h.canProvision
    && FinalDiscovery(w, r) == FinalDiscovery(w, h)
  }

  lemma PassKeeps(w: World, h: Hardware)
    requires !h.deleting && ReasonsTell(h)
    ensures SameBusiness(w, h, Pass(w, h))
  {
    PassWrites(w, h);
    PassKeepsReasons(w, h);
    WantedKeepsOthers(w, h);
    WantedKeepsFinalDiscovery(w, h);
    hide Wanted, Refused, ReasonsTell, Others, FinalDiscovery;
  }

  lemma {:induction false} PassesKeep(w: World, h: Hardware, n: nat)
    requires !h.deleting && ReasonsTell(h)
    ensures SameBusiness(w, h, Passes(w, h, n))
    decreases n
  {
    hide Pass, ReasonsTell, Others, FinalDiscovery;
    if n > 0 {
      PassKeeps(w, h);
      PassesKeep(w, Pass(w, h), n - 1);
    }
  }

  /** The webhook lets through whatever the loop writes on its way. */
  predicate LetThrough(w: World, h: Hardware) {
    HardwareWebhook.NicsAllowed(h.nics) && HardwareWebhook.FitOrUnknown(FinalDiscovery(w, h))
  }

  /** From any object with an admitted NIC list, unless it is or will be found unfit, the loop comes
      to rest after at most 7 writes per taint and 14 more, with the not-ready and unschedulable
      taints exactly where the spec and the discovery call for them, and all other taints in order. */
  lemma HardwareSettlesRight(w: World, h: Hardware, n: nat)
    requires !h.deleting && ReasonsTell(h) && n >= 7 * |h.taints| + 14
    requires LetThrough(w, h)
    ensures var r := Passes(w, h, n);
            && Settled(w, r)
            && (r.HasTaint(NotReadyKey) <==> !HardwareReady(h.(discovered := FinalDiscovery(w, h))))
            && (r.HasTaint(NoScheduleKey) <==> !h.canProvision)
            && Others(r.taints) == Others(h.taints)
  {
    HardwareConverges(w, h, n);
    PassesKeep(w, h, n);
    var r := Passes(w, h, n);
    RefusedIff(w, r);
    WantedKeepsFinalDiscovery(w, r);
    hide Settled, Passes, Refused, Pass, HardwareWebhook.NicsAllowed, HardwareWebhook.Fit;
    SettledMeans(w, r);
    assert HardwareReady(r) == HardwareReady(h.(discovered := r.discovered));
  }

  // ---------------------------------------------------------------- objects as runs leave them

  /** The object names the conditions of unfit hardware rightly, as far as it has them, and carries
      the taints it had when the hardware was discovered. */
  predicate UnfitAsLeft(h: Hardware, found: Discovered) {
    && h.HasTaint(NotReadyKey) && (h.HasTaint(NoScheduleKey) <==> !h.canProvision)
    && (NicsValid in h.conditions ==> h.HasReason(NicsValid, NicsReason(h.nics, found)))
    && (ImageDriveValid in h.conditions ==> h.HasReason(ImageDriveValid, ImageDriveReason(h.imageDrive, found)))
  }

  /** What is true of every object that was only written by the controller and by admitted edits:
      what needs known hardware is not set before, and unfit hardware keeps its not-ready taint. */
  predicate AsLeft(h: Hardware) {
    && HardwareWebhook.NicsAllowed(h.nics)
    && match h.discovered
       case None => NicsValid !in h.conditions && ImageDriveValid !in h.conditions
       case Some(found) => !HardwareWebhook.Fit(found) ==> UnfitAsLeft(h, found)
  }

  lemma ConditionsKeepAsLeft(h: Hardware, discoveries: seq<Option<Discovered>>)
    requires AsLeft(h) && DecideConditions(h, discoveries).Writes()
    requires h.HasTaint(NotReadyKey) || ConditionsMet(h)
    requires h.HasTaint(NoScheduleKey) <==> !h.canProvision
    ensures AsLeft(DecideConditions(h, discoveries).bmh)
  {
    hide NicsReason, ImageDriveReason, HardwareWebhook.NicsAllowed, HardwareWebhook.Fit;
  }

  /** Of unfit hardware, the main resource is not written; and taints are not looked at before. */
  lemma TaintsKeepAsLeft(h: Hardware, h': Hardware)
    requires AsLeft(h) && HardwareWebhook.Admitted(h, h')
    requires h' == h.(taints := h'.taints, finalizers := h'.finalizers)
    ensures AsLeft(h')
  {
    hide HardwareWebhook.NicsAllowed, HardwareWebhook.Fit, UnfitAsLeft;
  }

  lemma RightTaints(h: Hardware)
    requires AdjustTaint(h.taints, !h.canProvision, NO_SCHEDULE_TAINT) == h.taints
    requires AdjustTaint(h.taints, !ConditionsMet(h), NOT_READY_TAINT) == h.taints
    ensures h.HasTaint(NoScheduleKey) <==> !h.canProvision
    ensures h.HasTaint(NotReadyKey) <==> !ConditionsMet(h)
  {
    hide ConditionsMet;
    AdjustLowersDistance(h.taints, !h.canProvision, NO_SCHEDULE_TAINT, NotReadyKey);
    AdjustLowersDistance(h.taints, !ConditionsMet(h), NOT_READY_TAINT, NoScheduleKey);
    hide AdjustTaint;
  }

  /** A write is of taints or finalizers, drops the reference, or is about conditions after the
      taints were found right. */
  lemma EffectWrites(h: Hardware, tenant: Option<Option<nat>>, discoveries: seq<Option<Discovered>>)
    ensures var e := Decide(h, tenant, discoveries);
            && (e.Update? ==> e.bmh == h.(taints := e.bmh.taints, finalizers := e.bmh.finalizers))
            && (e.UpdateStatus? ==>
                  || e.bmh == h.(instanceRef := None)
                  || (e == DecideConditions(h, discoveries)
                      && AdjustTaint(h.taints, !h.canProvision, NO_SCHEDULE_TAINT) == h.taints
                      && AdjustTaint(h.taints, !ConditionsMet(h), NOT_READY_TAINT) == h.taints))
  {
    ConditionWrites(h, discoveries);
    hide AdjustTaint, ConditionsMet, DecideConditions, Stale;
  }

  /** No write that is let through changes that. */
  lemma EffectKeepsAsLeft(h: Hardware, tenant: Option<Option<nat>>, discoveries: seq<Option<Discovered>>)
    requires AsLeft(h) && Decide(h, tenant, discoveries).Writes()
    requires Decide(h, tenant, discoveries).Update? ==> HardwareWebhook.Admitted(h, Decide(h, tenant, discoveries).bmh)
    ensures AsLeft(Decide(h, tenant, discoveries).bmh)
  {
    EffectWrites(h, tenant, discoveries);
    var e := Decide(h, tenant, discoveries);
    hide Decide, AdjustTaint, ConditionsMet, DecideConditions, HardwareWebhook.Admitted;
    if e.Update? {
      TaintsKeepAsLeft(h, e.bmh);
    } else if e.bmh == h.(instanceRef := None) {
      hide HardwareWebhook.NicsAllowed, HardwareWebhook.Fit, NicsReason, ImageDriveReason;
    } else {
      RightTaints(h);
      ConditionsKeepAsLeft(h, discoveries);
    }
  }

  lemma PassKeepsAsLeft(w: World, h: Hardware)
    requires !h.deleting && AsLeft(h)
    ensures AsLeft(Pass(w, h)) && !Pass(w, h).deleting
  {
    PassWrites(w, h);
    hide Decide, AsLeft, HardwareWebhook.Admitted;
    if Pass(w, h) != h {
      EffectKeepsAsLeft(h, TenantIn(w, h), w.discoveries);
    }
  }

  lemma {:induction false} PassesKeepAsLeft(w: World, h: Hardware, n: nat)
    requires !h.deleting && AsLeft(h)
    ensures AsLeft(Passes(w, h, n))
    decreases n
  {
    hide AsLeft, Pass;
    if n > 0 {
      PassKeepsAsLeft(w, h);
      PassesKeepAsLeft(w, Pass(w, h), n - 1);
    }
  }

  /** Unfit hardware only gets all its conditions true when nothing the spec needs is missing. */
  lemma MetIsReady(h: Hardware, found: Discovered)
    requires h.discovered == Some(found) && UnfitAsLeft(h, found) && ReasonsTell(h) && ConditionsMet(h)
    ensures HardwareReady(h)
  {
    hide NicsPresent;
  }

  lemma UnfitRest(w: World, h: Hardware, found: Discovered)
    requires !h.deleting && h.discovered == Some(found) && UnfitAsLeft(h, found) && ReasonsTell(h)
    requires Settled(w, h) || DecideIn(w, h).Update?
    ensures Settled(w, h) <==> !HardwareReady(h)
  {
    AdjustLowersDistance(h.taints, !h.canProvision, NO_SCHEDULE_TAINT, NotReadyKey);
    AdjustLowersDistance(h.taints, !ConditionsMet(h), NOT_READY_TAINT, NoScheduleKey);
    if Settled(w, h) {
      SettledMeans(w, h);
    } else {
      ConditionWrites(h, w.discoveries);
      hide AdjustTaint, DecideConditions, NicsReason, ImageDriveReason, Stale, HardwareReady;
      assert ConditionsMet(h);
      MetIsReady(h, found);
    }
  }

  /** Where the loop rests on such an object, it is settled exactly unless the hardware is unfit and
      would be ready; the not-ready taint is there exactly when something is missing or unfit. */
  lemma RestMeans(w: World, h: Hardware)
    requires !h.deleting && ReasonsTell(h) && AsLeft(h) && Pass(w, h) == h
    ensures Settled(w, h) <==> HardwareWebhook.FitOrUnknown(h.discovered) || !HardwareReady(h)
    ensures h.HasTaint(NotReadyKey) <==> !HardwareReady(h) || !HardwareWebhook.FitOrUnknown(h.discovered)
    ensures h.HasTaint(NoScheduleKey) <==> !h.canProvision
    ensures h.discovered == FinalDiscovery(w, h)
  {
    WriteLowersMeasure(w, h);
    RefusedIff(w, h);
    WantedKeepsFinalDiscovery(w, h);
    hide DecideIn, HardwareReady, Pass, HardwareWebhook.NicsAllowed, HardwareWebhook.Fit;
    if HardwareWebhook.FitOrUnknown(h.discovered) {
      SettledMeans(w, h);
    } else {
      UnfitRest(w, h, h.discovered.value);
    }
  }

  /** Where the loop comes to rest from an object as runs leave them: it settles exactly unless the
      hardware is found unfit while nothing the spec needs is missing; then the not-ready taint is
      never taken off. */
  lemma HardwareSettlesIff(w: World, h: Hardware, n: nat)
    requires !h.deleting && ReasonsTell(h) && AsLeft(h) && n >= 7 * |h.taints| + 14
    ensures var r, final := Passes(w, h, n), h.(discovered := FinalDiscovery(w, h));
            && (Settled(w, r) <==> HardwareWebhook.FitOrUnknown(final.discovered) || !HardwareReady(final))
            && (r.HasTaint(NotReadyKey) <==> !HardwareReady(final) || !HardwareWebhook.FitOrUnknown(final.discovered))
            && (r.HasTaint(NoScheduleKey) <==> !h.canProvision)
            && Others(r.taints) == Others(h.taints)
            && r.discovered == final.discovered && (HardwareReady(r) <==> HardwareReady(final))
  {
    HardwareConverges(w, h, n);
    PassesKeep(w, h, n);
    PassesKeepAsLeft(w, h, n);
    var r := Passes(w, h, n);
    RestMeans(w, r);
    hide Settled, Passes, Pass, AsLeft, ReasonsTell, FinalDiscovery, HardwareWebhook.Fit;
    assert HardwareReady(r) == HardwareReady(h.(discovered := r.discovered));
  }

  /** A NIC without an address, as the agent reports one, and everything else as the spec asks. */
  function Unaddressed(): Hardware {
    Hardware(0, false, {OwnFinalizer}, map[], "machine", true, "sda", [NIC("eth0", true, None, NetworkRef("", "", ""))],
             [NOT_READY_TAINT],
             map[HardwareSet := HardwareCondition(StatusTrue, HardwareIsSet),
                 NicsValid := HardwareCondition(StatusTrue, ValidNics),
                 ImageDriveValid := HardwareCondition(StatusTrue, ValidImageDrive)],
             None, Some(Discovered(4, 64, [DiscoveredNIC("eth0", MacAddresses.Print([]))], ["sda"])))
  }

  lemma UnaddressedIsUnfit()
    ensures var h := Unaddressed();
            && ReasonsTell(h) && AsLeft(h) && !HardwareWebhook.Fit(h.discovered.value)
            && HardwareReady(h) && ConditionsMet(h) && h.HasTaint(NotReadyKey)
  {
    var h := Unaddressed();
    var found := h.discovered.value;
    assert found.nics[0].name == "eth0";
    assert NicFound("eth0", found);
    assert h.taints[0] == NOT_READY_TAINT;
    assert HardwareWebhook.OnlyPrimary(h.nics, 0);
    MacAddresses.PrintedParsesIff([]);
    hide MacAddresses.Parses;
    assert !MacAddresses.Parses(found.nics[0].mac);
  }

  /** It would be ready, and never loses the taint that says it is not. */
  lemma UnaddressedNeverSettles(w: World, n: nat)
    ensures ReasonsTell(Unaddressed()) && AsLeft(Unaddressed())
    ensures var r := Passes(w, Unaddressed(), n);
            r == Unaddressed() && HardwareReady(r) && r.HasTaint(NotReadyKey) && !Settled(w, r)
  {
    var h := Unaddressed();
    UnaddressedIsUnfit();
    hide HardwareWebhook.Fit, HardwareWebhook.NicsAllowed, HardwareReady, ConditionsMet, AsLeft, ReasonsTell;
    assert |WithoutFirst(h.taints, NotReadyKey)| != |h.taints|;
    RefusedIff(w, h);
    hide HardwareWebhook.Admitted, Refused;
    RestStays(w, h, n);
  }

  // ---------------------------------------------------------------- the program

  /** The store after n uninterrupted reconciles. */
  function Reconciles(c: Cluster, k: Key, discoveries: seq<Option<Discovered>>, n: nat): Cluster
    decreases n
  {
    if n == 0 then c else Reconciles(ReconcileHardware(c, k, discoveries), k, discoveries, n - 1)
  }

  lemma ConditionsIgnoreVersion(h: Hardware, discoveries: seq<Option<Discovered>>, v: nat)
    ensures var e, e' := DecideConditions(h, discoveries), DecideConditions(h.(version := v), discoveries);
            if e.UpdateStatus? then e' == UpdateStatus(e.bmh.(version := v)) else e' == e
  {
    hide NicsReason, ImageDriveReason;
  }

  lemma UpdatesCommute(h: Hardware, v: nat, taints: seq<Taint>)
    ensures h.(version := v).(taints := taints) == h.(taints := taints).(version := v)
    ensures h.(version := v).(instanceRef := None) == h.(instanceRef := None).(version := v)
  {
  }

  lemma WantedIgnoresVersion(w: World, h: Hardware, v: nat)
    requires !h.deleting
    ensures Wanted(w, h.(version := v)) == Wanted(w, h).(version := v)
    ensures DecideIn(w, h.(version := v)).Update? <==> DecideIn(w, h).Update?
    ensures Settled(w, h.(version := v)) <==> Settled(w, h)
  {
    MetIgnoresVersion(h, v);
    ConditionsIgnoreVersion(h, w.discoveries, v);
    ConditionWrites(h, w.discoveries);
    hide Stale, DecideConditions, ConditionsMet;
    var schedulable := AdjustTaint(h.taints, !h.canProvision, NO_SCHEDULE_TAINT);
    var ready := AdjustTaint(h.taints, !ConditionsMet(h), NOT_READY_TAINT);
    hide AdjustTaint;
    if schedulable != h.taints {
      UpdatesCommute(h, v, schedulable);
    } else if ready != h.taints {
      UpdatesCommute(h, v, ready);
    } else if RefIsStale(w, h) {
      UpdatesCommute(h, v, ready);
    }
  }

  lemma PassIgnoresVersion(w: World, h: Hardware, v: nat)
    requires !h.deleting
    ensures Pass(w, h.(version := v)) == Pass(w, h).(version := v)
    ensures Settled(w, h.(version := v)) <==> Settled(w, h)
    ensures Refused(w, h.(version := v)) <==> Refused(w, h)
  {
    WantedIgnoresVersion(w, h, v);
    RefusedIff(w, h);
    RefusedIff(w, h.(version := v));
    hide Wanted, Refused, DecideIn;
  }

  lemma MetIgnoresVersion(h: Hardware, v: nat)
    ensures ConditionsMet(h.(version := v)) == ConditionsMet(h)
  {
  }

  lemma {:induction false} PassesIgnoreVersion(w: World, h: Hardware, v: nat, n: nat)
    requires !h.deleting
    ensures Passes(w, h.(version := v), n) == Passes(w, h, n).(version := v)
    decreases n
  {
    hide Pass, Settled, Refused;
    if n > 0 {
      PassIgnoresVersion(w, h, v);
      PassUndeleted(w, h);
      PassesIgnoreVersion(w, Pass(w, h), v, n - 1);
    }
  }

  /** The stored object is h, but for its version. */
  predicate StoredAs(c: Cluster, k: Key, h: Hardware) {
    k in c.hardware && c.hardware[k] == h.(version := c.hardware[k].version)
  }

  lemma StoredAsVersion(c: Cluster, k: Key, h: Hardware, v: nat)
    requires StoredAs(c, k, h.(version := v))
    ensures StoredAs(c, k, h)
  {
  }

  lemma ReconcileStoresPass(c: Cluster, k: Key, discoveries: seq<Option<Discovered>>)
    requires k in c.hardware && !c.hardware[k].deleting
    ensures var c' := ReconcileHardware(c, k, discoveries);
            var h' := Pass(World(c.instances, discoveries), c.hardware[k]);
            k in c'.hardware && c'.hardware[k] == h'.(version := c'.hardware[k].version)
            && c'.instances == c.instances && !h'.deleting
  {
    ReconcileIsPass(c, k, discoveries);
    PassWrites(World(c.instances, discoveries), c.hardware[k]);
    hide ReconcileHardware, Pass, Settled;
  }

  lemma ReconcilesFirst(c: Cluster, k: Key, discoveries: seq<Option<Discovered>>, n: nat)
    requires n > 0
    ensures Reconciles(c, k, discoveries, n) == Reconciles(ReconcileHardware(c, k, discoveries), k, discoveries, n - 1)
  {
    hide ReconcileHardware;
  }

  lemma {:induction false} ReconcilesArePasses(c: Cluster, k: Key, discoveries: seq<Option<Discovered>>, n: nat)
    requires k in c.hardware && !c.hardware[k].deleting
    ensures var c' := Reconciles(c, k, discoveries, n);
            c'.instances == c.instances && StoredAs(c', k, Passes(World(c.instances, discoveries), c.hardware[k], n))
    decreases n
  {
    hide ReconcileHardware, Pass;
    if n > 0 {
      hide Passes, StoredAs, Reconciles;
      var c1 := ReconcileHardware(c, k, discoveries);
      var h' := Pass(World(c.instances, discoveries), c.hardware[k]);
      ReconcileStoresPass(c, k, discoveries);
      PassesFirst(World(c.instances, discoveries), c.hardware[k], n);
      ReconcilesFirst(c, k, discoveries, n);
      ReconcilesArePasses(c1, k, discoveries, n - 1);
      PassedOn(Reconciles(c1, k, discoveries, n - 1), k, World(c.instances, discoveries), h', c1.hardware[k].version, n - 1);
    }
  }

  lemma PassedOn(c: Cluster, k: Key, w: World, h: Hardware, v: nat, n: nat)
    requires !h.deleting && StoredAs(c, k, Passes(w, h.(version := v), n))
    ensures StoredAs(c, k, Passes(w, h, n))
  {
    hide Passes, StoredAs;
    PassesIgnoreVersion(w, h, v, n);
    StoredAsVersion(c, k, Passes(w, h, n), v);
  }

  lemma PassesFirst(w: World, h: Hardware, n: nat)
    requires n > 0
    ensures Passes(w, h, n) == Passes(w, Pass(w, h), n - 1)
  {
  }

  /** The reconcile loop over the store itself: after 7 reconciles per taint and 14 more, another
      one writes nothing. If the webhook lets its writes through, the stored object carries the two
      taints exactly when the spec and the discovery it started with call for them. */
  lemma ReconcilesConverge(c: Cluster, k: Key, discoveries: seq<Option<Discovered>>, n: nat)
    requires k in c.hardware && !c.hardware[k].deleting && ReasonsTell(c.hardware[k])
    requires n >= 7 * |c.hardware[k].taints| + 14
    ensures var c' := Reconciles(c, k, discoveries, n);
            var h, w := c.hardware[k], World(c.instances, discoveries);
            && ReconcileHardware(c', k, discoveries) == c'
            && k in c'.hardware
            && Others(c'.hardware[k].taints) == Others(h.taints)
            && (LetThrough(w, h) ==>
                  && (c'.hardware[k].HasTaint(NotReadyKey) <==> !HardwareReady(h.(discovered := FinalDiscovery(w, h))))
                  && (c'.hardware[k].HasTaint(NoScheduleKey) <==> !h.canProvision))
  {
    var c', h, w := Reconciles(c, k, discoveries, n), c.hardware[k], World(c.instances, discoveries);
    StoreComesToRest(c, k, discoveries, n);
    PassesKeep(w, h, n);
    hide Reconciles, ReconcileHardware, Passes, Settled, Pass, FinalDiscovery, HardwareReady, Others, ReasonsTell;
    if LetThrough(w, h) {
      HardwareSettlesRight(w, h, n);
    }
  }

  lemma StoreComesToRest(c: Cluster, k: Key, discoveries: seq<Option<Discovered>>, n: nat)
    requires k in c.hardware && !c.hardware[k].deleting && n >= 7 * |c.hardware[k].taints| + 14
    ensures var c' := Reconciles(c, k, discoveries, n);
            var w := World(c.instances, discoveries);
            && ReconcileHardware(c', k, discoveries) == c' && c'.instances == c.instances
            && StoredAs(c', k, Passes(w, c.hardware[k], n)) && !Passes(w, c.hardware[k], n).deleting
  {
    var c', w := Reconciles(c, k, discoveries, n), World(c.instances, discoveries);
    ReconcilesArePasses(c, k, discoveries, n);
    HardwareConverges(w, c.hardware[k], n);
    PassesUndeleted(w, c.hardware[k], n);
    WriteLowersMeasure(w, Passes(w, c.hardware[k], n));
    PassIgnoresVersion(w, Passes(w, c.hardware[k], n), c'.hardware[k].version);
    hide Reconciles, ReconcileHardware, Passes, Settled, Pass, Refused;
    ReconcileIsPass(c', k, discoveries);
  }

  lemma {:induction false} PassesUndeleted(w: World, h: Hardware, n: nat)
    requires !h.deleting
    ensures !Passes(w, h, n).deleting
    decreases n
  {
    hide Pass;
    if n > 0 {
      PassUndeleted(w, h);
      PassesUndeleted(w, Pass(w, h), n - 1);
    }
  }

  /** And from an object as runs leave them, the exact condition on the store. */
  lemma ReconcilesSettleIff(c: Cluster, k: Key, discoveries: seq<Option<Discovered>>, n: nat)
    requires k in c.hardware && !c.hardware[k].deleting && ReasonsTell(c.hardware[k]) && AsLeft(c.hardware[k])
    requires n >= 7 * |c.hardware[k].taints| + 14
    ensures var c' := Reconciles(c, k, discoveries, n);
            var w := World(c.instances, discoveries);
            var final := c.hardware[k].(discovered := FinalDiscovery(w, c.hardware[k]));
            var fit := HardwareWebhook.FitOrUnknown(final.discovered);
            && ReconcileHardware(c', k, discoveries) == c'
            && k in c'.hardware
            && c'.hardware[k].discovered == final.discovered && (HardwareReady(c'.hardware[k]) <==> HardwareReady(final))
            && (Settled(w, c'.hardware[k]) <==> fit || !HardwareReady(final))
            && (c'.hardware[k].HasTaint(NotReadyKey) <==> !HardwareReady(final) || !fit)
            && (c'.hardware[k].HasTaint(NoScheduleKey) <==> !final.canProvision)
  {
    var c', h, w := Reconciles(c, k, discoveries, n), c.hardware[k], World(c.instances, discoveries);
    StoreComesToRest(c, k, discoveries, n);
    HardwareSettlesIff(w, h, n);
    PassIgnoresVersion(w, Passes(w, h, n), c'.hardware[k].version);
    hide Reconciles, ReconcileHardware, Passes, Settled, Pass, FinalDiscovery, Others, ReasonsTell;
  }
}
