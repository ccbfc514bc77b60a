// webhooks/baremetalhardware_webhook.go: which creates and updates of hardware are admitted.
module HardwareWebhook {
  import opened Common
  import opened Objects
  import MacAddresses

  const ACTIVE_BACKUP := "active-backup"

  datatype NicError = DuplicateNic(index: nat) | MultiplePrimary(index: nat) | NoPrimary

  /** The name was used by an earlier NIC. */
  predicate Repeated(nics: seq<NIC>, i: nat)
    requires i < |nics|
  {
    exists j :: 0 <= j < i && nics[j].name == nics[i].name
  }

  /** A primary NIC that is not counted out as a duplicate. */
  predicate CountsAsPrimary(nics: seq<NIC>, i: nat)
    requires i < |nics|
  {
    nics[i].primary && !Repeated(nics, i)
  }

  predicate PrimaryBefore(nics: seq<NIC>, i: nat)
    requires i <= |nics|
  {
    exists j :: 0 <= j < i && CountsAsPrimary(nics, j)
  }

  /** What each error says about a NIC list. */
  predicate Faulty(nics: seq<NIC>, e: NicError) {
    match e
    case DuplicateNic(i) => i < |nics| && Repeated(nics, i)
    case MultiplePrimary(i) => i < |nics| && CountsAsPrimary(nics, i) && PrimaryBefore(nics, i)
    case NoPrimary => nics != [] && !PrimaryBefore(nics, |nics|)
  }

  predicate DistinctNicNames(nics: seq<NIC>) {
    forall i, j :: 0 <= i < j < |nics| ==> nics[i].name != nics[j].name
  }

  /** The only primary NIC. */
  predicate OnlyPrimary(nics: seq<NIC>, p: nat) {
    p < |nics| && nics[p].primary && forall i :: 0 <= i < |nics| && nics[i].primary ==> i == p
  }

  predicate NicsAllowed(nics: seq<NIC>) {
    nics == [] || (DistinctNicNames(nics) && exists p :: 0 <= p < |nics| && OnlyPrimary(nics, p))
  }

  // What is wrong with discovered hardware.
  datatype DiscoveredError =
    | ZeroCpus
    | ZeroRam
    | RepeatedStorage(index: nat)
    | InvalidMac(index: nat)
    | RepeatedNic(index: nat)

  predicate Unfit(found: Discovered, e: DiscoveredError) {
    match e
    case ZeroCpus => found.cpus == 0
    case ZeroRam => found.ram == 0
    case RepeatedStorage(i) => i < |found.storage| && found.storage[i] in found.storage[..i]
    case InvalidMac(i) => i < |found.nics| && !MacAddresses.Parses(found.nics[i].mac)
    case RepeatedNic(i) => i < |found.nics| && exists j :: 0 <= j < i && found.nics[j].name == found.nics[i].name
  }

  /** Nothing is wrong with the discovered hardware. */
  predicate Fit(found: Discovered) {
    && found.cpus != 0 && found.ram != 0
    && (forall i, j :: 0 <= i < j < |found.storage| ==> found.storage[i] != found.storage[j])
    && (forall i :: 0 <= i < |found.nics| ==> MacAddresses.Parses(found.nics[i].mac))
    && (forall i, j :: 0 <= i < j < |found.nics| ==> found.nics[i].name != found.nics[j].name)
  }

  // What is wrong with a hardware object beyond its NICs. A listing that failed is None; otherwise
  // it counts the objects with the system UUID.
  datatype HardwareError =
    | ListFailed
    | DuplicateUUID
    | HardwareOnCreate
    | InstanceRefOnCreate
    | ConditionRemoved(conditionType: HardwareConditionType)
    | UUIDChanged
    | HardwareChanged
    | UnfitHardware(unfit: DiscoveredError)
    | BadNics(nicError: NicError)

  predicate RejectsCreate(existing: Option<nat>, bmh: Hardware, e: HardwareError) {
    match e
    case ListFailed => existing.None?
    case DuplicateUUID => existing.Some? && existing.value > 0
    case HardwareOnCreate => bmh.discovered.Some?
    case InstanceRefOnCreate => bmh.instanceRef.Some?
    case BadNics(n) => Faulty(bmh.nics, n)
    case _ => false
  }

  predicate RejectsUpdate(was: Hardware, now: Hardware, e: HardwareError) {
    match e
    case ConditionRemoved(t) => t in was.conditions && t !in now.conditions
    case UUIDChanged => now.systemUUID != was.systemUUID
    case HardwareChanged => was.discovered.Some? && now.discovered != was.discovered
    case UnfitHardware(u) =>
      was.discovered.Some? && now.discovered == was.discovered && Unfit(was.discovered.value, u)
    case BadNics(n) => Faulty(now.nics, n)
    case _ => false
  }

  /** What was discovered does not stand in the way of an update. */
  predicate FitOrUnknown(discovered: Option<Discovered>) {
    discovered.Some? ==> Fit(discovered.value)
  }

  /** An update of the main resource that is let through. */
  predicate Admitted(was: Hardware, now: Hardware) {
    && (forall t :: t in was.conditions ==> t in now.conditions)
    && now.systemUUID == was.systemUUID
    && (was.discovered.Some? ==> now.discovered == was.discovered && Fit(was.discovered.value))
    && NicsAllowed(now.nics)
  }

  /** A bond without a mode is an active backup. */
  function WithDefaultMode(nic: NIC): NIC {
    if nic.bond.Some? && nic.bond.value.mode == "" then nic.(bond := Some(nic.bond.value.(mode := ACTIVE_BACKUP)))
    else nic
  }

  lemma {:induction false} DefaultKeepsAllowed(nics: seq<NIC>, after: seq<NIC>)
    requires |after| == |nics| && forall i :: 0 <= i < |nics| ==> after[i] == WithDefaultMode(nics[i])
    ensures NicsAllowed(after) <==> NicsAllowed(nics)
  {
    if nics != [] {
      assert forall i :: 0 <= i < |nics| ==> after[i].name == nics[i].name && after[i].primary == nics[i].primary;
      assert forall p :: OnlyPrimary(after, p) <==> OnlyPrimary(nics, p);
    }
  }

  class BareMetalHardwareWebhook {

    method NicErrors(nics: seq<NIC>) returns (allErrs: seq<HardwareError>)
      ensures forall e :: e in allErrs <==> e.BadNics? && Faulty(nics, e.nicError)
    {
      var errs := ValidateNICs(nics);
      allErrs := [];
      for i := 0 to |errs|
        invariant forall e :: e in allErrs <==> e.BadNics? && e.nicError in errs[..i]
      {
        allErrs := allErrs + [BadNics(errs[i])];
      }
      assert errs[..|errs|] == errs;
    }

    method ValidateCreate(existing: Option<nat>, bmh: Hardware) returns (allErrs: seq<HardwareError>)
      ensures forall e :: e in allErrs <==> RejectsCreate(existing, bmh, e)
    {
      allErrs := [];
      if existing == None {
        allErrs := allErrs + [ListFailed];
      } else if existing.value > 0 {
        allErrs := allErrs + [DuplicateUUID];
      }
      if bmh.discovered != None {
        allErrs := allErrs + [HardwareOnCreate];
      }
      if bmh.instanceRef != None {
        allErrs := allErrs + [InstanceRefOnCreate];
      }
      var errs := NicErrors(bmh.nics);
      allErrs := allErrs + errs;
    }

    /** The check of discovered hardware that the hardware and the discovery webhook share. */
    method ValidateHardware(found: Discovered) returns (allErrs: seq<DiscoveredError>)
      ensures forall e :: e in allErrs <==> Unfit(found, e)
      ensures allErrs == [] <==> Fit(found)
    {
      allErrs := [];
      if found.cpus == 0 {
        allErrs := allErrs + [ZeroCpus];
      }
      if found.ram == 0 {
        allErrs := allErrs + [ZeroRam];
      }
      for i := 0 to |found.storage|
        invariant forall e :: e in allErrs <==>
                    (e.ZeroCpus? || e.ZeroRam? || (e.RepeatedStorage? && e.index < i)) && Unfit(found, e)
      {
        ghost var before := allErrs;
        for j := 0 to i
          invariant forall e :: e in allErrs <==>
                      e in before || (e == RepeatedStorage(i) && found.storage[i] in found.storage[..j])
        {
          if found.storage[j] == found.storage[i] {
            allErrs := allErrs + [RepeatedStorage(i)];
          }
        }
      }
      for i := 0 to |found.nics|
        invariant forall e :: e in allErrs <==>
                    (e.InvalidMac? || e.RepeatedNic? ==> e.index < i) && Unfit(found, e)
      {
        if !MacAddresses.Parses(found.nics[i].mac) {
          allErrs := allErrs + [InvalidMac(i)];
        }
        ghost var before := allErrs;
        for j := 0 to i
          invariant forall e :: e in allErrs <==>
                      e in before || (e == RepeatedNic(i) && exists l :: 0 <= l < j && found.nics[l].name == found.nics[i].name)
        {
          if found.nics[j].name == found.nics[i].name {
            allErrs := allErrs + [RepeatedNic(i)];
          }
        }
      }
      NoFaultIsFit(found);
      assert allErrs != [] ==> allErrs[0] in allErrs;
    }

    method ValidateUpdate(now: Hardware, was: Hardware) returns (allErrs: seq<HardwareError>)
      ensures forall e :: e in allErrs <==> RejectsUpdate(was, now, e)
      ensures allErrs == [] <==> Admitted(was, now)
    {
      allErrs := [];
      var rest := was.conditions.Keys;
      while rest != {}
        invariant rest <= was.conditions.Keys
        invariant forall e :: e in allErrs <==>
                    e.ConditionRemoved? && e.conditionType in was.conditions.Keys - rest && e.conditionType !in now.conditions
        decreases rest
      {
        var t :| t in rest;
        rest := rest - {t};
        if t !in now.conditions {
          allErrs := allErrs + [ConditionRemoved(t)];
        }
      }
      if now.systemUUID != was.systemUUID {
        allErrs := allErrs + [UUIDChanged];
      }
      if was.discovered != None {
        if now.discovered != was.discovered {
          allErrs := allErrs + [HardwareChanged];
        } else {
          var unfit := ValidateHardware(was.discovered.value);
          ghost var before := allErrs;
          for i := 0 to |unfit|
            invariant forall e :: e in allErrs <==> e in before || (e.UnfitHardware? && e.unfit in unfit[..i])
          {
            allErrs := allErrs + [UnfitHardware(unfit[i])];
          }
          assert unfit[..|unfit|] == unfit;
        }
      }
      var errs := NicErrors(now.nics);
      allErrs := allErrs + errs;
      NoErrorIsAdmitted(was, now);
      assert allErrs != [] ==> allErrs[0] in allErrs;
    }

    /** What a create or update is filled up with: the finalizer, and the bond modes, which are
        behind pointers and filled in in place. An object that is being deleted is left alone. */
    method Default(deleting: bool, finalizers: set<Finalizer>, nics: array<NIC>) returns (after: set<Finalizer>)
      modifies nics
      ensures after == if deleting then finalizers else finalizers + {OwnFinalizer}
      ensures forall i :: 0 <= i < nics.Length ==>
                nics[i] == if deleting then old(nics[i]) else WithDefaultMode(old(nics[i]))
    {
      after := finalizers;
      if !deleting {
        if OwnFinalizer !in finalizers {
          after := finalizers + {OwnFinalizer};
        }
        for i := 0 to nics.Length
          invariant forall j :: i <= j < nics.Length ==> nics[j] == old(nics[j])
          invariant forall j :: 0 <= j < i ==> nics[j] == WithDefaultMode(old(nics[j]))
        {
          var nic := nics[i];
          if nic.bond != None {
            if |nic.bond.value.mode| == 0 {
              nics[i] := nic.(bond := Some(nic.bond.value.(mode := ACTIVE_BACKUP)));
            }
          }
        }
      }
    }

    /** Every fault is reported, and nothing else. */
    method ValidateNICs(nics: seq<NIC>) returns (allErrs: seq<NicError>)
      ensures forall e :: e in allErrs <==> Faulty(nics, e)
      ensures allErrs == [] <==> NicsAllowed(nics)
    {
      allErrs := [];
      if |nics| > 0 {
        var foundPrimary := false;
        var foundNICS: seq<string> := [];
        for i := 0 to |nics|
          invariant forall name :: name in foundNICS <==> exists j :: 0 <= j < i && nics[j].name == name
          invariant foundPrimary <==> PrimaryBefore(nics, i)
          invariant forall e :: e in allErrs <==> !e.NoPrimary? && e.index < i && Faulty(nics, e)
        {
          var nic := nics[i];
          var duplicateNIC := false;
          for f := 0 to |foundNICS|
            invariant duplicateNIC <==> nic.name in foundNICS[..f]
          {
            if nic.name == foundNICS[f] {
              duplicateNIC := true;
            }
          }
          assert foundNICS[..|foundNICS|] == foundNICS;
          assert duplicateNIC <==> Repeated(nics, i);
          if duplicateNIC {
            allErrs := allErrs + [DuplicateNic(i)];
          } else {
            foundNICS := foundNICS + [nic.name];
            if nic.primary {
              if foundPrimary {
                allErrs := allErrs + [MultiplePrimary(i)];
              }
              assert CountsAsPrimary(nics, i);
              foundPrimary := true;
            }
          }
        }
        if !foundPrimary {
          allErrs := allErrs + [NoPrimary];
        }
      }
      NoFaultIsAllowed(nics);
      assert allErrs != [] ==> allErrs[0] in allErrs;
    }
  }

  lemma NoFaultIsAllowed(nics: seq<NIC>)
    ensures NicsAllowed(nics) <==> forall e :: !Faulty(nics, e)
  {
    if NicsAllowed(nics) && nics != [] {
      var p :| 0 <= p < |nics| && OnlyPrimary(nics, p);
      assert CountsAsPrimary(nics, p);
    }
    if forall e :: !Faulty(nics, e) {
      forall i, j | 0 <= i < j < |nics| ensures nics[i].name != nics[j].name {
        assert !Faulty(nics, DuplicateNic(j));
      }
      if nics != [] {
        assert !Faulty(nics, NoPrimary);
        var p :| 0 <= p < |nics| && CountsAsPrimary(nics, p);
        forall i | 0 <= i < |nics| && nics[i].primary ensures i == p {
          assert !Faulty(nics, DuplicateNic(i)) && !Faulty(nics, MultiplePrimary(i)) && !Faulty(nics, MultiplePrimary(p));
          assert CountsAsPrimary(nics, i);
        }
        assert OnlyPrimary(nics, p);
      }
    }
  }

  lemma NoFaultIsFit(found: Discovered)
    ensures Fit(found) <==> forall e :: !Unfit(found, e)
  {
    if forall e :: !Unfit(found, e) {
      assert !Unfit(found, ZeroCpus) && !Unfit(found, ZeroRam);
      forall i, j | 0 <= i < j < |found.storage| ensures found.storage[i] != found.storage[j] {
        assert !Unfit(found, RepeatedStorage(j));
        assert found.storage[..j][i] == found.storage[i];
      }
      forall i | 0 <= i < |found.nics| ensures MacAddresses.Parses(found.nics[i].mac) {
        assert !Unfit(found, InvalidMac(i));
      }
      forall i, j | 0 <= i < j < |found.nics| ensures found.nics[i].name != found.nics[j].name {
        assert !Unfit(found, RepeatedNic(j));
      }
    }
  }

  lemma NoErrorIsAdmitted(was: Hardware, now: Hardware)
    ensures Admitted(was, now) <==> forall e :: !RejectsUpdate(was, now, e)
  {
    NoFaultIsAllowed(now.nics);
    if was.discovered.Some? {
      NoFaultIsFit(was.discovered.value);
    }
    hide NicsAllowed, Fit, Unfit, Faulty;
    if forall e :: !RejectsUpdate(was, now, e) {
      assert !RejectsUpdate(was, now, UUIDChanged) && !RejectsUpdate(was, now, HardwareChanged);
      forall t | t in was.conditions ensures t in now.conditions {
        assert !RejectsUpdate(was, now, ConditionRemoved(t));
      }
      forall n ensures !Faulty(now.nics, n) {
        assert !RejectsUpdate(was, now, BadNics(n));
      }
      if was.discovered.Some? {
        forall u ensures !Unfit(was.discovered.value, u) {
          assert !RejectsUpdate(was, now, UnfitHardware(u));
        }
      }
    }
  }
}
