// webhooks/baremetalendpoint_webhook.go: which creates of endpoints are admitted.
module EndpointWebhook {
  import opened Common
  import opened Endpoints
  import MacAddresses

  datatype EndpointError = AddressOnCreate | InvalidBondMac(index: nat) | RepeatedBondMac(index: nat) | InvalidMac

  predicate RejectsCreate(obj: Endpoint, e: EndpointError) {
    match e
    case AddressOnCreate => obj.address.Some?
    case InvalidBondMac(i) => obj.bond.Some? && i < |obj.bond.value.macs| && !MacAddresses.Parses(obj.bond.value.macs[i])
    case RepeatedBondMac(i) => obj.bond.Some? && Repeated(obj.bond.value.macs, i)
    case InvalidMac => !MacAddresses.Parses(obj.mac)
  }

  /** The MAC address is in the list another time. */
  predicate Repeated(macs: seq<string>, i: nat) {
    i < |macs| && exists j :: 0 <= j < |macs| && j != i && macs[j] == macs[i]
  }

  class BareMetalEndpointWebhook {

    method BondErrors(macs: seq<string>) returns (allErrs: seq<EndpointError>)
      ensures forall e :: e in allErrs <==>
                || (e.InvalidBondMac? && e.index < |macs| && !MacAddresses.Parses(macs[e.index]))
                || (e.RepeatedBondMac? && Repeated(macs, e.index))
    {
      allErrs := [];
      for i := 0 to |macs|
        invariant forall e :: e in allErrs <==>
                    || (e.InvalidBondMac? && e.index < i && !MacAddresses.Parses(macs[e.index]))
                    || (e.RepeatedBondMac? && e.index < i && Repeated(macs, e.index))
      {
        if !MacAddresses.Parses(macs[i]) {
          allErrs := allErrs + [InvalidBondMac(i)];
        }
        ghost var before := allErrs;
        for j := 0 to |macs|
          invariant forall e :: e in allErrs <==>
                      e in before || (e == RepeatedBondMac(i) && exists l :: 0 <= l < j && l != i && macs[l] == macs[i])
        {
          if i == j {
            continue;
          }
          if macs[i] == macs[j] {
            allErrs := allErrs + [RepeatedBondMac(i)];
          }
        }
      }
    }

    /** Every error is reported, and nothing else; the create is let through exactly without one. */
    method ValidateCreate(obj: Endpoint) returns (allErrs: seq<EndpointError>)
      ensures forall e :: e in allErrs <==> RejectsCreate(obj, e)
      ensures allErrs == [] <==> Admits(obj)
    {
      hide Admits, MacAddresses.Parses;
      allErrs := [];
      if obj.address != None {
        allErrs := allErrs + [AddressOnCreate];
      }
      if obj.bond != None {
        var errs := BondErrors(obj.bond.value.macs);
        allErrs := allErrs + errs;
      }
      if !MacAddresses.Parses(obj.mac) {
        allErrs := allErrs + [InvalidMac];
      }
      NoErrorIsAdmitted(obj);
      assert allErrs != [] ==> allErrs[0] in allErrs;
    }
  }

  lemma NoErrorIsAdmitted(obj: Endpoint)
    ensures Admits(obj) <==> forall e :: !RejectsCreate(obj, e)
  {
    hide MacAddresses.Parses;
    if forall e :: !RejectsCreate(obj, e) {
      assert !RejectsCreate(obj, AddressOnCreate) && !RejectsCreate(obj, InvalidMac);
      if obj.bond.Some? {
        var macs := obj.bond.value.macs;
        forall i | 0 <= i < |macs| ensures MacAddresses.Parses(macs[i]) {
          assert !RejectsCreate(obj, InvalidBondMac(i));
        }
        forall i, j | 0 <= i < j < |macs| ensures macs[i] != macs[j] {
          assert !RejectsCreate(obj, RepeatedBondMac(j));
        }
      }
    }
  }
}
