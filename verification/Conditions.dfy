// apis/condition/v1/condition.go: the condition list of a status, and the map it stands for.
module Conditions {
  import opened Common

  // lastTransitionTime 0 stands for a nil or zero metav1.Time.
  datatype StatusCondition = StatusCondition(
    conditionType: string,
    status: string,
    lastTransitionTime: nat,
    reason: string,
    message: string)

  predicate FullyFormed(c: StatusCondition) {
    c.conditionType != "" && c.status != "" && c.lastTransitionTime != 0
  }

  /** The position of the first condition of type t, or |cs| when there is none. */
  function IndexOf(cs: seq<StatusCondition>, t: string): (i: nat)
    ensures i <= |cs|
    ensures i < |cs| ==> cs[i].conditionType == t
    ensures forall j :: 0 <= j < i ==> cs[j].conditionType != t
  {
    if cs == [] || cs[0].conditionType == t then 0
    else IndexOf(cs[1..], t) + 1
  }

  /** The condition a reader sees for type t. */
  function Lookup(cs: seq<StatusCondition>, t: string): Option<StatusCondition> {
    var i := IndexOf(cs, t);
    if i < |cs| then Some(cs[i]) else None
  }

  /** The condition that is stored when c is set over what a reader saw before. */
  function Merge(before: Option<StatusCondition>, c: StatusCondition): StatusCondition {
    if before.Some? && before.value.status == c.status
    then c.(lastTransitionTime := before.value.lastTransitionTime)
    else c
  }

  /** The list after a fully formed condition was set. */
  function Upsert(cs: seq<StatusCondition>, c: StatusCondition): (r: seq<StatusCondition>)
    ensures |cs| <= |r| <= |cs| + 1
  {
    var i := IndexOf(cs, c.conditionType);
    var stored := Merge(Lookup(cs, c.conditionType), c);
    if i < |cs| then cs[i := stored] else cs + [stored]
  }

  class StatusConditions {
    var conditions: seq<StatusCondition>

    constructor ()
      ensures conditions == []
    {
      conditions := [];
    }

    method GetCondition(conditionType: string) returns (found: Option<StatusCondition>)
      ensures found == Lookup(conditions, conditionType)
    {
      for i := 0 to |conditions|
        invariant forall j :: 0 <= j < i ==> conditions[j].conditionType != conditionType
      {
        var cond := conditions[i];
        if cond.conditionType == conditionType {
          return Some(cond);
        }
      }
      return None;
    }

    method SetCondition(newCondition: StatusCondition) returns (err: Outcome)
      modifies this
      ensures err.Fail? <==> !FullyFormed(newCondition)
      ensures err.Fail? ==> conditions == old(conditions)
      ensures err.Pass? ==> conditions == Upsert(old(conditions), newCondition)
    {
      if newCondition.conditionType == "" || newCondition.status == "" || newCondition.lastTransitionTime == 0 {
        return Fail("condition is not fully formed");
      }
      var stored := newCondition;
      for idx := 0 to |conditions|
        invariant conditions == old(conditions)
        invariant forall j :: 0 <= j < idx ==> conditions[j].conditionType != newCondition.conditionType
      {
        var cond := conditions[idx];
        if cond.conditionType != newCondition.conditionType {
          continue;
        }
        if cond.status == newCondition.status {
          stored := stored.(lastTransitionTime := cond.lastTransitionTime);
        }
        conditions := conditions[idx := stored];
        return Pass;
      }
      conditions := conditions + [stored];
      return Pass;
    }
  }

  // ---------------------------------------------------------------- the list as a map

  lemma IndexIsFirst(cs: seq<StatusCondition>, t: string, i: nat)
    requires i <= |cs|
    requires i < |cs| ==> cs[i].conditionType == t
    requires forall j :: 0 <= j < i ==> cs[j].conditionType != t
    ensures IndexOf(cs, t) == i
  {
  }

  /** One call: the type that was set reads back as Merge says, every other type is untouched. */
  lemma UpsertReads(cs: seq<StatusCondition>, c: StatusCondition, t: string)
    ensures Lookup(Upsert(cs, c), t) ==
            if t == c.conditionType then Some(Merge(Lookup(cs, t), c)) else Lookup(cs, t)
  {
    var r := Upsert(cs, c);
    var i := IndexOf(cs, c.conditionType);
    if t == c.conditionType {
      IndexIsFirst(r, t, i);
    } else {
      var k := IndexOf(cs, t);
      if k < |cs| {
        IndexIsFirst(r, t, k);
      } else {
        IndexIsFirst(r, t, |r|);
      }
    }
  }

  ghost predicate DistinctTypes(cs: seq<StatusCondition>) {
    forall i, j :: 0 <= i < j < |cs| ==> cs[i].conditionType != cs[j].conditionType
  }

  function Types(cs: seq<StatusCondition>): (r: seq<string>)
    ensures |r| == |cs|
  {
    seq(|cs|, i requires 0 <= i < |cs| => cs[i].conditionType)
  }

  /** The list after a sequence of SetCondition calls; calls that are not fully formed change nothing. */
  function SetAll(cs: seq<StatusCondition>, calls: seq<StatusCondition>): seq<StatusCondition>
    decreases |calls|
  {
    if calls == [] then cs
    else
      var before := SetAll(cs, calls[..|calls| - 1]);
      var c := calls[|calls| - 1];
      if FullyFormed(c) then Upsert(before, c) else before
  }

  /** The last fully formed call for type t. */
  function LastSet(calls: seq<StatusCondition>, t: string): (r: Option<StatusCondition>)
    ensures r.Some? ==> r.value in calls && r.value.conditionType == t && FullyFormed(r.value)
    ensures r.None? ==> forall c :: c in calls && FullyFormed(c) ==> c.conditionType != t
  {
    if calls == [] then None
    else
      var c := calls[|calls| - 1];
      if FullyFormed(c) && c.conditionType == t then Some(c) else LastSet(calls[..|calls| - 1], t)
  }

  /** The time of the oldest of the last calls for t that all carry the same status, taking in
      the condition that was there before the calls. */
  function SinceWhen(before: Option<StatusCondition>, calls: seq<StatusCondition>, t: string, status: string): (r: Option<nat>)
  {
    if calls == [] then
      if before.Some? && before.value.status == status then Some(before.value.lastTransitionTime) else None
    else
      var c := calls[|calls| - 1];
      var rest := calls[..|calls| - 1];
      if !FullyFormed(c) || c.conditionType != t then SinceWhen(before, rest, t, status)
      else if c.status != status then None
      else
        match SinceWhen(before, rest, t, status)
        case Some(time) => Some(time)
        case None => Some(c.lastTransitionTime)
  }

  /** Over any sequence of calls a reader sees the last fully formed call for its type, stamped
      with the time the current status was first reported without interruption. */
  lemma {:induction false} SetAllReadsLast(cs: seq<StatusCondition>, calls: seq<StatusCondition>, t: string)
    ensures var now := Lookup(SetAll(cs, calls), t);
            match LastSet(calls, t)
            case None => now == Lookup(cs, t)
            case Some(c) =>
              && now.Some?
              && SinceWhen(Lookup(cs, t), calls, t, c.status).Some?
              && now.value == c.(lastTransitionTime := SinceWhen(Lookup(cs, t), calls, t, c.status).value)
    decreases |calls|
  {
    if calls != [] {
      var rest := calls[..|calls| - 1];
      var c := calls[|calls| - 1];
      SetAllReadsLast(cs, rest, t);
      if FullyFormed(c) {
        UpsertReads(SetAll(cs, rest), c, t);
        if c.conditionType == t {
          SinceWhenIsHeld(Lookup(cs, t), rest, t, c.status);
        }
      }
    }
  }

  /** SinceWhen answers exactly when the current status is the one asked about. */
  lemma {:induction false} SinceWhenIsHeld(before: Option<StatusCondition>, calls: seq<StatusCondition>,
                                           t: string, status: string)
    ensures SinceWhen(before, calls, t, status).Some? <==>
            match LastSet(calls, t)
            case Some(c) => c.status == status
            case None => before.Some? && before.value.status == status
    ensures LastSet(calls, t).None? && before.Some? && before.value.status == status ==>
              SinceWhen(before, calls, t, status) == Some(before.value.lastTransitionTime)
  {
    if calls != [] {
      SinceWhenIsHeld(before, calls[..|calls| - 1], t, status);
    }
  }

  /** From a list with distinct types, any sequence of calls keeps the types distinct and in
      place: new types are only ever added at the end. */
  lemma {:induction false} SetAllKeepsTypes(cs: seq<StatusCondition>, calls: seq<StatusCondition>)
    requires DistinctTypes(cs)
    ensures DistinctTypes(SetAll(cs, calls))
    ensures Types(cs) <= Types(SetAll(cs, calls))
    ensures forall t :: t in Types(SetAll(cs, calls)) <==> t in Types(cs) || LastSet(calls, t).Some?
    decreases |calls|
  {
    if calls != [] {
      var rest := calls[..|calls| - 1];
      var c := calls[|calls| - 1];
      SetAllKeepsTypes(cs, rest);
      var before := SetAll(cs, rest);
      if FullyFormed(c) {
        var after := Upsert(before, c);
        var i := IndexOf(before, c.conditionType);
        if i < |before| {
          assert Types(after) == Types(before);
          assert Types(before)[i] == c.conditionType;
        } else {
          assert Types(after) == Types(before) + [c.conditionType];
        }
      }
    }
  }

  /** LastTransitionTime changes at a call exactly when the call is for that type and the status
      differs from the one stored (or there was none). */
  lemma TransitionTimeMovesWithStatus(cs: seq<StatusCondition>, c: StatusCondition, t: string)
    requires Lookup(cs, t).Some?
    ensures Lookup(Upsert(cs, c), t).Some?
    ensures var before := Lookup(cs, t).value;
            var after := Lookup(Upsert(cs, c), t).value;
            && (after.status == before.status ==> after.lastTransitionTime == before.lastTransitionTime)
            && (after.status != before.status ==>
                  t == c.conditionType && after.lastTransitionTime == c.lastTransitionTime)
  {
    UpsertReads(cs, c, t);
  }

  /** The map from type to condition that a list stands for. */
  function AsMap(cs: seq<StatusCondition>): (m: map<string, StatusCondition>)
    ensures forall t :: t in m <==> Lookup(cs, t).Some?
    ensures forall t :: t in m ==> m[t] == Lookup(cs, t).value
  {
    map i | 0 <= i < |cs| :: cs[i].conditionType := Lookup(cs, cs[i].conditionType).value
  }

  /** Setting a condition is a map update, whatever the list. */
  lemma SetIsMapUpdate(cs: seq<StatusCondition>, c: StatusCondition)
    ensures AsMap(Upsert(cs, c)) == AsMap(cs)[c.conditionType := Merge(Lookup(cs, c.conditionType), c)]
  {
    var m, n := AsMap(Upsert(cs, c)), AsMap(cs)[c.conditionType := Merge(Lookup(cs, c.conditionType), c)];
    forall t ensures t in m <==> t in n {
      UpsertReads(cs, c, t);
    }
    forall t | t in m ensures m[t] == n[t] {
      UpsertReads(cs, c, t);
    }
  }
}
