/** Container resource limits derived from requests (patchResourceLimits). */
module ResourceLimits {

  datatype Resource = Cpu | Memory | Other(name: string)

  /** Sub-units (nano) per whole unit. */
  const UNIT := 1_000_000_000

  datatype Format = DecimalSI | BinarySI | DecimalExponent

  datatype Quantity = Quantity(nano: int, format: Format)

  type ResourceList = map<Resource, Quantity>

  function ValueIn(rl: ResourceList, name: Resource): Quantity {
    if name in rl then rl[name] else Quantity(0, if name == Memory then BinarySI else DecimalSI)
  }

  predicate IsZero(q: Quantity) {
    q.nano == 0
  }

  /** Quantity.Value: whole units, rounded away from zero. */
  function Value(q: Quantity): int {
    if q.nano >= 0 then (q.nano + UNIT - 1) / UNIT else -((-q.nano + UNIT - 1) / UNIT)
  }

  function Whole(q: Quantity): Quantity {
    Quantity(Value(q) * UNIT, q.format)
  }

  /** The rebuilt entry for CPU or memory: from the limit if there is one, else from the request. */
  function Rebuilt(name: Resource, requests: ResourceList, limits: ResourceList): ResourceList {
    if !IsZero(ValueIn(limits, name)) then map[name := Whole(ValueIn(limits, name))]
    else if !IsZero(ValueIn(requests, name)) then map[name := Whole(ValueIn(requests, name))]
    else map[]
  }

  function Others(requests: ResourceList): ResourceList {
    map k | k in requests && k != Cpu && k != Memory :: requests[k]
  }

  predicate Complete(limits: ResourceList) {
    !IsZero(ValueIn(limits, Cpu)) && !IsZero(ValueIn(limits, Memory))
  }

  function Patched(requests: ResourceList, limits: ResourceList): ResourceList {
    if Complete(limits) then limits
    else Others(requests) + (Rebuilt(Cpu, requests, limits) + Rebuilt(Memory, requests, limits))
  }

  method PatchResourceLimits(requests: ResourceList, limits: ResourceList) returns (newLimits: ResourceList)
    ensures newLimits == Patched(requests, limits)
  {
    var cpu, memory := ValueIn(limits, Cpu), ValueIn(limits, Memory);
    if !IsZero(cpu) && !IsZero(memory) {
      return limits;
    }
    newLimits := map[];
    if !IsZero(cpu) {
      newLimits := newLimits[Cpu := Whole(cpu)];
    } else if IsZero(cpu) && !IsZero(ValueIn(requests, Cpu)) {
      newLimits := newLimits[Cpu := Whole(ValueIn(requests, Cpu))];
    }
    assert newLimits == Rebuilt(Cpu, requests, limits);
    if !IsZero(memory) {
      newLimits := newLimits[Memory := Whole(memory)];
    } else if IsZero(memory) && !IsZero(ValueIn(requests, Memory)) {
      newLimits := newLimits[Memory := Whole(ValueIn(requests, Memory))];
    }
    assert newLimits == Rebuilt(Cpu, requests, limits) + Rebuilt(Memory, requests, limits);
    newLimits := CopyOthers(requests, newLimits);
  }

  /** The loop of patchResourceLimits that copies the rest of the requests. */
  method CopyOthers(requests: ResourceList, rebuilt: ResourceList) returns (newLimits: ResourceList)
    requires rebuilt.Keys <= {Cpu, Memory}
    ensures newLimits == Others(requests) + rebuilt
  {
    newLimits := rebuilt;
    var todo := requests.Keys;
    while todo != {}
      invariant todo <= requests.Keys
      invariant newLimits == (map k | k in requests && k !in todo && k != Cpu && k != Memory :: requests[k]) + rebuilt
      decreases todo
    {
      var k :| k in todo;
      if k != Cpu && k != Memory {
        newLimits := newLimits[k := requests[k]];
      }
      todo := todo - {k};
    }
  }

  /** Rounding up gives the least whole amount that is not below a nonnegative source. */
  lemma WholeIsLeastUpper(q: Quantity, units: int)
    requires q.nano >= 0
    ensures q.nano <= Whole(q).nano
    ensures q.nano <= units * UNIT <==> Value(q) <= units
  {
  }

  lemma WholeIsStable(q: Quantity)
    ensures Whole(Whole(q)) == Whole(q)
    ensures IsZero(Whole(q)) <==> IsZero(q)
  {
    var v := Value(q);
    if q.nano >= 0 {
      assert (v * UNIT + UNIT - 1) / UNIT == v;
    } else {
      assert (-v * UNIT + UNIT - 1) / UNIT == -v;
    }
  }

  lemma PatchIsIdempotent(requests: ResourceList, limits: ResourceList)
    ensures Patched(requests, Patched(requests, limits)) == Patched(requests, limits)
  {
    forall q: Quantity
      ensures Whole(Whole(q)) == Whole(q) && (IsZero(Whole(q)) <==> IsZero(q))
    {
      WholeIsStable(q);
    }
  }

  /** A nonzero amount is stated. */
  predicate Given(rl: ResourceList, name: Resource) {
    name in rl && rl[name].nano != 0
  }

  /** `w` is `q` rounded away from zero to whole units. */
  predicate RoundedUp(q: Quantity, w: Quantity) {
    && w.format == q.format
    && w.nano % UNIT == 0
    && if q.nano >= 0 then q.nano <= w.nano < q.nano + UNIT else q.nano - UNIT < w.nano <= q.nano
  }

  /**
   When CPU and memory are both limited, the limits stay as they are. Otherwise each of the two is
   the rounded limit or else the rounded request, and every other resource is limited exactly as
   requested: extra limits are dropped.
   */
  ghost predicate CoversRequests(requests: ResourceList, limits: ResourceList, r: ResourceList) {
    if Given(limits, Cpu) && Given(limits, Memory) then r == limits
    else forall name ::
      if name == Cpu || name == Memory then
        if Given(limits, name) then name in r && RoundedUp(limits[name], r[name])
        else if Given(requests, name) then name in r && RoundedUp(requests[name], r[name])
        else name !in r
      else
        if name in requests then name in r && r[name] == requests[name] else name !in r
  }

  lemma WholeIsRoundedUp(q: Quantity)
    ensures RoundedUp(q, Whole(q))
  {
  }

  lemma PatchCoversRequests(requests: ResourceList, limits: ResourceList)
    ensures CoversRequests(requests, limits, Patched(requests, limits))
  {
    forall q: Quantity
      ensures RoundedUp(q, Whole(q))
    {
      WholeIsRoundedUp(q);
    }
  }

  /** A limit that is taken from a request is not below it. */
  lemma RequestFits(requests: ResourceList, limits: ResourceList, name: Resource)
    requires (name == Cpu || name == Memory) && name in requests && requests[name].nano > 0
    requires !(name in limits && limits[name].nano != 0)
    ensures var r := Patched(requests, limits);
      name in r && requests[name].nano <= r[name].nano < requests[name].nano + UNIT
  {
    PatchCoversRequests(requests, limits);
  }
}
