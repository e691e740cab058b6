/** Whole-run results about version numbers and version status. */
module VersionRuns {
  import opened ApiStore
  import opened Conditions
  import opened ModelVersions
  import opened VersionProtocol
  import opened VersionInvariants

  ghost predicate Distinct(numbers: map<ObjKey, int>) {
    forall k1, k2 :: k1 in numbers && k2 in numbers && k1 != k2 ==> numbers[k1] != numbers[k2]
  }

  ghost predicate UpTo(numbers: map<ObjKey, int>, bound: int) {
    forall k :: k in numbers ==> numbers[k] <= bound
  }

  ghost predicate DistinctNumbers(s: State, ref: string) {
    Distinct(Numbers(s.db, ref))
  }

  /** The counter is at least every live number. */
  ghost predicate CounterCovers(s: State, ref: string) {
    UpTo(Numbers(s.db, ref), Counter(s.counters, ref))
  }

  ghost predicate NoCalls(s: State, ref: string) {
    forall id :: id in s.calls ==> s.calls[id].Ref() != ref
  }

  lemma {:induction false} RunsCompose(s: State, first: seq<Step>, second: seq<Step>)
    requires Legal(s, first) && Legal(After(s, first), second)
    ensures Legal(s, first + second) && After(s, first + second) == After(After(s, first), second)
    decreases |first|
  {
    if first == [] {
      assert first + second == second;
    } else {
      RunsCompose(Apply(s, first[0]), first[1..], second);
      assert (first + second)[1..] == first[1..] + second;
    }
  }

  /** A run extended by one step. */
  lemma RunExtends(s: State, steps: seq<Step>, step: Step)
    requires Legal(s, steps) && Enabled(After(s, steps), step)
    ensures Legal(s, steps + [step]) && After(s, steps + [step]) == Apply(After(s, steps), step)
  {
    var s' := After(s, steps);
    assert [step][1..] == [];
    assert Legal(Apply(s', step), []) && After(Apply(s', step), []) == Apply(s', step);
    assert Legal(s', [step]) && After(s', [step]) == After(Apply(s', step), []);
    RunsCompose(s, steps, [step]);
  }

  // ----- Status writers: nothing is lost under any interleaving -----

  lemma FrozenIsTransitive(db: VersionDb, db': VersionDb, db'': VersionDb)
    requires Frozen(db, db') && Frozen(db', db'')
    ensures Frozen(db, db'')
  {
  }

  lemma {:induction false} RunFreezes(s: State, steps: seq<Step>)
    requires WellFormed(s) && Legal(s, steps)
    ensures WellFormed(After(s, steps)) && Frozen(s.db, After(s, steps).db)
    decreases |steps|
  {
    if steps == [] {
    } else {
      StepKeepsWellFormed(s, steps[0]);
      StepFreezes(s, steps[0]);
      RunFreezes(Apply(s, steps[0]), steps[1..]);
      FrozenIsTransitive(s.db, Apply(s, steps[0]).db, After(s, steps).db);
    }
  }

  /**
   Under every interleaving of AssignVersion, OnChange and ConfigModelDeployment on stale
   copies, with crashes and user edits: an assigned number and a generated config are final.
   */
  lemma NumberAndConfigAreFinal(s: State, steps: seq<Step>, k: ObjKey)
    requires WellFormed(s) && Legal(s, steps)
    requires k in s.db.objects && k in After(s, steps).db.objects
    requires After(s, steps).db.objects[k].uid == s.db.objects[k].uid
    ensures var v, v' := s.db.objects[k], After(s, steps).db.objects[k];
      && (v.status.assignedCond.status == Yes ==>
            v'.status.assignedCond.status == Yes && v'.status.version == v.status.version)
      && (v.status.configuredCond.status == Yes ==>
            v'.status.configuredCond.status == Yes && v'.status.config == v.status.config)
  {
    RunFreezes(s, steps);
    assert (k, s.db.objects[k]) in s.seen;
  }

  // ----- Calls on one template that do not interleave -----

  ghost predicate Serialized(s: State, steps: seq<Step>, ref: string)
    requires Legal(s, steps)
    decreases |steps|
  {
    steps != [] ==>
      && (steps[0].Begin? && TemplateRef(steps[0].key, steps[0].copy) == ref ==> NoCalls(s, ref))
      && Serialized(Apply(s, steps[0]), steps[1..], ref)
  }

  /** At most one call, and it works with the counter as it is now. */
  ghost predicate OneCall(s: State, ref: string) {
    AtMostOne(s, ref) && NumbersReadAreNext(s, ref)
  }

  ghost predicate AtMostOne(s: State, ref: string) {
    forall i, j :: i in s.calls && j in s.calls && s.calls[i].Ref() == ref && s.calls[j].Ref() == ref ==> i == j
  }

  ghost predicate NumbersReadAreNext(s: State, ref: string) {
    forall i :: i in s.calls && s.calls[i].Ref() == ref ==>
      match s.calls[i].phase
      case Numbered(n) => n == Counter(s.counters, ref) + 1
      case Written(n) => n == Counter(s.counters, ref) + 1
      case _ => true
  }

  /** The counter lags by at most the one call that still has to increment it. */
  ghost predicate CounterLags(s: State, ref: string) {
    UpTo(Numbers(s.db, ref), Counter(s.counters, ref) + if Pending(s, ref) == {} then 0 else 1)
  }

  lemma StepKeepsOneCall(s: State, step: Step, ref: string)
    requires Enabled(s, step) && OneCall(s, ref)
    requires step.Begin? && TemplateRef(step.key, step.copy) == ref ==> NoCalls(s, ref)
    requires !(step.RemoveTemplate? && step.ref == ref)
    ensures OneCall(Apply(s, step), ref)
  {
    StepKeepsAtMostOne(s, step, ref);
    StepKeepsNext(s, step, ref);
  }

  lemma StepKeepsAtMostOne(s: State, step: Step, ref: string)
    requires Enabled(s, step) && AtMostOne(s, ref)
    requires step.Begin? && TemplateRef(step.key, step.copy) == ref ==> NoCalls(s, ref)
    ensures AtMostOne(Apply(s, step), ref)
  {
  }

  lemma StepKeepsNext(s: State, step: Step, ref: string)
    requires Enabled(s, step) && OneCall(s, ref)
    requires !(step.RemoveTemplate? && step.ref == ref)
    ensures NumbersReadAreNext(Apply(s, step), ref)
  {
  }

  lemma StepKeepsOrder(s: State, step: Step, ref: string)
    requires Enabled(s, step) && WellFormed(s) && !(step.RemoveTemplate? && step.ref == ref)
    requires OneCall(s, ref) && DistinctNumbers(s, ref) && CounterLags(s, ref)
    ensures DistinctNumbers(Apply(s, step), ref) && CounterLags(Apply(s, step), ref)
  {
    if step.Restart? {
      RestartCovers(s, step.list, ref);
    } else {
      StepPending(s, step, ref);
      if Grants(s, step) && s.calls[step.id].Ref() == ref {
        OnlyPending(s, step.id, ref);
        GrowKeepsDistinct(Numbers(s.db, ref), s.calls[step.id].key, s.calls[step.id].phase.n);
      }
      StepNumbers(s, step, ref);
    }
  }

  lemma OnlyPending(s: State, id: nat, ref: string)
    requires OneCall(s, ref) && id in s.calls && s.calls[id].Ref() == ref && !s.calls[id].phase.Written?
    ensures Pending(s, ref) == {}
  {
  }

  lemma GrowKeepsDistinct(numbers: map<ObjKey, int>, k: ObjKey, n: int)
    requires Distinct(numbers) && UpTo(numbers, n - 1)
    ensures Distinct(numbers[k := n]) && UpTo(numbers[k := n], n)
  {
  }

  /** A restart rebuilds a covering counter from the store alone. */
  lemma RestartCovers(s: State, list: seq<Item>, ref: string)
    requires Enabled(s, Restart(list))
    ensures CounterCovers(Apply(s, Restart(list)), ref)
  {
    ScanIsMaximum(list, ref);
    var numbers := Numbers(s.db, ref);
    forall k | k in numbers
      ensures numbers[k] <= Counter(Scan(list), ref)
    {
      assert (k, s.db.objects[k]) in list;
      assert Carries(list, ref, numbers[k]);
    }
  }

  lemma {:induction false} SerializedRunKeepsOrder(s: State, steps: seq<Step>, ref: string)
    requires WellFormed(s) && Legal(s, steps) && Serialized(s, steps, ref)
    requires OneCall(s, ref) && DistinctNumbers(s, ref) && CounterLags(s, ref)
    requires ref !in After(s, steps).removed
    ensures OneCall(After(s, steps), ref) && DistinctNumbers(After(s, steps), ref) && CounterLags(After(s, steps), ref)
    decreases |steps|
  {
    if steps == [] {
    } else {
      var s' := Apply(s, steps[0]);
      RemovedStays(s', steps[1..]);
      StepKeepsWellFormed(s, steps[0]);
      StepKeepsOneCall(s, steps[0], ref);
      StepKeepsOrder(s, steps[0], ref);
      SerializedRunKeepsOrder(s', steps[1..], ref);
    }
  }

  lemma {:induction false} RemovedStays(s: State, steps: seq<Step>)
    requires Legal(s, steps)
    ensures s.removed <= After(s, steps).removed
    decreases |steps|
  {
    if steps == [] {
    } else {
      RemovedStays(Apply(s, steps[0]), steps[1..]);
    }
  }

  /**
   As long as the calls on a template do not interleave and the template is not removed, no
   two live versions of it share a number, and between calls the counter covers all of them.
   Crashes, restarts, deletions, conflicts and stale copies are all allowed.
   */
  lemma SerializedRunsNeverReuseNumbers(s: State, steps: seq<Step>, ref: string)
    requires WellFormed(s) && NoCalls(s, ref) && DistinctNumbers(s, ref) && CounterCovers(s, ref)
    requires Legal(s, steps) && Serialized(s, steps, ref)
    requires ref !in After(s, steps).removed
    ensures DistinctNumbers(After(s, steps), ref)
    ensures NoCalls(After(s, steps), ref) ==> CounterCovers(After(s, steps), ref)
  {
    SerializedRunKeepsOrder(s, steps, ref);
    assert NoCalls(After(s, steps), ref) ==> Pending(After(s, steps), ref) == {};
  }

  /** A cluster in which nothing has happened yet. */
  const INITIAL := State(Db(map[], 0), {}, map[], map[], {}, [])

  /** The same for every state that can be reached from the empty cluster. */
  lemma ReachableNumbersAreOrdered(steps: seq<Step>, ref: string)
    requires Legal(INITIAL, steps) && Serialized(INITIAL, steps, ref)
    requires ref !in After(INITIAL, steps).removed
    ensures DistinctNumbers(After(INITIAL, steps), ref)
    ensures NoCalls(After(INITIAL, steps), ref) ==> CounterCovers(After(INITIAL, steps), ref)
  {
    SerializedRunsNeverReuseNumbers(INITIAL, steps, ref);
  }

  // ----- Calls that interleave freely -----

  function GrantCount(log: seq<Grant>, ref: string): nat {
    if log == [] then 0
    else GrantCount(log[..|log| - 1], ref) + if log[|log| - 1].ref == ref then 1 else 0
  }

  ghost predicate NoReset(steps: seq<Step>, ref: string) {
    forall i :: 0 <= i < |steps| ==> !Resets(steps[i], ref)
  }

  /** The counter after all pending increments. */
  ghost function Total(s: State, ref: string): int {
    Counter(s.counters, ref) + |Pending(s, ref)|
  }

  /** Every number read so far lies above the start value and at most one above the counter. */
  ghost predicate NumbersReadWithin(s: State, ref: string, start: int) {
    && start <= Counter(s.counters, ref)
    && forall i :: i in s.calls && s.calls[i].Ref() == ref ==>
         match s.calls[i].phase
         case Numbered(n) => start < n <= Counter(s.counters, ref) + 1
         case _ => true
  }

  lemma StepTotal(s: State, step: Step, ref: string)
    requires Enabled(s, step) && !Resets(step, ref)
    ensures Total(Apply(s, step), ref) - GrantCount(Apply(s, step).log, ref) == Total(s, ref) - GrantCount(s.log, ref)
    ensures Total(Apply(s, step), ref) ==
            Total(s, ref) + if Grants(s, step) && s.calls[step.id].Ref() == ref then 1 else 0
  {
    StepPending(s, step, ref);
    StepLog(s, step);
  }

  lemma StepLog(s: State, step: Step)
    requires Enabled(s, step)
    ensures Apply(s, step).log == s.log ||
      (Grants(s, step) && var c := s.calls[step.id]; Apply(s, step).log == s.log + [Grant(c.Ref(), c.key, c.phase.n)])
    ensures Apply(s, step).log == s.log ==> !Grants(s, step)
  {
  }

  lemma StepKeepsNumbersRead(s: State, step: Step, ref: string, start: int)
    requires Enabled(s, step) && !Resets(step, ref) && NumbersReadWithin(s, ref, start)
    ensures NumbersReadWithin(Apply(s, step), ref, start)
  {
    StepPending(s, step, ref);
  }

  ghost predicate LogBounded(log: seq<Grant>, ref: string, bound: int) {
    forall i :: 0 <= i < |log| && log[i].ref == ref ==> log[i].number <= bound
  }

  lemma StepKeepsLogBounded(s: State, step: Step, ref: string, start: int)
    requires Enabled(s, step) && !Resets(step, ref) && NumbersReadWithin(s, ref, start)
    requires LogBounded(s.log, ref, Total(s, ref))
    ensures LogBounded(Apply(s, step).log, ref, Total(Apply(s, step), ref))
  {
    StepTotal(s, step, ref);
    StepLog(s, step);
    assert Total(s, ref) >= Counter(s.counters, ref);
  }

  lemma {:induction false} FreeRunKeepsTotal(s: State, steps: seq<Step>, ref: string, start: int)
    requires Legal(s, steps) && NoReset(steps, ref) && NumbersReadWithin(s, ref, start)
    requires LogBounded(s.log, ref, Total(s, ref))
    ensures Total(After(s, steps), ref) - GrantCount(After(s, steps).log, ref) == Total(s, ref) - GrantCount(s.log, ref)
    ensures LogBounded(After(s, steps).log, ref, Total(After(s, steps), ref))
    decreases |steps|
  {
    if steps == [] {
    } else {
      var s' := Apply(s, steps[0]);
      assert NoReset(steps[1..], ref);
      StepTotal(s, steps[0], ref);
      StepKeepsLogBounded(s, steps[0], ref, start);
      StepKeepsNumbersRead(s, steps[0], ref, start);
      FreeRunKeepsTotal(s', steps[1..], ref, start);
    }
  }

  /**
   However the calls interleave, between them the counter has advanced by exactly the number
   of successful assignments, and it bounds every number handed out, colliding or not.
   */
  lemma CounterCountsAssignments(s: State, steps: seq<Step>, ref: string)
    requires NoCalls(s, ref) && s.log == []
    requires Legal(s, steps) && NoReset(steps, ref) && NoCalls(After(s, steps), ref)
    ensures var s' := After(s, steps);
      && Counter(s'.counters, ref) == Counter(s.counters, ref) + GrantCount(s'.log, ref)
      && forall i :: 0 <= i < |s'.log| && s'.log[i].ref == ref ==> s'.log[i].number <= Counter(s'.counters, ref)
  {
    FreeRunKeepsTotal(s, steps, ref, Counter(s.counters, ref));
    assert Pending(s, ref) == {} && Pending(After(s, steps), ref) == {};
  }
}
