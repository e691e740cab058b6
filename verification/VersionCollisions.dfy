/**
 The counter is read outside the mutex that protects its increment, so calls that
 interleave can hand out the same number. This module says exactly when they do.
 */
module VersionCollisions {
  import opened ApiStore
  import opened ModelVersions
  import opened VersionProtocol
  import opened VersionInvariants
  import opened VersionRuns

  predicate Removes(step: Step, ref: string) {
    step.RemoveTemplate? && step.ref == ref
  }

  /** The template is not removed. */
  ghost predicate Kept(steps: seq<Step>, ref: string) {
    forall i :: 0 <= i < |steps| ==> !Removes(steps[i], ref)
  }

  /** No version of the template is deleted. */
  ghost predicate NoneDeleted(s: State, steps: seq<Step>, ref: string)
    requires Legal(s, steps)
    decreases |steps|
  {
    steps != [] ==> !Deletes(s, steps[0], ref) && NoneDeleted(Apply(s, steps[0]), steps[1..], ref)
  }

  /**
   A status write that is about to be accepted is clean when nobody else is between status
   write and increment, and the counter has not moved since this call read it.
   */
  ghost predicate Clean(s: State, step: Step, ref: string) {
    Grants(s, step) && s.calls[step.id].Ref() == ref ==>
      Pending(s, ref) == {} && s.calls[step.id].phase.n == Counter(s.counters, ref) + 1
  }

  ghost predicate EveryWriteClean(s: State, steps: seq<Step>, ref: string)
    requires Legal(s, steps)
    decreases |steps|
  {
    steps != [] ==> Clean(s, steps[0], ref) && EveryWriteClean(Apply(s, steps[0]), steps[1..], ref)
  }

  /** Some live version carries `n`. */
  ghost predicate Taken(numbers: map<ObjKey, int>, n: int) {
    exists k :: k in numbers && numbers[k] == n
  }

  ghost predicate Filled(numbers: map<ObjKey, int>, start: int, bound: int) {
    forall n :: start < n <= bound ==> Taken(numbers, n)
  }

  /** While no collision has happened, counter and pending increments bound the numbers. */
  ghost predicate Ordered(s: State, ref: string) {
    Distinct(Numbers(s.db, ref)) && UpTo(Numbers(s.db, ref), Total(s, ref))
  }

  /** While moreover nothing is deleted, the numbers above `start` are used without a gap. */
  ghost predicate Gapless(s: State, ref: string, start: int) {
    Ordered(s, ref) && Filled(Numbers(s.db, ref), start, Total(s, ref)) && NumbersReadWithin(s, ref, start)
  }

  lemma CleanStepKeepsOrdered(s: State, step: Step, ref: string)
    requires Enabled(s, step) && WellFormed(s) && Ordered(s, ref)
    requires !Removes(step, ref) && Clean(s, step, ref)
    ensures Ordered(Apply(s, step), ref)
  {
    StepNumbers(s, step, ref);
    if step.Restart? {
      RestartIsOrdered(s, step.list, ref);
    } else {
      StepTotal(s, step, ref);
      PendingCounts(s, ref);
      if Grants(s, step) && s.calls[step.id].Ref() == ref {
        GrowKeepsDistinct(Numbers(s.db, ref), s.calls[step.id].key, s.calls[step.id].phase.n);
      }
    }
  }

  /** A crash loses calls and counters; what start-up rebuilds is ordered, with a gapless range of its own. */
  lemma RestartIsOrdered(s: State, list: seq<Item>, ref: string)
    requires Enabled(s, Restart(list)) && Distinct(Numbers(s.db, ref))
    ensures var s' := Apply(s, Restart(list));
      Gapless(s', ref, Counter(s'.counters, ref))
  {
    RestartCovers(s, list, ref);
    PendingCounts(Apply(s, Restart(list)), ref);
  }

  lemma CleanStepKeepsGapless(s: State, step: Step, ref: string, start: int)
    requires Enabled(s, step) && WellFormed(s) && Gapless(s, ref, start)
    requires !Resets(step, ref) && !Deletes(s, step, ref) && Clean(s, step, ref)
    ensures Gapless(Apply(s, step), ref, start)
  {
    CleanStepKeepsOrdered(s, step, ref);
    StepTotal(s, step, ref);
    StepKeepsNumbersRead(s, step, ref, start);
    StepNumbers(s, step, ref);
    PendingCounts(s, ref);
    if Grants(s, step) && s.calls[step.id].Ref() == ref {
      GrowFills(Numbers(s.db, ref), s.calls[step.id].key, s.calls[step.id].phase.n, start);
    } else {
      MutualWithin(Numbers(Apply(s, step).db, ref), Numbers(s.db, ref));
    }
  }

  lemma MutualWithin(m: map<ObjKey, int>, m': map<ObjKey, int>)
    requires Within(m, m') && Within(m', m)
    ensures m == m'
  {
  }

  lemma GrowFills(numbers: map<ObjKey, int>, k: ObjKey, n: int, start: int)
    requires k !in numbers && Distinct(numbers) && UpTo(numbers, n - 1)
    requires Filled(numbers, start, n - 1)
    ensures Distinct(numbers[k := n]) && UpTo(numbers[k := n], n)
    ensures Filled(numbers[k := n], start, n)
  {
    var numbers' := numbers[k := n];
    forall i | start < i <= n
      ensures Taken(numbers', i)
    {
      if i == n {
        assert numbers'[k] == n;
      } else {
        assert Taken(numbers, i);
        var j :| j in numbers && numbers[j] == i;
        assert j in numbers' && numbers'[j] == i;
      }
    }
  }

  lemma UncleanStepCollides(s: State, step: Step, ref: string, start: int)
    requires Enabled(s, step) && WellFormed(s) && Gapless(s, ref, start)
    requires !Resets(step, ref) && !Clean(s, step, ref)
    ensures !DistinctNumbers(Apply(s, step), ref)
  {
    StepNumbers(s, step, ref);
    var c := s.calls[step.id];
    PendingCounts(s, ref);
    TakenCollides(Numbers(s.db, ref), c.key, c.phase.n);
  }

  lemma PendingCounts(s: State, ref: string)
    ensures Pending(s, ref) == {} <==> Total(s, ref) == Counter(s.counters, ref)
    ensures Total(s, ref) >= Counter(s.counters, ref)
  {
  }

  lemma TakenCollides(numbers: map<ObjKey, int>, k: ObjKey, n: int)
    requires k !in numbers && Taken(numbers, n)
    ensures !Distinct(numbers[k := n])
  {
    var other :| other in numbers && numbers[other] == n;
    assert other in numbers[k := n] && k in numbers[k := n];
  }

  lemma {:induction false} CollisionPersists(s: State, steps: seq<Step>, ref: string)
    requires WellFormed(s) && Legal(s, steps) && NoneDeleted(s, steps, ref)
    requires !DistinctNumbers(s, ref)
    ensures !DistinctNumbers(After(s, steps), ref)
    decreases |steps|
  {
    if steps == [] {
    } else {
      var s' := Apply(s, steps[0]);
      StepKeepsWellFormed(s, steps[0]);
      StepNumbers(s, steps[0], ref);
      var numbers, numbers' := Numbers(s.db, ref), Numbers(s'.db, ref);
      var k1, k2 :| k1 in numbers && k2 in numbers && k1 != k2 && numbers[k1] == numbers[k2];
      assert k1 in numbers' && k2 in numbers';
      CollisionPersists(s', steps[1..], ref);
    }
  }

  lemma {:induction false} GaplessRun(s: State, steps: seq<Step>, ref: string, start: int)
    requires WellFormed(s) && Legal(s, steps) && Kept(steps, ref) && NoneDeleted(s, steps, ref)
    requires Gapless(s, ref, start)
    ensures DistinctNumbers(After(s, steps), ref) <==> EveryWriteClean(s, steps, ref)
    decreases |steps|
  {
    if steps == [] {
    } else {
      var s' := Apply(s, steps[0]);
      assert !Removes(steps[0], ref) && Kept(steps[1..], ref);
      StepKeepsWellFormed(s, steps[0]);
      if steps[0].Restart? {
        RestartIsOrdered(s, steps[0].list, ref);
        GaplessRun(s', steps[1..], ref, Counter(s'.counters, ref));
      } else if Clean(s, steps[0], ref) {
        CleanStepKeepsGapless(s, steps[0], ref, start);
        GaplessRun(s', steps[1..], ref, start);
      } else {
        UncleanStepCollides(s, steps[0], ref, start);
        CollisionPersists(s', steps[1..], ref);
      }
    }
  }

  /**
   Over every interleaved run in which the template and its versions stay, crashes and restarts
   included: the numbers end up distinct exactly when every accepted status write was clean.
   */
  lemma DistinctIffEveryWriteClean(s: State, steps: seq<Step>, ref: string)
    requires WellFormed(s) && NoCalls(s, ref) && DistinctNumbers(s, ref) && CounterCovers(s, ref)
    requires Legal(s, steps) && Kept(steps, ref) && NoneDeleted(s, steps, ref)
    ensures DistinctNumbers(After(s, steps), ref) <==> EveryWriteClean(s, steps, ref)
  {
    assert Pending(s, ref) == {};
    GaplessRun(s, steps, ref, Counter(s.counters, ref));
  }

  /**
   When versions may be deleted as well, clean writes still suffice. They are no longer necessary,
   see CleanIsNotNecessary.
   */
  lemma {:induction false} CleanWritesKeepDistinct(s: State, steps: seq<Step>, ref: string)
    requires WellFormed(s) && Legal(s, steps) && Kept(steps, ref)
    requires Ordered(s, ref) && EveryWriteClean(s, steps, ref)
    ensures DistinctNumbers(After(s, steps), ref)
    ensures NoCalls(After(s, steps), ref) ==> CounterCovers(After(s, steps), ref)
    decreases |steps|
  {
    if steps == [] {
      assert NoCalls(s, ref) ==> Pending(s, ref) == {};
    } else {
      assert !Removes(steps[0], ref) && Kept(steps[1..], ref);
      StepKeepsWellFormed(s, steps[0]);
      CleanStepKeepsOrdered(s, steps[0], ref);
      CleanWritesKeepDistinct(Apply(s, steps[0]), steps[1..], ref);
    }
  }

  // ----- Two calls that interleave do collide -----

  /** The version can be numbered at once: its metadata write will change nothing. */
  predicate Ready(s: State, k: ObjKey, owner: Owner, ref: string) {
    && k in s.db.objects
    && var v := s.db.objects[k];
       NeedsNumber(v) && LabelAndOwn(v.meta, owner) == v.meta && TemplateRef(k, v) == ref
  }

  /** Steps of AssignVersion calls only. */
  predicate OnlyAssigns(steps: seq<Step>) {
    forall step :: step in steps ==> step.Begin? || step.Label? || step.ReadCounter? || step.WriteNumber?
  }

  lemma PrepareReads(s: State, id: nat, k: ObjKey, owner: Owner, ref: string) returns (steps: seq<Step>)
    requires Ready(s, k, owner, ref) && id !in s.calls && (k, s.db.objects[k]) in s.seen
    ensures Legal(s, steps) && OnlyAssigns(steps)
    ensures var s' := After(s, steps);
      && s'.db == s.db && s.seen <= s'.seen && s'.counters == s.counters
      && s'.calls == s.calls[id := Call(k, s.db.objects[k], Numbered(Counter(s.counters, ref) + 1))]
  {
    var v := s.db.objects[k];
    var s1 := Apply(s, Begin(id, k, v));
    var s2 := Apply(s1, Label(id, owner, true));
    var s3 := Apply(s2, ReadCounter(id));
    assert s2.db == s.db && s3.calls == s.calls[id := Call(k, v, Numbered(Counter(s.counters, ref) + 1))];
    RunExtends(s, [], Begin(id, k, v));
    RunExtends(s, [] + [Begin(id, k, v)], Label(id, owner, true));
    RunExtends(s, [] + [Begin(id, k, v)] + [Label(id, owner, true)], ReadCounter(id));
    steps := [] + [Begin(id, k, v)] + [Label(id, owner, true)] + [ReadCounter(id)];
  }

  lemma BothRead(s: State, k1: ObjKey, k2: ObjKey, owner: Owner, ref: string) returns (steps: seq<Step>)
    requires WellFormed(s) && s.calls == map[] && k1 != k2
    requires Ready(s, k1, owner, ref) && Ready(s, k2, owner, ref)
    ensures Legal(s, steps) && OnlyAssigns(steps)
    ensures After(s, steps).db == s.db
    ensures var n := Counter(s.counters, ref) + 1;
      After(s, steps).calls ==
      map[0 := Call(k1, s.db.objects[k1], Numbered(n)), 1 := Call(k2, s.db.objects[k2], Numbered(n))]
  {
    var first := PrepareReads(s, 0, k1, owner, ref);
    var second := PrepareReads(After(s, first), 1, k2, owner, ref);
    RunsCompose(s, first, second);
    steps := first + second;
  }

  lemma WriteIsAccepted(s: State, id: nat)
    requires id in s.calls && s.calls[id].phase.Numbered? && NeedsNumber(s.calls[id].copy)
    requires s.calls[id].key in s.db.objects && s.db.objects[s.calls[id].key] == s.calls[id].copy
    ensures Legal(s, [WriteNumber(id, true)])
    ensures var c, s' := s.calls[id], After(s, [WriteNumber(id, true)]);
      && s'.db == Put(s.db, c.key, WithNumber(c.copy, c.phase.n))
      && s'.calls == s.calls[id := c.(phase := Written(c.phase.n))]
      && Numbers(s'.db, c.Ref()) == Numbers(s.db, c.Ref())[c.key := c.phase.n]
  {
    var c := s.calls[id];
    assert After(s, [WriteNumber(id, true)]) == Apply(s, WriteNumber(id, true));
    GrantNumbers(s.db, c.key, c.copy, c.phase.n, true, c.Ref());
  }

  lemma BothWrite(s: State, k1: ObjKey, k2: ObjKey, n: int, ref: string)
    requires k1 != k2 && k1 in s.db.objects && k2 in s.db.objects
    requires var v1, v2 := s.db.objects[k1], s.db.objects[k2];
      && NeedsNumber(v1) && NeedsNumber(v2) && TemplateRef(k1, v1) == ref && TemplateRef(k2, v2) == ref
      && s.calls == map[0 := Call(k1, v1, Numbered(n)), 1 := Call(k2, v2, Numbered(n))]
    ensures Legal(s, [WriteNumber(0, true)] + [WriteNumber(1, true)])
    ensures Numbers(After(s, [WriteNumber(0, true)] + [WriteNumber(1, true)]).db, ref) ==
      Numbers(s.db, ref)[k1 := n][k2 := n]
  {
    WriteIsAccepted(s, 0);
    var s' := After(s, [WriteNumber(0, true)]);
    WriteIsAccepted(s', 1);
    RunsCompose(s, [WriteNumber(0, true)], [WriteNumber(1, true)]);
  }

  /**
   From any quiet state, two calls on versions of one template can end with the same number:
   both read the counter before either increments it. No failure or crash is involved.
   */
  lemma InterleavedCallsCollide(s: State, k1: ObjKey, k2: ObjKey, owner: Owner, ref: string)
    returns (steps: seq<Step>)
    requires WellFormed(s) && s.calls == map[] && k1 != k2
    requires Ready(s, k1, owner, ref) && Ready(s, k2, owner, ref)
    ensures Legal(s, steps) && OnlyAssigns(steps)
    ensures !DistinctNumbers(After(s, steps), ref)
    ensures var n := Counter(s.counters, ref) + 1;
      Numbers(After(s, steps).db, ref) == Numbers(s.db, ref)[k1 := n][k2 := n]
  {
    var bothRead := BothRead(s, k1, k2, owner, ref);
    BothWrite(After(s, bothRead), k1, k2, Counter(s.counters, ref) + 1, ref);
    RunsCompose(s, bothRead, [WriteNumber(0, true)] + [WriteNumber(1, true)]);
    steps := bothRead + ([WriteNumber(0, true)] + [WriteNumber(1, true)]);
    var numbers := Numbers(After(s, steps).db, ref);
    assert k1 in numbers && k2 in numbers && numbers[k1] == numbers[k2];
  }

  lemma {:induction false} AssignsKeepAll(s: State, steps: seq<Step>, ref: string)
    requires Legal(s, steps) && OnlyAssigns(steps)
    ensures Kept(steps, ref) && NoneDeleted(s, steps, ref)
    decreases |steps|
  {
    if steps == [] {
    } else {
      assert steps[0] in steps;
      AssignsKeepAll(Apply(s, steps[0]), steps[1..], ref);
    }
  }

  lemma {:induction false} CleanPrefix(s: State, first: seq<Step>, second: seq<Step>, ref: string)
    requires Legal(s, first) && Legal(s, first + second) && EveryWriteClean(s, first + second, ref)
    ensures EveryWriteClean(s, first, ref)
    decreases |first|
  {
    if first == [] {
    } else {
      assert (first + second)[1..] == first[1..] + second;
      CleanPrefix(Apply(s, first[0]), first[1..], second, ref);
    }
  }

  /** Deleting one of two versions with the same number ends the collision that an unclean write made. */
  lemma CleanIsNotNecessary(s: State, k1: ObjKey, k2: ObjKey, owner: Owner, ref: string)
    returns (steps: seq<Step>)
    requires WellFormed(s) && s.calls == map[] && k1 != k2
    requires DistinctNumbers(s, ref) && CounterCovers(s, ref)
    requires Ready(s, k1, owner, ref) && Ready(s, k2, owner, ref)
    ensures Legal(s, steps) && Kept(steps, ref)
    ensures DistinctNumbers(After(s, steps), ref) && !EveryWriteClean(s, steps, ref)
  {
    var collide := InterleavedCallsCollide(s, k1, k2, owner, ref);
    AssignsKeepAll(s, collide, ref);
    DistinctIffEveryWriteClean(s, collide, ref);
    RunExtends(s, collide, UserDelete(k2));
    steps := collide + [UserDelete(k2)];
    if EveryWriteClean(s, steps, ref) {
      CleanPrefix(s, collide, [UserDelete(k2)], ref);
    }
    DeletionSeparates(s, After(s, collide).db, k1, k2, ref);
  }

  lemma DeletionSeparates(s: State, db: VersionDb, k1: ObjKey, k2: ObjKey, ref: string)
    requires DistinctNumbers(s, ref) && CounterCovers(s, ref) && k1 != k2 && k2 !in Numbers(s.db, ref)
    requires var n := Counter(s.counters, ref) + 1; Numbers(db, ref) == Numbers(s.db, ref)[k1 := n][k2 := n]
    ensures Distinct(Numbers(Delete(db, k2), ref))
  {
    var n := Counter(s.counters, ref) + 1;
    GrowKeepsDistinct(Numbers(s.db, ref), k1, n);
    NumbersWithout(db, k2, ref);
    DropsLast(Numbers(s.db, ref), k1, k2, n);
  }

  lemma DropsLast(numbers: map<ObjKey, int>, k1: ObjKey, k2: ObjKey, n: int)
    requires k1 != k2 && k2 !in numbers
    ensures numbers[k1 := n][k2 := n] - {k2} == numbers[k1 := n]
  {
  }

  lemma NumbersWithout(db: VersionDb, k: ObjKey, ref: string)
    ensures Numbers(Delete(db, k), ref) == Numbers(db, ref) - {k}
  {
  }
}
