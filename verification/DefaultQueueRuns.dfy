/**
 Several actions that choose a default queue, interleaved. Each lists the queues once, then clears
 them one by one, then marks its own.
 */
module DefaultQueueRuns {
  import opened Wrappers
  import opened ApiStore
  import opened DefaultQueue

  /** An action in progress: the queue as looked up, what is left of the list, and when that was. */
  datatype Call = Call(key: ObjKey, found: Queue, todo: seq<Item>, revision: nat)

  datatype State = State(db: QueueDb, calls: map<nat, Call>)

  datatype Step =
    | Begin(id: nat, name: string, list: seq<Item>)
    | Unset(id: nat, up: bool)
    | Finish(id: nat, up: bool)

  ghost predicate Enabled(s: State, step: Step) {
    match step
    case Begin(id, name, list) => id !in s.calls && QueueKey(name) in s.db.objects && Fresh(s.db, list)
    case Unset(id, _) => id in s.calls && s.calls[id].todo != []
    case Finish(id, _) => id in s.calls && s.calls[id].todo == []
  }

  function Apply(s: State, step: Step): State
    requires Enabled(s, step)
  {
    match step
    case Begin(id, name, list) =>
      var k := QueueKey(name);
      s.(calls := s.calls[id := Call(k, s.db.objects[k], list, s.db.revision)])
    case Unset(id, up) =>
      var c := s.calls[id];
      var r := UnsetOne(s.db, c.todo[0], up);
      State(r.db, if r.err.None? then s.calls[id := c.(todo := c.todo[1..])] else s.calls - {id})
    case Finish(id, up) =>
      var c := s.calls[id];
      State(Update(s.db, c.key, Mark(c.found), up).db, s.calls - {id})
  }

  ghost predicate Legal(s: State, steps: seq<Step>)
    decreases |steps|
  {
    steps == [] || (Enabled(s, steps[0]) && Legal(Apply(s, steps[0]), steps[1..]))
  }

  ghost function After(s: State, steps: seq<Step>): State
    requires Legal(s, steps)
    decreases |steps|
  {
    if steps == [] then s else After(Apply(s, steps[0]), steps[1..])
  }

  /** A run that starts with one step. */
  lemma StepThenRun(s: State, step: Step, rest: seq<Step>)
    requires Enabled(s, step) && Legal(Apply(s, step), rest)
    ensures Legal(s, [step] + rest) && After(s, [step] + rest) == After(Apply(s, step), rest)
  {
    assert ([step] + rest)[0] == step && ([step] + rest)[1..] == rest;
  }

  lemma {:induction false} RunsCompose(s: State, first: seq<Step>, second: seq<Step>)
    requires Legal(s, first) && Legal(After(s, first), second)
    ensures Legal(s, first + second) && After(s, first + second) == After(After(s, first), second)
    decreases |first|
  {
    if first == [] {
      assert first + second == second;
    } else {
      HeadOf(first, second);
      RunsCompose(Apply(s, first[0]), first[1..], second);
      StepThenRun(s, first[0], first[1..] + second);
    }
  }

  lemma HeadOf(first: seq<Step>, second: seq<Step>)
    requires first != []
    ensures first + second == [first[0]] + (first[1..] + second)
  {
  }

  lemma OneStep(s: State, step: Step)
    requires Enabled(s, step)
    ensures Legal(s, [step]) && After(s, [step]) == Apply(s, step)
  {
    assert [step][1..] == [];
    assert Legal(Apply(s, step), []) && After(Apply(s, step), []) == Apply(s, step);
  }

  // ----- What every step keeps -----

  /** The item was listed by the call, and still has its resource version only if it did not change since. */
  predicate Listed(db: QueueDb, revision: nat, k: ObjKey, q: Queue) {
    k in db.objects && q.rv <= revision && (db.objects[k].rv == q.rv ==> db.objects[k] == q)
  }

  /** Every default that was there when the call listed the queues is still to be cleared by it. */
  ghost predicate CallValid(db: QueueDb, c: Call) {
    && c.revision <= db.revision
    && Listed(db, c.revision, c.key, c.found)
    && (forall item :: item in c.todo ==> Listed(db, c.revision, item.0, item.1))
    && (forall k :: k in Defaults(db) && db.objects[k].rv <= c.revision ==> (k, db.objects[k]) in c.todo)
  }

  ghost predicate Valid(s: State) {
    && (forall k :: k in s.db.objects ==> s.db.objects[k].rv <= s.db.revision)
    && (forall id :: id in s.calls ==> CallValid(s.db, s.calls[id]))
  }

  lemma FreshCallIsValid(db: QueueDb, k: ObjKey, list: seq<Item>)
    requires k in db.objects && Fresh(db, list) && forall j :: j in db.objects ==> db.objects[j].rv <= db.revision
    ensures CallValid(db, Call(k, db.objects[k], list, db.revision))
  {
    forall item | item in list
      ensures Listed(db, db.revision, item.0, item.1)
    {
      var i :| 0 <= i < |list| && list[i] == item;
      assert IsStored(db, list[i]);
    }
    forall j | j in db.objects
      ensures (j, db.objects[j]) in list
    {
      var i :| 0 <= i < |list| && list[i].0 == j;
      assert IsStored(db, list[i]);
    }
  }

  /** A write puts a new resource version on one queue; calls that listed it before lose their claim on it. */
  lemma PutKeepsCall(db: QueueDb, k: ObjKey, q: Queue, c: Call)
    requires k in db.objects && CallValid(db, c)
    ensures CallValid(Put(db, k, q), c)
  {
    var db' := Put(db, k, q);
    forall j | j in Defaults(db') && db'.objects[j].rv <= c.revision
      ensures (j, db'.objects[j]) in c.todo
    {
      assert j != k && j in Defaults(db);
    }
  }

  /** A cleared item can be dropped from the list. */
  lemma UnsetKeepsOwnCall(db: QueueDb, c: Call, up: bool)
    requires CallValid(db, c) && c.todo != [] && UnsetOne(db, c.todo[0], up).err.None?
    ensures CallValid(UnsetOne(db, c.todo[0], up).db, c.(todo := c.todo[1..]))
  {
    var item, db' := c.todo[0], UnsetOne(db, c.todo[0], up).db;
    assert Listed(db, c.revision, item.0, item.1);
    forall other | other in c.todo[1..]
      ensures Listed(db', c.revision, other.0, other.1)
    {
      assert other in c.todo;
    }
    forall k | k in Defaults(db') && db'.objects[k].rv <= c.revision
      ensures (k, db'.objects[k]) in c.todo[1..]
    {
      assert k in Defaults(db) && db'.objects[k] == db.objects[k];
      assert (k, db.objects[k]) in c.todo && (k, db.objects[k]) != item;
    }
  }

  /** What one step does to the store: nothing, or a new value for one queue. */
  lemma StepPuts(s: State, step: Step) returns (k: ObjKey, q: Queue)
    requires Enabled(s, step) && Valid(s)
    ensures Apply(s, step).db == s.db || (k in s.db.objects && Apply(s, step).db == Put(s.db, k, q))
  {
    match step
    case Begin(_, name, _) =>
      k := QueueKey(name);
      q := s.db.objects[k];
    case Unset(id, up) =>
      k := s.calls[id].todo[0].0;
      assert s.calls[id].todo[0] in s.calls[id].todo;
      q := s.db.objects[k].(meta := Unmark(s.calls[id].todo[0].1).meta);
    case Finish(id, up) =>
      k := s.calls[id].key;
      q := s.db.objects[k].(meta := Mark(s.calls[id].found).meta);
  }

  lemma StepKeepsValid(s: State, step: Step)
    requires Enabled(s, step) && Valid(s)
    ensures Valid(Apply(s, step))
  {
    var s' := Apply(s, step);
    var k, q := StepPuts(s, step);
    forall id | id in s'.calls
      ensures CallValid(s'.db, s'.calls[id])
    {
      if step.Begin? && id == step.id {
        FreshCallIsValid(s.db, QueueKey(step.name), step.list);
      } else if step.Unset? && id == step.id {
        UnsetKeepsOwnCall(s.db, s.calls[id], step.up);
      } else if s'.db != s.db {
        PutKeepsCall(s.db, k, q, s.calls[id]);
      }
    }
  }

  // ----- When there is at most one default -----

  predicate AtMostOne(db: QueueDb) {
    forall k1, k2 :: k1 in Defaults(db) && k2 in Defaults(db) ==> k1 == k2
  }

  /** The last write of an action, and the server takes it. */
  predicate Marks(s: State, step: Step) {
    && step.Finish?
    && step.id in s.calls
    && Accepts(s.db, s.calls[step.id].key, s.calls[step.id].found, step.up)
  }

  /** Some queue became default after the action had listed the queues. */
  predicate Overtaken(s: State, id: nat)
    requires id in s.calls
  {
    exists k :: k in Defaults(s.db) && s.db.objects[k].rv > s.calls[id].revision
  }

  lemma MarkAddsDefault(s: State, step: Step)
    requires Enabled(s, step) && Valid(s) && Marks(s, step)
    ensures var k := s.calls[step.id].key;
      && k !in Defaults(s.db) && Defaults(Apply(s, step).db) == Defaults(s.db) + {k}
      && Apply(s, step).db.objects[k].meta.annotations["scheduling.oneblock.ai/isDefaultQueue"] == "true"
    ensures Defaults(s.db) != {} <==> Overtaken(s, step.id)
  {
    var c := s.calls[step.id];
    assert CallValid(s.db, c) && s.db.objects[c.key] == c.found;
    if k :| k in Defaults(s.db) {
      assert s.db.objects[k].rv > c.revision;
    }
  }

  /** Whatever happened before: an accepted last write leaves at most one default exactly when it was not overtaken. */
  lemma MarkLeavesOneIff(s: State, step: Step)
    requires Enabled(s, step) && Valid(s) && Marks(s, step)
    ensures AtMostOne(Apply(s, step).db) <==> !Overtaken(s, step.id)
  {
    MarkAddsDefault(s, step);
    if k :| k in Defaults(s.db) {
      var db' := Apply(s, step).db;
      assert k in Defaults(db') && s.calls[step.id].key in Defaults(db');
    }
  }

  lemma OtherStepsClear(s: State, step: Step)
    requires Enabled(s, step) && Valid(s) && !Marks(s, step)
    ensures Defaults(Apply(s, step).db) <= Defaults(s.db)
  {
    if step.Unset? {
      var item := s.calls[step.id].todo[0];
      assert item in s.calls[step.id].todo;
    }
  }

  /** In every state of the run, the last included. */
  ghost predicate StaysAtMostOne(s: State, steps: seq<Step>)
    requires Legal(s, steps)
    decreases |steps|
  {
    AtMostOne(s.db) && (steps != [] ==> StaysAtMostOne(Apply(s, steps[0]), steps[1..]))
  }

  ghost predicate NoneOvertaken(s: State, steps: seq<Step>)
    requires Legal(s, steps)
    decreases |steps|
  {
    steps != [] ==>
      && (Marks(s, steps[0]) ==> !Overtaken(s, steps[0].id))
      && NoneOvertaken(Apply(s, steps[0]), steps[1..])
  }

  /**
   Over every interleaved run there is never more than one default exactly when no last write was
   accepted after another queue had become default behind the action's back.
   */
  lemma {:induction false} AtMostOneIff(s: State, steps: seq<Step>)
    requires Valid(s) && Legal(s, steps) && AtMostOne(s.db)
    ensures StaysAtMostOne(s, steps) <==> NoneOvertaken(s, steps)
    decreases |steps|
  {
    if steps == [] {
    } else {
      var s', step := Apply(s, steps[0]), steps[0];
      StepKeepsValid(s, step);
      if Marks(s, step) {
        MarkLeavesOneIff(s, step);
      } else {
        OtherStepsClear(s, step);
      }
      if AtMostOne(s'.db) {
        AtMostOneIff(s', steps[1..]);
      }
    }
  }

  // ----- What no run touches -----

  lemma UnsetKeepsOthers(db: QueueDb, c: Call, up: bool)
    requires CallValid(db, c) && c.todo != []
    ensures SameOtherwise(db, UnsetOne(db, c.todo[0], up).db)
  {
    assert c.todo[0] in c.todo;
    assert Listed(db, c.revision, c.todo[0].0, c.todo[0].1);
  }

  lemma StepKeepsOthers(s: State, step: Step)
    requires Enabled(s, step) && Valid(s)
    ensures SameOtherwise(s.db, Apply(s, step).db)
  {
    if step.Unset? {
      UnsetKeepsOthers(s.db, s.calls[step.id], step.up);
    } else if step.Finish? {
      assert CallValid(s.db, s.calls[step.id]);
    }
  }

  /** Over every interleaved run all queues keep everything but the default annotation. */
  lemma {:induction false} RunKeepsOthers(s: State, steps: seq<Step>)
    requires Valid(s) && Legal(s, steps)
    ensures SameOtherwise(s.db, After(s, steps).db)
    decreases |steps|
  {
    if steps == [] {
    } else {
      StepKeepsValid(s, steps[0]);
      StepKeepsOthers(s, steps[0]);
      RunKeepsOthers(Apply(s, steps[0]), steps[1..]);
      OthersCompose(s.db, Apply(s, steps[0]).db, After(s, steps).db);
    }
  }

  lemma OthersCompose(db: QueueDb, mid: QueueDb, db': QueueDb)
    requires SameOtherwise(db, mid) && SameOtherwise(mid, db')
    ensures SameOtherwise(db, db')
  {
    forall k | k in db.objects
      ensures SameQueue(db.objects[k], db'.objects[k])
    {
      assert SameQueue(db.objects[k], mid.objects[k]) && SameQueue(mid.objects[k], db'.objects[k]);
    }
  }

  // ----- An action that is not interrupted -----

  lemma {:induction false} UnsetAllFront(db: QueueDb, list: seq<Item>, ups: seq<bool>)
    requires |ups| == |list| > 0
    ensures var r := UnsetOne(db, list[0], ups[0]);
      UnsetAll(db, list, ups) == if r.err.Some? then r else UnsetAll(r.db, list[1..], ups[1..])
    decreases |list|
  {
    var n := |list| - 1;
    if n == 0 {
      assert UnsetAll(db, list[..0], ups[..0]) == Outcome(db, None);
    } else {
      UnsetAllFront(db, list[..n], ups[..n]);
      assert list[..n][1..] == list[1..][..n - 1] && ups[..n][1..] == ups[1..][..n - 1];
    }
  }

  lemma {:induction false} LoopRuns(s: State, id: nat, ups: seq<bool>) returns (steps: seq<Step>)
    requires id in s.calls && |ups| == |s.calls[id].todo|
    ensures Legal(s, steps)
    ensures var c := s.calls[id];
      var r := UnsetAll(s.db, c.todo, ups);
      After(s, steps) == State(r.db, if r.err.None? then s.calls[id := c.(todo := [])] else s.calls - {id})
    decreases |ups|
  {
    var c := s.calls[id];
    if ups == [] {
      steps := [];
      assert s.calls[id := c.(todo := [])] == s.calls;
    } else {
      UnsetAllFront(s.db, c.todo, ups);
      var step := Unset(id, ups[0]);
      OneStep(s, step);
      var s' := Apply(s, step);
      if id in s'.calls {
        var rest := LoopRuns(s', id, ups[1..]);
        RunsCompose(s, [step], rest);
        steps := [step] + rest;
        assert s'.calls[id := c.(todo := [])] == s.calls[id := c.(todo := [])];
        assert s'.calls - {id} == s.calls - {id};
      } else {
        steps := [step];
      }
    }
  }

  /** Loop and last write of a call that has listed the queues. */
  lemma RestRuns(s: State, id: nat, ups: seq<bool>, lastUp: bool) returns (steps: seq<Step>)
    requires id in s.calls && |ups| == |s.calls[id].todo|
    ensures Legal(s, steps)
    ensures var c := s.calls[id];
      var r := UnsetAll(s.db, c.todo, ups);
      After(s, steps) ==
      State(if r.err.None? then Update(r.db, c.key, Mark(c.found), lastUp).db else r.db, s.calls - {id})
  {
    var c := s.calls[id];
    steps := LoopRuns(s, id, ups);
    var s' := After(s, steps);
    if id in s'.calls {
      OneStep(s', Finish(id, lastUp));
      RunsCompose(s, steps, [Finish(id, lastUp)]);
      steps := steps + [Finish(id, lastUp)];
      assert s.calls[id := c.(todo := [])] - {id} == s.calls - {id};
    }
  }

  /** The uninterrupted action is a run. */
  lemma SetDefaultIsARun(s: State, id: nat, name: string, list: seq<Item>, ups: seq<bool>, lastUp: bool)
    returns (steps: seq<Step>)
    requires id !in s.calls && QueueKey(name) in s.db.objects && Fresh(s.db, list) && |ups| == |list|
    ensures Legal(s, steps)
    ensures After(s, steps) ==
      State(SetDefault(s.db, name, Lookup(s.db, QueueKey(name)), list, ups, lastUp).db, s.calls)
  {
    var begin := Begin(id, name, list);
    OneStep(s, begin);
    var rest := RestRuns(Apply(s, begin), id, ups, lastUp);
    RunsCompose(s, [begin], rest);
    steps := [begin] + rest;
    assert Apply(s, begin).calls - {id} == s.calls;
  }

  // ----- Two actions that leave two defaults -----

  lemma {:induction false} NothingToClear(db: QueueDb, list: seq<Item>, ups: seq<bool>)
    requires |ups| == |list| && forall item :: item in list ==> !Marked(item.1)
    ensures UnsetAll(db, list, ups) == Outcome(db, None)
    decreases |list|
  {
    if list == [] {
    } else {
      NothingToClear(db, list[..|list| - 1], ups[..|list| - 1]);
      assert list[|list| - 1] in list;
    }
  }

  lemma FreshListUnmarked(db: QueueDb, list: seq<Item>)
    requires Fresh(db, list) && Defaults(db) == {}
    ensures forall item :: item in list ==> !Marked(item.1)
  {
    forall item | item in list
      ensures !Marked(item.1)
    {
      var i :| 0 <= i < |list| && list[i] == item;
      assert IsStored(db, list[i]) && item.0 !in Defaults(db);
    }
  }

  /** The rest of an action on a list without defaults, while its queue is as it was. */
  lemma RestMarks(s: State, id: nat) returns (steps: seq<Step>)
    requires id in s.calls && forall item :: item in s.calls[id].todo ==> !Marked(item.1)
    requires var c := s.calls[id];
      c.key in s.db.objects && s.db.objects[c.key] == c.found && !Marked(c.found)
    ensures Legal(s, steps)
    ensures var c, s' := s.calls[id], After(s, steps);
      && s' == State(Put(s.db, c.key, Mark(c.found)), s.calls - {id})
      && Defaults(s'.db) == Defaults(s.db) + {c.key}
  {
    var c := s.calls[id];
    var ups := seq(|c.todo|, _ => true);
    NothingToClear(s.db, c.todo, ups);
    steps := RestRuns(s, id, ups, true);
    assert DEFAULT_KEY in Mark(c.found).meta.annotations;
  }

  /** With no default stored, two actions on different queues that list the same state leave two defaults. */
  lemma TwoActionsTwoDefaults(s: State, name1: string, name2: string, list: seq<Item>) returns (steps: seq<Step>)
    requires s.calls == map[] && Fresh(s.db, list) && Defaults(s.db) == {} && name1 != name2
    requires QueueKey(name1) in s.db.objects && QueueKey(name2) in s.db.objects
    ensures Legal(s, steps) && After(s, steps).calls == map[]
    ensures Defaults(After(s, steps).db) == {QueueKey(name1), QueueKey(name2)}
  {
    FreshListUnmarked(s.db, list);
    var k1, k2 := QueueKey(name1), QueueKey(name2);
    assert k1 !in Defaults(s.db) && k2 !in Defaults(s.db);
    var begin1, begin2 := Begin(0, name1, list), Begin(1, name2, list);
    OneStep(s, begin1);
    var s1 := Apply(s, begin1);
    OneStep(s1, begin2);
    var s2 := Apply(s1, begin2);
    RunsCompose(s, [begin1], [begin2]);
    var rest1 := RestMarks(s2, 0);
    var s3 := After(s2, rest1);
    var rest2 := RestMarks(s3, 1);
    RunsCompose(s, [begin1] + [begin2], rest1);
    RunsCompose(s, [begin1] + [begin2] + rest1, rest2);
    steps := [begin1] + [begin2] + rest1 + rest2;
  }
}
