/** Choosing the default scheduling queue: clear every default first, then set the new one. */
module DefaultQueue {
  import opened Wrappers
  import opened ApiStore

  const DEFAULT_KEY := "scheduling.oneblock.ai/isDefaultQueue"

  datatype QueueMeta = QueueMeta(annotations: map<string, string>, spec: string)

  type Queue = Object<QueueMeta, ()>
  type QueueDb = Db<QueueMeta, ()>
  type Item = (ObjKey, Queue)

  datatype Outcome = Outcome(db: QueueDb, err: Option<ApiError>)

  /** Queues are not namespaced. */
  function QueueKey(name: string): ObjKey {
    ObjKey("", name)
  }

  predicate Marked(q: Queue) {
    DEFAULT_KEY in q.meta.annotations
  }

  function Unmark(q: Queue): Queue {
    q.(meta := q.meta.(annotations := q.meta.annotations - {DEFAULT_KEY}))
  }

  function Mark(q: Queue): Queue {
    q.(meta := q.meta.(annotations := q.meta.annotations[DEFAULT_KEY := "true"]))
  }

  function FromReply(reply: Reply<QueueMeta, ()>): Outcome {
    Outcome(reply.db, if reply.result.Success? then None else Some(reply.result.error))
  }

  function UnsetOne(db: QueueDb, item: Item, up: bool): Outcome {
    if Marked(item.1) then FromReply(Update(db, item.0, Unmark(item.1), up)) else Outcome(db, None)
  }

  /** The loop over the listed queues; `ups` says for each whether its write reaches the server. */
  function UnsetAll(db: QueueDb, list: seq<Item>, ups: seq<bool>): Outcome
    requires |ups| == |list|
    decreases |list|
  {
    if list == [] then Outcome(db, None)
    else
      var init := UnsetAll(db, list[..|list| - 1], ups[..|list| - 1]);
      if init.err.Some? then init else UnsetOne(init.db, list[|list| - 1], ups[|list| - 1])
  }

  /** `found` is the cached queue; it is read before the loop and written after it. */
  function SetDefault(db: QueueDb, name: string, found: Option<Queue>, list: seq<Item>, ups: seq<bool>,
                      lastUp: bool): Outcome
    requires |ups| == |list|
  {
    if found.None? then Outcome(db, Some(NotFound))
    else
      var cleared := UnsetAll(db, list, ups);
      if cleared.err.Some? then cleared
      else FromReply(Update(cleared.db, QueueKey(name), Mark(found.value), lastUp))
  }

  class QueueHandler {
    var queues: QueueDb

    constructor (queues: QueueDb)
      ensures this.queues == queues
    {
      this.queues := queues;
    }

    method UnsetAllDefaultQueues(list: seq<Item>, ups: seq<bool>) returns (err: Option<ApiError>)
      requires |ups| == |list|
      modifies this
      ensures Outcome(queues, err) == UnsetAll(old(queues), list, ups)
    {
      for i := 0 to |list|
        // every state in between is the one after some prefix of the list
        invariant UnsetAll(old(queues), list[..i], ups[..i]) == Outcome(queues, None)
      {
        assert list[..i + 1][..i] == list[..i] && ups[..i + 1][..i] == ups[..i];
        var q := list[i].1;
        if DEFAULT_KEY in q.meta.annotations {
          q := q.(meta := q.meta.(annotations := q.meta.annotations - {DEFAULT_KEY}));
          var reply := Update(queues, list[i].0, q, ups[i]);
          queues := reply.db;
          if reply.result.Failure? {
            err := Some(reply.result.error);
            ErrorStops(old(queues), list, ups, i + 1);
            return;
          }
        }
      }
      assert list[..|list|] == list && ups[..|list|] == ups;
      return None;
    }

    method SetDefaultQueue(name: string, found: Option<Queue>, list: seq<Item>, ups: seq<bool>, lastUp: bool)
      returns (err: Option<ApiError>)
      requires |ups| == |list|
      modifies this
      ensures Outcome(queues, err) == SetDefault(old(queues), name, found, list, ups, lastUp)
    {
      if found.None? {
        return Some(NotFound);
      }
      err := UnsetAllDefaultQueues(list, ups);
      if err.Some? {
        return;
      }
      var toUpdate := Mark(found.value);
      var reply := Update(queues, QueueKey(name), toUpdate, lastUp);
      queues := reply.db;
      return if reply.result.Success? then None else Some(reply.result.error);
    }
  }

  lemma {:induction false} ErrorStops(db: QueueDb, list: seq<Item>, ups: seq<bool>, n: nat)
    requires |ups| == |list| && n <= |list| && UnsetAll(db, list[..n], ups[..n]).err.Some?
    ensures UnsetAll(db, list, ups) == UnsetAll(db, list[..n], ups[..n])
    decreases |list|
  {
    if n < |list| {
      var m := |list| - 1;
      assert list[..m][..n] == list[..n] && ups[..m][..n] == ups[..n];
      ErrorStops(db, list[..m], ups[..m], n);
    } else {
      assert list[..n] == list && ups[..n] == ups;
    }
  }

  // ----- Safety of every state in between -----

  /** The queues that carry the annotation, whatever its value. */
  function Defaults(db: QueueDb): set<ObjKey> {
    set k | k in db.objects && "scheduling.oneblock.ai/isDefaultQueue" in db.objects[k].meta.annotations
  }

  /** The cache is fresh: the list holds every stored queue once. */
  ghost predicate Fresh(db: QueueDb, list: seq<Item>) {
    && db.objects.Keys == Done(list, |list|)
    && (forall i :: 0 <= i < |list| ==> IsStored(db, list[i]))
    && (forall i, j :: 0 <= i < j < |list| ==> list[i].0 != list[j].0)
  }

  predicate IsStored(db: QueueDb, item: Item) {
    item.0 in db.objects && db.objects[item.0] == item.1 && item.1.rv <= db.revision
  }

  /** Outside the default annotation the two queues are the same. */
  ghost predicate SameQueue(q: Queue, q': Queue) {
    && q'.uid == q.uid && q'.meta.spec == q.meta.spec
    && forall x :: x != "scheduling.oneblock.ai/isDefaultQueue" ==>
         if x in q.meta.annotations then x in q'.meta.annotations && q'.meta.annotations[x] == q.meta.annotations[x]
         else x !in q'.meta.annotations
  }

  /** Queues differ at most in the default annotation. */
  ghost predicate SameOtherwise(db: QueueDb, db': QueueDb) {
    && db'.objects.Keys == db.objects.Keys
    && forall k :: k in db.objects ==> SameQueue(db.objects[k], db'.objects[k])
  }

  function Done(list: seq<Item>, n: nat): set<ObjKey>
    requires n <= |list|
  {
    set i | 0 <= i < n :: list[i].0
  }

  /** The state once the marks of the first `n` listed queues are gone. */
  ghost predicate ClearedUpTo(db: QueueDb, db': QueueDb, list: seq<Item>, n: nat)
    requires n <= |list|
  {
    && db.revision <= db'.revision
    && db'.objects.Keys == db.objects.Keys
    && forall k :: k in db.objects ==>
         if k in Done(list, n) && Marked(db.objects[k])
         then db'.objects[k] == Unmark(db.objects[k]).(rv := db'.objects[k].rv) && db'.objects[k].rv > db.revision
         else db'.objects[k] == db.objects[k]
  }

  lemma ClearedMeans(db: QueueDb, db': QueueDb, list: seq<Item>, n: nat)
    requires n <= |list| && ClearedUpTo(db, db', list, n)
    ensures SameOtherwise(db, db') && Defaults(db') == Defaults(db) - Done(list, n)
  {
  }

  lemma IterationClears(db: QueueDb, db': QueueDb, list: seq<Item>, n: nat, up: bool)
    requires n < |list| && ClearedUpTo(db, db', list, n)
    requires list[n].0 in db.objects && db.objects[list[n].0] == list[n].1
    requires list[n].1.rv <= db.revision && list[n].0 !in Done(list, n)
    ensures var r := UnsetOne(db', list[n], up);
      && (r.err == None <==> (Marked(list[n].1) ==> up))
      && if r.err == None then ClearedUpTo(db, r.db, list, n + 1) else r.db == db'
  {
    DoneGrows(list, n);
  }

  lemma DoneGrows(list: seq<Item>, n: nat)
    requires n < |list|
    ensures forall k :: k in Done(list, n + 1) <==> k in Done(list, n) || k == list[n].0
  {
  }

  /** How many of the first `n` iterations succeed. */
  function Progress(list: seq<Item>, ups: seq<bool>, n: nat): (m: nat)
    requires n <= |list| == |ups|
    ensures m <= n
    ensures m == n <==> forall i :: 0 <= i < n && Marked(list[i].1) ==> ups[i]
  {
    if n == 0 then 0
    else
      var m := Progress(list, ups, n - 1);
      if m < n - 1 || (Marked(list[n - 1].1) && !ups[n - 1]) then m else n
  }

  lemma {:induction false} ProgressGrows(list: seq<Item>, ups: seq<bool>, i: nat, j: nat)
    requires i <= j <= |list| == |ups|
    ensures Progress(list, ups, i) <= Progress(list, ups, j)
  {
    if i < j {
      ProgressGrows(list, ups, i, j - 1);
    }
  }

  lemma FreshItem(db: QueueDb, list: seq<Item>, n: nat)
    requires n < |list| && Fresh(db, list)
    ensures list[n].0 in db.objects && db.objects[list[n].0] == list[n].1
    ensures list[n].1.rv <= db.revision && list[n].0 !in Done(list, n)
  {
    assert IsStored(db, list[n]);
  }

  /** Every state of the loop is the one after the iterations that succeeded. */
  lemma {:induction false} PrefixClears(db: QueueDb, list: seq<Item>, ups: seq<bool>, n: nat)
    requires n <= |list| == |ups| && Fresh(db, list)
    ensures var r, m := UnsetAll(db, list[..n], ups[..n]), Progress(list, ups, n);
      ClearedUpTo(db, r.db, list, m) && (r.err == None <==> m == n)
  {
    if n > 0 {
      var before := n - 1;
      assert list[..n][..before] == list[..before] && ups[..n][..before] == ups[..before];
      PrefixClears(db, list, ups, before);
      if Progress(list, ups, before) == before {
        FreshItem(db, list, before);
        IterationClears(db, UnsetAll(db, list[..before], ups[..before]).db, list, before, ups[before]);
      }
    }
  }

  /** During the loop the set of default queues only shrinks, and nothing else about a queue changes. */
  lemma LoopOnlyShrinks(db: QueueDb, list: seq<Item>, ups: seq<bool>, i: nat, j: nat)
    requires i <= j <= |list| == |ups| && Fresh(db, list)
    ensures var ri, rj := UnsetAll(db, list[..i], ups[..i]), UnsetAll(db, list[..j], ups[..j]);
      Defaults(rj.db) <= Defaults(ri.db) <= Defaults(db) && SameOtherwise(db, ri.db) && SameOtherwise(db, rj.db)
  {
    PrefixClears(db, list, ups, i);
    PrefixClears(db, list, ups, j);
    ClearedMeans(db, UnsetAll(db, list[..i], ups[..i]).db, list, Progress(list, ups, i));
    ClearedMeans(db, UnsetAll(db, list[..j], ups[..j]).db, list, Progress(list, ups, j));
    ProgressGrows(list, ups, i, j);
  }

  // ----- The result -----

  /** Every write of the call reaches the server. */
  predicate Reachable(list: seq<Item>, ups: seq<bool>, lastUp: bool)
    requires |ups| == |list|
  {
    lastUp && forall i :: 0 <= i < |list| && Marked(list[i].1) ==> ups[i]
  }

  /**
   The call succeeds exactly when the queue exists, is not the default already, and every
   write reaches the server. Then it is the only default, and the last write started from
   none. An error never leaves a new default.
   */
  lemma SetDefaultIsExclusive(db: QueueDb, name: string, list: seq<Item>, ups: seq<bool>, lastUp: bool)
    requires |ups| == |list| && Fresh(db, list)
    ensures var r := SetDefault(db, name, Lookup(db, QueueKey(name)), list, ups, lastUp);
      && SameOtherwise(db, r.db)
      && (r.err == None <==>
            QueueKey(name) in db.objects && !Marked(db.objects[QueueKey(name)]) && Reachable(list, ups, lastUp))
      && (r.err == None ==> Defaults(r.db) == {QueueKey(name)} && Defaults(UnsetAll(db, list, ups).db) == {})
      && (r.err == None ==>
            r.db.objects[QueueKey(name)].meta.annotations["scheduling.oneblock.ai/isDefaultQueue"] == "true")
      && (r.err != None ==> Defaults(r.db) <= Defaults(db))
  {
    LoopClearsAll(db, list, ups);
    var k := QueueKey(name);
    var cleared := UnsetAll(db, list, ups);
    if k in db.objects && cleared.err == None && !Marked(db.objects[k]) && lastUp {
      MarkIsOnlyDefault(cleared.db, k, db.objects[k]);
    }
  }

  /** The whole loop: no default is left unless a write failed. */
  lemma LoopClearsAll(db: QueueDb, list: seq<Item>, ups: seq<bool>)
    requires |ups| == |list| && Fresh(db, list)
    ensures var r := UnsetAll(db, list, ups);
      && SameOtherwise(db, r.db)
      && Defaults(r.db) <= Defaults(db)
      && (r.err == None <==> Reachable(list, ups, true))
      && (r.err == None ==> Defaults(r.db) == {})
      && (r.err == None ==> forall k :: k in db.objects ==>
            if Marked(db.objects[k]) then r.db.objects[k].rv > db.revision else r.db.objects[k] == db.objects[k])
  {
    var n := |list|;
    assert list[..n] == list && ups[..n] == ups;
    PrefixClears(db, list, ups, n);
    ClearedMeans(db, UnsetAll(db, list, ups).db, list, Progress(list, ups, n));
  }

  lemma MarkIsOnlyDefault(cleared: QueueDb, k: ObjKey, q: Queue)
    requires k in cleared.objects && cleared.objects[k] == q && Defaults(cleared) == {}
    ensures var r := Update(cleared, k, Mark(q), true);
      && r.result.Success? && Defaults(r.db) == {k} && SameOtherwise(cleared, r.db)
      && r.db.objects[k].meta.annotations["scheduling.oneblock.ai/isDefaultQueue"] == "true"
  {
    assert k !in Defaults(cleared);
    var db' := Update(cleared, k, Mark(q), true).db;
    forall j | j in Defaults(db')
      ensures j == k
    {
      assert j != k ==> j in Defaults(cleared);
    }
  }

  /** Choosing the current default again ends in a conflict and leaves no default at all. */
  lemma ChoosingDefaultAgainClearsIt(db: QueueDb, name: string, list: seq<Item>, ups: seq<bool>)
    requires |ups| == |list| && Fresh(db, list) && Reachable(list, ups, true)
    requires QueueKey(name) in db.objects && Marked(db.objects[QueueKey(name)])
    ensures var r := SetDefault(db, name, Lookup(db, QueueKey(name)), list, ups, true);
      r.err == Some(Conflict) && Defaults(r.db) == {}
  {
    LoopClearsAll(db, list, ups);
  }
}
