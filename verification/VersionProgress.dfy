/** Progress of AssignVersion when nothing fails and calls on one template follow each other. */
module VersionProgress {
  import opened Wrappers
  import opened ApiStore
  import opened ModelVersions
  import opened TemplateHandlers

  ghost predicate RevisionBounds(db: VersionDb) {
    forall k :: k in db.objects ==> db.objects[k].rv <= db.revision
  }

  /** A call on the current version, and another one after an error. */
  function Retried(db: VersionDb, counters: map<string, int>, k: ObjKey, owner: Owner): AssignResult
    requires k in db.objects
  {
    var r := Assign(db, counters, k, db.objects[k], Some(owner), true, true);
    if r.err.None? || k !in r.db.objects then r
    else Assign(r.db, r.counters, k, r.db.objects[k], Some(owner), true, true)
  }

  /** The version once it is labelled, owned and numbered. */
  function Numbered(v: Version, owner: Owner, n: int): Version {
    WithNumber(v.(meta := LabelAndOwn(v.meta, owner)), n)
  }

  predicate SameButVersion(v: Version, v': Version) {
    v'.(rv := v.rv) == v
  }

  /** The version `k` got number `n`; nothing else changed. */
  ghost predicate GotNumber(db: VersionDb, db': VersionDb, k: ObjKey, owner: Owner, n: int)
    requires k in db.objects
  {
    && RevisionBounds(db')
    && db'.objects.Keys == db.objects.Keys
    && SameButVersion(Numbered(db.objects[k], owner, n), db'.objects[k])
    && forall j :: j in db.objects && j != k ==> db'.objects[j] == db.objects[j]
  }

  /** The first call on a version without label or owner: only the metadata write goes through. */
  lemma FirstCallLabels(db: VersionDb, counters: map<string, int>, k: ObjKey, owner: Owner)
    requires k in db.objects && NeedsNumber(db.objects[k]) && RevisionBounds(db)
    requires var v := db.objects[k]; LabelAndOwn(v.meta, owner) != v.meta
    ensures var v, r := db.objects[k], Assign(db, counters, k, db.objects[k], Some(owner), true, true);
      && r.err.Some? && r.counters == counters
      && r.db == Put(db, k, v.(meta := LabelAndOwn(v.meta, owner)))
  {
  }

  lemma LabelledIsAssigned(db: VersionDb, counters: map<string, int>, k: ObjKey, owner: Owner)
    requires k in db.objects && NeedsNumber(db.objects[k]) && RevisionBounds(db)
    requires var v := db.objects[k]; LabelAndOwn(v.meta, owner) == v.meta
    ensures var v, r, ref := db.objects[k], Assign(db, counters, k, db.objects[k], Some(owner), true, true),
                             TemplateRef(k, db.objects[k]);
      var n := Counter(counters, ref) + 1;
      && r.err == None && r.counters == counters[ref := n]
      && r.db == Put(db, k, WithNumber(v, n))
  {
  }

  lemma RetryAssigns(db: VersionDb, counters: map<string, int>, k: ObjKey, owner: Owner)
    requires k in db.objects && NeedsNumber(db.objects[k]) && RevisionBounds(db)
    ensures var r, ref := Retried(db, counters, k, owner), TemplateRef(k, db.objects[k]);
      var n := Counter(counters, ref) + 1;
      r.err == None && r.counters == counters[ref := n] && GotNumber(db, r.db, k, owner, n)
  {
    var v := db.objects[k];
    if LabelAndOwn(v.meta, owner) == v.meta {
      LabelledIsAssigned(db, counters, k, owner);
    } else {
      FirstCallLabels(db, counters, k, owner);
      assert LabelAndOwn(LabelAndOwn(v.meta, owner), owner) == LabelAndOwn(v.meta, owner);
      LabelledIsAssigned(Put(db, k, v.(meta := LabelAndOwn(v.meta, owner))), counters, k, owner);
    }
  }

  /** One version after another. */
  function AssignAll(db: VersionDb, counters: map<string, int>, keys: seq<ObjKey>, owner: Owner): AssignResult
    decreases |keys|
  {
    if keys == [] then AssignResult(db, counters, None)
    else if keys[0] !in db.objects then AssignAll(db, counters, keys[1..], owner)
    else
      var r := Retried(db, counters, keys[0], owner);
      if r.err.Some? then r else AssignAll(r.db, r.counters, keys[1..], owner)
  }

  /** The listed versions got the numbers after `n`, in this order; no other version changed. */
  ghost predicate GotNumbers(db: VersionDb, db': VersionDb, keys: seq<ObjKey>, owner: Owner, n: int) {
    && db'.objects.Keys == db.objects.Keys
    && (forall i :: 0 <= i < |keys| && keys[i] in db.objects ==>
          SameButVersion(Numbered(db.objects[keys[i]], owner, n + 1 + i), db'.objects[keys[i]]))
    && (forall k :: k in db.objects && k !in keys ==> db'.objects[k] == db.objects[k])
  }

  ghost predicate Distinct(keys: seq<ObjKey>) {
    forall i, j :: 0 <= i < j < |keys| ==> keys[i] != keys[j]
  }

  /** The versions of template `ref` that a list of calls can number. */
  ghost predicate AllNeedNumbers(db: VersionDb, keys: seq<ObjKey>, ref: string) {
    forall k :: k in keys ==> k in db.objects && NeedsNumber(db.objects[k]) && TemplateRef(k, db.objects[k]) == ref
  }

  lemma OneMore(db: VersionDb, mid: VersionDb, db': VersionDb, keys: seq<ObjKey>, owner: Owner, n: int)
    requires keys != [] && Distinct(keys) && keys[0] in db.objects
    requires GotNumbers(db, mid, keys[..1], owner, n) && GotNumbers(mid, db', keys[1..], owner, n + 1)
    ensures GotNumbers(db, db', keys, owner, n)
  {
    assert keys[..1][0] == keys[0];
    assert keys[0] !in keys[1..];
    assert forall k :: k in keys <==> k == keys[0] || k in keys[1..];
    forall i | 0 <= i < |keys| && keys[i] in db.objects
      ensures SameButVersion(Numbered(db.objects[keys[i]], owner, n + 1 + i), db'.objects[keys[i]])
    {
      if i > 0 {
        assert keys[1..][i - 1] == keys[i] && keys[i] !in keys[..1];
      }
    }
  }

  /** The calls succeed, hand out the numbers that follow the counter, and leave other templates alone. */
  ghost predicate NumbersAll(db: VersionDb, counters: map<string, int>, keys: seq<ObjKey>, owner: Owner, ref: string,
                             r: AssignResult) {
    && r.err == None
    && GotNumbers(db, r.db, keys, owner, Counter(counters, ref))
    && Counter(r.counters, ref) == Counter(counters, ref) + |keys|
    && (forall other :: other != ref ==> Counter(r.counters, other) == Counter(counters, other))
  }

  lemma NumbersOneMore(db: VersionDb, counters: map<string, int>, mid: AssignResult, keys: seq<ObjKey>, owner: Owner,
                       ref: string, r: AssignResult)
    requires keys != [] && Distinct(keys) && keys[0] in db.objects
    requires GotNumbers(db, mid.db, keys[..1], owner, Counter(counters, ref))
    requires mid.counters == counters[ref := Counter(counters, ref) + 1]
    requires NumbersAll(mid.db, mid.counters, keys[1..], owner, ref, r)
    ensures NumbersAll(db, counters, keys, owner, ref, r)
  {
    var n := Counter(counters, ref);
    assert Counter(mid.counters, ref) == n + 1;
    OneMore(db, mid.db, r.db, keys, owner, n);
    forall other | other != ref
      ensures Counter(r.counters, other) == Counter(counters, other)
    {
      assert Counter(mid.counters, other) == Counter(counters, other);
    }
  }

  /**
   Any unassigned versions of one template, retried one after another, get the numbers that follow
   the counter, in this order; label and owner are added, all else stays.
   */
  lemma {:induction false} AllGetNumbers(db: VersionDb, counters: map<string, int>, keys: seq<ObjKey>, owner: Owner,
                                         ref: string)
    requires RevisionBounds(db) && Distinct(keys) && AllNeedNumbers(db, keys, ref)
    ensures NumbersAll(db, counters, keys, owner, ref, AssignAll(db, counters, keys, owner))
    decreases |keys|
  {
    if keys == [] {
    } else {
      var mid := FirstGetsNumber(db, counters, keys, owner, ref);
      RestNeedsNumbers(db, mid.db, keys, owner, Counter(counters, ref), ref);
      AllGetNumbers(mid.db, mid.counters, keys[1..], owner, ref);
      assert keys[0] in keys;
      NumbersOneMore(db, counters, mid, keys, owner, ref, AssignAll(mid.db, mid.counters, keys[1..], owner));
    }
  }

  lemma FirstGetsNumber(db: VersionDb, counters: map<string, int>, keys: seq<ObjKey>, owner: Owner, ref: string)
    returns (r: AssignResult)
    requires RevisionBounds(db) && keys != [] && AllNeedNumbers(db, keys, ref)
    ensures AssignAll(db, counters, keys, owner) == AssignAll(r.db, r.counters, keys[1..], owner)
    ensures RevisionBounds(r.db) && GotNumbers(db, r.db, keys[..1], owner, Counter(counters, ref))
    ensures r.counters == counters[ref := Counter(counters, ref) + 1]
  {
    var k := keys[0];
    assert k in keys;
    r := Retried(db, counters, k, owner);
    RetryAssigns(db, counters, k, owner);
    assert keys[..1] == [k];
  }

  lemma RestNeedsNumbers(db: VersionDb, mid: VersionDb, keys: seq<ObjKey>, owner: Owner, n: int, ref: string)
    requires keys != [] && Distinct(keys) && AllNeedNumbers(db, keys, ref) && GotNumbers(db, mid, keys[..1], owner, n)
    ensures Distinct(keys[1..]) && AllNeedNumbers(mid, keys[1..], ref)
  {
    forall k | k in keys[1..]
      ensures k in keys && k !in keys[..1]
    {
      var i :| 0 < i < |keys| && keys[i] == k;
    }
  }
}
