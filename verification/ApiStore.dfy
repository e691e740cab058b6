/**
 The Kubernetes API server as the controllers see it: optimistic concurrency over
 objects that carry a resource version (Kubernetes API conventions, "Concurrency
 Control and Consistency").

 - `Update` replaces metadata and spec, `UpdateStatus` replaces the status only.
 - A write from a copy whose resource version is not the current one is a conflict.
 - A write that changes nothing keeps the resource version.
 - An error means nothing was written.

 Resource versions come from one counter, so no two stored values ever share one.
 The parameter `up` of a write says whether the server could be reached.
 */
module ApiStore {
  import opened Wrappers

  /** An owner reference; a missing list and an empty one are the same. */
  datatype Owner = Owner(apiVersion: string, kind: string, name: string, uid: nat)

  datatype ObjKey = ObjKey(ns: string, name: string)

  datatype Object<M, S> = Object(uid: nat, rv: nat, meta: M, status: S)

  datatype ApiError = NotFound | AlreadyExists | Conflict | Unavailable

  datatype Db<M, S> = Db(objects: map<ObjKey, Object<M, S>>, revision: nat)

  /** The state after a write, and what the client gets back. */
  datatype Reply<M, S> = Reply(db: Db<M, S>, result: Result<Object<M, S>, ApiError>)

  function Lookup<M, S>(db: Db<M, S>, k: ObjKey): Option<Object<M, S>> {
    if k in db.objects then Some(db.objects[k]) else None
  }

  predicate Accepts<M, S>(db: Db<M, S>, k: ObjKey, copy: Object<M, S>, up: bool) {
    up && k in db.objects && db.objects[k].rv == copy.rv
  }

  function Refusal<M, S>(db: Db<M, S>, k: ObjKey, up: bool): ApiError {
    if !up then Unavailable else if k !in db.objects then NotFound else Conflict
  }

  function Put<M, S>(db: Db<M, S>, k: ObjKey, obj: Object<M, S>): Db<M, S> {
    Db(db.objects[k := obj.(rv := db.revision + 1)], db.revision + 1)
  }

  function Update<M(==), S>(db: Db<M, S>, k: ObjKey, copy: Object<M, S>, up: bool): Reply<M, S> {
    if !Accepts(db, k, copy, up) then
      Reply(db, Failure(Refusal(db, k, up)))
    else if db.objects[k].meta == copy.meta then
      Reply(db, Success(db.objects[k]))
    else
      var db' := Put(db, k, db.objects[k].(meta := copy.meta));
      Reply(db', Success(db'.objects[k]))
  }

  function UpdateStatus<M, S(==)>(db: Db<M, S>, k: ObjKey, copy: Object<M, S>, up: bool): Reply<M, S> {
    if !Accepts(db, k, copy, up) then
      Reply(db, Failure(Refusal(db, k, up)))
    else if db.objects[k].status == copy.status then
      Reply(db, Success(db.objects[k]))
    else
      var db' := Put(db, k, db.objects[k].(status := copy.status));
      Reply(db', Success(db'.objects[k]))
  }

  function Create<M, S>(db: Db<M, S>, k: ObjKey, meta: M, status: S, up: bool): Reply<M, S> {
    if !up then
      Reply(db, Failure(Unavailable))
    else if k in db.objects then
      Reply(db, Failure(AlreadyExists))
    else
      var db' := Put(db, k, Object(db.revision + 1, 0, meta, status));
      Reply(db', Success(db'.objects[k]))
  }

  function Delete<M, S>(db: Db<M, S>, k: ObjKey): Db<M, S> {
    db.(objects := db.objects - {k})
  }

  // ----- What the writes mean -----

  /** Nothing but the object under `k` changed. */
  ghost predicate OnlyAt<M, S>(db: Db<M, S>, db': Db<M, S>, k: ObjKey) {
    forall j :: j != k ==>
      if j in db.objects then j in db'.objects && db'.objects[j] == db.objects[j] else j !in db'.objects
  }

  /** A write is accepted from a current copy only, refused for a reason, and then changes nothing. */
  ghost predicate Answered<M, S>(db: Db<M, S>, k: ObjKey, copy: Object<M, S>, up: bool, r: Reply<M, S>) {
    if up && k in db.objects && db.objects[k].rv == copy.rv then
      && k in r.db.objects && r.result == Success(r.db.objects[k]) && OnlyAt(db, r.db, k)
    else
      && r.db == db
      && r.result == Failure(if !up then Unavailable else if k !in db.objects then NotFound else Conflict)
  }

  /** The object under `k` got a new resource version unless it stayed the same. */
  predicate Versioned<M(==), S(==)>(db: Db<M, S>, db': Db<M, S>, k: ObjKey)
    requires k in db.objects && k in db'.objects
  {
    if db'.objects[k].(rv := db.objects[k].rv) == db.objects[k] then db' == db
    else db'.revision == db.revision + 1 && db'.objects[k].rv == db'.revision
  }

  lemma UpdateMeans<M, S>(db: Db<M, S>, k: ObjKey, copy: Object<M, S>, up: bool)
    ensures var r := Update(db, k, copy, up);
      && Answered(db, k, copy, up, r)
      && (r.result.Success? ==>
            && Versioned(db, r.db, k)
            && var obj, obj' := db.objects[k], r.db.objects[k];
               obj'.meta == copy.meta && obj'.status == obj.status && obj'.uid == obj.uid)
  {
  }

  lemma UpdateStatusMeans<M, S>(db: Db<M, S>, k: ObjKey, copy: Object<M, S>, up: bool)
    ensures var r := UpdateStatus(db, k, copy, up);
      && Answered(db, k, copy, up, r)
      && (r.result.Success? ==>
            && Versioned(db, r.db, k)
            && var obj, obj' := db.objects[k], r.db.objects[k];
               obj'.status == copy.status && obj'.meta == obj.meta && obj'.uid == obj.uid)
  {
  }

  /** A name can be taken once; the new object has an identity of its own. */
  lemma CreateMeans<M, S>(db: Db<M, S>, k: ObjKey, meta: M, status: S, up: bool)
    ensures var r := Create(db, k, meta, status, up);
      if up && k !in db.objects then
        && k in r.db.objects && r.result == Success(r.db.objects[k]) && OnlyAt(db, r.db, k)
        && r.db.objects[k] == Object(r.db.revision, r.db.revision, meta, status)
        && r.db.revision == db.revision + 1
      else
        r.db == db && r.result == Failure(if !up then Unavailable else AlreadyExists)
  {
  }

  lemma DeleteMeans<M, S>(db: Db<M, S>, k: ObjKey)
    ensures k !in Delete(db, k).objects && OnlyAt(db, Delete(db, k), k) && Delete(db, k).revision == db.revision
  {
  }

  // ----- What a cache may hold: any value the server ever stored -----

  type History<!M(==), !S(==)> = set<(ObjKey, Object<M, S>)>

  /** `seen` holds every stored value up to now, and a resource version identifies its value. */
  ghost predicate Consistent<M, S>(db: Db<M, S>, seen: History<M, S>) {
    && (forall p :: p in seen ==> p.1.uid <= p.1.rv <= db.revision)
    && (forall k :: k in db.objects ==> (k, db.objects[k]) in seen)
    && (forall p, q :: p in seen && q in seen && p.1.rv == q.1.rv ==> p == q)
  }

  function Observe<M(==), S(==)>(db: Db<M, S>, seen: History<M, S>): History<M, S> {
    seen + set k | k in db.objects :: (k, db.objects[k])
  }

  /** Every write (successful or not) and every deletion changes the store in this way only. */
  ghost predicate Evolves<M, S>(db: Db<M, S>, db': Db<M, S>, k: ObjKey) {
    && db.revision <= db'.revision
    && (forall j :: j in db'.objects && j != k ==> j in db.objects && db'.objects[j] == db.objects[j])
    && (k in db'.objects ==>
        || (k in db.objects && db'.objects[k] == db.objects[k])
        || (&& db'.objects[k].rv == db'.revision == db.revision + 1
            && (db'.objects[k].uid == db'.revision || (k in db.objects && db'.objects[k].uid == db.objects[k].uid))))
  }

  lemma WritesEvolve<M, S>(db: Db<M, S>, k: ObjKey, copy: Object<M, S>, up: bool)
    ensures Evolves(db, Update(db, k, copy, up).db, k)
    ensures Evolves(db, UpdateStatus(db, k, copy, up).db, k)
    ensures Evolves(db, Create(db, k, copy.meta, copy.status, up).db, k)
    ensures Evolves(db, Delete(db, k), k)
  {
  }

  /** The history stays consistent over any write or deletion. */
  lemma EvolvesKeepsConsistent<M, S>(db: Db<M, S>, seen: History<M, S>, db': Db<M, S>, k: ObjKey)
    requires Consistent(db, seen) && Evolves(db, db', k)
    ensures Consistent(db', Observe(db', seen))
  {
    var seen' := Observe(db', seen);
    forall p | p in seen'
      ensures p.1.uid <= p.1.rv <= db'.revision
      ensures p in seen || (k in db'.objects && p == (k, db'.objects[k]) && p.1.rv == db.revision + 1)
    {
      if p !in seen {
        assert p.0 in db'.objects && p == (p.0, db'.objects[p.0]);
        if k in db.objects {
          assert (k, db.objects[k]) in seen;
        }
      }
    }
  }

  /** Optimistic concurrency: a write that is accepted was computed from the current object. */
  lemma AcceptedCopyIsCurrent<M, S>(db: Db<M, S>, seen: History<M, S>, k: ObjKey, copy: Object<M, S>, up: bool)
    requires Consistent(db, seen) && (k, copy) in seen
    requires Accepts(db, k, copy, up)
    ensures db.objects[k] == copy
  {
    assert (k, db.objects[k]) in seen;
  }
}
