/** The three loops that create volumes or grow them, and never shrink them. */
module PvcReconcile {
  import opened Wrappers
  import opened ApiStore

  /** `rest` stands for everything in a claim that the loops copy but never look at. */
  datatype PvcMeta = PvcMeta(owners: seq<Owner>, requests: map<string, int>, rest: string)

  type Pvc = Object<PvcMeta, ()>
  type PvcDb = Db<PvcMeta, ()>

  /** A requested volume: an element of the annotation, or an MLService volume. */
  datatype Claim = Claim(name: string, requests: map<string, int>, rest: string)

  /** What fails during one iteration: the cache read, the API write. */
  datatype Weather = Weather(cacheUp: bool, apiUp: bool)

  datatype Outcome = Outcome(db: PvcDb, err: Option<ApiError>)

  /** The storage request, zero when there is none. */
  function Storage(requests: map<string, int>): int {
    if "storage" in requests then requests["storage"] else 0
  }

  function FromReply(reply: Reply<PvcMeta, ()>): Outcome {
    Outcome(reply.db, if reply.result.Success? then None else Some(reply.result.error))
  }

  /** One iteration on what the cache returned, which may be stale. */
  function Iterate(db: PvcDb, k: ObjKey, cached: Option<Pvc>, claim: Claim, owners: seq<Owner>, w: Weather): Outcome {
    if !w.cacheUp then
      Outcome(db, Some(Unavailable))
    else if cached.None? then
      FromReply(Create(db, k, PvcMeta(owners, claim.requests, claim.rest), (), w.apiUp))
    else if Storage(claim.requests) <= Storage(cached.value.meta.requests) then
      Outcome(db, None)
    else
      FromReply(Update(db, k, cached.value.(meta := cached.value.meta.(requests := claim.requests)), w.apiUp))
  }

  /** A whole pass over the claims with a fresh cache; the first error ends it. */
  function Pass(db: PvcDb, ns: string, claims: seq<Claim>, owners: seq<Owner>, weather: seq<Weather>): Outcome
    requires |weather| == |claims|
    decreases |claims|
  {
    if claims == [] then
      Outcome(db, None)
    else
      var k := ObjKey(ns, claims[0].name);
      var r := Iterate(db, k, Lookup(db, k), claims[0], owners, weather[0]);
      if r.err.Some? then r else Pass(r.db, ns, claims[1..], owners, weather[1..])
  }

  // ----- The three loops -----

  class PvcHandler {
    var pvcs: PvcDb

    constructor (pvcs: PvcDb)
      ensures this.pvcs == pvcs
    {
      this.pvcs := pvcs;
    }

    /** `templates` is the decoded annotation, or None when it does not decode. */
    method CreatePVCFromAnnotation(templates: Option<seq<Claim>>, ns: string, owners: seq<Owner>, weather: seq<Weather>)
      returns (decoded: bool, err: Option<ApiError>)
      requires templates.Some? ==> |weather| == |templates.value|
      modifies this
      ensures decoded == templates.Some?
      ensures Outcome(pvcs, err) ==
        if templates.None? then Outcome(old(pvcs), None) else Pass(old(pvcs), ns, templates.value, owners, weather)
    {
      if templates.None? {
        return false, None;
      }
      var claims := templates.value;
      for i := 0 to |claims|
        invariant Pass(old(pvcs), ns, claims, owners, weather) == Pass(pvcs, ns, claims[i..], owners, weather[i..])
      {
        var k := ObjKey(ns, claims[i].name);
        if !weather[i].cacheUp {
          return true, Some(Unavailable);
        }
        if k !in pvcs.objects {
          var reply := Create(pvcs, k, PvcMeta(owners, claims[i].requests, claims[i].rest), (), weather[i].apiUp);
          pvcs := reply.db;
          if reply.result.Failure? {
            return true, Some(reply.result.error);
          }
          continue;
        }
        var pvc := pvcs.objects[k];
        if Storage(claims[i].requests) <= Storage(pvc.meta.requests) {
          continue;
        }
        var toUpdate := pvc.(meta := pvc.meta.(requests := claims[i].requests));
        if toUpdate != pvc {
          var reply := Update(pvcs, k, toUpdate, weather[i].apiUp);
          pvcs := reply.db;
          if reply.result.Failure? {
            return true, Some(reply.result.error);
          }
        }
      }
      return true, None;
    }

    /** `owners` is None when the caller passes no owner references. */
    method CreatePVCByVolume(volumes: seq<Claim>, ns: string, owners: Option<seq<Owner>>, weather: seq<Weather>)
      returns (err: Option<ApiError>)
      requires |weather| == |volumes|
      modifies this
      ensures Outcome(pvcs, err) ==
              Pass(old(pvcs), ns, volumes, if owners.Some? then owners.value else [], weather)
    {
      ghost var refs := if owners.Some? then owners.value else [];
      for i := 0 to |volumes|
        invariant Pass(old(pvcs), ns, volumes, refs, weather) == Pass(pvcs, ns, volumes[i..], refs, weather[i..])
      {
        var k := ObjKey(ns, volumes[i].name);
        if !weather[i].cacheUp {
          return Some(Unavailable);
        }
        if k !in pvcs.objects {
          var pvc := PvcMeta([], volumes[i].requests, volumes[i].rest);
          if owners.Some? {
            pvc := pvc.(owners := owners.value);
          }
          var reply := Create(pvcs, k, pvc, (), weather[i].apiUp);
          pvcs := reply.db;
          if reply.result.Failure? {
            return Some(reply.result.error);
          }
        } else if Storage(volumes[i].requests) > Storage(pvcs.objects[k].meta.requests) {
          var toUpdate := pvcs.objects[k].(meta := pvcs.objects[k].meta.(requests := volumes[i].requests));
          if toUpdate != pvcs.objects[k] {
            var reply := Update(pvcs, k, toUpdate, weather[i].apiUp);
            pvcs := reply.db;
            if reply.result.Failure? {
              return Some(reply.result.error);
            }
          }
        }
      }
      return None;
    }
  }

  /** The part of a RayCluster the third loop reads. */
  datatype ClusterRef = ClusterRef(ns: string, owner: Owner, deleting: bool, annotation: Option<string>)

  class RayClusterHandler {
    var pvcs: PvcDb

    constructor (pvcs: PvcDb)
      ensures this.pvcs == pvcs
    {
      this.pvcs := pvcs;
    }

    /** `decode` is the JSON decoder of the annotation. */
    method CreatePVCFromAnnotation(cluster: Option<ClusterRef>, decode: string -> Option<seq<Claim>>,
                                   weather: seq<Weather>)
      returns (decoded: bool, err: Option<ApiError>)
      requires cluster.Some? && cluster.value.annotation.Some? && decode(cluster.value.annotation.value).Some? ==>
        |weather| == |decode(cluster.value.annotation.value).value|
      modifies this
      ensures var skipped := cluster.None? || cluster.value.deleting || cluster.value.annotation.None? ||
        cluster.value.annotation.value == "";
        && decoded == (skipped || decode(cluster.value.annotation.value).Some?)
        && Outcome(pvcs, err) ==
           if skipped || decode(cluster.value.annotation.value).None? then Outcome(old(pvcs), None)
           else Pass(old(pvcs), cluster.value.ns, decode(cluster.value.annotation.value).value,
             [cluster.value.owner], weather)
    {
      if cluster.None? || cluster.value.deleting || cluster.value.annotation.None? ||
        cluster.value.annotation.value == "" {
        return true, None;
      }
      var templates := decode(cluster.value.annotation.value);
      if templates.None? {
        return false, None;
      }
      var claims, ns, owners := templates.value, cluster.value.ns, [cluster.value.owner];
      for i := 0 to |claims|
        invariant Pass(old(pvcs), ns, claims, owners, weather) == Pass(pvcs, ns, claims[i..], owners, weather[i..])
      {
        var k := ObjKey(ns, claims[i].name);
        if !weather[i].cacheUp {
          return true, Some(Unavailable);
        }
        if k !in pvcs.objects {
          var reply := Create(pvcs, k, PvcMeta(owners, claims[i].requests, claims[i].rest), (), weather[i].apiUp);
          pvcs := reply.db;
          if reply.result.Failure? {
            return true, Some(reply.result.error);
          }
          continue;
        }
        var pvc := pvcs.objects[k];
        if Storage(claims[i].requests) <= Storage(pvc.meta.requests) {
          continue;
        }
        var toUpdate := pvc.(meta := pvc.meta.(requests := claims[i].requests));
        if toUpdate != pvc {
          var reply := Update(pvcs, k, toUpdate, weather[i].apiUp);
          pvcs := reply.db;
          if reply.result.Failure? {
            return true, Some(reply.result.error);
          }
        }
      }
      return true, None;
    }
  }

  // ----- What a pass achieves -----

  function Max(a: int, b: int): int {
    if a < b then b else a
  }

  function SizeOf(db: PvcDb, k: ObjKey): Option<int> {
    if k in db.objects then Some(Storage(db.objects[k].meta.requests)) else None
  }

  /** The maximum of a size, if there is one, and every request listed under the name. */
  function Largest(size: Option<int>, claims: seq<Claim>, name: string): Option<int>
    decreases |claims|
  {
    if claims == [] then size
    else if claims[0].name != name then Largest(size, claims[1..], name)
    else
      var request := Storage(claims[0].requests);
      Largest(Some(if size.Some? then Max(size.value, request) else request), claims[1..], name)
  }

  lemma {:induction false} LargestIsMaximum(size: Option<int>, claims: seq<Claim>, name: string)
    ensures var r := Largest(size, claims, name);
      && (size.Some? ==> r.Some? && size.value <= r.value)
      && (forall c :: c in claims && c.name == name ==> r.Some? && Storage(c.requests) <= r.value)
      && (r.Some? ==> r == size || exists c :: c in claims && c.name == name && Storage(c.requests) == r.value)
    decreases |claims|
  {
    if claims == [] {
    } else {
      var request := Storage(claims[0].requests);
      var size' :=
        if claims[0].name != name then size
        else Some(if size.Some? then Max(size.value, request) else request);
      LargestIsMaximum(size', claims[1..], name);
      assert forall c :: c in claims <==> c == claims[0] || c in claims[1..];
    }
  }

  /** The storage request did not go down; a missing one counts as zero. */
  predicate NotLower(before: map<string, int>, after: map<string, int>) {
    if "storage" in before then
      if "storage" in after then before["storage"] <= after["storage"] else before["storage"] <= 0
    else
      "storage" in after ==> after["storage"] >= 0
  }

  /** Growing keeps identity, owners and everything but the requests. */
  ghost predicate OnlyGrown(db: PvcDb, db': PvcDb) {
    forall k :: k in db.objects ==>
      && k in db'.objects
      && db'.objects[k].uid == db.objects[k].uid
      && db'.objects[k].meta.owners == db.objects[k].meta.owners
      && db'.objects[k].meta.rest == db.objects[k].meta.rest
      && NotLower(db.objects[k].meta.requests, db'.objects[k].meta.requests)
  }

  lemma FreshIteration(db: PvcDb, k: ObjKey, claim: Claim, owners: seq<Owner>, w: Weather)
    ensures var r := Iterate(db, k, Lookup(db, k), claim, owners, w);
      && OnlyGrown(db, r.db)
      && (forall j :: j != k ==> Lookup(r.db, j) == Lookup(db, j))
      && (r.err.Some? ==> r.db == db)
      && (r.err.None? ==>
            var request := Storage(claim.requests);
            SizeOf(r.db, k) == Some(if k in db.objects then Max(SizeOf(db, k).value, request) else request))
  {
  }

  /**
   A pass that succeeds leaves each listed volume at the maximum of its old size and every
   request listed for it; a pass never touches anything else, succeed or not.
   */
  lemma {:induction false} PassReachesMaximum(db: PvcDb, ns: string, claims: seq<Claim>, owners: seq<Owner>,
                                              weather: seq<Weather>)
    requires |weather| == |claims|
    ensures var r := Pass(db, ns, claims, owners, weather);
      && OnlyGrown(db, r.db)
      && (r.err.None? ==>
        forall name :: SizeOf(r.db, ObjKey(ns, name)) == Largest(SizeOf(db, ObjKey(ns, name)), claims, name))
      && (forall k: ObjKey :: k.ns != ns || (forall c :: c in claims ==> c.name != k.name) ==>
        Lookup(r.db, k) == Lookup(db, k))
    decreases |claims|
  {
    if claims == [] {
    } else {
      var k := ObjKey(ns, claims[0].name);
      FreshIteration(db, k, claims[0], owners, weather[0]);
      var r := Iterate(db, k, Lookup(db, k), claims[0], owners, weather[0]);
      if r.err.None? {
        PassReachesMaximum(r.db, ns, claims[1..], owners, weather[1..]);
        forall name
          ensures Largest(SizeOf(db, ObjKey(ns, name)), claims, name) ==
                  Largest(SizeOf(r.db, ObjKey(ns, name)), claims[1..], name)
        {
          assert name != claims[0].name ==> Lookup(r.db, ObjKey(ns, name)) == Lookup(db, ObjKey(ns, name));
        }
      }
    }
  }

  /** The claim is met: the volume requests as much, where a missing request counts as zero. */
  predicate IsMet(db: PvcDb, k: ObjKey, claim: Claim) {
    && k in db.objects
    && var requests := db.objects[k].meta.requests;
       "storage" in claim.requests ==>
         if "storage" in requests then claim.requests["storage"] <= requests["storage"]
         else claim.requests["storage"] <= 0
  }

  /** After a successful pass every claim is met. */
  lemma SuccessMeetsClaims(db: PvcDb, ns: string, claims: seq<Claim>, owners: seq<Owner>, weather: seq<Weather>)
    requires |weather| == |claims| && Pass(db, ns, claims, owners, weather).err.None?
    ensures forall c :: c in claims ==> IsMet(Pass(db, ns, claims, owners, weather).db, ObjKey(ns, c.name), c)
  {
    PassReachesMaximum(db, ns, claims, owners, weather);
    forall c | c in claims
      ensures IsMet(Pass(db, ns, claims, owners, weather).db, ObjKey(ns, c.name), c)
    {
      LargestIsMaximum(SizeOf(db, ObjKey(ns, c.name)), claims, c.name);
    }
  }

  /** Some claim on the volume `k` asks for exactly these requests. */
  ghost predicate Asked(ns: string, claims: seq<Claim>, k: ObjKey, requests: map<string, int>) {
    k.ns == ns && exists c :: c in claims && c.name == k.name && c.requests == requests
  }

  /** Claim `n` is the first one on the volume `k`. */
  predicate FirstClaim(ns: string, claims: seq<Claim>, k: ObjKey, n: nat)
    requires n < |claims|
  {
    ns == k.ns && claims[n].name == k.name && forall i :: 0 <= i < n ==> claims[i].name != k.name
  }

  /** What a volume holds after a pass, given what it was before. */
  ghost predicate Explained(ns: string, claims: seq<Claim>, owners: seq<Owner>, k: ObjKey, before: Option<Pvc>,
                            after: Pvc) {
    match before
    case Some(v) =>
      after.meta == v.meta
      || (after.meta == v.meta.(requests := after.meta.requests) && Asked(ns, claims, k, after.meta.requests))
    case None =>
      && Asked(ns, claims, k, after.meta.requests)
      && after.meta.owners == owners
      && exists n :: 0 <= n < |claims| && FirstClaim(ns, claims, k, n) && after.meta.rest == claims[n].rest
  }

  /**
   A pass, failed or not, leaves the requests of every volume as they were or exactly as some claim
   on it has them, and changes nothing else. A new volume has the given owners and everything else
   from the first claim on it.
   */
  lemma {:induction false} PassIsExplained(db: PvcDb, ns: string, claims: seq<Claim>, owners: seq<Owner>,
                                           weather: seq<Weather>)
    requires |weather| == |claims|
    ensures var r := Pass(db, ns, claims, owners, weather);
      forall k :: k in r.db.objects ==> Explained(ns, claims, owners, k, Lookup(db, k), r.db.objects[k])
    decreases |claims|
  {
    if claims == [] {
    } else {
      var key := ObjKey(ns, claims[0].name);
      var mid := Iterate(db, key, Lookup(db, key), claims[0], owners, weather[0]);
      if mid.err.None? {
        PassIsExplained(mid.db, ns, claims[1..], owners, weather[1..]);
        var r := Pass(db, ns, claims, owners, weather);
        forall k | k in r.db.objects
          ensures Explained(ns, claims, owners, k, Lookup(db, k), r.db.objects[k])
        {
          IterationExplains(db, ns, claims, owners, weather[0], k, r.db.objects[k]);
        }
      }
    }
  }

  lemma AskedByMore(ns: string, claims: seq<Claim>, k: ObjKey, requests: map<string, int>)
    requires claims != [] && Asked(ns, claims[1..], k, requests)
    ensures Asked(ns, claims, k, requests)
  {
    var c :| c in claims[1..] && c.name == k.name && c.requests == requests;
    assert c in claims;
  }

  lemma IterationExplains(db: PvcDb, ns: string, claims: seq<Claim>, owners: seq<Owner>, w: Weather, k: ObjKey,
                          after: Pvc)
    requires claims != []
    requires var key := ObjKey(ns, claims[0].name);
      var mid := Iterate(db, key, Lookup(db, key), claims[0], owners, w);
      mid.err.None? && Explained(ns, claims[1..], owners, k, Lookup(mid.db, k), after)
    ensures Explained(ns, claims, owners, k, Lookup(db, k), after)
  {
    var key := ObjKey(ns, claims[0].name);
    var mid := Iterate(db, key, Lookup(db, key), claims[0], owners, w);
    assert claims[0] in claims;
    if Asked(ns, claims[1..], k, after.meta.requests) {
      AskedByMore(ns, claims, k, after.meta.requests);
    }
    if k == key {
      assert FirstClaim(ns, claims, k, 0);
      assert k in mid.db.objects;
    } else {
      assert Lookup(mid.db, k) == Lookup(db, k);
      if Lookup(db, k).None? {
        var n :| 0 <= n < |claims[1..]| && FirstClaim(ns, claims[1..], k, n) && after.meta.rest == claims[1..][n].rest;
        assert forall i :: 0 < i < |claims| ==> claims[i] == claims[1..][i - 1];
        assert FirstClaim(ns, claims, k, n + 1);
      }
    }
  }

  /** An error leaves exactly what the claims in front of the failing one leave. */
  lemma {:induction false} ErrorLeavesPrefix(db: PvcDb, ns: string, claims: seq<Claim>, owners: seq<Owner>,
                                             weather: seq<Weather>)
    returns (n: nat)
    requires |weather| == |claims|
    requires Pass(db, ns, claims, owners, weather).err.Some?
    ensures n < |claims|
    ensures Pass(db, ns, claims[..n], owners, weather[..n]) == Outcome(Pass(db, ns, claims, owners, weather).db, None)
    decreases |claims|
  {
    var k := ObjKey(ns, claims[0].name);
    var r := Iterate(db, k, Lookup(db, k), claims[0], owners, weather[0]);
    FreshIteration(db, k, claims[0], owners, weather[0]);
    if r.err.Some? {
      n := 0;
    } else {
      var m := ErrorLeavesPrefix(r.db, ns, claims[1..], owners, weather[1..]);
      n := m + 1;
      assert claims[..n][1..] == claims[1..][..m] && weather[..n][1..] == weather[1..][..m];
    }
  }

  /** Every claim is met already. */
  ghost predicate Met(db: PvcDb, ns: string, claims: seq<Claim>) {
    forall c :: c in claims ==>
      SizeOf(db, ObjKey(ns, c.name)).Some? && Storage(c.requests) <= SizeOf(db, ObjKey(ns, c.name)).value
  }

  lemma {:induction false} MetMeansNoWrite(db: PvcDb, ns: string, claims: seq<Claim>, owners: seq<Owner>,
                                           weather: seq<Weather>)
    requires |weather| == |claims| && Met(db, ns, claims)
    ensures Pass(db, ns, claims, owners, weather).db == db
    decreases |claims|
  {
    if claims == [] {
    } else {
      assert claims[0] in claims;
      MetMeansNoWrite(db, ns, claims[1..], owners, weather[1..]);
    }
  }

  /** After a successful pass, a second one writes nothing, whatever fails during it. */
  lemma SecondPassWritesNothing(db: PvcDb, ns: string, claims: seq<Claim>, owners: seq<Owner>, weather: seq<Weather>,
                                owners': seq<Owner>, weather': seq<Weather>)
    requires |weather| == |weather'| == |claims|
    requires Pass(db, ns, claims, owners, weather).err.None?
    ensures var db' := Pass(db, ns, claims, owners, weather).db;
      Pass(db', ns, claims, owners', weather').db == db'
  {
    var db' := Pass(db, ns, claims, owners, weather).db;
    PassReachesMaximum(db, ns, claims, owners, weather);
    forall c | c in claims
      ensures SizeOf(db', ObjKey(ns, c.name)).Some? && Storage(c.requests) <= SizeOf(db', ObjKey(ns, c.name)).value
    {
      LargestIsMaximum(SizeOf(db, ObjKey(ns, c.name)), claims, c.name);
    }
    MetMeansNoWrite(db', ns, claims, owners', weather');
  }

  /** The volume is missing, or the claim asks for more than it requests. */
  predicate NeedsWrite(db: PvcDb, k: ObjKey, claim: Claim) {
    k !in db.objects ||
    var requests := db.objects[k].meta.requests;
    (if "storage" in requests then requests["storage"] else 0) <
    (if "storage" in claim.requests then claim.requests["storage"] else 0)
  }

  /** With a fresh cache, an iteration fails exactly when the cache does, or a write is needed and does not arrive. */
  lemma IterationFailsIff(db: PvcDb, k: ObjKey, claim: Claim, owners: seq<Owner>, w: Weather)
    ensures var r := Iterate(db, k, Lookup(db, k), claim, owners, w);
      && (r.err != None <==> !w.cacheUp || (NeedsWrite(db, k, claim) && !w.apiUp))
      && (r.err != None ==> r.err == Some(Unavailable) && r.db == db)
      && (r.err == None && !NeedsWrite(db, k, claim) ==> r.db == db)
  {
  }

  /** When nothing fails, the pass succeeds. */
  lemma {:induction false} FairPassSucceeds(db: PvcDb, ns: string, claims: seq<Claim>, owners: seq<Owner>,
                                            weather: seq<Weather>)
    requires |weather| == |claims| && forall w :: w in weather ==> w.cacheUp && w.apiUp
    ensures Pass(db, ns, claims, owners, weather).err == None
    decreases |claims|
  {
    if claims == [] {
    } else {
      var k := ObjKey(ns, claims[0].name);
      assert weather[0] in weather;
      IterationFailsIff(db, k, claims[0], owners, weather[0]);
      FairPassSucceeds(Iterate(db, k, Lookup(db, k), claims[0], owners, weather[0]).db, ns, claims[1..], owners,
                       weather[1..]);
    }
  }

  // ----- Any number of passes on stale caches, interleaved with users -----

  datatype State = State(db: PvcDb, seen: set<(ObjKey, Pvc)>)

  /** Every write of every pass is one Reconcile step; `cached` is None when the cache has not seen the object. */
  datatype Step =
    | Reconcile(k: ObjKey, cached: Option<Pvc>, claim: Claim, owners: seq<Owner>, w: Weather)
    | UserCreate(k: ObjKey, meta: PvcMeta)
    | UserEdit(k: ObjKey, meta: PvcMeta)
    | UserDelete(k: ObjKey)

  predicate Enabled(s: State, step: Step) {
    match step
    case Reconcile(k, cached, _, _, _) => cached.Some? ==> (k, cached.value) in s.seen
    case UserEdit(k, _) => k in s.db.objects
    case _ => true
  }

  function Apply(s: State, step: Step): State
    requires Enabled(s, step)
  {
    var db' :=
      match step
      case Reconcile(k, cached, claim, owners, w) => Iterate(s.db, k, cached, claim, owners, w).db
      case UserCreate(k, meta) => Create(s.db, k, meta, (), true).db
      case UserEdit(k, meta) => Update(s.db, k, s.db.objects[k].(meta := meta), true).db
      case UserDelete(k) => Delete(s.db, k);
    State(db', Observe(db', s.seen))
  }

  ghost predicate Legal(s: State, steps: seq<Step>)
    decreases |steps|
  {
    steps == [] || (Enabled(s, steps[0]) && Legal(Apply(s, steps[0]), steps[1..]))
  }

  /** No reconcile step of the run lowers a storage request or removes a volume. */
  ghost predicate ReconcileOnlyGrows(s: State, steps: seq<Step>)
    requires Legal(s, steps)
    decreases |steps|
  {
    steps != [] ==>
      && (steps[0].Reconcile? ==> OnlyGrown(s.db, Apply(s, steps[0]).db))
      && ReconcileOnlyGrows(Apply(s, steps[0]), steps[1..])
  }

  /** Users may do anything at any time, and a loop may work on every snapshot. */
  lemma NothingIsRuledOut(s: State, k: ObjKey, meta: PvcMeta, claim: Claim, owners: seq<Owner>, w: Weather)
    ensures Enabled(s, UserCreate(k, meta)) && Enabled(s, UserDelete(k))
    ensures k in s.db.objects <==> Enabled(s, UserEdit(k, meta))
    ensures Enabled(s, Reconcile(k, None, claim, owners, w))
    ensures forall pvc :: (k, pvc) in s.seen ==> Enabled(s, Reconcile(k, Some(pvc), claim, owners, w))
    ensures k !in s.db.objects ==>
      k in Apply(s, UserCreate(k, meta)).db.objects && Apply(s, UserCreate(k, meta)).db.objects[k].meta == meta
    ensures k in s.db.objects ==>
      k in Apply(s, UserEdit(k, meta)).db.objects && Apply(s, UserEdit(k, meta)).db.objects[k].meta == meta
    ensures k !in Apply(s, UserDelete(k)).db.objects
    ensures s.seen <= Apply(s, UserDelete(k)).seen
  {
  }

  lemma StepKeepsConsistent(s: State, step: Step)
    requires Enabled(s, step) && Consistent(s.db, s.seen)
    ensures Consistent(Apply(s, step).db, Apply(s, step).seen)
  {
    match step {
      case Reconcile(k, cached, claim, owners, w) =>
        WritesEvolve(s.db, k, Object(0, 0, PvcMeta(owners, claim.requests, claim.rest), ()), w.apiUp);
        if cached.Some? {
          WritesEvolve(s.db, k, cached.value.(meta := cached.value.meta.(requests := claim.requests)), w.apiUp);
        }
      case UserCreate(k, meta) =>
        WritesEvolve(s.db, k, Object(0, 0, meta, ()), true);
      case UserEdit(k, meta) =>
        WritesEvolve(s.db, k, s.db.objects[k].(meta := meta), true);
      case UserDelete(k) =>
    }
    EvolvesKeepsConsistent(s.db, s.seen, Apply(s, step).db, step.k);
  }

  lemma StaleIterationOnlyGrows(db: PvcDb, seen: set<(ObjKey, Pvc)>, k: ObjKey, cached: Option<Pvc>, claim: Claim,
                                owners: seq<Owner>, w: Weather)
    requires Consistent(db, seen) && (cached.Some? ==> (k, cached.value) in seen)
    ensures OnlyGrown(db, Iterate(db, k, cached, claim, owners, w).db)
  {
    if cached.Some? && Accepts(db, k, cached.value, w.apiUp) {
      AcceptedCopyIsCurrent(db, seen, k, cached.value, w.apiUp);
    }
  }

  lemma {:induction false} ReconcileNeverShrinks(s: State, steps: seq<Step>)
    requires Consistent(s.db, s.seen) && Legal(s, steps)
    ensures ReconcileOnlyGrows(s, steps)
    decreases |steps|
  {
    if steps == [] {
    } else {
      StepKeepsConsistent(s, steps[0]);
      if steps[0].Reconcile? {
        StaleIterationOnlyGrows(s.db, s.seen, steps[0].k, steps[0].cached, steps[0].claim, steps[0].owners, steps[0].w);
      }
      ReconcileNeverShrinks(Apply(s, steps[0]), steps[1..]);
    }
  }
}
