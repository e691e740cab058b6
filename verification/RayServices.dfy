/** The MLService controller: create the RayService, or bring an existing one up to date. */
module RayServices {
  import opened Wrappers
  import opened ApiStore
  import opened Conditions
  import opened ConditionRecords
  import opened AcceleratorLists
  import opened WorkerGroups

  /** The head group has one container; `headRest` stands for everything but its image. */
  datatype RaySpec = RaySpec(headImage: string, headRest: string, groups: seq<Group>, rest: string)

  type RayService = Object<RaySpec, ()>
  type RayDb = Db<RaySpec, ()>

  datatype MLService = MLService(
    image: string,
    groups: seq<GroupConfig>,
    hf: Option<HFSecretRef>,
    headRest: string,
    rest: string)

  /** getRayClusterImage: the image of the service, or the one from the settings. */
  function ImageOf(svc: MLService, defaultImage: string): string {
    if svc.image != "" then svc.image else defaultImage
  }

  function CreateGroups(cfgs: seq<GroupConfig>, image: string, hf: Option<HFSecretRef>, order: Order): seq<Group> {
    seq(|cfgs|, i requires 0 <= i < |cfgs| => CreateGroup(cfgs[i], image, hf, order))
  }

  function CreateSpec(svc: MLService, defaultImage: string, order: Order): RaySpec {
    var image := ImageOf(svc, defaultImage);
    RaySpec(image, svc.headRest, CreateGroups(svc.groups, image, svc.hf, order), svc.rest)
  }

  /** The update path indexes the first worker group and the first container of each. */
  predicate HasFirstContainer(spec: RaySpec) {
    spec.groups != [] && spec.groups[0].containers != []
  }

  /** SetRayClusterImage: only the head and the first worker group get the image. */
  function WithImage(spec: RaySpec, image: string): RaySpec
    requires HasFirstContainer(spec)
  {
    var g := spec.groups[0];
    spec.(headImage := image,
          groups := spec.groups[0 := g.(containers := g.containers[0 := g.containers[0].(image := image)])])
  }

  function UpdateSpec(spec: RaySpec, svc: MLService, defaultImage: string, order: Order): (spec': RaySpec)
    requires HasFirstContainer(spec)
    ensures HasFirstContainer(spec')
  {
    UpdateKeepsFirst(WithImage(spec, ImageOf(svc, defaultImage)), svc, order);
    var spec' := WithImage(spec, ImageOf(svc, defaultImage));
    spec'.(groups := UpdateGroups(spec'.groups, svc.groups, svc.hf, order))
  }

  /** Groups keep their containers, and containers their image. */
  lemma UpdateKeepsFirst(spec: RaySpec, svc: MLService, order: Order)
    requires HasFirstContainer(spec)
    ensures var groups := UpdateGroups(spec.groups, svc.groups, svc.hf, order);
      groups != [] && groups[0].containers != [] &&
      groups[0].containers[0].image == spec.groups[0].containers[0].image
  {
    UpdateIsOverlay(spec.groups, svc.groups, svc.hf, order);
  }

  // ----- What the specs hold -----

  /** The image of the service if it names one, else the default. */
  predicate IsImageFor(svc: MLService, defaultImage: string, image: string) {
    if svc.image == "" then image == defaultImage else image == svc.image
  }

  /** A created spec has one group for each configuration, in their order, and the image everywhere. */
  lemma CreatedSpecHolds(svc: MLService, defaultImage: string, order: Order)
    ensures var spec := CreateSpec(svc, defaultImage, order);
      && IsImageFor(svc, defaultImage, spec.headImage)
      && spec.headRest == svc.headRest && spec.rest == svc.rest
      && |spec.groups| == |svc.groups|
      && forall i :: 0 <= i < |svc.groups| ==>
           && spec.groups[i] == CreateGroup(svc.groups[i], spec.headImage, svc.hf, order)
           && |spec.groups[i].containers| == 1 && spec.groups[i].containers[0].image == spec.headImage
  {
  }

  /** An update brings the image to head and first group only, and leaves the rest of the spec alone. */
  lemma UpdatedSpecHolds(spec: RaySpec, svc: MLService, defaultImage: string, order: Order, i: nat)
    requires HasFirstContainer(spec) && i < |spec.groups| && spec.groups[i].containers != []
    ensures var spec' := UpdateSpec(spec, svc, defaultImage, order);
      && IsImageFor(svc, defaultImage, spec'.headImage)
      && spec'.headRest == spec.headRest && spec'.rest == spec.rest
      && |spec'.groups| == |spec.groups| && spec'.groups[i].containers != []
      && spec'.groups[i].containers[0].image ==
         if i == 0 then spec'.headImage else spec.groups[i].containers[0].image
  {
    var groups := WithImage(spec, ImageOf(svc, defaultImage)).groups;
    UpdateIsOverlay(groups, svc.groups, svc.hf, order);
    assert groups[i].containers != [];
  }

  lemma SameImageChangesNothing(spec: RaySpec, image: string)
    requires HasFirstContainer(spec)
    ensures WithImage(spec, image) == spec <==> spec.headImage == image && spec.groups[0].containers[0].image == image
  {
    var g := spec.groups[0];
    var g' := WithImage(spec, image).groups[0];
    if spec.groups[0].containers[0].image == image {
      assert g'.containers == g.containers;
      assert WithImage(spec, image).groups == spec.groups;
    }
  }

  method GetRayClusterSpecConfig(svc: MLService, defaultImage: string, order: Order) returns (spec: RaySpec)
    ensures spec == CreateSpec(svc, defaultImage, order)
  {
    var image := ImageOf(svc, defaultImage);
    var groups := [];
    for i := 0 to |svc.groups|
      invariant groups == CreateGroups(svc.groups[..i], image, svc.hf, order)
    {
      groups := groups + [CreateGroup(svc.groups[i], image, svc.hf, order)];
    }
    assert svc.groups[..|svc.groups|] == svc.groups;
    return RaySpec(image, svc.headRest, groups, svc.rest);
  }

  /** The update path neither indexes an empty list nor follows a missing reference. */
  ghost predicate UpdatePathIsSafe(spec: RaySpec, svc: MLService) {
    HasFirstContainer(spec) && AllUpdatable(spec.groups, svc.groups, svc.hf)
  }

  lemma ImageKeepsUpdatable(spec: RaySpec, svc: MLService, image: string)
    requires UpdatePathIsSafe(spec, svc)
    ensures AllUpdatable(WithImage(spec, image).groups, svc.groups, svc.hf)
  {
    var groups := WithImage(spec, image).groups;
    assert forall i :: 0 <= i < |groups| ==> groups[i].name == spec.groups[i].name;
    forall n, i | 0 <= n < |svc.groups| && 0 <= i < |groups| && FirstNamed(groups, i)
        && groups[i].name == svc.groups[n].name
      ensures Updatable(groups[i], svc.groups[n], svc.hf)
    {
      assert UpdatableBy(spec.groups, svc.groups[n], svc.hf) && FirstNamed(spec.groups, i);
    }
  }

  method SetRayClusterConfig(spec: RaySpec, svc: MLService, defaultImage: string, order: Order) returns (spec': RaySpec)
    requires UpdatePathIsSafe(spec, svc)
    requires forall cfg :: cfg in svc.groups ==> RangesOver(order, cfg.acceleratorTypes)
    ensures spec' == UpdateSpec(spec, svc, defaultImage, order)
  {
    spec' := WithImage(spec, ImageOf(svc, defaultImage));
    ImageKeepsUpdatable(spec, svc, ImageOf(svc, defaultImage));
    var groups := new Group[|spec'.groups|](i requires 0 <= i < |spec'.groups| => spec'.groups[i]);
    assert groups[..] == spec'.groups;
    SetRayClusterWorkerGroupConfig(svc.groups, groups, svc.hf, order);
    spec' := spec'.(groups := groups[..]);
  }

  // ----- The controller -----

  /** What the lookups in front of the RayService part come to. */
  datatype Inputs =
    | Deleting
    | Unready(message: string)   // model version missing or unconfigured, config map or secret not synced, cache error
    | Ready

  datatype ServeError = StatusWriteFailed | UpdateFailed(e: ApiError)

  datatype Weather = Weather(createUp: bool, updateUp: bool, statusUp: bool)

  /** What OnChange does to the RayService, given what the cache holds for it. */
  function Serve(db: RayDb, k: ObjKey, cached: Option<RayService>, svc: MLService, defaultImage: string, order: Order,
                 w: Weather): Reply<RaySpec, ()>
    requires cached.Some? ==> HasFirstContainer(cached.value.meta)
  {
    match cached
    case None => Create(db, k, CreateSpec(svc, defaultImage, order), (), w.createUp)
    case Some(obj) =>
      var spec := UpdateSpec(obj.meta, svc, defaultImage, order);
      if spec == obj.meta then Reply(db, Success(obj)) else Update(db, k, obj.(meta := spec), w.updateUp)
  }

  class MLServiceHandler {
    var rayServices: RayDb
    var created: Created

    constructor (rayServices: RayDb, created: Created)
      ensures this.rayServices == rayServices && this.created == created
    {
      this.rayServices, this.created := rayServices, created;
    }

    method UpdateCondition(isTrue: bool, message: string, up: bool) returns (ok: bool)
      modifies this`created
      ensures ok == !SetCreatedFails(old(created), isTrue, message, up)
      ensures created == SetCreated(old(created), isTrue, message, up)
    {
      var copy := created.copy;
      if isTrue {
        if copy.status == Yes {
          return true;
        }
        copy := copy.(status := Yes);
      } else {
        if copy.status == No && copy.message == message {
          return true;
        }
        copy := copy.(status := No);
        copy := copy.(message := message);
      }
      created := created.(copy := copy);
      if !up {
        return false;
      }
      created := created.(stored := copy);
      return true;
    }

    /**
     Reasons for not serving are recorded in the condition; the error itself is dropped once the
     condition is written, so only failed status writes and failed updates are reported.
     */
    method OnChange(k: ObjKey, svc: MLService, inputs: Inputs, cached: Option<RayService>, createMessage: string,
                    defaultImage: string, order: Order, w: Weather) returns (err: Option<ServeError>)
      requires forall cfg :: cfg in svc.groups ==> RangesOver(order, cfg.acceleratorTypes)
      requires cached.Some? ==> UpdatePathIsSafe(cached.value.meta, svc)
      modifies this
      ensures !inputs.Ready? ==> rayServices == old(rayServices)
      ensures inputs.Ready? ==> rayServices == Serve(old(rayServices), k, cached, svc, defaultImage, order, w).db
      ensures created == match Recorded(inputs, old(rayServices), k, cached, svc, createMessage, defaultImage, order, w)
                         case None => old(created)
                         case Some((isTrue, message)) => SetCreated(old(created), isTrue, message, w.statusUp)
      ensures inputs.Ready? && cached.Some? ==>
        err == match Serve(old(rayServices), k, cached, svc, defaultImage, order, w).result
               case Success(_) => None
               case Failure(e) => Some(UpdateFailed(e))
      ensures !(inputs.Ready? && cached.Some?) ==>
        err == match Recorded(inputs, old(rayServices), k, cached, svc, createMessage, defaultImage, order, w)
               case None => None
               case Some((isTrue, message)) =>
                 if SetCreatedFails(old(created), isTrue, message, w.statusUp) then Some(StatusWriteFailed) else None
    {
      match inputs
      case Deleting =>
        return None;
      case Unready(message) =>
        var ok := UpdateCondition(false, message, w.statusUp);
        return if ok then None else Some(StatusWriteFailed);
      case Ready =>
        if cached.None? {
          var spec := GetRayClusterSpecConfig(svc, defaultImage, order);
          var reply := Create(rayServices, k, spec, (), w.createUp);
          rayServices := reply.db;
          var message := if reply.result.Success? then "" else createMessage;
          var ok := UpdateCondition(reply.result.Success?, message, w.statusUp);
          return if ok then None else Some(StatusWriteFailed);
        }
        var spec := SetRayClusterConfig(cached.value.meta, svc, defaultImage, order);
        if spec != cached.value.meta {
          var reply := Update(rayServices, k, cached.value.(meta := spec), w.updateUp);
          rayServices := reply.db;
          return if reply.result.Failure? then Some(UpdateFailed(reply.result.error)) else None;
        }
        return None;
    }
  }

  /** What OnChange has to record in the condition. */
  function Recorded(inputs: Inputs, db: RayDb, k: ObjKey, cached: Option<RayService>, svc: MLService,
                    createMessage: string, defaultImage: string, order: Order, w: Weather): Option<(bool, string)>
    requires cached.Some? ==> HasFirstContainer(cached.value.meta)
  {
    match inputs
    case Deleting => None
    case Unready(message) => Some((false, message))
    case Ready =>
      if cached.Some? then None
      else if Serve(db, k, cached, svc, defaultImage, order, w).result.Success? then Some((true, ""))
      else Some((false, createMessage))
  }

  /**
   With a fresh cache, what the server holds afterwards is a created spec or the updated one, and
   what it held before when the call fails. It fails exactly when a write is needed and does not arrive.
   */
  lemma ServeBringsUpToDate(db: RayDb, k: ObjKey, svc: MLService, defaultImage: string, order: Order, w: Weather)
    requires k in db.objects ==> HasFirstContainer(db.objects[k].meta)
    ensures var r := Serve(db, k, Lookup(db, k), svc, defaultImage, order, w);
      if k !in db.objects then
        if w.createUp then
          && r.result.Success? && k in r.db.objects
          && r.db.objects[k].meta == CreateSpec(svc, defaultImage, order)
        else
          r == Reply(db, Failure(Unavailable))
      else
        var spec := UpdateSpec(db.objects[k].meta, svc, defaultImage, order);
        if spec == db.objects[k].meta || w.updateUp then
          && r.result.Success? && k in r.db.objects
          && r.db.objects[k].meta == spec && r.db.objects[k].uid == db.objects[k].uid
        else
          r == Reply(db, Failure(Unavailable))
  {
  }

  /** From a stale cache, a needed update is a conflict and changes nothing; so is creating what exists. */
  lemma StaleServeChangesNothing(db: RayDb, k: ObjKey, cached: Option<RayService>, svc: MLService, defaultImage: string,
                                 order: Order, w: Weather)
    requires k in db.objects
    requires cached.Some? ==> HasFirstContainer(cached.value.meta) && cached.value.rv != db.objects[k].rv
    ensures var r := Serve(db, k, cached, svc, defaultImage, order, w);
      && r.db == db
      && (cached.None? && w.createUp ==> r.result == Failure(AlreadyExists))
      && (cached.Some? && w.updateUp && UpdateSpec(cached.value.meta, svc, defaultImage, order) != cached.value.meta ==>
            r.result == Failure(Conflict))
  {
  }

  /**
   What ends up on the object that was handed in: for a create, Yes exactly when there was no
   RayService and the server could be reached, and then there is one now; else No with the reason.
   */
  lemma RecordedMeans(inputs: Inputs, db: RayDb, k: ObjKey, cached: Option<RayService>, svc: MLService,
                      createMessage: string, defaultImage: string, order: Order, w: Weather, c: Created)
    requires cached.Some? ==> HasFirstContainer(cached.value.meta)
    ensures var recorded := Recorded(inputs, db, k, cached, svc, createMessage, defaultImage, order, w);
      match recorded
      case None => inputs.Deleting? || (inputs.Ready? && cached.Some?)
      case Some((isTrue, message)) =>
        var copy := SetCreated(c, isTrue, message, w.statusUp).copy;
        match inputs
        case Deleting => false
        case Unready(reason) => copy.status == No && copy.message == reason
        case Ready =>
          && cached.None?
          && (copy.status == Yes <==> w.createUp && k !in db.objects)
          && (copy.status == Yes ==> k in Serve(db, k, cached, svc, defaultImage, order, w).db.objects)
          && (copy.status != Yes ==> copy.status == No && copy.message == createMessage)
  {
  }

  // ----- Creating and updating agree -----

  /**
   Whether the update path can work on a freshly created spec: without a worker group, the next
   reconcile indexes an empty list.
   */
  lemma CreatedIsUpdatableIff(svc: MLService, image: string, order: Order)
    ensures var spec := CreateSpec(svc, image, order);
      UpdatePathIsSafe(spec, svc) <==> svc.groups != []
  {
    var spec := CreateSpec(svc, image, order);
    assert svc.groups == [] ==> spec.groups == [];
  }

  /** The overlay asks for nothing that a group created from `cfg` does not have. */
  predicate Agrees(o: Overlay, cfg: GroupConfig, order: Order) {
    && o.replicas == cfg.replicas && o.minReplicas == cfg.minReplicas && o.maxReplicas == cfg.maxReplicas
    && o.runtimeClass == cfg.runtimeClass && o.nodeSelector == cfg.nodeSelector && o.tolerations == cfg.tolerations
    && (o.resources.Some? ==> o.resources.value == if cfg.resources.Some? then cfg.resources.value else "")
    && forall k :: k in o.params ==> k in CreatedParams(cfg, order) && CreatedParams(cfg, order)[k] == o.params[k]
  }

  lemma LayOnCreatedIff(o: Overlay, cfg: GroupConfig, image: string, hf: Option<HFSecretRef>, order: Order)
    ensures var g := CreateGroup(cfg, image, hf, order);
      Lay(o, g, hf) == g <==> Agrees(o, cfg, order)
  {
    var g := CreateGroup(cfg, image, hf, order);
    var c, params := g.containers[0], CreatedParams(cfg, order);
    if hf.Some? {
      assert IsToken(c.env[1], hf.value.name) && c.env[1] in c.env;
    }
    assert AddToken(c.env, hf) == c.env;
    if Lay(o, g, hf) == g {
      assert Lay(o, g, hf).containers[0] == LayContainer(o, c, hf);
      assert forall k :: k in o.params ==> k in params + o.params && (params + o.params)[k] == o.params[k];
    }
    if Agrees(o, cfg, order) {
      assert params + o.params == params;
      assert LayContainer(o, c, hf) == c;
      assert g.containers[0 := c] == g.containers;
    }
  }

  /** No configuration before it has its name. */
  predicate FirstConfig(cfgs: seq<GroupConfig>, i: nat)
    requires i < |cfgs|
  {
    forall j :: 0 <= j < i ==> cfgs[j].name != cfgs[i].name
  }

  /**
   The configurations of one name, laid over each other with the map order of the update, ask for
   nothing the first of them did not get on creation.
   */
  predicate NameAgrees(cfgs: seq<GroupConfig>, i: nat, order: Order, order': Order)
    requires i < |cfgs|
  {
    match OverlayFor(cfgs, cfgs[i].name, order')
    case None => true
    case Some(o) => Agrees(o, cfgs[i], order)
  }

  predicate ConfigsAgree(cfgs: seq<GroupConfig>, order: Order, order': Order) {
    forall i :: 0 <= i < |cfgs| && FirstConfig(cfgs, i) ==> NameAgrees(cfgs, i, order, order')
  }

  lemma UpdateCreatedGroupsIff(cfgs: seq<GroupConfig>, image: string, hf: Option<HFSecretRef>, order: Order,
                               order': Order)
    ensures var groups := CreateGroups(cfgs, image, hf, order);
      UpdateGroups(groups, cfgs, hf, order') == groups <==> ConfigsAgree(cfgs, order, order')
  {
    var groups := CreateGroups(cfgs, image, hf, order);
    var r := UpdateGroups(groups, cfgs, hf, order');
    UpdateIsOverlay(groups, cfgs, hf, order');
    forall i | 0 <= i < |cfgs|
      ensures FirstNamed(groups, i) <==> FirstConfig(cfgs, i)
      ensures var o := OverlayFor(cfgs, cfgs[i].name, order');
        r[i] == groups[i] <==> (FirstNamed(groups, i) && o.Some? ==> Agrees(o.value, cfgs[i], order))
    {
      assert groups[i].name == cfgs[i].name && forall j :: 0 <= j < i ==> groups[j].name == cfgs[j].name;
      var o := OverlayFor(cfgs, cfgs[i].name, order');
      if o.Some? {
        LayOnCreatedIff(o.value, cfgs[i], image, hf, order);
      }
    }
    if ConfigsAgree(cfgs, order, order') {
      assert forall i :: 0 <= i < |cfgs| ==> r[i] == groups[i];
      assert r == groups;
    }
  }

  /**
   Reconciling a RayService right after its creation issues no update exactly when the image is
   still the same and the configurations of each name agree. Shared names are allowed.
   */
  lemma CreateThenUpdateIff(svc: MLService, image: string, image': string, order: Order, order': Order)
    requires svc.groups != []
    ensures var spec := CreateSpec(svc, image, order);
      HasFirstContainer(spec) &&
      (UpdateSpec(spec, svc, image', order') == spec <==>
         ImageOf(svc, image') == ImageOf(svc, image) && ConfigsAgree(svc.groups, order, order'))
  {
    var spec := CreateSpec(svc, image, order);
    if ImageOf(svc, image') == ImageOf(svc, image) {
      SameImageChangesNothing(spec, ImageOf(svc, image'));
      UpdateCreatedGroupsIff(svc.groups, ImageOf(svc, image), svc.hf, order, order');
    }
  }

  /** With distinct names and one order for both paths the configurations agree. */
  lemma DistinctConfigsAgree(cfgs: seq<GroupConfig>, order: Order)
    requires ConfigNamesDiffer(cfgs)
    ensures ConfigsAgree(cfgs, order, order)
  {
    forall i | 0 <= i < |cfgs|
      ensures OverlayFor(cfgs, cfgs[i].name, order) == Some(Desired(cfgs[i], order))
      ensures Agrees(Desired(cfgs[i], order), cfgs[i], order)
    {
      OverlayOfOne(cfgs, i, order);
    }
  }

  /** With distinct names, one map order and one default image, create and update agree. */
  lemma CreateThenUpdateChangesNothing(svc: MLService, image: string, order: Order)
    requires svc.groups != [] && ConfigNamesDiffer(svc.groups)
    ensures HasFirstContainer(CreateSpec(svc, image, order))
    ensures UpdateSpec(CreateSpec(svc, image, order), svc, image, order) == CreateSpec(svc, image, order)
  {
    DistinctConfigsAgree(svc.groups, order);
    CreateThenUpdateIff(svc, image, image, order, order);
  }

  // ----- Creating and updating agree under every map order -----

  /**
   The accelerators a group is created with, and those that decide its update, each stand for one
   type with one count.
   */
  predicate AllUniform(cfgs: seq<GroupConfig>) {
    forall i :: 0 <= i < |cfgs| && FirstConfig(cfgs, i) ==>
      Uniform(cfgs[i].acceleratorTypes) && Uniform(LastAccelerators(cfgs, cfgs[i].name))
  }

  lemma OrderKeepsCreated(cfg: GroupConfig, order: Order, order': Order)
    requires Uniform(cfg.acceleratorTypes) && LegalOrder(order) && LegalOrder(order')
    ensures CreatedParams(cfg, order) == CreatedParams(cfg, order')
  {
    OrdersPrintAlikeIff(cfg.acceleratorTypes);
  }

  lemma CreationPrintsAlike(cfgs: seq<GroupConfig>, i: nat, order: Order, order': Order, update: Order)
    requires i < |cfgs| && cfgs[i].acceleratorTypes != map[]
    requires NameAgrees(cfgs, i, order, update) && NameAgrees(cfgs, i, order', update)
    ensures Print(cfgs[i].acceleratorTypes, order) == Print(cfgs[i].acceleratorTypes, order')
  {
    OverlaySetsResources(cfgs, i, update);
    var o := OverlayFor(cfgs, cfgs[i].name, update).value;
    assert CreatedParams(cfgs[i], order)[RESOURCES] == o.params[RESOURCES] == CreatedParams(cfgs[i], order')[RESOURCES];
  }

  lemma UpdatePrintsAlike(cfgs: seq<GroupConfig>, i: nat, create: Order, order: Order, order': Order)
    requires i < |cfgs| && LastAccelerators(cfgs, cfgs[i].name) != map[]
    requires NameAgrees(cfgs, i, create, order) && NameAgrees(cfgs, i, create, order')
    ensures var types := LastAccelerators(cfgs, cfgs[i].name);
      Print(types, order) == Print(types, order')
  {
    OverlayUnderOrder(cfgs, cfgs[i].name, order, order);
    OverlayUnderOrder(cfgs, cfgs[i].name, order, order');
    var o, o' := OverlayFor(cfgs, cfgs[i].name, order).value, OverlayFor(cfgs, cfgs[i].name, order').value;
    assert RESOURCES in o.params && RESOURCES in o'.params;
    assert o.params[RESOURCES] == CreatedParams(cfgs[i], create)[RESOURCES] == o'.params[RESOURCES];
  }

  /** A mixed map of the created group lets some pair of orders disagree. */
  lemma AgreeingCreationIsUniform(cfgs: seq<GroupConfig>, i: nat)
    requires i < |cfgs|
    requires forall order, order' :: LegalOrder(order) && LegalOrder(order') ==> NameAgrees(cfgs, i, order, order')
    ensures Uniform(cfgs[i].acceleratorTypes)
  {
    var types := cfgs[i].acceleratorTypes;
    if !Uniform(types) {
      OrdersPrintAlikeIff(types);
      var order, order' :| LegalOrder(order) && LegalOrder(order') && Print(types, order) != Print(types, order');
      CreationPrintsAlike(cfgs, i, order, order', order);
    }
  }

  /** So does a mixed map that decides the update. */
  lemma AgreeingUpdateIsUniform(cfgs: seq<GroupConfig>, i: nat)
    requires i < |cfgs|
    requires forall order, order' :: LegalOrder(order) && LegalOrder(order') ==> NameAgrees(cfgs, i, order, order')
    ensures Uniform(LastAccelerators(cfgs, cfgs[i].name))
  {
    var types := LastAccelerators(cfgs, cfgs[i].name);
    if !Uniform(types) {
      OrdersPrintAlikeIff(types);
      var order, order' :| LegalOrder(order) && LegalOrder(order') && Print(types, order) != Print(types, order');
      UpdatePrintsAlike(cfgs, i, order, order, order');
    }
  }

  /** The configurations agree under all orders exactly when they do under any one and only uniform maps are printed. */
  lemma AgreeUnderEveryOrderIff(cfgs: seq<GroupConfig>, any: Order)
    requires LegalOrder(any)
    ensures (forall order, order' :: LegalOrder(order) && LegalOrder(order') ==> ConfigsAgree(cfgs, order, order'))
        <==> ConfigsAgree(cfgs, any, any) && AllUniform(cfgs)
  {
    if forall order, order' :: LegalOrder(order) && LegalOrder(order') ==> ConfigsAgree(cfgs, order, order') {
      forall i | 0 <= i < |cfgs| && FirstConfig(cfgs, i)
        ensures Uniform(cfgs[i].acceleratorTypes) && Uniform(LastAccelerators(cfgs, cfgs[i].name))
      {
        forall order, order' | LegalOrder(order) && LegalOrder(order')
          ensures NameAgrees(cfgs, i, order, order')
        {
          assert ConfigsAgree(cfgs, order, order');
        }
        AgreeingCreationIsUniform(cfgs, i);
        AgreeingUpdateIsUniform(cfgs, i);
      }
    }
    if ConfigsAgree(cfgs, any, any) && AllUniform(cfgs) {
      forall order, order' | LegalOrder(order) && LegalOrder(order')
        ensures ConfigsAgree(cfgs, order, order')
      {
        UniformConfigsAgree(cfgs, any, order, order');
      }
    }
  }

  lemma UniformConfigsAgree(cfgs: seq<GroupConfig>, any: Order, order: Order, order': Order)
    requires LegalOrder(any) && LegalOrder(order) && LegalOrder(order')
    requires ConfigsAgree(cfgs, any, any) && AllUniform(cfgs)
    ensures ConfigsAgree(cfgs, order, order')
  {
    forall i | 0 <= i < |cfgs| && FirstConfig(cfgs, i)
      ensures NameAgrees(cfgs, i, order, order')
    {
      assert NameAgrees(cfgs, i, any, any);
      UniformNameAgrees(cfgs, i, any, order, order');
    }
  }

  lemma UniformNameAgrees(cfgs: seq<GroupConfig>, i: nat, any: Order, order: Order, order': Order)
    requires LegalOrder(any) && LegalOrder(order) && LegalOrder(order') && i < |cfgs| && NameAgrees(cfgs, i, any, any)
    requires Uniform(cfgs[i].acceleratorTypes) && Uniform(LastAccelerators(cfgs, cfgs[i].name))
    ensures NameAgrees(cfgs, i, order, order')
  {
    UniformOverlaysAgree(cfgs, cfgs[i].name, any, order');
    OrderKeepsCreated(cfgs[i], any, order);
  }

  /** Reconciling right after creation issues no update. */
  ghost predicate QuietAfterCreation(svc: MLService, image: string, image': string, order: Order, order': Order) {
    var spec := CreateSpec(svc, image, order);
    HasFirstContainer(spec) && UpdateSpec(spec, svc, image', order') == spec
  }

  /**
   Whatever orders Go picks on creation and on update: that no update is issued can be relied on
   exactly when the image is the same, the configurations agree, and only uniform maps are printed.
   */
  lemma AlwaysQuietIff(svc: MLService, image: string, image': string, any: Order)
    requires svc.groups != [] && LegalOrder(any)
    ensures (forall order, order' :: LegalOrder(order) && LegalOrder(order') ==>
               QuietAfterCreation(svc, image, image', order, order'))
        <==> ImageOf(svc, image') == ImageOf(svc, image) && ConfigsAgree(svc.groups, any, any) && AllUniform(svc.groups)
  {
    AgreeUnderEveryOrderIff(svc.groups, any);
    forall order, order'
      ensures QuietAfterCreation(svc, image, image', order, order') <==>
        ImageOf(svc, image') == ImageOf(svc, image) && ConfigsAgree(svc.groups, order, order')
    {
      CreateThenUpdateIff(svc, image, image', order, order');
    }
    if forall order, order' :: LegalOrder(order) && LegalOrder(order') ==>
      QuietAfterCreation(svc, image, image', order, order') {
      assert QuietAfterCreation(svc, image, image', any, any);
    }
  }

  /** With distinct names, exactly when every group asks for one accelerator type with one count. */
  lemma DistinctAlwaysQuietIff(svc: MLService, image: string, any: Order)
    requires svc.groups != [] && ConfigNamesDiffer(svc.groups) && LegalOrder(any)
    ensures (forall order, order' :: LegalOrder(order) && LegalOrder(order') ==>
               QuietAfterCreation(svc, image, image, order, order'))
        <==> forall cfg :: cfg in svc.groups ==> Uniform(cfg.acceleratorTypes)
  {
    AlwaysQuietIff(svc, image, image, any);
    DistinctConfigsAgree(svc.groups, any);
    forall i | 0 <= i < |svc.groups|
      ensures FirstConfig(svc.groups, i)
      ensures LastAccelerators(svc.groups, svc.groups[i].name) == svc.groups[i].acceleratorTypes
    {
      LastOfOne(svc.groups, i);
    }
    if AllUniform(svc.groups) {
      forall cfg | cfg in svc.groups
        ensures Uniform(cfg.acceleratorTypes)
      {
        var i :| 0 <= i < |svc.groups| && svc.groups[i] == cfg;
      }
    }
  }

  lemma {:induction false} LastOfOne(cfgs: seq<GroupConfig>, n: nat)
    requires n < |cfgs| && ConfigNamesDiffer(cfgs)
    ensures LastAccelerators(cfgs, cfgs[n].name) == cfgs[n].acceleratorTypes
    decreases |cfgs|
  {
    var last := |cfgs| - 1;
    if n < last {
      LastOfOne(cfgs[..last], n);
    } else {
      NoAcceleratorsFor(cfgs[..last], cfgs[n].name);
    }
  }

  lemma {:induction false} NoAcceleratorsFor(cfgs: seq<GroupConfig>, name: string)
    requires forall i :: 0 <= i < |cfgs| ==> cfgs[i].name != name
    ensures LastAccelerators(cfgs, name) == map[]
  {
    if cfgs == [] {
    } else {
      NoAcceleratorsFor(cfgs[..|cfgs| - 1], name);
    }
  }

  /** Two products with different counts: some pair of map orders makes the first reconcile issue an update. */
  lemma TwoTypesMayUpdate(svc: MLService, image: string) returns (order: Order, order': Order)
    requires |svc.groups| == 1 && svc.groups[0].acceleratorTypes == map["T4" := 1, "V100" := 2]
    ensures LegalOrder(order) && LegalOrder(order')
    ensures !QuietAfterCreation(svc, image, image, order, order')
  {
    var types := svc.groups[0].acceleratorTypes;
    assert "T4" in types && "V100" in types && types["T4"] != types["V100"];
    assert svc.groups[0] in svc.groups && !Uniform(types);
    DistinctAlwaysQuietIff(svc, image, OrderWith(types, SomeKeys(types)));
    order, order' :| LegalOrder(order) && LegalOrder(order') && !QuietAfterCreation(svc, image, image, order, order');
  }

  /** Two groups with one name break this: the first one is overwritten with the second configuration. */
  lemma SharedNameIsOverwritten(svc: MLService, image: string, order: Order)
    requires |svc.groups| == 2 && svc.groups[0].name == svc.groups[1].name
    ensures HasFirstContainer(CreateSpec(svc, image, order))
    ensures var r := UpdateSpec(CreateSpec(svc, image, order), svc, image, order);
      |r.groups| == 2 && r.groups[0].replicas == svc.groups[1].replicas
  {
    var spec := WithImage(CreateSpec(svc, image, order), ImageOf(svc, image));
    var cfgs := svc.groups;
    assert cfgs[..1][..0] == [] && cfgs[..1][0] == cfgs[0];
    assert UpdateGroups(spec.groups, [], svc.hf, order) == spec.groups;
    UpdateFirstAt(spec.groups, cfgs[0], svc.hf, order, 0);
    var mid := UpdateGroups(spec.groups, cfgs[..1], svc.hf, order);
    assert mid == UpdateFirst(spec.groups, cfgs[0], svc.hf, order);
    UpdateFirstAt(mid, cfgs[1], svc.hf, order, 0);
    assert UpdateGroups(spec.groups, cfgs, svc.hf, order) == UpdateFirst(mid, cfgs[1], svc.hf, order);
  }

  // ----- Reconciling converges -----

  lemma UpdateKeepsImage(spec: RaySpec, svc: MLService, image: string, order: Order)
    requires HasFirstContainer(spec)
    ensures var spec' := UpdateSpec(spec, svc, image, order);
      spec'.headImage == ImageOf(svc, image) && spec'.groups[0].containers[0].image == ImageOf(svc, image)
  {
    UpdateKeepsFirst(WithImage(spec, ImageOf(svc, image)), svc, order);
  }

  /** Updating any spec a second time changes nothing, whatever the names. */
  lemma UpdateIsStable(spec: RaySpec, svc: MLService, image: string, order: Order)
    requires HasFirstContainer(spec)
    ensures var spec' := UpdateSpec(spec, svc, image, order);
      UpdateSpec(spec', svc, image, order) == spec'
  {
    LaterSpecDecides(spec, svc, image, order, order);
  }

  /** After an update with one order, an update with another changes nothing. */
  ghost predicate QuietAfterUpdate(spec: RaySpec, svc: MLService, image: string, order: Order, order': Order)
    requires HasFirstContainer(spec)
  {
    var spec' := UpdateSpec(spec, svc, image, order);
    UpdateSpec(spec', svc, image, order') == spec'
  }

  lemma QuietAfterUpdateIff(spec: RaySpec, svc: MLService, image: string, order: Order, order': Order)
    requires HasFirstContainer(spec)
    ensures var groups := WithImage(spec, ImageOf(svc, image)).groups;
      QuietAfterUpdate(spec, svc, image, order, order') <==>
      UpdateGroups(groups, svc.groups, svc.hf, order) == UpdateGroups(groups, svc.groups, svc.hf, order')
  {
    LaterSpecDecides(spec, svc, image, order, order');
  }

  /**
   Later reconciles change nothing, whatever orders Go picks, exactly when it does not matter for any
   group they reach.
   */
  lemma SettlesUnderEveryOrderIff(spec: RaySpec, svc: MLService, image: string)
    requires HasFirstContainer(spec)
    ensures (forall order, order' :: LegalOrder(order) && LegalOrder(order') ==>
      QuietAfterUpdate(spec, svc, image, order, order'))
        <==> OrderIsIrrelevant(spec.groups, svc.groups)
  {
    var groups := WithImage(spec, ImageOf(svc, image)).groups;
    NamesDecideOrder(spec.groups, groups, svc.groups);
    if OrderIsIrrelevant(spec.groups, svc.groups) {
      forall order, order' | LegalOrder(order) && LegalOrder(order')
        ensures QuietAfterUpdate(spec, svc, image, order, order')
      {
        UniformUpdatesAlike(groups, svc.groups, svc.hf, order, order');
        QuietAfterUpdateIff(spec, svc, image, order, order');
      }
    } else {
      var i :| 0 <= i < |groups| && FirstNamed(groups, i) && !Uniform(LastAccelerators(svc.groups, groups[i].name));
      var order, order' := MixedUpdatesDifferently(groups, svc.groups, svc.hf, i);
      QuietAfterUpdateIff(spec, svc, image, order, order');
    }
  }

  lemma NamesDecideOrder(groups: seq<Group>, groups': seq<Group>, cfgs: seq<GroupConfig>)
    requires |groups| == |groups'| && forall i :: 0 <= i < |groups| ==> groups[i].name == groups'[i].name
    ensures OrderIsIrrelevant(groups, cfgs) <==> OrderIsIrrelevant(groups', cfgs)
  {
    assert forall i :: 0 <= i < |groups| ==> (FirstNamed(groups, i) <==> FirstNamed(groups', i));
  }

  lemma LaterSpecDecides(spec: RaySpec, svc: MLService, image: string, order: Order, order': Order)
    requires HasFirstContainer(spec)
    ensures UpdateSpec(UpdateSpec(spec, svc, image, order), svc, image, order') == UpdateSpec(spec, svc, image, order')
  {
    var spec' := UpdateSpec(spec, svc, image, order);
    UpdateKeepsImage(spec, svc, image, order);
    SameImageChangesNothing(spec', ImageOf(svc, image));
    LaterUpdateDecides(WithImage(spec, ImageOf(svc, image)).groups, svc.groups, svc.hf, order, order');
  }

  /** Nothing is left to write for this service, whatever fails. */
  ghost predicate Quiet(db: RayDb, k: ObjKey, svc: MLService, image: string, order: Order) {
    && k in db.objects && HasFirstContainer(db.objects[k].meta)
    && forall w :: Serve(db, k, Lookup(db, k), svc, image, order, w).db == db
  }

  /** One reconcile that reaches the server is enough, unless it creates a RayService with shared names. */
  lemma SecondReconcileWritesNothing(db: RayDb, k: ObjKey, svc: MLService, image: string, order: Order, w: Weather)
    requires svc.groups != []
    requires if k in db.objects then HasFirstContainer(db.objects[k].meta) else ConfigsAgree(svc.groups, order, order)
    requires Serve(db, k, Lookup(db, k), svc, image, order, w).result.Success?
    ensures Quiet(Serve(db, k, Lookup(db, k), svc, image, order, w).db, k, svc, image, order)
  {
    if k in db.objects {
      UpdateIsStable(db.objects[k].meta, svc, image, order);
    } else {
      CreateThenUpdateIff(svc, image, image, order, order);
    }
  }

  /** Two reconciles that reach the server are enough in every case. */
  lemma ThirdReconcileWritesNothing(db: RayDb, k: ObjKey, svc: MLService, image: string, order: Order, w1: Weather,
                                    w2: Weather)
    requires svc.groups != []
    requires k in db.objects ==> HasFirstContainer(db.objects[k].meta)
    requires Serve(db, k, Lookup(db, k), svc, image, order, w1).result.Success?
    ensures var db1 := Serve(db, k, Lookup(db, k), svc, image, order, w1).db;
      && k in db1.objects && HasFirstContainer(db1.objects[k].meta)
      && (Serve(db1, k, Lookup(db1, k), svc, image, order, w2).result.Success? ==>
            Quiet(Serve(db1, k, Lookup(db1, k), svc, image, order, w2).db, k, svc, image, order))
  {
    var db1 := Serve(db, k, Lookup(db, k), svc, image, order, w1).db;
    if k in db.objects {
      UpdateIsStable(db.objects[k].meta, svc, image, order);
    }
    if Serve(db1, k, Lookup(db1, k), svc, image, order, w2).result.Success? {
      SecondReconcileWritesNothing(db1, k, svc, image, order, w2);
    }
  }
}
