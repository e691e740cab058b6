/** ModelTemplate and ModelTemplateVersion objects, and the values their handlers compute. */
module ModelVersions {
  import opened Wrappers
  import opened ApiStore
  import opened Conditions
  import Refs

  const TEMPLATE_LABEL := "ml.oneblock.ai/modelTemplate"

  datatype VersionMeta = VersionMeta(
    templateName: string,
    modelSpec: string,
    created: int,
    deleting: bool,
    labels: map<string, string>,
    owners: seq<Owner>)

  datatype VersionStatus = VersionStatus(
    assignedCond: Condition,
    configuredCond: Condition,
    config: string,
    version: int)

  /** The server drops the status of a new object. */
  const NEW_STATUS := VersionStatus(ABSENT, ABSENT, "", 0)

  type Version = Object<VersionMeta, VersionStatus>
  type VersionDb = Db<VersionMeta, VersionStatus>
  type Item = (ObjKey, Version)

  predicate Assigned(v: Version) {
    v.status.assignedCond.status == Yes
  }

  predicate Configured(v: Version) {
    v.status.configuredCond.status == Yes
  }

  /** The counter key of the template a version belongs to. */
  function TemplateRef(k: ObjKey, v: Version): string {
    Refs.NewRef(k.ns, v.meta.templateName)
  }

  /** Both handlers add the template label, and an owner when there is none yet. */
  function LabelAndOwn(m: VersionMeta, owner: Owner): VersionMeta {
    m.(labels := m.labels[TEMPLATE_LABEL := m.templateName],
       owners := if m.owners == [] then [owner] else m.owners)
  }

  function WithNumber(v: Version, n: int): Version {
    v.(status := v.status.(version := n, assignedCond := SetTrue(v.status.assignedCond)))
  }

  /** AssignVersion looks at this version at all. */
  predicate NeedsNumber(v: Version) {
    !v.meta.deleting && !Assigned(v)
  }

  /** TemplateVersionHandler.OnChange on a (possibly stale) copy: at most one metadata write. */
  function OnChangeWrite(db: VersionDb, k: ObjKey, copy: Version, owner: Owner, up: bool): VersionDb {
    var meta' := LabelAndOwn(copy.meta, owner);
    if copy.meta.deleting || meta' == copy.meta then db else Update(db, k, copy.(meta := meta'), up).db
  }

  /** The status ConfigModelDeployment writes; `generated` is the outcome of building the model config. */
  function ConfiguredStatus(st: VersionStatus, generated: Result<string, string>): VersionStatus {
    match generated
    case Success(config) => st.(config := config, configuredCond := SetError(None))
    case Failure(message) => st.(configuredCond := SetError(Some(message)))
  }

  /** TemplateVersionHandler.ConfigModelDeployment on a (possibly stale) copy: at most one status write. */
  function ConfigureWrite(db: VersionDb, k: ObjKey, copy: Version, generated: Result<string, string>,
                          up: bool): VersionDb {
    var status' := ConfiguredStatus(copy.status, generated);
    if copy.meta.deleting || Configured(copy) || status' == copy.status then db
    else UpdateStatus(db, k, copy.(status := status'), up).db
  }

  // ----- What the writes change -----

  /** The template label is set, other labels stay; an owner is added only to a version without one. */
  lemma LabelAndOwnMeans(m: VersionMeta, owner: Owner)
    ensures var m' := LabelAndOwn(m, owner);
      && m' == m.(labels := m'.labels, owners := m'.owners)
      && "ml.oneblock.ai/modelTemplate" in m'.labels && m'.labels["ml.oneblock.ai/modelTemplate"] == m.templateName
      && (forall x :: x != "ml.oneblock.ai/modelTemplate" ==>
            if x in m.labels then x in m'.labels && m'.labels[x] == m.labels[x] else x !in m'.labels)
      && (if m.owners != [] then m'.owners == m.owners else m'.owners == [owner])
  {
  }

  lemma WithNumberMeans(v: Version, n: int)
    ensures var v' := WithNumber(v, n);
      && v'.uid == v.uid && v'.rv == v.rv && v'.meta == v.meta
      && v'.status.version == n && v'.status.assignedCond.status == Yes
      && v'.status.config == v.status.config && v'.status.configuredCond == v.status.configuredCond
  {
  }

  /** A generated config is stored and marked as such; a failure is recorded with its message. */
  lemma ConfiguredStatusMeans(st: VersionStatus, generated: Result<string, string>)
    ensures var st' := ConfiguredStatus(st, generated);
      && st'.version == st.version && st'.assignedCond == st.assignedCond
      && match generated
         case Success(config) => st'.config == config && st'.configuredCond == Condition(Yes, "", "")
         case Failure(message) =>
           && st'.config == st.config
           && st'.configuredCond == Condition(No, message, "Error")
  {
  }

  // ----- The in-memory counters -----

  function Counter(counters: map<string, int>, ref: string): int {
    if ref in counters then counters[ref] else 0
  }

  function ScanOne(counters: map<string, int>, item: Item): map<string, int> {
    var ref := TemplateRef(item.0, item.1);
    if Assigned(item.1) && item.1.status.version > Counter(counters, ref)
    then counters[ref := item.1.status.version]
    else counters
  }

  /** The counters `initLatestVersionMap` leaves after reading `list` from the start. */
  function Scan(list: seq<Item>): map<string, int> {
    if list == [] then map[] else ScanOne(Scan(list[..|list| - 1]), list[|list| - 1])
  }

  /** `item` is an assigned version of template `ref`. */
  predicate Counts(item: Item, ref: string) {
    Assigned(item.1) && TemplateRef(item.0, item.1) == ref
  }

  /** Some assigned version of `ref` in the list carries the number `n`. */
  ghost predicate Carries(list: seq<Item>, ref: string, n: int) {
    exists i :: 0 <= i < |list| && Counts(list[i], ref) && list[i].1.status.version == n
  }

  /** Start-up leaves the maximum of each template's positive numbers, and no entry without one. */
  lemma ScanIsMaximum(list: seq<Item>, ref: string)
    ensures forall n :: Carries(list, ref, n) ==> n <= Counter(Scan(list), ref)
    ensures ref in Scan(list) <==> exists n :: n > 0 && Carries(list, ref, n)
    ensures ref in Scan(list) ==> Scan(list)[ref] > 0 && Carries(list, ref, Scan(list)[ref])
  {
    ScanTracksMaximum(list, ref);
    if n :| n > 0 && Carries(list, ref, n) {
      assert Counter(Scan(list), ref) >= n;
    }
  }

  lemma {:induction false} ScanTracksMaximum(list: seq<Item>, ref: string)
    ensures forall n :: Carries(list, ref, n) ==> n <= Counter(Scan(list), ref)
    ensures ref in Scan(list) ==> Scan(list)[ref] > 0 && Carries(list, ref, Scan(list)[ref])
  {
    if list == [] {
    } else {
      var last := |list| - 1;
      var init, item := list[..last], list[last];
      ScanTracksMaximum(init, ref);
      assert Scan(list) == ScanOne(Scan(init), item);
      forall n
        ensures Carries(list, ref, n) <==> Carries(init, ref, n) || (Counts(item, ref) && item.1.status.version == n)
      {
        CarriesSplits(list, ref, n);
      }
    }
  }

  lemma CarriesSplits(list: seq<Item>, ref: string, n: int)
    requires list != []
    ensures var last := |list| - 1;
            Carries(list, ref, n) <==>
            Carries(list[..last], ref, n) || (Counts(list[last], ref) && list[last].1.status.version == n)
  {
    var init := list[..|list| - 1];
    if Carries(init, ref, n) {
      var i :| 0 <= i < |init| && Counts(init[i], ref) && init[i].1.status.version == n;
      assert list[i] == init[i];
    }
    if i :| 0 <= i < |list| - 1 && Counts(list[i], ref) && list[i].1.status.version == n {
      assert init[i] == list[i];
    }
  }

  /** The order in which the versions are listed does not matter. */
  lemma ScanIgnoresOrder(list1: seq<Item>, list2: seq<Item>)
    requires forall x :: x in list1 <==> x in list2
    ensures Scan(list1) == Scan(list2)
  {
    forall ref
      ensures ref in Scan(list1) <==> ref in Scan(list2)
      ensures ref in Scan(list1) ==> Scan(list1)[ref] == Scan(list2)[ref]
    {
      ScanBoundedBy(list1, list2, ref);
      ScanBoundedBy(list2, list1, ref);
    }
  }

  lemma ScanBoundedBy(list1: seq<Item>, list2: seq<Item>, ref: string)
    requires forall x :: x in list1 ==> x in list2
    ensures ref in Scan(list1) ==> ref in Scan(list2) && Scan(list1)[ref] <= Scan(list2)[ref]
  {
    ScanIsMaximum(list1, ref);
    ScanIsMaximum(list2, ref);
    if ref in Scan(list1) {
      var n := Scan(list1)[ref];
      var i :| 0 <= i < |list1| && Counts(list1[i], ref) && list1[i].1.status.version == n;
      assert list1[i] in list2;
      var j :| 0 <= j < |list2| && list2[j] == list1[i];
      assert Counts(list2[j], ref);
      assert Carries(list2, ref, n);
    }
  }
}
