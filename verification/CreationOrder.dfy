/** The order in which a template picks its first version: newest first, names break ties. */
module CreationOrder {
  import opened Wrappers
  import opened Conditions
  import opened ModelVersions

  /** Go's `<` on strings. */
  predicate StrLess(a: string, b: string) {
    b != "" && (a == "" || a[0] < b[0] || (a[0] == b[0] && StrLess(a[1..], b[1..])))
  }

  predicate Less(x: Item, y: Item) {
    if x.1.meta.created == y.1.meta.created then StrLess(x.0.name, y.0.name)
    else y.1.meta.created < x.1.meta.created
  }

  lemma {:induction false} StrLessIsTotal(a: string, b: string)
    ensures a != b ==> StrLess(a, b) || StrLess(b, a)
    ensures !(StrLess(a, b) && StrLess(b, a))
    ensures !StrLess(a, a)
  {
    if a != "" {
      StrLessIsTotal(a[1..], if b == "" then "" else b[1..]);
      if b != "" && a[0] == b[0] && a != b {
        assert a == [a[0]] + a[1..] && b == [b[0]] + b[1..];
      }
    }
  }

  lemma {:induction false} StrLessIsTransitive(a: string, b: string, c: string)
    requires StrLess(a, b) && StrLess(b, c)
    ensures StrLess(a, c)
  {
    if a != "" && a[0] == b[0] == c[0] {
      StrLessIsTransitive(a[1..], b[1..], c[1..]);
    }
  }

  /** It is the lexicographic order. */
  lemma {:induction false} StrLessIff(a: string, b: string)
    ensures StrLess(a, b) <==>
      exists n :: 0 <= n <= |a| && n < |b| && a[..n] == b[..n] && (n == |a| || a[n] < b[n])
  {
    if a == "" || b == "" {
      assert b != "" ==> a[..0] == b[..0];
    } else {
      var rest, rest' := a[1..], b[1..];
      StrLessIff(rest, rest');
      if StrLess(a, b) && a[0] == b[0] {
        var n :| 0 <= n <= |rest| && n < |rest'| && rest[..n] == rest'[..n] && (n == |rest| || rest[n] < rest'[n]);
        assert a[..n + 1] == [a[0]] + rest[..n] && b[..n + 1] == [b[0]] + rest'[..n];
      } else if StrLess(a, b) {
        assert a[..0] == b[..0];
      }
      if n :| 0 <= n <= |a| && n < |b| && a[..n] == b[..n] && (n == |a| || a[n] < b[n]) {
        if n > 0 {
          assert a[0] == a[..n][0] == b[..n][0] == b[0];
          assert rest[..n - 1] == a[..n][1..] == b[..n][1..] == rest'[..n - 1];
        }
      }
    }
  }

  /** A strict order that decides between any two versions with different names. */
  lemma LessIsStrictTotalOrder(x: Item, y: Item, z: Item)
    ensures !Less(x, x)
    ensures Less(x, y) ==> !Less(y, x)
    ensures Less(x, y) && Less(y, z) ==> Less(x, z)
    ensures x.0.name != y.0.name ==> Less(x, y) || Less(y, x)
  {
    StrLessIsTotal(x.0.name, y.0.name);
    StrLessIsTotal(x.0.name, x.0.name);
    if StrLess(x.0.name, y.0.name) && StrLess(y.0.name, z.0.name) {
      StrLessIsTransitive(x.0.name, y.0.name, z.0.name);
    }
  }

  ghost predicate Sorted(list: seq<Item>) {
    forall i, j :: 0 <= i < j < |list| ==> !Less(list[j], list[i])
  }

  function Insert(x: Item, list: seq<Item>): seq<Item> {
    if list == [] || !Less(list[0], x) then [x] + list else [list[0]] + Insert(x, list[1..])
  }

  /** What sort.Sort leaves in the slice. */
  function SortByCreation(list: seq<Item>): seq<Item> {
    if list == [] then [] else Insert(list[0], SortByCreation(list[1..]))
  }

  lemma {:induction false} InsertKeepsElements(x: Item, list: seq<Item>)
    ensures multiset(Insert(x, list)) == multiset{x} + multiset(list)
  {
    if list == [] {
    } else {
      InsertKeepsElements(x, list[1..]);
      assert list == [list[0]] + list[1..];
    }
  }

  lemma InsertMembers(x: Item, list: seq<Item>)
    ensures forall y :: y in Insert(x, list) <==> y == x || y in list
  {
    InsertKeepsElements(x, list);
    forall y
      ensures y in Insert(x, list) <==> y == x || y in list
    {
      assert y in Insert(x, list) <==> y in multiset(Insert(x, list));
      assert y in list <==> y in multiset(list);
    }
  }

  lemma NotLessIsTransitive(x: Item, y: Item, z: Item)
    requires !Less(y, x) && !Less(z, y)
    ensures !Less(z, x)
  {
    LessIsStrictTotalOrder(z, x, y);
    LessIsStrictTotalOrder(y, z, x);
    LessIsStrictTotalOrder(x, y, z);
  }

  lemma {:induction false} InsertKeepsSorted(x: Item, list: seq<Item>)
    requires Sorted(list)
    ensures Sorted(Insert(x, list))
  {
    if list == [] {
    } else {
      if Less(list[0], x) {
        InsertKeepsSorted(x, list[1..]);
        InsertMembers(x, list[1..]);
        LessIsStrictTotalOrder(list[0], x, x);
        var tail := Insert(x, list[1..]);
        forall i | 0 <= i < |tail|
          ensures !Less(tail[i], list[0])
        {
          assert tail[i] in tail;
        }
      } else {
        forall i | 0 <= i < |list|
          ensures !Less(list[i], x)
        {
          if i > 0 {
            NotLessIsTransitive(x, list[0], list[i]);
          }
        }
      }
    }
  }

  lemma {:induction false} SortSorts(list: seq<Item>)
    ensures Sorted(SortByCreation(list)) && multiset(SortByCreation(list)) == multiset(list)
  {
    if list == [] {
    } else {
      SortSorts(list[1..]);
      InsertKeepsSorted(list[0], SortByCreation(list[1..]));
      InsertKeepsElements(list[0], SortByCreation(list[1..]));
      assert list == [list[0]] + list[1..];
    }
  }

  lemma SortMembers(list: seq<Item>)
    ensures forall x :: x in SortByCreation(list) <==> x in list
  {
    SortSorts(list);
    forall x
      ensures x in SortByCreation(list) <==> x in list
    {
      assert x in SortByCreation(list) <==> x in multiset(SortByCreation(list));
      assert x in list <==> x in multiset(list);
    }
  }

  /** `first` is the least assigned version of the list, or there is none. */
  ghost predicate IsFirstAssigned(list: seq<Item>, first: Option<Item>) {
    match first
    case None => forall x :: x in list ==> !Assigned(x.1)
    case Some(v) => v in list && Assigned(v.1) && forall x :: x in list && Assigned(x.1) ==> !Less(x, v)
  }

  ghost predicate NamesDiffer(list: seq<Item>) {
    forall x, y :: x in list && y in list && x.0.name == y.0.name ==> x == y
  }

  /** The choice does not depend on the order in which the cache lists the versions. */
  lemma FirstAssignedIgnoresOrder(list1: seq<Item>, first1: Option<Item>, list2: seq<Item>, first2: Option<Item>)
    requires NamesDiffer(list1) && forall x :: x in list1 <==> x in list2
    requires IsFirstAssigned(list1, first1) && IsFirstAssigned(list2, first2)
    ensures first1 == first2
  {
    if first1.Some? && first2.Some? {
      LessIsStrictTotalOrder(first1.value, first2.value, first1.value);
    }
  }

  function FirstAssignedIn(sorted: seq<Item>): Option<Item> {
    if sorted == [] then None
    else if Assigned(sorted[0].1) then Some(sorted[0])
    else FirstAssignedIn(sorted[1..])
  }

  /** The choice GetFirstTemplateVersion makes. */
  function FirstAssigned(list: seq<Item>): Option<Item> {
    FirstAssignedIn(SortByCreation(list))
  }

  lemma {:induction false} FirstInSortedIsLeast(sorted: seq<Item>)
    requires Sorted(sorted)
    ensures IsFirstAssigned(sorted, FirstAssignedIn(sorted))
  {
    if sorted == [] {
    } else {
      FirstInSortedIsLeast(sorted[1..]);
      LessIsStrictTotalOrder(sorted[0], sorted[0], sorted[0]);
      assert forall x :: x in sorted <==> x == sorted[0] || x in sorted[1..];
    }
  }

  lemma FirstAssignedIsLeast(list: seq<Item>)
    ensures IsFirstAssigned(list, FirstAssigned(list))
  {
    SortSorts(list);
    SortMembers(list);
    FirstInSortedIsLeast(SortByCreation(list));
  }

  /** The chosen version: no assigned one is newer, and of those created at the same time it has the least name. */
  lemma FirstAssignedIsNewest(list: seq<Item>)
    ensures match FirstAssigned(list)
      case None => forall x :: x in list ==> x.1.status.assignedCond.status != Yes
      case Some(v) =>
        && v in list && v.1.status.assignedCond.status == Yes
        && forall x :: x in list && x.1.status.assignedCond.status == Yes ==>
             && x.1.meta.created <= v.1.meta.created
             && (x.1.meta.created == v.1.meta.created ==> !StrLess(x.0.name, v.0.name))
  {
    FirstAssignedIsLeast(list);
  }
}
