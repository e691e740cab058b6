/** Reference strings `namespace/name`, which also key the in-memory version counters. */
module Refs {

  function NewRef(ns: string, name: string): string {
    if ns == "" then name else ns + "/" + name
  }

  /** Index of the first slash, or the length when there is none. */
  function FirstSlash(r: string): (i: nat)
    ensures i <= |r|
    ensures '/' !in r[..i]
    ensures i < |r| ==> r[i] == '/'
  {
    if r == "" || r[0] == '/' then 0 else 1 + FirstSlash(r[1..])
  }

  /** Split at the first slash only. */
  function Parse(r: string): (string, string) {
    var i := FirstSlash(r);
    if i == |r| then ("", r) else (r[..i], r[i + 1..])
  }

  /** Which pairs survive a round trip: the part in front of the first slash must be slash-free. */
  predicate Splittable(ns: string, name: string) {
    if ns == "" then '/' !in name else '/' !in ns
  }

  lemma {:induction false} FirstSlashIsUnique(r: string, i: nat)
    requires i <= |r| && '/' !in r[..i] && (i < |r| ==> r[i] == '/')
    ensures FirstSlash(r) == i
  {
    if i == 0 {
    } else {
      assert r[..i][0] == r[0] && r[1..][..i - 1] == r[..i][1..];
      FirstSlashIsUnique(r[1..], i - 1);
    }
  }

  lemma ParseUndoesNewRef(ns: string, name: string)
    ensures Parse(NewRef(ns, name)) == (ns, name) <==> Splittable(ns, name)
  {
    var r := NewRef(ns, name);
    if ns != "" {
      assert r[..|ns|] == ns && r[|ns| + 1..] == name && r[|ns|] == '/';
      if '/' !in ns {
        FirstSlashIsUnique(r, |ns|);
      }
    } else {
      assert r[..|r|] == r;
    }
  }

  lemma NewRefUndoesParse(r: string)
    ensures NewRef(Parse(r).0, Parse(r).1) == r <==> (r == "" || r[0] != '/')
  {
    var i := FirstSlash(r);
    if i < |r| {
      assert r == r[..i] + "/" + r[i + 1..];
    }
  }

  /** Two templates never share a counter key. */
  lemma DistinctTemplatesHaveDistinctRefs(ns1: string, name1: string, ns2: string, name2: string)
    requires Splittable(ns1, name1) && Splittable(ns2, name2)
    ensures NewRef(ns1, name1) == NewRef(ns2, name2) <==> ns1 == ns2 && name1 == name2
  {
    ParseUndoesNewRef(ns1, name1);
    ParseUndoesNewRef(ns2, name2);
  }
}
