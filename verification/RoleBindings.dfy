/** The cluster-role-binding index and ensureClusterBinding, its client. */
module RoleBindings {

  datatype Subject = Subject(kind: string, name: string)

  datatype Binding = Binding(name: string, role: string, subjects: seq<Subject>, user: string)

  function CrbKey(role: string, subject: Subject): string {
    role + "." + subject.kind + "." + subject.name
  }

  /** The index entry of a binding: as many empty keys as subjects, then the real keys. */
  function Keys(b: Binding): seq<string> {
    seq(|b.subjects|, _ => "") + seq(|b.subjects|, i requires 0 <= i < |b.subjects| => CrbKey(b.role, b.subjects[i]))
  }

  method IndexKeys(b: Binding) returns (keys: seq<string>)
    ensures keys == Keys(b)
    ensures |keys| == 2 * |b.subjects|
    ensures forall i :: 0 <= i < |b.subjects| ==>
      && keys[i] == ""
      && keys[|b.subjects| + i] == b.role + "." + b.subjects[i].kind + "." + b.subjects[i].name
  {
    keys := seq(|b.subjects|, _ => "");
    for i := 0 to |b.subjects|
      invariant keys == seq(|b.subjects|, _ => "") + seq(i, j requires 0 <= j < i => CrbKey(b.role, b.subjects[j]))
    {
      keys := keys + [CrbKey(b.role, b.subjects[i])];
    }
  }

  /** What GetByIndex returns. */
  function ByIndex(bindings: set<Binding>, key: string): set<Binding> {
    set b | b in bindings && key in Keys(b)
  }

  /** What a scan for the role and the subject finds. */
  function Scan(bindings: set<Binding>, role: string, subject: Subject): set<Binding> {
    set b | b in bindings && b.role == role && subject in b.subjects
  }

  predicate DotFree(s: string) {
    '.' !in s
  }

  lemma {:induction false} DotSplitIsUnique(a: string, b: string, a': string, b': string)
    requires DotFree(a) && DotFree(a') && a + "." + b == a' + "." + b'
    ensures a == a' && b == b'
  {
    var s, s' := a + "." + b, a' + "." + b';
    assert s[0] == (if a == "" then '.' else a[0]) && s'[0] == (if a' == "" then '.' else a'[0]);
    if a != "" && a' != "" {
      assert s[1..] == a[1..] + "." + b && s'[1..] == a'[1..] + "." + b';
      DotSplitIsUnique(a[1..], b, a'[1..], b');
      assert a == [a[0]] + a[1..] && a' == [a'[0]] + a'[1..];
    } else {
      assert s[1..] == b && s'[1..] == b';
    }
  }

  /** Keys determine role and subject when role and kind contain no dot; the name may. */
  lemma CrbKeyIsInjective(role: string, subject: Subject, role': string, subject': Subject)
    requires DotFree(role) && DotFree(role') && DotFree(subject.kind) && DotFree(subject'.kind)
    ensures CrbKey(role, subject) == CrbKey(role', subject') <==> role == role' && subject == subject'
  {
    if CrbKey(role, subject) == CrbKey(role', subject') {
      var rest, rest' := subject.kind + "." + subject.name, subject'.kind + "." + subject'.name;
      assert CrbKey(role, subject) == role + "." + rest && CrbKey(role', subject') == role' + "." + rest';
      DotSplitIsUnique(role, rest, role', rest');
      DotSplitIsUnique(subject.kind, subject.name, subject'.kind, subject'.name);
    }
  }

  ghost predicate KindsDotFree(bindings: set<Binding>) {
    forall b, s :: b in bindings && s in b.subjects ==> DotFree(s.kind)
  }

  /** The longer role continues the shorter one as if it were one of its keys. */
  predicate Shadows(longer: string, role: string, kind: string) {
    role + "." + kind + "." <= longer + "."
  }

  /** Two different roles have a key in common exactly when one shadows the other. */
  lemma RolesCollideIff(longer: string, kind': string, role: string, kind: string)
    requires DotFree(role) && DotFree(kind) && longer != role
    ensures Shadows(longer, role, kind) <==>
      exists name, name' :: CrbKey(longer, Subject(kind', name')) == CrbKey(role, Subject(kind, name))
  {
    if name, name' :| CrbKey(longer, Subject(kind', name')) == CrbKey(role, Subject(kind, name)) {
      SharedKeyShadows(longer, Subject(kind', name'), role, Subject(kind, name));
    }
    if Shadows(longer, role, kind) {
      var name := ShadowedName(longer, Subject(kind', ""), role, kind);
      assert CrbKey(longer, Subject(kind', "")) == CrbKey(role, Subject(kind, name));
    }
  }

  lemma SharedKeyShadows(longer: string, subject': Subject, role: string, subject: Subject)
    requires DotFree(role) && DotFree(subject.kind) && longer != role
    requires CrbKey(longer, subject') == CrbKey(role, subject)
    ensures Shadows(longer, role, subject.kind)
  {
    var key, start, start' := CrbKey(role, subject), role + "." + subject.kind + ".", longer + ".";
    assert start <= key && start' <= key;
    assert |start'| < |start| ==> start' <= start;
    if start' <= start && start' != start {
      OnlyInnerDot(longer, role, subject.kind);
    }
  }

  /** The only inner dot of role and kind is the one that ends the role. */
  lemma OnlyInnerDot(part: string, role: string, kind: string)
    requires DotFree(role) && DotFree(kind)
    requires part + "." <= role + "." + kind + "." && part + "." != role + "." + kind + "."
    ensures part == role
  {
    var start := role + "." + kind + ".";
    assert start[|part|] == (part + ".")[|part|] == '.';
    assert forall i :: |role| < i < |start| - 1 ==> start[i] == kind[i - |role| - 1];
    assert part == start[..|part|] && role == start[..|role|];
  }

  lemma ShadowedName(longer: string, subject': Subject, role: string, kind: string) returns (name: string)
    requires Shadows(longer, role, kind)
    ensures CrbKey(longer, subject') == CrbKey(role, Subject(kind, name))
  {
    var key, start := CrbKey(longer, subject'), role + "." + kind + ".";
    assert longer + "." <= key;
    assert start <= key;
    name := key[|start|..];
    assert key == start + name;
  }

  lemma KeyListed(b: Binding, role: string, subject: Subject)
    requires DotFree(role) && DotFree(subject.kind) && !Shadows(b.role, role, subject.kind)
    requires forall s :: s in b.subjects ==> DotFree(s.kind)
    ensures CrbKey(role, subject) in Keys(b) <==> b.role == role && subject in b.subjects
  {
    var key, keys, n := CrbKey(role, subject), Keys(b), |b.subjects|;
    assert key[|role|] == '.';
    forall i | 0 <= i < n
      ensures keys[n + i] == key <==> b.role == role && b.subjects[i] == subject
      ensures keys[i] != key
    {
      assert b.subjects[i] in b.subjects;
      if b.role == role {
        CrbKeyIsInjective(role, b.subjects[i], role, subject);
      } else if keys[n + i] == key {
        SharedKeyShadows(b.role, b.subjects[i], role, subject);
      }
    }
    if b.role == role && subject in b.subjects {
      var i :| 0 <= i < n && b.subjects[i] == subject;
      assert keys[n + i] == key;
    }
  }

  /** The index agrees with the scan, in spite of the empty keys. */
  lemma IndexIsScan(bindings: set<Binding>, role: string, subject: Subject)
    requires DotFree(role) && DotFree(subject.kind) && KindsDotFree(bindings)
    requires forall b :: b in bindings ==> !Shadows(b.role, role, subject.kind)
    ensures ByIndex(bindings, CrbKey(role, subject)) == Scan(bindings, role, subject)
  {
    forall b | b in bindings
      ensures CrbKey(role, subject) in Keys(b) <==> b.role == role && subject in b.subjects
    {
      KeyListed(b, role, subject);
    }
  }

  /** Exactly when no stored role shadows the looked-up one is the index right about every subject of the kind. */
  lemma IndexIsScanIff(bindings: set<Binding>, role: string, kind: string)
    requires DotFree(role) && DotFree(kind) && KindsDotFree(bindings)
    ensures (forall name ::
      ByIndex(bindings, CrbKey(role, Subject(kind, name))) == Scan(bindings, role, Subject(kind, name)))
       <==> (forall b :: b in bindings && b.subjects != [] ==> !Shadows(b.role, role, kind))
  {
    if forall b :: b in bindings && b.subjects != [] ==> !Shadows(b.role, role, kind) {
      forall name
        ensures ByIndex(bindings, CrbKey(role, Subject(kind, name))) == Scan(bindings, role, Subject(kind, name))
      {
        var relevant := set b | b in bindings && b.subjects != [];
        IndexIsScan(relevant, role, Subject(kind, name));
        IgnoresEmpty(bindings, relevant, role, Subject(kind, name));
      }
    }
    if b :| b in bindings && b.subjects != [] && Shadows(b.role, role, kind) {
      var name := ShadowedName(b.role, b.subjects[0], role, kind);
      assert Keys(b)[|b.subjects|] == CrbKey(role, Subject(kind, name));
      assert b in ByIndex(bindings, CrbKey(role, Subject(kind, name)));
      assert b !in Scan(bindings, role, Subject(kind, name));
    }
  }

  lemma IgnoresEmpty(bindings: set<Binding>, relevant: set<Binding>, role: string, subject: Subject)
    requires relevant == set b | b in bindings && b.subjects != []
    ensures ByIndex(bindings, CrbKey(role, subject)) == ByIndex(relevant, CrbKey(role, subject))
    ensures Scan(bindings, role, subject) == Scan(relevant, role, subject)
  {
    assert forall b :: b in bindings && b.subjects == [] ==> Keys(b) == [];
  }

  const ADMIN_ROLE := "cluster-admin"
  const VIEWER_ROLE := "system:public-info-viewer"

  function RoleOf(isAdmin: bool): string {
    if isAdmin then ADMIN_ROLE else VIEWER_ROLE
  }

  /** No stored role shadows `role`. */
  ghost predicate Unambiguous(bindings: set<Binding>, role: string) {
    KindsDotFree(bindings) && forall b :: b in bindings ==> !Shadows(b.role, role, "User")
  }

  /** What OnChanged looks up. */
  function Indexed(bindings: set<Binding>, role: string, user: string): set<Binding> {
    ByIndex(bindings, CrbKey(role, Subject("User", user)))
  }

  predicate Bound(bindings: set<Binding>, role: string, user: string) {
    Scan(bindings, role, Subject("User", user)) != {}
  }

  class UserHandler {
    var bindings: set<Binding>

    constructor (bindings: set<Binding>)
      ensures this.bindings == bindings
    {
      this.bindings := bindings;
    }

    /** `generated` is the name the server makes up from the user's name. */
    method EnsureClusterBinding(role: string, user: string, generated: string, up: bool) returns (ok: bool)
      modifies this
      ensures var found := ByIndex(old(bindings), CrbKey(role, Subject("User", user)));
        && ok == (found != {} || up)
        && bindings == if found != {} || !up then old(bindings)
                       else old(bindings) + {Binding(generated, role, [Subject("User", user)], user)}
    {
      var subject := Subject("User", user);
      var key := CrbKey(role, subject);
      var found := ByIndex(bindings, key);
      if |found| > 0 {
        return true;
      }
      if !up {
        return false;
      }
      bindings := bindings + {Binding(generated, role, [subject], user)};
      return true;
    }

    /**
     A successful call leaves the index with a binding for the user, so calling again creates
     nothing. The user is bound to the role exactly when that was so before or the index had no
     entry; with a role that nothing shadows always.
     */
    method OnChanged(isAdmin: bool, user: string, generated: string, up: bool) returns (ok: bool)
      modifies this
      ensures bindings == Changed(old(bindings), Change(isAdmin, user, generated, up))
      ensures var role := if isAdmin then "cluster-admin" else "system:public-info-viewer";
        && old(bindings) <= bindings
        && (forall b :: b in bindings && b !in old(bindings) ==>
              b.role == role && b.subjects == [Subject("User", user)])
        && (ok <==> up || Indexed(old(bindings), role, user) != {})
        && (ok ==> Indexed(bindings, role, user) != {})
        && (!ok ==> bindings == old(bindings))
        && (Indexed(old(bindings), role, user) != {} ==> bindings == old(bindings))
        && (ok ==> (Bound(bindings, role, user) <==>
                    Bound(old(bindings), role, user) || Indexed(old(bindings), role, user) == {}))
        && (ok && Unambiguous(old(bindings), role) ==> Bound(bindings, role, user))
      ensures forall other :: Unambiguous(old(bindings), RoleOf(other)) ==> Unambiguous(bindings, RoleOf(other))
    {
      var role := VIEWER_ROLE;
      if isAdmin {
        role := ADMIN_ROLE;
      }
      ok := EnsureClusterBinding(role, user, generated, up);
      assert role == RoleOf(isAdmin);
      CreatedIsFound(old(bindings), Binding(generated, role, [Subject("User", user)], user), user, isAdmin);
      UnambiguousIsRight(old(bindings), isAdmin, user);
    }
  }

  // ----- Who becomes administrator -----

  /** One call of OnChanged. */
  datatype Change = Change(isAdmin: bool, user: string, generated: string, up: bool)

  function Changed(bindings: set<Binding>, c: Change): set<Binding> {
    var role := RoleOf(c.isAdmin);
    if Indexed(bindings, role, c.user) != {} || !c.up then bindings
    else bindings + {Binding(c.generated, role, [Subject("User", c.user)], c.user)}
  }

  function ChangedAll(bindings: set<Binding>, changes: seq<Change>): set<Binding> {
    if changes == [] then bindings
    else Changed(ChangedAll(bindings, changes[..|changes| - 1]), changes[|changes| - 1])
  }

  /** Some call treated the user as an administrator, or as an ordinary user. */
  predicate Treated(changes: seq<Change>, user: string, isAdmin: bool) {
    exists i :: 0 <= i < |changes| && changes[i].user == user && changes[i].isAdmin == isAdmin
  }

  /**
   Over any sequence of calls nobody becomes cluster admin without a call in which the user was an
   administrator, nobody becomes viewer without one in which the user was not, and no other role
   is given.
   */
  lemma {:induction false} RolesAreEarned(bindings: set<Binding>, changes: seq<Change>, role: string, user: string)
    requires Bound(ChangedAll(bindings, changes), role, user) && !Bound(bindings, role, user)
    ensures role == "cluster-admin" ==> Treated(changes, user, true)
    ensures role == "system:public-info-viewer" ==> Treated(changes, user, false)
    ensures role == "cluster-admin" || role == "system:public-info-viewer"
  {
    if changes == [] {
      assert false;
    } else {
      var n := |changes| - 1;
      var before, last := ChangedAll(bindings, changes[..n]), changes[n];
      if Bound(before, role, user) {
        RolesAreEarned(bindings, changes[..n], role, user);
        assert forall isAdmin :: Treated(changes[..n], user, isAdmin) ==> Treated(changes, user, isAdmin);
      } else {
        var b :| b in Scan(ChangedAll(bindings, changes), role, Subject("User", user));
        assert b !in Scan(before, role, Subject("User", user));
        assert b == Binding(last.generated, RoleOf(last.isAdmin), [Subject("User", last.user)], last.user);
        assert changes[n].user == user;
      }
    }
  }

  /** One call that reaches the server gives an administrator the role, unless another one shadows it. */
  lemma AdminIsBound(bindings: set<Binding>, user: string, generated: string)
    requires Unambiguous(bindings, "cluster-admin")
    ensures Bound(Changed(bindings, Change(true, user, generated, true)), "cluster-admin", user)
  {
    CreatedIsFound(bindings, Binding(generated, RoleOf(true), [Subject("User", user)], user), user, true);
    UnambiguousIsRight(bindings, true, user);
  }

  lemma CreatedIsFound(bindings: set<Binding>, b: Binding, user: string, isAdmin: bool)
    requires b.subjects == [Subject("User", user)] && b.role == RoleOf(isAdmin)
    ensures Bound(bindings + {b}, b.role, user) && Indexed(bindings + {b}, b.role, user) != {}
    ensures forall other :: Unambiguous(bindings, RoleOf(other)) ==> Unambiguous(bindings + {b}, RoleOf(other))
  {
    assert Subject("User", user) in b.subjects;
    assert b in Scan(bindings + {b}, b.role, Subject("User", user));
    assert Keys(b)[1] == CrbKey(b.role, Subject("User", user));
    assert b in Indexed(bindings + {b}, b.role, user);
    forall other
      ensures !Shadows(b.role, RoleOf(other), "User")
    {
      var start := RoleOf(other) + "." + "User" + ".";
      assert start[0] != b.role[0] || |start| > |b.role| + 1;
    }
  }

  lemma UnambiguousIsRight(bindings: set<Binding>, isAdmin: bool, user: string)
    ensures Unambiguous(bindings, RoleOf(isAdmin)) ==>
      (Indexed(bindings, RoleOf(isAdmin), user) != {} <==> Bound(bindings, RoleOf(isAdmin), user))
  {
    if Unambiguous(bindings, RoleOf(isAdmin)) {
      IndexIsScan(bindings, RoleOf(isAdmin), Subject("User", user));
    }
  }

  /** A binding of a role `cluster-admin.User` stands in for one of user `User.bob`, who never becomes admin. */
  lemma ShadowingRoleFools(b: Binding)
    requires b.role == "cluster-admin.User" && b.subjects == [Subject("User", "bob")]
    ensures Indexed({b}, ADMIN_ROLE, "User.bob") == {b} && !Bound({b}, ADMIN_ROLE, "User.bob")
  {
    var key := CrbKey(ADMIN_ROLE, Subject("User", "User.bob"));
    assert Keys(b)[1] == "cluster-admin.User" + "." + "User" + "." + "bob" == key;
    assert key in Keys(b);
    assert |b.role| != |ADMIN_ROLE|;
  }
}
