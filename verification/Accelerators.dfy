/** Accelerator types by product name: the first known name contained in the product string. */
module Accelerators {

  /** The constants in the order in which they are tried. */
  const TYPES: seq<string> := [
    "V100", "P100", "T4", "P4", "K80", "A10G", "L4", "A100",
    "Intel-GPU-Max-1550", "Intel-GPU-Max-1100", "Intel-GAUDI",
    "AMD-Instinct-MI100", "AMD-Instinct-MI250X", "AMD-Instinct-MI250X-MI250", "AMD-Instinct-MI210",
    "AMD-Instinct-MI300X-OAM", "AMD-Radeon-R9-200-HD-7900", "AMD-Radeon-HD-7900",
    "aws-neuron-core", "TPU-V2", "TPU-V3", "TPU-V4", "A100-40G", "A100-80G"]

  predicate At(s: string, part: string, i: nat) {
    i + |part| <= |s| && s[i..i + |part|] == part
  }

  predicate Contains(s: string, part: string) {
    exists i: nat :: i <= |s| && At(s, part, i)
  }

  function FirstContained(product: string, types: seq<string>): string {
    if types == [] then ""
    else if Contains(product, types[0]) then types[0]
    else FirstContained(product, types[1..])
  }

  function GetAcceleratorType(product: string): string {
    FirstContained(product, TYPES)
  }

  lemma ContainsIsTransitive(a: string, b: string, c: string)
    requires Contains(a, b) && Contains(b, c)
    ensures Contains(a, c)
  {
    var i: nat :| i <= |a| && At(a, b, i);
    var j: nat :| j <= |b| && At(b, c, j);
    var w := a[i..i + |b|];
    assert w == b && w[j..j + |c|] == c;
    forall n | 0 <= n < |c|
      ensures a[i + j..i + j + |c|][n] == c[n]
    {
      assert w[j..j + |c|][n] == w[j + n] == a[i + (j + n)];
    }
    assert At(a, c, i + j);
  }

  lemma ContainsItself(s: string)
    ensures Contains(s, s)
  {
    assert At(s, s, 0);
  }

  /** `types[i]` is contained in the product and no earlier type is. */
  predicate IsFirst(product: string, types: seq<string>, i: nat)
    requires i < |types|
  {
    Contains(product, types[i]) && forall j :: 0 <= j < i ==> !Contains(product, types[j])
  }

  /** The result is the first type contained in the product, or empty when none is. */
  lemma {:induction false} FirstContainedIsFirst(product: string, types: seq<string>)
    ensures var r := FirstContained(product, types);
      if exists i :: 0 <= i < |types| && Contains(product, types[i])
      then exists i :: 0 <= i < |types| && types[i] == r && IsFirst(product, types, i)
      else r == ""
  {
    if types == [] {
    } else {
      if Contains(product, types[0]) {
        assert IsFirst(product, types, 0);
      } else {
        FirstContainedIsFirst(product, types[1..]);
        var r := FirstContained(product, types[1..]);
        if i :| 0 <= i < |types| - 1 && types[1..][i] == r && IsFirst(product, types[1..], i) {
          assert types[i + 1] == r && IsFirst(product, types, i + 1) by {
            assert forall j :: 0 < j < |types| ==> types[j] == types[1..][j - 1];
          }
        }
      }
    }
  }

  lemma {:induction false} FirstContainedAt(product: string, types: seq<string>, i: nat)
    requires i < |types| && IsFirst(product, types, i)
    ensures FirstContained(product, types) == types[i]
  {
    if i == 0 {
    } else {
      assert types[1..][i - 1] == types[i];
      FirstContainedAt(product, types[1..], i - 1);
    }
  }

  /** A result is a part of the product and stands for itself. */
  lemma ResultIsFixed(product: string)
    requires GetAcceleratorType(product) != ""
    ensures Contains(product, GetAcceleratorType(product))
    ensures GetAcceleratorType(GetAcceleratorType(product)) == GetAcceleratorType(product)
  {
    FirstContainedIsFixed(product, TYPES);
  }

  lemma FirstContainedIsFixed(product: string, types: seq<string>)
    requires FirstContained(product, types) != ""
    ensures var r := FirstContained(product, types); Contains(product, r) && FirstContained(r, types) == r
  {
    var r := FirstContained(product, types);
    FirstContainedIsFirst(product, types);
    var i :| 0 <= i < |types| && types[i] == r && IsFirst(product, types, i);
    ContainsItself(r);
    forall j | 0 <= j < i
      ensures !Contains(r, types[j])
    {
      if Contains(r, types[j]) {
        ContainsIsTransitive(product, r, types[j]);
      }
    }
    FirstContainedAt(r, types, i);
  }

  /** A type can be the answer for some product exactly when no type tried before it is part of it. */
  lemma ReturnedIff(types: seq<string>, i: nat)
    requires i < |types| && types[i] != ""
    requires forall j, k :: 0 <= j < k < |types| ==> types[j] != types[k]
    ensures (exists product :: FirstContained(product, types) == types[i])
       <==> (forall j :: 0 <= j < i ==> !Contains(types[i], types[j]))
  {
    if product :| FirstContained(product, types) == types[i] {
      FirstContainedIsFirst(product, types);
      var n :| 0 <= n < |types| && types[n] == types[i] && IsFirst(product, types, n);
      assert n == i;
      forall j | 0 <= j < i
        ensures !Contains(types[i], types[j])
      {
        if Contains(types[i], types[j]) {
          ContainsIsTransitive(product, types[i], types[j]);
        }
      }
    }
    if forall j :: 0 <= j < i ==> !Contains(types[i], types[j]) {
      ContainsItself(types[i]);
      FirstContainedAt(types[i], types, i);
    }
  }

  /** An entry hidden by an earlier one that is part of it is never returned. */
  lemma HiddenIsNeverReturned(product: string, types: seq<string>, i: nat, j: nat)
    requires j < i < |types| && types[i] != "" && Contains(types[i], types[j])
    requires forall k :: 0 <= k <= j ==> types[k] != types[i]
    ensures FirstContained(product, types) != types[i]
  {
    FirstContainedIsFirst(product, types);
    if FirstContained(product, types) == types[i] {
      var n :| 0 <= n < |types| && types[n] == types[i] && IsFirst(product, types, n);
      ContainsIsTransitive(product, types[i], types[j]);
    }
  }

  lemma A10040gIsHidden(product: string)
    ensures GetAcceleratorType(product) != "A100-40G"
  {
    assert At("A100-40G", "A100", 0);
    HiddenIsNeverReturned(product, TYPES, 22, 7);
  }

  lemma A10080gIsHidden(product: string)
    ensures GetAcceleratorType(product) != "A100-80G"
  {
    assert At("A100-80G", "A100", 0);
    HiddenIsNeverReturned(product, TYPES, 23, 7);
  }

  lemma Mi250IsHidden(product: string)
    ensures GetAcceleratorType(product) != "AMD-Instinct-MI250X-MI250"
  {
    assert At("AMD-Instinct-MI250X-MI250", "AMD-Instinct-MI250X", 0);
    HiddenIsNeverReturned(product, TYPES, 13, 12);
  }
}
