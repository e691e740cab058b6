/** Which accelerator types can be returned at all: every known name but three. */
module AcceleratorCoverage {
  import opened Accelerators

  /** The types hidden by an earlier one that is part of them. */
  predicate Hidden(t: string) {
    t == "AMD-Instinct-MI250X-MI250" || t == "A100-40G" || t == "A100-80G"
  }

  /** For each type two characters of it that no later type has side by side, hidden ones aside. */
  const MARKS: seq<string> := [
    "V1", "P1", "T4", "P4", "K8", "0G", "L4", "A1", "15", "x-", "GA", "I1", "25", "25", "I2", "OA",
    "R9", "HD", "aw", "V2", "V3", "V4"]

  predicate HasPair(s: string, x: char, y: char) {
    exists p :: 0 <= p < |s| - 1 && s[p] == x && s[p + 1] == y
  }

  /** `s` has none of the first `n` marks. */
  predicate Unmarked(s: string, n: nat) {
    forall j :: 0 <= j < n && j < |MARKS| && |MARKS[j]| == 2 ==> !HasPair(s, MARKS[j][0], MARKS[j][1])
  }

  lemma IntelIsUnmarked(i: nat, s: string)
    requires
      || (i == 8 && s == "Intel-GPU-Max-1550")
      || (i == 9 && s == "Intel-GPU-Max-1100")
      || (i == 10 && s == "Intel-GAUDI")
    ensures Unmarked(s, i)
  {
  }

  lemma InstinctIsUnmarked(i: nat, s: string)
    requires
      || (i == 11 && s == "AMD-Instinct-MI100")
      || (i == 12 && s == "AMD-Instinct-MI250X")
    ensures Unmarked(s, i)
  {
  }

  lemma Mi210IsUnmarked(i: nat, s: string)
    requires i == 14 && s == "AMD-Instinct-MI210"
    ensures Unmarked(s, i)
  {
  }

  lemma Mi300XIsUnmarked(i: nat, s: string)
    requires i == 15 && s == "AMD-Instinct-MI300X-OAM"
    ensures Unmarked(s, i)
  {
  }

  lemma R9200IsUnmarked(i: nat, s: string)
    requires i == 16 && s == "AMD-Radeon-R9-200-HD-7900"
    ensures Unmarked(s, i)
  {
  }

  lemma Hd7900IsUnmarked(i: nat, s: string)
    requires i == 17 && s == "AMD-Radeon-HD-7900"
    ensures Unmarked(s, i)
  {
  }

  lemma NeuronIsUnmarked(i: nat, s: string)
    requires i == 18 && s == "aws-neuron-core"
    ensures Unmarked(s, i)
  {
  }

  lemma TpuIsUnmarked(i: nat, s: string)
    requires
      || (i == 19 && s == "TPU-V2")
      || (i == 20 && s == "TPU-V3")
      || (i == 21 && s == "TPU-V4")
    ensures Unmarked(s, i)
  {
  }

  lemma NvidiaIsUnmarked(i: nat)
    requires i < 8
    ensures Unmarked(TYPES[i], i)
  {
  }

  lemma OthersAreUnmarked(i: nat)
    requires i < 22 && i != 13
    ensures Unmarked(TYPES[i], i)
  {
    var s := TYPES[i];
    if i < 8 {
      NvidiaIsUnmarked(i);
    } else if i < 11 {
      IntelIsUnmarked(i, s);
    } else if i < 13 {
      InstinctIsUnmarked(i, s);
    } else if i == 14 {
      Mi210IsUnmarked(i, s);
    } else if i == 15 {
      Mi300XIsUnmarked(i, s);
    } else if i == 16 {
      R9200IsUnmarked(i, s);
    } else if i == 17 {
      Hd7900IsUnmarked(i, s);
    } else if i == 18 {
      NeuronIsUnmarked(i, s);
    } else {
      TpuIsUnmarked(i, s);
    }
  }

  lemma MarkIsInside(j: nat)
    requires j < 22
    ensures |MARKS[j]| == 2 && Contains(TYPES[j], MARKS[j])
  {
    var at := [0, 0, 0, 0, 0, 2, 0, 0, 14, 12, 6, 14, 15, 15, 14, 20, 11, 11, 0, 4, 4, 4];
    assert At(TYPES[j], MARKS[j], at[j]);
  }

  lemma PairIsContained(s: string, mark: string)
    requires |mark| == 2 && Contains(s, mark)
    ensures HasPair(s, mark[0], mark[1])
  {
    var i: nat :| i <= |s| && At(s, mark, i);
    assert s[i..i + 2][0] == s[i] && s[i..i + 2][1] == s[i + 1];
  }

  /** Every known type is returned for some product, except exactly the three hidden ones. */
  lemma ReturnedUnlessHidden(i: nat)
    requires i < |TYPES|
    ensures (exists product :: GetAcceleratorType(product) == TYPES[i]) <==> !Hidden(TYPES[i])
  {
    if i == 13 || i >= 22 {
      assert Hidden(TYPES[i]);
      forall product
        ensures GetAcceleratorType(product) != TYPES[i]
      {
        Mi250IsHidden(product);
        A10040gIsHidden(product);
        A10080gIsHidden(product);
      }
    } else {
      OnlyThreeHidden(i);
      IsReturned(i);
    }
  }

  lemma IsReturned(i: nat)
    requires i < 22 && i != 13
    ensures GetAcceleratorType(TYPES[i]) == TYPES[i]
  {
    OthersAreUnmarked(i);
    forall j | 0 <= j < i
      ensures !Contains(TYPES[i], TYPES[j])
    {
      MarkIsInside(j);
      if Contains(TYPES[i], TYPES[j]) {
        ContainsIsTransitive(TYPES[i], TYPES[j], MARKS[j]);
        PairIsContained(TYPES[i], MARKS[j]);
      }
    }
    ContainsItself(TYPES[i]);
    FirstContainedAt(TYPES[i], TYPES, i);
  }

  lemma OnlyThreeHidden(i: nat)
    requires i < 22 && i != 13
    ensures !Hidden(TYPES[i])
  {
  }
}
