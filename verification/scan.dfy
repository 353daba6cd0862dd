/**
 * The scan `re.findall` makes over a string, given a table `lens` that holds,
 * for each position, the length of the greedy match starting there (0 where
 * none starts): the leftmost match is taken, the scan resumes at its end, and
 * so on to the end of the string.
 */
module Scan {
  /** Every match in the table ends inside the string. */
  predicate Fits(lens: seq<nat>) {
    forall j :: 0 <= j < |lens| ==> j + lens[j] <= |lens|
  }

  /** No match starts in `lo..hi-1`. */
  predicate Free(lens: seq<nat>, lo: int, hi: int) {
    forall j :: 0 <= lo <= j < hi && j < |lens| ==> lens[j] == 0
  }

  /** The start positions of the matches the scan reports from `i` on. */
  function Starts(lens: seq<nat>, i: nat): (ps: seq<nat>)
    ensures forall k :: 0 <= k < |ps| ==> i <= ps[k] < |lens| && lens[ps[k]] > 0
    decreases |lens| - i
  {
    if i >= |lens| then []
    else if lens[i] > 0 then [i] + Starts(lens, i + lens[i])
    else Starts(lens, i + 1)
  }

  /** The texts of the matches the scan reports from `i` on. */
  function Texts(s: string, lens: seq<nat>, i: nat): seq<string>
    requires |lens| == |s| && Fits(lens)
    decreases |lens| - i
  {
    if i >= |lens| then []
    else if lens[i] > 0 then [s[i..i + lens[i]]] + Texts(s, lens, i + lens[i])
    else Texts(s, lens, i + 1)
  }

  /** The scan reports nothing from `i` on exactly when no match starts there. */
  lemma {:induction false} TextsEmpty(s: string, lens: seq<nat>, i: nat)
    requires |lens| == |s| && Fits(lens)
    ensures Texts(s, lens, i) == [] <==> Free(lens, i, |lens|)
    decreases |lens| - i
  {
    if i < |lens| && lens[i] == 0 {
      TextsEmpty(s, lens, i + 1);
      if Free(lens, i + 1, |lens|) {
        forall j | i <= j < |lens| ensures lens[j] == 0 {
          if j > i {
            assert i + 1 <= j;
          }
        }
      }
    }
  }

  /** Each reported match ends at or before the start of every later one. */
  lemma {:induction false} StartsOrdered(lens: seq<nat>, i: nat)
    ensures forall k, l :: 0 <= k < l < |Starts(lens, i)| ==>
      Starts(lens, i)[k] + lens[Starts(lens, i)[k]] <= Starts(lens, i)[l]
    decreases |lens| - i
  {
    var ps := Starts(lens, i);
    if i < |lens| {
      if lens[i] > 0 {
        var rest := Starts(lens, i + lens[i]);
        StartsOrdered(lens, i + lens[i]);
        assert ps == [i] + rest;
        forall k, l | 0 <= k < l < |ps|
          ensures ps[k] + lens[ps[k]] <= ps[l]
        {
          assert ps[l] == rest[l - 1];
          if k > 0 {
            assert ps[k] == rest[k - 1];
            assert 0 <= k - 1 < l - 1 < |rest|;
            assert rest[k - 1] + lens[rest[k - 1]] <= rest[l - 1];
          } else {
            assert i + lens[i] <= rest[l - 1];
          }
        }
      } else {
        StartsOrdered(lens, i + 1);
        assert ps == Starts(lens, i + 1);
      }
    }
  }

  /** No match starts before the first reported one, or anywhere from `i` on when none is reported. */
  lemma {:induction false} StartsFirst(lens: seq<nat>, i: nat)
    ensures var ps := Starts(lens, i);
      Free(lens, i, if |ps| > 0 then ps[0] else |lens|)
    decreases |lens| - i
  {
    if i < |lens| && lens[i] == 0 {
      StartsFirst(lens, i + 1);
    }
  }

  /**
   * The scan is leftmost: no match starts between the end of the `k`-th
   * reported match and the start of the next, or after the end of the last.
   */
  lemma {:induction false} StartsLeftmost(lens: seq<nat>, i: nat, k: nat)
    requires k < |Starts(lens, i)|
    ensures var ps := Starts(lens, i);
      Free(lens, ps[k] + lens[ps[k]], if k + 1 < |ps| then ps[k + 1] else |lens|)
    decreases |lens| - i
  {
    var ps := Starts(lens, i);
    if lens[i] > 0 {
      var rest := Starts(lens, i + lens[i]);
      assert ps == [i] + rest;
      if k == 0 {
        StartsFirst(lens, i + lens[i]);
      } else {
        StartsLeftmost(lens, i + lens[i], k - 1);
        assert ps[k] == rest[k - 1];
        assert k + 1 < |ps| ==> ps[k + 1] == rest[k];
      }
    } else {
      StartsLeftmost(lens, i + 1, k);
    }
  }

  /** The scan reports as many texts as starts. */
  lemma {:induction false} TextsLength(s: string, lens: seq<nat>, i: nat)
    requires |lens| == |s| && Fits(lens)
    ensures |Texts(s, lens, i)| == |Starts(lens, i)|
    decreases |lens| - i
  {
    if i < |lens| {
      if lens[i] > 0 {
        TextsLength(s, lens, i + lens[i]);
      } else {
        TextsLength(s, lens, i + 1);
      }
    }
  }

  /** The `k`-th reported text is the match at the `k`-th reported start. */
  lemma {:induction false} TextAt(s: string, lens: seq<nat>, i: nat, k: nat)
    requires |lens| == |s| && Fits(lens) && k < |Starts(lens, i)|
    ensures k < |Texts(s, lens, i)|
    ensures Texts(s, lens, i)[k] == s[Starts(lens, i)[k]..Starts(lens, i)[k] + lens[Starts(lens, i)[k]]]
    decreases |lens| - i
  {
    TextsLength(s, lens, i);
    if lens[i] > 0 {
      var e := i + lens[i];
      assert Starts(lens, i) == [i] + Starts(lens, e);
      assert Texts(s, lens, i) == [s[i..e]] + Texts(s, lens, e);
      if k > 0 {
        TextAt(s, lens, e, k - 1);
      }
    } else {
      TextAt(s, lens, i + 1, k);
    }
  }

  /** Every reported text is a match of the table, taken whole. */
  lemma TextIsMatch(s: string, lens: seq<nat>, k: nat) returns (p: nat)
    requires |lens| == |s| && Fits(lens) && k < |Texts(s, lens, 0)|
    ensures p < |lens| && lens[p] > 0 && Texts(s, lens, 0)[k] == s[p..p + lens[p]]
  {
    TextsLength(s, lens, 0);
    TextAt(s, lens, 0, k);
    p := Starts(lens, 0)[k];
  }
}
