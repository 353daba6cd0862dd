/**
 * The string rewrites the URL cleaners use: `re.sub(t + '.*$', repl, u)`
 * for a literal `t`, and `str.replace`. `.` does not match a line feed and
 * `$` matches at the end or just before a final line feed.
 */
module Rewrite {
  import opened Wrappers
  import opened Text

  /** `.*$` matches from `q`: no line feed from `q` up to, not counting, the last character. */
  predicate ReachesEnd(u: string, q: nat) {
    forall k :: q <= k < |u| - 1 ==> u[k] != '\n'
  }

  /** What a `.*$` match starting at `q` leaves behind: the final line feed, if any. */
  function KeptTail(u: string, q: nat): string {
    if q < |u| && u[|u| - 1] == '\n' then "\n" else ""
  }

  /** The pattern `t.*$` matches at `i`. */
  predicate CutsAt(u: string, t: string, i: int) {
    MatchesAt(u, t, i) && ReachesEnd(u, i + |t|)
  }

  /** The leftmost position at or after `from` where `t.*$` matches. */
  function FirstCut(u: string, t: string, from: nat): (r: Option<nat>)
    ensures r.Some? ==> from <= r.value && CutsAt(u, t, r.value)
    ensures r.Some? ==> forall i :: from <= i < r.value ==> !CutsAt(u, t, i)
    ensures r.None? ==> forall i :: from <= i <= |u| ==> !CutsAt(u, t, i)
    decreases |u| + 1 - from
  {
    if from > |u| then None
    else if CutsAt(u, t, from) then Some(from)
    else FirstCut(u, t, from + 1)
  }

  /**
   * `re.sub(t + '.*$', repl, u)`: the first match runs to the end of `u`
   * (short of a final line feed), so there is at most one replacement. The
   * cleaners only pass the literals `:443]` and `[`, which are non-empty and
   * hold no line feed; for such a `t` the kept line feed cannot start a
   * second match.
   */
  function SubToEnd(u: string, t: string, repl: string): (r: string)
    ensures FirstCut(u, t, 0).None? ==> r == u
  {
    match FirstCut(u, t, 0)
    case None => u
    case Some(i) => u[..i] + repl + KeptTail(u, i + |t|)
  }

  /** Without line feeds, and with `repl` a prefix of `t`, the rewrite only cuts off a suffix. */
  lemma SubToEndPrefix(u: string, t: string, repl: string)
    requires '\n' !in u
    requires |repl| <= |t| && t[..|repl|] == repl
    ensures var r := SubToEnd(u, t, repl);
      |r| <= |u| && r == u[..|r|]
  {
    match FirstCut(u, t, 0)
    case None =>
    case Some(i) =>
      assert KeptTail(u, i + |t|) == "" by {
        if i + |t| < |u| {
          assert u[|u| - 1] in u;
        }
      }
      var r := u[..i] + repl;
      assert SubToEnd(u, t, repl) == r;
      assert u[i..i + |t|] == t;
      forall k | 0 <= k < |r| ensures r[k] == u[k] {
        if k >= i {
          assert r[k] == repl[k - i] == t[k - i];
          assert i <= k < i + |t| <= |u|;
          assert t[k - i] == u[i..i + |t|][k - i] == u[k];
        }
      }
      assert r == u[..|r|];
  }

  /** When the last character of `t` does not occur in `u`, there is nothing to rewrite. */
  lemma SubToEndAbsent(u: string, t: string, repl: string)
    requires |t| > 0 && t[|t| - 1] !in u
    ensures SubToEnd(u, t, repl) == u
  {
    forall i | 0 <= i <= |u| ensures !CutsAt(u, t, i) {
      if i + |t| <= |u| {
        assert u[i..i + |t|][|t| - 1] == u[i + |t| - 1];
        assert u[i + |t| - 1] in u;
      }
    }
  }

  /** Without line feeds, cutting at `[` leaves no `[` at all. */
  lemma SubToEndRemovesBracket(u: string)
    requires '\n' !in u
    ensures '[' !in SubToEnd(u, "[", "")
  {
    forall i | 0 <= i < |u| && u[i] == '['
      ensures CutsAt(u, "[", i)
    {
      assert u[i..i + 1] == "[";
      forall k | i + 1 <= k < |u| - 1 ensures u[k] != '\n' {
        assert u[k] in u;
      }
    }
    match FirstCut(u, "[", 0)
    case None =>
    case Some(i) =>
      assert KeptTail(u, i + 1) == "" by {
        if i + 1 < |u| {
          assert u[|u| - 1] in u;
        }
      }
      assert SubToEnd(u, "[", "") == u[..i];
  }

  /** The rewrite never puts `c` first when neither `u` nor `repl` starts with it. */
  lemma SubToEndHead(u: string, t: string, repl: string, c: char)
    requires |u| == 0 || u[0] != c
    requires |repl| == 0 || repl[0] != c
    requires c != '\n'
    ensures var r := SubToEnd(u, t, repl);
      |r| == 0 || r[0] != c
  {
  }

  /** Characters the rewrite can produce: those of `u` and of `repl`. */
  lemma SubToEndChars(u: string, t: string, repl: string, c: char)
    requires c !in u && c !in repl
    ensures c !in SubToEnd(u, t, repl)
  {
    match FirstCut(u, t, 0)
    case None =>
    case Some(i) =>
      assert c !in u[..i];
      assert c !in KeptTail(u, i + |t|) by {
        if i + |t| < |u| {
          assert u[|u| - 1] in u;
        }
      }
  }

  /** `s.replace(pat, repl)`: left to right, non-overlapping occurrences. */
  function Replace(s: string, pat: string, repl: string): (r: string)
    requires |pat| > 0
    ensures |repl| <= |pat| ==> |r| <= |s|
    ensures forall c :: c in r ==> c in s || c in repl
    decreases |s|
  {
    if |s| == 0 then ""
    else if MatchesAt(s, pat, 0) then repl + Replace(s[|pat|..], pat, repl)
    else [s[0]] + Replace(s[1..], pat, repl)
  }

  /** `replace` never puts `c` first when `s` does not start with it and `repl` is non-empty and does not either. */
  lemma ReplaceHead(s: string, pat: string, repl: string, c: char)
    requires |pat| > 0 && |repl| > 0 && repl[0] != c
    requires |s| == 0 || s[0] != c
    ensures var r := Replace(s, pat, repl);
      |r| == 0 || r[0] != c
  {
  }
}
