/**
 * The employee directory's "find by role" query, shared by every version of
 * the program: keep the entries whose role equals the given one, in the order
 * they were added. It is stated once for any entry type and any role type.
 */
module Directory {

  /** The entries of `s` whose role is `r`, in their order in `s`. */
  function WithRole<E, R(==)>(s: seq<E>, roleOf: E -> R, r: R): (t: seq<E>)
    ensures |t| <= |s|
    ensures forall k :: 0 <= k < |t| ==> t[k] in s && roleOf(t[k]) == r
    ensures forall i :: 0 <= i < |s| && roleOf(s[i]) == r ==> s[i] in t
    decreases |s|
  {
    if s == [] then []
    else
      var last := s[|s| - 1];
      WithRole(s[..|s| - 1], roleOf, r) + (if roleOf(last) == r then [last] else [])
  }

  /** The positions in `s` of the entries whose role is `r`, in increasing order. */
  function Positions<E, R(==)>(s: seq<E>, roleOf: E -> R, r: R): (p: seq<nat>)
    ensures |p| == |WithRole(s, roleOf, r)|
    ensures forall k :: 0 <= k < |p| ==> p[k] < |s|
    decreases |s|
  {
    if s == [] then []
    else
      var n := |s| - 1;
      Positions(s[..n], roleOf, r) + (if roleOf(s[n]) == r then [n] else [])
  }

  /** The k-th entry `WithRole` keeps is the entry at the k-th matching position. */
  lemma {:induction false} WithRoleAtPositions<E, R>(s: seq<E>, roleOf: E -> R, r: R)
    ensures forall k :: 0 <= k < |Positions(s, roleOf, r)| ==>
              s[Positions(s, roleOf, r)[k]] == WithRole(s, roleOf, r)[k]
    decreases |s|
  {
    if s != [] {
      var n := |s| - 1;
      var front := s[..n];
      WithRoleAtPositions(front, roleOf, r);
      var pf, wf := Positions(front, roleOf, r), WithRole(front, roleOf, r);
      var p, w := Positions(s, roleOf, r), WithRole(s, roleOf, r);
      assert forall k :: 0 <= k < |pf| ==> p[k] == pf[k] && w[k] == wf[k] && s[pf[k]] == front[pf[k]];
    }
  }

  /** The matching positions strictly increase: `WithRole` keeps insertion order. */
  lemma {:induction false} PositionsIncrease<E, R>(s: seq<E>, roleOf: E -> R, r: R)
    ensures forall k, l :: 0 <= k < l < |Positions(s, roleOf, r)| ==>
              Positions(s, roleOf, r)[k] < Positions(s, roleOf, r)[l]
    decreases |s|
  {
    if s != [] {
      var n := |s| - 1;
      PositionsIncrease(s[..n], roleOf, r);
      var pf := Positions(s[..n], roleOf, r);
      assert forall k :: 0 <= k < |pf| ==> Positions(s, roleOf, r)[k] == pf[k];
    }
  }

  /** The matching positions are exactly those of the entries that have the role. */
  lemma {:induction false} PositionsExact<E, R>(s: seq<E>, roleOf: E -> R, r: R)
    ensures forall i :: 0 <= i < |s| ==> (i in Positions(s, roleOf, r) <==> roleOf(s[i]) == r)
    decreases |s|
  {
    if s != [] {
      var n := |s| - 1;
      var front := s[..n];
      PositionsExact(front, roleOf, r);
      var pf := Positions(front, roleOf, r);
      var extra := if roleOf(s[n]) == r then [n] else [];
      assert Positions(s, roleOf, r) == pf + extra;
      forall i | 0 <= i < |s|
        ensures i in Positions(s, roleOf, r) <==> roleOf(s[i]) == r
      {
        if i < n {
          assert s[i] == front[i];
          assert i !in extra;
        } else {
          assert n !in pf;
        }
      }
    }
  }

  /**
   * The whole "find by role" promise in one place: `WithRole(s)` is `s` read
   * at the positions `p`, where `p` strictly increases and holds exactly the
   * indices of the entries that have the role.
   */
  lemma WithRoleInOrder<E, R>(s: seq<E>, roleOf: E -> R, r: R)
    ensures var p, t := Positions(s, roleOf, r), WithRole(s, roleOf, r);
      && |p| == |t|
      && (forall k :: 0 <= k < |p| ==> p[k] < |s| && s[p[k]] == t[k])
      && (forall k, l :: 0 <= k < l < |p| ==> p[k] < p[l])
      && (forall i :: 0 <= i < |s| ==> (i in p <==> roleOf(s[i]) == r))
  {
    WithRoleAtPositions(s, roleOf, r);
    PositionsIncrease(s, roleOf, r);
    PositionsExact(s, roleOf, r);
  }

  /** Filtering distributes over concatenation: entries added later come later. */
  lemma {:induction false} WithRoleConcat<E, R>(s: seq<E>, t: seq<E>, roleOf: E -> R, r: R)
    ensures WithRole(s + t, roleOf, r) == WithRole(s, roleOf, r) + WithRole(t, roleOf, r)
    decreases |t|
  {
    if t == [] {
      assert s + t == s;
    } else {
      var n := |t| - 1;
      assert (s + t)[..|s + t| - 1] == s + t[..n];
      WithRoleConcat(s, t[..n], roleOf, r);
    }
  }

  /** Appending one entry extends the result only when the entry has the role. */
  lemma WithRoleAppend<E, R>(s: seq<E>, e: E, roleOf: E -> R, r: R)
    ensures WithRole(s + [e], roleOf, r) ==
              WithRole(s, roleOf, r) + (if roleOf(e) == r then [e] else [])
  {
    assert (s + [e])[..|s|] == s;
  }

  /** Filtering twice by the same role changes nothing. */
  lemma {:induction false} WithRoleIdempotent<E, R>(s: seq<E>, roleOf: E -> R, r: R)
    ensures WithRole(WithRole(s, roleOf, r), roleOf, r) == WithRole(s, roleOf, r)
    decreases |s|
  {
    if s != [] {
      var n := |s| - 1;
      var kept := if roleOf(s[n]) == r then [s[n]] else [];
      WithRoleIdempotent(s[..n], roleOf, r);
      WithRoleConcat(WithRole(s[..n], roleOf, r), kept, roleOf, r);
      if kept != [] {
        WithRoleAppend([], s[n], roleOf, r);
        assert [] + [s[n]] == [s[n]];
      }
    }
  }
}
