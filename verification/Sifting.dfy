/**
 * Sifting: a sequence that shows some elements of another, in their order. Which are shown, and how each
 * looks, are parameters; the positions they come from are a witness.
 */
module Sifting {

  /** Positions below `n`, in strictly increasing order. */
  ghost predicate Ascending(from: seq<nat>, n: nat) {
    && (forall i :: 0 <= i < |from| ==> from[i] < n)
    && (forall i, j :: 0 <= i < j < |from| ==> from[i] < from[j])
  }

  /** `ys` shows, in order, the elements of `xs` that pass `keep`, each as `like` says, from positions `from`. */
  ghost predicate Sifts<X, Y>(xs: seq<X>, ys: seq<Y>, keep: X -> bool, like: (Y, X) -> bool, from: seq<nat>) {
    && Ascending(from, |xs|) && |from| == |ys|
    && (forall i :: 0 <= i < |ys| ==> like(ys[i], xs[from[i]]))
    && (forall p: nat :: p < |xs| ==> (p in from <==> keep(xs[p])))
  }

  /** The same, wherever the elements shown come from. */
  ghost predicate IsSift<X, Y>(xs: seq<X>, ys: seq<Y>, keep: X -> bool, like: (Y, X) -> bool) {
    exists from :: Sifts(xs, ys, keep, like, from)
  }

  /** The positions moved up by `d`. */
  function Shifted(from: seq<nat>, d: nat): (r: seq<nat>)
    ensures |r| == |from| && forall i :: 0 <= i < |from| ==> r[i] == from[i] + d
  {
    if from == [] then [] else [from[0] + d] + Shifted(from[1..], d)
  }

  lemma {:induction false} ShiftedHas(from: seq<nat>, d: nat, q: nat)
    ensures q in Shifted(from, d) <==> q >= d && q - d in from
  {
    var shifted := Shifted(from, d);
    if q in shifted {
      var i :| 0 <= i < |shifted| && shifted[i] == q;
      assert from[i] == q - d;
    }
    if q >= d && q - d in from {
      var i :| 0 <= i < |from| && from[i] == q - d;
      assert shifted[i] == q;
    }
  }

  lemma {:induction false} ShiftedMembers(from: seq<nat>, d: nat)
    ensures forall q: nat :: q in Shifted(from, d) <==> q >= d && q - d in from
  {
    forall q: nat ensures q in Shifted(from, d) <==> q >= d && q - d in from {
      ShiftedHas(from, d, q);
    }
  }

  /** The positions in a whole of what is at `a` in its first `n` elements and at `b` in those that follow. */
  function Joined(a: seq<nat>, n: nat, b: seq<nat>): seq<nat> {
    a + Shifted(b, n)
  }

  lemma {:induction false} JoinedHas(a: seq<nat>, n: nat, b: seq<nat>, p: nat)
    requires Ascending(a, n)
    ensures p in Joined(a, n, b) <==> if p < n then p in a else p - n in b
  {
    ShiftedHas(b, n, p);
    assert p in Joined(a, n, b) <==> p in a || p in Shifted(b, n);
  }

  lemma {:induction false} JoinedAscends(a: seq<nat>, n: nat, b: seq<nat>, m: nat)
    requires Ascending(a, n) && Ascending(b, m)
    ensures Ascending(Joined(a, n, b), n + m)
  {
  }

  lemma {:induction false} JoinedMembers(a: seq<nat>, n: nat, b: seq<nat>, m: nat)
    requires Ascending(a, n) && Ascending(b, m)
    ensures Ascending(Joined(a, n, b), n + m)
    ensures forall p: nat :: p in Joined(a, n, b) <==> if p < n then p in a else p - n in b
  {
    JoinedAscends(a, n, b, m);
    forall p: nat ensures p in Joined(a, n, b) <==> if p < n then p in a else p - n in b {
      JoinedHas(a, n, b, p);
    }
  }

  lemma {:induction false} ConcatLooks<X, Y>(
    a: seq<X>, b: seq<X>, c: seq<Y>, d: seq<Y>, keep: X -> bool, like: (Y, X) -> bool, f: seq<nat>, g: seq<nat>, i: nat)
    requires Sifts(a, c, keep, like, f) && Sifts(b, d, keep, like, g) && i < |c + d|
    ensures |Joined(f, |a|, g)| == |c + d| && Joined(f, |a|, g)[i] < |a + b|
    ensures like((c + d)[i], (a + b)[Joined(f, |a|, g)[i]])
  {
    if i < |c| {
      assert (a + b)[f[i]] == a[f[i]];
    } else {
      assert (a + b)[|a| + g[i - |c|]] == b[g[i - |c|]];
    }
  }

  lemma {:induction false} ConcatKeeps<X, Y>(
    a: seq<X>, b: seq<X>, c: seq<Y>, d: seq<Y>, keep: X -> bool, like: (Y, X) -> bool, f: seq<nat>, g: seq<nat>, p: nat)
    requires Sifts(a, c, keep, like, f) && Sifts(b, d, keep, like, g) && p < |a + b|
    ensures p in Joined(f, |a|, g) <==> keep((a + b)[p])
  {
    JoinedHas(f, |a|, g, p);
    if p < |a| {
      assert p in f <==> keep(a[p]);
    } else {
      assert p - |a| in g <==> keep(b[p - |a|]);
    }
  }

  /** Sifting a whole is sifting its parts. */
  lemma {:induction false} SiftConcat<X, Y>(
    a: seq<X>, b: seq<X>, c: seq<Y>, d: seq<Y>, keep: X -> bool, like: (Y, X) -> bool, f: seq<nat>, g: seq<nat>)
    requires Sifts(a, c, keep, like, f) && Sifts(b, d, keep, like, g)
    ensures Sifts(a + b, c + d, keep, like, Joined(f, |a|, g))
  {
    hide Joined;
    var h := Joined(f, |a|, g);
    JoinedAscends(f, |a|, g, |b|);
    assert |h| == |c + d| by { JoinedLength(f, |a|, g); }
    forall i | 0 <= i < |c + d| ensures like((c + d)[i], (a + b)[h[i]]) {
      ConcatLooks(a, b, c, d, keep, like, f, g, i);
    }
    forall p: nat | p < |a + b| ensures p in h <==> keep((a + b)[p]) {
      ConcatKeeps(a, b, c, d, keep, like, f, g, p);
    }
  }

  lemma JoinedAt(a: seq<nat>, n: nat, b: seq<nat>, i: nat)
    requires i < |a| + |b|
    ensures |Joined(a, n, b)| == |a| + |b|
    ensures Joined(a, n, b)[i] == if i < |a| then a[i] else b[i - |a|] + n
  {
  }

  lemma JoinedLength(a: seq<nat>, n: nat, b: seq<nat>)
    ensures |Joined(a, n, b)| == |a| + |b|
  {
  }

  lemma SiftOne<X, Y>(x: X, ys: seq<Y>, keep: X -> bool, like: (Y, X) -> bool)
    requires if keep(x) then |ys| == 1 && like(ys[0], x) else ys == []
    ensures Sifts([x], ys, keep, like, if keep(x) then [0] else [])
  {
  }

  lemma SiftNone<X, Y>(keep: X -> bool, like: (Y, X) -> bool)
    ensures Sifts<X, Y>([], [], keep, like, [])
  {
  }

  /** One element and a sift of the others. */
  lemma {:induction false} SiftHead<X, Y>(
    xs: seq<X>, ys: seq<Y>, rest: seq<Y>, keep: X -> bool, like: (Y, X) -> bool, from: seq<nat>)
    returns (all: seq<nat>)
    requires xs != [] && Sifts(xs[1..], rest, keep, like, from)
    requires if keep(xs[0]) then ys != [] && ys == [ys[0]] + rest && like(ys[0], xs[0]) else ys == rest
    ensures Sifts(xs, ys, keep, like, all)
  {
    hide Sifts;
    var head := if keep(xs[0]) then [ys[0]] else [];
    SiftOne(xs[0], head, keep, like);
    var first := if keep(xs[0]) then [0] else [];
    SiftConcat([xs[0]], xs[1..], head, rest, keep, like, first, from);
    all := Joined(first, 1, from);
    assert xs == [xs[0]] + xs[1..] && ys == head + rest;
  }

  /** A sift of all elements but the last, and that one. */
  lemma {:induction false} SiftLast<X, Y>(
    xs: seq<X>, ys: seq<Y>, front: seq<Y>, keep: X -> bool, like: (Y, X) -> bool, from: seq<nat>)
    returns (all: seq<nat>)
    requires xs != [] && Sifts(xs[..|xs| - 1], front, keep, like, from)
    requires if keep(xs[|xs| - 1]) then
               |ys| == |front| + 1 && ys == front + [ys[|front|]] && like(ys[|front|], xs[|xs| - 1])
             else ys == front
    ensures Sifts(xs, ys, keep, like, all)
  {
    hide Sifts;
    var n := |xs| - 1;
    var tail := if keep(xs[n]) then [ys[|front|]] else [];
    SiftOne(xs[n], tail, keep, like);
    var last := if keep(xs[n]) then [0] else [];
    SiftConcat(xs[..n], [xs[n]], front, tail, keep, like, from, last);
    all := Joined(from, n, last);
    assert xs == xs[..n] + [xs[n]] && ys == front + tail;
  }

  /** Shown by the same order of positions: what is shown later comes from later. */
  lemma {:induction false} AscendingShows<X, Y>(
    xs: seq<X>, ys: seq<Y>, keep: X -> bool, like: (Y, X) -> bool, from: seq<nat>, p: nat) returns (i: nat)
    requires Sifts(xs, ys, keep, like, from) && p < |xs| && keep(xs[p])
    ensures i < |ys| && from[i] == p && like(ys[i], xs[p])
  {
    assert p in from;
    i :| i < |from| && from[i] == p;
  }

  /** Sifting what was sifted is sifting once, for what passes both. */
  lemma {:induction false} SiftTwice<X, Y, Z>(
    xs: seq<X>, ys: seq<Y>, zs: seq<Z>, keep1: X -> bool, like1: (Y, X) -> bool, f: seq<nat>,
    keep2: Y -> bool, like2: (Z, Y) -> bool, g: seq<nat>, keep: X -> bool, like: (Z, X) -> bool)
    returns (h: seq<nat>)
    requires Sifts(xs, ys, keep1, like1, f) && Sifts(ys, zs, keep2, like2, g)
    requires forall p :: 0 <= p < |xs| ==> keep(xs[p]) ==> keep1(xs[p])
    requires forall i :: 0 <= i < |ys| ==> (keep2(ys[i]) <==> keep(xs[f[i]]))
    requires forall i :: 0 <= i < |zs| ==> like(zs[i], xs[f[g[i]]])
    ensures Sifts(xs, zs, keep, like, h)
    ensures |h| == |g| && forall i :: 0 <= i < |g| ==> h[i] == f[g[i]]
  {
    h := seq(|g|, i requires 0 <= i < |g| => f[g[i]]);
    forall j | 0 <= j < |h| ensures keep(xs[h[j]]) {
      assert g[j] in g;
    }
    forall p: nat | p < |xs| && keep(xs[p]) ensures p in h {
      var j := ShownTwice(xs, ys, zs, keep1, like1, f, keep2, like2, g, keep, p);
      assert h[j] == p;
    }
  }

  lemma {:induction false} ShownTwice<X, Y, Z>(
    xs: seq<X>, ys: seq<Y>, zs: seq<Z>, keep1: X -> bool, like1: (Y, X) -> bool, f: seq<nat>,
    keep2: Y -> bool, like2: (Z, Y) -> bool, g: seq<nat>, keep: X -> bool, p: nat)
    returns (j: nat)
    requires Sifts(xs, ys, keep1, like1, f) && Sifts(ys, zs, keep2, like2, g)
    requires forall i :: 0 <= i < |ys| ==> (keep2(ys[i]) <==> keep(xs[f[i]]))
    requires p < |xs| && keep(xs[p]) && keep1(xs[p])
    ensures j < |g| && g[j] < |f| && f[g[j]] == p
  {
    var i := AscendingShows(xs, ys, keep1, like1, f, p);
    j := AscendingShows(ys, zs, keep2, like2, g, i);
  }
}
