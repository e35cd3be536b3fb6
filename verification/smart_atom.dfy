/**
 * The Smart Atom stages of the mesh pipeline (src/smartAtom.ts): a sparse
 * signature derived from the message text, and the linear part of the route
 * score computed from it. Numbers are exact: integers are `int`, the score
 * arithmetic is `real`.
 */
module SmartAtom {
  import opened Wrappers

  /** The sparse signature: feature positions and their elevations. */
  datatype SparseSig = SparseSig(positions: seq<int>, elevations: seq<int>)

  /** Optional scoring inputs; an absent field takes its default. */
  datatype RouteContext = RouteContext(reputation: Option<real>, tau: Option<real>, m: Option<real>)

  /** The scoring inputs once every default has been applied. */
  datatype ScoreParams = ScoreParams(reputation: real, tau: real, m: real)

  /** The context used when the caller passes none. */
  const EmptyContext := RouteContext(None, None, None)

  /** The longest message length the signature looks at. */
  const MaxSigLength := 512

  function Min(a: int, b: int): (r: int) { if a <= b then a else b }

  function Max(a: int, b: int): (r: int) { if a >= b then a else b }

  /** `Math.max(lo, Math.min(hi, x))`: x pulled into [lo, hi]. */
  function Clamp(lo: int, hi: int, x: int): (r: int)
    requires lo <= hi
    ensures lo <= r <= hi
    ensures lo <= x <= hi ==> r == x
    ensures x < lo ==> r == lo
    ensures hi < x ==> r == hi
  {
    Max(lo, Min(hi, x))
  }

  /** First elevation for an (already clamped) length: `floor(len / 8)` clamped to [5, 30]. */
  function Elevation1(len: nat): (e: int) { Clamp(5, 30, len / 8) }

  /** Second elevation for an (already clamped) length: `floor(len / 4)` clamped to [10, 40]. */
  function Elevation2(len: nat): (e: int) { Clamp(10, 40, len / 4) }

  /**
   * The signature of a message. Only the message's length is used: it is
   * capped at 512, and the two elevations are clamped floor-quotients of it.
   */
  function SigFromMessage(msg: string): (sig: SparseSig)
    ensures sig.positions == [1, 2]
    ensures |sig.elevations| == |sig.positions| == 2
    ensures 5 <= sig.elevations[0] <= 30
    ensures 10 <= sig.elevations[1] <= 40
  {
    var len := Min(|msg|, MaxSigLength);
    SparseSig([1, 2], [Elevation1(len), Elevation2(len)])
  }

  /** The elevations `[e1, e2]` of a message of length `n`, written band by band. */
  function PiecewiseElevations(n: nat): (e: seq<int>)
  {
    [ if n < 48 then 5 else if n >= 240 then 30 else n / 8,
      if n < 40 then 10 else if n >= 160 then 40 else n / 4 ]
  }

  /** The signature agrees with the band-by-band description of its elevations. */
  lemma SigPiecewise(msg: string)
    ensures SigFromMessage(msg).elevations == PiecewiseElevations(|msg|)
  {
  }

  /** The 512 cap never matters: both elevations saturate long before it. */
  lemma SigIgnoresLengthCap(msg: string)
    ensures SigFromMessage(msg).elevations == [Elevation1(|msg|), Elevation2(|msg|)]
  {
  }

  /** The empty message gets the lower clamps. */
  lemma SigOfEmptyMessage()
    ensures SigFromMessage("") == SparseSig([1, 2], [5, 10])
  {
  }

  /** Every 50-character message gets elevations [6, 12]. */
  lemma SigOfLength50(msg: string)
    requires |msg| == 50
    ensures SigFromMessage(msg) == SparseSig([1, 2], [6, 12])
  {
  }

  /** Content is ignored: messages of equal length have equal signatures. */
  lemma SigDependsOnlyOnLength(a: string, b: string)
    requires |a| == |b|
    ensures SigFromMessage(a) == SigFromMessage(b)
  {
  }

  /** Every message of at least 240 characters reaches the upper clamps. */
  lemma SigSaturates(msg: string)
    requires |msg| >= 240
    ensures SigFromMessage(msg).elevations == [30, 40]
  {
  }

  /** Both elevations are monotone non-decreasing in the message length. */
  lemma SigMonotone(a: string, b: string)
    requires |a| <= |b|
    ensures SigFromMessage(a).elevations[0] <= SigFromMessage(b).elevations[0]
    ensures SigFromMessage(a).elevations[1] <= SigFromMessage(b).elevations[1]
  {
  }

  /** The sum of the elevations, as a left fold of addition starting from 0. */
  function Sum(s: seq<int>): (total: int)
    ensures (forall i :: 0 <= i < |s| ==> s[i] >= 0) ==> total >= 0
  {
    if s == [] then 0 else Sum(s[..|s| - 1]) + s[|s| - 1]
  }

  /** Summing a concatenation sums the parts. */
  lemma {:induction false} SumAppend(a: seq<int>, b: seq<int>)
    ensures Sum(a + b) == Sum(a) + Sum(b)
  {
    if b == [] {
      assert a + b == a;
    } else {
      var b' := b[..|b| - 1];
      assert (a + b)[..|a + b| - 1] == a + b';
      SumAppend(a, b');
    }
  }

  /** The sum is the first element plus the sum of the rest (a right fold gives the same). */
  lemma SumCons(x: int, s: seq<int>)
    ensures Sum([x] + s) == x + Sum(s)
  {
    SumAppend([x], s);
    assert [x][..0] == [];
  }

  /** Raising elevations position by position never lowers the sum. */
  lemma {:induction false} SumMonotone(a: seq<int>, b: seq<int>)
    requires |a| == |b|
    requires forall i :: 0 <= i < |a| ==> a[i] <= b[i]
    ensures Sum(a) <= Sum(b)
  {
    if a != [] {
      SumMonotone(a[..|a| - 1], b[..|b| - 1]);
    }
  }

  /** If every elevation lies in [lo, hi], the sum lies in [n*lo, n*hi]. */
  lemma {:induction false} SumBounds(s: seq<int>, lo: int, hi: int)
    requires forall i :: 0 <= i < |s| ==> lo <= s[i] <= hi
    ensures |s| * lo <= Sum(s) <= |s| * hi
  {
    if s != [] {
      var s' := s[..|s| - 1];
      SumBounds(s', lo, hi);
      assert |s| * lo == |s'| * lo + lo;
      assert |s| * hi == |s'| * hi + hi;
    }
  }

  /** The sum of no elevations is 0; a message's elevations sum to a value in [15, 70]. */
  lemma SigSumBounds(msg: string)
    ensures Sum([]) == 0
    ensures 15 <= Sum(SigFromMessage(msg).elevations) <= 70
  {
  }

  /** Applies the defaults: an absent reputation is 100, an absent tau 0.5, an absent m 10. */
  function Resolve(ctx: RouteContext): (p: ScoreParams)
    ensures ctx.reputation.Some? ==> p.reputation == ctx.reputation.value
    ensures ctx.reputation.None? ==> p.reputation == 100.0
    ensures ctx.tau.Some? ==> p.tau == ctx.tau.value
    ensures ctx.tau.None? ==> p.tau == 0.5
    ensures ctx.m.Some? ==> p.m == ctx.m.value
    ensures ctx.m.None? ==> p.m == 10.0
  {
    ScoreParams(ctx.reputation.GetOr(100.0), ctx.tau.GetOr(0.5), ctx.m.GetOr(10.0))
  }

  /**
   * `0.7 * elevationsSum * 0.01 + 0.3 * (reputation / 100)`: a 70/30 weighted
   * mix, so a sum and a reputation both in [0, 100] give a value in [0, 1].
   */
  function LinearScore(elevationsSum: int, reputation: real): (base: real)
    ensures 0 <= elevationsSum <= 100 && 0.0 <= reputation <= 100.0 ==> 0.0 <= base <= 1.0
  {
    0.7 * (elevationsSum as real) * 0.01 + 0.3 * (reputation / 100.0)
  }

  /** The pre-sigmoid score `base` of `computeRouteScore`. */
  function RouteBase(sig: SparseSig, ctx: RouteContext): (base: real)
    ensures (forall i :: 0 <= i < |sig.elevations| ==> sig.elevations[i] >= 0) && Resolve(ctx).reputation >= 0.0 ==> base >= 0.0
    ensures ctx.reputation.None? ==> base == 0.007 * Sum(sig.elevations) as real + 0.3
  {
    LinearScore(Sum(sig.elevations), Resolve(ctx).reputation)
  }

  /**
   * The returned route score: `squash` stands for the logistic step followed
   * by rounding to four decimals, applied to `m * (base - tau)`.
   */
  function RouteScore(sig: SparseSig, ctx: RouteContext, squash: real -> real): (score: real)
    ensures (forall x :: 0.0 <= squash(x) <= 1.0) ==> 0.0 <= score <= 1.0
  {
    var p := Resolve(ctx);
    squash(p.m * (RouteBase(sig, ctx) - p.tau))
  }

  /** Without a context every default applies, and `base` is 0.3 plus 0.007 per unit of elevation. */
  lemma EmptyContextDefaults(sig: SparseSig)
    ensures Resolve(EmptyContext) == ScoreParams(100.0, 0.5, 10.0)
    ensures RouteBase(sig, EmptyContext) == 0.007 * Sum(sig.elevations) as real + 0.3
  {
  }

  /** `base` is monotone non-decreasing in the elevation sum and in the reputation. */
  lemma LinearScoreMonotone(s1: int, s2: int, r1: real, r2: real)
    requires s1 <= s2 && r1 <= r2
    ensures LinearScore(s1, r1) <= LinearScore(s2, r2)
  {
  }

  /** Raising elevations (same context) never lowers `base`. */
  lemma RouteBaseMonotoneInElevations(a: SparseSig, b: SparseSig, ctx: RouteContext)
    requires |a.elevations| == |b.elevations|
    requires forall i :: 0 <= i < |a.elevations| ==> a.elevations[i] <= b.elevations[i]
    ensures RouteBase(a, ctx) <= RouteBase(b, ctx)
  {
    SumMonotone(a.elevations, b.elevations);
  }

  /** Raising the reputation (same signature) never lowers `base`. */
  lemma RouteBaseMonotoneInReputation(sig: SparseSig, r1: real, r2: real, tau: Option<real>, m: Option<real>)
    requires r1 <= r2
    ensures RouteBase(sig, RouteContext(Some(r1), tau, m)) <= RouteBase(sig, RouteContext(Some(r2), tau, m))
  {
  }

  /**
   * With a monotone squashing step and a non-negative steepness, the route
   * score itself is monotone in the elevation sum and in the reputation, for
   * signatures of any lengths.
   */
  lemma RouteScoreMonotone(a: SparseSig, b: SparseSig, r1: real, r2: real, tau: Option<real>, m: Option<real>, squash: real -> real)
    requires forall x, y :: x <= y ==> squash(x) <= squash(y)
    requires m.GetOr(10.0) >= 0.0
    requires r1 <= r2
    requires Sum(a.elevations) <= Sum(b.elevations)
    ensures RouteScore(a, RouteContext(Some(r1), tau, m), squash) <= RouteScore(b, RouteContext(Some(r2), tau, m), squash)
  {
    var c1, c2 := RouteContext(Some(r1), tau, m), RouteContext(Some(r2), tau, m);
    var p := Resolve(c1);
    LinearScoreMonotone(Sum(a.elevations), Sum(b.elevations), r1, r2);
    SquashStep(p.m, p.tau, RouteBase(a, c1), RouteBase(b, c2), squash);
  }

  /** Scaling by a non-negative factor preserves order. */
  lemma ScaleMonotone(c: real, x: real, y: real)
    requires c >= 0.0 && x <= y
    ensures c * x <= c * y
  {
    assert c * y - c * x == c * (y - x);
  }

  /** A monotone squashing step applied to `k * (base - tau)`, with k >= 0, is monotone in `base`. */
  lemma SquashStep(k: real, t: real, b1: real, b2: real, squash: real -> real)
    requires forall x, y :: x <= y ==> squash(x) <= squash(y)
    requires k >= 0.0 && b1 <= b2
    ensures squash(k * (b1 - t)) <= squash(k * (b2 - t))
  {
    ScaleMonotone(k, b1 - t, b2 - t);
  }

  /**
   * For any message, with a reputation in [0, 100], `base` lies in
   * [0.105, 0.79]; with the default reputation it lies in [0.405, 0.79].
   */
  lemma MessageBaseBounds(msg: string, ctx: RouteContext)
    requires 0.0 <= Resolve(ctx).reputation <= 100.0
    ensures 0.105 <= RouteBase(SigFromMessage(msg), ctx) <= 0.79
    ensures ctx.reputation.None? ==> 0.405 <= RouteBase(SigFromMessage(msg), ctx)
  {
    SigSumBounds(msg);
  }
}
