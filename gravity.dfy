/** The pairwise acceleration pass of one simulation step, as a function of
    the bodies before the pass: every body gains the pull of every other body,
    each ordered pair contributing once, and nothing but `a` changes.

    The sums are written over an arbitrary pairwise law `pull`; the pass the
    program runs uses `PullLaw(trig)`, that is `Body::accel_towards`. */
module Gravity {
  import opened Vectors
  import opened Bodies

  /** The law the pass applies to each ordered pair (`self`, `other`). */
  function PullLaw(trig: Trig): (Body, Body) -> Vec2 {
    (self: Body, other: Body) => AccelTowards(trig, self, other)
  }

  /** Sum of the pulls on body `k` from bodies `0 .. m-1`, body `k` itself
      excluded, added in ascending index order. */
  function NetPull(pull: (Body, Body) -> Vec2, bs: seq<Body>, k: nat, m: nat): Vec2
    requires k < |bs| && m <= |bs|
  {
    if m == 0 then Zero
    else Add(NetPull(pull, bs, k, m - 1), if m - 1 == k then Zero else pull(bs[k], bs[m - 1]))
  }

  /** The bodies after the accumulation pass: each `a` has grown by the net
      pull of all the other bodies. */
  function Accumulated(pull: (Body, Body) -> Vec2, bs: seq<Body>): seq<Body> {
    seq(|bs|, k requires 0 <= k < |bs| => bs[k].(a := Add(bs[k].a, NetPull(pull, bs, k, |bs|))))
  }

  /** One more term of the sum for body `k`: the pull towards body `m`. */
  lemma NetPullStep(trig: Trig, bs: seq<Body>, k: nat, m: nat)
    requires k < |bs| && m < |bs| && m != k
    ensures NetPull(PullLaw(trig), bs, k, m + 1)
         == Add(NetPull(PullLaw(trig), bs, k, m), AccelTowards(trig, bs[k], bs[m]))
  {
  }

  /** Skipping body `k` itself adds nothing to its sum. */
  lemma NetPullSkipsSelf(pull: (Body, Body) -> Vec2, bs: seq<Body>, k: nat)
    requires k < |bs|
    ensures NetPull(pull, bs, k, k + 1) == NetPull(pull, bs, k, k)
  {
  }

  /** The pass keeps the length and order of the bodies, and their mass,
      position, velocity and colour. */
  lemma AccumulatedWritesOnlyAccel(pull: (Body, Body) -> Vec2, bs: seq<Body>)
    ensures |Accumulated(pull, bs)| == |bs|
    ensures forall k :: 0 <= k < |bs| ==>
              var b := Accumulated(pull, bs)[k];
              b.mass == bs[k].mass && b.pos == bs[k].pos && b.v == bs[k].v && b.color == bs[k].color
  {
  }

  /** The pull on a body depends only on the masses and positions of the
      bodies: not on any acceleration, velocity or colour. */
  lemma {:induction false} NetPullReadsOnlyMassAndPos(trig: Trig, bs: seq<Body>, cs: seq<Body>, k: nat, m: nat)
    requires |bs| == |cs| && k < |bs| && m <= |bs|
    requires forall j :: 0 <= j < |bs| ==> bs[j].pos == cs[j].pos && bs[j].mass == cs[j].mass
    ensures NetPull(PullLaw(trig), bs, k, m) == NetPull(PullLaw(trig), cs, k, m)
  {
    if m > 0 {
      NetPullReadsOnlyMassAndPos(trig, bs, cs, k, m - 1);
      AccelReadsOnly(trig, bs[k], bs[m - 1], cs[k], cs[m - 1]);
    }
  }

  /** With fewer than two bodies nothing pulls on anything. */
  lemma FewerThanTwoAddsNothing(pull: (Body, Body) -> Vec2, bs: seq<Body>)
    requires |bs| < 2
    ensures Accumulated(pull, bs) == bs
  {
    var r := Accumulated(pull, bs);
    forall k | 0 <= k < |bs| ensures r[k] == bs[k] {
      assert k == 0;
      assert NetPull(pull, bs, 0, 1) == Zero;
    }
  }

  /** Action and reaction: the mass-weighted pulls of `p` and `q` on each
      other cancel. */
  ghost predicate Reciprocal(pull: (Body, Body) -> Vec2, p: Body, q: Body) {
    Scale(p.mass, pull(p, q)) == Neg(Scale(q.mass, pull(q, p)))
  }

  ghost predicate AllReciprocal(pull: (Body, Body) -> Vec2, bs: seq<Body>) {
    forall j, k {:trigger Reciprocal(pull, bs[j], bs[k])} ::
      0 <= j < |bs| && 0 <= k < |bs| ==> Reciprocal(pull, bs[j], bs[k])
  }

  /** `OppositeHeadings` for every pair of bodies. */
  ghost predicate AllOpposite(trig: Trig, bs: seq<Body>) {
    forall j, k {:trigger OppositeHeadings(trig, bs[j], bs[k])} ::
      0 <= j < |bs| && 0 <= k < |bs| ==> OppositeHeadings(trig, bs[j], bs[k])
  }

  /** The program's law is reciprocal on every pair once the platform's
      headings in opposite directions are opposite. */
  lemma OppositeHeadingsMakeLawReciprocal(trig: Trig, bs: seq<Body>)
    requires AllOpposite(trig, bs)
    ensures AllReciprocal(PullLaw(trig), bs)
  {
    forall j, k | 0 <= j < |bs| && 0 <= k < |bs|
      ensures Reciprocal(PullLaw(trig), bs[j], bs[k])
    {
      assert OppositeHeadings(trig, bs[j], bs[k]);
      NewtonThird(trig, bs[j], bs[k]);
    }
  }

  /** Mass-weighted sum of the pulls on bodies `0 .. upto-1`, each from bodies
      `0 .. m-1`. */
  function WeightedPull(pull: (Body, Body) -> Vec2, bs: seq<Body>, m: nat, upto: nat): Vec2
    requires m <= |bs| && upto <= |bs|
  {
    if upto == 0 then Zero
    else Add(WeightedPull(pull, bs, m, upto - 1), Scale(bs[upto - 1].mass, NetPull(pull, bs, upto - 1, m)))
  }

  /** Mass-weighted sum of the pulls of bodies `0 .. upto-1` towards body `m`. */
  function PullsTowards(pull: (Body, Body) -> Vec2, bs: seq<Body>, m: nat, upto: nat): Vec2
    requires m < |bs| && upto <= |bs|
  {
    if upto == 0 then Zero
    else Add(PullsTowards(pull, bs, m, upto - 1), Scale(bs[upto - 1].mass, pull(bs[upto - 1], bs[m])))
  }

  /** Letting body `m` pull as well adds, to the bodies before it, exactly
      their pulls towards `m`. */
  lemma {:induction false} WeightedPullGrows(pull: (Body, Body) -> Vec2, bs: seq<Body>, m: nat, upto: nat)
    requires m < |bs| && upto <= m
    ensures WeightedPull(pull, bs, m + 1, upto) == Add(WeightedPull(pull, bs, m, upto), PullsTowards(pull, bs, m, upto))
  {
    if upto > 0 {
      var u := upto - 1;
      var c := bs[u].mass;
      var np, acc := NetPull(pull, bs, u, m), pull(bs[u], bs[m]);
      calc {
        WeightedPull(pull, bs, m + 1, upto);
        Add(WeightedPull(pull, bs, m + 1, u), Scale(c, NetPull(pull, bs, u, m + 1)));
        { WeightedPullGrows(pull, bs, m, u); }
        Add(Add(WeightedPull(pull, bs, m, u), PullsTowards(pull, bs, m, u)), Scale(c, Add(np, acc)));
        { ScaleDistributes(c, np, acc); }
        Add(Add(WeightedPull(pull, bs, m, u), PullsTowards(pull, bs, m, u)), Add(Scale(c, np), Scale(c, acc)));
        { AddInterchange(WeightedPull(pull, bs, m, u), PullsTowards(pull, bs, m, u), Scale(c, np), Scale(c, acc)); }
        Add(Add(WeightedPull(pull, bs, m, u), Scale(c, np)), Add(PullsTowards(pull, bs, m, u), Scale(c, acc)));
        Add(WeightedPull(pull, bs, m, upto), PullsTowards(pull, bs, m, upto));
      }
    }
  }

  /** Action and reaction summed over one row: the mass-weighted pull on body
      `m` from the bodies before it cancels their pulls towards `m`. */
  lemma {:induction false} RowCancels(pull: (Body, Body) -> Vec2, bs: seq<Body>, m: nat, upto: nat)
    requires m < |bs| && upto <= m
    requires AllReciprocal(pull, bs)
    ensures Scale(bs[m].mass, NetPull(pull, bs, m, upto)) == Neg(PullsTowards(pull, bs, m, upto))
  {
    if upto > 0 {
      var u := upto - 1;
      RowCancels(pull, bs, m, u);
      assert Reciprocal(pull, bs[m], bs[u]);
      CancelStep(bs[m].mass, NetPull(pull, bs, m, u), pull(bs[m], bs[u]),
                 PullsTowards(pull, bs, m, u), Scale(bs[u].mass, pull(bs[u], bs[m])));
    } else {
      ScaleZero(bs[m].mass);
    }
  }

  lemma CancelStep(c: real, np: Vec2, acc: Vec2, pt: Vec2, back: Vec2)
    requires Scale(c, np) == Neg(pt) && Scale(c, acc) == Neg(back)
    ensures Scale(c, Add(np, acc)) == Neg(Add(pt, back))
  {
    ScaleDistributes(c, np, acc);
  }

  /** For a reciprocal law, the mass-weighted pulls among bodies `0 .. m-1`
      sum to zero. */
  lemma {:induction false} ReciprocalPullsBalance(pull: (Body, Body) -> Vec2, bs: seq<Body>, m: nat)
    requires m <= |bs|
    requires AllReciprocal(pull, bs)
    ensures WeightedPull(pull, bs, m, m) == Zero
  {
    if m > 0 {
      var n := m - 1;
      var across := PullsTowards(pull, bs, n, n);
      calc {
        WeightedPull(pull, bs, m, m);
        Add(WeightedPull(pull, bs, m, n), Scale(bs[n].mass, NetPull(pull, bs, n, m)));
        { NetPullSkipsSelf(pull, bs, n); }
        Add(WeightedPull(pull, bs, m, n), Scale(bs[n].mass, NetPull(pull, bs, n, n)));
        { WeightedPullGrows(pull, bs, n, n); RowCancels(pull, bs, n, n); }
        Add(Add(WeightedPull(pull, bs, n, n), across), Neg(across));
        { ReciprocalPullsBalance(pull, bs, n); }
        Add(Add(Zero, across), Neg(across));
        Zero;
      }
    }
  }

  /** Momentum balance of the pass: when the platform's headings in opposite
      directions are opposite, the mass-weighted accelerations the pass adds
      sum to zero, so it creates no net momentum. */
  lemma MomentumBalance(trig: Trig, bs: seq<Body>)
    requires AllOpposite(trig, bs)
    ensures WeightedPull(PullLaw(trig), bs, |bs|, |bs|) == Zero
  {
    OppositeHeadingsMakeLawReciprocal(trig, bs);
    ReciprocalPullsBalance(PullLaw(trig), bs, |bs|);
  }

  /** Mass-weighted sum of the accelerations of bodies `0 .. upto-1`. */
  function Momentum(bs: seq<Body>, upto: nat): Vec2
    requires upto <= |bs|
  {
    if upto == 0 then Zero
    else Add(Momentum(bs, upto - 1), Scale(bs[upto - 1].mass, bs[upto - 1].a))
  }

  /** Over the first `upto` bodies, the pass adds to the mass-weighted
      accelerations exactly the mass-weighted pulls. */
  lemma {:induction false} MomentumGrowsByPull(pull: (Body, Body) -> Vec2, bs: seq<Body>, upto: nat)
    requires upto <= |bs|
    ensures Momentum(Accumulated(pull, bs), upto)
         == Add(Momentum(bs, upto), WeightedPull(pull, bs, |bs|, upto))
  {
    if upto > 0 {
      var u := upto - 1;
      var acc := Accumulated(pull, bs);
      var c, a, np := bs[u].mass, bs[u].a, NetPull(pull, bs, u, |bs|);
      assert acc[u].mass == c && acc[u].a == Add(a, np);
      calc {
        Momentum(acc, upto);
        Add(Momentum(acc, u), Scale(c, Add(a, np)));
        { MomentumGrowsByPull(pull, bs, u); ScaleDistributes(c, a, np); }
        Add(Add(Momentum(bs, u), WeightedPull(pull, bs, |bs|, u)), Add(Scale(c, a), Scale(c, np)));
        { AddInterchange(Momentum(bs, u), WeightedPull(pull, bs, |bs|, u), Scale(c, a), Scale(c, np)); }
        Add(Momentum(bs, upto), WeightedPull(pull, bs, |bs|, upto));
      }
    }
  }

  /** The pass conserves momentum: under the heading hypothesis, the
      mass-weighted sum of the accelerations after the pass equals the one
      before it. */
  lemma PassConservesMomentum(trig: Trig, bs: seq<Body>)
    requires AllOpposite(trig, bs)
    ensures Momentum(Accumulated(PullLaw(trig), bs), |bs|) == Momentum(bs, |bs|)
  {
    MomentumGrowsByPull(PullLaw(trig), bs, |bs|);
    MomentumBalance(trig, bs);
  }
}
