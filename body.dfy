/** A point mass and the gravitational pull it feels towards one other body.

    Positions are in metres on the global plane. The trigonometric functions
    the program borrows from the platform (`atan2`, `cos`, `sin` on `f32`) are
    passed in as a `Trig` record, so nothing is assumed about them unless a
    lemma asks for it explicitly. */
module Bodies {
  import opened Vectors

  /** An RGBA colour, each channel in the program's 0..1 convention. */
  datatype Color = Color(r: real, g: real, b: real, alpha: real)

  const White: Color := Color(1.0, 1.0, 1.0, 1.0)

  datatype Body = Body(mass: real, pos: Vec2, v: Vec2, a: Vec2, color: Color)

  /** The platform's `atan2(y, x)`, `cos` and `sin`, left uninterpreted. */
  datatype Trig = Trig(atan2: (real, real) -> real, cos: real -> real, sin: real -> real)

  /** The gravitational constant exactly as the program writes it (6.67e-11,
      not the more precise 6.674e-11). */
  const G: real := 6.67e-11

  /** Offset from `self` to `other`. */
  function Offset(self: Body, other: Body): Vec2 {
    Sub(other.pos, self.pos)
  }

  /** Angle of the offset from `self` to `other`, as the platform computes it. */
  function Heading(trig: Trig, self: Body, other: Body): real {
    trig.atan2(Offset(self, other).y, Offset(self, other).x)
  }

  /** Acceleration `self` feels towards `other`: `G * other.mass / r^2` along
      the heading, and exactly zero when the two positions coincide. */
  function AccelTowards(trig: Trig, self: Body, other: Body): (r: Vec2)
    ensures self.pos == other.pos ==> r == Zero
    ensures other.mass == 0.0 ==> r == Zero
  {
    var d := Offset(self, other);
    var rSquared := NormSq(d);
    if rSquared == 0.0 then Zero
    else
      var a := G * other.mass / rSquared;
      var theta := trig.atan2(d.y, d.x);
      Vec2(a * trig.cos(theta), a * trig.sin(theta))
  }

  /** Past the degenerate-distance guard (`r^2 != 0`), the two positions
      differ and the result is the scalar `G * other.mass / r^2` times the
      cosine and sine of the heading. */
  lemma AccelNonDegenerate(trig: Trig, self: Body, other: Body)
    requires NormSq(Offset(self, other)) != 0.0
    ensures self.pos != other.pos
    ensures AccelTowards(trig, self, other)
         == Scale(G * other.mass / NormSq(Offset(self, other)),
                  Vec2(trig.cos(Heading(trig, self, other)), trig.sin(Heading(trig, self, other))))
  {
  }

  /** The result reads only `self.pos`, `other.pos` and `other.mass`: bodies
      that agree on those get the same pull, whatever their own mass,
      velocity, acceleration and colour. */
  lemma AccelReadsOnly(trig: Trig, s1: Body, o1: Body, s2: Body, o2: Body)
    requires s1.pos == s2.pos && o1.pos == o2.pos && o1.mass == o2.mass
    ensures AccelTowards(trig, s1, o1) == AccelTowards(trig, s2, o2)
  {
  }

  /** Inverse-square law: when the platform's cosine and sine lie on the unit
      circle at the heading, the squared length of the pull is
      `(G * other.mass / r^2)^2`. */
  lemma InverseSquare(trig: Trig, self: Body, other: Body)
    requires NormSq(Offset(self, other)) != 0.0
    requires var t := Heading(trig, self, other); trig.cos(t) * trig.cos(t) + trig.sin(t) * trig.sin(t) == 1.0
    ensures var p := G * other.mass / NormSq(Offset(self, other));
            NormSq(AccelTowards(trig, self, other)) == p * p
  {
    AccelNonDegenerate(trig, self, other);
    var p := G * other.mass / NormSq(Offset(self, other));
    var t := Heading(trig, self, other);
    var c, s := trig.cos(t), trig.sin(t);
    calc {
      NormSq(AccelTowards(trig, self, other));
      (p * c) * (p * c) + (p * s) * (p * s);
      { assert (p * c) * (p * c) == (p * p) * (c * c);
        assert (p * s) * (p * s) == (p * p) * (s * s); }
      (p * p) * (c * c + s * s);
      p * p;
    }
  }

  /** The pull lies along the offset from `self` to `other` whenever the
      platform's cosine and sine of the heading do (true of the mathematical
      `atan2`, `cos` and `sin`). */
  lemma AccelAlongOffset(trig: Trig, self: Body, other: Body)
    requires var d, t := Offset(self, other), Heading(trig, self, other);
             trig.cos(t) * d.y == trig.sin(t) * d.x
    ensures var d, r := Offset(self, other), AccelTowards(trig, self, other);
            r.x * d.y == r.y * d.x
  {
    if NormSq(Offset(self, other)) != 0.0 {
      var d, t := Offset(self, other), Heading(trig, self, other);
      AccelNonDegenerate(trig, self, other);
      ScaledParallel(G * other.mass / NormSq(d), trig.cos(t), trig.sin(t), d.x, d.y);
    }
  }

  lemma ScaledParallel(a: real, c: real, s: real, dx: real, dy: real)
    requires c * dy == s * dx
    ensures (a * c) * dy == (a * s) * dx
  {
    assert (a * c) * dy == a * (c * dy);
    assert (a * s) * dx == a * (s * dx);
  }

  /** The pull is attractive: for distinct positions and a positive mass, and
      a heading whose cosine and sine point the way of the offset (true of the
      mathematical functions), the pull has a positive component towards
      `other`. */
  lemma AccelPointsTowardsOther(trig: Trig, self: Body, other: Body)
    requires NormSq(Offset(self, other)) > 0.0
    requires other.mass > 0.0
    requires var d, t := Offset(self, other), Heading(trig, self, other);
             trig.cos(t) * d.x + trig.sin(t) * d.y > 0.0
    ensures var d, r := Offset(self, other), AccelTowards(trig, self, other);
            r.x * d.x + r.y * d.y > 0.0
  {
    var d, t := Offset(self, other), Heading(trig, self, other);
    var r2 := NormSq(d);
    PositiveIsNonZero(r2);
    AccelNonDegenerate(trig, self, other);
    ProductPositive(G, other.mass);
    QuotientPositive(G * other.mass, r2);
    var a := G * other.mass / r2;
    var c, s := trig.cos(t), trig.sin(t);
    assert (a * c) * d.x + (a * s) * d.y == a * (c * d.x + s * d.y);
    ProductPositive(a, c * d.x + s * d.y);
  }

  lemma PositiveIsNonZero(x: real)
    requires x > 0.0
    ensures x != 0.0
  {
  }

  lemma ProductPositive(p: real, q: real)
    requires p > 0.0 && q > 0.0
    ensures p * q > 0.0
  {
  }

  lemma QuotientPositive(p: real, q: real)
    requires p > 0.0 && q > 0.0
    ensures p / q > 0.0
  {
  }

  /** The platform's `atan2` turns by half a circle when its arguments are
      negated: cosine and sine of the heading change sign. */
  ghost predicate ReflectsThroughOrigin(trig: Trig, dx: real, dy: real) {
    && trig.cos(trig.atan2(-dy, -dx)) == -trig.cos(trig.atan2(dy, dx))
    && trig.sin(trig.atan2(-dy, -dx)) == -trig.sin(trig.atan2(dy, dx))
  }

  /** `ReflectsThroughOrigin` at the offset between two bodies, wherever that
      offset is not zero (true of the mathematical `atan2`, `cos` and `sin`). */
  ghost predicate OppositeHeadings(trig: Trig, self: Body, other: Body) {
    self.pos != other.pos ==> ReflectsThroughOrigin(trig, other.pos.x - self.pos.x, other.pos.y - self.pos.y)
  }

  /** Newton's third law: when the platform's headings for the two directions
      are opposite, the mass-weighted pulls of two bodies on each other
      cancel exactly. */
  lemma NewtonThird(trig: Trig, p: Body, q: Body)
    requires OppositeHeadings(trig, p, q)
    ensures Scale(p.mass, AccelTowards(trig, p, q)) == Neg(Scale(q.mass, AccelTowards(trig, q, p)))
  {
    if NormSq(Offset(p, q)) != 0.0 {
      NewtonThirdApart(trig, p, q);
    } else {
      NewtonThirdCoincident(trig, p, q);
    }
  }

  lemma NewtonThirdApart(trig: Trig, p: Body, q: Body)
    requires NormSq(Offset(p, q)) != 0.0
    requires OppositeHeadings(trig, p, q)
    ensures Scale(p.mass, AccelTowards(trig, p, q)) == Neg(Scale(q.mass, AccelTowards(trig, q, p)))
  {
    var d := Vec2(trig.cos(Heading(trig, p, q)), trig.sin(Heading(trig, p, q)));
    AccelNonDegenerate(trig, p, q);
    AccelReversed(trig, p, q);
    MassWeightedPullsCancel(p.mass, q.mass, NormSq(Offset(p, q)), d);
  }

  lemma NewtonThirdCoincident(trig: Trig, p: Body, q: Body)
    requires NormSq(Offset(p, q)) == 0.0
    ensures Scale(p.mass, AccelTowards(trig, p, q)) == Neg(Scale(q.mass, AccelTowards(trig, q, p)))
  {
    DistanceSymmetric(p, q);
    assert AccelTowards(trig, p, q) == Zero;
    assert AccelTowards(trig, q, p) == Zero;
    ScaleZero(p.mass);
    ScaleZero(q.mass);
  }

  /** The squared distance is the same seen from either body. */
  lemma DistanceSymmetric(p: Body, q: Body)
    ensures NormSq(Offset(q, p)) == NormSq(Offset(p, q))
  {
    var dx, dy := q.pos.x - p.pos.x, q.pos.y - p.pos.y;
    assert (-dx) * (-dx) + (-dy) * (-dy) == dx * dx + dy * dy;
  }

  /** Seen from `other`, the offset is negated, its squared length is the
      same, and under `ReflectsThroughOrigin` the heading turns round. */
  lemma AccelReversed(trig: Trig, self: Body, other: Body)
    requires NormSq(Offset(self, other)) != 0.0
    requires OppositeHeadings(trig, self, other)
    ensures AccelTowards(trig, other, self)
         == Scale(G * self.mass / NormSq(Offset(self, other)),
                  Neg(Vec2(trig.cos(Heading(trig, self, other)), trig.sin(Heading(trig, self, other)))))
  {
    var dx, dy := other.pos.x - self.pos.x, other.pos.y - self.pos.y;
    var r2 := dx * dx + dy * dy;
    var r2' := (-dx) * (-dx) + (-dy) * (-dy);
    assert r2' == r2;
    assert G * self.mass / r2' == G * self.mass / r2;
    var t, t' := trig.atan2(dy, dx), trig.atan2(-dy, -dx);
    assert self.pos != other.pos;
    assert trig.cos(t') == -trig.cos(t) && trig.sin(t') == -trig.sin(t);
    assert AccelTowards(trig, other, self) == Vec2(G * self.mass / r2' * trig.cos(t'), G * self.mass / r2' * trig.sin(t'));
  }

  /** Newton's third law for the scalar parts, as a fact about reals. */
  lemma MassWeightedPullsCancel(pm: real, qm: real, r2: real, d: Vec2)
    requires r2 != 0.0
    ensures Scale(pm, Scale(G * qm / r2, d)) == Neg(Scale(qm, Scale(G * pm / r2, Neg(d))))
  {
    var k := G * (pm * qm) / r2;
    assert pm * (G * qm / r2) == k;
    assert qm * (G * pm / r2) == k;
    assert pm * (G * qm / r2 * d.x) == k * d.x;
    assert pm * (G * qm / r2 * d.y) == k * d.y;
    assert qm * (G * pm / r2 * -d.x) == -(k * d.x);
    assert qm * (G * pm / r2 * -d.y) == -(k * d.y);
  }
}
