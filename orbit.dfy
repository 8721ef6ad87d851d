/**
  The later Body (Scripts/Body.cs): Init derives the orbit's semi-major axis, its two
  foci and its semi-minor axis from a BodyData record; computeFixedOrbitPosition places
  the body on the tilted ellipse; updateFixedOrbitPosition advances the phase.
*/
module Orbit {
  import opened Common
  import opened Geometry
  import opened Records
  import opened Phase

  /** normalized(position - ellipseCenter) * (eccentricity * semiMajorAxis): the offset of each focus from the center. */
  function FocusOffset(m: Maths, ellipseCenter: Vec, position: Vec, eccentricity: real): Vec {
    m.normalized(position.Sub(ellipseCenter)).Scale(eccentricity * m.magnitude(ellipseCenter.Sub(position)))
  }

  /** sqrt(a^2 - c^2), with c the distance from the center to a focus. */
  function SemiMinorAxis(m: Maths, semiMajorAxis: real, focalDistance: real): real {
    m.sqrt(semiMajorAxis * semiMajorAxis - focalDistance * focalDistance)
  }

  /**
    The foci lie on the line through the center and the body, symmetric about the
    center, at distance |e| * a from it, foci[1] on the body's side.
  */
  lemma FociSymmetric(m: Maths, ellipseCenter: Vec, position: Vec, eccentricity: real)
    requires Valid(m)
    ensures var off := FocusOffset(m, ellipseCenter, position, eccentricity);
      var a := m.magnitude(ellipseCenter.Sub(position));
      && ellipseCenter.Sub(off).Add(ellipseCenter.Add(off)) == ellipseCenter.Scale(2.0)
      && ellipseCenter.Add(off) == ellipseCenter.Add(position.Sub(ellipseCenter).Scale(eccentricity))
      && ellipseCenter.Sub(off) == ellipseCenter.Sub(position.Sub(ellipseCenter).Scale(eccentricity))
      && m.magnitude(ellipseCenter.Sub(ellipseCenter.Sub(off))) == Abs(eccentricity) * a
      && m.magnitude(ellipseCenter.Add(off).Sub(ellipseCenter)) == Abs(eccentricity) * a
  {
    var d := position.Sub(ellipseCenter);
    var a := m.magnitude(ellipseCenter.Sub(position));
    var off := FocusOffset(m, ellipseCenter, position, eccentricity);
    MagnitudeSymmetric(m, ellipseCenter, position);
    assert a == m.magnitude(d);
    if d == Zero {
      MagnitudeOfZero(m);
      assert off == m.normalized(d).Scale(0.0);
      assert off == Zero;
    } else {
      NormalizedIsUnitDirection(m, d);
      var n := m.normalized(d);
      assert n.Scale(a) == d;
      assert off == d.Scale(eccentricity) by {
        assert n.x * a == d.x && n.y * a == d.y;
      }
    }
    assert ellipseCenter.Sub(ellipseCenter.Sub(off)) == off;
    assert ellipseCenter.Add(off).Sub(ellipseCenter) == off;
    assert off == d.Scale(eccentricity);
    assert m.magnitude(d.Scale(eccentricity)) == Abs(eccentricity) * m.magnitude(d);
  }

  /** b = sqrt(a^2 - (e a)^2) is a length with b^2 = a^2 (1 - e^2), so 0 <= b <= a when 0 <= e <= 1. */
  lemma SemiMinorAxisBounds(m: Maths, a: real, e: real)
    requires Valid(m)
    requires 0.0 <= a && 0.0 <= e <= 1.0
    ensures var b := SemiMinorAxis(m, a, e * a);
      && b * b == a * a * (1.0 - e * e)
      && 0.0 <= b <= a
  {
    var b := SemiMinorAxis(m, a, e * a);
    MulNonNegative(e, e);
    MulNonNegative(1.0 - e, 1.0 + e);
    var x := a * a - (e * a) * (e * a);
    assert x == a * a * (1.0 - e * e);
    MulNonNegative(a * a, 1.0 - e * e);
    assert 0.0 <= x;
    assert b * b == x;
    MulNonNegative(a * a, e * e);
    assert b * b <= a * a;
    SquareMonotone(b, a);
  }

  /** For non-negative reals, x^2 <= y^2 implies x <= y. */
  lemma SquareMonotone(x: real, y: real)
    requires 0.0 <= x && 0.0 <= y
    requires x * x <= y * y
    ensures x <= y
  {
    if x > y {
      MulPositive(x - y, x + y);
    }
  }

  /**
    With b = sqrt(a^2 - c^2), the point (0, b) of the unrotated ellipse (the co-vertex,
    where cos = 0 and sin = 1) is at distance a from the focus (c, 0), as on a true ellipse
    with semi-major axis a and foci (-c, 0) and (c, 0).
  */
  lemma CoVertexOnFocalCircle(m: Maths, a: real, e: real, theta: real)
    requires Valid(m)
    requires 0.0 <= a && 0.0 <= e <= 1.0
    requires m.cos(theta) == 0.0 && m.sin(theta) == 1.0
    ensures var b := SemiMinorAxis(m, a, e * a);
      SquaredDistance(EllipsePoint(m, a, b, theta), Vec(e * a, 0.0)) == a * a
  {
    SemiMinorAxisBounds(m, a, e);
  }

  lemma AddThenSub(c: Vec, r: Vec)
    ensures c.Add(r).Sub(c) == r
  {
  }

  /** The untilted point (a cos theta, b sin theta), relative to the ellipse center. */
  function EllipsePoint(m: Maths, a: real, b: real, theta: real): Vec {
    Vec(a * m.cos(theta), b * m.sin(theta))
  }

  /** ellipseCenter + R(orbitTilt) * (a cos theta, b sin theta). */
  function OrbitPoint(m: Maths, ellipseCenter: Vec, orbitTilt: real, a: real, b: real, theta: real): Vec {
    ellipseCenter.Add(m.rotate(orbitTilt, EllipsePoint(m, a, b, theta)))
  }

  /** The tilt only turns the point: its distance from the center is that of (a cos theta, b sin theta). */
  lemma DistanceFromCenter(m: Maths, ellipseCenter: Vec, orbitTilt: real, a: real, b: real, theta: real)
    requires Valid(m)
    ensures m.magnitude(OrbitPoint(m, ellipseCenter, orbitTilt, a, b, theta).Sub(ellipseCenter))
        == m.magnitude(EllipsePoint(m, a, b, theta))
  {
    AddThenSub(ellipseCenter, m.rotate(orbitTilt, EllipsePoint(m, a, b, theta)));
  }

  /** At phase 0 the point is the apsis on the tilted x axis: center + a * rotate(orbitTilt, right). */
  lemma PhaseZeroIsApsis(m: Maths, ellipseCenter: Vec, orbitTilt: real, a: real, b: real)
    requires Valid(m)
    ensures OrbitPoint(m, ellipseCenter, orbitTilt, a, b, 0.0) == ellipseCenter.Add(m.rotate(orbitTilt, Right).Scale(a))
  {
    assert EllipsePoint(m, a, b, 0.0) == Right.Scale(a);
  }

  /** At a phase where cos = 1 and sin = 0 the point is the apsis, a away from the center. */
  lemma ApsisAtSemiMajorAxis(m: Maths, ellipseCenter: Vec, orbitTilt: real, a: real, b: real, theta: real)
    requires Valid(m)
    requires 0.0 <= a
    requires m.cos(theta) == 1.0 && m.sin(theta) == 0.0
    ensures m.magnitude(OrbitPoint(m, ellipseCenter, orbitTilt, a, b, theta).Sub(ellipseCenter)) == a
  {
    DistanceFromCenter(m, ellipseCenter, orbitTilt, a, b, theta);
    assert EllipsePoint(m, a, b, theta) == Right.Scale(a);
    assert m.magnitude(Right.Scale(a)) == Abs(a) * m.magnitude(Right);
  }

  /** Scripts/Body.cs: the orbit state of one body. */
  class Body {
    var mass: real
    var orbitalSpeed: real
    var orbitTilt: real
    var eccentricity: real
    var ellipseCenter: Vec
    var centerOfMass: Vec
    /** The collider radius, read once in Awake. */
    const radius: real
    var foci: array<Vec>
    var apsidesLine: Vec
    var semiMajorAxis: real
    var semiMinorAxis: real
    var angle: real
    /** transform.position */
    var position: Vec

    /** Instantiation and Awake: the radius is known, the orbit is not yet set. */
    constructor(radius: real)
      ensures this.radius == radius
      ensures angle == 0.0 && foci.Length == 0
    {
      this.radius := radius;
      mass, orbitalSpeed, orbitTilt, eccentricity := 0.0, 0.0, 0.0, 0.0;
      ellipseCenter, centerOfMass, apsidesLine, position := Zero, Zero, Zero, Zero;
      semiMajorAxis, semiMinorAxis, angle := 0.0, 0.0, 0.0;
      foci := new Vec[0];
    }

    /**
      Init(bodyData). The record carries no center of mass, so it is a parameter here;
      the game object's name is not modelled.
    */
    method Init(m: Maths, bodyData: BodyData, centerOfMass: Vec)
      modifies this
      ensures position == bodyData.position && mass == bodyData.mass
      ensures orbitalSpeed == bodyData.orbitalSpeed && eccentricity == bodyData.eccentricity
      ensures orbitTilt == bodyData.orbitTilt && ellipseCenter == bodyData.ellipseCenter
      ensures this.centerOfMass == centerOfMass && angle == 0.0
      ensures semiMajorAxis == m.magnitude(ellipseCenter.Sub(position))
      ensures fresh(foci) && foci.Length == 2
      ensures foci[0] == ellipseCenter.Sub(FocusOffset(m, ellipseCenter, position, eccentricity))
      ensures foci[1] == ellipseCenter.Add(FocusOffset(m, ellipseCenter, position, eccentricity))
      ensures apsidesLine == m.normalized(ellipseCenter.Sub(position))
      ensures semiMinorAxis == SemiMinorAxis(m, semiMajorAxis, m.magnitude(ellipseCenter.Sub(foci[0])))
    {
      var p, ec, e := bodyData.position, bodyData.ellipseCenter, bodyData.eccentricity;
      var a := m.magnitude(ec.Sub(p));
      var f := NewFoci(m, ec, p, e);
      var b := SemiMinorAxis(m, a, m.magnitude(ec.Sub(f[0])));

      position := p;
      mass := bodyData.mass;
      orbitalSpeed := bodyData.orbitalSpeed;
      eccentricity := e;
      orbitTilt := bodyData.orbitTilt;
      ellipseCenter := ec;
      this.centerOfMass := centerOfMass;
      angle := 0.0;
      semiMajorAxis := a;
      foci := f;
      apsidesLine := m.normalized(ec.Sub(p));
      semiMinorAxis := b;
    }

    /** The two foci Init stores: ellipseCenter -/+ normalized(position - ellipseCenter) * (e * a). */
    static method NewFoci(m: Maths, ellipseCenter: Vec, position: Vec, eccentricity: real) returns (foci: array<Vec>)
      ensures fresh(foci) && foci.Length == 2
      ensures foci[0] == ellipseCenter.Sub(FocusOffset(m, ellipseCenter, position, eccentricity))
      ensures foci[1] == ellipseCenter.Add(FocusOffset(m, ellipseCenter, position, eccentricity))
      ensures foci[0].Add(foci[1]) == ellipseCenter.Scale(2.0)
    {
      var offset := FocusOffset(m, ellipseCenter, position, eccentricity);
      foci := new Vec[] [ellipseCenter.Sub(offset), ellipseCenter.Add(offset)];
    }

    /** computeFixedOrbitPosition: the point at phase theta of this body's tilted ellipse. */
    function ComputeFixedOrbitPosition(m: Maths, theta: real): Vec
      reads this`ellipseCenter, this`orbitTilt, this`semiMajorAxis, this`semiMinorAxis
    {
      OrbitPoint(m, ellipseCenter, orbitTilt, semiMajorAxis, semiMinorAxis, theta)
    }

    /** The phase stays within [0, 2 pi]. */
    ghost predicate PhaseInRange()
      reads this
    {
      0.0 <= angle <= TwoPi
    }

    /** updateFixedOrbitPosition, with deltaTime given. */
    method UpdateFixedOrbitPosition(m: Maths, deltaTime: real)
      modifies this`angle, this`position
      ensures angle == Advance(old(angle), orbitalSpeed * deltaTime)
      ensures position == ComputeFixedOrbitPosition(m, angle)
      ensures old(PhaseInRange()) && orbitalSpeed * deltaTime >= 0.0 ==> PhaseInRange()
    {
      angle := angle + orbitalSpeed * deltaTime;
      if angle > TwoPi {
        angle := 0.0;
      }
      position := ComputeFixedOrbitPosition(m, angle);
    }
  }

  /** For 0 <= e <= 1, the semi-minor axis Init computes lies between 0 and the semi-major axis. */
  lemma InitialisedOrbit(m: Maths, bodyData: BodyData)
    requires Valid(m)
    requires 0.0 <= bodyData.eccentricity <= 1.0
    ensures var a := m.magnitude(bodyData.ellipseCenter.Sub(bodyData.position));
      var off := FocusOffset(m, bodyData.ellipseCenter, bodyData.position, bodyData.eccentricity);
      var b := SemiMinorAxis(m, a, m.magnitude(bodyData.ellipseCenter.Sub(bodyData.ellipseCenter.Sub(off))));
      0.0 <= b <= a
  {
    var ec, p, e := bodyData.ellipseCenter, bodyData.position, bodyData.eccentricity;
    FociSymmetric(m, ec, p, e);
    var a := m.magnitude(ec.Sub(p));
    var off := FocusOffset(m, ec, p, e);
    assert m.magnitude(ec.Sub(ec.Sub(off))) == e * a;
    SemiMinorAxisBounds(m, a, e);
  }
}
