/**
  The earlier Body (Assets/Scripts/Body.cs): init stores its six arguments and the
  apsides radius R = |ellipseCenter - position|, and keeps the two foci relative to the
  center; the orbit point is ellipseCenter + R * rotate(orbitTilt, (cos theta, (1 - e) sin theta)).
*/
module EarlyOrbit {
  import opened Common
  import opened Geometry
  import opened Phase

  /** computeFixedOrbitVelocity: (cos theta, (1 - e) sin theta); the minor factor is 1 - e. */
  function Velocity(m: Maths, eccentricity: real, theta: real): Vec {
    Vec(m.cos(theta), (1.0 - eccentricity) * m.sin(theta))
  }

  /** computeFixedOrbitPosition: ellipseCenter + R * (rotate(orbitTilt, velocity)). */
  function OrbitPoint(m: Maths, ellipseCenter: Vec, orbitTilt: real, apsidesRadius: real,
                      eccentricity: real, theta: real): Vec {
    ellipseCenter.Add(m.rotate(orbitTilt, Velocity(m, eccentricity, theta)).Scale(apsidesRadius))
  }

  /** foci[1]: the vector (e R, 0) turned by the tilt. */
  function RelativeFocus(m: Maths, orbitTilt: real, eccentricity: real, apsidesRadius: real): Vec {
    m.rotate(orbitTilt, Vec(eccentricity * apsidesRadius, 0.0))
  }

  /** foci[0]: the negated vector -(e R, 0) turned by the tilt. */
  function OppositeFocus(m: Maths, orbitTilt: real, eccentricity: real, apsidesRadius: real): Vec {
    m.rotate(orbitTilt, Vec(eccentricity * apsidesRadius, 0.0).Scale(-1.0))
  }

  /** The two relative foci are negatives of each other, each of length |e R|. */
  lemma RelativeFociOpposite(m: Maths, orbitTilt: real, eccentricity: real, apsidesRadius: real)
    requires Valid(m)
    ensures OppositeFocus(m, orbitTilt, eccentricity, apsidesRadius)
         == RelativeFocus(m, orbitTilt, eccentricity, apsidesRadius).Scale(-1.0)
    ensures m.magnitude(RelativeFocus(m, orbitTilt, eccentricity, apsidesRadius)) == Abs(eccentricity * apsidesRadius)
    ensures m.magnitude(OppositeFocus(m, orbitTilt, eccentricity, apsidesRadius)) == Abs(eccentricity * apsidesRadius)
  {
    var c := eccentricity * apsidesRadius;
    var f := RelativeFocus(m, orbitTilt, eccentricity, apsidesRadius);
    RotatedAxisLength(m, orbitTilt, c);
    assert m.rotate(orbitTilt, Vec(c, 0.0).Scale(-1.0)) == m.rotate(orbitTilt, Vec(c, 0.0)).Scale(-1.0);
    assert m.magnitude(f.Scale(-1.0)) == Abs(-1.0) * m.magnitude(f);
  }

  /** foci[0] is the tilted x axis scaled by -e R. */
  lemma OppositeFocusAlongTilt(m: Maths, orbitTilt: real, eccentricity: real, apsidesRadius: real)
    requires Valid(m)
    ensures OppositeFocus(m, orbitTilt, eccentricity, apsidesRadius)
         == m.rotate(orbitTilt, Right).Scale(-(eccentricity * apsidesRadius))
  {
    var c := eccentricity * apsidesRadius;
    var k := -c;
    assert Vec(c, 0.0).Scale(-1.0) == Vec(k, 0.0) == Right.Scale(k);
    assert m.rotate(orbitTilt, Right.Scale(k)) == m.rotate(orbitTilt, Right).Scale(k);
  }

  /** The tilt only turns the velocity: the point is |R| * |velocity| away from the center. */
  lemma DistanceFromCenter(m: Maths, ellipseCenter: Vec, orbitTilt: real, apsidesRadius: real,
                           eccentricity: real, theta: real)
    requires Valid(m)
    ensures m.magnitude(OrbitPoint(m, ellipseCenter, orbitTilt, apsidesRadius, eccentricity, theta).Sub(ellipseCenter))
         == Abs(apsidesRadius) * m.magnitude(Velocity(m, eccentricity, theta))
  {
    var r := m.rotate(orbitTilt, Velocity(m, eccentricity, theta));
    assert OrbitPoint(m, ellipseCenter, orbitTilt, apsidesRadius, eccentricity, theta).Sub(ellipseCenter)
        == r.Scale(apsidesRadius);
    assert m.magnitude(r.Scale(apsidesRadius)) == Abs(apsidesRadius) * m.magnitude(r);
  }

  /** At phase 0 the velocity is right, so the point is center + R * rotate(orbitTilt, right). */
  lemma PhaseZeroIsApsis(m: Maths, ellipseCenter: Vec, orbitTilt: real, apsidesRadius: real, eccentricity: real)
    requires Valid(m)
    ensures OrbitPoint(m, ellipseCenter, orbitTilt, apsidesRadius, eccentricity, 0.0)
         == ellipseCenter.Add(m.rotate(orbitTilt, Right).Scale(apsidesRadius))
  {
    VelocityShape(m, eccentricity, 0.0);
  }

  /**
    The velocity keeps cos theta as its x part; its y part is sin theta shrunk by 1 - e,
    so e = 0 gives the unit circle point, 0 <= e <= 1 never lengthens it, and at phase 0
    it is right.
  */
  lemma VelocityShape(m: Maths, eccentricity: real, theta: real)
    ensures Velocity(m, eccentricity, theta).x == m.cos(theta)
    ensures eccentricity == 0.0 ==> Velocity(m, eccentricity, theta) == Vec(m.cos(theta), m.sin(theta))
    ensures 0.0 <= eccentricity <= 1.0 ==> Abs(Velocity(m, eccentricity, theta).y) <= Abs(m.sin(theta))
    ensures Valid(m) && theta == 0.0 ==> Velocity(m, eccentricity, theta) == Right
  {
    if 0.0 <= eccentricity <= 1.0 {
      var k, s := 1.0 - eccentricity, m.sin(theta);
      ScaleWithin(k, Abs(s));
      assert Abs(k * s) == Abs(k * Abs(s));
    }
  }

  /**
    With the minor factor 1 - e, the co-vertex of the untilted curve (cos = 0, sin = 1),
    R * (0, 1 - e), is not at distance R from the focus (e R, 0) when 0 < e < 1: the
    drawn curve is not the ellipse whose foci init stores. The squared distance falls short
    of R^2 by exactly 2 R^2 e (1 - e).
  */
  lemma FlattenedCoVertex(m: Maths, eccentricity: real, apsidesRadius: real, theta: real)
    requires 0.0 < eccentricity < 1.0 && 0.0 < apsidesRadius
    requires m.cos(theta) == 0.0 && m.sin(theta) == 1.0
    ensures var d := SquaredDistance(Velocity(m, eccentricity, theta).Scale(apsidesRadius),
                                     Vec(eccentricity * apsidesRadius, 0.0));
      && d == apsidesRadius * apsidesRadius
              - 2.0 * (apsidesRadius * apsidesRadius) * (eccentricity * (1.0 - eccentricity))
      && d < apsidesRadius * apsidesRadius
  {
    var e, r := eccentricity, apsidesRadius;
    var v := Velocity(m, e, theta).Scale(r);
    assert v == Vec(0.0, (1.0 - e) * r);
    var d := SquaredDistance(v, Vec(e * r, 0.0));
    assert d == (e * r) * (e * r) + ((1.0 - e) * r) * ((1.0 - e) * r);
    assert d == r * r - 2.0 * (r * r) * (e * (1.0 - e));
    MulPositive(e, 1.0 - e);
    MulPositive(r, r);
    MulPositive(r * r, e * (1.0 - e));
  }

  /** The same point with e = 1/2 and R = 1: the co-vertex is at squared distance 1/2, not 1, from the focus. */
  lemma HalfEccentricityCoVertex(m: Maths, theta: real)
    requires m.cos(theta) == 0.0 && m.sin(theta) == 1.0
    ensures SquaredDistance(Velocity(m, 0.5, theta).Scale(1.0), Vec(0.5, 0.0)) == 0.5
  {
    FlattenedCoVertex(m, 0.5, 1.0, theta);
  }

  /** Assets/Scripts/Body.cs: the orbit state of one body in the earlier revision. */
  class Body {
    var mass: real
    var orbitalSpeed: real
    var eccentricity: real
    /** Half the sprite's width, read once in Awake. */
    const radius: real
    var ellipseCenter: Vec
    /** The foci relative to the ellipse center. */
    var foci: array<Vec>
    var apsidesRadius: real
    var orbitTilt: real
    var angle: real
    /** transform.position */
    var position: Vec

    /** Instantiation and Awake: the radius is known, the orbit is not yet set. */
    constructor(radius: real)
      ensures this.radius == radius
      ensures angle == 0.0 && foci.Length == 0
    {
      this.radius := radius;
      mass, orbitalSpeed, eccentricity, apsidesRadius, orbitTilt, angle := 0.0, 0.0, 0.0, 0.0, 0.0, 0.0;
      ellipseCenter, position := Zero, Zero;
      foci := new Vec[0];
    }

    /** init(position, mass, orbitalSpeed, eccentricity, orbitTilt, ellipseCenter). */
    method Init(m: Maths, position: Vec, mass: real, orbitalSpeed: real, eccentricity: real,
                orbitTilt: real, ellipseCenter: Vec)
      modifies this
      ensures this.position == position && this.mass == mass
      ensures this.orbitalSpeed == orbitalSpeed && this.eccentricity == eccentricity
      ensures this.orbitTilt == orbitTilt && this.ellipseCenter == ellipseCenter
      ensures angle == 0.0
      ensures apsidesRadius == m.magnitude(ellipseCenter.Sub(position))
      ensures fresh(foci) && foci.Length == 2
      ensures foci[0] == OppositeFocus(m, orbitTilt, eccentricity, apsidesRadius)
      ensures foci[1] == RelativeFocus(m, orbitTilt, eccentricity, apsidesRadius)
    {
      var r := m.magnitude(ellipseCenter.Sub(position));
      var f := new Vec[] [OppositeFocus(m, orbitTilt, eccentricity, r), RelativeFocus(m, orbitTilt, eccentricity, r)];
      this.position := position;
      this.mass := mass;
      this.orbitalSpeed := orbitalSpeed;
      this.eccentricity := eccentricity;
      this.orbitTilt := orbitTilt;
      this.ellipseCenter := ellipseCenter;
      angle := 0.0;
      apsidesRadius := r;
      foci := f;
    }

    /** computeFixedOrbitVelocity(theta). */
    function ComputeFixedOrbitVelocity(m: Maths, theta: real): Vec
      reads this`eccentricity
    {
      Velocity(m, eccentricity, theta)
    }

    /** computeFixedOrbitPosition(theta): reads only the fixed orbit fields. */
    function ComputeFixedOrbitPosition(m: Maths, theta: real): Vec
      reads this`ellipseCenter, this`orbitTilt, this`apsidesRadius, this`eccentricity
    {
      OrbitPoint(m, ellipseCenter, orbitTilt, apsidesRadius, eccentricity, theta)
    }

    /** The phase stays within [0, 2 pi]. */
    ghost predicate PhaseInRange()
      reads this
    {
      0.0 <= angle <= TwoPi
    }

    /** updateFixedOrbitPosition, with deltaTime given. */
    method UpdateFixedOrbitPosition(m: Maths, deltaTime: real)
      modifies this`angle, this`position
      ensures angle == Advance(old(angle), orbitalSpeed * deltaTime)
      ensures position == ComputeFixedOrbitPosition(m, angle)
      ensures old(PhaseInRange()) && orbitalSpeed * deltaTime >= 0.0 ==> PhaseInRange()
    {
      angle := angle + orbitalSpeed * deltaTime;
      if angle > TwoPi {
        angle := 0.0;
      }
      position := ComputeFixedOrbitPosition(m, angle);
    }
  }
}
