/**
  The later revision end to end: the records the generator lays out, handed to
  Body.Init, give every body an orbit whose first focus (foci[0]) is exactly the
  system's centered center of mass, and whose point at phase 0 is the body's own
  starting position.
*/
module System {
  import opened Geometry
  import opened Records
  import opened Layout
  import opened Generator
  import opened Orbit

  /**
    For a record whose ellipse center was placed by the shared-focus rule, the focus
    Init stores in foci[0], center - normalized(position - center) * (e * a), is the
    center of mass itself.
  */
  lemma InitFocusIsCenterOfMass(m: Maths, d: BodyData, com: Vec)
    requires Valid(m)
    requires SharesFocus(m, d, com)
    ensures d.ellipseCenter.Sub(FocusOffset(m, d.ellipseCenter, d.position, d.eccentricity)) == com
  {
    var p, e, ec := d.position, d.eccentricity, d.ellipseCenter;
    FociSymmetric(m, ec, p, e);
    FocusOfPlacedCenter(p, com, e);
  }

  /** With center = p + (com - p) / (1 + e), the point center - (p - center) * e is com. */
  lemma FocusOfPlacedCenter(p: Vec, com: Vec, e: real)
    requires 0.0 <= e
    ensures var center := p.Add(com.Sub(p).Scale(1.0 / (1.0 + e)));
      center.Sub(p.Sub(center).Scale(e)) == com
  {
    var k := 1.0 / (1.0 + e);
    assert k * (1.0 + e) == 1.0;
    var center := p.Add(com.Sub(p).Scale(k));
    var q := center.Sub(p.Sub(center).Scale(e));
    assert q.x == p.x + (com.x - p.x) * (k * (1.0 + e));
    assert q.y == p.y + (com.y - p.y) * (k * (1.0 + e));
  }

  /**
    Every body of a laid-out system, initialised from its record, has the system's
    centered center of mass as its foci[0]: all the orbits share that focus.
  */
  lemma LaidOutOrbitsShareFocus(m: Maths, s: Settings, worldSize: Vec, radii: seq<real>, massDraws: seq<real>,
                                us: seq<Vec>, eccentricityDraws: seq<real>, closest: int)
    requires Inputs(m, s, radii, massDraws, eccentricityDraws)
    requires |us| == |radii| && (|radii| == 0 || 0 <= closest < |radii|)
    requires 0.0 <= s.maxEccentricity
    ensures var bodies := LaidOut(m, s, worldSize, radii, massDraws, us, eccentricityDraws, closest);
      var c := CenteredCenterOfMass(s, worldSize, radii, massDraws, us);
      forall i :: 0 <= i < |bodies| ==>
        bodies[i].ellipseCenter.Sub(FocusOffset(m, bodies[i].ellipseCenter, bodies[i].position, bodies[i].eccentricity)) == c
  {
    var bodies := LaidOut(m, s, worldSize, radii, massDraws, us, eccentricityDraws, closest);
    var c := CenteredCenterOfMass(s, worldSize, radii, massDraws, us);
    LaidOutSharedFocus(m, s, worldSize, radii, massDraws, us, eccentricityDraws, closest);
    forall i | 0 <= i < |bodies|
      ensures bodies[i].ellipseCenter.Sub(FocusOffset(m, bodies[i].ellipseCenter, bodies[i].position, bodies[i].eccentricity)) == c
    {
      InitFocusIsCenterOfMass(m, bodies[i], c);
    }
  }

  /** At phase 0 the orbit Init sets up from d passes through d's position, whatever the semi-minor axis. */
  ghost predicate StartsOnOrbit(m: Maths, d: BodyData) {
    forall b :: OrbitPoint(m, d.ellipseCenter, d.orbitTilt, m.magnitude(d.ellipseCenter.Sub(d.position)), b, 0.0)
                == d.position
  }

  /** A record that shares the focus com and is tilted around com starts on its orbit. */
  lemma RecordStartsOnOrbit(m: Maths, d: BodyData, com: Vec)
    requires Valid(m)
    requires SharesFocus(m, d, com)
    requires d.orbitTilt == Tilt(m, d.position, com)
    ensures StartsOnOrbit(m, d)
  {
    var a := m.magnitude(d.ellipseCenter.Sub(d.position));
    ApsisIsPosition(m, d, com);
    forall b
      ensures OrbitPoint(m, d.ellipseCenter, d.orbitTilt, a, b, 0.0) == d.position
    {
      PhaseZeroIsApsis(m, d.ellipseCenter, d.orbitTilt, a, b);
    }
  }

  /**
    A body in the state Init leaves it in for such a record (the record's position,
    ellipse center and tilt, and semiMajorAxis = |ellipseCenter - position|):
    computeFixedOrbitPosition(0) is the body's current position, so the first frame
    that wraps the phase back to 0 puts the body where it started.
  */
  lemma InitStartsOnOrbit(m: Maths, body: Body, d: BodyData, com: Vec)
    requires Valid(m)
    requires SharesFocus(m, d, com)
    requires d.orbitTilt == Tilt(m, d.position, com)
    requires body.position == d.position && body.ellipseCenter == d.ellipseCenter
    requires body.orbitTilt == d.orbitTilt
    requires body.semiMajorAxis == m.magnitude(body.ellipseCenter.Sub(body.position))
    ensures body.ComputeFixedOrbitPosition(m, 0.0) == body.position
  {
    RecordStartsOnOrbit(m, d, com);
    assert OrbitPoint(m, d.ellipseCenter, d.orbitTilt, body.semiMajorAxis, body.semiMinorAxis, 0.0) == d.position;
  }

  /** Every body of a laid-out system starts on its orbit. */
  lemma LaidOutBodiesStartOnOrbit(m: Maths, s: Settings, worldSize: Vec, radii: seq<real>, massDraws: seq<real>,
                                  us: seq<Vec>, eccentricityDraws: seq<real>, closest: int)
    requires Inputs(m, s, radii, massDraws, eccentricityDraws)
    requires |us| == |radii| && (|radii| == 0 || 0 <= closest < |radii|)
    requires 0.0 <= s.maxEccentricity
    ensures var bodies := LaidOut(m, s, worldSize, radii, massDraws, us, eccentricityDraws, closest);
      forall i :: 0 <= i < |bodies| ==> StartsOnOrbit(m, bodies[i])
  {
    var bodies := LaidOut(m, s, worldSize, radii, massDraws, us, eccentricityDraws, closest);
    var c := CenteredCenterOfMass(s, worldSize, radii, massDraws, us);
    LaidOutSharedFocus(m, s, worldSize, radii, massDraws, us, eccentricityDraws, closest);
    LaidOutTilts(m, s, worldSize, radii, massDraws, us, eccentricityDraws, closest);
    forall i | 0 <= i < |bodies|
      ensures StartsOnOrbit(m, bodies[i])
    {
      RecordStartsOnOrbit(m, bodies[i], c);
    }
  }
}
