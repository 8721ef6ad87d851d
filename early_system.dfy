/**
  The earlier revision end to end: the records its generator lays out, handed to the
  earlier Body.init, give every body an orbit whose point at phase 0 is the body's own
  starting position, and whose first focus, ellipseCenter + foci[0], is the system's
  centered center of mass.
*/
module EarlySystem {
  import opened Common
  import opened Geometry
  import opened Records
  import opened Layout
  import opened EarlyGenerator
  import opened EarlyOrbit

  /** At phase 0 the orbit init sets up from d passes through d's position. */
  ghost predicate StartsOnOrbit(m: Maths, d: BodyData) {
    OrbitPoint(m, d.ellipseCenter, d.orbitTilt, m.magnitude(d.ellipseCenter.Sub(d.position)), d.eccentricity, 0.0)
      == d.position
  }

  /** A record that shares the focus com and is tilted around com starts on its orbit. */
  lemma RecordStartsOnOrbit(m: Maths, d: BodyData, com: Vec)
    requires Valid(m)
    requires SharesFocus(m, d, com)
    requires d.orbitTilt == Tilt(m, d.position, com)
    ensures StartsOnOrbit(m, d)
  {
    ApsisIsPosition(m, d, com);
    PhaseZeroIsApsis(m, d.ellipseCenter, d.orbitTilt, m.magnitude(d.ellipseCenter.Sub(d.position)), d.eccentricity);
  }

  /**
    A body in the state init leaves it in for such a record: computeFixedOrbitPosition(0)
    is the body's current position.
  */
  lemma InitStartsOnOrbit(m: Maths, body: Body, d: BodyData, com: Vec)
    requires Valid(m)
    requires SharesFocus(m, d, com)
    requires d.orbitTilt == Tilt(m, d.position, com)
    requires body.position == d.position && body.ellipseCenter == d.ellipseCenter
    requires body.orbitTilt == d.orbitTilt && body.eccentricity == d.eccentricity
    requires body.apsidesRadius == m.magnitude(body.ellipseCenter.Sub(body.position))
    ensures body.ComputeFixedOrbitPosition(m, 0.0) == body.position
  {
    RecordStartsOnOrbit(m, d, com);
  }

  /**
    For such a record, the focus init keeps relative to the center, foci[0] =
    rotate(orbitTilt, -(e R, 0)) with R = |center - position|, lands on com.
  */
  lemma InitFocusIsCenterOfMass(m: Maths, d: BodyData, com: Vec)
    requires Valid(m)
    requires SharesFocus(m, d, com)
    requires d.orbitTilt == Tilt(m, d.position, com)
    ensures var r := m.magnitude(d.ellipseCenter.Sub(d.position));
      d.ellipseCenter.Add(OppositeFocus(m, d.orbitTilt, d.eccentricity, r)) == com
  {
    var p, c, e, tilt := d.position, d.ellipseCenter, d.eccentricity, d.orbitTilt;
    var r := m.magnitude(c.Sub(p));
    var u := m.rotate(tilt, Right);
    ApsisIsPosition(m, d, com);
    SharedFocus(m, p, com, e);
    OppositeFocusAlongTilt(m, tilt, e, r);
    FocusOppositeApsis(c, p, com, u, r, e);
  }

  /** If p = c + r u and c - com = -e (c - p), then com = c - (e r) u: the focus opposite the apsis. */
  lemma FocusOppositeApsis(c: Vec, p: Vec, com: Vec, u: Vec, r: real, e: real)
    requires c.Add(u.Scale(r)) == p
    requires c.Sub(com) == c.Sub(p).Scale(-e)
    ensures c.Add(u.Scale(-(e * r))) == com
  {
    assert c.Sub(p) == Vec(-(u.x * r), -(u.y * r));
    assert com.x == c.x - (u.x * r) * e;
    assert com.y == c.y - (u.y * r) * e;
  }

  /** Every body of a laid-out system starts on its orbit and has com as its first focus. */
  lemma EarlyLaidOutBodiesStartOnOrbit(m: Maths, s: Settings, worldSize: Vec, radii: seq<real>, massDraws: seq<real>,
                                       us: seq<Vec>, eccentricityDraws: seq<real>)
    requires Inputs(m, s, radii, massDraws, eccentricityDraws)
    requires |us| == |radii|
    requires 0.0 <= s.maxEccentricity
    ensures var bodies := EarlyLaidOut(m, s, worldSize, radii, massDraws, us, eccentricityDraws);
      var c := CenteredCenterOfMass(s, worldSize, radii, massDraws, us);
      forall i :: 0 <= i < |bodies| ==>
        && StartsOnOrbit(m, bodies[i])
        && var r := m.magnitude(bodies[i].ellipseCenter.Sub(bodies[i].position));
           bodies[i].ellipseCenter.Add(OppositeFocus(m, bodies[i].orbitTilt, bodies[i].eccentricity, r)) == c
  {
    var bodies := EarlyLaidOut(m, s, worldSize, radii, massDraws, us, eccentricityDraws);
    var c := CenteredCenterOfMass(s, worldSize, radii, massDraws, us);
    EarlyLaidOutSharedFocus(m, s, worldSize, radii, massDraws, us, eccentricityDraws);
    EarlyLaidOutTilts(m, s, worldSize, radii, massDraws, us, eccentricityDraws);
    forall i | 0 <= i < |bodies|
      ensures && StartsOnOrbit(m, bodies[i])
              && var r := m.magnitude(bodies[i].ellipseCenter.Sub(bodies[i].position));
                 bodies[i].ellipseCenter.Add(OppositeFocus(m, bodies[i].orbitTilt, bodies[i].eccentricity, r)) == c
    {
      RecordStartsOnOrbit(m, bodies[i], c);
      InitFocusIsCenterOfMass(m, bodies[i], c);
    }
  }
}
