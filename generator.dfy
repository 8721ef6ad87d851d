/**
  The later revision of NBodySystemGenerator.generate (Scripts/NBodySystemGenerator.cs):
  masses, the rejection-sampling loop, tilts, the body closest to the center of mass,
  centering, the eccentricity cap and the ellipse center of every body.
*/
module Generator {
  import opened Common
  import opened Geometry
  import opened Records
  import opened Layout

  /** |p - com|, the distance the closest-body search compares. */
  function Distance(m: Maths, p: Vec, com: Vec): real {
    m.magnitude(p.Sub(com))
  }

  /**
    k is the result of the closest-body search started at `bound`: when some body is
    strictly nearer than bound, the lowest index of minimal distance; otherwise 0.
  */
  predicate IsClosest(m: Maths, ps: seq<Vec>, com: Vec, bound: real, k: int) {
    if exists i :: 0 <= i < |ps| && Distance(m, ps[i], com) < bound then
      && 0 <= k < |ps|
      && Distance(m, ps[k], com) < bound
      && (forall i :: 0 <= i < |ps| ==> Distance(m, ps[k], com) <= Distance(m, ps[i], com))
      && (forall i :: 0 <= i < k ==> Distance(m, ps[k], com) < Distance(m, ps[i], com))
    else
      k == 0
  }

  /** The closest body is determined uniquely. */
  lemma ClosestIsUnique(m: Maths, ps: seq<Vec>, com: Vec, bound: real, k1: int, k2: int)
    requires IsClosest(m, ps, com, bound, k1) && IsClosest(m, ps, com, bound, k2)
    ensures k1 == k2
  {
  }

  /** The search loop: a strictly smaller distance replaces the current best. */
  method ClosestToCenterOfMass(m: Maths, positions: array<Vec>, com: Vec, bound: real)
    returns (closest: nat)
    ensures IsClosest(m, positions[..], com, bound, closest)
  {
    var ps := positions[..];
    var closestDistance := bound;
    closest := 0;
    for i := 0 to positions.Length
      invariant closestDistance <= bound
      invariant forall j :: 0 <= j < i ==> closestDistance <= Distance(m, ps[j], com)
      invariant if exists j :: 0 <= j < i && Distance(m, ps[j], com) < bound then
                  && closest < i
                  && closestDistance == Distance(m, ps[closest], com) < bound
                  && (forall j :: 0 <= j < closest ==> closestDistance < Distance(m, ps[j], com))
                else
                  closest == 0 && closestDistance == bound
    {
      if m.magnitude(positions[i].Sub(com)) < closestDistance {
        closestDistance := m.magnitude(positions[i].Sub(com));
        closest := i;
      }
    }
  }

  /**
    The eccentricity bound of body i: maxEccentricity for the closest body, otherwise
    the smaller of maxEccentricity and (r_i + r_closest) / |p_i - com|. A zero
    distance leaves maxEccentricity (a float division by zero gives an infinity or a
    NaN there, and the comparison with maxEccentricity then fails).
  */
  function EccentricityCap(m: Maths, maxEccentricity: real, radii: seq<real>, closest: int, i: int, apsidesLine: Vec): (cap: real)
    requires 0 <= closest < |radii| && 0 <= i < |radii|
    ensures cap <= maxEccentricity
    ensures cap == maxEccentricity
            || (i != closest && m.magnitude(apsidesLine) != 0.0
                && cap == (radii[i] + radii[closest]) / m.magnitude(apsidesLine) < maxEccentricity)
  {
    if i == closest || m.magnitude(apsidesLine) == 0.0 then maxEccentricity
    else Min(maxEccentricity, (radii[i] + radii[closest]) / m.magnitude(apsidesLine))
  }

  /** Non-negative radii: the cap never exceeds maxEccentricity and never drops below min(0, maxEccentricity). */
  lemma EccentricityCapBounds(m: Maths, maxEccentricity: real, radii: seq<real>, closest: int, i: int, apsidesLine: Vec)
    requires Valid(m)
    requires 0 <= closest < |radii| && 0 <= i < |radii|
    requires radii[i] >= 0.0 && radii[closest] >= 0.0
    ensures var cap := EccentricityCap(m, maxEccentricity, radii, closest, i, apsidesLine);
      && cap <= maxEccentricity
      && Min(0.0, maxEccentricity) <= cap
      && (i != closest && apsidesLine != Zero ==>
            cap <= (radii[i] + radii[closest]) / m.magnitude(apsidesLine))
  {
    var a := m.magnitude(apsidesLine);
    if i != closest && a != 0.0 {
      var x := (radii[i] + radii[closest]) / a;
      assert a > 0.0;
      assert x >= 0.0;
    }
  }

  /**
    The cap is maxEccentricity exactly for the closest body, a body on the center of mass,
    or a body far enough away; for every other body it is (r_i + r_closest) / |p_i - com|.
  */
  lemma EccentricityCapCases(m: Maths, maxEccentricity: real, radii: seq<real>, closest: int, i: int, apsidesLine: Vec)
    requires Valid(m)
    requires 0 <= closest < |radii| && 0 <= i < |radii|
    ensures EccentricityCap(m, maxEccentricity, radii, closest, i, apsidesLine) == maxEccentricity
            <==> i == closest || apsidesLine == Zero
                 || maxEccentricity <= (radii[i] + radii[closest]) / m.magnitude(apsidesLine)
    ensures i != closest && apsidesLine != Zero
            && (radii[i] + radii[closest]) / m.magnitude(apsidesLine) < maxEccentricity
            ==> EccentricityCap(m, maxEccentricity, radii, closest, i, apsidesLine)
                == (radii[i] + radii[closest]) / m.magnitude(apsidesLine)
  {
    if apsidesLine == Zero {
      MagnitudeOfZero(m);
    }
  }

  /** The record of body i, given its centered position p and the centered center of mass. */
  function BodyRecord(m: Maths, s: Settings, radii: seq<real>, closest: int, i: int,
                      p: Vec, com: Vec, mass: real, tilt: real, t: real): BodyData
    requires Valid(m)
    requires 0 <= closest < |radii| && 0 <= i < |radii|
    requires radii[i] >= 0.0 && radii[closest] >= 0.0
    requires -1.0 < s.maxEccentricity
    requires IsFraction(t)
  {
    var cap := EccentricityCap(m, s.maxEccentricity, radii, closest, i, p.Sub(com));
    EccentricityCapBounds(m, s.maxEccentricity, radii, closest, i, p.Sub(com));
    var e := RandomRange(0.0, cap, t);
    BodyData(p, mass, s.orbitalSpeed, e, tilt, EllipseCenter(m, p, com, e))
  }

  /**
    The final loop's body for body i: the capped eccentricity, computed as the source
    does as 1 - (1 - minPeriapsis / semiMajorAxis), then the ellipse center.
  */
  method PlaceBody(m: Maths, s: Settings, radii: seq<real>, closest: int, i: int,
                   p: Vec, com: Vec, mass: real, tilt: real, t: real) returns (d: BodyData)
    requires Valid(m)
    requires 0 <= closest < |radii| && 0 <= i < |radii|
    requires radii[i] >= 0.0 && radii[closest] >= 0.0
    requires -1.0 < s.maxEccentricity
    requires IsFraction(t)
    ensures d == BodyRecord(m, s, radii, closest, i, p, com, mass, tilt, t)
  {
    var apsidesLine := p.Sub(com);
    var newMaxEccentricity := s.maxEccentricity;
    if i != closest {
      var semiMajorAxis := m.magnitude(apsidesLine);
      var minPeriapsis := radii[i] + radii[closest];
      if semiMajorAxis != 0.0 {
        var max := 1.0 - (1.0 - (minPeriapsis / semiMajorAxis));
        if max < s.maxEccentricity {
          newMaxEccentricity := max;
        }
      }
    }
    EccentricityCapBounds(m, s.maxEccentricity, radii, closest, i, apsidesLine);
    var eccentricity := RandomRange(0.0, newMaxEccentricity, t);
    var center := p.Sub(m.normalized(apsidesLine).Scale(m.magnitude(apsidesLine) / (1.0 + eccentricity)));
    d := BodyData(p, mass, s.orbitalSpeed, eccentricity, tilt, center);
  }

  /** The records the generator returns once attempt us is accepted and `closest` is the closest body. */
  function LaidOut(m: Maths, s: Settings, worldSize: Vec, radii: seq<real>, massDraws: seq<real>,
                   us: seq<Vec>, eccentricityDraws: seq<real>, closest: int): (bodies: seq<BodyData>)
    requires Inputs(m, s, radii, massDraws, eccentricityDraws)
    requires |us| == |radii|
    requires |radii| == 0 || 0 <= closest < |radii|
    ensures |bodies| == |radii|
  {
    var raw := SampledPositions(worldSize, radii, us);
    var masses := Masses(s, massDraws);
    var com := CenterOfMass(raw, masses);
    var ps := CenteredPositions(worldSize, radii, us);
    var c := CenteredCenterOfMass(s, worldSize, radii, massDraws, us);
    seq(|radii|, i requires 0 <= i < |radii| =>
      BodyRecord(m, s, radii, closest, i, ps[i], c, masses[i], Tilt(m, raw[i], com), eccentricityDraws[i]))
  }

  /**
    The do-while: sample an attempt, test it, and go on while it is not apart. The
    supplied attempts stand for the successive random draws; apart is false only when
    every one of them was rejected.
  */
  method SampleUntilApart(m: Maths, s: Settings, worldSize: Vec, radii: seq<real>, attempts: seq<seq<Vec>>,
                          weights: array<real>, totalWeights: real, positions: array<Vec>)
    returns (apart: bool, tries: nat, barycenter: Vec, centerOfMass: Vec)
    requires positions.Length == weights.Length == |radii|
    requires forall t :: 0 <= t < |attempts| ==> |attempts[t]| == |radii|
    requires totalWeights == Sum(weights[..])
    modifies positions
    ensures tries <= |attempts|
    ensures apart ==> FirstAccepted(m, s, worldSize, radii, attempts, tries - 1)
    ensures !apart ==> tries == |attempts| && forall u :: 0 <= u < |attempts| ==> !Accepts(m, s, worldSize, radii, attempts[u])
    ensures 0 < tries ==>
      var raw := SampledPositions(worldSize, radii, attempts[tries - 1]);
      && positions[..] == raw
      && barycenter == Barycenter(raw)
      && centerOfMass == CenterOfMass(raw, weights[..])
  {
    apart := false;
    barycenter, centerOfMass := Zero, Zero;
    tries := 0;
    while !apart && tries < |attempts|
      invariant tries <= |attempts|
      invariant forall u :: 0 <= u < (if apart then tries - 1 else tries) ==>
                  !Accepts(m, s, worldSize, radii, attempts[u])
      invariant apart ==> 0 < tries && Accepts(m, s, worldSize, radii, attempts[tries - 1])
      invariant 0 < tries ==>
                  var raw := SampledPositions(worldSize, radii, attempts[tries - 1]);
                  && positions[..] == raw
                  && barycenter == Barycenter(raw)
                  && centerOfMass == CenterOfMass(raw, weights[..])
    {
      barycenter, centerOfMass := SampleAttempt(worldSize, radii, attempts[tries], weights, totalWeights, positions);
      apart := CheckApart(m, positions, radii, s.minDistanceBetweenPlanetsSurfaces);
      tries := tries + 1;
    }
  }

  /** The final loop: center every position, then cap, draw and place as PlaceBody does. */
  method PlaceBodies(m: Maths, s: Settings, radii: seq<real>, closest: int, eccentricityDraws: seq<real>,
                     positions: array<Vec>, barycenter: Vec, centerOfMass: Vec,
                     masses: array<real>, orbitTilts: array<real>)
    returns (bodies: seq<BodyData>)
    requires Valid(m)
    requires positions.Length == masses.Length == orbitTilts.Length == |radii| == |eccentricityDraws|
    requires |radii| == 0 || 0 <= closest < |radii|
    requires AllFractions(eccentricityDraws)
    requires forall i :: 0 <= i < |radii| ==> radii[i] >= 0.0
    requires -1.0 < s.maxEccentricity
    modifies positions
    ensures positions[..] == Shifted(old(positions[..]), barycenter)
    ensures |bodies| == |radii|
    ensures forall k :: 0 <= k < |radii| ==>
              bodies[k] == BodyRecord(m, s, radii, closest, k, positions[k], centerOfMass,
                                      masses[k], orbitTilts[k], eccentricityDraws[k])
  {
    ghost var raw := positions[..];
    bodies := [];
    for i := 0 to positions.Length
      invariant forall k :: 0 <= k < i ==> positions[k] == raw[k].Sub(barycenter)
      invariant forall k :: i <= k < positions.Length ==> positions[k] == raw[k]
      invariant |bodies| == i
      invariant forall k :: 0 <= k < i ==>
                  bodies[k] == BodyRecord(m, s, radii, closest, k, positions[k], centerOfMass,
                                          masses[k], orbitTilts[k], eccentricityDraws[k])
    {
      positions[i] := positions[i].Sub(barycenter);
      var d := PlaceBody(m, s, radii, closest, i, positions[i], centerOfMass,
                         masses[i], orbitTilts[i], eccentricityDraws[i]);
      bodies := bodies + [d];
    }
  }

  /** The records PlaceBodies builds from the working arrays are those LaidOut describes. */
  lemma RecordsAreLaidOut(m: Maths, s: Settings, worldSize: Vec, radii: seq<real>, massDraws: seq<real>,
                          us: seq<Vec>, eccentricityDraws: seq<real>, closest: int,
                          bodies: seq<BodyData>, ps: seq<Vec>, masses: seq<real>, tilts: seq<real>)
    requires Inputs(m, s, radii, massDraws, eccentricityDraws)
    requires |us| == |radii| == |bodies| == |tilts|
    requires |radii| == 0 || 0 <= closest < |radii|
    requires ps == CenteredPositions(worldSize, radii, us)
    requires masses == Masses(s, massDraws)
    requires var raw := SampledPositions(worldSize, radii, us);
      forall k :: 0 <= k < |tilts| ==> tilts[k] == Tilt(m, raw[k], CenterOfMass(raw, masses))
    requires var c := CenteredCenterOfMass(s, worldSize, radii, massDraws, us);
      forall k :: 0 <= k < |radii| ==>
        bodies[k] == BodyRecord(m, s, radii, closest, k, ps[k], c, masses[k], tilts[k], eccentricityDraws[k])
    ensures bodies == LaidOut(m, s, worldSize, radii, massDraws, us, eccentricityDraws, closest)
  {
  }

  /**
    Everything after the sampling loop: tilts and the closest body from the uncentered
    positions, then the center of mass moved by -barycenter and the final loop.
  */
  method FinishLayout(m: Maths, s: Settings, worldSize: Vec, radii: seq<real>, massDraws: seq<real>,
                      us: seq<Vec>, eccentricityDraws: seq<real>,
                      positions: array<Vec>, masses: array<real>, orbitTilts: array<real>,
                      barycenter: Vec, centerOfMass: Vec)
    returns (closest: nat, centeredCenterOfMass: Vec, bodies: seq<BodyData>)
    requires Inputs(m, s, radii, massDraws, eccentricityDraws)
    requires |us| == |radii| == positions.Length == masses.Length == orbitTilts.Length
    requires masses != orbitTilts
    requires positions[..] == SampledPositions(worldSize, radii, us)
    requires masses[..] == Masses(s, massDraws)
    requires barycenter == Barycenter(positions[..])
    requires centerOfMass == CenterOfMass(positions[..], masses[..])
    modifies positions, orbitTilts
    ensures var raw := SampledPositions(worldSize, radii, us);
      IsClosest(m, raw, CenterOfMass(raw, Masses(s, massDraws)), Max(worldSize.x, worldSize.y), closest)
    ensures |radii| == 0 || closest < |radii|
    ensures bodies == LaidOut(m, s, worldSize, radii, massDraws, us, eccentricityDraws, closest)
    ensures centeredCenterOfMass == CenteredCenterOfMass(s, worldSize, radii, massDraws, us)
    ensures positions[..] == CenteredPositions(worldSize, radii, us)
    ensures var raw := SampledPositions(worldSize, radii, us);
      orbitTilts[..] == Tilts(m, raw, CenterOfMass(raw, Masses(s, massDraws)))
  {
    ghost var raw := positions[..];
    FindTilts(m, positions, centerOfMass, orbitTilts);
    closest := ClosestToCenterOfMass(m, positions, centerOfMass, Max(worldSize.x, worldSize.y));
    centeredCenterOfMass := centerOfMass.Sub(barycenter);
    bodies := PlaceBodies(m, s, radii, closest, eccentricityDraws, positions, barycenter, centeredCenterOfMass,
                          masses, orbitTilts);
    assert positions[..] == CenteredPositions(worldSize, radii, us);
    RecordsAreLaidOut(m, s, worldSize, radii, massDraws, us, eccentricityDraws, closest,
                      bodies, positions[..], masses[..], orbitTilts[..]);
  }

  /**
    The generated system, once an attempt is accepted: its surfaces are apart, its
    barycenter is at the origin, its center of mass is the one the generator keeps,
    masses lie in [minMass, maxMass] and every body gets the configured orbital speed.
  */
  lemma LaidOutSystem(m: Maths, s: Settings, worldSize: Vec, radii: seq<real>, massDraws: seq<real>,
                      us: seq<Vec>, eccentricityDraws: seq<real>, closest: int)
    requires Inputs(m, s, radii, massDraws, eccentricityDraws)
    requires |us| == |radii| > 0 && 0 <= closest < |radii|
    requires SettingsOk(s)
    requires Accepts(m, s, worldSize, radii, us)
    ensures var bodies := LaidOut(m, s, worldSize, radii, massDraws, us, eccentricityDraws, closest);
      && Apart(m, PositionsOf(bodies), radii, s.minDistanceBetweenPlanetsSurfaces)
      && Barycenter(PositionsOf(bodies)) == Zero
      && CenterOfMass(PositionsOf(bodies), MassesOf(bodies)) == CenteredCenterOfMass(s, worldSize, radii, massDraws, us)
      && forall i :: 0 <= i < |bodies| ==>
           s.minMass <= bodies[i].mass <= s.maxMass && bodies[i].orbitalSpeed == s.orbitalSpeed
  {
    var bodies := LaidOut(m, s, worldSize, radii, massDraws, us, eccentricityDraws, closest);
    CenteredLayout(m, s, worldSize, radii, massDraws, us);
    assert PositionsOf(bodies) == CenteredPositions(worldSize, radii, us);
    assert MassesOf(bodies) == Masses(s, massDraws);
  }

  /**
    Every eccentricity is drawn in [0, cap]: at most maxEccentricity, and for every body
    but the closest one, at most (r_i + r_closest) / |p_i - com| on the centered layout.
  */
  lemma LaidOutEccentricities(m: Maths, s: Settings, worldSize: Vec, radii: seq<real>, massDraws: seq<real>,
                              us: seq<Vec>, eccentricityDraws: seq<real>, closest: int)
    requires Inputs(m, s, radii, massDraws, eccentricityDraws)
    requires |us| == |radii| && (|radii| == 0 || 0 <= closest < |radii|)
    requires 0.0 <= s.maxEccentricity
    ensures var bodies := LaidOut(m, s, worldSize, radii, massDraws, us, eccentricityDraws, closest);
      var c := CenteredCenterOfMass(s, worldSize, radii, massDraws, us);
      forall i :: 0 <= i < |bodies| ==>
        var line := bodies[i].position.Sub(c);
        && 0.0 <= bodies[i].eccentricity <= s.maxEccentricity
        && (i != closest && line != Zero ==>
              bodies[i].eccentricity <= (radii[i] + radii[closest]) / m.magnitude(line))
  {
    var bodies := LaidOut(m, s, worldSize, radii, massDraws, us, eccentricityDraws, closest);
    var c := CenteredCenterOfMass(s, worldSize, radii, massDraws, us);
    var ps := CenteredPositions(worldSize, radii, us);
    forall i | 0 <= i < |bodies|
      ensures var line := bodies[i].position.Sub(c);
        && 0.0 <= bodies[i].eccentricity <= s.maxEccentricity
        && (i != closest && line != Zero ==>
              bodies[i].eccentricity <= (radii[i] + radii[closest]) / m.magnitude(line))
    {
      EccentricityCapBounds(m, s.maxEccentricity, radii, closest, i, ps[i].Sub(c));
    }
  }

  /**
    The tilt of body i, computed before centering, is its Tilt around the centered center
    of mass: negative exactly when it lies below it, of size Vector2.Angle of its apsides line.
  */
  lemma LaidOutTilts(m: Maths, s: Settings, worldSize: Vec, radii: seq<real>, massDraws: seq<real>,
                     us: seq<Vec>, eccentricityDraws: seq<real>, closest: int)
    requires Inputs(m, s, radii, massDraws, eccentricityDraws)
    requires |us| == |radii| && (|radii| == 0 || 0 <= closest < |radii|)
    ensures var bodies := LaidOut(m, s, worldSize, radii, massDraws, us, eccentricityDraws, closest);
      var c := CenteredCenterOfMass(s, worldSize, radii, massDraws, us);
      forall i :: 0 <= i < |bodies| ==>
        var line := bodies[i].position.Sub(c);
        && bodies[i].orbitTilt == Tilt(m, bodies[i].position, c)
        && (bodies[i].orbitTilt < 0.0 <==> bodies[i].position.y < c.y)
        && Abs(bodies[i].orbitTilt) == m.angle(Right, m.normalized(line)) <= 180.0
  {
    var bodies := LaidOut(m, s, worldSize, radii, massDraws, us, eccentricityDraws, closest);
    var raw := SampledPositions(worldSize, radii, us);
    var com := CenterOfMass(raw, Masses(s, massDraws));
    var b := Barycenter(raw);
    var c := CenteredCenterOfMass(s, worldSize, radii, massDraws, us);
    forall i | 0 <= i < |bodies|
      ensures var line := bodies[i].position.Sub(c);
        && bodies[i].orbitTilt == Tilt(m, bodies[i].position, c)
        && (bodies[i].orbitTilt < 0.0 <==> bodies[i].position.y < c.y)
        && Abs(bodies[i].orbitTilt) == m.angle(Right, m.normalized(line)) <= 180.0
    {
      TiltSign(m, raw[i], com);
      TiltShift(m, raw[i], com, b);
      assert bodies[i].position == raw[i].Sub(b);
      assert bodies[i].position.Sub(c) == raw[i].Sub(com);
    }
  }

  /** All orbits of the generated system share the center of mass the generator keeps as a focus. */
  lemma LaidOutSharedFocus(m: Maths, s: Settings, worldSize: Vec, radii: seq<real>, massDraws: seq<real>,
                           us: seq<Vec>, eccentricityDraws: seq<real>, closest: int)
    requires Inputs(m, s, radii, massDraws, eccentricityDraws)
    requires |us| == |radii| && (|radii| == 0 || 0 <= closest < |radii|)
    requires 0.0 <= s.maxEccentricity
    ensures var bodies := LaidOut(m, s, worldSize, radii, massDraws, us, eccentricityDraws, closest);
      var c := CenteredCenterOfMass(s, worldSize, radii, massDraws, us);
      forall i :: 0 <= i < |bodies| ==> SharesFocus(m, bodies[i], c)
  {
    var bodies := LaidOut(m, s, worldSize, radii, massDraws, us, eccentricityDraws, closest);
    var raw := SampledPositions(worldSize, radii, us);
    var masses := Masses(s, massDraws);
    var ps := CenteredPositions(worldSize, radii, us);
    var c := CenteredCenterOfMass(s, worldSize, radii, massDraws, us);
    forall i | 0 <= i < |bodies|
      ensures SharesFocus(m, bodies[i], c)
    {
      var tilt := Tilt(m, raw[i], CenterOfMass(raw, masses));
      assert bodies[i] == BodyRecord(m, s, radii, closest, i, ps[i], c, masses[i], tilt, eccentricityDraws[i]);
      RecordSharesFocus(m, s, radii, closest, i, ps[i], c, masses[i], tilt, eccentricityDraws[i]);
    }
  }

  /** One record: its eccentricity is non-negative and its ellipse center shares the focus com. */
  lemma RecordSharesFocus(m: Maths, s: Settings, radii: seq<real>, closest: int, i: int,
                          p: Vec, com: Vec, mass: real, tilt: real, t: real)
    requires Valid(m)
    requires 0 <= closest < |radii| && 0 <= i < |radii|
    requires radii[i] >= 0.0 && radii[closest] >= 0.0
    requires 0.0 <= s.maxEccentricity
    requires IsFraction(t)
    ensures BodyRecord(m, s, radii, closest, i, p, com, mass, tilt, t).position == p
    ensures SharesFocus(m, BodyRecord(m, s, radii, closest, i, p, com, mass, tilt, t), com)
  {
    var d := BodyRecord(m, s, radii, closest, i, p, com, mass, tilt, t);
    RecordFields(m, s, radii, closest, i, p, com, mass, tilt, t);
    PlacedCenterSharesFocus(m, d, com);
  }

  /** A record keeps p, draws a non-negative eccentricity and centers its ellipse by EllipseCenter. */
  lemma RecordFields(m: Maths, s: Settings, radii: seq<real>, closest: int, i: int,
                     p: Vec, com: Vec, mass: real, tilt: real, t: real)
    requires Valid(m)
    requires 0 <= closest < |radii| && 0 <= i < |radii|
    requires radii[i] >= 0.0 && radii[closest] >= 0.0
    requires 0.0 <= s.maxEccentricity
    requires IsFraction(t)
    ensures var d := BodyRecord(m, s, radii, closest, i, p, com, mass, tilt, t);
      && d.position == p
      && 0.0 <= d.eccentricity
      && d.ellipseCenter == EllipseCenter(m, p, com, d.eccentricity)
  {
    EccentricityCapBounds(m, s.maxEccentricity, radii, closest, i, p.Sub(com));
  }

  /** NBodySystemGenerator (later revision): the Inspector settings and the two fields generate writes. */
  class SystemGenerator {
    const settings: Settings
    var worldSize: Vec
    var centerOfMass: Vec

    constructor(settings: Settings)
      ensures this.settings == settings
      ensures worldSize == Zero && centerOfMass == Zero
    {
      this.settings := settings;
      worldSize := Zero;
      centerOfMass := Zero;
    }

    /**
      generate(bodyCount) with bodyCount == |radii|. The do-while keeps drawing until an
      attempt is apart; here it scans the supplied attempts and reports whether one
      was accepted (tries is the number of attempts consumed).
    */
    method Generate(m: Maths, worldSize: Vec, radii: seq<real>, massDraws: seq<real>,
                    attempts: seq<seq<Vec>>, eccentricityDraws: seq<real>)
      returns (accepted: bool, tries: nat, closest: nat, bodies: seq<BodyData>)
      requires Inputs(m, settings, radii, massDraws, eccentricityDraws)
      requires forall t :: 0 <= t < |attempts| ==> |attempts[t]| == |radii|
      modifies this
      ensures this.worldSize == worldSize
      ensures accepted <==> exists t :: 0 <= t < |attempts| && Accepts(m, settings, worldSize, radii, attempts[t])
      ensures !accepted ==> tries == |attempts| && bodies == []
      ensures accepted ==> 0 < tries <= |attempts|
      ensures accepted ==>
        var us := attempts[tries - 1];
        var raw := SampledPositions(worldSize, radii, us);
        && FirstAccepted(m, settings, worldSize, radii, attempts, tries - 1)
        && IsClosest(m, raw, CenterOfMass(raw, Masses(settings, massDraws)), Max(worldSize.x, worldSize.y), closest)
        && (|radii| == 0 || closest < |radii|)
        && bodies == LaidOut(m, settings, worldSize, radii, massDraws, us, eccentricityDraws, closest)
        && centerOfMass == CenteredCenterOfMass(settings, worldSize, radii, massDraws, us)
    {
      this.worldSize := worldSize;
      var n := |radii|;
      var positions := new Vec[n];
      var masses := new real[n];
      var orbitTilts := new real[n];
      var weights := new real[n];
      closest := 0;

      var totalWeights := DrawMasses(settings, massDraws, masses, weights);

      var apart, barycenter;
      apart, tries, barycenter, centerOfMass :=
        SampleUntilApart(m, settings, worldSize, radii, attempts, weights, totalWeights, positions);
      if !apart {
        accepted, bodies := false, [];
        return;
      }
      accepted := true;
      closest, centerOfMass, bodies :=
        FinishLayout(m, settings, worldSize, radii, massDraws, attempts[tries - 1], eccentricityDraws,
                     positions, masses, orbitTilts, barycenter, centerOfMass);
    }
  }
}
