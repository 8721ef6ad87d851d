/**
  The earlier revision of NBodySystemGenerator.generate (Assets/Scripts/NBodySystemGenerator.cs):
  the same pipeline without the closest-body cap. The tilts are recomputed inside the
  sampling loop, and the speeds, eccentricities and ellipse centers are stored in arrays
  of their own before every body is initialised.
*/
module EarlyGenerator {
  import opened Common
  import opened Geometry
  import opened Records
  import opened Layout

  /** The record of one body: eccentricity drawn in [0, maxEccentricity], then the ellipse center. */
  function EarlyRecord(m: Maths, s: Settings, p: Vec, com: Vec, mass: real, tilt: real, t: real): BodyData
    requires -1.0 < s.maxEccentricity
    requires IsFraction(t)
  {
    var e := RandomRange(0.0, s.maxEccentricity, t);
    BodyData(p, mass, s.orbitalSpeed, e, tilt, EllipseCenter(m, p, com, e))
  }

  /** The records generate returns once attempt us is accepted. */
  function EarlyLaidOut(m: Maths, s: Settings, worldSize: Vec, radii: seq<real>, massDraws: seq<real>,
                        us: seq<Vec>, eccentricityDraws: seq<real>): (bodies: seq<BodyData>)
    requires Inputs(m, s, radii, massDraws, eccentricityDraws)
    requires |us| == |radii|
    ensures |bodies| == |radii|
  {
    var raw := SampledPositions(worldSize, radii, us);
    var masses := Masses(s, massDraws);
    var com := CenterOfMass(raw, masses);
    var ps := CenteredPositions(worldSize, radii, us);
    var c := CenteredCenterOfMass(s, worldSize, radii, massDraws, us);
    seq(|radii|, i requires 0 <= i < |radii| =>
      EarlyRecord(m, s, ps[i], c, masses[i], Tilt(m, raw[i], com), eccentricityDraws[i]))
  }

  /** One pass of this revision's sampling loop: positions and means, then the tilts, then the test. */
  method EarlyAttempt(m: Maths, s: Settings, worldSize: Vec, radii: seq<real>, us: seq<Vec>,
                      weights: array<real>, totalWeights: real, positions: array<Vec>, orbitTilts: array<real>)
    returns (apart: bool, barycenter: Vec, centerOfMass: Vec)
    requires positions.Length == weights.Length == orbitTilts.Length == |radii| == |us|
    requires weights != orbitTilts
    requires totalWeights == Sum(weights[..])
    modifies positions, orbitTilts
    ensures var raw := SampledPositions(worldSize, radii, us);
      && positions[..] == raw
      && barycenter == Barycenter(raw)
      && centerOfMass == CenterOfMass(raw, weights[..])
      && orbitTilts[..] == Tilts(m, raw, centerOfMass)
      && apart == Accepts(m, s, worldSize, radii, us)
  {
    barycenter, centerOfMass := SampleAttempt(worldSize, radii, us, weights, totalWeights, positions);
    FindTilts(m, positions, centerOfMass, orbitTilts);
    apart := CheckApart(m, positions, radii, s.minDistanceBetweenPlanetsSurfaces);
  }

  /**
    The do-while of this revision: sample an attempt, set the tilts from it, test it.
    The tilts left in orbitTilts are those of the last attempt sampled.
  */
  method EarlySampleUntilApart(m: Maths, s: Settings, worldSize: Vec, radii: seq<real>, attempts: seq<seq<Vec>>,
                               weights: array<real>, totalWeights: real, positions: array<Vec>, orbitTilts: array<real>)
    returns (apart: bool, tries: nat, barycenter: Vec, centerOfMass: Vec)
    requires positions.Length == weights.Length == orbitTilts.Length == |radii|
    requires weights != orbitTilts
    requires forall t :: 0 <= t < |attempts| ==> |attempts[t]| == |radii|
    requires totalWeights == Sum(weights[..])
    modifies positions, orbitTilts
    ensures tries <= |attempts|
    ensures apart ==> FirstAccepted(m, s, worldSize, radii, attempts, tries - 1)
    ensures !apart ==> tries == |attempts| && forall u :: 0 <= u < |attempts| ==> !Accepts(m, s, worldSize, radii, attempts[u])
    ensures 0 < tries ==>
      var raw := SampledPositions(worldSize, radii, attempts[tries - 1]);
      && positions[..] == raw
      && barycenter == Barycenter(raw)
      && centerOfMass == CenterOfMass(raw, weights[..])
      && orbitTilts[..] == Tilts(m, raw, centerOfMass)
  {
    apart := false;
    barycenter, centerOfMass := Zero, Zero;
    tries := 0;
    while !apart && tries < |attempts|
      invariant tries <= |attempts|
      invariant forall u :: 0 <= u < (if apart then tries - 1 else tries) ==>
                  !Accepts(m, s, worldSize, radii, attempts[u])
      invariant apart ==> 0 < tries && Accepts(m, s, worldSize, radii, attempts[tries - 1])
      invariant 0 < tries ==>
                  var raw := SampledPositions(worldSize, radii, attempts[tries - 1]);
                  && positions[..] == raw
                  && barycenter == Barycenter(raw)
                  && centerOfMass == CenterOfMass(raw, weights[..])
                  && orbitTilts[..] == Tilts(m, raw, centerOfMass)
    {
      apart, barycenter, centerOfMass :=
        EarlyAttempt(m, s, worldSize, radii, attempts[tries], weights, totalWeights, positions, orbitTilts);
      tries := tries + 1;
    }
  }

  /**
    The final loop: center each position, store the speed, draw the eccentricity, place
    the ellipse center, and record the six values init receives.
  */
  method EarlyPlaceBodies(m: Maths, s: Settings, eccentricityDraws: seq<real>,
                          positions: array<Vec>, barycenter: Vec, centerOfMass: Vec,
                          masses: array<real>, orbitTilts: array<real>,
                          orbitalSpeeds: array<real>, eccentricities: array<real>, centers: array<Vec>)
    returns (bodies: seq<BodyData>)
    requires -1.0 < s.maxEccentricity
    requires AllFractions(eccentricityDraws)
    requires positions.Length == masses.Length == orbitTilts.Length == |eccentricityDraws|
    requires orbitalSpeeds.Length == eccentricities.Length == centers.Length == positions.Length
    requires orbitalSpeeds != eccentricities && positions != centers
    requires orbitalSpeeds != masses && orbitalSpeeds != orbitTilts
    requires eccentricities != masses && eccentricities != orbitTilts
    modifies positions, orbitalSpeeds, eccentricities, centers
    ensures positions[..] == Shifted(old(positions[..]), barycenter)
    ensures |bodies| == positions.Length
    ensures forall k :: 0 <= k < |bodies| ==>
              && bodies[k] == EarlyRecord(m, s, positions[k], centerOfMass, masses[k], orbitTilts[k], eccentricityDraws[k])
              && orbitalSpeeds[k] == s.orbitalSpeed
              && eccentricities[k] == bodies[k].eccentricity
              && centers[k] == bodies[k].ellipseCenter
  {
    ghost var raw := positions[..];
    bodies := [];
    for i := 0 to positions.Length
      invariant forall k :: 0 <= k < i ==> positions[k] == raw[k].Sub(barycenter)
      invariant forall k :: i <= k < positions.Length ==> positions[k] == raw[k]
      invariant |bodies| == i
      invariant forall k :: 0 <= k < i ==>
                  && bodies[k] == EarlyRecord(m, s, positions[k], centerOfMass, masses[k], orbitTilts[k], eccentricityDraws[k])
                  && orbitalSpeeds[k] == s.orbitalSpeed
                  && eccentricities[k] == bodies[k].eccentricity
                  && centers[k] == bodies[k].ellipseCenter
    {
      positions[i] := positions[i].Sub(barycenter);
      orbitalSpeeds[i] := s.orbitalSpeed;
      eccentricities[i] := RandomRange(0.0, s.maxEccentricity, eccentricityDraws[i]);
      centers[i] := positions[i].Sub(m.normalized(positions[i].Sub(centerOfMass))
                      .Scale(m.magnitude(positions[i].Sub(centerOfMass)) / (1.0 + eccentricities[i])));
      bodies := bodies + [BodyData(positions[i], masses[i], orbitalSpeeds[i], eccentricities[i], orbitTilts[i], centers[i])];
    }
  }

  /** The records EarlyPlaceBodies builds from the working arrays are those EarlyLaidOut describes. */
  lemma EarlyRecordsAreLaidOut(m: Maths, s: Settings, worldSize: Vec, radii: seq<real>, massDraws: seq<real>,
                               us: seq<Vec>, eccentricityDraws: seq<real>,
                               bodies: seq<BodyData>, ps: seq<Vec>, masses: seq<real>, tilts: seq<real>)
    requires Inputs(m, s, radii, massDraws, eccentricityDraws)
    requires |us| == |radii| == |bodies| == |tilts|
    requires ps == CenteredPositions(worldSize, radii, us)
    requires masses == Masses(s, massDraws)
    requires var raw := SampledPositions(worldSize, radii, us);
      forall k :: 0 <= k < |tilts| ==> tilts[k] == Tilt(m, raw[k], CenterOfMass(raw, masses))
    requires var c := CenteredCenterOfMass(s, worldSize, radii, massDraws, us);
      forall k :: 0 <= k < |radii| ==>
        bodies[k] == EarlyRecord(m, s, ps[k], c, masses[k], tilts[k], eccentricityDraws[k])
    ensures bodies == EarlyLaidOut(m, s, worldSize, radii, massDraws, us, eccentricityDraws)
  {
  }

  /** The generated system: separated, centered, with the kept center of mass, masses in range and the configured speed. */
  lemma EarlyLaidOutSystem(m: Maths, s: Settings, worldSize: Vec, radii: seq<real>, massDraws: seq<real>,
                           us: seq<Vec>, eccentricityDraws: seq<real>)
    requires Inputs(m, s, radii, massDraws, eccentricityDraws)
    requires |us| == |radii| > 0
    requires SettingsOk(s)
    requires Accepts(m, s, worldSize, radii, us)
    ensures var bodies := EarlyLaidOut(m, s, worldSize, radii, massDraws, us, eccentricityDraws);
      && Apart(m, PositionsOf(bodies), radii, s.minDistanceBetweenPlanetsSurfaces)
      && Barycenter(PositionsOf(bodies)) == Zero
      && CenterOfMass(PositionsOf(bodies), MassesOf(bodies)) == CenteredCenterOfMass(s, worldSize, radii, massDraws, us)
      && forall i :: 0 <= i < |bodies| ==>
           s.minMass <= bodies[i].mass <= s.maxMass && bodies[i].orbitalSpeed == s.orbitalSpeed
  {
    var bodies := EarlyLaidOut(m, s, worldSize, radii, massDraws, us, eccentricityDraws);
    CenteredLayout(m, s, worldSize, radii, massDraws, us);
    assert PositionsOf(bodies) == CenteredPositions(worldSize, radii, us);
    assert MassesOf(bodies) == Masses(s, massDraws);
  }

  /** One record: eccentricity in [0, maxEccentricity] and the shared focus com. */
  lemma EarlyRecordSharesFocus(m: Maths, s: Settings, p: Vec, com: Vec, mass: real, tilt: real, t: real)
    requires Valid(m)
    requires 0.0 <= s.maxEccentricity
    requires IsFraction(t)
    ensures EarlyRecord(m, s, p, com, mass, tilt, t).eccentricity <= s.maxEccentricity
    ensures SharesFocus(m, EarlyRecord(m, s, p, com, mass, tilt, t), com)
  {
    PlacedCenterSharesFocus(m, EarlyRecord(m, s, p, com, mass, tilt, t), com);
  }

  /**
    Every eccentricity lies in [0, maxEccentricity] and every orbit has the kept center
    of mass as a focus.
  */
  lemma EarlyLaidOutSharedFocus(m: Maths, s: Settings, worldSize: Vec, radii: seq<real>, massDraws: seq<real>,
                                us: seq<Vec>, eccentricityDraws: seq<real>)
    requires Inputs(m, s, radii, massDraws, eccentricityDraws)
    requires |us| == |radii|
    requires 0.0 <= s.maxEccentricity
    ensures var bodies := EarlyLaidOut(m, s, worldSize, radii, massDraws, us, eccentricityDraws);
      var c := CenteredCenterOfMass(s, worldSize, radii, massDraws, us);
      forall i :: 0 <= i < |bodies| ==>
        bodies[i].eccentricity <= s.maxEccentricity && SharesFocus(m, bodies[i], c)
  {
    var bodies := EarlyLaidOut(m, s, worldSize, radii, massDraws, us, eccentricityDraws);
    var raw := SampledPositions(worldSize, radii, us);
    var masses := Masses(s, massDraws);
    var ps := CenteredPositions(worldSize, radii, us);
    var c := CenteredCenterOfMass(s, worldSize, radii, massDraws, us);
    forall i | 0 <= i < |bodies|
      ensures bodies[i].eccentricity <= s.maxEccentricity && SharesFocus(m, bodies[i], c)
    {
      var tilt := Tilt(m, raw[i], CenterOfMass(raw, masses));
      assert bodies[i] == EarlyRecord(m, s, ps[i], c, masses[i], tilt, eccentricityDraws[i]);
      EarlyRecordSharesFocus(m, s, ps[i], c, masses[i], tilt, eccentricityDraws[i]);
    }
  }

  /** Every tilt is the Tilt of its body around the kept center of mass: negative exactly below it, its size an angle. */
  lemma EarlyLaidOutTilts(m: Maths, s: Settings, worldSize: Vec, radii: seq<real>, massDraws: seq<real>,
                          us: seq<Vec>, eccentricityDraws: seq<real>)
    requires Inputs(m, s, radii, massDraws, eccentricityDraws)
    requires |us| == |radii|
    ensures var bodies := EarlyLaidOut(m, s, worldSize, radii, massDraws, us, eccentricityDraws);
      var c := CenteredCenterOfMass(s, worldSize, radii, massDraws, us);
      forall i :: 0 <= i < |bodies| ==>
        && bodies[i].orbitTilt == Tilt(m, bodies[i].position, c)
        && (bodies[i].orbitTilt < 0.0 <==> bodies[i].position.y < c.y)
        && Abs(bodies[i].orbitTilt) == m.angle(Right, m.normalized(bodies[i].position.Sub(c))) <= 180.0
  {
    var bodies := EarlyLaidOut(m, s, worldSize, radii, massDraws, us, eccentricityDraws);
    var raw := SampledPositions(worldSize, radii, us);
    var com := CenterOfMass(raw, Masses(s, massDraws));
    var b := Barycenter(raw);
    var c := CenteredCenterOfMass(s, worldSize, radii, massDraws, us);
    forall i | 0 <= i < |bodies|
      ensures && bodies[i].orbitTilt == Tilt(m, bodies[i].position, c)
              && (bodies[i].orbitTilt < 0.0 <==> bodies[i].position.y < c.y)
              && Abs(bodies[i].orbitTilt) == m.angle(Right, m.normalized(bodies[i].position.Sub(c))) <= 180.0
    {
      TiltSign(m, raw[i], com);
      TiltShift(m, raw[i], com, b);
      assert bodies[i].position == raw[i].Sub(b);
      assert bodies[i].position.Sub(c) == raw[i].Sub(com);
    }
  }

  /** Everything after the sampling loop: the center of mass moved by -barycenter, then the final loop. */
  method EarlyFinishLayout(m: Maths, s: Settings, worldSize: Vec, radii: seq<real>, massDraws: seq<real>,
                           us: seq<Vec>, eccentricityDraws: seq<real>,
                           positions: array<Vec>, masses: array<real>, orbitTilts: array<real>,
                           barycenter: Vec, centerOfMass: Vec)
    returns (centeredCenterOfMass: Vec, bodies: seq<BodyData>)
    requires Inputs(m, s, radii, massDraws, eccentricityDraws)
    requires |us| == |radii| == positions.Length == masses.Length == orbitTilts.Length
    requires positions[..] == SampledPositions(worldSize, radii, us)
    requires masses[..] == Masses(s, massDraws)
    requires barycenter == Barycenter(positions[..])
    requires centerOfMass == CenterOfMass(positions[..], masses[..])
    requires orbitTilts[..] == Tilts(m, positions[..], centerOfMass)
    modifies positions
    ensures bodies == EarlyLaidOut(m, s, worldSize, radii, massDraws, us, eccentricityDraws)
    ensures centeredCenterOfMass == CenteredCenterOfMass(s, worldSize, radii, massDraws, us)
    ensures positions[..] == CenteredPositions(worldSize, radii, us)
    ensures var raw := SampledPositions(worldSize, radii, us);
      orbitTilts[..] == Tilts(m, raw, CenterOfMass(raw, Masses(s, massDraws)))
  {
    var n := positions.Length;
    var orbitalSpeeds := new real[n];
    var eccentricities := new real[n];
    var centers := new Vec[n];
    ghost var raw := positions[..];
    centeredCenterOfMass := centerOfMass.Sub(barycenter);
    bodies := EarlyPlaceBodies(m, s, eccentricityDraws, positions, barycenter, centeredCenterOfMass,
                               masses, orbitTilts, orbitalSpeeds, eccentricities, centers);
    assert positions[..] == CenteredPositions(worldSize, radii, us);
    EarlyRecordsAreLaidOut(m, s, worldSize, radii, massDraws, us, eccentricityDraws,
                           bodies, positions[..], masses[..], orbitTilts[..]);
  }

  /** NBodySystemGenerator (earlier revision): its Inspector settings, bodyCount, and the fields generate writes. */
  class EarlySystemGenerator {
    const settings: Settings
    const bodyCount: nat
    const worldSize: Vec
    var centerOfMass: Vec

    /** Awake derives worldSize from the camera; here it is given. */
    constructor(settings: Settings, bodyCount: nat, worldSize: Vec)
      ensures this.settings == settings && this.bodyCount == bodyCount && this.worldSize == worldSize
      ensures centerOfMass == Zero
    {
      this.settings := settings;
      this.bodyCount := bodyCount;
      this.worldSize := worldSize;
      centerOfMass := Zero;
    }

    /** generate(): radii holds the radius of each of the bodyCount bodies. */
    method Generate(m: Maths, radii: seq<real>, massDraws: seq<real>,
                    attempts: seq<seq<Vec>>, eccentricityDraws: seq<real>)
      returns (accepted: bool, tries: nat, bodies: seq<BodyData>)
      requires Inputs(m, settings, radii, massDraws, eccentricityDraws)
      requires |radii| == bodyCount
      requires forall t :: 0 <= t < |attempts| ==> |attempts[t]| == |radii|
      modifies this
      ensures accepted <==> exists t :: 0 <= t < |attempts| && Accepts(m, settings, worldSize, radii, attempts[t])
      ensures !accepted ==> tries == |attempts| && bodies == []
      ensures accepted ==> 0 < tries <= |attempts|
      ensures accepted ==>
        var us := attempts[tries - 1];
        && FirstAccepted(m, settings, worldSize, radii, attempts, tries - 1)
        && bodies == EarlyLaidOut(m, settings, worldSize, radii, massDraws, us, eccentricityDraws)
        && centerOfMass == CenteredCenterOfMass(settings, worldSize, radii, massDraws, us)
      ensures accepted ==> |bodies| == bodyCount
    {
      var n := bodyCount;
      var positions := new Vec[n];
      var masses := new real[n];
      var orbitTilts := new real[n];
      var weights := new real[n];

      var totalWeights := DrawMasses(settings, massDraws, masses, weights);

      var apart, barycenter;
      apart, tries, barycenter, centerOfMass :=
        EarlySampleUntilApart(m, settings, worldSize, radii, attempts, weights, totalWeights, positions, orbitTilts);
      if !apart {
        accepted, bodies := false, [];
        return;
      }
      accepted := true;
      centerOfMass, bodies :=
        EarlyFinishLayout(m, settings, worldSize, radii, massDraws, attempts[tries - 1], eccentricityDraws,
                          positions, masses, orbitTilts, barycenter, centerOfMass);
    }
  }
}
