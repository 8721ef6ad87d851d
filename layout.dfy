/**
  What both revisions of NBodySystemGenerator.generate compute, as functions over
  sequences, the loops they share (masses, one sampling attempt, the pairwise
  separation check, the tilt signs) as methods over the working arrays, and the
  geometric facts about the result.
*/
module Layout {
  import opened Common
  import opened Geometry
  import opened Records

  /** The generator's Inspector settings. */
  datatype Settings = Settings(
    minMass: real,
    maxMass: real,
    minDistanceBetweenPlanetsSurfaces: real,
    orbitalSpeed: real,
    maxEccentricity: real)

  /** A positive mass range and a non-negative eccentricity bound. */
  predicate SettingsOk(s: Settings) {
    0.0 < s.minMass <= s.maxMass && 0.0 <= s.maxEccentricity
  }

  predicate IsFraction(t: real) {
    0.0 <= t <= 1.0
  }

  predicate AllFractions(ts: seq<real>) {
    forall i :: 0 <= i < |ts| ==> IsFraction(ts[i])
  }

  /** Both components of a point drawn by Random.insideUnitCircle lie in [-1, 1]. */
  predicate InUnitSquare(u: Vec) {
    -1.0 <= u.x <= 1.0 && -1.0 <= u.y <= 1.0
  }

  /** Random.Range(lo, hi): the interpolation lo + (hi - lo) * t of a uniform t in [0, 1]. */
  function RandomRange(lo: real, hi: real, t: real): (r: real)
    requires IsFraction(t)
    ensures lo <= hi ==> lo <= r <= hi
    ensures hi < lo ==> hi <= r <= lo
  {
    if lo <= hi then
      MulNonNegative(hi - lo, t);
      MulNonNegative(hi - lo, 1.0 - t);
      lo + (hi - lo) * t
    else
      MulNonNegative(lo - hi, t);
      MulNonNegative(lo - hi, 1.0 - t);
      lo + (hi - lo) * t
  }

  /** The masses drawn for the bodies; each one lies in [minMass, maxMass]. */
  function Masses(s: Settings, draws: seq<real>): (masses: seq<real>)
    requires AllFractions(draws)
    ensures |masses| == |draws|
    ensures s.minMass <= s.maxMass ==> forall i :: 0 <= i < |masses| ==> s.minMass <= masses[i] <= s.maxMass
  {
    seq(|draws|, i requires 0 <= i < |draws| => RandomRange(s.minMass, s.maxMass, draws[i]))
  }

  // ---------------------------------------------------------------------------
  // Sums and means, accumulated front to back as the source's loops do

  function Sum(s: seq<real>): real {
    if s == [] then 0.0 else Sum(s[..|s| - 1]) + s[|s| - 1]
  }

  function VecSum(ps: seq<Vec>): Vec {
    if ps == [] then Zero else VecSum(ps[..|ps| - 1]).Add(ps[|ps| - 1])
  }

  function WeightedSum(ps: seq<Vec>, ws: seq<real>): Vec
    requires |ps| == |ws|
  {
    if ps == [] then Zero
    else WeightedSum(ps[..|ps| - 1], ws[..|ws| - 1]).Add(ps[|ps| - 1].Scale(ws[|ws| - 1]))
  }

  /** The unweighted mean of the positions (the origin when there are none). */
  function Barycenter(ps: seq<Vec>): Vec {
    if |ps| == 0 then Zero else VecSum(ps).Div(|ps| as real)
  }

  /** The mass-weighted mean of the positions (the origin when the weights sum to zero). */
  function CenterOfMass(ps: seq<Vec>, ws: seq<real>): Vec
    requires |ps| == |ws|
  {
    if Sum(ws) == 0.0 then Zero else WeightedSum(ps, ws).Div(Sum(ws))
  }

  /** Every position moved by -b. */
  function Shifted(ps: seq<Vec>, b: Vec): (r: seq<Vec>)
    ensures |r| == |ps|
  {
    seq(|ps|, i requires 0 <= i < |ps| => ps[i].Sub(b))
  }

  /** Positive masses have a positive total. */
  lemma {:induction false} SumOfPositives(s: seq<real>)
    requires |s| > 0
    requires forall i :: 0 <= i < |s| ==> s[i] > 0.0
    ensures Sum(s) > 0.0
  {
    if |s| > 1 {
      SumOfPositives(s[..|s| - 1]);
    }
  }

  lemma {:induction false} VecSumShifted(ps: seq<Vec>, b: Vec)
    ensures VecSum(Shifted(ps, b)) == VecSum(ps).Sub(b.Scale(|ps| as real))
  {
    if ps != [] {
      var n := |ps|;
      assert Shifted(ps, b)[..n - 1] == Shifted(ps[..n - 1], b);
      VecSumShifted(ps[..n - 1], b);
    }
  }

  lemma {:induction false} WeightedSumShifted(ps: seq<Vec>, ws: seq<real>, b: Vec)
    requires |ps| == |ws|
    ensures WeightedSum(Shifted(ps, b), ws) == WeightedSum(ps, ws).Sub(b.Scale(Sum(ws)))
  {
    if ps != [] {
      var n := |ps|;
      var qs := Shifted(ps, b);
      assert qs[..n - 1] == Shifted(ps[..n - 1], b);
      WeightedSumShifted(ps[..n - 1], ws[..n - 1], b);
      var w, p := ws[n - 1], ps[n - 1];
      var front := WeightedSum(ps[..n - 1], ws[..n - 1]);
      var s := Sum(ws[..n - 1]);
      assert WeightedSum(qs, ws) == front.Sub(b.Scale(s)).Add(p.Sub(b).Scale(w));
      assert WeightedSum(ps, ws) == front.Add(p.Scale(w));
      assert Sum(ws) == s + w;
      ShiftedTerm(front, p, b, s, w);
    }
  }

  /** Adding one shifted weighted term to a shifted partial sum. */
  lemma ShiftedTerm(front: Vec, p: Vec, b: Vec, s: real, w: real)
    ensures front.Sub(b.Scale(s)).Add(p.Sub(b).Scale(w)) == front.Add(p.Scale(w)).Sub(b.Scale(s + w))
  {
    assert (front.x - b.x * s) + (p.x - b.x) * w == (front.x + p.x * w) - b.x * (s + w);
    assert (front.y - b.y * s) + (p.y - b.y) * w == (front.y + p.y * w) - b.y * (s + w);
  }

  /** Subtracting the barycenter from every position puts the new barycenter at the origin. */
  lemma CenteringMovesBarycenterToOrigin(ps: seq<Vec>)
    ensures Barycenter(Shifted(ps, Barycenter(ps))) == Zero
  {
    if |ps| > 0 {
      var n := |ps| as real;
      var v := VecSum(ps);
      var b := v.Div(n);
      assert b == Barycenter(ps);
      var qs := Shifted(ps, b);
      VecSumShifted(ps, b);
      MeanTimesCount(v, n);
      assert VecSum(qs) == Zero;
      assert Barycenter(qs) == Zero.Div(n);
    }
  }

  lemma MeanTimesCount(v: Vec, n: real)
    requires n != 0.0
    ensures v.Sub(v.Div(n).Scale(n)) == Zero
  {
    DivTimes(v.x, n);
    DivTimes(v.y, n);
  }

  /** Moving every position by -b moves the center of mass by -b. */
  lemma CenteringShiftsCenterOfMass(ps: seq<Vec>, ws: seq<real>, b: Vec)
    requires |ps| == |ws|
    ensures CenterOfMass(Shifted(ps, b), ws) == CenterOfMass(ps, ws).Sub(b)
            || Sum(ws) == 0.0
  {
    if Sum(ws) != 0.0 {
      WeightedSumShifted(ps, ws, b);
      var t := Sum(ws);
      var v := WeightedSum(ps, ws);
      DivOfShiftVec(v, b, t);
    }
  }

  lemma DivOfShiftVec(v: Vec, b: Vec, t: real)
    requires t != 0.0
    ensures v.Sub(b.Scale(t)).Div(t) == v.Div(t).Sub(b)
  {
    DivOfShift(v.x, b.x, t);
    DivOfShift(v.y, b.y, t);
  }

  lemma DivOfShift(a: real, c: real, t: real)
    requires t != 0.0
    ensures (a - c * t) / t == a / t - c
  {
    var q := a / t;
    assert q * t == a;
    assert a - c * t == (q - c) * t;
  }

  // ---------------------------------------------------------------------------
  // Sampling and separation

  /**
    positions[i] = (insideUnitCircle.x * (worldSize.x / 2 - r), insideUnitCircle.y * (worldSize.y / 2 - r)),
    u holding the two components (taken from two separate draws).
  */
  function SampledPosition(worldSize: Vec, radius: real, u: Vec): Vec {
    Vec(u.x * ((worldSize.x * 0.5) - radius), u.y * ((worldSize.y * 0.5) - radius))
  }

  function SampledPositions(worldSize: Vec, radii: seq<real>, us: seq<Vec>): (ps: seq<Vec>)
    requires |radii| == |us|
    ensures |ps| == |us|
  {
    seq(|us|, i requires 0 <= i < |us| => SampledPosition(worldSize, radii[i], us[i]))
  }

  /** Before centering, a sampled body's whole disc lies inside the world rectangle around the origin. */
  lemma SampledInsideWorld(worldSize: Vec, radius: real, u: Vec)
    requires InUnitSquare(u)
    requires 0.0 <= radius <= worldSize.x * 0.5 && radius <= worldSize.y * 0.5
    ensures var p := SampledPosition(worldSize, radius, u);
      Abs(p.x) + radius <= worldSize.x * 0.5 && Abs(p.y) + radius <= worldSize.y * 0.5
  {
    var hx, hy := worldSize.x * 0.5 - radius, worldSize.y * 0.5 - radius;
    ScaleWithin(u.x, hx);
    ScaleWithin(u.y, hy);
  }

  /** The surfaces of bodies i and j are at least minDistance apart. */
  predicate PairApart(m: Maths, ps: seq<Vec>, radii: seq<real>, minDistance: real, i: int, j: int)
    requires |ps| == |radii|
    requires 0 <= i < |ps| && 0 <= j < |ps|
  {
    m.magnitude(ps[i].Sub(ps[j])) - (radii[i] + radii[j]) >= minDistance
  }

  /** Every pair of surfaces is at least minDistance apart: the exit test of the sampling loop. */
  predicate Apart(m: Maths, ps: seq<Vec>, radii: seq<real>, minDistance: real)
    requires |ps| == |radii|
  {
    forall i, j :: 0 <= i < j < |ps| ==> PairApart(m, ps, radii, minDistance, i, j)
  }

  /** Centering moves every body by the same vector, so it keeps every separation. */
  lemma CenteringKeepsApart(m: Maths, ps: seq<Vec>, radii: seq<real>, minDistance: real, b: Vec)
    requires |ps| == |radii|
    ensures Apart(m, Shifted(ps, b), radii, minDistance) == Apart(m, ps, radii, minDistance)
  {
    var qs := Shifted(ps, b);
    forall i, j | 0 <= i < j < |ps|
      ensures PairApart(m, qs, radii, minDistance, i, j) == PairApart(m, ps, radii, minDistance, i, j)
    {
      assert qs[i].Sub(qs[j]) == ps[i].Sub(ps[j]);
    }
  }

  // ---------------------------------------------------------------------------
  // Orbit tilt and ellipse center

  /**
    Vector2.Angle(right, (p - com).normalized), negated when p lies below the center of
    mass: the angle in [-180, 180] that turns the x axis onto the apsides line.
  */
  function Tilt(m: Maths, p: Vec, com: Vec): real {
    if p.y < com.y then
      -m.angle(Right, m.normalized(p.Sub(com)))
    else
      m.angle(Right, m.normalized(p.Sub(com)))
  }

  /** The tilt is negative exactly when the body lies below the center of mass; its size is an angle in [0, 180]. */
  lemma TiltSign(m: Maths, p: Vec, com: Vec)
    requires Valid(m)
    ensures Tilt(m, p, com) < 0.0 <==> p.y < com.y
    ensures Abs(Tilt(m, p, com)) == m.angle(Right, m.normalized(p.Sub(com)))
    ensures Abs(Tilt(m, p, com)) <= 180.0
  {
    var v := p.Sub(com);
    var n := m.normalized(v);
    if p.y < com.y {
      assert v != Zero;
      NormalizedIsUnitDirection(m, v);
      var len := m.magnitude(v);
      assert n.y == v.y * (1.0 / len);
      assert n.y < 0.0;
      assert Cross(Right, n) != 0.0;
      assert m.angle(Right, n) != 0.0;
    }
  }

  /**
    Off the center of mass, turning Vector2.right by the tilt gives the unit direction
    from the center of mass to the body: the tilt puts the orbit's x axis on the apsides line.
  */
  lemma TiltTurnsRight(m: Maths, p: Vec, com: Vec)
    requires Valid(m)
    requires p != com
    ensures m.rotate(Tilt(m, p, com), Right) == m.normalized(p.Sub(com))
  {
    DirectionSign(m, p.Sub(com));
  }

  /** Moving the body and the center of mass by the same vector leaves the tilt as it was. */
  lemma TiltShift(m: Maths, p: Vec, com: Vec, b: Vec)
    ensures Tilt(m, p.Sub(b), com.Sub(b)) == Tilt(m, p, com)
  {
    assert p.Sub(b).Sub(com.Sub(b)) == p.Sub(com);
  }

  /**
    ellipseCenter = p - normalized(p - com) * (|p - com| / (1 + e)): one step from p
    towards the center of mass.
  */
  function EllipseCenter(m: Maths, p: Vec, com: Vec, e: real): Vec
    requires e != -1.0
  {
    p.Sub(m.normalized(p.Sub(com)).Scale(m.magnitude(p.Sub(com)) / (1.0 + e)))
  }

  /**
    The ellipse center lies on the segment from p to com at distance |p - com| / (1 + e)
    from p, and com is at e times that distance from the center on the other side:
    com is a focus of an ellipse with semi-major axis |center - p| and eccentricity e.
  */
  lemma SharedFocus(m: Maths, p: Vec, com: Vec, e: real)
    requires Valid(m)
    requires 0.0 <= e
    ensures var c := EllipseCenter(m, p, com, e);
      && c == p.Add(com.Sub(p).Scale(1.0 / (1.0 + e)))
      && c.Sub(com) == c.Sub(p).Scale(-e)
      && m.magnitude(c.Sub(p)) == m.magnitude(p.Sub(com)) / (1.0 + e)
      && m.magnitude(c.Sub(com)) == e * m.magnitude(c.Sub(p))
  {
    if p == com {
      SharedFocusAtCenter(m, p, e);
    } else {
      SharedFocusOffCenter(m, p, com, e);
    }
  }

  lemma SharedFocusAtCenter(m: Maths, p: Vec, e: real)
    requires Valid(m)
    requires 0.0 <= e
    ensures var c := EllipseCenter(m, p, p, e);
      && c == p.Add(p.Sub(p).Scale(1.0 / (1.0 + e)))
      && c.Sub(p) == c.Sub(p).Scale(-e)
      && m.magnitude(c.Sub(p)) == m.magnitude(p.Sub(p)) / (1.0 + e)
      && m.magnitude(c.Sub(p)) == e * m.magnitude(c.Sub(p))
  {
    MagnitudeOfZero(m);
    var n := m.normalized(p.Sub(p));
    assert p.Sub(p) == Zero;
    assert n.Scale(0.0 / (1.0 + e)) == Zero;
    assert EllipseCenter(m, p, p, e) == p;
  }

  lemma SharedFocusOffCenter(m: Maths, p: Vec, com: Vec, e: real)
    requires Valid(m)
    requires 0.0 <= e
    requires p != com
    ensures var c := EllipseCenter(m, p, com, e);
      && c == p.Add(com.Sub(p).Scale(1.0 / (1.0 + e)))
      && c.Sub(com) == c.Sub(p).Scale(-e)
      && m.magnitude(c.Sub(p)) == m.magnitude(p.Sub(com)) / (1.0 + e)
      && m.magnitude(c.Sub(com)) == e * m.magnitude(c.Sub(p))
  {
    var line := p.Sub(com);
    var c := EllipseCenter(m, p, com, e);
    var k := 1.0 / (1.0 + e);
    ReciprocalOfOnePlus(e);
    CenterOffsets(m, p, com, e);
    ScaledLengths(m, line, k, e);
    DivAsProduct(m.magnitude(line), 1.0 + e);
  }

  /** Off the center of mass, the ellipse center is -k (p - com) from p and -e times that from com. */
  lemma CenterOffsets(m: Maths, p: Vec, com: Vec, e: real)
    requires Valid(m)
    requires 0.0 <= e
    requires p != com
    ensures var c, k := EllipseCenter(m, p, com, e), 1.0 / (1.0 + e);
      && c == p.Add(com.Sub(p).Scale(k))
      && c.Sub(p) == p.Sub(com).Scale(-k)
      && c.Sub(com) == p.Sub(com).Scale(-k).Scale(-e)
  {
    var line := p.Sub(com);
    var c := EllipseCenter(m, p, com, e);
    var k := 1.0 / (1.0 + e);
    ReciprocalOfOnePlus(e);
    OffsetTowardsCenter(m, p, com, e);
    assert c == p.Sub(line.Scale(k));
    assert c.Sub(com) == line.Scale(1.0 - k);
    ScaleTwice(line, -k, -e);
  }

  /** |-k v| = k |v| and |-e (-k v)| = e |-k v| for non-negative k and e. */
  lemma ScaledLengths(m: Maths, v: Vec, k: real, e: real)
    requires Valid(m)
    requires 0.0 <= k && 0.0 <= e
    ensures m.magnitude(v.Scale(-k)) == k * m.magnitude(v)
    ensures m.magnitude(v.Scale(-k).Scale(-e)) == e * m.magnitude(v.Scale(-k))
  {
    assert m.magnitude(v.Scale(-k)) == Abs(-k) * m.magnitude(v);
    assert m.magnitude(v.Scale(-k).Scale(-e)) == Abs(-e) * m.magnitude(v.Scale(-k));
  }

  /** Off the center of mass, the ellipse center is p - (p - com) / (1 + e). */
  lemma OffsetTowardsCenter(m: Maths, p: Vec, com: Vec, e: real)
    requires Valid(m)
    requires 0.0 <= e
    requires p != com
    ensures EllipseCenter(m, p, com, e) == p.Sub(p.Sub(com).Scale(1.0 / (1.0 + e)))
  {
    var line := p.Sub(com);
    assert line != Zero;
    NormalizedIsUnitDirection(m, line);
    var len := m.magnitude(line);
    var n := m.normalized(line);
    assert n.Scale(len) == line;
    DivAsProduct(len, 1.0 + e);
    ScaleTwice(n, len, 1.0 / (1.0 + e));
  }

  /** k = 1 / (1 + e) is positive, and 1 - k == e * k. */
  lemma ReciprocalOfOnePlus(e: real)
    requires 0.0 <= e
    ensures 0.0 < 1.0 / (1.0 + e)
    ensures 1.0 - 1.0 / (1.0 + e) == e * (1.0 / (1.0 + e))
  {
    var k := 1.0 / (1.0 + e);
    assert k * (1.0 + e) == 1.0;
  }

  lemma DivAsProduct(a: real, d: real)
    requires d != 0.0
    ensures a / d == a * (1.0 / d)
  {
  }

  lemma ScaleTwice(v: Vec, a: real, b: real)
    ensures v.Scale(a).Scale(b) == v.Scale(a * b)
  {
  }

  // ---------------------------------------------------------------------------
  // The loops both revisions share, over the working arrays

  /** Draws every mass into masses and weights and accumulates totalWeights. */
  method DrawMasses(s: Settings, draws: seq<real>, masses: array<real>, weights: array<real>)
    returns (totalWeights: real)
    requires AllFractions(draws)
    requires masses.Length == |draws| && weights.Length == |draws|
    requires masses != weights
    modifies masses, weights
    ensures masses[..] == Masses(s, draws)
    ensures weights[..] == masses[..]
    ensures totalWeights == Sum(weights[..])
  {
    totalWeights := 0.0;
    for i := 0 to masses.Length
      invariant masses[..i] == Masses(s, draws)[..i]
      invariant weights[..i] == masses[..i]
      invariant totalWeights == Sum(weights[..i])
    {
      masses[i] := RandomRange(s.minMass, s.maxMass, draws[i]);
      weights[i] := masses[i];
      totalWeights := totalWeights + weights[i];
      assert weights[..i + 1][..i] == weights[..i];
    }
    assert masses[..] == masses[..masses.Length];
    assert weights[..] == weights[..weights.Length];
  }

  /** The running sums of a prefix grow by the next element. */
  lemma SumsExtend(ps: seq<Vec>, ws: seq<real>, i: int)
    requires |ps| == |ws|
    requires 0 <= i < |ps|
    ensures VecSum(ps[..i + 1]) == VecSum(ps[..i]).Add(ps[i])
    ensures WeightedSum(ps[..i + 1], ws[..i + 1]) == WeightedSum(ps[..i], ws[..i]).Add(ps[i].Scale(ws[i]))
    ensures Sum(ws[..i + 1]) == Sum(ws[..i]) + ws[i]
  {
    assert ps[..i + 1][..i] == ps[..i];
    assert ws[..i + 1][..i] == ws[..i];
  }

  lemma MeansOfSums(ps: seq<Vec>, ws: seq<real>, vs: Vec, wsum: Vec, b: Vec, c: Vec)
    requires |ps| == |ws|
    requires vs == VecSum(ps) && wsum == WeightedSum(ps, ws)
    requires b == if |ps| > 0 then vs.Div(|ps| as real) else vs
    requires c == if Sum(ws) != 0.0 then wsum.Div(Sum(ws)) else Zero
    ensures b == Barycenter(ps)
    ensures c == CenterOfMass(ps, ws)
  {
  }

  /** One pass of the sampling loop: fresh positions, their barycenter and their center of mass. */
  method SampleAttempt(worldSize: Vec, radii: seq<real>, attempt: seq<Vec>,
                       weights: array<real>, totalWeights: real, positions: array<Vec>)
    returns (barycenter: Vec, centerOfMass: Vec)
    requires |radii| == |attempt| == positions.Length == weights.Length
    requires totalWeights == Sum(weights[..])
    modifies positions
    ensures positions[..] == SampledPositions(worldSize, radii, attempt)
    ensures barycenter == Barycenter(positions[..])
    ensures centerOfMass == CenterOfMass(positions[..], weights[..])
  {
    var n := positions.Length;
    centerOfMass := Zero;
    barycenter := Zero;
    ghost var sampled := SampledPositions(worldSize, radii, attempt);
    ghost var ws := weights[..];
    for i := 0 to n
      invariant forall k :: 0 <= k < i ==> positions[k] == sampled[k]
      invariant barycenter == VecSum(sampled[..i])
      invariant centerOfMass == WeightedSum(sampled[..i], ws[..i])
    {
      positions[i] := SampledPosition(worldSize, radii[i], attempt[i]);
      barycenter := barycenter.Add(positions[i]);
      centerOfMass := centerOfMass.Add(positions[i].Scale(weights[i]));
      SumsExtend(sampled, ws, i);
    }
    assert positions[..] == sampled;
    assert sampled[..n] == sampled;
    assert ws[..n] == ws;
    ghost var vs, wsum := barycenter, centerOfMass;
    if n > 0 {
      barycenter := barycenter.Div(n as real);
    }
    if totalWeights != 0.0 {
      centerOfMass := centerOfMass.Div(totalWeights);
    } else {
      // the source divides by zero here (a NaN vector); only reachable with no bodies
      centerOfMass := Zero;
    }
    MeansOfSums(sampled, ws, vs, wsum, barycenter, centerOfMass);
  }

  /** The nested pair loop: apart stays true unless some pair of surfaces is too close. */
  method CheckApart(m: Maths, positions: array<Vec>, radii: seq<real>, minDistance: real)
    returns (apart: bool)
    requires positions.Length == |radii|
    ensures apart == Apart(m, positions[..], radii, minDistance)
  {
    var n := positions.Length;
    ghost var ps := positions[..];
    apart := true;
    for i := 0 to n
      invariant apart == (forall p, q :: 0 <= p < i && p < q < n ==> PairApart(m, ps, radii, minDistance, p, q))
    {
      for j := i + 1 to n
        invariant apart == ((forall p, q :: 0 <= p < i && p < q < n ==> PairApart(m, ps, radii, minDistance, p, q))
                            && (forall q :: i < q < j ==> PairApart(m, ps, radii, minDistance, i, q)))
      {
        assert PairApart(m, ps, radii, minDistance, i, j)
          == !(m.magnitude(positions[i].Sub(positions[j])) - (radii[i] + radii[j]) < minDistance);
        if m.magnitude(positions[i].Sub(positions[j])) - (radii[i] + radii[j]) < minDistance {
          apart := false;
        }
      }
    }
  }

  /** The tilt of every position. */
  function Tilts(m: Maths, ps: seq<Vec>, com: Vec): (ts: seq<real>)
    ensures |ts| == |ps|
  {
    seq(|ps|, i requires 0 <= i < |ps| => Tilt(m, ps[i], com))
  }

  /** orbitTilts[i] := the signed angle of positions[i] around the center of mass. */
  method FindTilts(m: Maths, positions: array<Vec>, centerOfMass: Vec, orbitTilts: array<real>)
    requires orbitTilts.Length == positions.Length
    modifies orbitTilts
    ensures orbitTilts[..] == Tilts(m, positions[..], centerOfMass)
  {
    for i := 0 to positions.Length
      invariant forall k :: 0 <= k < i ==> orbitTilts[k] == Tilt(m, positions[k], centerOfMass)
    {
      if positions[i].y < centerOfMass.y {
        orbitTilts[i] := -m.angle(Right, m.normalized(positions[i].Sub(centerOfMass)));
      } else {
        orbitTilts[i] := m.angle(Right, m.normalized(positions[i].Sub(centerOfMass)));
      }
    }
  }

  // ---------------------------------------------------------------------------
  // The accepted attempt and the centered layout it yields

  /** The positions sampled from attempt us pass the separation test. */
  predicate Accepts(m: Maths, s: Settings, worldSize: Vec, radii: seq<real>, us: seq<Vec>) {
    |us| == |radii|
    && Apart(m, SampledPositions(worldSize, radii, us), radii, s.minDistanceBetweenPlanetsSurfaces)
  }

  /** Attempt t is the first one the sampling loop accepts. */
  predicate FirstAccepted(m: Maths, s: Settings, worldSize: Vec, radii: seq<real>, attempts: seq<seq<Vec>>, t: int) {
    && 0 <= t < |attempts|
    && Accepts(m, s, worldSize, radii, attempts[t])
    && forall u :: 0 <= u < t ==> !Accepts(m, s, worldSize, radii, attempts[u])
  }

  /** At most one attempt is the first accepted one. */
  lemma FirstAcceptedIsUnique(m: Maths, s: Settings, worldSize: Vec, radii: seq<real>,
                              attempts: seq<seq<Vec>>, t1: int, t2: int)
    requires FirstAccepted(m, s, worldSize, radii, attempts, t1)
    requires FirstAccepted(m, s, worldSize, radii, attempts, t2)
    ensures t1 == t2
  {
  }

  /** The positions of an attempt after the barycenter is subtracted from each. */
  function CenteredPositions(worldSize: Vec, radii: seq<real>, us: seq<Vec>): (ps: seq<Vec>)
    requires |radii| == |us|
    ensures |ps| == |us|
  {
    var raw := SampledPositions(worldSize, radii, us);
    Shifted(raw, Barycenter(raw))
  }

  /** The center of mass of an attempt, moved by the same translation. */
  function CenteredCenterOfMass(s: Settings, worldSize: Vec, radii: seq<real>, massDraws: seq<real>, us: seq<Vec>): Vec
    requires |radii| == |us| == |massDraws|
    requires AllFractions(massDraws)
  {
    var raw := SampledPositions(worldSize, radii, us);
    CenterOfMass(raw, Masses(s, massDraws)).Sub(Barycenter(raw))
  }

  /**
    Centering an accepted attempt keeps it separated, puts its barycenter at the origin,
    keeps every offset from the center of mass, and the moved center of mass is the
    center of mass of the moved positions.
  */
  lemma CenteredLayout(m: Maths, s: Settings, worldSize: Vec, radii: seq<real>, massDraws: seq<real>, us: seq<Vec>)
    requires |radii| == |us| == |massDraws|
    requires AllFractions(massDraws)
    requires SettingsOk(s) && |us| > 0
    ensures var raw := SampledPositions(worldSize, radii, us);
      var ps := CenteredPositions(worldSize, radii, us);
      var com := CenterOfMass(raw, Masses(s, massDraws));
      var c := CenteredCenterOfMass(s, worldSize, radii, massDraws, us);
      && (Apart(m, ps, radii, s.minDistanceBetweenPlanetsSurfaces) <==> Accepts(m, s, worldSize, radii, us))
      && Barycenter(ps) == Zero
      && CenterOfMass(ps, Masses(s, massDraws)) == c
      && forall i :: 0 <= i < |ps| ==> ps[i].Sub(c) == raw[i].Sub(com)
  {
    var raw := SampledPositions(worldSize, radii, us);
    var masses := Masses(s, massDraws);
    var b := Barycenter(raw);
    CenteringKeepsApart(m, raw, radii, s.minDistanceBetweenPlanetsSurfaces, b);
    CenteringMovesBarycenterToOrigin(raw);
    SumOfPositives(masses);
    CenteringShiftsCenterOfMass(raw, masses, b);
  }

  // ---------------------------------------------------------------------------
  // The generators' inputs and output records

  /** What the generator is given: the inputs a run needs, the random draws included. */
  ghost predicate Inputs(m: Maths, s: Settings, radii: seq<real>, massDraws: seq<real>, eccentricityDraws: seq<real>) {
    && Valid(m)
    && |massDraws| == |radii| == |eccentricityDraws|
    && AllFractions(massDraws) && AllFractions(eccentricityDraws)
    && (forall i :: 0 <= i < |radii| ==> radii[i] >= 0.0)
    && -1.0 < s.maxEccentricity
  }

  /** The positions of a sequence of records. */
  function PositionsOf(bodies: seq<BodyData>): (ps: seq<Vec>)
    ensures |ps| == |bodies|
  {
    seq(|bodies|, i requires 0 <= i < |bodies| => bodies[i].position)
  }

  /** The masses of a sequence of records. */
  function MassesOf(bodies: seq<BodyData>): (ms: seq<real>)
    ensures |ms| == |bodies|
  {
    seq(|bodies|, i requires 0 <= i < |bodies| => bodies[i].mass)
  }

  /**
    The ellipse center of record d lies on the segment from d's position towards com,
    at distance |p - com| / (1 + e), and com is at e times that distance on the other
    side: com is a focus of d's orbit.
  */
  ghost predicate SharesFocus(m: Maths, d: BodyData, com: Vec) {
    var p, e, center := d.position, d.eccentricity, d.ellipseCenter;
    && 0.0 <= e
    && center == p.Add(com.Sub(p).Scale(1.0 / (1.0 + e)))
    && m.magnitude(center.Sub(p)) == m.magnitude(p.Sub(com)) / (1.0 + e)
    && m.magnitude(center.Sub(com)) == e * m.magnitude(center.Sub(p))
  }
  /** A record whose ellipse center EllipseCenter placed, with a non-negative eccentricity, shares the focus com. */
  lemma PlacedCenterSharesFocus(m: Maths, d: BodyData, com: Vec)
    requires Valid(m)
    requires 0.0 <= d.eccentricity
    requires d.ellipseCenter == EllipseCenter(m, d.position, com, d.eccentricity)
    ensures SharesFocus(m, d, com)
  {
    var p, e, c := d.position, d.eccentricity, d.ellipseCenter;
    SharedFocus(m, p, com, e);
    assert c.Sub(p) == EllipseCenter(m, p, com, e).Sub(p);
    assert c.Sub(com) == EllipseCenter(m, p, com, e).Sub(com);
  }
  /**
    A record that shares the focus com and is tilted by Tilt around com has its position
    on the tilted x axis at |center - position| from the center: the apsis of its orbit.
  */
  lemma ApsisIsPosition(m: Maths, d: BodyData, com: Vec)
    requires Valid(m)
    requires SharesFocus(m, d, com)
    requires d.orbitTilt == Tilt(m, d.position, com)
    ensures d.ellipseCenter.Add(m.rotate(d.orbitTilt, Right).Scale(m.magnitude(d.ellipseCenter.Sub(d.position))))
            == d.position
  {
    var p, c, e := d.position, d.ellipseCenter, d.eccentricity;
    var a := m.magnitude(c.Sub(p));
    if p == com {
      assert com.Sub(p) == Zero;
      assert c == p;
      MagnitudeOfZero(m);
      assert m.rotate(d.orbitTilt, Right).Scale(a) == Zero;
    } else {
      TiltTurnsRight(m, p, com);
      DirectionTimesLength(m, p.Sub(com), e);
    }
  }

  /** With len = |v| > 0 and a = len / (1 + e): normalized(v) * a == v / (1 + e). */
  lemma DirectionTimesLength(m: Maths, v: Vec, e: real)
    requires Valid(m)
    requires v != Zero && 0.0 <= e
    ensures m.normalized(v).Scale(m.magnitude(v) / (1.0 + e)) == v.Scale(1.0 / (1.0 + e))
  {
    var len := m.magnitude(v);
    var k := 1.0 / (1.0 + e);
    NormalizedIsUnitDirection(m, v);
    DivAsProduct(len, 1.0 + e);
    assert (1.0 / len) * (len * k) == k by {
      assert (1.0 / len) * (len * k) == ((1.0 / len) * len) * k;
    }
    ScaleTwice(v, 1.0 / len, len * k);
  }



}
