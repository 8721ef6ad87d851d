/**
  The later GameManager (Scripts/GameManager.cs): a per-frame flag machine over
  `generating`, `simulating` and `showOrbits`, the zoom offset `scale` and the global
  time scale. Key presses arrive as one `Keys` value per frame; the generator's output,
  the frame's deltaTime and the slider value are parameters.
*/
module Manager {
  import opened Common
  import opened Geometry
  import opened Phase
  import Orbit

  /** The keys read by one Update: GetKeyDown for the events, GetKey for the held keys. */
  datatype Keys = Keys(
    returnDown: bool,
    spaceDown: bool,
    upHeld: bool,
    downHeld: bool,
    leftDown: bool,
    rightDown: bool,
    pHeld: bool,
    oHeld: bool,
    escapeDown: bool)

  /** The C# cast (int)x of a float: truncation toward zero. */
  function Truncate(x: real): (r: int)
    ensures 0.0 <= x ==> 0 <= r && r as real <= x < r as real + 1.0
    ensures x < 0.0 ==> r <= 0 && r as real - 1.0 < x <= r as real
  {
    if x >= 0.0 then x.Floor else -((-x).Floor)
  }

  /** The P key: timeScale grows by 0.1 only when the result stays below 100. */
  function Raised(timeScale: real): (r: real)
    ensures r == timeScale + 0.1 <==> timeScale + 0.1 < 100.0
    ensures r == timeScale <==> !(timeScale + 0.1 < 100.0)
    ensures 0.0 < timeScale < 100.0 ==> 0.0 < r < 100.0
    ensures timeScale <= r <= timeScale + 0.1
  {
    if timeScale + 0.1 < 100.0 then timeScale + 0.1 else timeScale
  }

  /** The O key: timeScale shrinks by 0.1 only when the result stays above 0. */
  function Lowered(timeScale: real): (r: real)
    ensures r == timeScale - 0.1 <==> timeScale - 0.1 > 0.0
    ensures r == timeScale <==> !(timeScale - 0.1 > 0.0)
    ensures 0.0 < timeScale < 100.0 ==> 0.0 < r < 100.0
    ensures timeScale - 0.1 <= r <= timeScale
  {
    if timeScale - 0.1 > 0.0 then timeScale - 0.1 else timeScale
  }

  /** One frame's effect on timeScale: P is handled before O. */
  function TimeScaleAfter(timeScale: real, pHeld: bool, oHeld: bool): (r: real)
    ensures 0.0 < timeScale < 100.0 ==> 0.0 < r < 100.0
    ensures !pHeld && !oHeld ==> r == timeScale
    ensures timeScale - 0.1 <= r <= timeScale + 0.1
  {
    var raised := if pHeld then Raised(timeScale) else timeScale;
    if oHeld then Lowered(raised) else raised
  }

  /** Any sequence of frames keeps a timeScale that starts in (0, 100) inside (0, 100). */
  lemma {:induction false} TimeScaleStaysInRange(timeScale: real, frames: seq<Keys>)
    requires 0.0 < timeScale < 100.0
    ensures 0.0 < TimeScaleOver(timeScale, frames) < 100.0
    decreases |frames|
  {
    if frames != [] {
      TimeScaleStaysInRange(TimeScaleAfter(timeScale, frames[0].pHeld, frames[0].oHeld), frames[1..]);
    }
  }

  /** timeScale after a sequence of frames, front to back. */
  function TimeScaleOver(timeScale: real, frames: seq<Keys>): real
    decreases |frames|
  {
    if frames == [] then timeScale
    else TimeScaleOver(TimeScaleAfter(timeScale, frames[0].pHeld, frames[0].oHeld), frames[1..])
  }

  /** The number of frames in which RightArrow went down. */
  function Presses(frames: seq<Keys>): nat
    decreases |frames|
  {
    if frames == [] then 0 else (if frames[0].rightDown then 1 else 0) + Presses(frames[1..])
  }

  /** showOrbits after a sequence of frames, front to back. */
  function ShowOrbitsOver(showOrbits: bool, frames: seq<Keys>): bool
    decreases |frames|
  {
    if frames == [] then showOrbits else ShowOrbitsOver(showOrbits != frames[0].rightDown, frames[1..])
  }

  /** The RightArrow toggle: showOrbits ends flipped exactly when RightArrow went down an odd number of times. */
  lemma {:induction false} ShowOrbitsToggle(showOrbits: bool, frames: seq<Keys>)
    ensures ShowOrbitsOver(showOrbits, frames) == (showOrbits != (Presses(frames) % 2 == 1))
    decreases |frames|
  {
    if frames != [] {
      ShowOrbitsToggle(showOrbits != frames[0].rightDown, frames[1..]);
    }
  }

  /** A planet after one frame has advanced it: only its phase and position have changed. */
  twostate predicate Advanced(m: Maths, body: Orbit.Body, deltaTime: real)
    reads body
  {
    && unchanged(body`mass, body`orbitalSpeed, body`orbitTilt, body`eccentricity, body`ellipseCenter,
                 body`centerOfMass, body`foci, body`apsidesLine, body`semiMajorAxis, body`semiMinorAxis)
    && body.angle == Advance(old(body.angle), body.orbitalSpeed * deltaTime)
    && body.position == body.ComputeFixedOrbitPosition(m, body.angle)
  }

  class GameManager {
    var planets: array?<Orbit.Body>
    var bodyCount: int
    var generating: bool
    var simulating: bool
    const worldSize: Vec
    var scale: real
    var showOrbits: bool
    /** Time.timeScale, the engine's global clock rate. */
    var timeScale: real

    /**
      Simulating only ever happens with a set of planets (so Update never reads a
      missing array), and the planets are distinct objects.
    */
    ghost predicate Valid()
      reads this`simulating, this`planets, planets
    {
      && (simulating ==> planets != null)
      && (planets != null ==> Distinct(planets))
    }

    /** The bodies the current frame may move. */
    ghost function Bodies(): set<object>
      reads this`planets, planets
    {
      if planets == null then {} else set i | 0 <= i < planets.Length :: planets[i]
    }

    /** Awake: the slider gives bodyCount, the camera gives worldSize; nothing is generated yet. */
    constructor(sliderValue: real, worldSize: Vec, timeScale: real)
      ensures planets == null && bodyCount == Truncate(sliderValue) && this.worldSize == worldSize
      ensures !generating && !simulating && scale == 0.0 && showOrbits
      ensures this.timeScale == timeScale
      ensures Valid()
    {
      planets := null;
      bodyCount := Truncate(sliderValue);
      generating := false;
      simulating := false;
      this.worldSize := worldSize;
      scale := 0.0;
      showOrbits := true;
      this.timeScale := timeScale;
    }

    /** generate(): ask for a new system on the next frame and stop simulating. */
    method Generate()
      requires Valid()
      modifies this`generating, this`simulating
      ensures generating && !simulating
      ensures Valid()
    {
      generating := true;
      simulating := false;
    }

    /** simulate(): toggle the simulation, but only once there are planets. */
    method Simulate()
      requires Valid()
      modifies this`simulating
      ensures simulating == if planets != null then !old(simulating) else old(simulating)
      ensures Valid()
    {
      if planets != null {
        simulating := !simulating;
      }
    }

    /** setBodyCount(count): the slider callback. */
    method SetBodyCount(count: real)
      modifies this`bodyCount
      ensures bodyCount == Truncate(count)
    {
      bodyCount := Truncate(count);
    }

    /** The simulating branch of Update: every planet advances once. */
    method AdvancePlanets(m: Maths, deltaTime: real)
      requires planets != null && Distinct(planets)
      modifies Bodies()
      ensures forall k :: 0 <= k < planets.Length ==> Advanced(m, planets[k], deltaTime)
    {
      var i := 0;
      while i < planets.Length
        invariant 0 <= i <= planets.Length
        invariant forall k :: 0 <= k < i ==> Advanced(m, planets[k], deltaTime)
        invariant forall k :: i <= k < planets.Length ==> unchanged(planets[k])
      {
        assert forall k :: 0 <= k < planets.Length && k != i ==> planets[k] != planets[i];
        planets[i].UpdateFixedOrbitPosition(m, deltaTime);
        i := i + 1;
      }
    }

    /**
      The first half of Update: advance the planets while simulating, otherwise replace
      them with a freshly generated system when one was asked for. Destroying the old
      game objects is not modelled.
    */
    method Step(m: Maths, deltaTime: real, generated: array<Orbit.Body>)
      requires Valid() && Distinct(generated)
      modifies this`planets, this`generating, Bodies()
      ensures old(simulating) ==> planets == old(planets) && generating == old(generating)
      ensures old(simulating) ==> forall k :: 0 <= k < planets.Length ==> Advanced(m, planets[k], deltaTime)
      ensures !old(simulating) && old(generating) ==> planets == generated && !generating
      ensures !old(simulating) && !old(generating) ==> planets == old(planets) && !generating
      ensures !old(simulating) ==> unchanged(old(Bodies()))
      ensures Valid()
    {
      if simulating {
        AdvancePlanets(m, deltaTime);
      } else if generating {
        planets := generated;
        generating := false;
      }
    }

    /** Update: one frame, with the keys read during it. Zooming the camera and quitting are not modelled. */
    method Update(m: Maths, keys: Keys, deltaTime: real, generated: array<Orbit.Body>)
      requires Valid() && Distinct(generated)
      modifies this, Bodies()
      ensures var regenerated := !old(simulating) && old(generating);
        && planets == (if regenerated then generated else old(planets))
        && generating == (keys.returnDown || (old(generating) && old(simulating)))
        && simulating == (var s := old(simulating) && !keys.returnDown;
                          if keys.spaceDown && planets != null then !s else s)
      ensures old(simulating) ==> forall k :: 0 <= k < planets.Length ==> Advanced(m, planets[k], deltaTime)
      ensures !old(simulating) ==> unchanged(old(Bodies()))
      ensures scale == old(scale) - (if keys.upHeld then 4.0 * deltaTime else 0.0)
                                  + (if keys.downHeld then 4.0 * deltaTime else 0.0)
      ensures showOrbits == (old(showOrbits) != keys.rightDown)
      ensures timeScale == TimeScaleAfter(old(timeScale), keys.pHeld, keys.oHeld)
      ensures bodyCount == old(bodyCount)
      ensures Valid()
    {
      Step(m, deltaTime, generated);
      HandleKeys(keys, deltaTime);
    }

    /** The second half of Update: the key presses of the frame, in the order the source tests them. */
    method HandleKeys(keys: Keys, deltaTime: real)
      requires Valid()
      modifies this`generating, this`simulating, this`scale, this`showOrbits, this`timeScale
      ensures generating == (keys.returnDown || old(generating))
      ensures simulating == (var s := old(simulating) && !keys.returnDown;
                             if keys.spaceDown && planets != null then !s else s)
      ensures scale == old(scale) - (if keys.upHeld then 4.0 * deltaTime else 0.0)
                                  + (if keys.downHeld then 4.0 * deltaTime else 0.0)
      ensures showOrbits == (old(showOrbits) != keys.rightDown)
      ensures timeScale == TimeScaleAfter(old(timeScale), keys.pHeld, keys.oHeld)
      ensures Valid()
    {
      if keys.returnDown {
        Generate();
      }
      if keys.spaceDown {
        Simulate();
      }
      HandleView(keys, deltaTime);
    }

    /** Zoom, the orbit toggle and the time scale keys. */
    method HandleView(keys: Keys, deltaTime: real)
      modifies this`scale, this`showOrbits, this`timeScale
      ensures scale == old(scale) - (if keys.upHeld then 4.0 * deltaTime else 0.0)
                                  + (if keys.downHeld then 4.0 * deltaTime else 0.0)
      ensures showOrbits == (old(showOrbits) != keys.rightDown)
      ensures timeScale == TimeScaleAfter(old(timeScale), keys.pHeld, keys.oHeld)
    {
      if keys.upHeld {
        scale := scale - 4.0 * deltaTime;
      }
      if keys.downHeld {
        scale := scale + 4.0 * deltaTime;
      }
      if keys.rightDown {
        showOrbits := !showOrbits;
      }
      if keys.pHeld && timeScale + 0.1 < 100.0 {
        timeScale := timeScale + 0.1;
      }
      if keys.oHeld && timeScale - 0.1 > 0.0 {
        timeScale := timeScale - 0.1;
      }
    }
  }
}
