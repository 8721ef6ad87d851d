/**
  The earlier GameManager (Assets/Scripts/GameManager.cs): only the `generating` and
  `simulating` flags, driven by the generate and simulate callbacks; Update advances
  the planets or replaces them. The generator's output and deltaTime are parameters.
*/
module EarlyManager {
  import opened Common
  import opened Geometry
  import opened Phase
  import EarlyOrbit

  /** A planet after one frame has advanced it: only its phase and position have changed. */
  twostate predicate Advanced(m: Maths, body: EarlyOrbit.Body, deltaTime: real)
    reads body
  {
    && unchanged(body`mass, body`orbitalSpeed, body`eccentricity, body`ellipseCenter, body`foci,
                 body`apsidesRadius, body`orbitTilt)
    && body.angle == Advance(old(body.angle), body.orbitalSpeed * deltaTime)
    && body.position == body.ComputeFixedOrbitPosition(m, body.angle)
  }

  class GameManager {
    var planets: array?<EarlyOrbit.Body>
    var generating: bool
    var simulating: bool

    /** Simulating only ever happens with a set of planets, and the planets are distinct objects. */
    ghost predicate Valid()
      reads this`simulating, this`planets, planets
    {
      && (simulating ==> planets != null)
      && (planets != null ==> Distinct(planets))
    }

    /** The bodies the current frame may move. */
    ghost function Bodies(): set<object>
      reads this`planets, planets
    {
      if planets == null then {} else set i | 0 <= i < planets.Length :: planets[i]
    }

    /** Awake: neither generating nor simulating, and no planets yet. */
    constructor()
      ensures planets == null && !generating && !simulating
      ensures Valid()
    {
      planets := null;
      generating := false;
      simulating := false;
    }

    /** generate(): ask for a new system on the next frame and stop simulating. */
    method Generate()
      requires Valid()
      modifies this`generating, this`simulating
      ensures generating && !simulating
      ensures Valid()
    {
      generating := true;
      simulating := false;
    }

    /** simulate(): start simulating once there are planets; it never stops the simulation. */
    method Simulate()
      requires Valid()
      modifies this`simulating
      ensures simulating == (old(simulating) || planets != null)
      ensures Valid()
    {
      if planets != null {
        simulating := true;
      }
    }

    /** The simulating branch of Update: every planet advances once. */
    method AdvancePlanets(m: Maths, deltaTime: real)
      requires planets != null && Distinct(planets)
      modifies Bodies()
      ensures forall k :: 0 <= k < planets.Length ==> Advanced(m, planets[k], deltaTime)
    {
      var i := 0;
      while i < planets.Length
        invariant 0 <= i <= planets.Length
        invariant forall k :: 0 <= k < i ==> Advanced(m, planets[k], deltaTime)
        invariant forall k :: i <= k < planets.Length ==> unchanged(planets[k])
      {
        assert forall k :: 0 <= k < planets.Length && k != i ==> planets[k] != planets[i];
        planets[i].UpdateFixedOrbitPosition(m, deltaTime);
        i := i + 1;
      }
    }

    /**
      Update: advance the planets while simulating, otherwise replace them with a freshly
      generated system when one was asked for. Destroying the old game objects is not modelled.
    */
    method Update(m: Maths, deltaTime: real, generated: array<EarlyOrbit.Body>)
      requires Valid() && Distinct(generated)
      modifies this`planets, this`generating, Bodies()
      ensures simulating == old(simulating)
      ensures old(simulating) ==> planets == old(planets) && generating == old(generating)
      ensures old(simulating) ==> forall k :: 0 <= k < planets.Length ==> Advanced(m, planets[k], deltaTime)
      ensures !old(simulating) && old(generating) ==> planets == generated && !generating
      ensures !old(simulating) && !old(generating) ==> planets == old(planets) && !generating
      ensures !old(simulating) ==> unchanged(old(Bodies()))
      ensures Valid()
    {
      if simulating {
        AdvancePlanets(m, deltaTime);
      } else if generating {
        planets := generated;
        generating := false;
      }
    }
  }
}
