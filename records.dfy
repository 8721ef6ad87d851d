/**
  The record the generator produces for each body (Scripts/BodyData.cs): six values with
  private setters and no mutating method, hence a datatype. The same six values, in the
  same order, are the arguments of the six-argument `init` that both generator revisions
  call, so the generators' output is modelled as a sequence of these records.
*/
module Records {
  import opened Geometry

  datatype BodyData = BodyData(
    position: Vec,
    mass: real,
    orbitalSpeed: real,
    eccentricity: real,
    orbitTilt: real,
    ellipseCenter: Vec)

  /** The constructor stores each argument unchanged, and a record is rebuilt exactly from its fields. */
  lemma ConstructorStoresArguments(position: Vec, mass: real, orbitalSpeed: real,
                                   eccentricity: real, orbitTilt: real, ellipseCenter: Vec)
    ensures var d := BodyData(position, mass, orbitalSpeed, eccentricity, orbitTilt, ellipseCenter);
      && d.position == position && d.mass == mass
      && d.orbitalSpeed == orbitalSpeed && d.eccentricity == eccentricity
      && d.orbitTilt == orbitTilt && d.ellipseCenter == ellipseCenter
      && BodyData(d.position, d.mass, d.orbitalSpeed, d.eccentricity, d.orbitTilt, d.ellipseCenter) == d
  {
  }
}
