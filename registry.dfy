/** The body registry of js/planetData.js: the Sun, the planets, the moons
  * and the guided-tour steps, as constant sequences in declaration order
  * (the iteration order of the original object literals). */
module Registry {
  import opened Common

  /** The three motion fields every orbiting body has and the Sun lacks. */
  datatype OrbitData = OrbitData(orbitRadius: real, orbitSpeed: real, rotationSpeed: real)

  /** The keys of PLANET_DATA. */
  datatype BodyKey = Sun | Mercury | Venus | Earth | Mars | Jupiter | Saturn | Uranus | Neptune | Pluto

  /** The keys of MOON_DATA. */
  datatype MoonKey = TheMoon | Phobos | Deimos | Io | Europa | Ganymede | Callisto
                   | Titan | Enceladus | Triton | Charon

  /** The string a body key is spelled as in the source (and in the scene objects' `name`). */
  function BodyName(k: BodyKey): string
  {
    match k
    case Sun => "sun"
    case Mercury => "mercury"
    case Venus => "venus"
    case Earth => "earth"
    case Mars => "mars"
    case Jupiter => "jupiter"
    case Saturn => "saturn"
    case Uranus => "uranus"
    case Neptune => "neptune"
    case Pluto => "pluto"
  }

  /** The key a name denotes, if any (`PLANET_DATA[name]` being defined). */
  function ParseBody(s: string): (r: Option<BodyKey>)
    ensures r.Some? ==> BodyName(r.value) == s
  {
    if s == "sun" then Some(Sun)
    else if s == "mercury" then Some(Mercury)
    else if s == "venus" then Some(Venus)
    else if s == "earth" then Some(Earth)
    else if s == "mars" then Some(Mars)
    else if s == "jupiter" then Some(Jupiter)
    else if s == "saturn" then Some(Saturn)
    else if s == "uranus" then Some(Uranus)
    else if s == "neptune" then Some(Neptune)
    else if s == "pluto" then Some(Pluto)
    else None
  }

  /** Parsing and spelling are inverse: every key's name parses back to it. */
  lemma BodyNameRoundTrip(k: BodyKey)
    ensures ParseBody(BodyName(k)) == Some(k)
  {
  }

  datatype Planet = Planet(
    name: string,
    kind: string,
    diameter: real,
    mass: string,
    gravity: real,
    orbitalPeriod: real,
    distanceFromSun: real,
    moons: nat,
    temperature: string,
    dayLength: string,
    orbitalInclination: real,
    axialTilt: real,
    size: real,
    motion: Option<OrbitData>,
    atmosphere: bool,
    hasRings: bool)

  datatype Moon = Moon(name: string, parent: BodyKey, size: real, orbitRadius: real, orbitSpeed: real)

  /** `PLANET_DATA[k].size`: the body's radius in scene units. */
  function BodySize(k: BodyKey): real
  {
    match k
    case Sun => 20.0
    case Mercury => 0.8
    case Venus => 1.2
    case Earth => 1.3
    case Mars => 1.0
    case Jupiter => 4.5
    case Saturn => 4.0
    case Uranus => 2.5
    case Neptune => 2.4
    case Pluto => 0.5
  }

  /** The motion fields of `PLANET_DATA[k]`; the Sun has none. */
  function BodyOrbit(k: BodyKey): Option<OrbitData>
  {
    match k
    case Sun => None
    case Mercury => Some(OrbitData(30.0, 4.15, 0.017))
    case Venus => Some(OrbitData(45.0, 1.62, -0.004))
    case Earth => Some(OrbitData(62.0, 1.0, 1.0))
    case Mars => Some(OrbitData(80.0, 0.53, 0.97))
    case Jupiter => Some(OrbitData(110.0, 0.084, 2.42))
    case Saturn => Some(OrbitData(145.0, 0.034, 2.24))
    case Uranus => Some(OrbitData(180.0, 0.012, -1.39))
    case Neptune => Some(OrbitData(215.0, 0.006, 1.49))
    case Pluto => Some(OrbitData(250.0, 0.004, -0.156))
  }

  /** `PLANET_DATA[k]`, its size and motion fields as above. */
  function PlanetData(k: BodyKey): Planet
  {
    match k
    case Sun =>
      Planet("Sun", "Star", 1392700.0, "1.989 × 10³⁰", 274.0, 0.0, 0.0, 0,
             "5,500°C (surface)", "25-35 days", 0.0, 7.25, BodySize(k), BodyOrbit(k), false, false)
    case Mercury =>
      Planet("Mercury", "Terrestrial", 4879.0, "3.30 × 10²³", 3.7, 88.0, 57900000.0, 0,
             "-180 to 430°C", "59 Earth days", 7.0, 0.034, BodySize(k), BodyOrbit(k), false, false)
    case Venus =>
      Planet("Venus", "Terrestrial", 12104.0, "4.87 × 10²⁴", 8.87, 225.0, 108200000.0, 0,
             "462°C (average)", "243 Earth days", 3.4, 177.4, BodySize(k), BodyOrbit(k), true, false)
    case Earth =>
      Planet("Earth", "Terrestrial", 12742.0, "5.97 × 10²⁴", 9.8, 365.25, 149600000.0, 1,
             "-88 to 58°C", "24 hours", 0.0, 23.44, BodySize(k), BodyOrbit(k), true, false)
    case Mars =>
      Planet("Mars", "Terrestrial", 6779.0, "6.42 × 10²³", 3.71, 687.0, 227900000.0, 2,
             "-87 to -5°C", "24.6 hours", 1.85, 25.19, BodySize(k), BodyOrbit(k), false, false)
    case Jupiter =>
      Planet("Jupiter", "Gas Giant", 139820.0, "1.90 × 10²⁷", 24.79, 4333.0, 778500000.0, 95,
             "-110°C (cloud tops)", "9.9 hours", 1.3, 3.13, BodySize(k), BodyOrbit(k), false, false)
    case Saturn =>
      Planet("Saturn", "Gas Giant", 116460.0, "5.68 × 10²⁶", 10.44, 10759.0, 1434000000.0, 146,
             "-140°C (cloud tops)", "10.7 hours", 2.49, 26.73, BodySize(k), BodyOrbit(k), false, true)
    case Uranus =>
      Planet("Uranus", "Ice Giant", 50724.0, "8.68 × 10²⁵", 8.69, 30687.0, 2871000000.0, 28,
             "-195°C (cloud tops)", "17.2 hours", 0.77, 97.77, BodySize(k), BodyOrbit(k), false, true)
    case Neptune =>
      Planet("Neptune", "Ice Giant", 49244.0, "1.02 × 10²⁶", 11.15, 60190.0, 4495000000.0, 16,
             "-200°C (cloud tops)", "16.1 hours", 1.77, 28.32, BodySize(k), BodyOrbit(k), false, false)
    case Pluto =>
      Planet("Pluto", "Dwarf Planet", 2377.0, "1.30 × 10²²", 0.62, 90560.0, 5906000000.0, 5,
             "-230°C", "6.4 Earth days", 17.16, 122.53, BodySize(k), BodyOrbit(k), false, false)
  }

  /** The order of the PLANET_DATA literal. */
  const PlanetKeys: seq<BodyKey> := [Sun, Mercury, Venus, Earth, Mars, Jupiter, Saturn, Uranus, Neptune, Pluto]

  /** `MOON_DATA[k]`. */
  function MoonData(k: MoonKey): Moon
  {
    match k
    case TheMoon => Moon("Moon", Earth, 0.27, 3.0, 13.37)
    case Phobos => Moon("Phobos", Mars, 0.05, 1.5, 50.0)
    case Deimos => Moon("Deimos", Mars, 0.03, 2.2, 30.0)
    case Io => Moon("Io", Jupiter, 0.28, 6.0, 17.0)
    case Europa => Moon("Europa", Jupiter, 0.24, 7.5, 13.0)
    case Ganymede => Moon("Ganymede", Jupiter, 0.41, 9.0, 8.0)
    case Callisto => Moon("Callisto", Jupiter, 0.37, 11.0, 5.0)
    case Titan => Moon("Titan", Saturn, 0.4, 8.0, 6.0)
    case Enceladus => Moon("Enceladus", Saturn, 0.08, 6.0, 20.0)
    case Triton => Moon("Triton", Neptune, 0.21, 5.0, -10.0)
    case Charon => Moon("Charon", Pluto, 0.1, 2.0, 15.0)
  }

  /** The order of the MOON_DATA literal. */
  const MoonKeys: seq<MoonKey> := [TheMoon, Phobos, Deimos, Io, Europa, Ganymede, Callisto,
                                   Titan, Enceladus, Triton, Charon]

  /** The `target` of each TOUR_STEPS entry; `None` is the JS `null`. */
  const TourTargets: seq<Option<string>> := [
    None, Some("sun"), Some("mercury"), Some("venus"), Some("earth"), Some("mars"),
    Some("jupiter"), Some("saturn"), Some("uranus"), Some("neptune")
  ]

  /** The planets `createPlanets` builds, in construction order: the eight
    * planets, then Pluto. The Sun is built separately and is never one of them. */
  const BuiltPlanets: seq<BodyKey> := [Mercury, Venus, Earth, Mars, Jupiter, Saturn, Uranus, Neptune, Pluto]

  /** `Object.values(MOON_DATA).filter(m => m.parent === parent)`, as keys. */
  function MoonsOf(ms: seq<MoonKey>, parent: BodyKey): seq<MoonKey>
  {
    Filter(ms, (m: MoonKey) => MoonData(m).parent == parent)
  }

  /** The moons `createMoonsForPlanet` attaches, planet by planet, when it
    * filters the table `ms`. */
  function AttachedMoons(planets: seq<BodyKey>, ms: seq<MoonKey>): seq<MoonKey>
  {
    if planets == [] then [] else MoonsOf(ms, planets[0]) + AttachedMoons(planets[1..], ms)
  }

  /** The names `selectPlanet` and `focusOnPlanet` resolve: the Sun or a built planet. */
  predicate Resolvable(name: string)
  {
    ParseBody(name).Some? && (ParseBody(name).value == Sun || ParseBody(name).value in BuiltPlanets)
  }

  /** Filtering the table by a parent keeps a moon's occurrences exactly when
    * that is the moon's parent. */
  lemma MoonsOfCount(ms: seq<MoonKey>, parent: BodyKey, m: MoonKey)
    ensures Count(MoonsOf(ms, parent), m) == if MoonData(m).parent == parent then Count(ms, m) else 0
  {
    CountFilter(ms, (k: MoonKey) => MoonData(k).parent == parent, m);
  }

  /** A moon is attached once per occurrence of its parent among the built
    * planets, times its occurrences in the table. */
  lemma {:induction false} AttachedCount(ps: seq<BodyKey>, ms: seq<MoonKey>, m: MoonKey)
    ensures Count(AttachedMoons(ps, ms), m) == Count(ps, MoonData(m).parent) * Count(ms, m)
  {
    if ps != [] {
      var p, c := MoonData(m).parent, Count(ms, m);
      CountConcat(MoonsOf(ms, ps[0]), AttachedMoons(ps[1..], ms), m);
      MoonsOfCount(ms, ps[0], m);
      AttachedCount(ps[1..], ms, m);
      var rest := Count(ps[1..], p);
      var here := if ps[0] == p then 1 else 0;
      assert Count(ps, p) == here + rest;
      assert Count(AttachedMoons(ps, ms), m) == here * c + rest * c;
      MulDistributes(here, rest, c);
    }
  }

  lemma MulDistributes(a: nat, b: nat, c: nat)
    ensures (a + b) * c == a * c + b * c
  {
  }

  /** Every planet other than the Sun is built, and none twice; every moon key
    * occurs once in MOON_DATA. */
  lemma KeyTablesComplete()
    ensures Distinct(BuiltPlanets) && forall k :: k in BuiltPlanets <==> k != Sun
    ensures Distinct(MoonKeys) && forall m :: m in MoonKeys
  {
    forall m: MoonKey ensures m in MoonKeys {
      match m
      case TheMoon => case Phobos => case Deimos => case Io => case Europa => case Ganymede =>
      case Callisto => case Titan => case Enceladus => case Triton => case Charon =>
    }
  }

  /** Every moon's parent is a built planet, so `createMoonsForPlanet` attaches
    * every moon of MOON_DATA exactly once. */
  lemma MoonsAttachedOnce(m: MoonKey)
    ensures MoonData(m).parent in BuiltPlanets
    ensures Count(AttachedMoons(BuiltPlanets, MoonKeys), m) == 1
  {
    assert MoonData(m).parent != Sun;
    KeyTablesComplete();
    DistinctCount(BuiltPlanets, MoonData(m).parent);
    DistinctCount(MoonKeys, m);
    AttachedCount(BuiltPlanets, MoonKeys, m);
  }

  /** Every tour target is `null` or a name the scene resolves; step 0 is `null`. */
  lemma TourTargetsResolve()
    ensures |TourTargets| == 10 && TourTargets[0] == None
    ensures forall i :: 0 <= i < |TourTargets| && TourTargets[i].Some? ==>
              Resolvable(TourTargets[i].value)
  {
  }

  /** The Sun has no motion fields and is not a built planet; every built planet
    * has them, so the motion update only ever spins the Sun. */
  lemma SunOnlySpins()
    ensures BodyOrbit(Sun).None?
    ensures Sun !in BuiltPlanets
    ensures forall k :: k in BuiltPlanets <==> k != Sun
    ensures forall k :: k in BuiltPlanets ==> BodyOrbit(k).Some?
  {
  }

  /** Exactly Venus, Uranus and Pluto rotate backwards; exactly Triton orbits backwards. */
  lemma RetrogradeBodies()
    ensures forall k :: k in BuiltPlanets ==>
              (BodyOrbit(k).value.rotationSpeed < 0.0 <==> k in {Venus, Uranus, Pluto})
    ensures forall m: MoonKey :: MoonData(m).orbitSpeed < 0.0 <==> m == Triton
  {
  }

  /** Exactly Saturn and Uranus carry rings; exactly Venus and Earth an atmosphere. */
  lemma RingsAndAtmospheres()
    ensures forall k: BodyKey :: PlanetData(k).hasRings <==> k == Saturn || k == Uranus
    ensures forall k: BodyKey :: PlanetData(k).atmosphere <==> k == Venus || k == Earth
  {
  }
}
