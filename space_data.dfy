/** The space-object tables of js/spaceObjects.js that the scene animates
  * (satellites, comets, alien ships) and the fact lists the interface rotates. */
module SpaceData {
  import opened Common

  datatype SatelliteKey = Iss | Hubble | Jwst | Voyager1 | Voyager2 | Gps | Starlink

  /** The fields of a SATELLITES entry the scene reads; `distance` only on the Voyagers. */
  datatype SatelliteData = SatelliteData(orbit: string, orbitRadius: real, orbitSpeed: real, distance: Option<real>)

  const SatelliteKeys: seq<SatelliteKey> := [Iss, Hubble, Jwst, Voyager1, Voyager2, Gps, Starlink]

  /** `SATELLITES[k]`. */
  function Satellite(k: SatelliteKey): SatelliteData
  {
    match k
    case Iss => SatelliteData("earth", 2.5, 15.0, None)
    case Hubble => SatelliteData("earth", 2.8, 12.0, None)
    case Jwst => SatelliteData("solar", 70.0, 0.8, None)
    case Voyager1 => SatelliteData("heliocentric", 280.0, 0.01, Some(280.0))
    case Voyager2 => SatelliteData("heliocentric", 260.0, 0.012, Some(260.0))
    case Gps => SatelliteData("earth", 3.5, 8.0, None)
    case Starlink => SatelliteData("earth", 2.3, 18.0, None)
  }

  /** The fields of a COMETS entry the scene reads. */
  datatype CometData = CometData(perihelion: real, aphelion: real, speed: real)

  /** COMETS: Halley's, Hale-Bopp and NEOWISE, in that order. */
  const Comets: seq<CometData> := [
    CometData(40.0, 300.0, 0.0005),
    CometData(60.0, 350.0, 0.0003),
    CometData(45.0, 280.0, 0.0004)
  ]

  /** The fields of an ALIEN_SHIPS entry the scene reads. The `speed` field is
    * never used: each ship draws a random orbit speed when it is created. */
  datatype ShipData = ShipData(id: string, speed: real, orbitRadius: real)

  const AlienShips: seq<ShipData> := [
    ShipData("scout", 2.0, 120.0),
    ShipData("mothership", 0.5, 200.0),
    ShipData("cruiser", 1.5, 150.0),
    ShipData("probe", 3.0, 100.0)
  ]

  /** A fact is identified by where it comes from: its category and position
    * there, or its position in the interface's own list of general facts. */
  datatype FactCategory = SatelliteFacts | CometFacts | AsteroidFacts | SpacecraftFacts
  datatype Fact = CategoryFact(category: FactCategory, index: nat) | GeneralFact(index: nat)

  /** `Object.values(SPACE_FACTS)`, in declaration order. */
  const FactCategories: seq<FactCategory> := [SatelliteFacts, CometFacts, AsteroidFacts, SpacecraftFacts]

  /** `SPACE_FACTS[c]`: five facts per category. */
  function SpaceFacts(c: FactCategory): seq<Fact>
  {
    [CategoryFact(c, 0), CategoryFact(c, 1), CategoryFact(c, 2), CategoryFact(c, 3), CategoryFact(c, 4)]
  }

  /** The 25 `generalFacts` of `initSpaceFacts` (js/ui.js). */
  const GeneralFacts: seq<Fact> := [
    GeneralFact(0), GeneralFact(1), GeneralFact(2), GeneralFact(3), GeneralFact(4), GeneralFact(5), GeneralFact(6),
    GeneralFact(7), GeneralFact(8), GeneralFact(9), GeneralFact(10), GeneralFact(11), GeneralFact(12), GeneralFact(13),
    GeneralFact(14), GeneralFact(15), GeneralFact(16), GeneralFact(17), GeneralFact(18), GeneralFact(19), GeneralFact(20),
    GeneralFact(21), GeneralFact(22), GeneralFact(23), GeneralFact(24)
  ]

  /** The concatenation of the category lists, one after the other. */
  function Flatten(cs: seq<FactCategory>): (r: seq<Fact>)
    ensures |r| == 5 * |cs|
  {
    if cs == [] then [] else SpaceFacts(cs[0]) + Flatten(cs[1..])
  }

  /** Only the `'earth'` satellites (ISS, Hubble, GPS, Starlink) orbit Earth; JWST
    * is the only `'solar'` one and the Voyagers the `'heliocentric'` ones. */
  lemma SatelliteOrbits(k: SatelliteKey)
    ensures Satellite(k).orbit == "earth" <==> k in {Iss, Hubble, Gps, Starlink}
    ensures Satellite(k).orbit == "solar" <==> k == Jwst
    ensures Satellite(k).orbit == "heliocentric" <==> k in {Voyager1, Voyager2}
    ensures Satellite(k).orbitSpeed != 0.0 && Satellite(k).orbitRadius != 0.0
  {
  }

  /** Every comet has 0 < perihelion < aphelion and a non-zero speed. */
  lemma CometsWellFormed()
    ensures forall i :: 0 <= i < |Comets| ==>
              0.0 < Comets[i].perihelion < Comets[i].aphelion && Comets[i].speed != 0.0
    ensures forall i :: 0 <= i < |Comets| ==> Comets[i].perihelion >= 40.0
  {
  }

  /** Every alien ship has a positive orbit radius, so the `|| 150` and `|| (100 + …)` fallbacks are unused. */
  lemma ShipsHaveRadius()
    ensures forall i :: 0 <= i < |AlienShips| ==> AlienShips[i].orbitRadius > 0.0
  {
  }
}
