/** The deep-space tables of js/universeData.js (galaxies, nebulae and the
  * exotic objects) and the branch each one selects when the scene builds it. */
module DeepSpace {
  import opened Common

  datatype GalaxyKey = Andromeda | Triangulum | Sombrero | Whirlpool | Cartwheel | Cigar | BlackEye | Pinwheel
  datatype NebulaKey = Orion | Crab | Helix | PillarsOfCreation | CatEye | Horsehead | RingNebula | Tarantula
  datatype ExoticKey = SagittariusAStar | M87BlackHole | CygX1

  /** The fields of an entry the scene reads: `type`, `position`, `scale` and (exotic objects only) `mass`. */
  datatype DeepObject = DeepObject(kind: string, position: Vec3, scale: real, mass: string)

  const GalaxyKeys: seq<GalaxyKey> := [Andromeda, Triangulum, Sombrero, Whirlpool, Cartwheel, Cigar, BlackEye, Pinwheel]
  const NebulaKeys: seq<NebulaKey> := [Orion, Crab, Helix, PillarsOfCreation, CatEye, Horsehead, RingNebula, Tarantula]
  const ExoticKeys: seq<ExoticKey> := [SagittariusAStar, M87BlackHole, CygX1]

  /** `GALAXIES[k]`. */
  function Galaxy(k: GalaxyKey): DeepObject
  {
    match k
    case Andromeda => DeepObject("Spiral Galaxy", Vec3(800.0, 200.0, -600.0), 50.0, "")
    case Triangulum => DeepObject("Spiral Galaxy", Vec3(600.0, -100.0, -800.0), 25.0, "")
    case Sombrero => DeepObject("Lenticular/Spiral Galaxy", Vec3(-700.0, 300.0, 500.0), 30.0, "")
    case Whirlpool => DeepObject("Spiral Galaxy", Vec3(500.0, -300.0, 700.0), 35.0, "")
    case Cartwheel => DeepObject("Ring Galaxy", Vec3(-900.0, -200.0, -400.0), 40.0, "")
    case Cigar => DeepObject("Starburst Galaxy", Vec3(400.0, 400.0, -500.0), 20.0, "")
    case BlackEye => DeepObject("Spiral Galaxy", Vec3(-500.0, 100.0, 800.0), 28.0, "")
    case Pinwheel => DeepObject("Spiral Galaxy", Vec3(300.0, -400.0, -600.0), 45.0, "")
  }

  /** `NEBULAE[k]`. */
  function Nebula(k: NebulaKey): DeepObject
  {
    match k
    case Orion => DeepObject("Emission/Reflection Nebula", Vec3(200.0, 50.0, 300.0), 15.0, "")
    case Crab => DeepObject("Supernova Remnant", Vec3(-150.0, 100.0, 250.0), 10.0, "")
    case Helix => DeepObject("Planetary Nebula", Vec3(180.0, -80.0, -200.0), 12.0, "")
    case PillarsOfCreation => DeepObject("Star-Forming Region (Eagle Nebula)", Vec3(-250.0, 150.0, 350.0), 18.0, "")
    case CatEye => DeepObject("Planetary Nebula", Vec3(100.0, 200.0, -150.0), 8.0, "")
    case Horsehead => DeepObject("Dark Nebula", Vec3(-180.0, -60.0, 280.0), 14.0, "")
    case RingNebula => DeepObject("Planetary Nebula", Vec3(220.0, -120.0, -100.0), 9.0, "")
    case Tarantula => DeepObject("Emission Nebula", Vec3(-300.0, -180.0, 400.0), 25.0, "")
  }

  /** `EXOTIC_OBJECTS[k]`. */
  function Exotic(k: ExoticKey): DeepObject
  {
    match k
    case SagittariusAStar =>
      DeepObject("Supermassive Black Hole", Vec3(0.0, 0.0, 0.0), 8.0, "4 million solar masses")
    case M87BlackHole =>
      DeepObject("Supermassive Black Hole", Vec3(-600.0, 250.0, -350.0), 20.0, "6.5 billion solar masses")
    case CygX1 =>
      DeepObject("Stellar Black Hole", Vec3(120.0, 180.0, -220.0), 5.0, "21 solar masses")
  }

  /** The key spelling of each table entry, and its inverse. */
  function GalaxyName(k: GalaxyKey): string
  {
    match k
    case Andromeda => "andromeda"
    case Triangulum => "triangulum"
    case Sombrero => "sombrero"
    case Whirlpool => "whirlpool"
    case Cartwheel => "cartwheel"
    case Cigar => "cigar"
    case BlackEye => "blackEye"
    case Pinwheel => "pinwheel"
  }

  function ParseGalaxy(s: string): (r: Option<GalaxyKey>)
    ensures r.Some? ==> GalaxyName(r.value) == s
  {
    if s == "andromeda" then Some(Andromeda)
    else if s == "triangulum" then Some(Triangulum)
    else if s == "sombrero" then Some(Sombrero)
    else if s == "whirlpool" then Some(Whirlpool)
    else if s == "cartwheel" then Some(Cartwheel)
    else if s == "cigar" then Some(Cigar)
    else if s == "blackEye" then Some(BlackEye)
    else if s == "pinwheel" then Some(Pinwheel)
    else None
  }

  function NebulaName(k: NebulaKey): string
  {
    match k
    case Orion => "orion"
    case Crab => "crab"
    case Helix => "helix"
    case PillarsOfCreation => "pillarsOfCreation"
    case CatEye => "catEye"
    case Horsehead => "horsehead"
    case RingNebula => "ringNebula"
    case Tarantula => "tarantula"
  }

  function ParseNebula(s: string): (r: Option<NebulaKey>)
    ensures r.Some? ==> NebulaName(r.value) == s
  {
    if s == "orion" then Some(Orion)
    else if s == "crab" then Some(Crab)
    else if s == "helix" then Some(Helix)
    else if s == "pillarsOfCreation" then Some(PillarsOfCreation)
    else if s == "catEye" then Some(CatEye)
    else if s == "horsehead" then Some(Horsehead)
    else if s == "ringNebula" then Some(RingNebula)
    else if s == "tarantula" then Some(Tarantula)
    else None
  }

  function ExoticName(k: ExoticKey): string
  {
    match k
    case SagittariusAStar => "sagittariusAStar"
    case M87BlackHole => "m87BlackHole"
    case CygX1 => "cygX1"
  }

  function ParseExotic(s: string): (r: Option<ExoticKey>)
    ensures r.Some? ==> ExoticName(r.value) == s
  {
    if s == "sagittariusAStar" then Some(SagittariusAStar)
    else if s == "m87BlackHole" then Some(M87BlackHole)
    else if s == "cygX1" then Some(CygX1)
    else None
  }

  lemma DeepNamesRoundTrip(g: GalaxyKey, n: NebulaKey, e: ExoticKey)
    ensures ParseGalaxy(GalaxyName(g)) == Some(g)
    ensures ParseNebula(NebulaName(n)) == Some(n)
    ensures ParseExotic(ExoticName(e)) == Some(e)
  {
  }

  /** The key lists name every object of each table, once in table order. */
  lemma DeepKeysComplete()
    ensures forall g: GalaxyKey :: g in GalaxyKeys
    ensures forall n: NebulaKey :: n in NebulaKeys
    ensures forall e: ExoticKey :: e in ExoticKeys
  {
    forall g: GalaxyKey ensures g in GalaxyKeys {
      match g
      case Andromeda => case Triangulum => case Sombrero => case Whirlpool =>
      case Cartwheel => case Cigar => case BlackEye => case Pinwheel =>
    }
    forall n: NebulaKey ensures n in NebulaKeys {
      match n
      case Orion => case Crab => case Helix => case PillarsOfCreation =>
      case CatEye => case Horsehead => case RingNebula => case Tarantula =>
    }
    forall e: ExoticKey ensures e in ExoticKeys {
      match e
      case SagittariusAStar => case M87BlackHole => case CygX1 =>
    }
  }

  datatype GalaxyMesh = SpiralMesh | RingMesh | EllipticalMesh

  /** The mesh routine `createGalaxyObject` calls for a galaxy type. */
  function GalaxyMeshFor(kind: string): (r: GalaxyMesh)
    ensures r == SpiralMesh <==> Contains(kind, "Spiral")
    ensures r == RingMesh <==> !Contains(kind, "Spiral") && Contains(kind, "Ring")
  {
    if Contains(kind, "Spiral") then SpiralMesh
    else if Contains(kind, "Ring") then RingMesh
    else EllipticalMesh
  }

  datatype NebulaStyle = EmissionStyle | PlanetaryStyle | ReflectionStyle | DarkStyle

  /** `getNebulaType(key)`: the built-in table, defaulting to `'emission'`.
    * Its keys are not the keys of NEBULAE except `orion`, `crab`, `helix` and `horsehead`. */
  function NebulaTypeByKey(key: string): string
  {
    if key == "orion" || key == "eagle" || key == "carina" || key == "lagoon" || key == "pillars" then "emission"
    else if key == "crab" || key == "helix" || key == "ring" then "planetary"
    else if key == "horsehead" then "dark"
    else "emission"
  }

  /** The `switch` of `createNebulaObject`: exact matches, with emission as the default. */
  function NebulaStyleFor(typeText: string): (r: NebulaStyle)
    ensures typeText != "planetary" && typeText != "reflection" && typeText != "dark" ==> r == EmissionStyle
  {
    if typeText == "emission" then EmissionStyle
    else if typeText == "planetary" then PlanetaryStyle
    else if typeText == "reflection" then ReflectionStyle
    else if typeText == "dark" then DarkStyle
    else EmissionStyle
  }

  /** `data.type || this.getNebulaType(key)`: the key table is consulted only for an empty type. */
  function NebulaStyleOf(key: string, d: DeepObject): NebulaStyle
  {
    NebulaStyleFor(if d.kind != "" then d.kind else NebulaTypeByKey(key))
  }

  /** `data.mass && data.mass.includes('billion')`: a black hole gets relativistic jets. */
  predicate HasJets(d: DeepObject)
  {
    d.mass != "" && Contains(d.mass, "billion")
  }

  /** `target.userData.scale || 50`. */
  function FocusScale(d: DeepObject): real
  {
    OrDefault(d.scale, 50.0)
  }

  /** The camera position `focusOnDeepSpaceObject` requests for an object:
    * three scales away from it, one scale higher, and offset equally along
    * x and z. */
  function FocusCamera(d: DeepObject): (r: Vec3)
    ensures SqDistance(r, d.position) == 9.0 * FocusScale(d) * FocusScale(d)
    ensures r.y - d.position.y == FocusScale(d)
    ensures r.x - d.position.x == r.z - d.position.z
  {
    Vec3(d.position.x + FocusScale(d) * 2.0, d.position.y + FocusScale(d), d.position.z + FocusScale(d) * 2.0)
  }

  lemma SpiralTypes()
    ensures GalaxyMeshFor("Spiral Galaxy") == SpiralMesh
    ensures GalaxyMeshFor("Lenticular/Spiral Galaxy") == SpiralMesh
  {
    ContainsAt("Spiral Galaxy", "Spiral", 0);
    ContainsAt("Lenticular/Spiral Galaxy", "Spiral", 11);
  }

  lemma RingType()
    ensures GalaxyMeshFor("Ring Galaxy") == RingMesh
  {
    NotContains("Ring Galaxy", "Spiral");
    assert "Ring Galaxy"[0] == 'R' && "Ring Galaxy"[1] == 'i' && "Ring Galaxy"[2] == 'n' && "Ring Galaxy"[3] == 'g';
    ContainsAt("Ring Galaxy", "Ring", 0);
  }

  lemma StarburstType()
    ensures GalaxyMeshFor("Starburst Galaxy") == EllipticalMesh
  {
    assert "Starburst Galaxy"[0..6][1] == 't';
    NotContains("Starburst Galaxy", "Spiral");
    NotContains("Starburst Galaxy", "Ring");
  }

  /** Six galaxy types contain "Spiral" (the Sombrero's "Lenticular/Spiral" among them),
    * only the Cartwheel takes the ring branch, and only the Cigar the elliptical one. */
  lemma GalaxyDispatch(k: GalaxyKey)
    ensures GalaxyMeshFor(Galaxy(k).kind) == RingMesh <==> k == Cartwheel
    ensures GalaxyMeshFor(Galaxy(k).kind) == EllipticalMesh <==> k == Cigar
    ensures GalaxyMeshFor(Galaxy(k).kind) == SpiralMesh <==> k !in {Cartwheel, Cigar}
  {
    SpiralTypes();
    RingType();
    StarburstType();
  }

  /** Every nebula has a non-empty type that matches no `case`, so `getNebulaType`
    * is never consulted and every nebula is built by the emission branch. */
  lemma NebulaDispatch(k: NebulaKey)
    ensures Nebula(k).kind != ""
    ensures NebulaStyleOf(NebulaName(k), Nebula(k)) == EmissionStyle
  {
  }

  /** Only M87*'s mass mentions "billion", so only it gets relativistic jets. */
  lemma JetDispatch(k: ExoticKey)
    ensures HasJets(Exotic(k)) <==> k == M87BlackHole
  {
    match k
    case SagittariusAStar => NotContains("4 million solar masses", "billion");
    case M87BlackHole => ContainsAt("6.5 billion solar masses", "billion", 4);
    case CygX1 => NotContains("21 solar masses", "billion");
  }

  /** Every object has a non-zero scale, so the default of 50 is never used. */
  lemma FocusUsesOwnScale(g: GalaxyKey, n: NebulaKey, e: ExoticKey)
    ensures FocusScale(Galaxy(g)) == Galaxy(g).scale > 0.0
    ensures FocusScale(Nebula(n)) == Nebula(n).scale > 0.0
    ensures FocusScale(Exotic(e)) == Exotic(e).scale > 0.0
  {
  }

  /** The camera ends strictly above the object, at three times the
    * object's own scale. */
  predicate FocusedFromAbove(d: DeepObject)
  {
    FocusCamera(d).y > d.position.y && SqDistance(FocusCamera(d), d.position) == 9.0 * d.scale * d.scale
  }

  /** Every object of the tables is focused from above at three of its own scales. */
  lemma FocusAboveObject(g: GalaxyKey, n: NebulaKey, e: ExoticKey)
    ensures FocusedFromAbove(Galaxy(g)) && FocusedFromAbove(Nebula(n)) && FocusedFromAbove(Exotic(e))
  {
    FocusUsesOwnScale(g, n, e);
    FocusedWhenScalePositive(Galaxy(g));
    FocusedWhenScalePositive(Nebula(n));
    FocusedWhenScalePositive(Exotic(e));
  }

  lemma FocusedWhenScalePositive(d: DeepObject)
    requires d.scale > 0.0
    ensures FocusedFromAbove(d)
  {
  }
}
