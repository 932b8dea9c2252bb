/** The state of the `SolarSystem` class of js/solarSystem.js: the simulation
  * clock and the bodies it moves, the visibility flags and the objects they
  * govern, the surface-view controller, the space objects and the meteor
  * pool, and the camera requests. Meshes, materials and drawing are reduced
  * to the facts the logic reads (position, visibility, which material). */
module Scene {
  import opened Common
  import opened Registry
  import opened Motion
  import Procedural
  import DeepSpace
  import SpaceData

  // ---------------------------------------------------------------- values

  /** A call of `animateCameraTo`: where the camera is asked to go and the
    * point it is asked to look at. Each call runs its own transition, and
    * none is ever cancelled. */
  datatype CameraMove = CameraMove(position: Vec3, target: Vec3)

  /** A body's material: the one it was built with, or a high-detail one. */
  datatype Material = Built | HighDetail

  /** The bodies `applyHighDetailTexture` has a drawing routine for: every
    * body but Pluto. */
  predicate HasSurfaceRoutine(k: BodyKey)
  {
    k != Pluto
  }

  /** `show !== undefined ? show : !flag`. */
  function Toggled(flag: bool, show: Option<bool>): bool
  {
    if show.Some? then show.value else !flag
  }

  /** Set-if-given-else-flip: a given value wins and repeating it changes
    * nothing more; without one the flag flips, and flipping twice restores it. */
  lemma ToggleSemantics(flag: bool, v: bool)
    ensures Toggled(flag, Some(v)) == v && Toggled(Toggled(flag, Some(v)), Some(v)) == v
    ensures Toggled(flag, None) != flag && Toggled(Toggled(flag, None), None) == flag
  {
  }

  /** Every object among `keys` shown or hidden alike. */
  function AllSet<K(!new)>(keys: seq<K>, v: bool): (m: map<K, bool>)
    ensures forall k :: k in m <==> k in keys
    ensures forall k :: k in m ==> m[k] == v
  {
    map k | k in keys :: v
  }

  /** `this.camera.position.set(100, 80, 200)` and the target of `resetCamera`. */
  const HomeCamera: Vec3 := Vec3(100.0, 80.0, 200.0)

  /** The camera position of `focusOnPlanet`: 5·size + 10 out, half as high. */
  function FocusOffset(size: real): (r: Vec3)
    ensures size >= 0.0 ==> r.x == r.z >= 10.0 && r.y == r.x / 2.0
  {
    var d := size * 5.0 + 10.0;
    Vec3(d, d * 0.5, d)
  }

  // ---------------------------------------------------------------- universe views

  /** One entry of the `views` table of `setUniverseView`. */
  datatype ViewSettings = ViewSettings(showGalaxies: bool, showNebulae: bool, showMilkyWay: bool, cameraDistance: real)

  function ViewTable(view: string): Option<ViewSettings>
  {
    if view == "solarSystem" then Some(ViewSettings(false, false, false, 200.0))
    else if view == "interstellar" then Some(ViewSettings(false, true, false, 500.0))
    else if view == "galactic" then Some(ViewSettings(false, true, true, 1500.0))
    else if view == "intergalactic" then Some(ViewSettings(true, true, true, 5000.0))
    else if view == "cosmic" then Some(ViewSettings(true, true, true, 15000.0))
    else None
  }

  /** `views[view] || views.solarSystem`. */
  function Settings(view: string): ViewSettings
  {
    match ViewTable(view)
    case Some(s) => s
    case None => ViewSettings(false, false, false, 200.0)
  }

  /** Nebulae show in every view but `solarSystem`, galaxies only in the
    * intergalactic and cosmic views, the Milky Way from the galactic view on;
    * an unknown view falls back to `solarSystem`; each view is farther out
    * than the one before. */
  lemma ViewFlags(view: string)
    ensures Settings(view).showNebulae <==> view in {"interstellar", "galactic", "intergalactic", "cosmic"}
    ensures Settings(view).showGalaxies <==> view in {"intergalactic", "cosmic"}
    ensures Settings(view).showMilkyWay <==> view in {"galactic", "intergalactic", "cosmic"}
    ensures ViewTable(view).None? ==> Settings(view) == Settings("solarSystem")
    ensures Settings("solarSystem").cameraDistance < Settings("interstellar").cameraDistance
            < Settings("galactic").cameraDistance < Settings("intergalactic").cameraDistance
            < Settings("cosmic").cameraDistance
  {
  }

  /** The camera position `setUniverseView` requests for a distance `d`. */
  function ViewCamera(d: real): Vec3
  {
    Vec3(d * 0.5, d * 0.3, d)
  }

  // ---------------------------------------------------------------- deep space

  /** A deep-space object `focusOnDeepSpaceObject` can select. */
  datatype DeepTarget = GalaxyTarget(g: DeepSpace.GalaxyKey) | NebulaTarget(n: DeepSpace.NebulaKey)
                      | BlackHoleTarget(e: DeepSpace.ExoticKey)

  /** The object named by an `objectType` and a key, if the scene has it. */
  function DeepLookup(objectType: string, key: string): (r: Option<DeepTarget>)
    ensures r.Some? && r.value.GalaxyTarget? ==> objectType == "galaxy" && DeepSpace.GalaxyName(r.value.g) == key
    ensures r.Some? && r.value.NebulaTarget? ==> objectType == "nebula" && DeepSpace.NebulaName(r.value.n) == key
    ensures r.Some? && r.value.BlackHoleTarget? ==> objectType == "blackhole" && DeepSpace.ExoticName(r.value.e) == key
    ensures objectType != "galaxy" && objectType != "nebula" && objectType != "blackhole" ==> r.None?
  {
    if objectType == "galaxy" && DeepSpace.ParseGalaxy(key).Some? then Some(GalaxyTarget(DeepSpace.ParseGalaxy(key).value))
    else if objectType == "nebula" && DeepSpace.ParseNebula(key).Some? then Some(NebulaTarget(DeepSpace.ParseNebula(key).value))
    else if objectType == "blackhole" && DeepSpace.ParseExotic(key).Some? then Some(BlackHoleTarget(DeepSpace.ParseExotic(key).value))
    else None
  }

  /** Every object is found under its own type and key. */
  lemma DeepLookupFinds(t: DeepTarget)
    ensures t.GalaxyTarget? ==> DeepLookup("galaxy", DeepSpace.GalaxyName(t.g)) == Some(t)
    ensures t.NebulaTarget? ==> DeepLookup("nebula", DeepSpace.NebulaName(t.n)) == Some(t)
    ensures t.BlackHoleTarget? ==> DeepLookup("blackhole", DeepSpace.ExoticName(t.e)) == Some(t)
  {
    DeepSpace.DeepNamesRoundTrip(
      if t.GalaxyTarget? then t.g else DeepSpace.Andromeda,
      if t.NebulaTarget? then t.n else DeepSpace.Orion,
      if t.BlackHoleTarget? then t.e else DeepSpace.SagittariusAStar);
  }

  function DeepData(t: DeepTarget): DeepSpace.DeepObject
  {
    match t
    case GalaxyTarget(g) => DeepSpace.Galaxy(g)
    case NebulaTarget(n) => DeepSpace.Nebula(n)
    case BlackHoleTarget(e) => DeepSpace.Exotic(e)
  }

  // ---------------------------------------------------------------- orbit lines (finding)

  /** `createOrbits` never names its lines, so every `orbit.name` is the
    * Three.js default, the empty string. */
  const OrbitLineName: string := ""

  /** The guard of `toggleOrbits` as written: `orbit.name !== 'pluto' || this.showPluto`. */
  predicate OrbitGuardAsWritten(orbitName: string, showPluto: bool)
  {
    orbitName != "pluto" || showPluto
  }

  /** `toggleOrbits` as written, on the orbit-line visibilities. */
  function ToggleOrbitsAsWritten(orbitVisible: map<BodyKey, bool>, showOrbits: bool, showPluto: bool): map<BodyKey, bool>
  {
    map k | k in orbitVisible :: if OrbitGuardAsWritten(OrbitLineName, showPluto) then !showOrbits else orbitVisible[k]
  }

  /** The rule the program keeps: every line other than Pluto's follows the
    * orbits; Pluto's line shows only while the orbits do, and does show while
    * Pluto and the orbits both do. It may show while Pluto is hidden, since
    * `toggleOrbits` as written sets it to the orbit flag. */
  predicate OrbitRule(orbitVisible: map<BodyKey, bool>, showOrbits: bool, showPluto: bool)
  {
    (forall k :: k in orbitVisible && k != Pluto ==> orbitVisible[k] == showOrbits) &&
    (Pluto in orbitVisible ==> (orbitVisible[Pluto] ==> showOrbits) && (showPluto && showOrbits ==> orbitVisible[Pluto]))
  }

  /** The rule the authors intended: Pluto's orbit line shows exactly when
    * Pluto and the orbits both do, and every other line follows the orbits. */
  predicate IntendedOrbitRule(orbitVisible: map<BodyKey, bool>, showOrbits: bool, showPluto: bool)
  {
    (forall k :: k in orbitVisible && k != Pluto ==> orbitVisible[k] == showOrbits) &&
    (Pluto in orbitVisible ==> orbitVisible[Pluto] == (showPluto && showOrbits))
  }

  /** The guard passes for every line, so from the initial state (orbits
    * shown, Pluto and its line hidden) hiding and then showing the orbits
    * shows Pluto's orbit while Pluto itself stays hidden: the intended rule
    * breaks, and only the weaker rule survives. */
  lemma PlutoOrbitShownWhilePlutoHidden()
    ensures forall showPluto :: OrbitGuardAsWritten(OrbitLineName, showPluto)
    ensures var start := AllSet(BuiltPlanets, true)[Pluto := false];
            var twice := ToggleOrbitsAsWritten(ToggleOrbitsAsWritten(start, true, false), false, false);
            IntendedOrbitRule(start, true, false) && Pluto in twice && twice[Pluto] &&
            !IntendedOrbitRule(twice, true, false) && OrbitRule(twice, true, false)
  {
    var start := AllSet(BuiltPlanets, true)[Pluto := false];
    assert Pluto in start;
  }

  /** `toggleOrbits` as written keeps the rule the program keeps: after it
    * every line, Pluto's included, shows exactly as the new orbit flag. */
  lemma ToggleOrbitsAsWrittenKeepsRule(orbitVisible: map<BodyKey, bool>, showOrbits: bool, showPluto: bool)
    requires OrbitRule(orbitVisible, showOrbits, showPluto)
    ensures var r := ToggleOrbitsAsWritten(orbitVisible, showOrbits, showPluto);
            r.Keys == orbitVisible.Keys && OrbitRule(r, !showOrbits, showPluto) &&
            forall k :: k in r ==> r[k] == !showOrbits
  {
  }

  /** One orbit line per built planet, following the rule. */
  ghost predicate OrbitLines(orbitVisible: map<BodyKey, bool>, showOrbits: bool, showPluto: bool)
  {
    PerPlanet(orbitVisible) && OrbitRule(orbitVisible, showOrbits, showPluto)
  }

  /** The orbit lines `init` leaves: all shown but Pluto's, which
    * `createOrbits` hides with Pluto; they start out under the intended rule. */
  function InitialOrbitLines(): (m: map<BodyKey, bool>)
    ensures OrbitLines(m, true, false) && IntendedOrbitRule(m, true, false)
  {
    PlanetObjects(true)[Pluto := false]
  }

  /** The guard as intended, on the orbit's planet. */
  predicate OrbitGuard(k: BodyKey, showPluto: bool)
  {
    k != Pluto || showPluto
  }

  /** `toggleOrbits` with the intended guard: a line the guard lets through
    * follows the new `showOrbits`, Pluto's line is left alone while Pluto is hidden. */
  function ToggleOrbitsFixed(orbitVisible: map<BodyKey, bool>, showOrbits: bool, showPluto: bool): (r: map<BodyKey, bool>)
    ensures r.Keys == orbitVisible.Keys
  {
    map k | k in orbitVisible :: if OrbitGuard(k, showPluto) then !showOrbits else orbitVisible[k]
  }

  /** With the intended guard `toggleOrbits` keeps the intended rule, which
    * implies the rule the program keeps. */
  lemma ToggleOrbitsKeepsRule(orbitVisible: map<BodyKey, bool>, showOrbits: bool, showPluto: bool)
    requires IntendedOrbitRule(orbitVisible, showOrbits, showPluto)
    ensures var r := ToggleOrbitsFixed(orbitVisible, showOrbits, showPluto);
            IntendedOrbitRule(r, !showOrbits, showPluto) && OrbitRule(r, !showOrbits, showPluto)
  {
  }

  // ---------------------------------------------------------------- meteor pool

  /** `this.meteorPool.find(m => !m.visible)`, as an index. */
  function FirstHidden(s: seq<Meteor>): (r: Option<nat>)
    ensures r.Some? ==> r.value < |s| && !s[r.value].visible && forall j :: 0 <= j < r.value ==> s[j].visible
    ensures r.None? ==> forall j :: 0 <= j < |s| ==> s[j].visible
  {
    if s == [] then None
    else if !s[0].visible then Some(0)
    else
      match FirstHidden(s[1..])
      case None => None
      case Some(i) => Some(i + 1)
  }

  /** The pool after `spawnMeteor`: the first hidden meteor is spawned, or
    * nothing changes when every meteor is shown. */
  function Spawned(s: seq<Meteor>, d: MeteorDraws, cos: real -> real, sin: real -> real): (r: seq<Meteor>)
    ensures |r| == |s|
  {
    match FirstHidden(s)
    case None => s
    case Some(i) => s[i := SpawnedMeteor(d, cos, sin)]
  }

  /** A spawn activates exactly one meteor when one is hidden (the first of
    * them, fresh), and touches nothing when all are shown. */
  lemma SpawnActivatesFirstHidden(s: seq<Meteor>, d: MeteorDraws, cos: real -> real, sin: real -> real)
    requires 0.0 <= d.life < 1.0
    ensures (forall j :: 0 <= j < |s| ==> s[j].visible) ==> Spawned(s, d, cos, sin) == s
    ensures forall i :: 0 <= i < |s| && !s[i].visible && (forall j :: 0 <= j < i ==> s[j].visible) ==>
              var r := Spawned(s, d, cos, sin);
              r[i].visible && r[i].lifetime == 0.0 && 2.0 <= r[i].maxLifetime < 4.0 &&
              forall j :: 0 <= j < |s| && j != i ==> r[j] == s[j]
  {
    SpawnedMeteorFresh(d, cos, sin);
    forall i | 0 <= i < |s| && !s[i].visible && (forall j :: 0 <= j < i ==> s[j].visible)
      ensures FirstHidden(s) == Some(i)
    {
    }
  }

  /** `spawnMeteor` on the pool: `find` the first hidden meteor and spawn
    * it; with every meteor shown, `find` fails and nothing changes. */
  method SpawnMeteor(pool: array<Meteor>, d: MeteorDraws, cos: real -> real, sin: real -> real)
    modifies pool
    ensures pool[..] == Spawned(old(pool[..]), d, cos, sin)
  {
    var i := 0;
    while i < pool.Length && pool[i].visible
      invariant 0 <= i <= pool.Length
      invariant forall j :: 0 <= j < i ==> pool[j].visible
    {
      i := i + 1;
    }
    if i < pool.Length {
      assert FirstHidden(pool[..]) == Some(i);
      pool[i] := SpawnedMeteor(d, cos, sin);
    }
  }

  /** The meteor loop of `animateSpaceObjects`, in place on the pool. */
  method AgeMeteors(pool: array<Meteor>, dt: real)
    modifies pool
    ensures pool[..] == StepMeteors(old(pool[..]), dt)
  {
    var i := 0;
    while i < pool.Length
      invariant 0 <= i <= pool.Length
      invariant forall j :: 0 <= j < pool.Length ==> pool[j] == if j < i then StepMeteor(old(pool[j]), dt) else old(pool[j])
    {
      pool[i] := StepMeteor(pool[i], dt);
      i := i + 1;
    }
  }

  // ---------------------------------------------------------------- frame inputs

  /** What one `animate` frame reads from outside: the clock's `delta`,
    * `performance.now()`, `Date.now()`, the respawn points of the solar
    * wind, the random draws of a meteor spawn and of the next interval, and
    * the mathematical functions. */
  datatype Frame = Frame(delta: real, perfNow: real, now: real, windSpawn: seq<Vec3>, meteor: MeteorDraws,
                         intervalDraw: real, cos: real -> real, sin: real -> real, sqrt: real -> real)

  /** The random draws `createAlienShips` makes for one ship. */
  datatype ShipDraws = ShipDraws(floatOffset: real, floatSpeed: real, orbitAngle: real, speed: real,
                                 sign: real, radius: real, angle: real, height: real)

  /** The initial ship of `createAlienShips`. */
  function NewShip(d: SpaceData.ShipData, r: ShipDraws, cos: real -> real, sin: real -> real): ShipState
  {
    var radius := OrDefault(d.orbitRadius, 0.0);
    var startRadius := if radius != 0.0 then radius else 100.0 + r.radius * 200.0;
    var angle := r.angle * Pi * 2.0;
    ShipState(true, r.orbitAngle * Pi * 2.0, (0.1 + r.speed * 0.2) * (if r.sign > 0.5 then 1.0 else -1.0),
              d.orbitRadius, r.floatOffset * Pi * 2.0, 0.5 + r.floatSpeed * 0.5, 0.0,
              Vec3(cos(angle) * startRadius, (r.height - 0.5) * 30.0, sin(angle) * startRadius))
  }

  /** A ship's own orbit speed has magnitude in [0.1, 0.3), whatever the
    * table says. */
  lemma ShipSpeedRange(d: SpaceData.ShipData, r: ShipDraws, cos: real -> real, sin: real -> real)
    requires 0.0 <= r.speed < 1.0
    ensures var s := NewShip(d, r, cos, sin).orbitSpeed;
            (0.1 <= s < 0.3) || (-0.3 < s <= -0.1)
  {
  }


  // ---------------------------------------------------------------- flags and scene objects

  /** The display flags `showOrbits` … `showComets` and `currentView`. */
  datatype Flags = Flags(orbits: bool, labels: bool, moons: bool, stars: bool, asteroidBelt: bool, pluto: bool,
                         autoOrbit: bool, galaxies: bool, nebulae: bool, milkyWay: bool,
                         satellites: bool, alienShips: bool, comets: bool, view: string)

  /** The flags the constructor sets. */
  const InitialFlags: Flags := Flags(true, true, false, true, false, false, false, false, false, false,
                                     true, true, true, "solarSystem")

  /** The `visible` property of the objects the flags govern: the orbit lines
    * and labels of the built planets, the moons and their labels, Pluto, the
    * star field, the asteroid belt (None until it is built), the galaxies,
    * nebulae and black holes, the Milky Way disk and the cosmic dust. */
  datatype SceneObjects = SceneObjects(orbitLine: map<BodyKey, bool>, planetLabel: map<BodyKey, bool>,
                                       moon: map<MoonKey, bool>, moonLabel: map<MoonKey, bool>,
                                       pluto: bool, starField: bool, belt: Option<bool>,
                                       galaxy: map<DeepSpace.GalaxyKey, bool>, nebula: map<DeepSpace.NebulaKey, bool>,
                                       blackHole: map<DeepSpace.ExoticKey, bool>, milkyWay: bool, cosmicDust: bool)

  /** Every object of a kind shown, or every one hidden, as `v` says. */
  predicate Uniform<K(!new)>(m: map<K, bool>, v: bool)
  {
    forall k :: k in m ==> m[k] == v
  }

  /** One object per built planet: every body but the Sun. */
  ghost predicate PerPlanet(m: map<BodyKey, bool>)
  {
    forall k :: k in m <==> k != Sun
  }

  /** One object per key of its table. */
  ghost predicate PerKey<K(!new)>(m: map<K, bool>)
  {
    forall k: K :: k in m
  }

  /** `Object.values(objects).forEach(o => { o.visible = v; })`. */
  function SetAll<K(!new)>(m: map<K, bool>, v: bool): (r: map<K, bool>)
    ensures forall k :: k in r <==> k in m
    ensures Uniform(r, v)
  {
    map k | k in m :: v
  }

  /** One object per built planet, all alike. */
  function PlanetObjects(v: bool): (m: map<BodyKey, bool>)
    ensures PerPlanet(m) && Uniform(m, v)
  {
    KeyTablesComplete();
    AllSet(BuiltPlanets, v)
  }

  /** One object per moon, all alike. */
  function MoonObjects(v: bool): (m: map<MoonKey, bool>)
    ensures PerKey(m) && Uniform(m, v)
  {
    KeyTablesComplete();
    AllSet(MoonKeys, v)
  }

  /** The galaxies, nebulae and black holes, each kind all alike. */
  function GalaxyObjects(v: bool): (m: map<DeepSpace.GalaxyKey, bool>)
    ensures PerKey(m) && Uniform(m, v)
  {
    DeepSpace.DeepKeysComplete();
    AllSet(DeepSpace.GalaxyKeys, v)
  }

  function NebulaObjects(v: bool): (m: map<DeepSpace.NebulaKey, bool>)
    ensures PerKey(m) && Uniform(m, v)
  {
    DeepSpace.DeepKeysComplete();
    AllSet(DeepSpace.NebulaKeys, v)
  }

  function ExoticObjects(v: bool): (m: map<DeepSpace.ExoticKey, bool>)
    ensures PerKey(m) && Uniform(m, v)
  {
    DeepSpace.DeepKeysComplete();
    AllSet(DeepSpace.ExoticKeys, v)
  }

  /** One object per key of its table, each showing as `v` says. */
  ghost predicate KindShows<K(!new)>(m: map<K, bool>, v: bool)
  {
    PerKey(m) && Uniform(m, v)
  }

  /** One label per built planet, following the label flag, and one label per
    * moon, showing iff the moons and the labels both do. */
  ghost predicate LabelsShown(planetLabel: map<BodyKey, bool>, moonLabel: map<MoonKey, bool>, labels: bool, moons: bool)
  {
    PerPlanet(planetLabel) && Uniform(planetLabel, labels) && KindShows(moonLabel, moons && labels)
  }

  /** Every object shows exactly when its flag says so: moon labels need moons
    * and labels, Pluto's orbit needs Pluto and orbits, black holes follow the
    * nebulae, the cosmic dust shows outside the solar-system view, and a built
    * belt follows its flag. */
  ghost predicate Governs(f: Flags, o: SceneObjects)
  {
    OrbitLines(o.orbitLine, f.orbits, f.pluto) &&
    LabelsShown(o.planetLabel, o.moonLabel, f.labels, f.moons) &&
    KindShows(o.moon, f.moons) &&
    o.pluto == f.pluto && o.starField == f.stars &&
    (o.belt.Some? ==> o.belt.value == f.asteroidBelt) &&
    KindShows(o.galaxy, f.galaxies) && KindShows(o.nebula, f.nebulae) && KindShows(o.blackHole, f.nebulae) &&
    o.milkyWay == f.milkyWay &&
    o.cosmicDust == (f.view != "solarSystem")
  }

  /** The objects as `init` leaves them. */
  function InitialObjects(): (o: SceneObjects)
    ensures Governs(InitialFlags, o) && o.belt.None?
  {
    SceneObjects(InitialOrbitLines(), PlanetObjects(true), MoonObjects(false), MoonObjects(false),
                 false, true, None, GalaxyObjects(false), NebulaObjects(false), ExoticObjects(false), false, false)
  }

  /** Moon labels show iff the moons and the labels both do, in every state
    * that follows the flags. */
  lemma MoonLabelsShowWithBoth(f: Flags, o: SceneObjects, m: MoonKey)
    requires Governs(f, o)
    ensures m in o.moonLabel && (o.moonLabel[m] <==> f.moons && f.labels)
  {
  }

  /** `toggleLabels` keeps every object following the flags: the planet
    * labels follow the new flag and the moon labels both flags. */
  lemma ToggleLabelsKeepsRule(f: Flags, o: SceneObjects)
    requires Governs(f, o)
    ensures var f1 := f.(labels := !f.labels);
            Governs(f1, o.(planetLabel := SetAll(o.planetLabel, f1.labels), moonLabel := SetAll(o.moonLabel, f1.labels && f1.moons)))
  {
    var f1 := f.(labels := !f.labels);
    var o1 := o.(planetLabel := SetAll(o.planetLabel, f1.labels), moonLabel := SetAll(o.moonLabel, f1.labels && f1.moons));
    assert PerPlanet(o1.planetLabel) && PerKey(o1.moonLabel);
  }

  /** `toggleMoons` keeps every object following the flags: the moons
    * follow the new flag and the moon labels both flags. */
  lemma ToggleMoonsKeepsRule(f: Flags, o: SceneObjects)
    requires Governs(f, o)
    ensures var f2 := f.(moons := !f.moons);
            Governs(f2, o.(moon := SetAll(o.moon, f2.moons), moonLabel := SetAll(o.moonLabel, f2.moons && f2.labels)))
  {
    var f2 := f.(moons := !f.moons);
    var o2 := o.(moon := SetAll(o.moon, f2.moons), moonLabel := SetAll(o.moonLabel, f2.moons && f2.labels));
    assert PerKey(o2.moon) && PerKey(o2.moonLabel);
  }

  /** After `togglePluto` Pluto's orbit line shows iff Pluto and the orbits
    * do, so the intended rule holds again whatever `toggleOrbits` left. */
  lemma PlutoOrbitFollowsBoth(f: Flags, o: SceneObjects)
    requires Governs(f, o)
    ensures var f1 := f.(pluto := !f.pluto);
            var o1 := o.(pluto := f1.pluto, orbitLine := o.orbitLine[Pluto := f1.pluto && f1.orbits]);
            Governs(f1, o1) && Pluto in o1.orbitLine && (o1.orbitLine[Pluto] <==> f1.pluto && f1.orbits) &&
            IntendedOrbitRule(o1.orbitLine, f1.orbits, f1.pluto)
  {
    assert Pluto in BuiltPlanets;
  }

  /** `toggleOrbits` as written keeps every object following the flags, with
    * every orbit line, Pluto's too, showing as the new orbit flag. */
  lemma ToggleOrbitsKeepsGoverns(f: Flags, o: SceneObjects)
    requires Governs(f, o)
    ensures var o1 := o.(orbitLine := ToggleOrbitsAsWritten(o.orbitLine, f.orbits, f.pluto));
            Governs(f.(orbits := !f.orbits), o1) && forall k :: k in o1.orbitLine ==> o1.orbitLine[k] == !f.orbits
  {
    ToggleOrbitsAsWrittenKeepsRule(o.orbitLine, f.orbits, f.pluto);
  }

  /** `toggleOrbits` with the intended guard keeps every object following
    * the flags and the orbit lines under the intended rule. */
  lemma ToggleOrbitsFixedKeepsGoverns(f: Flags, o: SceneObjects)
    requires Governs(f, o) && IntendedOrbitRule(o.orbitLine, f.orbits, f.pluto)
    ensures var o1 := o.(orbitLine := ToggleOrbitsFixed(o.orbitLine, f.orbits, f.pluto));
            Governs(f.(orbits := !f.orbits), o1) && IntendedOrbitRule(o1.orbitLine, !f.orbits, f.pluto)
  {
    ToggleOrbitsKeepsRule(o.orbitLine, f.orbits, f.pluto);
  }

  /** `toggleStars` keeps every object following the flags. */
  lemma ToggleStarsKeepsRule(f: Flags, o: SceneObjects)
    requires Governs(f, o)
    ensures Governs(f.(stars := !f.stars), o.(starField := !f.stars))
  {
  }

  /** `toggleAsteroidBelt` keeps every object following the flags: a belt
    * that exists, or is built now, shows the new flag. */
  lemma ToggleBeltKeepsRule(f: Flags, o: SceneObjects)
    requires Governs(f, o)
    ensures var shown := !f.asteroidBelt;
            Governs(f.(asteroidBelt := shown), o.(belt := if o.belt.None? && !shown then None else Some(shown)))
  {
  }

  /** `toggleGalaxies`, `toggleNebulae` and `toggleMilkyWay` keep every
    * object following the flags, whatever value they are given. */
  lemma GalaxyToggleKeepsRule(f: Flags, o: SceneObjects, v: bool)
    requires Governs(f, o)
    ensures Governs(f.(galaxies := v), o.(galaxy := SetAll(o.galaxy, v)))
  {
  }

  lemma NebulaToggleKeepsRule(f: Flags, o: SceneObjects, v: bool)
    requires Governs(f, o)
    ensures Governs(f.(nebulae := v), o.(nebula := SetAll(o.nebula, v), blackHole := SetAll(o.blackHole, v)))
  {
  }

  lemma MilkyWayToggleKeepsRule(f: Flags, o: SceneObjects, v: bool)
    requires Governs(f, o)
    ensures Governs(f.(milkyWay := v), o.(milkyWay := v))
  {
  }

  /** Choosing a view keeps every object following the flags: the galaxies,
    * nebulae, black holes and Milky Way take the view's settings `s` and the
    * cosmic dust follows the new view. */
  lemma ViewSettingsKeepRule(f: Flags, o: SceneObjects, view: string, s: ViewSettings)
    requires Governs(f, o)
    ensures Governs(f.(view := view, galaxies := s.showGalaxies, nebulae := s.showNebulae,
                                   milkyWay := s.showMilkyWay),
        o.(galaxy := SetAll(o.galaxy, s.showGalaxies),
                                       nebula := SetAll(o.nebula, s.showNebulae),
                                       blackHole := SetAll(o.blackHole, s.showNebulae),
                                       milkyWay := s.showMilkyWay, cosmicDust := view != "solarSystem"))
  {
  }

  /** The auto-orbit flag and the space-object flags govern no scene object. */
  lemma AutoOrbitGovernsNothing(f: Flags, o: SceneObjects, v: bool)
    requires Governs(f, o)
    ensures Governs(f.(autoOrbit := v), o)
  {
  }

  lemma SatelliteFlagGovernsNothing(f: Flags, o: SceneObjects, v: bool)
    requires Governs(f, o)
    ensures Governs(f.(satellites := v), o)
  {
  }

  lemma ShipFlagGovernsNothing(f: Flags, o: SceneObjects, v: bool)
    requires Governs(f, o)
    ensures Governs(f.(alienShips := v), o)
  {
  }

  lemma CometFlagGovernsNothing(f: Flags, o: SceneObjects, v: bool)
    requires Governs(f, o)
    ensures Governs(f.(comets := v), o)
  {
  }

  /** Satellites, alien ships and comets show exactly when their flags say so. */
  predicate SpaceShows(f: Flags, satellites: seq<SatelliteState>, ships: seq<ShipState>, comets: seq<CometState>)
  {
    SatellitesShow(satellites, f.satellites) && ShipsShow(ships, f.alienShips) && CometsShow(comets, f.comets)
  }

  // ---------------------------------------------------------------- FPS counter

  /** `frameCount`, `lastFpsUpdate` and `currentFps`. */
  datatype FpsCounter = FpsCounter(frames: nat, lastUpdate: real, fps: nat)

  /** The counter after one frame at `performance.now()` = `now`. */
  function FpsTick(c: FpsCounter, now: real): FpsCounter
  {
    if now - c.lastUpdate >= 1000.0 then FpsCounter(0, now, c.frames + 1) else c.(frames := c.frames + 1)
  }

  /** The counter after frames at the given instants. */
  function FpsRun(c: FpsCounter, times: seq<real>): FpsCounter
    decreases |times|
  {
    if times == [] then c else FpsRun(FpsTick(c, times[0]), times[1..])
  }

  /** Frames less than a second after the last update are only counted; the
    * first frame a second or more after it reports every frame since,
    * itself included, and starts a new count. */
  lemma {:induction false} FpsReportsFrames(c: FpsCounter, times: seq<real>)
    requires times != []
    requires forall i :: 0 <= i < |times| - 1 ==> times[i] - c.lastUpdate < 1000.0
    requires times[|times| - 1] - c.lastUpdate >= 1000.0
    ensures FpsRun(c, times) == FpsCounter(0, times[|times| - 1], c.frames + |times|)
    decreases |times|
  {
    if |times| > 1 {
      var c1 := FpsTick(c, times[0]);
      assert c1 == c.(frames := c.frames + 1);
      assert forall i :: 0 <= i < |times[1..]| - 1 ==> times[1..][i] == times[i + 1];
      FpsReportsFrames(c1, times[1..]);
    }
  }

  // ---------------------------------------------------------------- whole-scene steps

  /** The built planets in construction order. */
  predicate PlanetsInOrder(ps: seq<PlanetState>)
  {
    |ps| == |BuiltPlanets| && forall i :: 0 <= i < |ps| ==> ps[i].key != Sun && PlanetIndex(ps[i].key) == i
  }

  /** Every planet advanced by one tick. */
  function StepPlanets(ps: seq<PlanetState>, tm: real, cos: real -> real, sin: real -> real): (r: seq<PlanetState>)
    requires PlanetsInOrder(ps)
    ensures PlanetsInOrder(r)
  {
    SunOnlySpins();
    seq(|ps|, (i: int) requires 0 <= i < |ps| => StepPlanet(ps[i], tm, cos, sin))
  }

  /** Every moon advanced by one tick. */
  function StepMoons(ms: seq<MoonState>, tm: real, cos: real -> real, sin: real -> real): (r: seq<MoonState>)
    ensures |r| == |ms| && forall i :: 0 <= i < |r| ==> r[i].key == ms[i].key
  {
    seq(|ms|, (i: int) requires 0 <= i < |ms| => StepMoon(ms[i], tm, cos, sin))
  }

  /** Two ticks of the whole system are one tick of their summed multipliers,
    * for every planet and every moon at once. */
  lemma ScenesTicksCompose(ps: seq<PlanetState>, ms: seq<MoonState>, tm1: real, tm2: real, cos: real -> real, sin: real -> real)
    requires PlanetsInOrder(ps)
    ensures StepPlanets(StepPlanets(ps, tm1, cos, sin), tm2, cos, sin) == StepPlanets(ps, tm1 + tm2, cos, sin)
    ensures StepMoons(StepMoons(ms, tm1, cos, sin), tm2, cos, sin) == StepMoons(ms, tm1 + tm2, cos, sin)
  {
    forall i | 0 <= i < |ps|
      ensures StepPlanets(StepPlanets(ps, tm1, cos, sin), tm2, cos, sin)[i] == StepPlanets(ps, tm1 + tm2, cos, sin)[i]
    {
      SunOnlySpins();
      PlanetTicksCompose(ps[i], tm1, tm2, cos, sin);
    }
    forall i | 0 <= i < |ms|
      ensures StepMoons(StepMoons(ms, tm1, cos, sin), tm2, cos, sin)[i] == StepMoons(ms, tm1 + tm2, cos, sin)[i]
    {
      MoonTicksCompose(ms[i], tm1, tm2, cos, sin);
    }
  }

  /** Every satellite advanced by one frame. */
  function StepSatellites(ss: seq<SatelliteState>, dt: real, earth: Option<Vec3>, cos: real -> real, sin: real -> real): (r: seq<SatelliteState>)
    ensures |r| == |ss| && forall i :: 0 <= i < |r| ==> r[i].visible == ss[i].visible
  {
    seq(|ss|, (i: int) requires 0 <= i < |ss| => StepSatellite(ss[i], dt, earth, cos, sin))
  }

  /** Every alien ship advanced by one frame. */
  function StepShips(ss: seq<ShipState>, dt: real, time: real, cos: real -> real, sin: real -> real): (r: seq<ShipState>)
    ensures |r| == |ss| && forall i :: 0 <= i < |r| ==> r[i].visible == ss[i].visible
  {
    seq(|ss|, (i: int) requires 0 <= i < |ss| => StepShip(ss[i], dt, time, cos, sin))
  }

  /** The comets `animateSpaceObjects` can move: both distances positive and ordered. */
  predicate CometsWellFormed(cs: seq<CometState>)
  {
    forall i :: 0 <= i < |cs| ==> 0.0 < cs[i].perihelion < cs[i].aphelion
  }

  /** Every comet advanced by one frame. */
  function StepComets(cs: seq<CometState>, dt: real, cos: real -> real, sin: real -> real, sqrt: real -> real): (r: seq<CometState>)
    requires forall a :: -1.0 <= cos(a) <= 1.0
    requires CometsWellFormed(cs)
    ensures |r| == |cs| && CometsWellFormed(r)
    ensures forall i :: 0 <= i < |r| ==> r[i].visible == cs[i].visible
  {
    seq(|cs|, (i: int) requires 0 <= i < |cs| => StepComet(cs[i], dt, cos, sin, sqrt))
  }

  /** Every meteor of the pool advanced by one frame. */
  function StepMeteors(s: seq<Meteor>, dt: real): (r: seq<Meteor>)
    ensures |r| == |s|
  {
    seq(|s|, (i: int) requires 0 <= i < |s| => StepMeteor(s[i], dt))
  }

  /** While paused the space objects still move: a frame's space-object step
    * does not depend on `isPlaying`, and a shown meteor always ages. */
  lemma MeteorsAge(s: seq<Meteor>, dt: real, i: nat)
    requires i < |s| && s[i].visible
    ensures StepMeteors(s, dt)[i].lifetime == s[i].lifetime + dt
    ensures StepMeteors(s, dt)[i].visible <==> s[i].lifetime + dt < s[i].maxLifetime
  {
  }

  predicate SatellitesShow(ss: seq<SatelliteState>, v: bool)
  {
    forall i :: 0 <= i < |ss| ==> ss[i].visible == v
  }

  predicate ShipsShow(ss: seq<ShipState>, v: bool)
  {
    forall i :: 0 <= i < |ss| ==> ss[i].visible == v
  }

  predicate CometsShow(cs: seq<CometState>, v: bool)
  {
    forall i :: 0 <= i < |cs| ==> cs[i].visible == v
  }

  /** Every body has a material; only a body with a drawing routine can wear
    * a high-detail one, and only after its built material was cached. */
  predicate MaterialsValid(material: map<BodyKey, Material>, originalMaterial: map<BodyKey, Material>)
  {
    (forall k: BodyKey :: k in material) &&
    (forall k :: k in material && material[k] == HighDetail ==> HasSurfaceRoutine(k) && k in originalMaterial) &&
    (forall k :: k in originalMaterial ==> originalMaterial[k] == Built && HasSurfaceRoutine(k))
  }

  /** The camera position `enterSurfaceView` requests: 1.2 sizes out at the
    * drawn angle, 0.36 sizes up. */
  function SurfaceOffset(size: real, angle: real, cos: real -> real, sin: real -> real): Vec3
  {
    var d := size * 1.2;
    Vec3(cos(angle) * d, d * 0.3, sin(angle) * d)
  }

  /** `forEach(o => { o.visible = v; })` over the satellites, the alien ships
    * and the comets: every one shows as `v` says and nothing else changes. */
  function ShowSatellites(ss: seq<SatelliteState>, v: bool): (r: seq<SatelliteState>)
    ensures |r| == |ss| && SatellitesShow(r, v)
    ensures forall i :: 0 <= i < |r| ==> r[i].(visible := ss[i].visible) == ss[i]
  {
    seq(|ss|, (i: int) requires 0 <= i < |ss| => ss[i].(visible := v))
  }

  function ShowShips(ss: seq<ShipState>, v: bool): (r: seq<ShipState>)
    ensures |r| == |ss| && ShipsShow(r, v)
    ensures forall i :: 0 <= i < |r| ==> r[i].(visible := ss[i].visible) == ss[i]
  {
    seq(|ss|, (i: int) requires 0 <= i < |ss| => ss[i].(visible := v))
  }

  function ShowComets(cs: seq<CometState>, v: bool): (r: seq<CometState>)
    ensures |r| == |cs| && CometsShow(r, v)
    ensures forall i :: 0 <= i < |r| ==> r[i].(visible := cs[i].visible) == cs[i]
  {
    seq(|cs|, (i: int) requires 0 <= i < |cs| => cs[i].(visible := v))
  }

  /** Where a body is among the built planets `ps`: the Sun stays at the origin. */
  function PositionIn(ps: seq<PlanetState>, k: BodyKey): Vec3
    requires PlanetsInOrder(ps)
  {
    if k == Sun then Origin else ps[PlanetIndex(k)].position
  }

  /** What `updateSimulation` changes, apart from the solar-wind buffer: the
    * simulated time, the Sun, corona and belt rotations, the planets, the
    * moons and the controls target. */
  datatype Simulation = Simulation(time: real, sun: real, corona: real, belt: real,
                                   planets: seq<PlanetState>, moons: seq<MoonState>, target: Vec3)

  /** One `updateSimulation` tick of `delta` seconds at `timeSpeed` days per
    * second: the clock advances, the Sun and corona spin, the belt turns only
    * once it is built, every planet and moon advances by one tick, and the
    * controls follow the focused body (at its new position) unless it is the
    * Sun. */
  function Simulated(s: Simulation, delta: real, timeSpeed: real, beltBuilt: bool, focused: Option<BodyKey>,
                     cos: real -> real, sin: real -> real): (r: Simulation)
    requires PlanetsInOrder(s.planets)
    ensures PlanetsInOrder(r.planets) && |r.moons| == |s.moons|
  {
    var tm := TimeMultiplier(delta, timeSpeed);
    var ps := StepPlanets(s.planets, tm, cos, sin);
    Simulation(s.time + SimulatedMillis(delta, timeSpeed), s.sun + SunSpin(timeSpeed), s.corona + 0.0002 * timeSpeed,
               if beltBuilt then s.belt + 0.0001 * timeSpeed else s.belt,
               ps, StepMoons(s.moons, tm, cos, sin),
               if focused.Some? && focused.value != Sun then PositionIn(ps, focused.value) else s.target)
  }

  /** What `animateSpaceObjects` changes: the satellites, alien ships and
    * comets, the meteor pool, the meteor timer and interval, and the debris
    * rotation. */
  datatype SpaceObjects = SpaceObjects(satellites: seq<SatelliteState>, ships: seq<ShipState>, comets: seq<CometState>,
                                       pool: seq<Meteor>, lastMeteor: real, interval: real, debris: real)

  /** One `animateSpaceObjects` frame of `dt` at wall-clock millisecond `now`,
    * with Earth at `earth`: the satellites, ships and comets move; once the
    * interval has passed a meteor spawns and a new interval between one and
    * five seconds is drawn; every meteor ages; the debris turns. */
  function SpaceStep(s: SpaceObjects, dt: real, now: real, earth: Vec3, d: MeteorDraws, intervalDraw: real,
                     cos: real -> real, sin: real -> real, sqrt: real -> real): (r: SpaceObjects)
    requires forall a :: -1.0 <= cos(a) <= 1.0
    requires CometsWellFormed(s.comets)
    ensures CometsWellFormed(r.comets) && |r.pool| == |s.pool|
  {
    var spawned := now - s.lastMeteor > s.interval;
    SpaceObjects(StepSatellites(s.satellites, dt, Some(earth), cos, sin), StepShips(s.ships, dt, now * 0.001, cos, sin),
                 StepComets(s.comets, dt, cos, sin, sqrt),
                 StepMeteors(if spawned then Spawned(s.pool, d, cos, sin) else s.pool, dt),
                 if spawned then now else s.lastMeteor,
                 if spawned then 1000.0 + intervalDraw * 4000.0 else s.interval,
                 s.debris + dt * 0.01)
  }

  /** What a touch ray hit first: nothing, a body, or another object (a moon,
    * a ring, a label), which leaves the hovered body as it was. */
  datatype Hit = NoHit | BodyHit(body: BodyKey) | OtherHit

  // ---------------------------------------------------------------- the scene

  /** The number of solar-wind particles and of meteors in the pool. */
  const WindParticles: nat := 2000
  const PoolSize: nat := 20

  class SolarSystem {
    // simulation clock
    var isPlaying: bool
    var timeSpeed: real
    var simulationTime: real

    // bodies
    var sunRotation: real
    var coronaRotation: real
    var beltRotation: real
    var planets: seq<PlanetState>
    var moons: seq<MoonState>

    /** The solar-wind position buffer and its velocities, three numbers per particle. */
    const wind: array<real>
    const windVelocities: array<real>

    // FPS counter
    var frameCount: nat
    var lastFpsUpdate: real
    var currentFps: nat

    // display flags and the objects they govern
    var flags: Flags
    var objects: SceneObjects

    // camera, selection and touch
    var camera: Vec3
    var controlsTarget: Vec3
    var cameraMoves: seq<CameraMove>
    var selectedPlanet: Option<BodyKey>
    var focusedPlanet: Option<BodyKey>
    var selectedDeepSpaceObject: Option<DeepTarget>
    var hoveredPlanet: Option<BodyKey>
    var touchStartTime: real
    var lastTapTime: real

    // surface view
    var surfaceViewActive: bool
    var surfaceViewPlanet: Option<BodyKey>
    var surfaceViewEntryTime: real
    var minDistance: real
    var maxDistance: real
    var material: map<BodyKey, Material>
    var originalMaterial: map<BodyKey, Material>

    // space objects
    var satellites: seq<SatelliteState>
    var ships: seq<ShipState>
    var comets: seq<CometState>
    const meteorPool: array<Meteor>
    var lastMeteorTime: real
    var meteorInterval: real
    var debrisRotation: real

    /** `this.planets` holds the built planets in construction order, and
      * `this.moons` every moon. */
    ghost predicate BodiesValid()
      reads this`planets, this`moons
    {
      PlanetsInOrder(planets) && |moons| == |MoonKeys|
    }

    /** The solar-wind buffers are two distinct arrays of equal length,
      * three numbers per particle, and the meteor pool holds 20 meteors. */
    ghost predicate BuffersValid()
    {
      wind != windVelocities && wind.Length == windVelocities.Length == 3 * WindParticles &&
      meteorPool.Length == PoolSize
    }

    /** Every object shows exactly when its flag says so. */
    ghost predicate VisibilityValid()
      reads this`flags, this`objects, this`satellites, this`ships, this`comets
    {
      Governs(flags, objects) && SpaceShows(flags, satellites, ships, comets)
    }

    /** Every comet has 0 < perihelion < aphelion. */
    ghost predicate CometsValid()
      reads this`comets
    {
      CometsWellFormed(comets)
    }

    /** An active surface view has a planet; every body has a material; only
      * a body with a drawing routine can wear a high-detail one, and only
      * after its built material was cached in `originalMaterial`. */
    ghost predicate SurfaceValid()
      reads this`surfaceViewActive, this`surfaceViewPlanet, this`material, this`originalMaterial
    {
      (surfaceViewActive ==> surfaceViewPlanet.Some?) && MaterialsValid(material, originalMaterial)
    }

    ghost predicate Valid()
      reads this`planets, this`moons, this`flags, this`objects, this`satellites, this`ships, this`comets
      reads this`surfaceViewActive, this`surfaceViewPlanet, this`material, this`originalMaterial
    {
      BodiesValid() && BuffersValid() && VisibilityValid() && CometsValid() && SurfaceValid()
    }

    // ------------------------------------------------------------ lookups

    /** Where a body is: the Sun stays at the origin. */
    function PositionOf(k: BodyKey): Vec3
      reads this`planets, this`moons
      requires BodiesValid()
    {
      PositionIn(planets, k)
    }

    /** The state `updateSimulation` changes, as one value. */
    function SimulationNow(): Simulation
      reads this`simulationTime, this`sunRotation, this`coronaRotation, this`beltRotation
      reads this`planets, this`moons, this`controlsTarget
    {
      Simulation(simulationTime, sunRotation, coronaRotation, beltRotation, planets, moons, controlsTarget)
    }

    /** The state `animateSpaceObjects` changes, as one value. */
    function SpaceNow(): SpaceObjects
      reads this`satellites, this`ships, this`comets, meteorPool
      reads this`lastMeteorTime, this`meteorInterval, this`debrisRotation
    {
      SpaceObjects(satellites, ships, comets, meteorPool[..], lastMeteorTime, meteorInterval, debrisRotation)
    }

    /** `this.planets.earth.position`. */
    function EarthPosition(): Vec3
      reads this`planets, this`moons
      requires BodiesValid()
    {
      planets[2].position
    }

    /** `getSimulationDate`: the simulated instant, in milliseconds. */
    function SimulationDate(): real
      reads this`simulationTime
    {
      simulationTime
    }

    /** `getFPS`. */
    function Fps(): FpsCounter
      reads this`frameCount, this`lastFpsUpdate, this`currentFps
    {
      FpsCounter(frameCount, lastFpsUpdate, currentFps)
    }

    // ------------------------------------------------------------ construction

    /** `constructor` and `init`: the initial flags, the bodies at their
      * random starting angles, the hidden deep-space objects, the space
      * objects, the solar wind with velocities a hundredth of the starting
      * positions, and the idle meteor pool of `startMeteorShower`. */
    constructor (now: real, planetAngles: seq<real>, moonAngles: seq<real>, satelliteAngles: seq<real>,
                 shipDraws: seq<ShipDraws>, cometAngles: seq<real>, windStart: seq<real>,
                 cos: real -> real, sin: real -> real)
      requires |planetAngles| == |BuiltPlanets| && |moonAngles| == |MoonKeys|
      requires |satelliteAngles| == |SpaceData.SatelliteKeys| && |shipDraws| == |SpaceData.AlienShips|
      requires |cometAngles| == |SpaceData.Comets|
      requires |windStart| == 3 * WindParticles
      ensures Valid()
      ensures isPlaying && timeSpeed == 1.0 && simulationTime == now
      ensures flags == InitialFlags && objects == InitialObjects()
      ensures !surfaceViewActive && surfaceViewPlanet.None? && originalMaterial == map[]
      ensures Fps() == FpsCounter(0, 0.0, 60)
      ensures fresh(wind) && fresh(windVelocities) && wind[..] == windStart
      ensures forall i :: 0 <= i < |windStart| ==> windVelocities[i] == windStart[i] * 0.01
      ensures fresh(meteorPool) && forall i :: 0 <= i < PoolSize ==> meteorPool[i] == IdleMeteor
      ensures lastMeteorTime == 0.0 && meteorInterval == 2000.0
      ensures cameraMoves == [] && camera == HomeCamera && controlsTarget == Origin
      ensures minDistance == 10.0 && maxDistance == 50000.0
      ensures IntendedOrbitRule(objects.orbitLine, flags.orbits, flags.pluto)
    {
      isPlaying, timeSpeed, simulationTime := true, 1.0, now;
      sunRotation, coronaRotation, beltRotation := 0.0, 0.0, 0.0;
      planets := InitialPlanets(planetAngles, cos, sin);
      moons := InitialMoons(moonAngles);
      wind := new real[|windStart|](i requires 0 <= i < |windStart| => windStart[i]);
      windVelocities := new real[|windStart|](i requires 0 <= i < |windStart| => windStart[i] * 0.01);
      frameCount, lastFpsUpdate, currentFps := 0, 0.0, 60;
      flags := InitialFlags;
      objects := InitialObjects();
      camera, controlsTarget, cameraMoves := HomeCamera, Origin, [];
      selectedPlanet, focusedPlanet, selectedDeepSpaceObject, hoveredPlanet := None, None, None, None;
      touchStartTime, lastTapTime := 0.0, 0.0;
      surfaceViewActive, surfaceViewPlanet, surfaceViewEntryTime := false, None, 0.0;
      minDistance, maxDistance := 10.0, 50000.0;
      material, originalMaterial := BuiltMaterials(), map[];
      satellites := InitialSatellites(satelliteAngles);
      ships := InitialShips(shipDraws, cos, sin);
      comets := InitialComets(cometAngles);
      meteorPool := new Meteor[PoolSize](_ => IdleMeteor);
      lastMeteorTime, meteorInterval, debrisRotation := 0.0, 2000.0, 0.0;
    }

    // ------------------------------------------------------------ the clock

    /** `setTimeSpeed`. */
    method SetTimeSpeed(speed: real)
      modifies this`timeSpeed
      ensures timeSpeed == speed
    {
      timeSpeed := speed;
    }

    /** `togglePlay`: flips the clock and returns whether it now runs. */
    method TogglePlay() returns (playing: bool)
      modifies this`isPlaying
      ensures isPlaying == !old(isPlaying) && playing == isPlaying
    {
      isPlaying := !isPlaying;
      playing := isPlaying;
    }

    /** `setPlaying`. */
    method SetPlaying(playing: bool)
      modifies this`isPlaying
      ensures isPlaying == playing
    {
      isPlaying := playing;
    }

    /** `resetSimulationTime`: the simulated instant becomes `Date.now()`. */
    method ResetSimulationTime(now: real)
      modifies this`simulationTime
      ensures SimulationDate() == now
    {
      simulationTime := now;
    }

    // ------------------------------------------------------------ one frame

    /** The FPS counter of `animate` at `performance.now()` = `now`. */
    method TickFps(now: real)
      modifies this`frameCount, this`lastFpsUpdate, this`currentFps
      ensures Fps() == FpsTick(old(Fps()), now)
    {
      frameCount := frameCount + 1;
      if now - lastFpsUpdate >= 1000.0 {
        currentFps := frameCount;
        frameCount := 0;
        lastFpsUpdate := now;
      }
    }

    /** The planet loop of `updateSimulation`. */
    method MovePlanets(tm: real, cos: real -> real, sin: real -> real)
      requires PlanetsInOrder(planets)
      modifies this`planets
      ensures planets == StepPlanets(old(planets), tm, cos, sin)
    {
      SunOnlySpins();
      var i := 0;
      while i < |planets|
        invariant 0 <= i <= |planets| && |planets| == |old(planets)|
        invariant forall j :: 0 <= j < |planets| ==>
                    planets[j] == if j < i then StepPlanet(old(planets)[j], tm, cos, sin) else old(planets)[j]
      {
        planets := planets[i := StepPlanet(planets[i], tm, cos, sin)];
        i := i + 1;
      }
    }

    /** The moon loop of `updateSimulation`. */
    method MoveMoons(tm: real, cos: real -> real, sin: real -> real)
      modifies this`moons
      ensures moons == StepMoons(old(moons), tm, cos, sin)
    {
      var i := 0;
      while i < |moons|
        invariant 0 <= i <= |moons| && |moons| == |old(moons)|
        invariant forall j :: 0 <= j < |moons| ==>
                    moons[j] == if j < i then StepMoon(old(moons)[j], tm, cos, sin) else old(moons)[j]
      {
        moons := moons[i := StepMoon(moons[i], tm, cos, sin)];
        i := i + 1;
      }
    }

    /** The clock and spin part of `updateSimulation`: the simulated time
      * advances by `timeSpeed` days per second of `delta`, the Sun and its
      * corona spin, and the belt turns once it exists. */
    method AdvanceClock(delta: real)
      modifies this`simulationTime, this`sunRotation, this`coronaRotation, this`beltRotation
      ensures simulationTime == old(simulationTime) + SimulatedMillis(delta, timeSpeed)
      ensures sunRotation == old(sunRotation) + SunSpin(timeSpeed)
      ensures coronaRotation == old(coronaRotation) + 0.0002 * timeSpeed
      ensures beltRotation == if objects.belt.Some? then old(beltRotation) + 0.0001 * timeSpeed else old(beltRotation)
    {
      simulationTime, sunRotation, coronaRotation :=
        simulationTime + timeSpeed * MillisPerDay * delta, sunRotation + 0.001 * timeSpeed, coronaRotation + 0.0002 * timeSpeed;
      if objects.belt.Some? {
        beltRotation := beltRotation + 0.0001 * timeSpeed;
      }
    }

    /** The planet and moon loops of `updateSimulation`, by one tick of `tm`. */
    method MoveBodies(tm: real, cos: real -> real, sin: real -> real)
      requires BodiesValid()
      modifies this`planets, this`moons
      ensures BodiesValid()
      ensures planets == StepPlanets(old(planets), tm, cos, sin)
      ensures moons == StepMoons(old(moons), tm, cos, sin)
    {
      MovePlanets(tm, cos, sin);
      MoveMoons(tm, cos, sin);
    }

    /** The controls follow the focused body unless it is the Sun. */
    method TrackFocus()
      requires BodiesValid()
      modifies this`controlsTarget
      ensures controlsTarget == if focusedPlanet.Some? && focusedPlanet.value != Sun
                                then PositionOf(focusedPlanet.value) else old(controlsTarget)
    {
      if focusedPlanet.Some? && focusedPlanet.value != Sun {
        controlsTarget := PositionOf(focusedPlanet.value);
      }
    }

    /** `updateSimulation(delta)`: the clock advances by `timeSpeed` days per
      * second of `delta`, the Sun and its corona spin, the solar wind moves
      * (respawning at `spawn`), every planet and moon advances by one tick,
      * the belt turns once it exists, and the controls follow the focused
      * body unless it is the Sun. */
    method UpdateSimulation(delta: real, spawn: seq<Vec3>, cos: real -> real, sin: real -> real)
      requires BodiesValid() && BuffersValid() && |spawn| == WindParticles
      modifies this`simulationTime, this`sunRotation, this`coronaRotation, this`beltRotation
      modifies this`planets, this`moons, wind, this`controlsTarget
      ensures BodiesValid()
      ensures SimulationNow() == Simulated(old(SimulationNow()), delta, timeSpeed, objects.belt.Some?, focusedPlanet, cos, sin)
      ensures wind[..] == WindStep(old(wind[..]), windVelocities[..], delta, spawn)
    {
      AdvanceClock(delta);
      MoveWind(wind, windVelocities, delta, spawn);
      MoveBodies(TimeMultiplier(delta, timeSpeed), cos, sin);
      TrackFocus();
    }

    /** The satellite loop of `animateSpaceObjects`, around Earth at `earth`. */
    method MoveSatellites(dt: real, earth: Vec3, cos: real -> real, sin: real -> real)
      modifies this`satellites
      ensures satellites == StepSatellites(old(satellites), dt, Some(earth), cos, sin)
    {
      var i := 0;
      while i < |satellites|
        invariant 0 <= i <= |satellites| && |satellites| == |old(satellites)|
        invariant forall j :: 0 <= j < |satellites| ==>
                    satellites[j] == if j < i then StepSatellite(old(satellites)[j], dt, Some(earth), cos, sin) else old(satellites)[j]
      {
        satellites := satellites[i := StepSatellite(satellites[i], dt, Some(earth), cos, sin)];
        i := i + 1;
      }
    }

    /** The alien-ship loop of `animateSpaceObjects`, at wall-clock second `time`. */
    method MoveShips(dt: real, time: real, cos: real -> real, sin: real -> real)
      modifies this`ships
      ensures ships == StepShips(old(ships), dt, time, cos, sin)
    {
      var i := 0;
      while i < |ships|
        invariant 0 <= i <= |ships| && |ships| == |old(ships)|
        invariant forall j :: 0 <= j < |ships| ==>
                    ships[j] == if j < i then StepShip(old(ships)[j], dt, time, cos, sin) else old(ships)[j]
      {
        ships := ships[i := StepShip(ships[i], dt, time, cos, sin)];
        i := i + 1;
      }
    }

    /** The comet loop of `animateSpaceObjects`. */
    method MoveComets(dt: real, cos: real -> real, sin: real -> real, sqrt: real -> real)
      requires forall a :: -1.0 <= cos(a) <= 1.0
      requires CometsWellFormed(comets)
      modifies this`comets
      ensures comets == StepComets(old(comets), dt, cos, sin, sqrt)
    {
      var i := 0;
      while i < |comets|
        invariant 0 <= i <= |comets| && |comets| == |old(comets)|
        invariant forall j :: 0 <= j < |comets| ==>
                    comets[j] == if j < i then StepComet(old(comets)[j], dt, cos, sin, sqrt) else old(comets)[j]
      {
        comets := comets[i := StepComet(comets[i], dt, cos, sin, sqrt)];
        i := i + 1;
      }
    }

    /** `animateSpaceObjects(dt)` at `Date.now()` = `now`: the satellites, the
      * alien ships and the comets advance by one frame around Earth's
      * current position; once more than `meteorInterval` has passed since the
      * last spawn a meteor is spawned and the next interval drawn; then the
      * pool ages and the debris field turns. Every object keeps its
      * visibility. */
    method AnimateSpaceObjects(dt: real, now: real, d: MeteorDraws, intervalDraw: real,
                               cos: real -> real, sin: real -> real, sqrt: real -> real)
      requires BodiesValid() && BuffersValid() && SpaceShows(flags, satellites, ships, comets) && CometsValid()
      requires forall a :: -1.0 <= cos(a) <= 1.0
      modifies this`satellites, this`ships, this`comets, meteorPool
      modifies this`lastMeteorTime, this`meteorInterval, this`debrisRotation
      ensures SpaceShows(flags, satellites, ships, comets) && CometsValid()
      ensures SpaceNow() == SpaceStep(old(SpaceNow()), dt, now, EarthPosition(), d, intervalDraw, cos, sin, sqrt)
      ensures SimulationNow() == old(SimulationNow()) && wind[..] == old(wind[..])
    {
      ghost var sim, w, s0 := SimulationNow(), wind[..], SpaceNow();
      var earth := EarthPosition();
      MoveSpaceObjects(dt, now * 0.001, earth, cos, sin, sqrt);
      assert SimulationNow() == sim;
      ghost var sats, shps, cmts := satellites, ships, comets;
      RunMeteors(dt, now, d, intervalDraw, cos, sin);
      assert SimulationNow() == sim;
      assert satellites == sats && ships == shps && comets == cmts;
      debrisRotation := debrisRotation + dt * 0.01;
      assert SpaceNow() == SpaceObjects(sats, shps, cmts, meteorPool[..], lastMeteorTime, meteorInterval, s0.debris + dt * 0.01);
    }

    /** The satellite, alien-ship and comet loops of `animateSpaceObjects`,
      * around Earth at `earth` and at wall-clock second `time`. */
    method MoveSpaceObjects(dt: real, time: real, earth: Vec3, cos: real -> real, sin: real -> real, sqrt: real -> real)
      requires SpaceShows(flags, satellites, ships, comets) && CometsValid()
      requires forall a :: -1.0 <= cos(a) <= 1.0
      modifies this`satellites, this`ships, this`comets
      ensures SpaceShows(flags, satellites, ships, comets) && CometsValid()
      ensures satellites == StepSatellites(old(satellites), dt, Some(earth), cos, sin)
      ensures ships == StepShips(old(ships), dt, time, cos, sin)
      ensures comets == StepComets(old(comets), dt, cos, sin, sqrt)
    {
      MoveSatellites(dt, earth, cos, sin);
      MoveShips(dt, time, cos, sin);
      MoveComets(dt, cos, sin, sqrt);
    }

    /** The meteor part of `animateSpaceObjects`: once the interval has
      * passed a meteor spawns and a new interval between one and five
      * seconds is drawn; then every meteor ages. */
    method RunMeteors(dt: real, now: real, d: MeteorDraws, intervalDraw: real, cos: real -> real, sin: real -> real)
      requires BuffersValid()
      modifies meteorPool, this`lastMeteorTime, this`meteorInterval
      ensures var spawned := now - old(lastMeteorTime) > old(meteorInterval);
              meteorPool[..] == StepMeteors(if spawned then Spawned(old(meteorPool[..]), d, cos, sin) else old(meteorPool[..]), dt) &&
              lastMeteorTime == (if spawned then now else old(lastMeteorTime)) &&
              meteorInterval == (if spawned then 1000.0 + intervalDraw * 4000.0 else old(meteorInterval))
    {
      if now - lastMeteorTime > meteorInterval {
        SpawnMeteor(meteorPool, d, cos, sin);
        lastMeteorTime, meteorInterval := now, 1000.0 + intervalDraw * 4000.0;
      }
      AgeMeteors(meteorPool, dt);
    }

    /** The `if (this.isPlaying)` of `animate`: `updateSimulation` runs only
      * while the clock plays, and otherwise nothing it moves changes. */
    method UpdateIfPlaying(delta: real, spawn: seq<Vec3>, cos: real -> real, sin: real -> real)
      requires BodiesValid() && BuffersValid() && |spawn| == WindParticles
      modifies this`simulationTime, this`sunRotation, this`coronaRotation, this`beltRotation
      modifies this`planets, this`moons, wind, this`controlsTarget
      ensures BodiesValid()
      ensures SimulationNow() == if isPlaying
                                 then Simulated(old(SimulationNow()), delta, timeSpeed, objects.belt.Some?, focusedPlanet, cos, sin)
                                 else old(SimulationNow())
      ensures wind[..] == if isPlaying then WindStep(old(wind[..]), windVelocities[..], delta, spawn) else old(wind[..])
      ensures SpaceNow() == old(SpaceNow())
    {
      if isPlaying {
        UpdateSimulation(delta, spawn, cos, sin);
      }
    }

    /** One `animate` frame: the FPS counter, then `updateSimulation` while
      * playing, then the space objects, which move whether or not the
      * clock runs, around Earth where the simulation left it. Every object
      * keeps its visibility: the flags and the scene objects are outside the
      * frame, so `Governs` still holds after it, and the space objects still
      * show as their flags say. The surface view and the materials are
      * outside the frame too, so `SurfaceValid` is kept as well. */
    method Animate(f: Frame)
      requires BodiesValid() && BuffersValid() && SpaceShows(flags, satellites, ships, comets) && CometsValid()
      requires |f.windSpawn| == WindParticles && forall a :: -1.0 <= f.cos(a) <= 1.0
      modifies this`frameCount, this`lastFpsUpdate, this`currentFps
      modifies this`simulationTime, this`sunRotation, this`coronaRotation, this`beltRotation
      modifies this`planets, this`moons, wind, this`controlsTarget
      modifies this`satellites, this`ships, this`comets, meteorPool
      modifies this`lastMeteorTime, this`meteorInterval, this`debrisRotation
      ensures BodiesValid() && SpaceShows(flags, satellites, ships, comets) && CometsValid()
      ensures Fps() == FpsTick(old(Fps()), f.perfNow)
      ensures flags == old(flags) && objects == old(objects)
      ensures SimulationNow() == if isPlaying
                                 then Simulated(old(SimulationNow()), f.delta, timeSpeed, objects.belt.Some?, focusedPlanet, f.cos, f.sin)
                                 else old(SimulationNow())
      ensures wind[..] == if isPlaying then WindStep(old(wind[..]), windVelocities[..], f.delta, f.windSpawn) else old(wind[..])
      ensures SpaceNow() == SpaceStep(old(SpaceNow()), f.delta, f.now, EarthPosition(), f.meteor, f.intervalDraw, f.cos, f.sin, f.sqrt)
    {
      TickFps(f.perfNow);
      StepFrame(f);
    }

    /** The part of `animate` after the FPS counter. */
    method StepFrame(f: Frame)
      requires BodiesValid() && BuffersValid() && SpaceShows(flags, satellites, ships, comets) && CometsValid()
      requires |f.windSpawn| == WindParticles && forall a :: -1.0 <= f.cos(a) <= 1.0
      modifies this`simulationTime, this`sunRotation, this`coronaRotation, this`beltRotation
      modifies this`planets, this`moons, wind, this`controlsTarget
      modifies this`satellites, this`ships, this`comets, meteorPool
      modifies this`lastMeteorTime, this`meteorInterval, this`debrisRotation
      ensures BodiesValid() && SpaceShows(flags, satellites, ships, comets) && CometsValid()
      ensures SimulationNow() == if isPlaying
                                 then Simulated(old(SimulationNow()), f.delta, timeSpeed, objects.belt.Some?, focusedPlanet, f.cos, f.sin)
                                 else old(SimulationNow())
      ensures wind[..] == if isPlaying then WindStep(old(wind[..]), windVelocities[..], f.delta, f.windSpawn) else old(wind[..])
      ensures SpaceNow() == SpaceStep(old(SpaceNow()), f.delta, f.now, EarthPosition(), f.meteor, f.intervalDraw, f.cos, f.sin, f.sqrt)
    {
      UpdateIfPlaying(f.delta, f.windSpawn, f.cos, f.sin);
      AnimateSpaceObjects(f.delta, f.now, f.meteor, f.intervalDraw, f.cos, f.sin, f.sqrt);
    }

    // ------------------------------------------------------------ display toggles

    /** `toggleOrbits` as written: the guard passes for every line, so every
      * line, Pluto's too, follows the new flag. */
    method ToggleOrbits() returns (shown: bool)
      requires VisibilityValid()
      modifies this`flags, this`objects
      ensures VisibilityValid()
      ensures flags == old(flags).(orbits := !old(flags.orbits)) && shown == flags.orbits
      ensures objects == old(objects).(orbitLine := ToggleOrbitsAsWritten(old(objects.orbitLine), old(flags.orbits), flags.pluto))
      ensures forall k :: k in objects.orbitLine ==> objects.orbitLine[k] == shown
    {
      ToggleOrbitsKeepsGoverns(flags, objects);
      objects := objects.(orbitLine := ToggleOrbitsAsWritten(objects.orbitLine, flags.orbits, flags.pluto));
      flags := flags.(orbits := !flags.orbits);
      shown := flags.orbits;
    }

    /** `toggleOrbits` with the guard read on each line's planet: the lines
      * follow the new flag, Pluto's only while Pluto is shown, and the
      * intended rule is kept. */
    method ToggleOrbitsCorrected() returns (shown: bool)
      requires VisibilityValid() && IntendedOrbitRule(objects.orbitLine, flags.orbits, flags.pluto)
      modifies this`flags, this`objects
      ensures VisibilityValid() && IntendedOrbitRule(objects.orbitLine, flags.orbits, flags.pluto)
      ensures flags == old(flags).(orbits := !old(flags.orbits)) && shown == flags.orbits
      ensures objects == old(objects).(orbitLine := ToggleOrbitsFixed(old(objects.orbitLine), old(flags.orbits), flags.pluto))
    {
      ToggleOrbitsFixedKeepsGoverns(flags, objects);
      objects := objects.(orbitLine := ToggleOrbitsFixed(objects.orbitLine, flags.orbits, flags.pluto));
      flags := flags.(orbits := !flags.orbits);
      shown := flags.orbits;
    }

    /** `toggleLabels`: the planet labels follow the new flag, the moon
      * labels show iff the labels and the moons both do. */
    method ToggleLabels() returns (shown: bool)
      requires VisibilityValid()
      modifies this`flags, this`objects
      ensures VisibilityValid()
      ensures flags == old(flags).(labels := !old(flags.labels)) && shown == flags.labels
      ensures objects == old(objects).(planetLabel := SetAll(old(objects.planetLabel), shown),
                                       moonLabel := SetAll(old(objects.moonLabel), shown && flags.moons))
    {
      ToggleLabelsKeepsRule(flags, objects);
      shown := !flags.labels;
      flags, objects := flags.(labels := shown), objects.(planetLabel := SetAll(objects.planetLabel, shown),
                                                         moonLabel := SetAll(objects.moonLabel, shown && flags.moons));
    }

    /** `toggleMoons`: the moons follow the new flag, their labels show iff
      * the moons and the labels both do. */
    method ToggleMoons() returns (shown: bool)
      requires VisibilityValid()
      modifies this`flags, this`objects
      ensures VisibilityValid()
      ensures flags == old(flags).(moons := !old(flags.moons)) && shown == flags.moons
      ensures objects == old(objects).(moon := SetAll(old(objects.moon), shown),
                                       moonLabel := SetAll(old(objects.moonLabel), shown && flags.labels))
    {
      ToggleMoonsKeepsRule(flags, objects);
      shown := !flags.moons;
      flags, objects := flags.(moons := shown), objects.(moon := SetAll(objects.moon, shown),
                                                        moonLabel := SetAll(objects.moonLabel, shown && flags.labels));
    }

    /** `toggleStars`. */
    method ToggleStars() returns (shown: bool)
      requires VisibilityValid()
      modifies this`flags, this`objects
      ensures VisibilityValid()
      ensures flags == old(flags).(stars := !old(flags.stars)) && shown == flags.stars
      ensures objects == old(objects).(starField := shown)
    {
      ToggleStarsKeepsRule(flags, objects);
      flags, objects := flags.(stars := !flags.stars), objects.(starField := !flags.stars);
      shown := flags.stars;
    }

    /** `toggleAsteroidBelt`: the belt is built, shown, the first time the
      * flag turns on; before that hiding it builds nothing. */
    method ToggleAsteroidBelt() returns (shown: bool)
      requires VisibilityValid()
      modifies this`flags, this`objects
      ensures VisibilityValid()
      ensures flags == old(flags).(asteroidBelt := !old(flags.asteroidBelt)) && shown == flags.asteroidBelt
      ensures objects == old(objects).(belt := if old(objects.belt).None? && !shown then None else Some(shown))
    {
      ToggleBeltKeepsRule(flags, objects);
      shown := !flags.asteroidBelt;
      // `createAsteroidBelt` builds the belt shown when the flag turns on
      // for the first time; an existing belt then follows the flag.
      flags, objects := flags.(asteroidBelt := shown), objects.(belt := if objects.belt.None? && !shown then None else Some(shown));
    }

    /** `togglePluto`: Pluto follows the new flag and its orbit line shows
      * iff Pluto and the orbits both do. */
    method TogglePluto() returns (shown: bool)
      requires VisibilityValid()
      modifies this`flags, this`objects
      ensures VisibilityValid()
      ensures flags == old(flags).(pluto := !old(flags.pluto)) && shown == flags.pluto
      ensures objects == old(objects).(pluto := shown, orbitLine := old(objects.orbitLine)[Pluto := shown && flags.orbits])
      ensures IntendedOrbitRule(objects.orbitLine, flags.orbits, flags.pluto)
    {
      PlutoOrbitFollowsBoth(flags, objects);
      shown := !flags.pluto;
      flags, objects := flags.(pluto := shown), objects.(pluto := shown, orbitLine := objects.orbitLine[Pluto := shown && flags.orbits]);
    }

    /** `toggleAutoOrbit`. */
    method ToggleAutoOrbit() returns (on: bool)
      requires VisibilityValid()
      modifies this`flags
      ensures VisibilityValid()
      ensures flags == old(flags).(autoOrbit := !old(flags.autoOrbit)) && on == flags.autoOrbit
    {
      AutoOrbitGovernsNothing(flags, objects, !flags.autoOrbit);
      flags := flags.(autoOrbit := !flags.autoOrbit);
      on := flags.autoOrbit;
    }

    /** `toggleGalaxies(show)`. */
    method ToggleGalaxies(show: Option<bool>) returns (shown: bool)
      requires VisibilityValid()
      modifies this`flags, this`objects
      ensures VisibilityValid()
      ensures shown == Toggled(old(flags.galaxies), show) && flags == old(flags).(galaxies := shown)
      ensures objects == old(objects).(galaxy := SetAll(old(objects.galaxy), shown))
    {
      shown := Toggled(flags.galaxies, show);
      GalaxyToggleKeepsRule(flags, objects, shown);
      flags, objects := flags.(galaxies := shown), objects.(galaxy := SetAll(objects.galaxy, shown));
    }

    /** `toggleNebulae(show)`: the black holes follow the nebula flag too. */
    method ToggleNebulae(show: Option<bool>) returns (shown: bool)
      requires VisibilityValid()
      modifies this`flags, this`objects
      ensures VisibilityValid()
      ensures shown == Toggled(old(flags.nebulae), show) && flags == old(flags).(nebulae := shown)
      ensures objects == old(objects).(nebula := SetAll(old(objects.nebula), shown),
                                       blackHole := SetAll(old(objects.blackHole), shown))
    {
      shown := Toggled(flags.nebulae, show);
      NebulaToggleKeepsRule(flags, objects, shown);
      flags, objects := flags.(nebulae := shown), objects.(nebula := SetAll(objects.nebula, shown), blackHole := SetAll(objects.blackHole, shown));
    }

    /** `toggleMilkyWay(show)`. */
    method ToggleMilkyWay(show: Option<bool>) returns (shown: bool)
      requires VisibilityValid()
      modifies this`flags, this`objects
      ensures VisibilityValid()
      ensures shown == Toggled(old(flags.milkyWay), show) && flags == old(flags).(milkyWay := shown)
      ensures objects == old(objects).(milkyWay := shown)
    {
      shown := Toggled(flags.milkyWay, show);
      MilkyWayToggleKeepsRule(flags, objects, shown);
      flags, objects := flags.(milkyWay := shown), objects.(milkyWay := shown);
    }

    /** `toggleSatellites(show)`. */
    method ToggleSatellites(show: Option<bool>) returns (shown: bool)
      requires VisibilityValid()
      modifies this`flags, this`satellites
      ensures VisibilityValid()
      ensures shown == Toggled(old(flags.satellites), show) && flags == old(flags).(satellites := shown)
      ensures satellites == ShowSatellites(old(satellites), shown)
    {
      shown := Toggled(flags.satellites, show);
      SatelliteFlagGovernsNothing(flags, objects, shown);
      flags, satellites := flags.(satellites := shown), ShowSatellites(satellites, shown);
    }

    /** `toggleAlienShips(show)`. */
    method ToggleAlienShips(show: Option<bool>) returns (shown: bool)
      requires VisibilityValid()
      modifies this`flags, this`ships
      ensures VisibilityValid()
      ensures shown == Toggled(old(flags.alienShips), show) && flags == old(flags).(alienShips := shown)
      ensures ships == ShowShips(old(ships), shown)
    {
      shown := Toggled(flags.alienShips, show);
      ShipFlagGovernsNothing(flags, objects, shown);
      flags, ships := flags.(alienShips := shown), ShowShips(ships, shown);
    }

    /** `toggleComets(show)`. */
    method ToggleComets(show: Option<bool>) returns (shown: bool)
      requires VisibilityValid()
      modifies this`flags, this`comets
      ensures VisibilityValid()
      ensures shown == Toggled(old(flags.comets), show) && flags == old(flags).(comets := shown)
      ensures comets == ShowComets(old(comets), shown)
    {
      shown := Toggled(flags.comets, show);
      CometFlagGovernsNothing(flags, objects, shown);
      flags, comets := flags.(comets := shown), ShowComets(comets, shown);
    }

    // ------------------------------------------------------------ camera

    /** `animateCameraTo`: a transition towards `position`, looking at
      * `target`, is started. */
    method AnimateCameraTo(position: Vec3, target: Vec3)
      modifies this`cameraMoves
      ensures cameraMoves == old(cameraMoves) + [CameraMove(position, target)]
    {
      cameraMoves := cameraMoves + [CameraMove(position, target)];
    }

    /** `setUniverseView(view)`: the galaxies, nebulae and Milky Way follow
      * the view's entry (an unknown view uses `solarSystem`'s), the cosmic
      * dust shows outside the solar-system view, and the camera moves out
      * to the view's distance. */
    method SetUniverseView(view: string) returns (r: string)
      requires VisibilityValid()
      modifies this`flags, this`objects, this`cameraMoves
      ensures VisibilityValid() && r == view
      ensures var s := Settings(view);
              flags == old(flags).(view := view, galaxies := s.showGalaxies, nebulae := s.showNebulae,
                                   milkyWay := s.showMilkyWay) &&
              objects == old(objects).(galaxy := SetAll(old(objects.galaxy), s.showGalaxies),
                                       nebula := SetAll(old(objects.nebula), s.showNebulae),
                                       blackHole := SetAll(old(objects.blackHole), s.showNebulae),
                                       milkyWay := s.showMilkyWay, cosmicDust := view != "solarSystem") &&
              cameraMoves == old(cameraMoves) + [CameraMove(ViewCamera(s.cameraDistance), Origin)]
    {
      var s := Settings(view);
      ApplyView(view, s);
      AnimateCameraTo(ViewCamera(s.cameraDistance), Origin);
      r := view;
    }

    /** The flag part of `setUniverseView`, for the view's settings `s`: the
      * effect of its `toggleGalaxies`, `toggleNebulae` and `toggleMilkyWay`
      * calls, then the new view and the cosmic dust. */
    method ApplyView(view: string, s: ViewSettings)
      requires VisibilityValid()
      modifies this`flags, this`objects
      ensures VisibilityValid()
      ensures flags == old(flags).(view := view, galaxies := s.showGalaxies, nebulae := s.showNebulae,
                                   milkyWay := s.showMilkyWay)
      ensures objects == old(objects).(galaxy := SetAll(old(objects.galaxy), s.showGalaxies),
                                       nebula := SetAll(old(objects.nebula), s.showNebulae),
                                       blackHole := SetAll(old(objects.blackHole), s.showNebulae),
                                       milkyWay := s.showMilkyWay, cosmicDust := view != "solarSystem")
    {
      ViewSettingsKeepRule(flags, objects, view, s);
      flags, objects := flags.(view := view, galaxies := s.showGalaxies, nebulae := s.showNebulae,
                                   milkyWay := s.showMilkyWay),
        objects.(galaxy := SetAll(objects.galaxy, s.showGalaxies),
                                       nebula := SetAll(objects.nebula, s.showNebulae),
                                       blackHole := SetAll(objects.blackHole, s.showNebulae),
                                       milkyWay := s.showMilkyWay, cosmicDust := view != "solarSystem");
    }

    /** `resetCamera`: nothing is focused and the camera heads home. */
    method ResetCamera()
      modifies this`focusedPlanet, this`cameraMoves
      ensures focusedPlanet.None?
      ensures cameraMoves == old(cameraMoves) + [CameraMove(HomeCamera, Origin)]
    {
      focusedPlanet := None;
      AnimateCameraTo(HomeCamera, Origin);
    }

    /** `setViewMode(mode)`: from above, from the side, or (any other mode)
      * `resetCamera`. */
    method SetViewMode(mode: string)
      modifies this`focusedPlanet, this`cameraMoves
      ensures mode == "top" ==> cameraMoves == old(cameraMoves) + [CameraMove(Vec3(0.0, 300.0, 0.0), Origin)] && unchanged(this`focusedPlanet)
      ensures mode == "side" ==> cameraMoves == old(cameraMoves) + [CameraMove(Vec3(300.0, 0.0, 0.0), Origin)] && unchanged(this`focusedPlanet)
      ensures mode != "top" && mode != "side" ==> cameraMoves == old(cameraMoves) + [CameraMove(HomeCamera, Origin)] && focusedPlanet.None?
    {
      if mode == "top" {
        AnimateCameraTo(Vec3(0.0, 300.0, 0.0), Origin);
      } else if mode == "side" {
        AnimateCameraTo(Vec3(300.0, 0.0, 0.0), Origin);
      } else {
        ResetCamera();
      }
    }

    /** `focusOnDeepSpaceObject(objectType, key)`: a known object is
      * selected and the camera heads to two scales out and one up from it,
      * looking at it; anything else changes nothing. */
    method FocusOnDeepSpaceObject(objectType: string, key: string)
      modifies this`selectedDeepSpaceObject, this`cameraMoves
      ensures match DeepLookup(objectType, key)
              case None => selectedDeepSpaceObject == old(selectedDeepSpaceObject) && cameraMoves == old(cameraMoves)
              case Some(t) =>
                selectedDeepSpaceObject == Some(t) &&
                cameraMoves == old(cameraMoves) + [CameraMove(DeepSpace.FocusCamera(DeepData(t)), DeepData(t).position)]
    {
      var target := DeepLookup(objectType, key);
      if target.Some? {
        selectedDeepSpaceObject := target;
        var d := DeepData(target.value);
        AnimateCameraTo(DeepSpace.FocusCamera(d), d.position);
      }
    }

    // ------------------------------------------------------------ selection and surface view

    /** `selectPlanet(name)`: a body the scene has becomes the selection. */
    method SelectPlanet(name: string)
      modifies this`selectedPlanet
      ensures selectedPlanet == if ParseBody(name).Some? then ParseBody(name) else old(selectedPlanet)
    {
      var k := ParseBody(name);
      if k.Some? {
        selectedPlanet := k;
      }
    }

    /** `focusOnPlanet(name, instant)`: a known body becomes the focus, the
      * surface view flag drops, and the camera goes (at once, or through a
      * transition) to 5·size + 10 out from the body, looking at it. */
    method FocusOnPlanet(name: string, instant: bool)
      requires BodiesValid() && SurfaceValid()
      modifies this`focusedPlanet, this`surfaceViewActive, this`camera, this`controlsTarget, this`cameraMoves
      ensures SurfaceValid()
      ensures ParseBody(name).None? ==>
                focusedPlanet == old(focusedPlanet) && surfaceViewActive == old(surfaceViewActive) &&
                camera == old(camera) && controlsTarget == old(controlsTarget) && cameraMoves == old(cameraMoves)
      ensures ParseBody(name).Some? ==>
                var k := ParseBody(name).value;
                var goal := Add(PositionOf(k), FocusOffset(BodySize(k)));
                focusedPlanet == Some(k) && !surfaceViewActive &&
                (instant ==> camera == goal && controlsTarget == PositionOf(k) && cameraMoves == old(cameraMoves)) &&
                (!instant ==> camera == old(camera) && controlsTarget == old(controlsTarget) &&
                              cameraMoves == old(cameraMoves) + [CameraMove(goal, PositionOf(k))])
    {
      var key := ParseBody(name);
      if key.Some? {
        var k := key.value;
        focusedPlanet := key;
        surfaceViewActive := false;
        var target := PositionOf(k);
        var goal := Add(target, FocusOffset(BodySize(k)));
        if instant {
          camera := goal;
          controlsTarget := target;
        } else {
          AnimateCameraTo(goal, target);
        }
      }
    }

    /** `applyHighDetailTexture(name, planet)`: a body with a drawing routine
      * keeps its built material in `originalMaterial` the first time and
      * wears a high-detail one; Pluto is left as it was. */
    method ApplyHighDetailTexture(k: BodyKey)
      requires MaterialsValid(material, originalMaterial)
      modifies this`material, this`originalMaterial
      ensures MaterialsValid(material, originalMaterial)
      ensures !HasSurfaceRoutine(k) ==> material == old(material) && originalMaterial == old(originalMaterial)
      ensures HasSurfaceRoutine(k) ==>
                material == old(material)[k := HighDetail] &&
                originalMaterial == if k in old(originalMaterial) then old(originalMaterial)
                                    else old(originalMaterial)[k := old(material)[k]]
    {
      if HasSurfaceRoutine(k) {
        if k !in originalMaterial {
          originalMaterial := originalMaterial[k := material[k]];
        }
        material := material[k := HighDetail];
      }
    }

    /** `enterSurfaceView(name)` at `Date.now()` = `now`, with `angleDraw`
      * the `Math.random()` of the viewing angle: a known body becomes the
      * surface-view planet and the focus, wears its high-detail material,
      * the zoom limits close in to 1.05 and 10 sizes, and the camera heads
      * to 1.2 sizes out and 0.36 up. Returns the body, or nothing for an
      * unknown name. */
    method EnterSurfaceView(name: string, now: real, angleDraw: real, cos: real -> real, sin: real -> real)
      returns (entered: Option<BodyKey>)
      requires BodiesValid() && SurfaceValid()
      modifies this`surfaceViewActive, this`surfaceViewPlanet, this`focusedPlanet, this`surfaceViewEntryTime
      modifies this`material, this`originalMaterial, this`minDistance, this`maxDistance, this`cameraMoves
      ensures SurfaceValid()
      ensures entered == ParseBody(name)
      ensures entered.None? ==>
                surfaceViewActive == old(surfaceViewActive) && surfaceViewPlanet == old(surfaceViewPlanet) &&
                focusedPlanet == old(focusedPlanet) && surfaceViewEntryTime == old(surfaceViewEntryTime) &&
                material == old(material) && originalMaterial == old(originalMaterial) &&
                minDistance == old(minDistance) && maxDistance == old(maxDistance) && cameraMoves == old(cameraMoves)
      ensures entered.Some? ==>
                var k := entered.value;
                surfaceViewActive && surfaceViewPlanet == Some(k) && focusedPlanet == Some(k) &&
                surfaceViewEntryTime == now &&
                material == (if HasSurfaceRoutine(k) then old(material)[k := HighDetail] else old(material)) &&
                minDistance == BodySize(k) * 1.05 && maxDistance == BodySize(k) * 10.0 &&
                cameraMoves == old(cameraMoves) + [SurfaceMove(k, angleDraw, cos, sin)]
    {
      entered := ParseBody(name);
      if entered.Some? {
        EnterSurfaceOf(entered.value, now, angleDraw, cos, sin);
      }
    }

    /** The body of `enterSurfaceView` once the name has resolved to `k`. */
    method EnterSurfaceOf(k: BodyKey, now: real, angleDraw: real, cos: real -> real, sin: real -> real)
      requires BodiesValid() && SurfaceValid()
      modifies this`surfaceViewActive, this`surfaceViewPlanet, this`focusedPlanet, this`surfaceViewEntryTime
      modifies this`material, this`originalMaterial, this`minDistance, this`maxDistance, this`cameraMoves
      ensures SurfaceValid()
      ensures surfaceViewActive && surfaceViewPlanet == Some(k) && focusedPlanet == Some(k) && surfaceViewEntryTime == now
      ensures material == (if HasSurfaceRoutine(k) then old(material)[k := HighDetail] else old(material))
      ensures minDistance == BodySize(k) * 1.05 && maxDistance == BodySize(k) * 10.0
      ensures cameraMoves == old(cameraMoves) + [SurfaceMove(k, angleDraw, cos, sin)]
    {
      surfaceViewActive, surfaceViewPlanet, focusedPlanet, surfaceViewEntryTime := true, Some(k), Some(k), now;
      ApplyHighDetailTexture(k);
      SurfaceCamera(k, angleDraw, cos, sin);
    }

    /** The camera move of a surface view of `k` at the drawn angle. */
    function SurfaceMove(k: BodyKey, angleDraw: real, cos: real -> real, sin: real -> real): CameraMove
      reads this`planets, this`moons
      requires BodiesValid()
    {
      CameraMove(Add(PositionOf(k), SurfaceOffset(BodySize(k), angleDraw * Pi * 2.0, cos, sin)), PositionOf(k))
    }

    /** The zoom limits and the camera move of `enterSurfaceView`. */
    method SurfaceCamera(k: BodyKey, angleDraw: real, cos: real -> real, sin: real -> real)
      requires BodiesValid()
      modifies this`minDistance, this`maxDistance, this`cameraMoves
      ensures minDistance == BodySize(k) * 1.05 && maxDistance == BodySize(k) * 10.0
      ensures cameraMoves == old(cameraMoves) + [SurfaceMove(k, angleDraw, cos, sin)]
    {
      var size := BodySize(k);
      var target := PositionOf(k);
      var goal := Add(target, SurfaceOffset(size, angleDraw * Pi * 2.0, cos, sin));
      minDistance, maxDistance := size * 1.05, size * 10.0;
      AnimateCameraTo(goal, target);
    }

    /** `exitSurfaceView`: an active surface view ends, the zoom limits go
      * back to 5 and 50000, and the camera refocuses on the planet, which
      * keeps its high-detail material. */
    method ExitSurfaceView()
      requires BodiesValid() && SurfaceValid()
      modifies this`surfaceViewActive, this`surfaceViewPlanet, this`minDistance, this`maxDistance
      modifies this`focusedPlanet, this`camera, this`controlsTarget, this`cameraMoves
      ensures SurfaceValid()
      ensures !old(surfaceViewActive) ==>
                surfaceViewActive == old(surfaceViewActive) && surfaceViewPlanet == old(surfaceViewPlanet) &&
                minDistance == old(minDistance) && maxDistance == old(maxDistance) &&
                focusedPlanet == old(focusedPlanet) && cameraMoves == old(cameraMoves)
      ensures old(surfaceViewActive) ==>
                var k := old(surfaceViewPlanet).value;
                !surfaceViewActive && surfaceViewPlanet.None? && minDistance == 5.0 && maxDistance == 50000.0 &&
                focusedPlanet == Some(k) &&
                cameraMoves == old(cameraMoves) + [CameraMove(Add(PositionOf(k), FocusOffset(BodySize(k))), PositionOf(k))]
      ensures camera == old(camera) && controlsTarget == old(controlsTarget)
    {
      if !surfaceViewActive {
        return;
      }
      surfaceViewActive := false;
      minDistance, maxDistance := 5.0, 50000.0;
      if surfaceViewPlanet.Some? {
        BodyNameRoundTrip(surfaceViewPlanet.value);
        FocusOnPlanet(BodyName(surfaceViewPlanet.value), false);
      }
      surfaceViewPlanet := None;
    }

    /** `toggleSurfaceView(name)`: leaves the surface view of `name` when it
      * is the one shown (returning false), and otherwise enters the surface
      * view of `name` (returning true). */
    method ToggleSurfaceView(name: string, now: real, angleDraw: real, cos: real -> real, sin: real -> real)
      returns (entering: bool)
      requires BodiesValid() && SurfaceValid()
      modifies this`surfaceViewActive, this`surfaceViewPlanet, this`focusedPlanet, this`surfaceViewEntryTime
      modifies this`material, this`originalMaterial, this`minDistance, this`maxDistance
      modifies this`camera, this`controlsTarget, this`cameraMoves
      ensures SurfaceValid()
      ensures entering <==> !(old(surfaceViewActive) && old(surfaceViewPlanet).Some? && BodyName(old(surfaceViewPlanet).value) == name)
      ensures !entering ==> !surfaceViewActive && surfaceViewPlanet.None? && material == old(material)
      ensures entering && ParseBody(name).Some? ==> surfaceViewActive && surfaceViewPlanet == ParseBody(name)
    {
      if surfaceViewActive && surfaceViewPlanet.Some? && BodyName(surfaceViewPlanet.value) == name {
        ExitSurfaceView();
        entering := false;
      } else {
        var _ := EnterSurfaceView(name, now, angleDraw, cos, sin);
        entering := true;
      }
    }

    /** `checkSurfaceViewExit` at `Date.now()` = `now` with the camera at
      * `cameraPos`: an active surface view at least two seconds old ends
      * once the camera is more than 8 sizes from its planet. */
    method CheckSurfaceViewExit(now: real, cameraPos: Vec3) returns (exited: bool)
      requires BodiesValid() && SurfaceValid()
      modifies this`surfaceViewActive, this`surfaceViewPlanet, this`minDistance, this`maxDistance
      modifies this`focusedPlanet, this`camera, this`controlsTarget, this`cameraMoves
      ensures SurfaceValid()
      ensures exited <==> old(surfaceViewActive) && old(surfaceViewPlanet).Some? &&
                          now - old(surfaceViewEntryTime) >= 2000.0 &&
                          var k := old(surfaceViewPlanet).value;
                          var limit := BodySize(k) * 8.0;
                          SqDistance(cameraPos, PositionOf(k)) > limit * limit
      ensures exited ==> !surfaceViewActive && surfaceViewPlanet.None?
      ensures !exited ==> surfaceViewActive == old(surfaceViewActive) && surfaceViewPlanet == old(surfaceViewPlanet) &&
                          cameraMoves == old(cameraMoves)
    {
      exited := false;
      if !surfaceViewActive || surfaceViewPlanet.None? {
        return;
      }
      if now - surfaceViewEntryTime < 2000.0 {
        return;
      }
      var k := surfaceViewPlanet.value;
      var limit := BodySize(k) * 8.0;
      if SqDistance(cameraPos, PositionOf(k)) > limit * limit {
        ExitSurfaceView();
        exited := true;
      }
    }

    // ------------------------------------------------------------ touch

    /** `onTouchStart` at `Date.now()` = `now`: with one finger down, a body
      * under it becomes the hovered one, empty space clears it, and any
      * other object leaves it as it was. */
    method OnTouchStart(now: real, singleTouch: bool, hit: Hit)
      modifies this`touchStartTime, this`hoveredPlanet
      ensures touchStartTime == now
      ensures hoveredPlanet == if !singleTouch then old(hoveredPlanet)
                               else match hit
                                    case NoHit => None
                                    case BodyHit(k) => Some(k)
                                    case OtherHit => old(hoveredPlanet)
    {
      touchStartTime := now;
      if singleTouch {
        match hit {
          case NoHit => hoveredPlanet := None;
          case BodyHit(k) => hoveredPlanet := Some(k);
          case OtherHit =>
        }
      }
    }

    /** The name of the hovered body, as `onTouchEnd` reads it. */
    function HoveredName(): Option<string>
      reads this`hoveredPlanet
    {
      if hoveredPlanet.Some? then Some(BodyName(hoveredPlanet.value)) else None
    }

    /** `onTouchEnd` at `Date.now()` = `now`: a short tap selects the hovered
      * body, a second short tap within 300 ms focuses it. */
    method OnTouchEnd(now: real)
      requires BodiesValid() && SurfaceValid()
      modifies this`lastTapTime, this`selectedPlanet
      modifies this`focusedPlanet, this`surfaceViewActive, this`camera, this`controlsTarget, this`cameraMoves
      ensures SurfaceValid()
      ensures var t := Procedural.TapDecision(touchStartTime, old(lastTapTime), now, HoveredName());
              lastTapTime == t.lastTapTime &&
              (t.action.Ignore? ==> selectedPlanet == old(selectedPlanet) && focusedPlanet == old(focusedPlanet) &&
                                    cameraMoves == old(cameraMoves)) &&
              (t.action.Select? ==> selectedPlanet == hoveredPlanet && focusedPlanet == old(focusedPlanet) &&
                                    cameraMoves == old(cameraMoves)) &&
              (t.action.Focus? ==> selectedPlanet == old(selectedPlanet) && focusedPlanet == hoveredPlanet &&
                                   !surfaceViewActive && |cameraMoves| == |old(cameraMoves)| + 1)
    {
      var t := Procedural.TapDecision(touchStartTime, lastTapTime, now, HoveredName());
      if hoveredPlanet.Some? {
        BodyNameRoundTrip(hoveredPlanet.value);
      }
      match t.action {
        case Ignore =>
        case Select(n) => SelectPlanet(n);
        case Focus(n) => FocusOnPlanet(n, false);
      }
      lastTapTime := t.lastTapTime;
    }
  }

  /** Every body wearing the material it was built with. */
  function BuiltMaterials(): (m: map<BodyKey, Material>)
    ensures forall k: BodyKey :: k in m && m[k] == Built
    ensures MaterialsValid(m, map[])
  {
    map k: BodyKey | k == Sun || k in BuiltPlanets :: Built
  }

  /** `createPlanets`: the built planets in order, each at its random
    * starting angle on its orbit. */
  function InitialPlanets(angles: seq<real>, cos: real -> real, sin: real -> real): (ps: seq<PlanetState>)
    requires |angles| == |BuiltPlanets|
    ensures PlanetsInOrder(ps)
  {
    seq(|BuiltPlanets|, (i: int) requires 0 <= i < |BuiltPlanets| =>
      PlanetState(BuiltPlanets[i], angles[i], 0.0,
                  OrbitPosition(angles[i], BodyOrbit(BuiltPlanets[i]).value.orbitRadius, 0.0, cos, sin)))
  }

  /** `createMoonsForPlanet`: every moon at x = orbitRadius of its parent's frame. */
  function InitialMoons(angles: seq<real>): (ms: seq<MoonState>)
    requires |angles| == |MoonKeys|
    ensures |ms| == |MoonKeys| && forall i :: 0 <= i < |ms| ==> ms[i].key == MoonKeys[i]
  {
    seq(|MoonKeys|, (i: int) requires 0 <= i < |MoonKeys| =>
      MoonState(MoonKeys[i], angles[i], Vec3(MoonData(MoonKeys[i]).orbitRadius, 0.0, 0.0)))
  }

  /** `createSatellites`: every satellite shown, at the origin. */
  function InitialSatellites(angles: seq<real>): (ss: seq<SatelliteState>)
    requires |angles| == |SpaceData.SatelliteKeys|
    ensures |ss| == |SpaceData.SatelliteKeys| && SatellitesShow(ss, true)
    ensures forall i :: 0 <= i < |ss| ==> ss[i].key == SpaceData.SatelliteKeys[i]
  {
    seq(|SpaceData.SatelliteKeys|, (i: int) requires 0 <= i < |SpaceData.SatelliteKeys| =>
      NewSatellite(SpaceData.SatelliteKeys[i], angles[i], Origin))
  }

  /** `createAlienShips`: every ship shown, on the radius of its table entry. */
  function InitialShips(draws: seq<ShipDraws>, cos: real -> real, sin: real -> real): (ss: seq<ShipState>)
    requires |draws| == |SpaceData.AlienShips|
    ensures |ss| == |SpaceData.AlienShips| && ShipsShow(ss, true)
    ensures forall i :: 0 <= i < |ss| ==> ss[i].orbitRadius == SpaceData.AlienShips[i].orbitRadius
  {
    seq(|SpaceData.AlienShips|, (i: int) requires 0 <= i < |SpaceData.AlienShips| =>
      NewShip(SpaceData.AlienShips[i], draws[i], cos, sin))
  }

  /** `createCometsAndAsteroids`: every comet shown, with 0 < perihelion < aphelion. */
  function InitialComets(angles: seq<real>): (cs: seq<CometState>)
    requires |angles| == |SpaceData.Comets|
    ensures |cs| == |SpaceData.Comets| && CometsWellFormed(cs) && CometsShow(cs, true)
  {
    SpaceData.CometsWellFormed();
    seq(|SpaceData.Comets|, (i: int) requires 0 <= i < |SpaceData.Comets| =>
      NewComet(SpaceData.Comets[i], angles[i]))
  }

  /** The index of a built planet in `this.planets`. */
  function PlanetIndex(k: BodyKey): (i: nat)
    requires k != Sun
    ensures i < |BuiltPlanets| && BuiltPlanets[i] == k
  {
    match k
    case Mercury => 0
    case Venus => 1
    case Earth => 2
    case Mars => 3
    case Jupiter => 4
    case Saturn => 5
    case Uranus => 6
    case Neptune => 7
    case Pluto => 8
  }
}
