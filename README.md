# Universe Explorer — a verified model of the scene core

Universe Explorer is a browser-based 3D explorer of the solar system and of
deep space. This project models its core in Dafny: the data tables, the
scene controller, the UI controller, the guided tour and the launch screen.
It proves what each operation does to the scene and what the data
guarantees.

The data tables:

- **Registry** (`registry.dfy`) holds the bodies of `PLANET_DATA` and the
  moons of `MOON_DATA`, the tour targets of `TOUR_STEPS`, and the order in
  which `createPlanets` builds the planets.
- **DeepSpace** (`universe_data.dfy`) holds `GALAXIES`, `NEBULAE` and
  `EXOTIC_OBJECTS`, and the type dispatch that picks each object's mesh
  routine.
- **SpaceData** (`space_data.dfy`) holds `SATELLITES`, `COMETS`,
  `ALIEN_SHIPS` and `SPACE_FACTS`.

The pure parts of the scene controller:

- **Colour** (`colour.dfy`) is the `colorWithAlpha` helper of the nebula
  glow texture. It covers JavaScript's `startsWith`, `slice`, `parseInt(_, 16)`
  and the regular-expression replacement.
- **Procedural** (`procedural.dfy`) holds:
  - the camera transition (`easeInOutCubic` and `lerpVectors`);
  - noise: `smoothNoise`, `fractalNoise` and the in-place `generateNoise`
    pass over a `Uint8ClampedArray`;
  - the quality tiers, the asteroid-belt radius and the tap/double-tap
    decision.
- **Motion** (`motion.dfy`) holds the per-tick motion of planets, moons,
  the solar wind, satellites, alien ships, comets and meteors.

The controllers:

- **Scene** (`solar_system.dfy`) is the `SolarSystem` class: clock,
  visibility flags, scene objects, camera requests, the surface view, the
  frame loop, the space objects and the meteor pool.
- **Ui** (`ui.dfy`) is the time controls of the `UIController`, the
  universe-view checkboxes, the space facts and the planet comparison.
- **Tour** (`tour.dfy`) is the `TourController`.
- **Launch** (`launch.dfy`) is the countdown of the loading screen and the
  tab-visibility rule of `main.js`.

**How numbers are modelled:**

- JavaScript numbers are modelled as `real`. `Math.cos`, `Math.sin` and
  `Math.sqrt` are function parameters. The proofs assume only what is
  stated, for example cos² + sin² = 1 at the angle used.
- `Math.random()`, `Date.now()`, `performance.now()` and the frame's
  `clock.getDelta()` are parameters of the operations that read them.
- A camera animation is recorded as a requested move, in a log
  (`cameraMoves`). The frames of one transition are a function of elapsed
  time: `Procedural.CameraAt` and `Procedural.TargetAt`.
- The scene's visibility booleans are a `Flags` record. The objects they
  govern are maps from keys to `visible`, in `SceneObjects`.
  `Scene.Governs` is the invariant that ties the two together.

**Behaviour of the code worth knowing** (each is modelled as the code has it):

- `exitSurfaceView` does not put the original material back. The planet
  keeps its high-detail one, and `originalMaterial` is only cached.
- Surface view is entered for every body. Pluto has no drawing routine, so
  its material is left as it was, but the view, zoom limits and camera
  still change.
- The orbit angle and the clock use different scales. Angles advance
  by `orbitSpeed / 100 · delta · timeSpeed · 0.5`. The clock advances by
  `timeSpeed · 86400000 · delta` milliseconds.
- A camera transition is never cleared or cancelled. A finished one simply
  stops rescheduling itself.
- A comet's tail is not skipped at distance 0. `100 / 0` is `Infinity`,
  and the clamp makes the scale 2.
- The controls start with a minimum distance of 10. Every exit from
  surface view sets it to 5, so outside surface view it is 5 from the
  first exit on.
- `toggleOrbits` sets every orbit line, Pluto's too, to the orbit flag (see
  "## Findings"). The scene therefore keeps a weaker orbit rule, `OrbitRule`:
  Pluto's line shows only while the orbits do, and shows whenever Pluto and
  the orbits both do. The rule the authors intended, `IntendedOrbitRule`,
  holds from the start, after every `togglePluto`, and throughout a run
  that uses the corrected toggle `ToggleOrbitsCorrected`.

## Model

| member | source | states |
|---|---|---|
| Registry.ParseBody | js/planetData.js:7-336 | a name parses to a key only when that key's name is exactly the name |
| Registry.BodyNameRoundTrip | js/planetData.js:7-336 | every body key's name parses back to that key |
| Registry.MoonsOfCount | js/solarSystem.js:1073 | the parent filter keeps all occurrences of a moon whose parent is the planet and none of any other moon |
| Registry.AttachedCount | js/solarSystem.js:1072-1097 | a moon is attached once per occurrence of its parent among the built planets times its occurrences in the table |
| Registry.KeyTablesComplete | js/solarSystem.js:667-679 | the built planets are exactly the bodies other than the Sun, without repetition; every moon key occurs once |
| Registry.MoonsAttachedOnce | js/planetData.js:339-472 | every moon's parent is built, so each moon of MOON_DATA is attached exactly once |
| Registry.TourTargetsResolve | js/planetData.js:475-536 | ten steps, step 0 without a target, every target a body the scene resolves |
| Registry.SunOnlySpins | js/planetData.js:8-42 | the Sun has no orbit fields and is not a built planet; every built planet has them |
| Registry.RetrogradeBodies | js/planetData.js:94 | exactly Venus, Uranus and Pluto spin backwards, and exactly Triton orbits backwards |
| Registry.RingsAndAtmospheres | js/planetData.js:235 | exactly Saturn and Uranus have rings; exactly Venus and Earth have an atmosphere |
| DeepSpace.ParseGalaxy | js/universeData.js:37-190 | a galaxy key is found only under its own name |
| DeepSpace.ParseNebula | js/universeData.js:193-338 | a nebula key is found only under its own name |
| DeepSpace.ParseExotic | js/universeData.js:399-454 | an exotic object is found only under its own name |
| DeepSpace.DeepNamesRoundTrip | js/universeData.js:37-454 | every galaxy, nebula and exotic key's name parses back to it |
| DeepSpace.DeepKeysComplete | js/solarSystem.js:1306-1315 | the key lists walked by the create routines contain every object of each table |
| DeepSpace.GalaxyMeshFor | js/solarSystem.js:1323-1329 | the spiral routine exactly for a type containing "Spiral"; the ring routine exactly for a type containing "Ring" but not "Spiral" |
| DeepSpace.NebulaStyleFor | js/solarSystem.js:1466-1483 | a type other than planetary, reflection or dark falls to the emission branch |
| DeepSpace.FocusCamera | js/solarSystem.js:2165-2171 | the camera ends three scales away from the object, one scale higher, with equal x and z offsets |
| DeepSpace.FocusAboveObject | js/solarSystem.js:2163-2171 | every galaxy, nebula and black hole is viewed from strictly above, at three times its own scale |
| DeepSpace.SpiralTypes | js/universeData.js:40 | the "Spiral Galaxy" and "Lenticular/Spiral Galaxy" types take the spiral routine |
| DeepSpace.RingType | js/universeData.js:116 | the "Ring Galaxy" type takes the ring routine |
| DeepSpace.StarburstType | js/universeData.js:135 | the "Starburst Galaxy" type takes the elliptical routine |
| DeepSpace.GalaxyDispatch | js/solarSystem.js:1317-1335 | only the Cartwheel galaxy is built as a ring, only the Cigar galaxy as elliptical, all others as spirals |
| DeepSpace.NebulaDispatch | js/solarSystem.js:1460-1489 | every nebula has a non-empty type matching no case, so every nebula is built by the emission branch |
| DeepSpace.JetDispatch | js/solarSystem.js:2006-2008 | only M87*'s mass mentions "billion", so only it gets relativistic jets |
| DeepSpace.FocusUsesOwnScale | js/solarSystem.js:2166 | every object has a positive scale, so the default 50 is never used |
| SpaceData.Flatten | js/ui.js:1219-1226 | the categories' facts concatenated, five per category |
| SpaceData.SatelliteOrbits | js/spaceObjects.js:7-96 | exactly ISS, Hubble, GPS and Starlink orbit Earth; JWST is the only solar one; the Voyagers are heliocentric; no speed or radius is zero |
| SpaceData.CometsWellFormed | js/spaceObjects.js:99-139 | every comet has 40 <= perihelion < aphelion and a non-zero speed |
| SpaceData.ShipsHaveRadius | js/spaceObjects.js:176-229 | every alien ship has a positive orbit radius, so the fallbacks 150 and 100 + random are unused |
| Colour.HexToRgba | js/solarSystem.js:1938-1943 | a `#rrggbb` colour becomes `rgba(r, g, b, alpha)` with the decimal values of its three bytes |
| Colour.HexFields | js/solarSystem.js:1938-1941 | a `#` colour takes the hexadecimal branch and slices out exactly its three two-character fields |
| Colour.ParseHex2 | js/solarSystem.js:1939 | `parseInt` base 16 of the two digits of a byte gives the byte back |
| Colour.ParseTwoDigits | js/solarSystem.js:1939 | two hexadecimal digits with no sign, space or `0x` read as 16·first + second |
| Colour.RgbToRgba | js/solarSystem.js:1934-1936 | an `rgb(...)` colour becomes `rgba(...)` with the alpha inserted before its first closing parenthesis |
| Colour.RgbaReplacesAlpha | js/solarSystem.js:1930-1932 | an `rgba(...)` colour ending in a number has exactly that number replaced by the alpha |
| Colour.TrailingNumberIsLeftmost | js/solarSystem.js:1931 | the replaced text is the regular expression's leftmost match; without a match nothing changes |
| Colour.AlphaReplacedOnRepeat | js/solarSystem.js:1928-1946 | applying the helper to its own rgba output only swaps the alpha |
| Colour.FallbackGrey | js/solarSystem.js:1944-1945 | a colour in none of the three notations becomes mid grey with the alpha |
| Colour.FirstIndex | js/solarSystem.js:1935 | the first index of a character: it holds the character and no earlier index does, or the character is absent |
| Colour.RunStart | js/solarSystem.js:1931 | the start of the maximal run of digits and dots before the closing parenthesis |
| Colour.HexPrefixLength | js/solarSystem.js:1939 | the longest prefix of hexadecimal digits, which `parseInt` reads |
| Colour.TrimStart | js/solarSystem.js:1939 | `parseInt` skips leading white space: a suffix of the text starting with no space |
| Motion.DoubleSpeed | js/solarSystem.js:3350-3351 | two ticks at speed 1 advance the angle multiplier and the clock as far as one tick at speed 2 |
| Motion.OppositeSpeeds | js/solarSystem.js:3350-3351 | ticks at opposite speeds over equal frame times cancel, for the angles and for the clock |
| Motion.PlanetTicksCompose | js/solarSystem.js:3396-3407 | two planet ticks are one tick of the summed time multipliers |
| Motion.PlanetDoubleSpeed | js/solarSystem.js:3396-3407 | two ticks at speed 1 leave a planet where one tick at speed 2 does |
| Motion.PlanetReverseRestores | js/solarSystem.js:3396-3407 | a tick at −s and one at +s restore the orbit angle and spin and put the planet back on its orbit |
| Motion.MoonTicksCompose | js/solarSystem.js:3410-3417 | two moon ticks are one tick of the summed time multipliers |
| Motion.MoonReverseRestores | js/solarSystem.js:3410-3417 | a moon ticked at −s then at +s returns to its orbit angle |
| Motion.EarthAndMoonRates | js/solarSystem.js:3401 | per tick Earth's angle grows by 0.005·delta·speed and the Moon's by 0.06685·delta·speed |
| Motion.OnCircle | js/solarSystem.js:3402-3403 | an orbit position lies on the circle of the orbit radius |
| Motion.WindStep | js/solarSystem.js:3368-3390 | one tick of the solar-wind buffer keeps its length |
| Motion.WindStepParticle | js/solarSystem.js:3370-3389 | each particle becomes the moved one if that stays within 150 and its respawn point otherwise |
| Motion.MoveParticle | js/solarSystem.js:3370-3389 | the loop body writes exactly the three coordinates of particle i |
| Motion.MoveWind | js/solarSystem.js:3364-3393 | in place, the position buffer becomes the wind step of the old buffer |
| Motion.WindStaysInside | js/solarSystem.js:3381 | with respawn points inside 150, every particle is inside 150 after a tick |
| Motion.WindSpawnInside | js/solarSystem.js:3382-3388 | a respawn point lies at a distance in [20, 25) from the Sun's centre |
| Motion.SatelliteStep | js/solarSystem.js:4460-4481 | a hidden satellite is skipped, one without a parent only spins, an Earth satellite goes onto its circle around Earth |
| Motion.EarthSatellitesParented | js/solarSystem.js:3592-3594 | exactly the Earth-orbit satellites get Earth as their parent |
| Motion.ShipOnItsCircle | js/solarSystem.js:4484-4520 | a hidden ship is skipped; a shown ship ends on its radius's circle |
| Motion.Eccentricity | js/solarSystem.js:4530-4531 | the semi-major axis and eccentricity give back perihelion and aphelion |
| Motion.CometRadiusBounds | js/solarSystem.js:4532 | the comet's distance stays between perihelion and aphelion |
| Motion.TailScale | js/solarSystem.js:4543 | the tail scale lies in [0.3, 2] and is 100 / distance when that is in range |
| Motion.TailScaleShape | js/solarSystem.js:4542-4543 | tails are at full scale 2 within distance 50 and shrink beyond |
| Motion.CometStep | js/solarSystem.js:4523-4550 | a hidden comet is skipped; a shown one moves along its ellipse within its extremes, stays in its plane, and gets a tail scale in [0.3, 2] |
| Motion.CometsStartAtPerihelion | js/solarSystem.js:4206-4226 | every comet starts in the plane at its perihelion |
| Motion.MeteorStep | js/solarSystem.js:4560-4580 | a hidden meteor is skipped; a shown one ages by dt, expires exactly at its maximum lifetime, and otherwise moves by its velocity |
| Motion.SpawnedMeteorFresh | js/solarSystem.js:4444-4446 | a spawned meteor is shown with lifetime 0 and a maximum lifetime in [2, 4) |
| Procedural.EaseFixedPoints | js/solarSystem.js:3307-3309 | the easing fixes 0, 1/2 and 1 |
| Procedural.EaseRange | js/solarSystem.js:3307-3309 | the easing maps [0,1] into [0,1], below 1/2 exactly on the first half |
| Procedural.EaseMonotone | js/solarSystem.js:3307-3309 | the easing is monotone on [0,1] |
| Procedural.Progress | js/solarSystem.js:3293 | progress is at most 1, not negative for a non-negative elapsed time, and 1 exactly from 1500 ms on |
| Procedural.TransitionStarts | js/solarSystem.js:3285-3305 | the first frame leaves camera and target where they were and schedules another |
| Procedural.TransitionFinishes | js/solarSystem.js:3291-3302 | from 1500 ms on the camera and target are the requested ones and no frame is scheduled |
| Procedural.TransitionStaysBetween | js/solarSystem.js:3296-3297 | the camera stays in the box of start and end, and on each of x, y and z it moves monotonically towards the end |
| Procedural.SmoothNoise | js/solarSystem.js:2480-2483 | the noise value lies in [0, 1) |
| Procedural.FractalNoise | js/solarSystem.js:2485-2499 | the loop computes the weighted average of octave samples, running zero times for 0 or fewer octaves |
| Procedural.FractalNoiseInUnitInterval | js/solarSystem.js:2485-2499 | with at least one octave and non-negative persistence the result lies in [0, 1) |
| Procedural.FractalNoiseDegenerate | js/solarSystem.js:2485-2499 | one octave is smoothNoise itself; no octave divides 0 by 0 |
| Procedural.Store | js/solarSystem.js:2471-2473 | a byte store clamps to [0, 255] and rounds to within half a unit |
| Procedural.StoreMonotone | js/solarSystem.js:2471-2473 | storing keeps the order of the values |
| Procedural.StoreExact | js/solarSystem.js:2471-2473 | a whole number in range is stored as itself |
| Procedural.RoundHalfEven | js/solarSystem.js:2471-2473 | rounding moves a value by at most half a unit |
| Procedural.GenerateNoise | js/solarSystem.js:2465-2477 | in place, the image becomes the noised image of the old one, one draw per pixel |
| Procedural.NoisePixel | js/solarSystem.js:2468-2474 | the loop body changes only the three colour bytes of its pixel that lie inside the buffer |
| Procedural.NoiseKeepsAlpha | js/solarSystem.js:2465-2477 | the pass keeps the buffer length and every alpha byte |
| Procedural.NoiseShiftsChannel | js/solarSystem.js:2470-2473 | every colour byte ends within half a unit of its old value plus the pixel's noise, clamped |
| Procedural.NoiseKeepsChannelOrder | js/solarSystem.js:2468-2474 | the colour bytes of one pixel keep their order |
| Procedural.NoiseZeroScale | js/solarSystem.js:2465-2477 | a zero scale leaves the image unchanged |
| Procedural.QualityOf | js/solarSystem.js:685-687 | a setting other than ultra, high or medium falls to the lowest tier |
| Procedural.QualityOrdered | js/solarSystem.js:1185-1187 | a better tier never has fewer sphere segments or asteroids, and a strictly better one has strictly more of both |
| Procedural.DefaultQuality | js/solarSystem.js:57 | the initial medium setting gives 32 segments and 2000 asteroids |
| Procedural.AsteroidBetweenMarsAndJupiter | js/solarSystem.js:1194 | an asteroid's radius lies in [90, 110), beyond Mars's orbit and inside Jupiter's |
| Procedural.TapCases | js/solarSystem.js:2278-2295 | a long press or a tap on empty space is ignored; a short tap selects; a second within 300 ms focuses and resets the tap time |
| Procedural.DoubleTap | js/solarSystem.js:2284-2293 | two quick taps on one planet select then focus it |
| Scene.AllSet | js/solarSystem.js:2127-2129 | exactly the keys given, each with the value given |
| Scene.FocusOffset | js/solarSystem.js:2368-2389 | the focus camera is equally far out on x and z, at least 10, and half as high |
| Scene.ViewFlags | js/solarSystem.js:2098-2106 | which views show nebulae, galaxies and the Milky Way; an unknown view falls back to solarSystem; each view is farther out than the one before |
| Scene.DeepLookup | js/solarSystem.js:2155-2161 | an object is found only under its own type and key, and nothing under any other type |
| Scene.DeepLookupFinds | js/solarSystem.js:2155-2161 | every galaxy, nebula and black hole is found under its own type and key |
| Scene.PlutoOrbitShownWhilePlutoHidden | js/solarSystem.js:3447 | as written the guard passes for every line, so hiding and showing the orbits shows Pluto's orbit while Pluto is hidden: the intended rule breaks and only the weaker rule holds |
| Scene.ToggleOrbitsAsWrittenKeepsRule | js/solarSystem.js:3444-3452 | as written, every line, Pluto's too, takes the new orbit flag, and the weaker orbit rule is kept |
| Scene.InitialOrbitLines | js/solarSystem.js:1144-1178 | after creation every orbit line shows except Pluto's, so the intended rule holds |
| Scene.ToggleOrbitsFixed | js/solarSystem.js:3444-3452 | the corrected toggle keeps the set of orbit lines |
| Scene.ToggleOrbitsKeepsRule | js/solarSystem.js:3444-3452 | with the intended guard, toggling keeps the intended rule: every line follows the orbit flag, Pluto's also the Pluto flag |
| Scene.FirstHidden | js/solarSystem.js:4422 | `find` returns the first hidden meteor, or nothing when all are shown |
| Scene.SpawnActivatesFirstHidden | js/solarSystem.js:4421-4454 | a full pool is untouched; otherwise exactly the first hidden meteor becomes fresh and shown |
| Scene.SpawnMeteor | js/solarSystem.js:4421-4454 | in place, the pool becomes the spawned pool |
| Scene.AgeMeteors | js/solarSystem.js:4560-4580 | in place, the pool becomes every meteor stepped by one frame |
| Scene.ShipSpeedRange | js/solarSystem.js:3890 | a ship's orbit speed has magnitude in [0.1, 0.3) and either sign |
| Scene.SetAll | js/solarSystem.js:3456-3458 | the same objects, all shown or all hidden |
| Scene.PlanetObjects | js/solarSystem.js:667-679 | one object per built planet, all alike |
| Scene.MoonObjects | js/solarSystem.js:1072-1097 | one object per moon, all alike |
| Scene.GalaxyObjects | js/solarSystem.js:1306-1315 | one object per galaxy, all alike |
| Scene.NebulaObjects | js/solarSystem.js:1449-1458 | one object per nebula, all alike |
| Scene.ExoticObjects | js/solarSystem.js:1960-1969 | one object per black hole, all alike |
| Scene.InitialObjects | js/solarSystem.js:92-108 | the objects after `init` follow the initial flags, and no belt exists yet |
| Scene.MoonLabelsShowWithBoth | js/solarSystem.js:3462 | a moon label shows exactly when moons and labels both show |
| Scene.ToggleLabelsKeepsRule | js/solarSystem.js:3454-3466 | toggling labels keeps every object following the flags |
| Scene.ToggleMoonsKeepsRule | js/solarSystem.js:3468-3480 | toggling moons keeps every object following the flags |
| Scene.PlutoOrbitFollowsBoth | js/solarSystem.js:3501-3510 | after toggling Pluto its orbit shows exactly when Pluto and the orbits show, so the intended rule holds again |
| Scene.ToggleOrbitsKeepsGoverns | js/solarSystem.js:3444-3452 | the orbit toggle as written keeps every object following the flags, with every line showing as the new flag |
| Scene.ToggleOrbitsFixedKeepsGoverns | js/solarSystem.js:3444-3452 | the corrected orbit toggle keeps every object following the flags and the lines under the intended rule |
| Scene.ToggleStarsKeepsRule | js/solarSystem.js:3482-3488 | toggling the stars keeps every object following the flags |
| Scene.ToggleBeltKeepsRule | js/solarSystem.js:3490-3499 | toggling the belt, built on the first showing, keeps every object following the flags |
| Scene.GalaxyToggleKeepsRule | js/solarSystem.js:2125-2131 | setting the galaxy flag to any value keeps every object following the flags |
| Scene.NebulaToggleKeepsRule | js/solarSystem.js:2133-2142 | setting the nebula flag keeps nebulae and black holes following it |
| Scene.MilkyWayToggleKeepsRule | js/solarSystem.js:2144-2150 | setting the Milky Way flag keeps every object following the flags |
| Scene.ViewSettingsKeepRule | js/solarSystem.js:2106-2114 | choosing a view keeps every object following the flags |
| Scene.FpsReportsFrames | js/solarSystem.js:3316-3323 | frames within a second are only counted; the first a second or more after the last report reports all of them and restarts the count |
| Scene.StepPlanets | js/solarSystem.js:3396-3407 | the planets stay the built planets in order |
| Scene.StepMoons | js/solarSystem.js:3410-3417 | the moons keep their number and keys |
| Scene.ScenesTicksCompose | js/solarSystem.js:3396-3417 | two ticks of all planets and moons are one tick of the summed multipliers |
| Scene.StepSatellites | js/solarSystem.js:4460-4481 | every satellite keeps its visibility |
| Scene.StepShips | js/solarSystem.js:4484-4520 | every ship keeps its visibility |
| Scene.StepComets | js/solarSystem.js:4523-4550 | every comet keeps its visibility and its well-formed extremes |
| Scene.StepMeteors | js/solarSystem.js:4560-4580 | the pool keeps its size |
| Scene.MeteorsAge | js/solarSystem.js:4560-4568 | a shown meteor ages by dt and stays shown exactly while below its maximum lifetime |
| Scene.ShowSatellites | js/solarSystem.js:4589-4595 | every satellite shows as asked and nothing else about it changes |
| Scene.ShowShips | js/solarSystem.js:4597-4603 | every ship shows as asked and nothing else about it changes |
| Scene.ShowComets | js/solarSystem.js:4605-4611 | every comet shows as asked and nothing else about it changes |
| Scene.Simulated | js/solarSystem.js:3349-3428 | one simulation tick keeps the built planets in order and the number of moons |
| Scene.SpaceStep | js/solarSystem.js:4456-4586 | one space-object frame keeps the comets well formed and the pool's size |
| Scene.BuiltMaterials | js/solarSystem.js:681-726 | every body wears the material it was built with, and none is cached |
| Scene.InitialPlanets | js/solarSystem.js:700-703 | the created planets are the built planets in order |
| Scene.InitialMoons | js/solarSystem.js:1085-1088 | one moon per key of MOON_DATA, in table order |
| Scene.InitialSatellites | js/solarSystem.js:3583-3604 | one shown satellite per table entry, in order |
| Scene.InitialShips | js/solarSystem.js:3878-3905 | one shown ship per table entry, on that entry's radius |
| Scene.InitialComets | js/solarSystem.js:4206-4226 | one shown, well-formed comet per table entry |
| Scene.SolarSystem.constructor | js/solarSystem.js:7-90 | playing at speed 1 from now, the initial flags and objects under the intended orbit rule, zoom limits 10 and 50000, no surface view, FPS 60, the wind buffers, and an idle pool of 20 |
| Scene.SolarSystem.SetTimeSpeed | js/solarSystem.js:3431-3433 | the speed becomes the one given |
| Scene.SolarSystem.TogglePlay | js/solarSystem.js:3435-3438 | the clock flips and the new state is returned |
| Scene.SolarSystem.SetPlaying | js/solarSystem.js:3440-3442 | the clock plays as given |
| Scene.SolarSystem.ResetSimulationTime | js/solarSystem.js:3559-3561 | the simulated date becomes now |
| Scene.SolarSystem.TickFps | js/solarSystem.js:3316-3323 | the counter takes one FPS step |
| Scene.SolarSystem.MovePlanets | js/solarSystem.js:3396-3407 | the planets become every planet stepped by one tick |
| Scene.SolarSystem.MoveMoons | js/solarSystem.js:3410-3417 | the moons become every moon stepped by one tick |
| Scene.SolarSystem.AdvanceClock | js/solarSystem.js:3350-3361 | the clock advances by speed·86400000·delta; the Sun and corona spin; the belt turns only once built |
| Scene.SolarSystem.MoveBodies | js/solarSystem.js:3396-3417 | planets and moons advance by one tick |
| Scene.SolarSystem.TrackFocus | js/solarSystem.js:3425-3427 | the controls follow the focused body unless it is the Sun |
| Scene.SolarSystem.UpdateSimulation | js/solarSystem.js:3349-3428 | the simulation takes one tick and the wind buffer one wind step |
| Scene.SolarSystem.MoveSatellites | js/solarSystem.js:4460-4481 | the satellites take one frame around Earth |
| Scene.SolarSystem.MoveShips | js/solarSystem.js:4484-4520 | the ships take one frame |
| Scene.SolarSystem.MoveComets | js/solarSystem.js:4523-4550 | the comets take one frame |
| Scene.SolarSystem.AnimateSpaceObjects | js/solarSystem.js:4456-4586 | the space objects take one frame and the simulation is untouched |
| Scene.SolarSystem.MoveSpaceObjects | js/solarSystem.js:4460-4550 | satellites, ships and comets take one frame and keep showing as their flags say |
| Scene.SolarSystem.RunMeteors | js/solarSystem.js:4553-4580 | after the interval a meteor spawns and a new interval of 1 to 5 s is drawn; then the pool ages |
| Scene.SolarSystem.UpdateIfPlaying | js/solarSystem.js:3325-3327 | the simulation ticks only while playing and is untouched otherwise |
| Scene.SolarSystem.Animate | js/solarSystem.js:3311-3347 | one frame: FPS step, a simulation tick only while playing, space objects in any case; flags and objects unchanged |
| Scene.SolarSystem.StepFrame | js/solarSystem.js:3325-3330 | the simulation ticks while playing, then the space objects move around Earth's new position |
| Scene.SolarSystem.ToggleOrbits | js/solarSystem.js:3444-3452 | as written: the orbit flag flips and every line, Pluto's too, shows as the new flag; the weaker orbit rule is kept |
| Scene.SolarSystem.ToggleOrbitsCorrected | js/solarSystem.js:3444-3452 | with the intended guard: the orbit flag flips, the lines follow it, Pluto's only while Pluto shows, and the intended rule is kept |
| Scene.SolarSystem.ToggleLabels | js/solarSystem.js:3454-3466 | the label flag flips; planet labels follow it; moon labels follow labels and moons |
| Scene.SolarSystem.ToggleMoons | js/solarSystem.js:3468-3480 | the moon flag flips; moons follow it; moon labels follow moons and labels |
| Scene.SolarSystem.ToggleStars | js/solarSystem.js:3482-3488 | the star flag flips and the star field follows |
| Scene.SolarSystem.ToggleAsteroidBelt | js/solarSystem.js:3490-3499 | the belt flag flips; the belt is built on the first showing and follows the flag once it exists |
| Scene.SolarSystem.TogglePluto | js/solarSystem.js:3501-3510 | the Pluto flag flips; Pluto follows it; its orbit shows exactly with Pluto and the orbits, restoring the intended rule |
| Scene.SolarSystem.ToggleAutoOrbit | js/solarSystem.js:3512-3515 | the auto-orbit flag flips and nothing else changes |
| Scene.SolarSystem.ToggleGalaxies | js/solarSystem.js:2125-2131 | the galaxy flag is set or flipped and every galaxy follows |
| Scene.SolarSystem.ToggleNebulae | js/solarSystem.js:2133-2142 | the nebula flag is set or flipped and every nebula and black hole follows |
| Scene.SolarSystem.ToggleMilkyWay | js/solarSystem.js:2144-2150 | the Milky Way flag is set or flipped and the disk follows |
| Scene.SolarSystem.ToggleSatellites | js/solarSystem.js:4589-4595 | the satellite flag is set or flipped and every satellite follows |
| Scene.SolarSystem.ToggleAlienShips | js/solarSystem.js:4597-4603 | the ship flag is set or flipped and every ship follows |
| Scene.SolarSystem.ToggleComets | js/solarSystem.js:4605-4611 | the comet flag is set or flipped and every comet follows |
| Scene.SolarSystem.AnimateCameraTo | js/solarSystem.js:3285-3305 | one transition to the given position and target is requested |
| Scene.SolarSystem.SetUniverseView | js/solarSystem.js:2095-2123 | the view's settings govern galaxies, nebulae, black holes and the Milky Way; dust shows outside the solar-system view; the camera heads to the view's distance |
| Scene.SolarSystem.ApplyView | js/solarSystem.js:2108-2114 | the three toggles take the view's values and the dust follows the view |
| Scene.SolarSystem.ResetCamera | js/solarSystem.js:3517-3523 | nothing is focused and the camera heads to (100, 80, 200) |
| Scene.SolarSystem.SetViewMode | js/solarSystem.js:3525-3542 | top and side views move the camera above or beside the Sun; any other mode resets the camera |
| Scene.SolarSystem.FocusOnDeepSpaceObject | js/solarSystem.js:2152-2177 | a known object is selected and focused; anything else changes nothing |
| Scene.SolarSystem.SelectPlanet | js/solarSystem.js:2352-2366 | a known body becomes the selection; an unknown name changes nothing |
| Scene.SolarSystem.FocusOnPlanet | js/solarSystem.js:2368-2389 | a known body is focused, the surface flag drops, the camera goes, at once or by transition, to 5·size + 10 out; an unknown name changes nothing |
| Scene.SolarSystem.ApplyHighDetailTexture | js/solarSystem.js:2501-2559 | a body with a drawing routine caches its material the first time and wears the high-detail one; Pluto is left alone |
| Scene.SolarSystem.EnterSurfaceView | js/solarSystem.js:2392-2431 | a known body enters surface view with zoom limits 1.05 and 10 sizes and a camera at 1.2 sizes out; an unknown name changes nothing |
| Scene.SolarSystem.EnterSurfaceOf | js/solarSystem.js:2396-2423 | the surface view is active on the body since now, with its material, limits and camera move |
| Scene.SolarSystem.SurfaceCamera | js/solarSystem.js:2404-2423 | zoom limits of 1.05 and 10 sizes and one camera move to the surface vantage |
| Scene.SolarSystem.ExitSurfaceView | js/solarSystem.js:2433-2452 | an active surface view ends, the limits return to 5 and 50000, and the camera refocuses on the planet; otherwise nothing changes |
| Scene.SolarSystem.ToggleSurfaceView | js/solarSystem.js:2454-2462 | leaves the surface view of the named planet when it is shown, and enters it otherwise |
| Scene.SolarSystem.CheckSurfaceViewExit | js/solarSystem.js:168-185 | exits exactly when the view is at least 2 s old and the camera is more than 8 sizes away |
| Scene.SolarSystem.OnTouchStart | js/solarSystem.js:2254-2276 | one finger on a body hovers it, on empty space clears the hover, on another object keeps it |
| Scene.SolarSystem.OnTouchEnd | js/solarSystem.js:2278-2295 | the tap decision is carried out: ignore, select the hovered body, or focus it |
| Ui.IndexOf | js/ui.js:486 | the first position of the value, or −1 exactly when it is absent |
| Ui.SliderRoundTrip | js/ui.js:922-926 | every slider value selects a ladder index, an index's slider position selects it again, and −3..4 maps to value + 3 |
| Ui.ReverseNegates | js/ui.js:928-931 | reversing negates the speed, twice restores it, and forward speeds are positive |
| Ui.UpdateTimeSpeedTruthful | js/ui.js:928-939 | the label and slider that updateTimeSpeed writes show the speed it sets |
| Ui.PresetAsWrittenGoesStale | js/ui.js:483-494 | as written, a preset changes the speed but leaves a truthful display stale |
| Ui.PresetAsWrittenAtRealtime | js/ui.js:490 | at 1x, the 100x preset leaves slider and label at 1x while the scene runs at 100x |
| Ui.PresetFixedTruthful | js/ui.js:483-494 | the corrected preset handler leaves a truthful display |
| Ui.CheckboxesMatchView | js/ui.js:668-678 | outside the solar-system view the checkboxes agree with the scene's view settings |
| Ui.PickInRange | js/ui.js:1283 | a random draw picks an index of the facts |
| Ui.FirstFresh | js/ui.js:1281-1284 | the do-while stops on the first draw picking a new index, or the first draw with one fact |
| Ui.FactsLayout | js/ui.js:1217-1261 | there are 45 facts: each category's five in order, then the 25 general ones |
| Ui.Ratio | js/ui.js:1111-1114 | a ratio exists exactly for two numbers with a non-zero second, and it times the second gives the first |
| Ui.DiametersPositive | js/planetData.js:7-336 | every body has a positive diameter |
| Ui.UpdateComparison | js/ui.js:1079-1083 | a comparison is drawn exactly when both names are bodies |
| Ui.DiscSizes | js/ui.js:1090-1099 | both discs are between 20 and 100, and the larger body's is 100 |
| Ui.ComparisonRatios | js/ui.js:1105-1131 | one ratio per property; the diameter always has one; mass, day length and temperature never do |
| Ui.FormatDistance | js/ui.js:1000-1007 | millions from 10⁶ km, thousands from 1000, units below, each scaled back to the distance |
| Ui.FormatOrbitalPeriod | js/ui.js:1009-1016 | N/A exactly at 0, days below 365, otherwise years of 365.25 days |
| Ui.UiController.constructor | js/ui.js:8-18 | 1x forwards in the solar-system view, all facts loaded, and a first fact shown when the panel exists |
| Ui.UiController.UpdateTimeSpeed | js/ui.js:928-939 | the scene runs at the signed level and label and slider follow |
| Ui.UiController.TogglePlayPause | js/ui.js:883-888 | the clock flips and the icon matches it |
| Ui.UiController.ReverseTime | js/ui.js:890-894 | the direction flips, the speed is negated and the button follows |
| Ui.UiController.IncreaseSpeed | js/ui.js:896-901 | one level up, or nothing at the top |
| Ui.UiController.DecreaseSpeed | js/ui.js:903-908 | one level down, or nothing at the bottom |
| Ui.UiController.SetRealtime | js/ui.js:910-915 | 1x forwards with the display truthful |
| Ui.UiController.ResetTime | js/ui.js:917-920 | the clock jumps to now and runs at 1x forwards |
| Ui.UiController.SetSpeedFromSlider | js/ui.js:922-926 | the clamped slider position becomes the index and the speed follows |
| Ui.UiController.SpeedPreset | js/ui.js:483-494 | as written, a known preset sets index and forward speed and leaves the display; an unknown one changes nothing |
| Ui.UiController.SpeedPresetFixed | js/ui.js:483-494 | a known preset sets index and speed and the display follows; an unknown one changes nothing |
| Ui.UiController.SetUniverseView | js/ui.js:668-678 | the scene switches view; outside the solar-system view the checkboxes track the view |
| Ui.UiController.UpdateCheckboxes | js/ui.js:672-677 | the solar-system view leaves the checkboxes alone; any other view sets them to the view's table entry |
| Ui.UiController.InitSpaceFacts | js/ui.js:1217-1275 | the category facts then the general ones; with the panel present a fact is shown |
| Ui.UiController.ShowRandomFact | js/ui.js:1277-1294 | the first draw picking a new index becomes the current fact, and its text is shown; without panel or facts nothing changes |
| Tour.StepsStayInRange | js/tour.js:269-285 | the step counter stays within −1..last; next stays put exactly on the last step and previous exactly at 0 or before |
| Tour.StepsUndo | js/tour.js:269-285 | back after forward and forward after back return to the step |
| Tour.ProgressBounds | js/tour.js:232-234 | progress is 0 before the tour and 100 on the last step, within [0, 100], non-decreasing |
| Tour.LabelMeaning | js/tour.js:248-252 | within the tour the button reads Finish exactly on the last step; before it the label stays |
| Tour.ActionsOfTheTour | js/tour.js:255-267 | step 0 is the overview, later steps visit the Sun or a built planet, others do nothing |
| Tour.AdvanceReaches | js/tour.js:269-277 | n presses of Next from s reach s + n or the last step |
| Tour.TourController.constructor | js/tour.js:7-14 | before the tour, inactive, no overlay |
| Tour.TourController.UpdateButtons | js/tour.js:237-253 | Previous disabled at step 0 or before, Next before the tour, Start shown before the tour, and the Next label |
| Tour.TourController.UpdateDisplay | js/tour.js:211-235 | the progress bar and the step counter show the current step |
| Tour.TourController.Reset | js/tour.js:39-44 | back before the tour with the welcome buttons and zero progress |
| Tour.TourController.UpdateOverlay | js/tour.js:178-202 | a built overlay shows the step number, disables Previous on step 0 and reads Finish on the last step; otherwise nothing changes |
| Tour.TourController.ShowTourOverlay | js/tour.js:60-176 | the overlay exists, shows, and is up to date |
| Tour.TourController.HideTourOverlay | js/tour.js:204-209 | the overlay no longer shows |
| Tour.TourController.GoToCurrentStep | js/tour.js:255-267 | the scene performs the current step's action |
| Tour.TourController.StartTour | js/tour.js:46-58 | active at step 0, the camera reset, the overlay on step 1 with Previous disabled |
| Tour.TourController.EndTour | js/tour.js:287-294 | inactive, overlay hidden, camera heading home |
| Tour.TourController.NextStep | js/tour.js:269-277 | below the last step move on and go there; on the last step end the tour |
| Tour.TourController.PreviousStep | js/tour.js:279-285 | above step 0 move back and go there; otherwise nothing changes |
| Launch.FirstNineTicks | js/main.js:44-68 | after k of the first nine ticks the number is 9 − k and the page shows the last number with its status |
| Launch.CountsDown | js/main.js:48-50 | ticks 1 to 9 show 9 down to 1 with the mission status |
| Launch.TenthTickLiftsOff | js/main.js:69-97 | the tenth tick lifts off: LIFTOFF!, the go class, a full bar, the launch classes and the interval cleared |
| Launch.LaunchingStays | js/main.js:72 | once launching, always launching |
| Launch.LiftoffAtMostOnce | js/main.js:69 | liftoff happens once and never again |
| Launch.NeverBelowZero | js/main.js:48-68 | the number never rises and never drops below 0 |
| Launch.Settled | js/main.js:44-99 | after liftoff nothing changes |
| Launch.WidthAfter | js/main.js:52-54 | the bar's width after k ticks: 0, then (k − 1)/9 · 100, then 100 |
| Launch.ProgressRises | js/main.js:52-54 | the bar rises monotonically from 0 to 100 |
| Launch.WarningAndExhaust | js/main.js:56-66 | warning on (go off) from 3 down; flames and smoke turn on exactly on 3 |
| Launch.FlamesFromSeventhTick | js/main.js:62-66 | the flames burn from the seventh tick on and never before |
| Launch.LaunchScreen.constructor | js/main.js:15-17 | the countdown begins at 9, idle, with the interval running |
| Launch.LaunchScreen.Tick | js/main.js:44-99 | one run of the interval callback is one countdown step |
| Launch.HideThenShow | js/main.js:238-250 | hiding pauses; with the icon matching the clock, hiding then showing restores whether it played |
| Launch.OnVisibilityChange | js/main.js:238-250 | hidden pauses; shown resumes only when the icon reads pause |
| Launch.HideAndShow | js/main.js:238-250 | with the icon matching the clock, hiding then showing leaves play state as it was |

## Left out

- Rendering: meshes, materials, shaders, lights, post-processing, and the
  drawing routines of the textures (craters, bands, continents). Only which
  routine is chosen and whether a material is cached is modelled.
- OrbitControls: damping, autoRotate and `controls.update()`. Raycasting
  is a `Hit` parameter of `onTouchStart`, and the hovered object is a key.
- `requestAnimationFrame` scheduling. Each camera transition is a logged
  request, plus a function of elapsed time for its frames. Two transitions
  running at once are not modelled.
- The DOM and CSS: `innerHTML`, class lists beyond the flags named in the
  model, tooltips, modals, mobile panels, screenshots and fullscreen.
  `closeAllModals` and `showCompletionMessage` are not modelled.
- Number formatting: `toFixed` and `toLocaleString` digits. Distances and
  periods are modelled as their scaled values.
- The date text of `updateTimeDisplay`, the mobile time display, and the
  titles and texts of `TOUR_STEPS`.
- The `setTimeout` follow-ups: the shuttle flying away, the universe
  reveal, hiding the loading screen, and the 200 ms fade of a new fact.
- `localStorage` preferences, the service worker and `window.onerror`.
- `setQuality` and `setPlanetSizeMultiplier`. They only store a value the
  rest of the scene does not reread.
- Wall-clock visual effects: ship bobbing, light chase, core pulse and
  meteor fade.
- Motion.MoveWind: the wind buffers are `Float32Array`s, and the model
  stores unbounded reals. The single-precision rounding of each store is
  not modelled.
- Motion.WindStep: the same single-precision rounding is left out.
- Scene.SolarSystem.ToggleOrbits: the class keeps the weaker orbit rule
  that the program really keeps. The intended one holds only while the corrected
  `ToggleOrbitsCorrected` is used (see "## Findings").
- Ui.UiController.constructor: the slider, label and play icon keep the
  page's own markup until the first time control. Their initial values are
  not modelled.
- Ui.UiController.ShowRandomFact: the `Math.random()` draws are assumed to
  include one that picks a new index (`Drawable`). The source's loop would
  not end otherwise.
- Launch.OnVisibilityChange: a `solarSystem` of null is not modelled.
- Scene.SolarSystem.Animate: the contract states the frame's effect on the
  clock, bodies, wind and space objects. It does not restate the surface
  view and camera fields the frame leaves alone.
- Scene.SolarSystem.AnimateSpaceObjects: the debris field turns on every
  frame. The source checks `this.spaceDebris`, which is always created.
- Ui.UiController.SetUniverseView: an unknown view name changes the
  checkboxes (nebulae on) while the scene falls back to `solarSystem`. The
  contract states the checkboxes only for the known views.

## Findings

| source | as written | input that shows it | evidently intended | confidence | as-written member | corrected member |
|---|---|---|---|---|---|---|
| js/solarSystem.js:3447 | the guard tests `orbit.name !== 'pluto'`, but orbit lines are never named, so the guard passes for every line | from the start (orbits shown, Pluto hidden), toggle orbits twice: Pluto's orbit shows while Pluto is hidden | skip Pluto's line while Pluto is hidden, by its key | not executed | Scene.PlutoOrbitShownWhilePlutoHidden | Scene.SolarSystem.ToggleOrbitsCorrected |
| js/ui.js:490 | the speed preset calls `updateTimeSpeedDisplay`, which the controller does not define, so the call throws before the slider and label are updated | at 1x, press the 100x preset: the scene runs at 100x and the label still reads 1x | update the slider and label to the preset speed | not executed | Ui.PresetAsWrittenAtRealtime | Ui.PresetFixedTruthful |
