/** The per-frame motion rules of js/solarSystem.js (`updateSimulation` and
  * `animateSpaceObjects`), one body or object at a time. The trigonometric
  * functions and `Math.sqrt` are parameters; random numbers are inputs. */
module Motion {
  import opened Common
  import opened Registry
  import SpaceData

  // ---------------------------------------------------------------- the clock

  /** `delta * this.timeSpeed * 0.5`: the factor every orbital angle grows by. */
  function TimeMultiplier(delta: real, timeSpeed: real): real
  {
    delta * timeSpeed * 0.5
  }

  /** `(speed / 100) * timeMultiplier`. */
  function AngleStep(speed: real, tm: real): real
  {
    (speed / 100.0) * tm
  }

  /** Simulated milliseconds per tick: one day per second of `delta` at speed 1. */
  const MillisPerDay: real := 86400000.0

  function SimulatedMillis(delta: real, timeSpeed: real): real
  {
    timeSpeed * MillisPerDay * delta
  }

  /** The Sun spins by a fixed amount per tick, whatever the frame time. */
  function SunSpin(timeSpeed: real): real
  {
    0.001 * timeSpeed
  }

  /** Two ticks at speed 1 advance every angle as far as one tick at speed 2,
    * and the simulated clock as far too. */
  lemma DoubleSpeed(delta: real)
    ensures TimeMultiplier(delta, 1.0) + TimeMultiplier(delta, 1.0) == TimeMultiplier(delta, 2.0)
    ensures SimulatedMillis(delta, 1.0) + SimulatedMillis(delta, 1.0) == SimulatedMillis(delta, 2.0)
  {
  }

  /** Opposite speeds over equal frame times cancel. */
  lemma OppositeSpeeds(delta: real, s: real)
    ensures TimeMultiplier(delta, -s) + TimeMultiplier(delta, s) == 0.0
    ensures SimulatedMillis(delta, -s) + SimulatedMillis(delta, s) == 0.0
  {
  }

  // ---------------------------------------------------------------- planets and moons

  /** Where a body on a circle of radius `r` sits: x and z follow the angle,
    * y is kept. Moons use it in their parent's local frame. */
  function OrbitPosition(angle: real, r: real, y: real, cos: real -> real, sin: real -> real): Vec3
  {
    Vec3(cos(angle) * r, y, sin(angle) * r)
  }

  /** The orbit table entry of a body `updateSimulation` moves. */
  function Orbit(k: BodyKey): OrbitData
    requires BodyOrbit(k).Some?
  {
    BodyOrbit(k).value
  }

  /** A planet of `this.planets`: its key, `userData.orbitAngle`, `rotation.y`
    * and position. */
  datatype PlanetState = PlanetState(key: BodyKey, orbitAngle: real, rotationY: real, position: Vec3)

  /** One played tick of a planet: orbit angle and spin grow with the
    * planet's speeds, and the position follows the new angle. */
  function StepPlanet(p: PlanetState, tm: real, cos: real -> real, sin: real -> real): PlanetState
    requires BodyOrbit(p.key).Some?
  {
    var o := Orbit(p.key);
    var angle := p.orbitAngle + AngleStep(o.orbitSpeed, tm);
    PlanetState(p.key, angle, p.rotationY + AngleStep(o.rotationSpeed, tm),
                OrbitPosition(angle, o.orbitRadius, p.position.y, cos, sin))
  }

  /** Ticks compose by adding their time multipliers. */
  lemma PlanetTicksCompose(p: PlanetState, tm1: real, tm2: real, cos: real -> real, sin: real -> real)
    requires BodyOrbit(p.key).Some?
    ensures StepPlanet(StepPlanet(p, tm1, cos, sin), tm2, cos, sin) == StepPlanet(p, tm1 + tm2, cos, sin)
  {
    var o := Orbit(p.key);
    AngleStepAdds(o.orbitSpeed, tm1, tm2);
    AngleStepAdds(o.rotationSpeed, tm1, tm2);
    var a := p.orbitAngle + AngleStep(o.orbitSpeed, tm1) + AngleStep(o.orbitSpeed, tm2);
    assert a == p.orbitAngle + AngleStep(o.orbitSpeed, tm1 + tm2);
  }

  lemma AngleStepAdds(speed: real, tm1: real, tm2: real)
    ensures AngleStep(speed, tm1) + AngleStep(speed, tm2) == AngleStep(speed, tm1 + tm2)
  {
    assert (speed / 100.0) * tm1 + (speed / 100.0) * tm2 == (speed / 100.0) * (tm1 + tm2);
  }

  /** Two ticks at speed 1 equal one tick at speed 2 with the same `delta`. */
  lemma PlanetDoubleSpeed(p: PlanetState, delta: real, cos: real -> real, sin: real -> real)
    requires BodyOrbit(p.key).Some?
    ensures StepPlanet(StepPlanet(p, TimeMultiplier(delta, 1.0), cos, sin), TimeMultiplier(delta, 1.0), cos, sin)
         == StepPlanet(p, TimeMultiplier(delta, 2.0), cos, sin)
  {
    PlanetTicksCompose(p, TimeMultiplier(delta, 1.0), TimeMultiplier(delta, 1.0), cos, sin);
    DoubleSpeed(delta);
  }

  /** A tick at speed −s followed by one at +s with the same `delta` restores
    * the orbit angle and the spin, and puts the planet back where that angle
    * places it. */
  lemma PlanetReverseRestores(p: PlanetState, delta: real, s: real, cos: real -> real, sin: real -> real)
    requires BodyOrbit(p.key).Some?
    ensures StepPlanet(StepPlanet(p, TimeMultiplier(delta, -s), cos, sin), TimeMultiplier(delta, s), cos, sin)
         == p.(position := OrbitPosition(p.orbitAngle, Orbit(p.key).orbitRadius, p.position.y, cos, sin))
  {
    PlanetTicksCompose(p, TimeMultiplier(delta, -s), TimeMultiplier(delta, s), cos, sin);
    OppositeSpeeds(delta, s);
    var o := Orbit(p.key);
    assert AngleStep(o.orbitSpeed, 0.0) == 0.0 && AngleStep(o.rotationSpeed, 0.0) == 0.0;
  }

  /** A moon of `this.moons`: its key, `userData.orbitAngle` and its position
    * relative to its parent planet. */
  datatype MoonState = MoonState(key: MoonKey, orbitAngle: real, position: Vec3)

  function StepMoon(m: MoonState, tm: real, cos: real -> real, sin: real -> real): MoonState
  {
    var d := MoonData(m.key);
    var angle := m.orbitAngle + AngleStep(d.orbitSpeed, tm);
    MoonState(m.key, angle, OrbitPosition(angle, d.orbitRadius, m.position.y, cos, sin))
  }

  lemma MoonTicksCompose(m: MoonState, tm1: real, tm2: real, cos: real -> real, sin: real -> real)
    ensures StepMoon(StepMoon(m, tm1, cos, sin), tm2, cos, sin) == StepMoon(m, tm1 + tm2, cos, sin)
  {
    var d := MoonData(m.key);
    AngleStepAdds(d.orbitSpeed, tm1, tm2);
    var a := m.orbitAngle + AngleStep(d.orbitSpeed, tm1) + AngleStep(d.orbitSpeed, tm2);
    assert a == m.orbitAngle + AngleStep(d.orbitSpeed, tm1 + tm2);
  }

  lemma MoonReverseRestores(m: MoonState, delta: real, s: real, cos: real -> real, sin: real -> real)
    ensures StepMoon(StepMoon(m, TimeMultiplier(delta, -s), cos, sin), TimeMultiplier(delta, s), cos, sin)
         == m.(position := OrbitPosition(m.orbitAngle, MoonData(m.key).orbitRadius, m.position.y, cos, sin))
  {
    MoonTicksCompose(m, TimeMultiplier(delta, -s), TimeMultiplier(delta, s), cos, sin);
    OppositeSpeeds(delta, s);
    assert AngleStep(MoonData(m.key).orbitSpeed, 0.0) == 0.0;
  }

  /** Per played tick Earth's angle grows by 0.005·delta·timeSpeed and the
    * Moon's by 0.06685·delta·timeSpeed. */
  lemma EarthAndMoonRates(delta: real, timeSpeed: real)
    ensures BodyOrbit(Earth).Some?
    ensures AngleStep(Orbit(Earth).orbitSpeed, TimeMultiplier(delta, timeSpeed)) == 0.005 * delta * timeSpeed
    ensures AngleStep(MoonData(TheMoon).orbitSpeed, TimeMultiplier(delta, timeSpeed)) == 0.06685 * delta * timeSpeed
  {
  }

  /** The x and z of an orbit position lie on the circle of radius `r`
    * whenever cos² + sin² = 1 at that angle. */
  lemma OnCircle(angle: real, r: real, y: real, cos: real -> real, sin: real -> real)
    requires cos(angle) * cos(angle) + sin(angle) * sin(angle) == 1.0
    ensures var q := OrbitPosition(angle, r, y, cos, sin); q.x * q.x + q.z * q.z == r * r
  {
    var c, s := cos(angle), sin(angle);
    assert (c * r) * (c * r) + (s * r) * (s * r) == (c * c + s * s) * (r * r);
  }

  // ---------------------------------------------------------------- solar wind

  /** The squared respawn distance: 150². */
  const WindLimit: real := 22500.0

  /** Particle `i` of the flat position buffer after it has moved outwards by
    * `velocity · delta · 50`. */
  function WindMoved(prev: seq<real>, vel: seq<real>, delta: real, i: nat): Vec3
    requires 3 * i + 2 < |prev| && |vel| == |prev|
  {
    Vec3(prev[3 * i] + vel[3 * i] * delta * 50.0,
         prev[3 * i + 1] + vel[3 * i + 1] * delta * 50.0,
         prev[3 * i + 2] + vel[3 * i + 2] * delta * 50.0)
  }

  /** A moved particle past distance 150 is put back at its respawn point. */
  function WindParticle(prev: seq<real>, vel: seq<real>, delta: real, spawn: seq<Vec3>, i: nat): Vec3
    requires |prev| == |vel| == 3 * |spawn| && i < |spawn|
  {
    var m := WindMoved(prev, vel, delta, i);
    if SqLength(m) > WindLimit then spawn[i] else m
  }

  /** Axis `k` of a vector. */
  function Coord(v: Vec3, k: nat): real
    requires k < 3
  {
    if k == 0 then v.x else if k == 1 then v.y else v.z
  }

  /** The whole position buffer after one played tick. */
  function WindStep(prev: seq<real>, vel: seq<real>, delta: real, spawn: seq<Vec3>): (r: seq<real>)
    requires |prev| == |vel| == 3 * |spawn|
    ensures |r| == |prev|
  {
    seq(|prev|, (j: int) requires 0 <= j < |prev| => Coord(WindParticle(prev, vel, delta, spawn, j / 3), j % 3))
  }

  /** The particle stored at offsets 3i, 3i+1, 3i+2 of a flat buffer. */
  function ParticleAt(buf: seq<real>, i: nat): Vec3
    requires 3 * i + 2 < |buf|
  {
    Vec3(buf[3 * i], buf[3 * i + 1], buf[3 * i + 2])
  }

  /** After a tick every particle is the moved one when that stays within
    * 150, and its respawn point otherwise. */
  lemma WindStepParticle(prev: seq<real>, vel: seq<real>, delta: real, spawn: seq<Vec3>, i: nat)
    requires |prev| == |vel| == 3 * |spawn| && i < |spawn|
    ensures ParticleAt(WindStep(prev, vel, delta, spawn), i)
         == if SqLength(WindMoved(prev, vel, delta, i)) > WindLimit then spawn[i] else WindMoved(prev, vel, delta, i)
  {
    assert (3 * i) / 3 == i && (3 * i + 1) / 3 == i && (3 * i + 2) / 3 == i;
    assert (3 * i) % 3 == 0 && (3 * i + 1) % 3 == 1 && (3 * i + 2) % 3 == 2;
  }

  /** The three offsets 3i, 3i+1, 3i+2 of a flat buffer belong to particle `i`. */
  lemma ParticleOffsets(i: nat)
    ensures forall j :: 3 * i <= j < 3 * i + 3 ==> j / 3 == i && j % 3 == j - 3 * i
  {
    forall j | 3 * i <= j < 3 * i + 3
      ensures j / 3 == i && j % 3 == j - 3 * i
    {
      assert j == 3 * i + (j - 3 * i);
    }
  }

  /** The body of the solar-wind loop for particle `i`: it moves outwards,
    * and when it is then past distance 150 it is put at its respawn point. */
  method MoveParticle(pos: array<real>, vel: array<real>, delta: real, spawn: seq<Vec3>, i: nat)
    requires pos != vel && pos.Length == vel.Length == 3 * |spawn| && i < |spawn|
    modifies pos
    ensures forall j :: 0 <= j < pos.Length ==>
              pos[j] == if 3 * i <= j < 3 * i + 3 then Coord(WindParticle(old(pos[..]), vel[..], delta, spawn, i), j - 3 * i)
                        else old(pos[j])
  {
    ghost var moved := WindMoved(pos[..], vel[..], delta, i);
    pos[3 * i] := pos[3 * i] + vel[3 * i] * delta * 50.0;
    pos[3 * i + 1] := pos[3 * i + 1] + vel[3 * i + 1] * delta * 50.0;
    pos[3 * i + 2] := pos[3 * i + 2] + vel[3 * i + 2] * delta * 50.0;
    assert Vec3(pos[3 * i], pos[3 * i + 1], pos[3 * i + 2]) == moved;
    if SqLength(Vec3(pos[3 * i], pos[3 * i + 1], pos[3 * i + 2])) > WindLimit {
      pos[3 * i] := spawn[i].x;
      pos[3 * i + 1] := spawn[i].y;
      pos[3 * i + 2] := spawn[i].z;
    }
    ghost var p := WindParticle(old(pos[..]), vel[..], delta, spawn, i);
    assert pos[3 * i] == p.x && pos[3 * i + 1] == p.y && pos[3 * i + 2] == p.z;
  }

  /** The solar-wind loop of `updateSimulation`, in place on the position
    * buffer: particle by particle, the buffer becomes `WindStep` of the old one. */
  method MoveWind(pos: array<real>, vel: array<real>, delta: real, spawn: seq<Vec3>)
    requires pos != vel && pos.Length == vel.Length == 3 * |spawn|
    modifies pos
    ensures pos[..] == WindStep(old(pos[..]), vel[..], delta, spawn)
  {
    ghost var prev, vs := pos[..], vel[..];
    assert pos.Length / 3 == |spawn|;
    var i := 0;
    while i < pos.Length / 3
      invariant 0 <= i <= |spawn| && vel[..] == vs
      invariant forall j :: 0 <= j < pos.Length ==>
                  pos[j] == if j < 3 * i then WindStep(prev, vs, delta, spawn)[j] else prev[j]
    {
      ParticleOffsets(i);
      ghost var moved := WindParticle(prev, vs, delta, spawn, i);
      assert ParticleAt(pos[..], i) == ParticleAt(prev, i);
      assert WindParticle(pos[..], vs, delta, spawn, i) == moved;
      ghost var mid := pos[..];
      MoveParticle(pos, vel, delta, spawn, i);
      forall j | 0 <= j < pos.Length
        ensures pos[j] == if j < 3 * (i + 1) then WindStep(prev, vs, delta, spawn)[j] else prev[j]
      {
        if 3 * i <= j < 3 * i + 3 {
          assert pos[j] == Coord(moved, j - 3 * i);
        } else {
          assert pos[j] == mid[j];
        }
      }
      i := i + 1;
    }
    assert pos[..] == WindStep(prev, vs, delta, spawn);
  }

  /** When every respawn point lies within 150, every particle does after a tick. */
  lemma WindStaysInside(prev: seq<real>, vel: seq<real>, delta: real, spawn: seq<Vec3>, i: nat)
    requires |prev| == |vel| == 3 * |spawn| && i < |spawn|
    requires forall k :: 0 <= k < |spawn| ==> SqLength(spawn[k]) <= WindLimit
    ensures SqLength(ParticleAt(WindStep(prev, vel, delta, spawn), i)) <= WindLimit
  {
    WindStepParticle(prev, vel, delta, spawn, i);
  }

  /** The respawn point `r·(sin φ cos θ, sin φ sin θ, cos φ)` with
    * `r = sun.size + u·5`. */
  function WindSpawn(theta: real, phi: real, u: real, cos: real -> real, sin: real -> real): Vec3
  {
    var r := BodySize(Sun) + u * 5.0;
    Vec3(r * sin(phi) * cos(theta), r * sin(phi) * sin(theta), r * cos(phi))
  }

  /** A respawn point is at distance `r` in [20,25) from the Sun's centre, well
    * within the 150 limit. */
  lemma WindSpawnInside(theta: real, phi: real, u: real, cos: real -> real, sin: real -> real)
    requires 0.0 <= u < 1.0
    requires cos(theta) * cos(theta) + sin(theta) * sin(theta) == 1.0
    requires cos(phi) * cos(phi) + sin(phi) * sin(phi) == 1.0
    ensures var r := BodySize(Sun) + u * 5.0;
            20.0 <= r < 25.0 && SqLength(WindSpawn(theta, phi, u, cos, sin)) == r * r
    ensures SqLength(WindSpawn(theta, phi, u, cos, sin)) <= WindLimit
  {
    var r := BodySize(Sun) + u * 5.0;
    var ct, st, cp, sp := cos(theta), sin(theta), cos(phi), sin(phi);
    SphereIdentity(r, ct, st, cp, sp);
    assert 20.0 <= r < 25.0;
    SquareBelow(r, 25.0);
  }

  /** 0 <= r <= m gives r² <= m². */
  lemma SquareBelow(r: real, m: real)
    requires 0.0 <= r <= m
    ensures r * r <= m * m
  {
    ScaleMonotone(r, r, m);
    ScaleMonotone(m, r, m);
    assert r * m == m * r;
  }

  lemma SphereIdentity(r: real, ct: real, st: real, cp: real, sp: real)
    requires ct * ct + st * st == 1.0 && cp * cp + sp * sp == 1.0
    ensures SqLength(Vec3(r * sp * ct, r * sp * st, r * cp)) == r * r
  {
    var rs := r * sp;
    assert (rs * ct) * (rs * ct) + (rs * st) * (rs * st) == (rs * rs) * (ct * ct + st * st);
    assert rs * rs == (r * r) * (sp * sp);
    assert (r * r) * (sp * sp) + (r * cp) * (r * cp) == (r * r) * (sp * sp + cp * cp);
  }

  lemma ScaleMonotone(c: real, u: real, v: real)
    requires 0.0 <= c && u <= v
    ensures c * u <= c * v
  {
    assert c * v - c * u == c * (v - u);
  }

  // ---------------------------------------------------------------- satellites

  /** A satellite: `visible`, whether `userData.parentPlanet` is `'earth'`,
    * its orbit angle, spin and position. */
  datatype SatelliteState = SatelliteState(key: SpaceData.SatelliteKey, visible: bool, parentEarth: bool,
                                           orbitAngle: real, rotationY: real, position: Vec3)

  /** `createSatellites`: only an `'earth'`-orbit satellite gets `parentPlanet`. */
  function NewSatellite(k: SpaceData.SatelliteKey, angle: real, position: Vec3): SatelliteState
  {
    SatelliteState(k, true, SpaceData.Satellite(k).orbit == "earth", angle, 0.0, position)
  }

  /** The point around Earth at `angle`: a circle of radius `r` in x and z,
    * with a slow vertical wobble of amplitude 0.3·r. */
  function AroundEarth(earth: Vec3, angle: real, r: real, cos: real -> real, sin: real -> real): Vec3
  {
    Vec3(earth.x + cos(angle) * r, earth.y + sin(angle * 0.5) * r * 0.3, earth.z + sin(angle) * r)
  }

  /** One frame of a satellite; `earth` is Earth's position when Earth exists. */
  function StepSatellite(s: SatelliteState, dt: real, earth: Option<Vec3>, cos: real -> real, sin: real -> real): SatelliteState
  {
    if !s.visible then s
    else
      var d := SpaceData.Satellite(s.key);
      var moved :=
        if s.parentEarth && earth.Some? then
          var angle := s.orbitAngle + dt * OrDefault(d.orbitSpeed, 2.0);
          s.(orbitAngle := angle, position := AroundEarth(earth.value, angle, OrDefault(d.orbitRadius, 3.0), cos, sin))
        else s;
      moved.(rotationY := moved.rotationY + dt * 0.1)
  }

  /** A hidden satellite is skipped; a satellite without a parent planet
    * (JWST and the Voyagers) only spins; an Earth satellite is placed on its
    * circle of `orbitRadius` around Earth's current position. */
  lemma SatelliteStep(s: SatelliteState, dt: real, earth: Option<Vec3>, cos: real -> real, sin: real -> real)
    ensures !s.visible ==> StepSatellite(s, dt, earth, cos, sin) == s
    ensures s.visible && !s.parentEarth ==>
              StepSatellite(s, dt, earth, cos, sin) == s.(rotationY := s.rotationY + dt * 0.1)
    ensures s.visible && s.parentEarth && earth.Some? ==>
              var q := StepSatellite(s, dt, earth, cos, sin);
              var c, n := cos(q.orbitAngle), sin(q.orbitAngle);
              c * c + n * n == 1.0 ==>
                var dx, dz := q.position.x - earth.value.x, q.position.z - earth.value.z;
                dx * dx + dz * dz == SpaceData.Satellite(s.key).orbitRadius * SpaceData.Satellite(s.key).orbitRadius
  {
    if s.visible && s.parentEarth && earth.Some? {
      var q := StepSatellite(s, dt, earth, cos, sin);
      var r := SpaceData.Satellite(s.key).orbitRadius;
      SpaceData.SatelliteOrbits(s.key);
      assert OrDefault(r, 3.0) == r;
      var c, n := cos(q.orbitAngle), sin(q.orbitAngle);
      assert q.position.x - earth.value.x == c * r && q.position.z - earth.value.z == n * r;
      assert (c * r) * (c * r) + (n * r) * (n * r) == (c * c + n * n) * (r * r);
    }
  }

  /** Exactly the Earth-orbit satellites are created with a parent planet. */
  lemma EarthSatellitesParented(k: SpaceData.SatelliteKey, angle: real, position: Vec3)
    ensures NewSatellite(k, angle, position).parentEarth <==>
              k in {SpaceData.Iss, SpaceData.Hubble, SpaceData.Gps, SpaceData.Starlink}
  {
    SpaceData.SatelliteOrbits(k);
  }

  // ---------------------------------------------------------------- alien ships

  /** An alien ship: `visible`, orbit angle, its own random orbit speed, the
    * table's orbit radius, the bobbing parameters, spin and position. */
  datatype ShipState = ShipState(visible: bool, orbitAngle: real, orbitSpeed: real, orbitRadius: real,
                                 floatOffset: real, floatSpeed: real, rotationY: real, position: Vec3)

  /** One frame of a ship at wall-clock second `time`. `baseHeight` is never
    * set, so `|| 0` always applies to it. */
  function StepShip(s: ShipState, dt: real, time: real, cos: real -> real, sin: real -> real): ShipState
  {
    if !s.visible then s
    else
      var angle := s.orbitAngle + dt * s.orbitSpeed * 0.1;
      var radius := OrDefault(s.orbitRadius, 150.0);
      var floatY := sin(time * s.floatSpeed + s.floatOffset) * 2.0;
      s.(orbitAngle := angle, rotationY := s.rotationY + dt * 0.3,
         position := OrbitPosition(angle, radius, floatY + 0.0, cos, sin))
  }

  /** A hidden ship is skipped; a shown ship with a non-zero radius ends on
    * its circle: its horizontal distance from the origin is its `orbitRadius`. */
  lemma ShipOnItsCircle(s: ShipState, dt: real, time: real, cos: real -> real, sin: real -> real)
    ensures !s.visible ==> StepShip(s, dt, time, cos, sin) == s
    ensures s.visible && s.orbitRadius != 0.0 ==>
              var q := StepShip(s, dt, time, cos, sin);
              var c, n := cos(q.orbitAngle), sin(q.orbitAngle);
              c * c + n * n == 1.0 ==> q.position.x * q.position.x + q.position.z * q.position.z == s.orbitRadius * s.orbitRadius
  {
    if s.visible && s.orbitRadius != 0.0 {
      var q := StepShip(s, dt, time, cos, sin);
      if cos(q.orbitAngle) * cos(q.orbitAngle) + sin(q.orbitAngle) * sin(q.orbitAngle) == 1.0 {
        OnCircle(q.orbitAngle, s.orbitRadius, q.position.y, cos, sin);
      }
    }
  }

  // ---------------------------------------------------------------- comets

  /** A comet: `visible`, its angle and speed, `perihelion`/`aphelion` from the
    * table, its position and the scale of its two tails. */
  datatype CometState = CometState(visible: bool, angle: real, speed: real, perihelion: real, aphelion: real,
                                   position: Vec3, tailScale: real)

  /** `createCometsAndAsteroids`: the comet starts at (perihelion, 0, 0). */
  function NewComet(c: SpaceData.CometData, angle: real): CometState
  {
    CometState(true, angle, OrDefault(c.speed, 0.001), c.perihelion, c.aphelion,
               Vec3(OrDefault(c.perihelion, 50.0), 0.0, 0.0), 1.0)
  }

  /** `a(1−e²)/(1+e·cos θ)` with a = (p+A)/2 and e = (A−p)/(A+p). */
  function CometRadius(p: real, ap: real, c: real): real
    requires 0.0 < p < ap && -1.0 <= c <= 1.0
  {
    var a := (p + ap) / 2.0;
    var e := (ap - p) / (ap + p);
    assert 0.0 <= e < 1.0 by {
      assert ap - p < ap + p;
      assert e * (ap + p) == ap - p;
    }
    assert 1.0 + e * c > 0.0 by {
      assert -e <= e * c by {
        assert e * c + e == e * (c + 1.0);
        assert e * (c + 1.0) >= 0.0;
      }
    }
    a * (1.0 - e * e) / (1.0 + e * c)
  }

  /** The ellipse's semi-major axis `a` and eccentricity `e` give back the
    * two extreme distances: a(1−e) = p and a(1+e) = A. */
  lemma Eccentricity(p: real, ap: real, a: real, e: real)
    requires 0.0 < p < ap && a == (p + ap) / 2.0 && e == (ap - p) / (ap + p)
    ensures 0.0 <= e < 1.0 && a * (1.0 - e) == p && a * (1.0 + e) == ap
  {
    assert e * (ap + p) == ap - p;
    assert a * e == (ap - p) / 2.0;
  }

  /** The denominator `den` = 1 + e·cos θ ranges over [1−e, 1+e], so it is
    * positive for an ellipse. */
  lemma Denominator(e: real, c: real, den: real)
    requires 0.0 <= e < 1.0 && -1.0 <= c <= 1.0 && den == 1.0 + e * c
    ensures 0.0 < 1.0 - e <= den <= 1.0 + e
    ensures 0.0 < den
  {
    NonNegativeProduct(e, c + 1.0);
    NonNegativeProduct(e, 1.0 - c);
    assert den - (1.0 - e) == e * (c + 1.0);
    assert (1.0 + e) - den == e * (1.0 - c);
  }

  /** With 0 < perihelion < aphelion the comet's distance from the Sun stays
    * between them. */
  lemma CometRadiusBounds(p: real, ap: real, c: real)
    requires 0.0 < p < ap && -1.0 <= c <= 1.0
    ensures p <= CometRadius(p, ap, c) <= ap
  {
    var num, den, e := RadiusParts(p, ap, c);
    LowerQuotient(num, den, p, 1.0 + e);
    UpperQuotient(num, den, ap, 1.0 - e);
  }

  /** The radius is a quotient `num/den` whose numerator factors through both
    * extreme distances and whose denominator lies in [1−e, 1+e]. */
  lemma RadiusParts(p: real, ap: real, c: real) returns (num: real, den: real, e: real)
    requires 0.0 < p < ap && -1.0 <= c <= 1.0
    ensures 0.0 < 1.0 - e <= den <= 1.0 + e
    ensures 0.0 < den
    ensures CometRadius(p, ap, c) == num / den
    ensures num == p * (1.0 + e) && num == ap * (1.0 - e)
  {
    var a := (p + ap) / 2.0;
    e := (ap - p) / (ap + p);
    num, den := a * (1.0 - e * e), 1.0 + e * c;
    Eccentricity(p, ap, a, e);
    Denominator(e, c, den);
    assert CometRadius(p, ap, c) == num / den;
    Numerator(p, ap, a, e, num);
  }

  /** The numerator a(1−e²) factors through either extreme distance. */
  lemma Numerator(p: real, ap: real, a: real, e: real, num: real)
    requires 0.0 < p < ap && a == (p + ap) / 2.0 && e == (ap - p) / (ap + p)
    requires num == a * (1.0 - e * e)
    ensures num == p * (1.0 + e) && num == ap * (1.0 - e)
  {
    Eccentricity(p, ap, a, e);
    assert 1.0 - e * e == (1.0 - e) * (1.0 + e);
    assert a * ((1.0 - e) * (1.0 + e)) == (a * (1.0 - e)) * (1.0 + e);
    assert a * ((1.0 - e) * (1.0 + e)) == (a * (1.0 + e)) * (1.0 - e);
  }

  /** n/d ≥ p when n = p·m and 0 < d ≤ m. */
  lemma LowerQuotient(n: real, d: real, p: real, m: real)
    requires 0.0 < p && 0.0 < d <= m && n == p * m
    ensures p <= n / d
  {
    ScaleMonotone(p, d, m);
    assert (n / d) * d == n;
    if n / d < p {
      ScaleMonotone(d, n / d, p);
    }
  }

  /** n/d ≤ q when n = q·m and 0 < m ≤ d. */
  lemma UpperQuotient(n: real, d: real, q: real, m: real)
    requires 0.0 < q && 0.0 < m <= d && n == q * m
    ensures n / d <= q
  {
    ScaleMonotone(q, m, d);
    assert (n / d) * d == n;
    if n / d > q {
      ScaleMonotone(d, q, n / d);
    }
  }

  /** `Math.max(0.3, Math.min(2, 100 / dist))`; a distance of 0 gives
    * `Infinity`, which the `min` turns into 2. */
  function TailScale(dist: real): (t: real)
    ensures 0.3 <= t <= 2.0
    ensures dist > 0.0 && 100.0 / dist <= 2.0 && 100.0 / dist >= 0.3 ==> t == 100.0 / dist
  {
    Max(0.3, Min(2.0, if dist > 0.0 then 100.0 / dist else 2.0))
  }

  /** Tails are at full scale 2 within distance 50 and shrink beyond it. */
  lemma TailScaleShape(dist: real)
    ensures 0.0 <= dist <= 50.0 ==> TailScale(dist) == 2.0
    ensures 50.0 <= dist ==> TailScale(dist) == Max(0.3, 100.0 / dist)
  {
    if 0.0 < dist <= 50.0 {
      LowerQuotient(100.0, dist, 2.0, 50.0);
    }
    if 50.0 <= dist {
      UpperQuotient(100.0, dist, 2.0, 50.0);
    }
  }

  /** One frame of a comet; `cos` is the cosine, so its values lie in [−1,1]. */
  function StepComet(c: CometState, dt: real, cos: real -> real, sin: real -> real, sqrt: real -> real): CometState
    requires forall a :: -1.0 <= cos(a) <= 1.0
    requires 0.0 < OrDefault(c.perihelion, 50.0) < OrDefault(c.aphelion, 300.0)
  {
    if !c.visible then c
    else
      var angle := c.angle + dt * c.speed;
      var r := CometRadius(OrDefault(c.perihelion, 50.0), OrDefault(c.aphelion, 300.0), cos(angle));
      var pos := Vec3(cos(angle) * r, c.position.y, sin(angle) * r);
      c.(angle := angle, position := pos, tailScale := TailScale(sqrt(SqLength(pos))))
  }

  /** A hidden comet is skipped. A shown comet moves along its ellipse,
    * between its perihelion and aphelion, and its tail scale lies in
    * [0.3, 2]. Only x and z move, so a comet that starts in the plane stays in it. */
  lemma CometStep(c: CometState, dt: real, cos: real -> real, sin: real -> real, sqrt: real -> real)
    requires forall a :: -1.0 <= cos(a) <= 1.0
    requires 0.0 < c.perihelion < c.aphelion
    ensures !c.visible ==> StepComet(c, dt, cos, sin, sqrt) == c
    ensures var q := StepComet(c, dt, cos, sin, sqrt);
            q.position.y == c.position.y && (c.visible ==> 0.3 <= q.tailScale <= 2.0)
    ensures c.visible ==>
              var q := StepComet(c, dt, cos, sin, sqrt);
              var r := CometRadius(c.perihelion, c.aphelion, cos(q.angle));
              q.angle == c.angle + dt * c.speed &&
              q.position.x == cos(q.angle) * r && q.position.z == sin(q.angle) * r &&
              c.perihelion <= r <= c.aphelion
  {
    if c.visible {
      CometRadiusBounds(c.perihelion, c.aphelion, cos(c.angle + dt * c.speed));
    }
  }

  /** Every table comet starts in the plane y = 0 at its perihelion. */
  lemma CometsStartAtPerihelion(i: nat, angle: real)
    requires i < |SpaceData.Comets|
    ensures var c := NewComet(SpaceData.Comets[i], angle);
            c.position == Vec3(c.perihelion, 0.0, 0.0) && 0.0 < c.perihelion < c.aphelion && c.perihelion >= 40.0
  {
    SpaceData.CometsWellFormed();
  }

  // ---------------------------------------------------------------- meteors

  /** An entry of the meteor pool: `visible`, `userData.lifetime`,
    * `userData.maxLifetime`, position and `userData.velocity`. */
  datatype Meteor = Meteor(visible: bool, lifetime: real, maxLifetime: real, position: Vec3, velocity: Vec3)

  /** `createMeteor` followed by `visible = false`. */
  const IdleMeteor: Meteor := Meteor(false, 0.0, 3.0, Origin, Origin)

  /** One frame of a meteor: a shown meteor ages by the frame time; it is
    * hidden, without moving, on the frame its lifetime reaches its maximum,
    * and otherwise moves by its velocity once, whatever the frame time. */
  function StepMeteor(m: Meteor, dt: real): Meteor
  {
    if !m.visible then m
    else if m.lifetime + dt >= m.maxLifetime then m.(lifetime := m.lifetime + dt, visible := false)
    else m.(lifetime := m.lifetime + dt, position := Add(m.position, m.velocity))
  }

  lemma MeteorStep(m: Meteor, dt: real)
    ensures !m.visible ==> StepMeteor(m, dt) == m
    ensures m.visible ==> StepMeteor(m, dt).lifetime == m.lifetime + dt
    ensures m.visible ==> (StepMeteor(m, dt).visible <==> m.lifetime + dt < m.maxLifetime)
    ensures m.visible && !StepMeteor(m, dt).visible ==> StepMeteor(m, dt).position == m.position
    ensures StepMeteor(m, dt).visible ==> Sub(StepMeteor(m, dt).position, m.position) == m.velocity
  {
  }

  /** The seven `Math.random()` values of `spawnMeteor`, in call order. */
  datatype MeteorDraws = MeteorDraws(radius: real, angle: real, spread: real, height: real,
                                     speed: real, lift: real, life: real)

  /** `Math.PI`. */
  const Pi: real := 3.141592653589793

  /** The entry `spawnMeteor` makes of an idle meteor. */
  function SpawnedMeteor(d: MeteorDraws, cos: real -> real, sin: real -> real): Meteor
  {
    var spawnRadius := 200.0 + d.radius * 100.0;
    var spawnAngle := d.angle * Pi * 2.0;
    var targetAngle := spawnAngle + Pi + (d.spread - 0.5) * 0.5;
    var speed := 2.0 + d.speed * 3.0;
    Meteor(true, 0.0, 2.0 + d.life * 2.0,
           Vec3(cos(spawnAngle) * spawnRadius, (d.height - 0.5) * 50.0, sin(spawnAngle) * spawnRadius),
           Vec3(cos(targetAngle) * speed, (d.lift - 0.5) * 0.5, sin(targetAngle) * speed))
  }

  /** A spawned meteor is shown, has lifetime 0 and a maximum lifetime in [2,4). */
  lemma SpawnedMeteorFresh(d: MeteorDraws, cos: real -> real, sin: real -> real)
    requires 0.0 <= d.life < 1.0
    ensures var m := SpawnedMeteor(d, cos, sin);
            m.visible && m.lifetime == 0.0 && 2.0 <= m.maxLifetime < 4.0
  {
  }
}
