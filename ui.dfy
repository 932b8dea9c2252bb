/** The logic of the `UIController` of js/ui.js: the time-speed ladder and
  * its slider, the play/pause icon, the universe-view checkboxes, the space
  * facts panel, the planet comparison and the distance and period labels.
  * The DOM itself is reduced to the values the controller writes into it. */
module Ui {
  import opened Common
  import opened Registry
  import opened Scene
  import SpaceData

  // ---------------------------------------------------------------- time speed

  /** `timeSpeedLevels`. */
  const TimeSpeedLevels: seq<real> := [0.1, 0.5, 1.0, 10.0, 100.0, 1000.0, 5000.0, 10000.0]

  /** The speed `updateTimeSpeed` hands the scene: the level, negated when reversed. */
  function SignedLevel(index: int, reversed: bool): real
    requires 0 <= index < |TimeSpeedLevels|
  {
    if reversed then -TimeSpeedLevels[index] else TimeSpeedLevels[index]
  }

  /** `Math.max(0, Math.min(value + 3, length - 1))`: the index a slider value selects. */
  function SliderIndex(value: int): int
  {
    var index := value + 3;
    if index < 0 then 0 else if index > |TimeSpeedLevels| - 1 then |TimeSpeedLevels| - 1 else index
  }

  /** `levels.indexOf(x)`: the first position holding `x`, or -1. */
  function IndexOf(levels: seq<real>, x: real): (r: int)
    ensures -1 <= r < |levels|
    ensures r >= 0 ==> levels[r] == x && forall j :: 0 <= j < r ==> levels[j] != x
    ensures r == -1 <==> x !in levels
  {
    if levels == [] then -1
    else if levels[0] == x then 0
    else
      var rest := IndexOf(levels[1..], x);
      assert forall j :: 1 <= j < |levels| ==> levels[j] == levels[1..][j - 1];
      assert x in levels[1..] ==> x in levels;
      if rest == -1 then -1 else rest + 1
  }

  /** The text `"${prefix}${speed}× Speed"`: the level and whether it carries a minus sign. */
  datatype SpeedText = SpeedText(negative: bool, level: real)

  /** The speed the label reads. */
  function ShownSpeed(t: SpeedText): real
  {
    if t.negative then -t.level else t.level
  }

  /** The slider sits at index - 3 and the label reads the speed the scene runs at. */
  predicate Truthful(index: int, slider: int, text: SpeedText, speed: real)
  {
    slider == index - 3 && ShownSpeed(text) == speed
  }

  /** Every slider value selects an index of the ladder; the slider position
    * of an index selects that index again; within the slider's own range
    * -3..4 the index is exactly value + 3. */
  lemma SliderRoundTrip(index: int, value: int)
    ensures 0 <= SliderIndex(value) < |TimeSpeedLevels|
    ensures 0 <= index < |TimeSpeedLevels| ==> SliderIndex(index - 3) == index
    ensures -3 <= value <= 4 ==> SliderIndex(value) == value + 3
  {
  }

  /** Reversing negates the speed, so reversing twice restores it; a
    * forward speed is positive. */
  lemma ReverseNegates(index: int, reversed: bool)
    requires 0 <= index < |TimeSpeedLevels|
    ensures SignedLevel(index, !reversed) == -SignedLevel(index, reversed)
    ensures SignedLevel(index, !!reversed) == SignedLevel(index, reversed)
    ensures SignedLevel(index, false) > 0.0 && (SignedLevel(index, reversed) < 0.0 <==> reversed)
  {
  }

  /** What `updateTimeSpeed` writes is truthful: the slider at index - 3
    * and a label reading the signed level. */
  lemma UpdateTimeSpeedTruthful(index: int, reversed: bool)
    requires 0 <= index < |TimeSpeedLevels|
    ensures Truthful(index, index - 3, SpeedText(reversed, TimeSpeedLevels[index]), SignedLevel(index, reversed))
  {
  }

  /** The preset handler as written moves the index to a different level
    * and changes the speed but leaves slider and label as they were, so a
    * truthful display stops being truthful. */
  lemma PresetAsWrittenGoesStale(index: int, slider: int, text: SpeedText, speed: real, preset: int)
    requires 0 <= index < |TimeSpeedLevels| && 0 <= preset < |TimeSpeedLevels| && preset != index
    requires Truthful(index, slider, text, speed)
    ensures !Truthful(preset, slider, text, TimeSpeedLevels[preset])
  {
  }

  /** A concrete case: at 1x, pressing the 100x preset leaves the slider
    * at -1 and the label at 1x while the scene runs at 100x. */
  lemma PresetAsWrittenAtRealtime()
    ensures IndexOf(TimeSpeedLevels, 100.0) == 4
    ensures Truthful(2, -1, SpeedText(false, 1.0), 1.0)
    ensures !Truthful(4, -1, SpeedText(false, 1.0), 100.0)
  {
    assert TimeSpeedLevels[4] == 100.0;
  }

  /** The corrected preset handler keeps the display truthful. */
  lemma PresetFixedTruthful(preset: int)
    requires 0 <= preset < |TimeSpeedLevels|
    ensures Truthful(preset, preset - 3, SpeedText(false, TimeSpeedLevels[preset]), TimeSpeedLevels[preset])
  {
  }

  // ---------------------------------------------------------------- universe view

  /** The three checkboxes `setUniverseView` writes: nebulae, galaxies,
    * Milky Way; for `'solarSystem'` it writes none. */
  datatype Checkboxes = Checkboxes(nebulae: bool, galaxies: bool, milkyWay: bool)

  function ViewCheckboxes(view: string): Option<Checkboxes>
  {
    if view == "solarSystem" then None
    else Some(Checkboxes(true, view == "intergalactic" || view == "cosmic",
                         view == "galactic" || view == "intergalactic" || view == "cosmic"))
  }

  /** For every view the scene knows other than `'solarSystem'`, the
    * checkboxes agree with the scene's own view settings. */
  lemma CheckboxesMatchView(view: string)
    requires view in {"interstellar", "galactic", "intergalactic", "cosmic"}
    ensures ViewCheckboxes(view).Some?
    ensures ViewCheckboxes(view).value ==
              Checkboxes(Settings(view).showNebulae, Settings(view).showGalaxies, Settings(view).showMilkyWay)
  {
    ViewFlags(view);
  }

  // ---------------------------------------------------------------- space facts

  /** `Math.floor(r * n)`. */
  function Pick(r: real, n: nat): int
  {
    (r * n as real).Floor
  }

  /** A `Math.random()` draw picks an index of a list of `n`. */
  lemma PickInRange(r: real, n: nat)
    requires 0.0 <= r < 1.0 && n > 0
    ensures 0 <= Pick(r, n) < n
  {
    var x := r * n as real;
    assert n as real - x == (1.0 - r) * n as real;
    PositiveProduct(1.0 - r, n as real);
    NonNegativeProduct(r, n as real);
  }

  /** The stream of `Math.random()` draws `showRandomFact` reads: each in
    * [0, 1), at least one, and, when there is a choice, one that picks an
    * index other than `current`. */
  predicate Drawable(draws: seq<real>, n: nat, current: int)
  {
    |draws| > 0 && (forall i :: 0 <= i < |draws| ==> 0.0 <= draws[i] < 1.0) &&
    (n > 1 ==> exists j :: 0 <= j < |draws| && Pick(draws[j], n) != current)
  }

  /** The draw the do-while loop of `showRandomFact` stops on: the first
    * (with one fact or none) or the first that picks a new index. */
  function FirstFresh(draws: seq<real>, n: nat, current: int): (j: nat)
    requires Drawable(draws, n, current)
    ensures j < |draws|
    ensures n > 1 ==> Pick(draws[j], n) != current && forall i :: 0 <= i < j ==> Pick(draws[i], n) == current
    ensures n <= 1 ==> j == 0
    decreases |draws|
  {
    if n <= 1 || Pick(draws[0], n) != current then 0
    else
      assert Drawable(draws[1..], n, current) by {
        var w :| 0 <= w < |draws| && Pick(draws[w], n) != current;
        assert w > 0 && draws[1..][w - 1] == draws[w];
      }
      1 + FirstFresh(draws[1..], n, current)
  }

  /** The facts `initSpaceFacts` collects: the categories in order, then the general ones. */
  function AllFacts(): seq<SpaceData.Fact>
  {
    SpaceData.Flatten(SpaceData.FactCategories) + SpaceData.GeneralFacts
  }

  lemma {:induction false} FlattenSnoc(cs: seq<SpaceData.FactCategory>, c: SpaceData.FactCategory)
    ensures SpaceData.Flatten(cs + [c]) == SpaceData.Flatten(cs) + SpaceData.SpaceFacts(c)
  {
    if cs == [] {
      assert [c][1..] == [];
    } else {
      assert (cs + [c])[1..] == cs[1..] + [c];
      FlattenSnoc(cs[1..], c);
    }
  }

  /** There are 45 facts: the five of each category, category by category,
    * then the 25 general ones in order. */
  lemma FactsLayout()
    ensures |AllFacts()| == 45
    ensures forall i :: 0 <= i < 20 ==>
              AllFacts()[i] == SpaceData.CategoryFact(SpaceData.FactCategories[i / 5], i % 5)
    ensures forall i :: 20 <= i < 45 ==> AllFacts()[i] == SpaceData.GeneralFact(i - 20)
  {
    FlattenCategories();
  }

  /** The category facts, five per category in order. */
  lemma FlattenCategories()
    ensures forall i :: 0 <= i < 20 ==>
              SpaceData.Flatten(SpaceData.FactCategories)[i] == SpaceData.CategoryFact(SpaceData.FactCategories[i / 5], i % 5)
  {
    var cs := SpaceData.FactCategories;
    assert cs == [cs[0]] + [cs[1]] + [cs[2]] + [cs[3]];
    FlattenSnoc([], cs[0]);
    FlattenSnoc([cs[0]], cs[1]);
    FlattenSnoc([cs[0]] + [cs[1]], cs[2]);
    FlattenSnoc([cs[0]] + [cs[1]] + [cs[2]], cs[3]);
    var f := SpaceData.Flatten(cs);
    assert f == SpaceData.SpaceFacts(cs[0]) + SpaceData.SpaceFacts(cs[1]) +
                SpaceData.SpaceFacts(cs[2]) + SpaceData.SpaceFacts(cs[3]);
  }

  // ---------------------------------------------------------------- comparison

  /** The keys of `COMPARISON_PROPERTIES`, in order. */
  datatype PropKey = Diameter | Mass | Gravity | OrbitalPeriod | DistanceFromSun | Moons | DayLength | Temperature

  const ComparisonProperties: seq<PropKey> :=
    [Diameter, Mass, Gravity, OrbitalPeriod, DistanceFromSun, Moons, DayLength, Temperature]

  /** A planet property as the comparison reads it: a number or a text. */
  datatype PropValue = Num(n: real) | Text(s: string)

  function Prop(p: Planet, key: PropKey): PropValue
  {
    match key
    case Diameter => Num(p.diameter)
    case Mass => Text(p.mass)
    case Gravity => Num(p.gravity)
    case OrbitalPeriod => Num(p.orbitalPeriod)
    case DistanceFromSun => Num(p.distanceFromSun)
    case Moons => Num(p.moons as real)
    case DayLength => Text(p.dayLength)
    case Temperature => Text(p.temperature)
  }

  /** The ratio column: `val1 / val2` for two numbers with a non-zero second, else `'-'`. */
  function Ratio(v1: PropValue, v2: PropValue): (r: Option<real>)
    ensures r.Some? <==> v1.Num? && v2.Num? && v2.n != 0.0
    ensures r.Some? ==> r.value * v2.n == v1.n
  {
    if v1.Num? && v2.Num? && v2.n != 0.0 then Some(v1.n / v2.n) else None
  }

  /** The displayed width of a comparison disc: `max(d / maxSize · 100, 20)`. */
  function DiscSize(d: real, maxSize: real): real
    requires maxSize > 0.0
  {
    Max(d / maxSize * 100.0, 20.0)
  }

  /** What `updateComparison` shows for two planets: both disc sizes and the ratio of each property. */
  datatype ComparisonView = ComparisonView(size1: real, size2: real, ratios: seq<Option<real>>)

  function Compare(p1: Planet, p2: Planet): ComparisonView
    requires p1.diameter > 0.0 && p2.diameter > 0.0
  {
    var maxSize := Max(p1.diameter, p2.diameter);
    ComparisonView(DiscSize(p1.diameter, maxSize), DiscSize(p2.diameter, maxSize),
                   seq(|ComparisonProperties|, i requires 0 <= i < |ComparisonProperties| =>
                     Ratio(Prop(p1, ComparisonProperties[i]), Prop(p2, ComparisonProperties[i]))))
  }

  /** Every body of the table has a positive diameter. */
  lemma DiametersPositive(k: BodyKey)
    ensures PlanetData(k).diameter > 0.0
  {
  }

  /** `updateComparison` with the two selected names: nothing unless both name bodies. */
  function UpdateComparison(name1: string, name2: string): (r: Option<ComparisonView>)
    ensures r.Some? <==> ParseBody(name1).Some? && ParseBody(name2).Some?
  {
    match (ParseBody(name1), ParseBody(name2))
    case (Some(k1), Some(k2)) =>
      DiametersPositive(k1);
      DiametersPositive(k2);
      Some(Compare(PlanetData(k1), PlanetData(k2)))
    case _ => None
  }

  lemma RatioAtMost(d: real, m: real)
    requires 0.0 < d <= m
    ensures 0.0 < d / m <= 1.0
  {
  }

  /** The larger disc gets size 100, and both are between 20 and 100. */
  lemma DiscSizes(d1: real, d2: real)
    requires d1 > 0.0 && d2 > 0.0
    ensures var m := Max(d1, d2);
            20.0 <= DiscSize(d1, m) <= 100.0 && 20.0 <= DiscSize(d2, m) <= 100.0 &&
            (d1 >= d2 ==> DiscSize(d1, m) == 100.0) && (d2 >= d1 ==> DiscSize(d2, m) == 100.0)
  {
    var m := Max(d1, d2);
    RatioAtMost(d1, m);
    RatioAtMost(d2, m);
  }

  /** The ratio column of a comparison: one entry per property, the
    * diameter always has a ratio, and the mass, day length and temperature,
    * being texts, never do. */
  lemma ComparisonRatios(p1: Planet, p2: Planet)
    requires p1.diameter > 0.0 && p2.diameter > 0.0
    ensures var r := Compare(p1, p2).ratios;
            |r| == |ComparisonProperties| &&
            r[0].Some? && r[0].value * p2.diameter == p1.diameter &&
            r[1].None? && r[6].None? && r[7].None?
  {
    var r := Compare(p1, p2).ratios;
    assert r[0] == Ratio(Num(p1.diameter), Num(p2.diameter));
    assert r[1] == Ratio(Text(p1.mass), Text(p2.mass));
    assert r[6] == Ratio(Text(p1.dayLength), Text(p2.dayLength));
    assert r[7] == Ratio(Text(p1.temperature), Text(p2.temperature));
  }

  // ---------------------------------------------------------------- labels

  /** The magnitude `formatDistance` chooses, with the number it writes before the suffix. */
  datatype DistanceText = Millions(value: real) | Thousands(value: real) | Units(value: real)

  function FormatDistance(km: real): (r: DistanceText)
    ensures r.Millions? <==> km >= 1000000.0
    ensures r.Thousands? <==> 1000.0 <= km < 1000000.0
    ensures r.Millions? ==> r.value * 1000000.0 == km
    ensures r.Thousands? ==> r.value * 1000.0 == km
    ensures r.Units? ==> r.value == km
  {
    if km >= 1000000.0 then Millions(km / 1000000.0)
    else if km >= 1000.0 then Thousands(km / 1000.0)
    else Units(km)
  }

  /** `formatOrbitalPeriod`: `'N/A'`, a number of days, or years with the days beside them. */
  datatype PeriodText = NotApplicable | Days(days: real) | Years(years: real, days: real)

  function FormatOrbitalPeriod(days: real): (r: PeriodText)
    ensures r.NotApplicable? <==> days == 0.0
    ensures r.Days? <==> days != 0.0 && days < 365.0
    ensures r.Days? ==> r.days == days
    ensures r.Years? ==> r.days == days && r.years * 365.25 == days && r.years >= 365.0 / 365.25
  {
    if days == 0.0 then NotApplicable
    else if days < 365.0 then Days(days)
    else Years(days / 365.25, days)
  }

  // ---------------------------------------------------------------- the controller

  class UiController {
    const system: SolarSystem
    var currentSpeedIndex: int
    var isReversed: bool
    var currentView: string

    // what the controller has written into the page
    var slider: int
    var speedText: SpeedText
    var reverseActive: bool
    var playIconPause: bool
    var nebulaeChecked: bool
    var galaxiesChecked: bool
    var milkyWayChecked: bool

    // the space facts panel
    var spaceFacts: seq<SpaceData.Fact>
    var factBox: bool
    var currentFactIndex: int
    var factText: Option<SpaceData.Fact>

    /** The index stays on the ladder. */
    ghost predicate Valid()
      reads this`currentSpeedIndex
    {
      0 <= currentSpeedIndex < |TimeSpeedLevels|
    }

    /** Slider and label show the speed the scene runs at. */
    ghost predicate DisplayTruthful()
      reads this`currentSpeedIndex, this`slider, this`speedText, system`timeSpeed
    {
      Truthful(currentSpeedIndex, slider, speedText, system.timeSpeed)
    }

    /** The play/pause icon shows "pause" exactly while the scene plays. */
    ghost predicate IconMatches()
      reads this`playIconPause, system`isPlaying
    {
      playIconPause == system.isPlaying
    }

    /** `new UIController(solarSystem)`: speed 1x forwards in the solar-system
      * view, and the facts panel set up by `initSpaceFacts`; `factBox` says
      * whether the page has the panel's elements and `draws` are the
      * `Math.random()` draws of its first fact. The slider, label and icon
      * keep the page's own markup. */
    constructor(system: SolarSystem, factBox: bool, draws: seq<real>)
      requires Drawable(draws, |AllFacts()|, -1)
      ensures Valid()
      ensures this.system == system && currentSpeedIndex == 2 && !isReversed && currentView == "solarSystem"
      ensures spaceFacts == AllFacts() && this.factBox == factBox
      ensures factBox ==> 0 <= currentFactIndex < |spaceFacts| && factText == Some(spaceFacts[currentFactIndex])
      ensures !factBox ==> currentFactIndex == -1 && factText.None?
    {
      this.system := system;
      currentSpeedIndex, isReversed, currentView := 2, false, "solarSystem";
      currentFactIndex, factText := -1, None;
      new;
      InitSpaceFacts(factBox, draws);
    }

    /** `updateTimeSpeed`: the scene runs at the signed level, and the label
      * and slider follow. */
    method UpdateTimeSpeed()
      requires Valid()
      modifies system`timeSpeed, this`speedText, this`slider
      ensures system.timeSpeed == SignedLevel(currentSpeedIndex, isReversed)
      ensures speedText == SpeedText(isReversed, TimeSpeedLevels[currentSpeedIndex])
      ensures slider == currentSpeedIndex - 3
      ensures DisplayTruthful()
    {
      var speed := TimeSpeedLevels[currentSpeedIndex];
      var finalSpeed := if isReversed then -speed else speed;
      system.SetTimeSpeed(finalSpeed);
      speedText := SpeedText(isReversed, speed);
      slider := currentSpeedIndex - 3;
      UpdateTimeSpeedTruthful(currentSpeedIndex, isReversed);
    }

    /** `togglePlayPause`: the scene flips between playing and paused, and
      * the icon follows. */
    method TogglePlayPause()
      modifies system`isPlaying, this`playIconPause
      ensures system.isPlaying == !old(system.isPlaying)
      ensures IconMatches()
    {
      var playing := system.TogglePlay();
      playIconPause := playing;
    }

    /** `reverseTime`: the direction flips and the speed with it. */
    method ReverseTime()
      requires Valid()
      modifies this`isReversed, this`reverseActive, system`timeSpeed, this`speedText, this`slider
      ensures Valid() && DisplayTruthful()
      ensures isReversed == !old(isReversed) && reverseActive == isReversed
      ensures system.timeSpeed == SignedLevel(currentSpeedIndex, isReversed)
    {
      isReversed := !isReversed;
      UpdateTimeSpeed();
      reverseActive := isReversed;
    }

    /** `increaseSpeed`: one level up; on the top level nothing happens. */
    method IncreaseSpeed()
      requires Valid()
      modifies this`currentSpeedIndex, system`timeSpeed, this`speedText, this`slider
      ensures Valid()
      ensures old(currentSpeedIndex) < |TimeSpeedLevels| - 1 ==>
                currentSpeedIndex == old(currentSpeedIndex) + 1 && DisplayTruthful() &&
                system.timeSpeed == SignedLevel(currentSpeedIndex, isReversed)
      ensures old(currentSpeedIndex) == |TimeSpeedLevels| - 1 ==>
                currentSpeedIndex == old(currentSpeedIndex) && system.timeSpeed == old(system.timeSpeed) &&
                speedText == old(speedText) && slider == old(slider)
    {
      if currentSpeedIndex < |TimeSpeedLevels| - 1 {
        currentSpeedIndex := currentSpeedIndex + 1;
        UpdateTimeSpeed();
      }
    }

    /** `decreaseSpeed`: one level down; on the bottom level nothing happens. */
    method DecreaseSpeed()
      requires Valid()
      modifies this`currentSpeedIndex, system`timeSpeed, this`speedText, this`slider
      ensures Valid()
      ensures old(currentSpeedIndex) > 0 ==>
                currentSpeedIndex == old(currentSpeedIndex) - 1 && DisplayTruthful() &&
                system.timeSpeed == SignedLevel(currentSpeedIndex, isReversed)
      ensures old(currentSpeedIndex) == 0 ==>
                currentSpeedIndex == 0 && system.timeSpeed == old(system.timeSpeed) &&
                speedText == old(speedText) && slider == old(slider)
    {
      if currentSpeedIndex > 0 {
        currentSpeedIndex := currentSpeedIndex - 1;
        UpdateTimeSpeed();
      }
    }

    /** `setRealtime`: 1x forwards. */
    method SetRealtime()
      modifies this`currentSpeedIndex, this`isReversed, this`reverseActive, system`timeSpeed
      modifies this`speedText, this`slider
      ensures Valid() && DisplayTruthful()
      ensures currentSpeedIndex == 2 && !isReversed && !reverseActive && system.timeSpeed == 1.0
    {
      currentSpeedIndex, isReversed := 2, false;
      UpdateTimeSpeed();
      reverseActive := false;
    }

    /** `resetTime` at `Date.now()` = `now`: the clock jumps to now and runs at 1x forwards. */
    method ResetTime(now: real)
      modifies system`simulationTime, this`currentSpeedIndex, this`isReversed, this`reverseActive
      modifies system`timeSpeed, this`speedText, this`slider
      ensures Valid() && DisplayTruthful()
      ensures system.SimulationDate() == now
      ensures currentSpeedIndex == 2 && !isReversed && !reverseActive && system.timeSpeed == 1.0
    {
      system.ResetSimulationTime(now);
      SetRealtime();
    }

    /** `setSpeedFromSlider(value)`: the slider position, clamped onto the ladder. */
    method SetSpeedFromSlider(value: int)
      modifies this`currentSpeedIndex, system`timeSpeed, this`speedText, this`slider
      ensures Valid() && DisplayTruthful()
      ensures currentSpeedIndex == SliderIndex(value)
      ensures system.timeSpeed == SignedLevel(currentSpeedIndex, isReversed)
    {
      var index := value + 3;
      currentSpeedIndex := if index < 0 then 0 else if index > |TimeSpeedLevels| - 1 then |TimeSpeedLevels| - 1 else index;
      UpdateTimeSpeed();
    }

    /** A speed preset of the mobile time panel, as written: a preset on the
      * ladder becomes the index and the (forward) speed, ignoring
      * `isReversed`; the handler then calls `updateTimeSpeedDisplay`, which
      * the controller does not define, so the call throws and the slider
      * and label are never updated. An unknown preset changes nothing. */
    method SpeedPreset(speed: real)
      modifies this`currentSpeedIndex, system`timeSpeed
      ensures IndexOf(TimeSpeedLevels, speed) == -1 ==>
                currentSpeedIndex == old(currentSpeedIndex) && system.timeSpeed == old(system.timeSpeed)
      ensures IndexOf(TimeSpeedLevels, speed) != -1 ==>
                currentSpeedIndex == IndexOf(TimeSpeedLevels, speed) && system.timeSpeed == speed
    {
      var index := IndexOf(TimeSpeedLevels, speed);
      if index != -1 {
        currentSpeedIndex := index;
        system.SetTimeSpeed(speed);
      }
    }

    /** The preset handler as evidently intended: as above, and then the
      * slider and label show the preset. */
    method SpeedPresetFixed(speed: real)
      requires Valid()
      modifies this`currentSpeedIndex, system`timeSpeed, this`speedText, this`slider
      ensures Valid()
      ensures IndexOf(TimeSpeedLevels, speed) == -1 ==>
                currentSpeedIndex == old(currentSpeedIndex) && system.timeSpeed == old(system.timeSpeed) &&
                speedText == old(speedText) && slider == old(slider)
      ensures IndexOf(TimeSpeedLevels, speed) != -1 ==>
                currentSpeedIndex == IndexOf(TimeSpeedLevels, speed) && system.timeSpeed == speed &&
                DisplayTruthful()
    {
      var index := IndexOf(TimeSpeedLevels, speed);
      if index != -1 {
        currentSpeedIndex := index;
        system.SetTimeSpeed(speed);
        speedText, slider := SpeedText(false, speed), index - 3;
        PresetFixedTruthful(index);
      }
    }

    /** `setUniverseView(view)`: the scene switches view, and for any view but
      * `'solarSystem'` the checkboxes follow it. */
    method SetUniverseView(view: string)
      requires system.VisibilityValid()
      modifies this`currentView, this`nebulaeChecked, this`galaxiesChecked, this`milkyWayChecked
      modifies system`flags, system`objects, system`cameraMoves
      ensures system.VisibilityValid()
      ensures currentView == view && system.flags == old(system.flags).(view := view,
                galaxies := Settings(view).showGalaxies, nebulae := Settings(view).showNebulae,
                milkyWay := Settings(view).showMilkyWay)
      ensures ViewCheckboxes(view).None? ==>
                nebulaeChecked == old(nebulaeChecked) && galaxiesChecked == old(galaxiesChecked) &&
                milkyWayChecked == old(milkyWayChecked)
      ensures ViewCheckboxes(view).Some? ==>
                Checkboxes(nebulaeChecked, galaxiesChecked, milkyWayChecked) == ViewCheckboxes(view).value
      ensures view in {"interstellar", "galactic", "intergalactic", "cosmic"} ==>
                nebulaeChecked == system.flags.nebulae && galaxiesChecked == system.flags.galaxies &&
                milkyWayChecked == system.flags.milkyWay
    {
      currentView := view;
      var _ := system.SetUniverseView(view);
      UpdateCheckboxes(view);
      if view in {"interstellar", "galactic", "intergalactic", "cosmic"} {
        CheckboxesMatchView(view);
      }
    }

    /** The checkbox part of `setUniverseView`. */
    method UpdateCheckboxes(view: string)
      modifies this`nebulaeChecked, this`galaxiesChecked, this`milkyWayChecked
      ensures ViewCheckboxes(view).None? ==>
                nebulaeChecked == old(nebulaeChecked) && galaxiesChecked == old(galaxiesChecked) &&
                milkyWayChecked == old(milkyWayChecked)
      ensures ViewCheckboxes(view).Some? ==>
                Checkboxes(nebulaeChecked, galaxiesChecked, milkyWayChecked) == ViewCheckboxes(view).value
    {
      if view != "solarSystem" {
        nebulaeChecked := view != "solarSystem";
        galaxiesChecked := view == "intergalactic" || view == "cosmic";
        milkyWayChecked := view == "galactic" || view == "intergalactic" || view == "cosmic";
      }
    }

    /** `initSpaceFacts`: the facts of every category in order, then the
      * general ones; with the panel present, a first fact is shown. */
    method InitSpaceFacts(present: bool, draws: seq<real>)
      requires Drawable(draws, |AllFacts()|, currentFactIndex)
      modifies this`spaceFacts, this`factBox, this`currentFactIndex, this`factText
      ensures spaceFacts == AllFacts() && factBox == present
      ensures present ==> 0 <= currentFactIndex < |spaceFacts| && factText == Some(spaceFacts[currentFactIndex])
      ensures !present ==> currentFactIndex == old(currentFactIndex) && factText == old(factText)
    {
      var categories := SpaceData.FactCategories;
      var facts := [];
      for i := 0 to |categories|
        invariant facts == SpaceData.Flatten(categories[..i])
        invariant currentFactIndex == old(currentFactIndex) && factText == old(factText)
      {
        assert categories[..i + 1] == categories[..i] + [categories[i]];
        FlattenSnoc(categories[..i], categories[i]);
        facts := facts + SpaceData.SpaceFacts(categories[i]);
      }
      assert categories[..|categories|] == categories;
      // with no category facts the page takes the general list itself, which
      // is the same sequence as appending it to the empty one
      spaceFacts := facts + SpaceData.GeneralFacts;
      assert spaceFacts == AllFacts();
      factBox := present;
      if factBox {
        ShowRandomFact(draws);
      }
    }

    /** `showRandomFact` with the `Math.random()` draws `draws`: the first
      * draw that picks an index other than the current one (any draw, with
      * a single fact) becomes the current fact. Without the panel or
      * without facts nothing changes. */
    method ShowRandomFact(draws: seq<real>)
      requires Drawable(draws, |spaceFacts|, currentFactIndex)
      modifies this`currentFactIndex, this`factText
      ensures !factBox || |spaceFacts| == 0 ==>
                currentFactIndex == old(currentFactIndex) && factText == old(factText)
      ensures factBox && |spaceFacts| > 0 ==>
                currentFactIndex == Pick(draws[FirstFresh(draws, |spaceFacts|, old(currentFactIndex))], |spaceFacts|) &&
                0 <= currentFactIndex < |spaceFacts| &&
                (|spaceFacts| > 1 ==> currentFactIndex != old(currentFactIndex)) &&
                factText == Some(spaceFacts[currentFactIndex])
    {
      var n := |spaceFacts|;
      if !factBox || n == 0 {
        return;
      }
      ghost var stop := FirstFresh(draws, n, currentFactIndex);
      var j := 0;
      var newIndex := Pick(draws[0], n);
      while newIndex == currentFactIndex && n > 1
        invariant 0 <= j <= stop && newIndex == Pick(draws[j], n)
        decreases stop - j
      {
        j := j + 1;
        newIndex := Pick(draws[j], n);
      }
      PickInRange(draws[j], n);
      currentFactIndex := newIndex;
      factText := Some(spaceFacts[currentFactIndex]);
    }
  }
}
