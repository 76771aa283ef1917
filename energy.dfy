/** Energy, mitigation and destruction radii of a simulated meteor impact,
    and the unit/precision choice used to display an energy. */
module ImpactEnergy {
  import opened RealArith

  /** Joules in one megaton of TNT (4.184e15). */
  const JoulesPerMegaton: real := 4184000000000000.0

  /** The mitigation fraction never exceeds this, however many defenses are active. */
  const ReductionCap: real := 0.95

  /** The four defense check-boxes; a missing key in the source's dictionary reads as false. */
  datatype Defenses = Defenses(laser: bool, nuclear: bool, tractor: bool, shield: bool)

  /** No defense active. */
  const NoDefenses: Defenses := Defenses(false, false, false, false)

  /** Every defense active. */
  const AllDefenses: Defenses := Defenses(true, true, true, true)

  /** The mass the simulator assigns to a meteor of the given diameter: diameter cubed times 800. */
  function Mass(diameter: real): real
  {
    diameter * diameter * diameter * 800.0
  }

  /** Kinetic energy in joules of a meteor of `diameter` metres at `speedKms` km/s:
      half the mass times the square of the speed in metres per second. */
  function KineticJoules(diameter: real, speedKms: real): real
  {
    0.5 * Mass(diameter) * (speedKms * 1000.0) * (speedKms * 1000.0)
  }

  /** The same energy in megatons of TNT. */
  function RawEnergy(diameter: real, speedKms: real): real
  {
    KineticJoules(diameter, speedKms) / JoulesPerMegaton
  }

  lemma MassPositive(diameter: real)
    requires diameter > 0.0
    ensures Mass(diameter) > 0.0
  {
  }

  /** A meteor of positive size and speed carries a positive energy. */
  lemma RawEnergyPositive(diameter: real, speedKms: real)
    requires diameter > 0.0 && speedKms > 0.0
    ensures RawEnergy(diameter, speedKms) > 0.0
  {
    MassPositive(diameter);
    var m, s := Mass(diameter), speedKms * 1000.0;
    PositiveProduct(0.5 * m, s);
    PositiveProduct(0.5 * m * s, s);
    assert KineticJoules(diameter, speedKms) > 0.0;
  }

  /** Doubling the diameter multiplies the energy by eight (mass grows with the cube). */
  lemma EnergyCubicInDiameter(diameter: real, speedKms: real)
    ensures RawEnergy(2.0 * diameter, speedKms) == 8.0 * RawEnergy(diameter, speedKms)
  {
    var d := diameter;
    assert Mass(2.0 * d) == 8.0 * Mass(d) by {
      assert (2.0 * d) * (2.0 * d) * (2.0 * d) == 8.0 * (d * d * d);
    }
    var s := speedKms * 1000.0;
    assert 0.5 * Mass(2.0 * d) * s * s == 8.0 * (0.5 * Mass(d) * s * s);
  }

  /** Doubling the speed multiplies the energy by four (energy grows with the square of the speed). */
  lemma EnergyQuadraticInSpeed(diameter: real, speedKms: real)
    ensures RawEnergy(diameter, 2.0 * speedKms) == 4.0 * RawEnergy(diameter, speedKms)
  {
    var m := Mass(diameter);
    var s := speedKms * 1000.0;
    assert (2.0 * speedKms) * 1000.0 == 2.0 * s;
    assert (2.0 * s) * (2.0 * s) == 4.0 * (s * s);
    assert 0.5 * m * (2.0 * s) * (2.0 * s) == 4.0 * (0.5 * m * s * s);
  }

  /** The default scenario (1000 m at 50 km/s) releases about 2.39e5 megatons. */
  lemma DefaultScenarioEnergy()
    ensures 239005.0 < RawEnergy(1000.0, 50.0) < 239006.0
  {
    assert Mass(1000.0) == 800000000000.0;
    assert 0.5 * Mass(1000.0) * 50000.0 * 50000.0 == 1000000000000000000000.0;
  }

  /** What one defense adds to the mitigation fraction. */
  function Contribution(active: bool, share: real): real
  {
    if active then share else 0.0
  }

  /** Sum of the contributions of the active defenses, before the cap. */
  function UncappedReduction(d: Defenses): real
  {
    Contribution(d.laser, 0.3) + Contribution(d.nuclear, 0.4)
    + Contribution(d.tractor, 0.2) + Contribution(d.shield, 0.1)
  }

  /** The mitigation fraction: the uncapped sum, or the cap if the sum is larger. */
  function Reduction(d: Defenses): (r: real)
    ensures 0.0 <= r <= ReductionCap
    ensures r <= UncappedReduction(d)
  {
    var sum := UncappedReduction(d);
    if sum <= ReductionCap then sum else ReductionCap
  }

  /** `more` has every defense that `fewer` has active, and possibly others. */
  predicate Includes(more: Defenses, fewer: Defenses)
  {
    (fewer.laser ==> more.laser) && (fewer.nuclear ==> more.nuclear)
    && (fewer.tractor ==> more.tractor) && (fewer.shield ==> more.shield)
  }

  /** Enabling extra defenses never lowers the mitigation fraction. */
  lemma ReductionMonotone(fewer: Defenses, more: Defenses)
    requires Includes(more, fewer)
    ensures Reduction(fewer) <= Reduction(more)
  {
    assert UncappedReduction(fewer) <= UncappedReduction(more);
  }

  /** The cap is reached exactly when all four defenses are active; otherwise the
      fraction is the plain sum of the active contributions. */
  lemma CapOnlyWithAllDefenses(d: Defenses)
    ensures Reduction(d) == ReductionCap <==> d == AllDefenses
    ensures d != AllDefenses ==> Reduction(d) == UncappedReduction(d)
  {
    if d != AllDefenses {
      assert UncappedReduction(d) <= 0.9;
    }
  }

  /** No defense leaves the whole energy, the laser alone leaves 70 percent of it, and all
      four together leave 5 percent. */
  lemma MitigationScenarios(raw: real)
    requires raw >= 0.0
    ensures FinalEnergy(raw, NoDefenses) == raw
    ensures FinalEnergy(raw, Defenses(true, false, false, false)) == 0.7 * raw
    ensures FinalEnergy(raw, AllDefenses) == 0.05 * raw
  {
    assert Reduction(NoDefenses) == 0.0;
    assert Reduction(Defenses(true, false, false, false)) == 0.3;
    assert Reduction(AllDefenses) == ReductionCap;
  }

  /** Destruction radius of total loss before mitigation, in map units: diameter * 20 / 1000. */
  function BaseTotalRadius(diameter: real): real
  {
    diameter * 20.0 / 1000.0
  }

  /** Radius of total loss once the defenses are applied. */
  function MitigatedTotalRadius(diameter: real, d: Defenses): (r: real)
    requires diameter > 0.0
    ensures 0.0 < r <= BaseTotalRadius(diameter)
  {
    var base := BaseTotalRadius(diameter);
    var keep := 1.0 - Reduction(d);
    assert 0.0 < keep <= 1.0;
    assert base * keep <= base * 1.0;
    base * keep
  }

  /** More defenses never enlarge the total-loss footprint. */
  lemma RadiusShrinksWithDefenses(diameter: real, fewer: Defenses, more: Defenses)
    requires diameter > 0.0
    requires Includes(more, fewer)
    ensures MitigatedTotalRadius(diameter, more) <= MitigatedTotalRadius(diameter, fewer)
  {
    ReductionMonotone(fewer, more);
    var base := BaseTotalRadius(diameter);
    var kf, km := 1.0 - Reduction(fewer), 1.0 - Reduction(more);
    assert km <= kf;
    assert base * km <= base * kf;
  }

  /** Energy that still reaches the ground once the defenses are applied. */
  function FinalEnergy(raw: real, d: Defenses): (f: real)
    requires raw >= 0.0
    ensures raw / 20.0 <= f <= raw
  {
    var keep := 1.0 - Reduction(d);
    assert 0.05 <= keep <= 1.0;
    assert raw * 0.05 <= raw * keep <= raw * 1.0;
    raw * keep
  }

  /** More defenses never leave more energy. */
  lemma FinalEnergyShrinksWithDefenses(raw: real, fewer: Defenses, more: Defenses)
    requires raw >= 0.0
    requires Includes(more, fewer)
    ensures FinalEnergy(raw, more) <= FinalEnergy(raw, fewer)
  {
    ReductionMonotone(fewer, more);
    var kf, km := 1.0 - Reduction(fewer), 1.0 - Reduction(more);
    assert raw * km <= raw * kf;
  }

  /** Units in which an energy is displayed. */
  datatype EnergyUnit = MT | GT

  /** An energy as displayed: a value, its unit and how many decimals are printed. */
  datatype EnergyDisplay = EnergyDisplay(value: real, unit: EnergyUnit, decimals: nat)

  /** Megatons per displayed unit. */
  function UnitScale(u: EnergyUnit): real
  {
    match u
    case MT => 1.0
    case GT => 1000.0
  }

  /** Chooses unit and precision for an energy given in megatons. */
  function FormatEnergy(e: real): (r: EnergyDisplay)
    ensures r.value * UnitScale(r.unit) == e
    ensures r.unit == GT <==> e >= 1000.0
    ensures r.decimals == 0 <==> 10.0 <= e < 1000.0
    ensures r.decimals == 1 <==> (1.0 <= e < 10.0 || 1000.0 <= e)
    ensures r.decimals == 2 <==> e < 1.0
  {
    if e >= 1000.0 then EnergyDisplay(e / 1000.0, GT, 1)
    else if e >= 100.0 then EnergyDisplay(e, MT, 0)
    else if e >= 10.0 then EnergyDisplay(e, MT, 0)
    else if e >= 1.0 then EnergyDisplay(e, MT, 1)
    else EnergyDisplay(e, MT, 2)
  }

  /** The value chosen for display, before it is rounded to `decimals` places, is below 1000
      in megatons and at least 1 in gigatons. Rounding can still carry it to the next band:
      999.7 is printed with no decimals, as 1000 MT. */
  lemma FormatEnergyMantissa(e: real)
    ensures FormatEnergy(e).unit == MT ==> FormatEnergy(e).value < 1000.0
    ensures FormatEnergy(e).unit == GT ==> FormatEnergy(e).value >= 1.0
  {
    var r := FormatEnergy(e);
    if r.unit == GT {
      assert r.value * 1000.0 == e;
    }
  }

  /** In megatons, a larger energy is never shown with more decimals. */
  lemma FormatEnergyDecimalsMonotone(e1: real, e2: real)
    requires e1 <= e2 < 1000.0
    ensures FormatEnergy(e2).decimals <= FormatEnergy(e1).decimals
  {
  }
}
