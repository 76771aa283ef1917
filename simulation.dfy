/** One impact simulation over China: energy and mitigation, destruction radii, and
    for every province a damage tier, an affected population and a running total. */
module ImpactSimulation {
  import opened ImpactEnergy
  import opened Provinces
  import opened RealArith

  /** Damage tiers by distance from the impact point. */
  datatype Tier = TotalLoss | PartialDamage | Outer

  /** Share of a province's population affected in each tier. */
  function Factor(t: Tier): real
  {
    match t
    case TotalLoss => 0.8
    case PartialDamage => 0.4
    case Outer => 0.1
  }

  /** Tier of a province whose midpoint lies at squared distance `distSq`: within the
      total-loss radius, else within the partial-damage radius, else outside both.
      A negative radius contains no point, as a distance is never negative. */
  function TierAt(distSq: real, rTotal: real, rPartial: real): Tier
  {
    if 0.0 <= rTotal && distSq <= rTotal * rTotal then TotalLoss
    else if 0.0 <= rPartial && distSq <= rPartial * rPartial then PartialDamage
    else Outer
  }

  /** Whole people affected out of `totalPopulation` in tier `t` (the fractional part dropped). */
  function Affected(totalPopulation: nat, t: Tier): int
  {
    ((totalPopulation as real) * Factor(t)).Floor
  }

  /** The per-province record of the result, keyed by the province's id. The distance is
      kept squared: the displayed distance is its square root. */
  datatype ProvinceImpact = ProvinceImpact(
    id: string,
    province: string,
    affectedPopulation: int,
    impactSharePercent: real,
    distanceSq: real,
    totalPopulation: nat,
    description: string)

  /** What the simulation reports for one province. */
  function ImpactOn(p: Province, ix: real, iy: real, rTotal: real, rPartial: real): ProvinceImpact
  {
    var distSq := SqDistance(p, ix, iy);
    var t := TierAt(distSq, rTotal, rPartial);
    var total := p.population * 1000;
    ProvinceImpact(p.id, p.name, Affected(total, t), Factor(t) * 100.0, distSq, total, p.description)
  }

  /** Sum of the affected populations of `rows`. */
  function SumAffected(rows: seq<ProvinceImpact>): int
  {
    if rows == [] then 0
    else SumAffected(rows[..|rows| - 1]) + rows[|rows| - 1].affectedPopulation
  }

  /** Sum of the total populations of `rows`. */
  function SumPopulation(rows: seq<ProvinceImpact>): int
  {
    if rows == [] then 0
    else SumPopulation(rows[..|rows| - 1]) + rows[|rows| - 1].totalPopulation
  }

  /** The tier computed from squared quantities is the one the distance itself gives, for
      any radii: within `rTotal`, else within `rPartial`, else outside. */
  lemma TierMatchesDistance(dist: real, rTotal: real, rPartial: real)
    requires 0.0 <= dist
    ensures TierAt(dist * dist, rTotal, rPartial)
         == if dist <= rTotal then TotalLoss else if dist <= rPartial then PartialDamage else Outer
  {
    if 0.0 <= rTotal {
      SquareComparison(dist, rTotal);
    }
    if 0.0 <= rPartial {
      SquareComparison(dist, rPartial);
    }
  }

  /** Moving farther away never raises the affected share. */
  lemma FactorNonIncreasing(d1: real, d2: real, rTotal: real, rPartial: real)
    requires d1 <= d2
    ensures Factor(TierAt(d1, rTotal, rPartial)) >= Factor(TierAt(d2, rTotal, rPartial))
  {
  }

  /** A province's affected population lies between zero and its population; its share is
      80, 40 or 10 percent, and the floor is exact: 800, 400 or 100 people per thousand. */
  lemma ImpactBounded(p: Province, ix: real, iy: real, rTotal: real, rPartial: real)
    ensures 0 <= ImpactOn(p, ix, iy, rTotal, rPartial).affectedPopulation
              <= ImpactOn(p, ix, iy, rTotal, rPartial).totalPopulation
    ensures ImpactOn(p, ix, iy, rTotal, rPartial).impactSharePercent in {80.0, 40.0, 10.0}
    ensures ImpactOn(p, ix, iy, rTotal, rPartial).affectedPopulation
         == p.population * (ImpactOn(p, ix, iy, rTotal, rPartial).impactSharePercent * 10.0).Floor
  {
  }

  /** Of two provinces with the same population, the nearer one is never less affected. */
  lemma NearerNeverLessAffected(p: Province, q: Province, ix: real, iy: real, rTotal: real, rPartial: real)
    requires p.population == q.population
    requires SqDistance(p, ix, iy) <= SqDistance(q, ix, iy)
    ensures ImpactOn(p, ix, iy, rTotal, rPartial).affectedPopulation
         >= ImpactOn(q, ix, iy, rTotal, rPartial).affectedPopulation
  {
    FactorNonIncreasing(SqDistance(p, ix, iy), SqDistance(q, ix, iy), rTotal, rPartial);
  }

  /** Summing per-province figures that each lie between zero and the province's population
      gives a total between zero and the summed population. */
  lemma {:induction false} SumAffectedBounded(rows: seq<ProvinceImpact>)
    requires forall k :: 0 <= k < |rows| ==> 0 <= rows[k].affectedPopulation <= rows[k].totalPopulation
    ensures 0 <= SumAffected(rows) <= SumPopulation(rows)
  {
    if rows != [] {
      SumAffectedBounded(rows[..|rows| - 1]);
    }
  }

  /** A province of 100 thousand people at the impact point itself is in the total-loss tier:
      80,000 people are affected. */
  lemma ImpactAtCentre(p: Province)
    requires p.population == 100
    ensures ImpactOn(p, CenterX(p.coords), CenterY(p.coords), 10.0, 30.0).affectedPopulation == 80000
  {
  }

  /** The body of the per-province loop: midpoint, distance, tier factor, affected people. */
  method ProvinceRecord(p: Province, ix: real, iy: real, rTotal: real, rPartial: real)
    returns (row: ProvinceImpact)
    ensures row == ImpactOn(p, ix, iy, rTotal, rPartial)
  {
    var cx := (p.coords.xMin + p.coords.xMax) as real / 2.0;
    var cy := (p.coords.yMin + p.coords.yMax) as real / 2.0;
    var distSq := (cx - ix) * (cx - ix) + (cy - iy) * (cy - iy);
    var factor;
    if 0.0 <= rTotal && distSq <= rTotal * rTotal {
      factor := 0.8;
    } else if 0.0 <= rPartial && distSq <= rPartial * rPartial {
      factor := 0.4;
    } else {
      factor := 0.1;
    }
    assert factor == Factor(TierAt(SqDistance(p, ix, iy), rTotal, rPartial));
    var population := p.population * 1000;
    var affected := ((population as real) * factor).Floor;
    row := ProvinceImpact(p.id, p.name, affected, factor * 100.0, distSq, population, p.description);
  }

  /** The per-province loop: one record per province in table order, and the running total. */
  method Aggregate(table: seq<Province>, ix: real, iy: real, rTotal: real, rPartial: real)
    returns (rows: seq<ProvinceImpact>, total: int)
    ensures |rows| == |table|
    ensures forall k :: 0 <= k < |table| ==> rows[k] == ImpactOn(table[k], ix, iy, rTotal, rPartial)
    ensures total == SumAffected(rows)
    ensures 0 <= total <= SumPopulation(rows)
  {
    rows := [];
    total := 0;
    var i := 0;
    while i < |table|
      invariant 0 <= i <= |table|
      invariant |rows| == i
      invariant forall k :: 0 <= k < i ==> rows[k] == ImpactOn(table[k], ix, iy, rTotal, rPartial)
      invariant total == SumAffected(rows)
    {
      var row := ProvinceRecord(table[i], ix, iy, rTotal, rPartial);
      assert (rows + [row])[..i] == rows;
      rows := rows + [row];
      total := total + row.affectedPopulation;
      i := i + 1;
    }
    forall k | 0 <= k < |rows|
      ensures 0 <= rows[k].affectedPopulation <= rows[k].totalPopulation
    {
      ImpactBounded(table[k], ix, iy, rTotal, rPartial);
    }
    SumAffectedBounded(rows);
  }

  /** Everything one run reports. */
  datatype ImpactResult = ImpactResult(
    energyMegatons: real,
    finalEnergy: real,
    mitigatedEnergy: real,
    reductionPercent: real,
    totalRadius: real,
    partialRadius: real,
    totalAffected: int,
    provinces: seq<ProvinceImpact>,
    impactPoint: (real, real))

  /** The defenses' contributions added up one by one, then capped. */
  method MitigationFraction(defenses: Defenses) returns (reduction: real)
    ensures reduction == Reduction(defenses)
  {
    reduction := 0.0;
    if defenses.laser { reduction := reduction + 0.3; }
    if defenses.nuclear { reduction := reduction + 0.4; }
    if defenses.tractor { reduction := reduction + 0.2; }
    if defenses.shield { reduction := reduction + 0.1; }
    reduction := if reduction <= ReductionCap then reduction else ReductionCap;
  }

  /** Scaling a radius tripled beforehand gives three times the scaled radius: the partial-damage
      radius stays three times the total-loss one after mitigation. */
  lemma TripleScaled(r: real, keep: real)
    ensures r * 3.0 * keep == 3.0 * (r * keep)
  {
  }

  /** A run over the China table: energy of a meteor of `diameter` metres at `speedKms` km/s,
      mitigation by the active defenses, the two radii, and the per-province breakdown. */
  method SimulateImpactChina(diameter: real, speedKms: real, ix: real, iy: real, defenses: Defenses)
    returns (res: ImpactResult)
    requires diameter > 0.0 && speedKms > 0.0
    ensures res.energyMegatons == RawEnergy(diameter, speedKms) > 0.0
    ensures res.reductionPercent == Reduction(defenses) * 100.0
    ensures 0.0 <= res.reductionPercent <= 95.0
    ensures res.finalEnergy == FinalEnergy(res.energyMegatons, defenses)
    ensures res.finalEnergy + res.mitigatedEnergy == res.energyMegatons
    ensures res.energyMegatons / 20.0 <= res.finalEnergy && 0.0 <= res.mitigatedEnergy
    ensures res.totalRadius == MitigatedTotalRadius(diameter, defenses)
    ensures 0.0 < res.totalRadius < res.partialRadius == 3.0 * res.totalRadius
    ensures |res.provinces| == |ChinaProvinces|
    ensures forall k :: 0 <= k < |ChinaProvinces| ==>
              res.provinces[k] == ImpactOn(ChinaProvinces[k], ix, iy, res.totalRadius, res.partialRadius)
    ensures res.totalAffected == SumAffected(res.provinces)
    ensures 0 <= res.totalAffected <= SumPopulation(res.provinces)
    ensures res.impactPoint == (ix, iy)
  {
    var energyJoules := KineticJoules(diameter, speedKms);
    var energyMegatons := energyJoules / JoulesPerMegaton;

    var rTotal := BaseTotalRadius(diameter);
    var rPartial := rTotal * 3.0;

    var reduction := MitigationFraction(defenses);

    rTotal := rTotal * (1.0 - reduction);
    rPartial := rPartial * (1.0 - reduction);
    assert rTotal == MitigatedTotalRadius(diameter, defenses);
    TripleScaled(BaseTotalRadius(diameter), 1.0 - reduction);
    assert 0.0 < rTotal && rPartial == 3.0 * rTotal;
    RawEnergyPositive(diameter, speedKms);
    var finalEnergy := energyMegatons * (1.0 - reduction);
    var mitigatedEnergy := energyMegatons - finalEnergy;
    assert finalEnergy == FinalEnergy(energyMegatons, defenses);

    var rows, total := Aggregate(ChinaProvinces, ix, iy, rTotal, rPartial);
    res := ImpactResult(energyMegatons, finalEnergy, mitigatedEnergy, reduction * 100.0,
                        rTotal, rPartial, total, rows, (ix, iy));
  }
}
