/** RimWorld/Plant.cs: a plant's growth, age, light and leafless counters, its life stage,
    the temperature growth factor, dying damage, eating and harvesting.

    Floats are modelled as `real`. What the plant reads from its map (temperatures,
    glow, blight, the growth season, the light growth factor, the per-tick growth of the
    current stage) arrives in a `PlantEnv`. Thing.TakeDamage is not part of this model:
    damage subtracts hit points and destroys the plant at zero. */
module Plants {
  import opened Common

  const BaseGrowthPercent: real := 0.05
  const BaseDyingDamagePerTick: real := 0.005
  const DyingDamageLightMin: real := 0.0001
  const DyingDamageLightMax: real := 0.001
  const TicksWithoutLightBeforeStartDying := 450000
  const LeaflessMinRecoveryTicks := 60000
  const MinGrowthTemperature: real := 0.0
  const MinOptimalGrowthTemperature: real := 10.0
  const MaxOptimalGrowthTemperature: real := 42.0
  const MaxGrowthTemperature: real := 58.0
  const NeverLeaflessTick := -99999
  const TickLongInterval := 2000
  const LethalLeaflessDamage := 99999

  /** The PlantProperties (and ThingDef) facts the plant reads. */
  datatype PlantProps = PlantProps(
    harvestable: bool,
    harvestMinGrowth: real,
    harvestYield: real,
    harvestAfterGrowth: real,
    harvestDestroys: bool,
    sowable: bool,
    limitedLifespan: bool,
    lifespanTicks: int,
    cavePlant: bool,
    dieIfLeafless: bool,
    hasLeaflessGraphic: bool,
    nutrition: real)

  datatype PlantEnv = PlantEnv(
    now: int,
    spawned: bool,
    cellTemperature: Option<real>,
    ambientTemperature: real,
    leaflessTemperatureThresh: real,
    glow: real,
    lightGrowthFactor: real,
    blighted: bool,
    growthSeasonNow: bool,
    growthPerTick: real,
    cropYieldFactor: real)

  datatype PlantLifeStage = Sowing | Growing | Mature

  datatype LeaflessCause = Cold | Poison

  function Clamp01(v: real): (r: real)
    ensures 0.0 <= r <= 1.0
    ensures 0.0 <= v <= 1.0 ==> r == v
    ensures v < 0.0 ==> r == 0.0
    ensures v > 1.0 ==> r == 1.0
  {
    if v < 0.0 then 0.0 else if v > 1.0 then 1.0 else v
  }

  function Max(a: real, b: real): (r: real)
    ensures r >= a && r >= b && (r == a || r == b)
  {
    if a >= b then a else b
  }

  /** Mathf.InverseLerp: where `v` lies between `a` and `b`, clamped to [0, 1]. */
  function InverseLerp(a: real, b: real, v: real): (r: real)
    ensures 0.0 <= r <= 1.0
  {
    if a != b then Clamp01((v - a) / (b - a)) else 0.0
  }

  /** Mathf.Lerp with its parameter clamped. */
  function Lerp(a: real, b: real, t: real): (r: real)
    ensures a <= b ==> a <= r <= b
  {
    a + Scaled(b - a, Clamp01(t))
  }

  /** A length scaled by a fraction stays within the length. */
  function Scaled(d: real, c: real): (p: real)
    ensures d >= 0.0 && 0.0 <= c <= 1.0 ==> 0.0 <= p <= d
  {
    assert d - d * c == d * (1.0 - c);
    d * c
  }

  function LifeStage(growth: real): (r: PlantLifeStage)
    ensures r == Sowing <==> growth < 0.001
    ensures r == Mature <==> growth > 0.999
    ensures r == Growing <==> 0.001 <= growth <= 0.999
  {
    if growth < 0.001 then Sowing else if growth > 0.999 then Mature else Growing
  }

  /** LeaflessNow: leafless from the tick it was made leafless until 60000 ticks later. */
  predicate LeaflessNow(now: int, madeLeaflessTick: int)
    ensures madeLeaflessTick <= now < madeLeaflessTick + 60000 ==> LeaflessNow(now, madeLeaflessTick)
    ensures now >= madeLeaflessTick + 60000 ==> !LeaflessNow(now, madeLeaflessTick)
  {
    now - madeLeaflessTick < LeaflessMinRecoveryTicks
  }

  /** HarvestableNow: a harvestable kind of plant grown past its minimum harvest growth. */
  predicate HarvestableNow(def: PlantProps, growth: real)
    ensures !def.harvestable ==> !HarvestableNow(def, growth)
    ensures HarvestableNow(def, growth) ==> growth > def.harvestMinGrowth
    ensures def.harvestable && def.harvestMinGrowth < 0.999 && LifeStage(growth) == Mature ==> HarvestableNow(def, growth)
  {
    def.harvestable && growth > def.harvestMinGrowth
  }

  /** GrowthRateFactor_Temperature; `None` is a cell whose temperature is unknown. */
  function GrowthRateFactorTemperature(temperature: Option<real>): (r: real)
    ensures 0.0 <= r <= 1.0
  {
    if temperature.None? then 1.0
    else if temperature.value < MinOptimalGrowthTemperature then InverseLerp(MinGrowthTemperature, MinOptimalGrowthTemperature, temperature.value)
    else if temperature.value > MaxOptimalGrowthTemperature then InverseLerp(MaxGrowthTemperature, MaxOptimalGrowthTemperature, temperature.value)
    else 1.0
  }

  /** The factor is 1 at unknown or optimal temperatures, rises linearly from 0 at 0 degrees
      to 1 at 10, falls linearly from 1 at 42 to 0 at 58, and is 0 exactly outside (0, 58). */
  lemma GrowthRateFactorTemperatureShape(t: real)
    ensures GrowthRateFactorTemperature(None) == 1.0
    ensures MinOptimalGrowthTemperature <= t <= MaxOptimalGrowthTemperature ==> GrowthRateFactorTemperature(Some(t)) == 1.0
    ensures 0.0 <= t < 10.0 ==> GrowthRateFactorTemperature(Some(t)) == t / 10.0
    ensures 42.0 < t <= 58.0 ==> GrowthRateFactorTemperature(Some(t)) == (58.0 - t) / 16.0
    ensures GrowthRateFactorTemperature(Some(t)) == 0.0 <==> t <= 0.0 || t >= 58.0
  {
    if 42.0 < t {
      assert (t - 58.0) / (42.0 - 58.0) == (58.0 - t) / 16.0;
    }
  }

  /** DyingBecauseExposedToLight: only a spawned cave plant in some light. */
  predicate DyingBecauseExposedToLight(def: PlantProps, env: PlantEnv)
    ensures !def.cavePlant || !env.spawned ==> !DyingBecauseExposedToLight(def, env)
    ensures env.glow <= 0.0 ==> !DyingBecauseExposedToLight(def, env)
  {
    def.cavePlant && env.spawned && env.glow > 0.0
  }

  /** CurrentDyingDamagePerTick for a plant of the given age and unlit time. */
  function DyingDamagePerTick(def: PlantProps, age: int, unlitTicks: int, env: PlantEnv): (r: real)
    ensures r >= 0.0
    ensures !env.spawned ==> r == 0.0
    ensures DyingBecauseExposedToLight(def, env) ==> r >= Lerp(DyingDamageLightMin, DyingDamageLightMax, env.glow)
  {
    if !env.spawned then 0.0
    else
      var a := if def.limitedLifespan && age > def.lifespanTicks then BaseDyingDamagePerTick else 0.0;
      var b := if !def.cavePlant && unlitTicks > TicksWithoutLightBeforeStartDying then Max(a, BaseDyingDamagePerTick) else a;
      if DyingBecauseExposedToLight(def, env)
      then Max(b, Lerp(DyingDamageLightMin, DyingDamageLightMax, env.glow))
      else b
  }

  /** Dying: the plant takes dying damage this tick. */
  predicate Dying(def: PlantProps, age: int, unlitTicks: int, env: PlantEnv)
    ensures Dying(def, age, unlitTicks, env) ==> env.spawned
    ensures DyingBecauseExposedToLight(def, env) ==> Dying(def, age, unlitTicks, env)
  {
    DyingDamagePerTick(def, age, unlitTicks, env) > 0.0
  }

  /** The damage is never negative and is 0 off the map; an overaged plant or a surface
      plant unlit for too long takes at least the base damage; and the plant is dying
      exactly when one of the three causes holds. */
  lemma DyingFacts(def: PlantProps, age: int, unlitTicks: int, env: PlantEnv)
    ensures DyingDamagePerTick(def, age, unlitTicks, env) >= 0.0
    ensures !env.spawned ==> DyingDamagePerTick(def, age, unlitTicks, env) == 0.0
    ensures env.spawned && ((def.limitedLifespan && age > def.lifespanTicks) || (!def.cavePlant && unlitTicks > TicksWithoutLightBeforeStartDying))
            ==> DyingDamagePerTick(def, age, unlitTicks, env) >= BaseDyingDamagePerTick
    ensures Dying(def, age, unlitTicks, env) <==>
      env.spawned && ((def.limitedLifespan && age > def.lifespanTicks)
                      || (!def.cavePlant && unlitTicks > TicksWithoutLightBeforeStartDying)
                      || DyingBecauseExposedToLight(def, env))
  {
  }

  /** YieldNow before its random rounding (GenMath.RoundRandom). */
  function YieldBeforeRounding(def: PlantProps, growth: real, hitPoints: int, maxHitPoints: int, env: PlantEnv): (r: real)
    requires maxHitPoints > 0
    ensures !HarvestableNow(def, growth) || def.harvestYield <= 0.0 || env.blighted ==> r == 0.0
    ensures HarvestableNow(def, growth) && def.harvestYield > 0.0 && !env.blighted && env.cropYieldFactor > 0.0 ==>
              0.25 * def.harvestYield * env.cropYieldFactor <= r <= def.harvestYield * env.cropYieldFactor
  {
    if !HarvestableNow(def, growth) then 0.0
    else if def.harvestYield <= 0.0 then 0.0
    else if env.blighted then 0.0
    else
      YieldProduct(def.harvestYield, GrowthFactor(def, growth), HealthFactor(hitPoints, maxHitPoints), env.cropYieldFactor)
  }

  /** Halfway at the minimum harvest growth, full at full growth. */
  function GrowthFactor(def: PlantProps, growth: real): (r: real)
    ensures 0.5 <= r <= 1.0
  {
    0.5 + InverseLerp(def.harvestMinGrowth, 1.0, growth) * 0.5
  }

  /** Half yield at no hit points, full yield at full health. */
  function HealthFactor(hitPoints: int, maxHitPoints: int): (r: real)
    requires maxHitPoints > 0
    ensures 0.5 <= r <= 1.0
  {
    Lerp(0.5, 1.0, (hitPoints as real) / (maxHitPoints as real))
  }

  function YieldProduct(y: real, g: real, h: real, f: real): (r: real)
    requires 0.5 <= g <= 1.0 && 0.5 <= h <= 1.0
    ensures y > 0.0 && f > 0.0 ==> 0.25 * y * f <= r <= y * f
  {
    YieldBounds(y, g, h, f);
    y * g * h * f
  }

  lemma YieldBounds(y: real, g: real, h: real, f: real)
    requires 0.5 <= g <= 1.0 && 0.5 <= h <= 1.0
    ensures y > 0.0 && f > 0.0 ==> 0.25 * y * f <= y * g * h * f <= y * f
  {
    if y > 0.0 && f > 0.0 {
      var yf := y * f;
      assert yf > 0.0;
      var gh := g * h;
      assert 0.25 <= gh <= 1.0 by {
        assert g * h >= 0.5 * h;
        assert g * h <= 1.0 * h;
      }
      assert y * g * h * f == yf * gh;
      assert yf * gh >= yf * 0.25;
      assert yf * gh <= yf * 1.0;
    }
  }

  /** The fields TickLong and the eat/harvest operations change. */
  datatype PlantState = PlantState(growth: real, age: int, unlitTicks: int, madeLeaflessTick: int,
                                   hitPoints: int, destroyed: bool)

  function Damaged(s: PlantState, amount: int): PlantState
  {
    s.(hitPoints := s.hitPoints - amount, destroyed := s.destroyed || s.hitPoints - amount <= 0)
  }

  /** MakeLeafless: lethal for a poisoned plant without a leafless graphic and for a plant
      that dies when leafless; otherwise it stamps the tick. */
  function Leafless(s: PlantState, def: PlantProps, cause: LeaflessCause, now: int): PlantState
  {
    if cause == Poison && !def.hasLeaflessGraphic then Damaged(s, LethalLeaflessDamage)
    else if def.dieIfLeafless then Damaged(s, LethalLeaflessDamage)
    else s.(madeLeaflessTick := now)
  }

  /** TickLong. */
  function TickLongStep(s: PlantState, def: PlantProps, env: PlantEnv): PlantState
  {
    var s1 := if env.ambientTemperature < env.leaflessTemperatureThresh then Leafless(s, def, Cold, env.now) else s;
    if s1.destroyed then s1
    else
      var grown := s1.growth + env.growthPerTick * (TickLongInterval as real);
      var g := if env.growthSeasonNow then (if grown > 1.0 then 1.0 else grown) else s1.growth;
      var unlit := if !(env.lightGrowthFactor > 0.001) then s1.unlitTicks + TickLongInterval else 0;
      var s2 := s1.(growth := g, unlitTicks := unlit, age := s1.age + TickLongInterval);
      var dmg := DyingDamagePerTick(def, s2.age, unlit, env);
      if dmg > 0.0 then Damaged(s2, CeilToInt(dmg * (TickLongInterval as real))) else s2
  }

  /** What a long tick does to a living plant the cold does not kill: it ages by 2000
      ticks, an unlit plant accumulates 2000 unlit ticks and a lit one resets them, growth
      moves only in the growth season and never above 1 there, a cold snap stamps the
      leafless tick, and damage is dealt only while dying. A cold snap kills a plant that
      dies when leafless. */
  lemma TickLongFacts(s: PlantState, def: PlantProps, env: PlantEnv)
    requires !s.destroyed
    ensures var r := TickLongStep(s, def, env);
      var cold := env.ambientTemperature < env.leaflessTemperatureThresh;
      (cold && def.dieIfLeafless && s.hitPoints <= LethalLeaflessDamage ==> r.destroyed && r.age == s.age)
      && (!(cold && def.dieIfLeafless) ==>
            r.age == s.age + TickLongInterval
            && r.unlitTicks == (if env.lightGrowthFactor > 0.001 then 0 else s.unlitTicks + TickLongInterval)
            && (env.growthSeasonNow ==> r.growth <= 1.0)
            && (!env.growthSeasonNow ==> r.growth == s.growth)
            && (s.growth <= 1.0 ==> r.growth <= 1.0)
            && (cold ==> r.madeLeaflessTick == env.now && LeaflessNow(env.now, r.madeLeaflessTick))
            && (!cold ==> r.madeLeaflessTick == s.madeLeaflessTick)
            && (r.hitPoints < s.hitPoints <==> Dying(def, s.age + TickLongInterval, r.unlitTicks, env)))
  {
    var cold := env.ambientTemperature < env.leaflessTemperatureThresh;
    if !(cold && def.dieIfLeafless) {
      var s1 := if cold then Leafless(s, def, Cold, env.now) else s;
      assert s1.hitPoints == s.hitPoints && !s1.destroyed;
      var dmg := DyingDamagePerTick(def, s.age + TickLongInterval, TickLongStep(s, def, env).unlitTicks, env);
      if dmg > 0.0 {
        assert CeilToInt(dmg * 2000.0) > 0;
      }
    }
  }

  class Plant {
    const def: PlantProps
    const maxHitPoints: int
    var growthInt: real
    var ageInt: int
    var unlitTicks: int
    var madeLeaflessTick: int
    var sown: bool
    var hitPoints: int
    var destroyed: bool

    function State(): PlantState
      reads this
    {
      PlantState(growthInt, ageInt, unlitTicks, madeLeaflessTick, hitPoints, destroyed)
    }

    constructor(def: PlantProps, maxHitPoints: int)
      ensures this.def == def && this.maxHitPoints == maxHitPoints
      ensures State() == PlantState(BaseGrowthPercent, 0, 0, NeverLeaflessTick, maxHitPoints, false) && !sown
    {
      this.def := def;
      this.maxHitPoints := maxHitPoints;
      growthInt := BaseGrowthPercent;
      ageInt := 0;
      unlitTicks := 0;
      madeLeaflessTick := NeverLeaflessTick;
      sown := false;
      hitPoints := maxHitPoints;
      destroyed := false;
    }

    /** The Growth setter clamps to [0, 1]. */
    method SetGrowth(value: real)
      modifies this
      ensures 0.0 <= growthInt <= 1.0
      ensures State() == old(State()).(growth := Clamp01(value))
    {
      growthInt := Clamp01(value);
    }

    method TakeDamage(amount: int)
      modifies this
      ensures State() == Damaged(old(State()), amount)
    {
      hitPoints := hitPoints - amount;
      if hitPoints <= 0 {
        destroyed := true;
      }
    }

    method MakeLeafless(cause: LeaflessCause, now: int)
      modifies this
      ensures State() == Leafless(old(State()), def, cause, now)
    {
      if cause == Poison && !def.hasLeaflessGraphic {
        TakeDamage(LethalLeaflessDamage);
      } else if def.dieIfLeafless {
        TakeDamage(LethalLeaflessDamage);
      } else {
        madeLeaflessTick := now;
      }
    }

    method TickLong(env: PlantEnv)
      modifies this
      ensures State() == TickLongStep(old(State()), def, env)
    {
      ghost var s0 := State();
      if env.ambientTemperature < env.leaflessTemperatureThresh {
        MakeLeafless(Cold, env.now);
      }
      ghost var s1 := State();
      assert s1 == if env.ambientTemperature < env.leaflessTemperatureThresh then Leafless(s0, def, Cold, env.now) else s0;
      if destroyed {
        return;
      }
      if env.growthSeasonNow {
        growthInt := growthInt + env.growthPerTick * (TickLongInterval as real);
        if growthInt > 1.0 {
          growthInt := 1.0;
        }
      }
      if !(env.lightGrowthFactor > 0.001) {
        unlitTicks := unlitTicks + TickLongInterval;
      } else {
        unlitTicks := 0;
      }
      ageInt := ageInt + TickLongInterval;
      ghost var s2 := State();
      assert s2 == s1.(growth := s2.growth, unlitTicks := unlitTicks, age := s1.age + TickLongInterval);
      assert TickLongStep(s0, def, env) == if Dying(def, ageInt, unlitTicks, env)
        then Damaged(s2, CeilToInt(DyingDamagePerTick(def, ageInt, unlitTicks, env) * (TickLongInterval as real)))
        else s2;
      if Dying(def, ageInt, unlitTicks, env) {
        var amount := CeilToInt(DyingDamagePerTick(def, ageInt, unlitTicks, env) * (TickLongInterval as real));
        TakeDamage(amount);
      }
    }

    /** IngestedCalculateAmounts: the nutrition eaten scales with growth; a plant the
        harvest destroys is taken whole, any other loses 0.3 growth, not below 0.08. */
    method IngestedCalculateAmounts() returns (numTaken: int, nutritionIngested: real)
      modifies this
      ensures nutritionIngested == def.nutrition * (if def.sowable then old(growthInt) else Lerp(0.5, 1.0, old(growthInt)))
      ensures def.harvestDestroys ==> numTaken == 1 && State() == old(State())
      ensures !def.harvestDestroys ==>
        numTaken == 0 && State() == old(State()).(growth := if old(growthInt) - 0.3 < 0.08 then 0.08 else old(growthInt) - 0.3)
      ensures !def.harvestDestroys ==> growthInt >= 0.08 && (old(growthInt) <= 1.0 ==> growthInt <= 1.0)
    {
      var num := def.nutrition;
      if def.sowable {
        num := num * growthInt;
      } else {
        num := num * Lerp(0.5, 1.0, growthInt);
      }
      if def.harvestDestroys {
        numTaken := 1;
      } else {
        growthInt := growthInt - 0.3;
        if growthInt < 0.08 {
          growthInt := 0.08;
        }
        numTaken := 0;
      }
      nutritionIngested := num;
    }

    /** PlantCollected: destroyed if the harvest destroys it, else reset to the regrowth level. */
    method PlantCollected()
      modifies this
      ensures def.harvestDestroys ==> State() == old(State()).(destroyed := true)
      ensures !def.harvestDestroys ==> State() == old(State()).(growth := def.harvestAfterGrowth)
    {
      if def.harvestDestroys {
        destroyed := true;
      } else {
        growthInt := def.harvestAfterGrowth;
      }
    }
  }
}
