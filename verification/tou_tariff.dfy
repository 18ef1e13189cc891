/** The Time-of-Use tariff model of the EcoFlux background process: the static band
    tables, the season and demand multipliers, the two surcharges, and the rate formula
    with its rounding to whole paise (cents).

    The clock and the Gaussian sampler are not part of the model: the hour of day, the
    day of week (0 = Sunday) and the zero-based month are inputs, and so is the
    standard-normal sample `z` that the source draws with the Box-Muller transform. */
module TouTariff {
  import opened Options

  datatype Category = Domestic | Industrial | NonDomestic

  /** The categories in the order the scheduler visits them on every tick. */
  const Categories: seq<Category> := [Domestic, Industrial, NonDomestic]

  /** One persisted rate record (`TOUData`): a category, a rate and an ISO-8601 timestamp. */
  datatype TouRecord = TouRecord(category: Category, rate: real, timestamp: string)

  /** A time band `[startHour, endHour)` with its base rate and noise magnitude. */
  datatype RateBand = RateBand(startHour: int, endHour: int, baseRate: real, variation: real)

  predicate Covers(b: RateBand, hour: int) {
    b.startHour <= hour < b.endHour
  }

  /** The band table of each category (`baseTouRates`). Every table starts at midnight
      and ends at midnight, and every band's noise magnitude is positive and below its
      base rate, so a sample within one standard deviation keeps the noisy base positive. */
  function Bands(c: Category): (t: seq<RateBand>)
    ensures |t| > 0 && t[0].startHour == 0 && t[|t| - 1].endHour == 24
    ensures forall i :: 0 <= i < |t| ==> 0.0 < t[i].variation < t[i].baseRate
  {
    match c
    case Domestic => [
      RateBand(0, 4, 3.0, 0.3),
      RateBand(4, 8, 4.5, 0.4),
      RateBand(8, 12, 6.5, 0.5),
      RateBand(12, 16, 7.0, 0.6),
      RateBand(16, 20, 8.0, 0.7),
      RateBand(20, 24, 5.2, 0.4)
    ]
    case Industrial => [RateBand(0, 24, 7.75, 0.5)]
    case NonDomestic => [RateBand(0, 24, 8.5, 0.6)]
  }

  datatype Season = Summer | Monsoon | Winter

  /** The season of a zero-based calendar month. */
  function SeasonOf(month: int): (s: Season)
    ensures s == Summer <==> 3 <= month <= 5
    ensures s == Monsoon <==> 6 <= month <= 9
    ensures s == Winter <==> month < 3 || 9 < month
  {
    if 3 <= month <= 5 then Summer
    else if 6 <= month <= 9 then Monsoon
    else Winter
  }

  /** The twelve months, January first, as an independent table of seasons. */
  const MonthSeasons: seq<Season> :=
    [Winter, Winter, Winter, Summer, Summer, Summer,
     Monsoon, Monsoon, Monsoon, Monsoon, Winter, Winter]

  function SeasonMultiplier(s: Season): real {
    match s
    case Summer => 1.15
    case Winter => 0.9
    case Monsoon => 1.0
  }

  const WeekdayMultiplier: real := 1.1
  const WeekendMultiplier: real := 0.95
  const AccumulatedDeficitSurcharge: real := 1.08
  const PensionTrustSurcharge: real := 1.05
  const RateThreshold: real := 10.0

  /** The rate returned when no band covers the hour. */
  const FallbackRate: real := 5.0

  /** Sunday (0) and Saturday (6) are the weekend. */
  predicate IsWeekend(day: int) {
    day == 0 || day == 6
  }

  function DemandMultiplier(day: int): real {
    if IsWeekend(day) then WeekendMultiplier else WeekdayMultiplier
  }

  /** The index of the first band that covers `hour`, as `Array.prototype.find` picks it. */
  function FirstCovering(bands: seq<RateBand>, hour: int): (r: Option<nat>)
    ensures r.Some? ==> r.value < |bands| && Covers(bands[r.value], hour)
    ensures r.Some? ==> forall j :: 0 <= j < r.value ==> !Covers(bands[j], hour)
    ensures r.None? ==> forall j :: 0 <= j < |bands| ==> !Covers(bands[j], hour)
  {
    if |bands| == 0 then None
    else if Covers(bands[0], hour) then Some(0)
    else
      match FirstCovering(bands[1..], hour)
      case None => None
      case Some(i) => Some(i + 1)
  }

  /** `bands`, in order, tile the hours `[from, to)` without gap or overlap. */
  predicate Tiles(bands: seq<RateBand>, from: int, to: int)
    decreases |bands|
  {
    if |bands| == 0 then from == to
    else
      && bands[0].startHour == from
      && bands[0].startHour < bands[0].endHour
      && Tiles(bands[1..], bands[0].endHour, to)
  }

  /** Every band of a tiling lies inside the tiled range. */
  lemma {:induction false} TilesWithin(bands: seq<RateBand>, from: int, to: int)
    requires Tiles(bands, from, to)
    ensures from <= to
    ensures forall i :: 0 <= i < |bands| ==> from <= bands[i].startHour && bands[i].endHour <= to
    decreases |bands|
  {
    if |bands| > 0 {
      TilesWithin(bands[1..], bands[0].endHour, to);
      forall i | 0 <= i < |bands|
        ensures from <= bands[i].startHour && bands[i].endHour <= to
      {
        if i > 0 {
          assert bands[i] == bands[1..][i - 1];
        }
      }
    }
  }

  /** A tiling of `[from, to)` covers exactly the hours of that range, each by exactly one band. */
  lemma {:induction false} TilingCoversOnce(bands: seq<RateBand>, from: int, to: int, hour: int)
    requires Tiles(bands, from, to)
    ensures (from <= hour < to) <==> (exists i :: 0 <= i < |bands| && Covers(bands[i], hour))
    ensures forall i, j :: 0 <= i < |bands| && 0 <= j < |bands| && Covers(bands[i], hour) && Covers(bands[j], hour) ==> i == j
    decreases |bands|
  {
    TilesWithin(bands, from, to);
    if |bands| > 0 {
      var rest := bands[1..];
      TilingCoversOnce(rest, bands[0].endHour, to, hour);
      TilesWithin(rest, bands[0].endHour, to);
      if from <= hour < to {
        if hour >= bands[0].endHour {
          var k :| 0 <= k < |rest| && Covers(rest[k], hour);
          assert Covers(bands[k + 1], hour);
        } else {
          assert Covers(bands[0], hour);
        }
      }
      forall i, j | 0 <= i < |bands| && 0 <= j < |bands| && Covers(bands[i], hour) && Covers(bands[j], hour)
        ensures i == j
      {
        if i > 0 {
          assert bands[i] == rest[i - 1];
        }
        if j > 0 {
          assert bands[j] == rest[j - 1];
        }
      }
    }
  }

  /** Each category's table tiles the whole day. */
  lemma BandTablesTileTheDay(c: Category)
    ensures Tiles(Bands(c), 0, 24)
  {
    var t := Bands(c);
    if c == Domestic {
      assert Tiles(t[6..], 24, 24);
      assert t[5..][1..] == t[6..];
      assert Tiles(t[5..], 20, 24);
      assert t[4..][1..] == t[5..];
      assert Tiles(t[4..], 16, 24);
      assert t[3..][1..] == t[4..];
      assert Tiles(t[3..], 12, 24);
      assert t[2..][1..] == t[3..];
      assert Tiles(t[2..], 8, 24);
      assert t[1..][1..] == t[2..];
      assert Tiles(t[1..], 4, 24);
    } else {
      assert Tiles(t[1..], 24, 24);
    }
  }

  /** The band index a category uses at a given hour, read off the tables directly:
      DOMESTIC changes band every four hours, the other categories have one band. */
  function BandIndex(c: Category, hour: int): nat
    requires 0 <= hour < 24
  {
    if c == Domestic then hour / 4 else 0
  }

  /** Band partition: for every category and every hour of the day exactly one band covers
      the hour, it is the one `BandIndex` names, and the lookup finds it; outside the day
      no band covers the hour and the lookup finds nothing. */
  lemma BandPartition(c: Category, hour: int)
    ensures 0 <= hour < 24 ==>
      && BandIndex(c, hour) < |Bands(c)|
      && Covers(Bands(c)[BandIndex(c, hour)], hour)
      && (forall i :: 0 <= i < |Bands(c)| && Covers(Bands(c)[i], hour) ==> i == BandIndex(c, hour))
      && FirstCovering(Bands(c), hour) == Some(BandIndex(c, hour))
    ensures !(0 <= hour < 24) ==> FirstCovering(Bands(c), hour) == None
  {
    BandTablesTileTheDay(c);
    TilingCoversOnce(Bands(c), 0, 24, hour);
    if 0 <= hour < 24 {
      assert Covers(Bands(c)[BandIndex(c, hour)], hour);
    }
  }

  /** Every cent value is an exact multiple of 1/100. */
  predicate IsCents(x: real) {
    (x * 100.0).Floor as real == x * 100.0
  }

  /** `Math.round(x * 100) / 100`: JavaScript rounds halves towards positive infinity. */
  function RoundCents(x: real): (r: real)
    ensures IsCents(r)
    ensures x - 0.005 < r <= x + 0.005
  {
    ((x * 100.0 + 0.5).Floor as real) / 100.0
  }

  /** The rounding is determined by its contract: the only cent value in the half-open
      window `(x - 0.005, x + 0.005]` is `RoundCents(x)`. */
  lemma RoundCentsUnique(x: real, c: real)
    requires IsCents(c)
    requires x - 0.005 < c <= x + 0.005
    ensures c == RoundCents(x)
  {
    var r := RoundCents(x);
    var m := (c * 100.0).Floor;
    var k := (r * 100.0).Floor;
    assert m as real == c * 100.0;
    assert k as real == r * 100.0;
    assert (m - k) as real < 1.0 && (k - m) as real < 1.0;
    assert m == k;
  }

  /** Rounding a value that is already in cents returns it unchanged. */
  lemma RoundCentsIdempotent(x: real)
    requires IsCents(x)
    ensures RoundCents(x) == x
  {
    RoundCentsUnique(x, x);
  }

  /** The rate before rounding: the band's base rate plus the scaled noise, times the
      season multiplier, the demand multiplier and both surcharges. */
  function UnroundedRate(b: RateBand, z: real, season: Season, day: int): (u: real)
    ensures u >= 0.0 <==> b.baseRate + z * b.variation >= 0.0
    ensures u == 0.0 <==> b.baseRate + z * b.variation == 0.0
  {
    var k := SeasonMultiplier(season) * DemandMultiplier(day) * AccumulatedDeficitSurcharge * PensionTrustSurcharge;
    assert k > 0.0;
    assert (b.baseRate + z * b.variation)
      * SeasonMultiplier(season)
      * DemandMultiplier(day)
      * AccumulatedDeficitSurcharge
      * PensionTrustSurcharge == (b.baseRate + z * b.variation) * k;
    (b.baseRate + z * b.variation)
      * SeasonMultiplier(season)
      * DemandMultiplier(day)
      * AccumulatedDeficitSurcharge
      * PensionTrustSurcharge
  }

  /** The rate the background process computes for category `c`, given the clock
      reading (`hour`, `day`, `month`) and the standard-normal sample `z`. */
  function TouRate(c: Category, hour: int, day: int, month: int, z: real): (r: real)
    ensures !(0 <= hour < 24) ==> r == FallbackRate
    ensures 0 <= hour < 24 ==>
      var b := Bands(c)[BandIndex(c, hour)];
      && IsCents(r)
      && UnroundedRate(b, z, SeasonOf(month), day) - 0.005 < r <= UnroundedRate(b, z, SeasonOf(month), day) + 0.005
      && (b.baseRate + z * b.variation >= 0.0 ==> r >= 0.0)
  {
    BandPartition(c, hour);
    match FirstCovering(Bands(c), hour)
    case None => FallbackRate
    case Some(i) =>
      var u := UnroundedRate(Bands(c)[i], z, SeasonOf(month), day);
      RoundCents(u)
  }

  /** A noise sample within one standard deviation keeps every band's noisy base, and
      so its rate before rounding, positive. */
  lemma OneDeviationKeepsRatePositive(c: Category, i: nat, z: real, season: Season, day: int)
    requires i < |Bands(c)|
    requires -1.0 <= z <= 1.0
    ensures Bands(c)[i].baseRate + z * Bands(c)[i].variation > 0.0
    ensures UnroundedRate(Bands(c)[i], z, season, day) > 0.0
  {
    var b := Bands(c)[i];
    assert z * b.variation >= -b.variation by {
      assert (z + 1.0) * b.variation >= 0.0;
    }
  }

  /** The smallest and largest product of the multipliers over all seasons and days. */
  const MinMultiplier: real := 0.9 * 0.95 * 1.08 * 1.05
  const MaxMultiplier: real := 1.15 * 1.1 * 1.08 * 1.05

  /** The rate within a band lies between the noisy base times the smallest and the
      largest multiplier product, up to half a cent of rounding. */
  lemma RateEnvelope(c: Category, hour: int, day: int, month: int, z: real)
    requires 0 <= hour < 24
    requires Bands(c)[BandIndex(c, hour)].baseRate + z * Bands(c)[BandIndex(c, hour)].variation >= 0.0
    ensures var b := Bands(c)[BandIndex(c, hour)];
      var v := b.baseRate + z * b.variation;
      v * MinMultiplier - 0.005 < TouRate(c, hour, day, month, z) <= v * MaxMultiplier + 0.005
  {
    UnroundedEnvelope(Bands(c)[BandIndex(c, hour)], z, SeasonOf(month), day);
  }

  /** Before rounding, the rate is the noisy base scaled by a product of multipliers
      that lies between `MinMultiplier` and `MaxMultiplier`. */
  lemma UnroundedEnvelope(b: RateBand, z: real, season: Season, day: int)
    requires b.baseRate + z * b.variation >= 0.0
    ensures var v := b.baseRate + z * b.variation;
      v * MinMultiplier <= UnroundedRate(b, z, season, day) <= v * MaxMultiplier
  {
    var v := b.baseRate + z * b.variation;
    var u := UnroundedRate(b, z, season, day);
    if IsWeekend(day) {
      match season
      case Summer => assert u == v * (1.15 * 0.95 * 1.08 * 1.05);
      case Monsoon => assert u == v * (1.0 * 0.95 * 1.08 * 1.05);
      case Winter => assert u == v * MinMultiplier;
    } else {
      match season
      case Summer => assert u == v * MaxMultiplier;
      case Monsoon => assert u == v * (1.0 * 1.1 * 1.08 * 1.05);
      case Winter => assert u == v * (0.9 * 1.1 * 1.08 * 1.05);
    }
  }

  /** With zero noise, DOMESTIC at 14:00 on a weekday in May with zero noise is
      7.0 x 1.15 x 1.1 x 1.08 x 1.05 = 10.04157 before rounding, so 10.04. */
  lemma DomesticSummerWeekdayAfternoon()
    ensures TouRate(Domestic, 14, 3, 4, 0.0) == 10.04
  {
    var b := Bands(Domestic)[BandIndex(Domestic, 14)];
    assert b == RateBand(12, 16, 7.0, 0.6);
    assert UnroundedRate(b, 0.0, SeasonOf(4), 3) == 10.04157;
    assert IsCents(10.04) by {
      assert 10.04 * 100.0 == 1004.0;
    }
    RoundCentsUnique(10.04157, 10.04);
  }

  /** The season map is total and agrees with the month table. */
  lemma SeasonMatchesMonthTable(month: int)
    requires 0 <= month < 12
    ensures SeasonOf(month) == MonthSeasons[month]
  {
  }
}
