/** The deterministic parts of the synthetic load generator: the month to
    season map, the seasonal load patterns and temperature configurations it
    looks up, the holiday calendar, and the shaping of one hourly reading, of
    which the random draws (measurement noise, air-conditioning and heating
    loads) are parameters. */
module Dataset {
  import opened Stats

  /** A season's load pattern: base load, peak amplitude and peak hours. */
  datatype Pattern = Pattern(base: real, amplitude: real, peakHours: seq<int>)

  /** A season's temperature configuration: base temperature and the width of
      the range it is drawn from. */
  datatype TempConfig = TempConfig(base: real, range: real)

  const SeasonalPatterns: map<string, Pattern> := map[
    "winter" := Pattern(100.0, 40.0, [7, 8, 18, 19, 20]),
    "spring" := Pattern(70.0, 25.0, [7, 8, 18, 19]),
    "summer" := Pattern(85.0, 35.0, [12, 13, 14, 15, 16]),
    "autumn" := Pattern(75.0, 30.0, [7, 8, 18, 19])]

  const SeasonTemps: map<string, TempConfig> := map[
    "winter" := TempConfig(5.0, 10.0),
    "spring" := TempConfig(15.0, 8.0),
    "summer" := TempConfig(25.0, 10.0),
    "autumn" := TempConfig(12.0, 8.0)]

  /** The night hours, when the load drops to 60 %. */
  const NightHours: seq<int> := [22, 23, 0, 1, 2, 3, 4, 5]

  /** The hours of extra air-conditioning load in summer. */
  const CoolingHours: seq<int> := [12, 13, 14, 15]

  /** The hours of extra heating load in winter. */
  const HeatingHours: seq<int> := [6, 7, 8, 17, 18, 19]

  /** The season of a month. Any month outside December to August, including
      numbers that are not months at all, is autumn. The result is always a
      key of both lookup tables. */
  function GetSeason(month: int): (r: string)
    ensures month in {12, 1, 2} ==> r == "winter"
    ensures month in {3, 4, 5} ==> r == "spring"
    ensures month in {6, 7, 8} ==> r == "summer"
    ensures month !in {12, 1, 2, 3, 4, 5, 6, 7, 8} ==> r == "autumn"
    ensures r in SeasonalPatterns && r in SeasonTemps
  {
    if month in {12, 1, 2} then "winter"
    else if month in {3, 4, 5} then "spring"
    else if month in {6, 7, 8} then "summer"
    else "autumn"
  }

  /** The twelve calendar months fall into four seasons of three months each. */
  lemma SeasonsOfTheYear()
    ensures (set m | 1 <= m <= 12 && GetSeason(m) == "winter") == {12, 1, 2}
    ensures (set m | 1 <= m <= 12 && GetSeason(m) == "spring") == {3, 4, 5}
    ensures (set m | 1 <= m <= 12 && GetSeason(m) == "summer") == {6, 7, 8}
    ensures (set m | 1 <= m <= 12 && GetSeason(m) == "autumn") == {9, 10, 11}
  {
    forall m | 1 <= m <= 12
      ensures GetSeason(m) == "winter" <==> m in {12, 1, 2}
      ensures GetSeason(m) == "spring" <==> m in {3, 4, 5}
      ensures GetSeason(m) == "summer" <==> m in {6, 7, 8}
      ensures GetSeason(m) == "autumn" <==> m in {9, 10, 11}
    {
    }
  }

  /** In every season the peak hours and the night hours are disjoint. */
  lemma PeakAndNightDisjoint(season: string, hour: int)
    requires season in SeasonalPatterns
    ensures !(hour in SeasonalPatterns[season].peakHours && hour in NightHours)
  {
    var peaks := SeasonalPatterns[season].peakHours;
    if hour in NightHours {
      assert hour in {22, 23, 0, 1, 2, 3, 4, 5} by {
        var k :| 0 <= k < |NightHours| && NightHours[k] == hour;
      }
      forall k | 0 <= k < |peaks| ensures peaks[k] != hour {
        assert 7 <= peaks[k] <= 20;
      }
    }
  }

  /** The daily shape of the load: base plus 80 % of the amplitude at a peak
      hour, otherwise 60 % of the base at night, otherwise the base. For a
      non-negative pattern it never falls below 60 % of the base nor exceeds
      the peak load, which every peak hour reaches. */
  function DailyLoad(p: Pattern, hour: int): (r: real)
    ensures p.base >= 0.0 && p.amplitude >= 0.0 ==> p.base * 0.6 <= r <= p.base + p.amplitude * 0.8
    ensures hour !in p.peakHours && hour !in NightHours ==> r == p.base
    ensures hour in p.peakHours ==> r == p.base + p.amplitude * 0.8
  {
    if hour in p.peakHours then p.base + p.amplitude * 0.8
    else if hour in NightHours then p.base * 0.6
    else p.base
  }

  /** The same shape with the night test first. */
  function NightFirstLoad(p: Pattern, hour: int): real
  {
    if hour in NightHours then p.base * 0.6
    else if hour in p.peakHours then p.base + p.amplitude * 0.8
    else p.base
  }

  /** Because peaks and nights never overlap, the order of the peak and night
      tests does not change the daily shape. */
  lemma ShapeOrderIrrelevant(season: string, hour: int)
    requires season in SeasonalPatterns
    ensures DailyLoad(SeasonalPatterns[season], hour) == NightFirstLoad(SeasonalPatterns[season], hour)
  {
    PeakAndNightDisjoint(season, hour);
  }

  /** The load of a season at an hour of a weekday (0 is Monday), before noise
      and weather: the daily shape, reduced to 75 % at the weekend. It is
      always positive: at least 75 % of 60 % of the smallest base, and at most
      the winter peak. */
  function ShapedLoad(season: string, hour: int, weekday: int): (r: real)
    requires season in SeasonalPatterns
    ensures 31.5 <= r <= 132.0
    ensures weekday < 5 ==> r == DailyLoad(SeasonalPatterns[season], hour)
    ensures weekday >= 5 ==> r == DailyLoad(SeasonalPatterns[season], hour) * 0.75
  {
    var load := DailyLoad(SeasonalPatterns[season], hour);
    if weekday >= 5 then load * 0.75 else load
  }

  /** The extra weather load: `cooling` on a summer afternoon, `heating` on a
      winter morning or evening, nothing otherwise. The two amounts stand for
      the random draws of `generate_hourly_data`. */
  function WeatherLoad(season: string, hour: int, cooling: real, heating: real): (r: real)
    ensures season == "summer" && hour in CoolingHours ==> r == cooling
    ensures season == "winter" && hour in HeatingHours ==> r == heating
    ensures !(season == "summer" && hour in CoolingHours) && !(season == "winter" && hour in HeatingHours)
      ==> r == 0.0
  {
    if season == "summer" && hour in CoolingHours then cooling
    else if season == "winter" && hour in HeatingHours then heating
    else 0.0
  }

  /** The consumption that would be recorded before the clamp: the shaped
      load plus the noise and weather draws. With non-negative weather draws
      it is at least the smallest shaped load plus the noise; with
      non-positive ones at most the largest shaped load plus the noise. */
  function RawConsumption(month: int, hour: int, weekday: int, noise: real,
                          cooling: real, heating: real): (r: real)
    ensures cooling >= 0.0 && heating >= 0.0 ==> r >= 31.5 + noise
    ensures cooling <= 0.0 && heating <= 0.0 ==> r <= 132.0 + noise
  {
    var season := GetSeason(month);
    ShapedLoad(season, hour, weekday) + noise + WeatherLoad(season, hour, cooling, heating)
  }

  /** The consumption recorded for one hour: the raw consumption clamped at 0.
      Whatever the noise and weather draws, the record is non-negative, and a
      non-negative raw value is recorded unchanged. */
  function RecordedConsumption(month: int, hour: int, weekday: int, noise: real,
                               cooling: real, heating: real): (r: real)
    ensures r >= 0.0
    ensures r >= RawConsumption(month, hour, weekday, noise, cooling, heating)
    ensures RawConsumption(month, hour, weekday, noise, cooling, heating) >= 0.0
      ==> r == RawConsumption(month, hour, weekday, noise, cooling, heating)
    ensures RawConsumption(month, hour, weekday, noise, cooling, heating) < 0.0 ==> r == 0.0
  {
    ClampAtZero(RawConsumption(month, hour, weekday, noise, cooling, heating))
  }

  /** With non-negative weather draws, a noise draw that takes away no more
      than the shaped load leaves the raw consumption non-negative and the
      clamp changes nothing: only a large negative draw is ever clamped. */
  lemma ClampInactiveForModestNoise(month: int, hour: int, weekday: int, noise: real,
                                    cooling: real, heating: real)
    requires noise >= -ShapedLoad(GetSeason(month), hour, weekday)
    requires cooling >= 0.0 && heating >= 0.0
    ensures RecordedConsumption(month, hour, weekday, noise, cooling, heating)
      == RawConsumption(month, hour, weekday, noise, cooling, heating)
  {
    var season := GetSeason(month);
    assert WeatherLoad(season, hour, cooling, heating) >= 0.0;
  }

  /** The fixed holiday dates, as (month, day). */
  const Holidays: seq<(int, int)> := [(1, 1), (7, 4), (12, 25)]

  /** Whether a date is one of the fixed holidays: New Year's Day,
      Independence Day or Christmas Day. */
  function IsHoliday(month: int, day: int): (r: bool)
    ensures r <==> (month == 1 && day == 1) || (month == 7 && day == 4) || (month == 12 && day == 25)
  {
    (month, day) in Holidays
  }

  /** Every holiday falls in winter or summer, and no month has two. */
  lemma HolidaySeasons(month: int, day: int, otherDay: int)
    requires IsHoliday(month, day) && IsHoliday(month, otherDay)
    ensures GetSeason(month) == "winter" || GetSeason(month) == "summer"
    ensures day == otherDay
  {
  }
}
