/** The holiday, usage and data-quality logic of the external-data service: holiday
    classification and impact, the holiday provider with its per-(country, year,
    region) cache and its custom regional holidays, the API usage counters of the
    weather provider, the weather-condition mapping of the Visual Crossing parsers,
    and the holiday collection and quality score of `get_external_factors`. The
    holidays library, the weather API and the clock are inputs. */
module ExternalData {
  import opened Basics
  import opened Text
  import opened Dates
  import opened Sorting
  import opened ExternalFactorModels

  // Classification

  const Christmas := "christmas"
  const NewYear := "new year"
  const Thanksgiving := "thanksgiving"
  const Easter := "easter"
  const Independence := "independence"

  const MajorKeywords: seq<string> := [Christmas, NewYear, Thanksgiving, Easter, Independence]
  const ReligiousKeywords: seq<string> := [Easter, Christmas, "ramadan", "diwali", "hanukkah"]
  const NationalKeywords: seq<string> := [Independence, "national", "republic", "constitution"]

  /** Some keyword of the list occurs in the text. */
  ghost predicate Mentions(text: string, keywords: seq<string>)
  {
    exists w :: w in keywords && Contains(text, w)
  }

  /** `any(keyword in text for keyword in keywords)`. */
  function AnyKeyword(keywords: seq<string>, text: string): (b: bool)
    ensures b <==> Mentions(text, keywords)
  {
    if |keywords| == 0 then false
    else
      assert forall w :: w in keywords <==> w == keywords[0] || w in keywords[1..];
      Find(text, keywords[0]) || AnyKeyword(keywords[1..], text)
  }

  /** `_classify_holiday`: the keyword lists are tried in order on the lower-cased name,
      major first, then religious, then national; anything else is minor. The country
      plays no part. */
  function ClassifyHoliday(name: string, country: string): (t: HolidayType)
  {
    var lower := Lower(name);
    if AnyKeyword(MajorKeywords, lower) then Major
    else if AnyKeyword(ReligiousKeywords, lower) then Religious
    else if AnyKeyword(NationalKeywords, lower) then National
    else Minor
  }

  /** Each class holds exactly when its keywords occur and no earlier list's do; the
      provider never produces a regional holiday. */
  lemma ClassifySpec(name: string, country: string)
    ensures var lower := Lower(name);
      && (ClassifyHoliday(name, country) == Major <==> Mentions(lower, MajorKeywords))
      && (ClassifyHoliday(name, country) == Religious <==>
            !Mentions(lower, MajorKeywords) && Mentions(lower, ReligiousKeywords))
      && (ClassifyHoliday(name, country) == National <==>
            !Mentions(lower, MajorKeywords) && !Mentions(lower, ReligiousKeywords) && Mentions(lower, NationalKeywords))
      && (ClassifyHoliday(name, country) == Minor <==>
            !Mentions(lower, MajorKeywords) && !Mentions(lower, ReligiousKeywords) && !Mentions(lower, NationalKeywords))
      && ClassifyHoliday(name, country) != Regional
  {
  }

  /** Easter and Christmas are major keywords, so they never make a holiday religious;
      "independence" likewise never makes one national. */
  lemma MajorShadowsLaterLists(name: string, country: string)
    ensures var lower := Lower(name);
      Contains(lower, Easter) || Contains(lower, Christmas) || Contains(lower, Independence) ==>
        ClassifyHoliday(name, country) == Major
  {
    var lower := Lower(name);
    assert Easter in MajorKeywords && Christmas in MajorKeywords && Independence in MajorKeywords;
    if Contains(lower, Easter) || Contains(lower, Christmas) || Contains(lower, Independence) {
      assert Mentions(lower, MajorKeywords);
    }
  }

  /** `_get_holiday_impact_days`. */
  function ImpactDays(name: string, kind: HolidayType): (days: int)
    ensures days >= 1
  {
    var lower := Lower(name);
    if Find(lower, Christmas) || Find(lower, NewYear) then 3
    else if Find(lower, Thanksgiving) then 4
    else if kind == Major then 2
    else 1
  }

  /** Three days for Christmas or the new year, four for Thanksgiving (with the day
      after), two for any other major holiday and one for the rest. */
  lemma ImpactDaysSpec(name: string, kind: HolidayType)
    ensures var lower := Lower(name);
      && (Contains(lower, Christmas) || Contains(lower, NewYear) ==> ImpactDays(name, kind) == 3)
      && (!Contains(lower, Christmas) && !Contains(lower, NewYear) && Contains(lower, Thanksgiving) ==>
            ImpactDays(name, kind) == 4)
      && (!Contains(lower, Christmas) && !Contains(lower, NewYear) && !Contains(lower, Thanksgiving) ==>
            ImpactDays(name, kind) == (if kind == Major then 2 else 1))
  {
  }

  // The holiday provider

  /** `holidays.country_holidays(country, years=year)`: its (date, name) items in
      iteration order, or None where the library raises (an unknown country). */
  type Library = (string, int) -> Option<seq<(Day, string)>>

  /** Custom holidays by "country_region" key and year. */
  type CustomHolidays = map<string, map<int, seq<HolidayData>>>

  /** Holiday lists by cache key. */
  type HolidayCache = map<string, seq<HolidayData>>

  function DateOf(h: HolidayData): int { h.date }

  /** `region or 'national'`. */
  function RegionText(region: Option<string>): string
  {
    if region.Some? && region.value != "" then region.value else "national"
  }

  /** `f"holidays_{country}_{year}_{region or 'national'}"`. */
  function CacheKey(country: string, year: int, region: Option<string>): string
  {
    "holidays_" + country + "_" + IntToString(year) + "_" + RegionText(region)
  }

  /** `f"{country}_{region}"`. */
  function CustomKey(country: string, region: string): string
  {
    country + "_" + region
  }

  /** The record `get_holidays` makes of one library item. */
  function LibraryHoliday(country: string, region: Option<string>, item: (Day, string)): (h: HolidayData)
    ensures h.kind == ClassifyHoliday(item.1, country) && h.impactDays == ImpactDays(item.1, h.kind)
    ensures h.date == item.0 && h.name == item.1 && h.country == country && h.region == region && h.isObserved
  {
    var kind := ClassifyHoliday(item.1, country);
    HolidayData(country, region, item.0, item.1, kind, true, ImpactDays(item.1, kind))
  }

  /** The records of the library items, in item order. */
  function LibraryHolidays(country: string, region: Option<string>, items: seq<(Day, string)>): (hs: seq<HolidayData>)
    ensures |hs| == |items|
    ensures forall i :: 0 <= i < |items| ==> hs[i] == LibraryHoliday(country, region, items[i])
  {
    seq(|items|, i requires 0 <= i < |items| => LibraryHoliday(country, region, items[i]))
  }

  /** The library's holidays, none where it raises. */
  function LibraryList(library: Library, country: string, year: int, region: Option<string>): seq<HolidayData>
  {
    var items := library(country, year);
    if items.Some? then LibraryHolidays(country, region, items.value) else []
  }

  /** The custom holidays merged for a year: only with a non-empty region that has
      custom holidays, and then those of that year. */
  function CustomFor(custom: CustomHolidays, country: string, year: int, region: Option<string>): seq<HolidayData>
  {
    if region.Some? && region.value != "" && CustomKey(country, region.value) in custom then
      var byYear := custom[CustomKey(country, region.value)];
      if year in byYear then byYear[year] else []
    else []
  }

  /** The list `get_holidays` builds on a cache miss: library holidays, then custom
      ones, stably sorted by date. */
  function Compiled(library: Library, custom: CustomHolidays, country: string, year: int, region: Option<string>): seq<HolidayData>
  {
    SortBy(LibraryList(library, country, year, region) + CustomFor(custom, country, year, region), DateOf)
  }

  /** The compiled list is sorted by date; it holds the library's holidays and the
      merged custom ones and nothing else, each as often as there; holidays on the same
      date keep their order; without a region no custom holiday is merged. */
  lemma CompiledSpec(library: Library, custom: CustomHolidays, country: string, year: int, region: Option<string>)
    ensures var hs := Compiled(library, custom, country, year, region);
      && SortedBy(hs, DateOf)
      && multiset(hs) == multiset(LibraryList(library, country, year, region) + CustomFor(custom, country, year, region))
      && (forall d :: WithKey(hs, DateOf, d) ==
            WithKey(LibraryList(library, country, year, region) + CustomFor(custom, country, year, region), DateOf, d))
      && (region.None? || region == Some("") ==> multiset(hs) == multiset(LibraryList(library, country, year, region)))
  {
    var all := LibraryList(library, country, year, region) + CustomFor(custom, country, year, region);
    SortBySortedPermutation(all, DateOf);
    forall d {
      SortByStable(all, DateOf, d);
    }
    if region.None? || region == Some("") {
      assert all == LibraryList(library, country, year, region);
    }
  }

  /** A library holiday affects at least its own day, with the impact its name gives. */
  lemma LibraryHolidayCovers(library: Library, country: string, year: int, region: Option<string>, h: HolidayData)
    requires h in LibraryList(library, country, year, region)
    ensures h.kind == ClassifyHoliday(h.name, country) && h.impactDays == ImpactDays(h.name, h.kind)
    ensures Covers(h, h.date)
  {
    var items := library(country, year).value;
    var i :| 0 <= i < |items| && LibraryList(library, country, year, region)[i] == h;
  }

  /** What `get_holidays` returns: the cached list when there is one, the compiled
      list otherwise. */
  function Listed(cache: HolidayCache, custom: CustomHolidays, library: Library,
                  country: string, year: int, region: Option<string>): seq<HolidayData>
  {
    var key := CacheKey(country, year, region);
    if key in cache then cache[key] else Compiled(library, custom, country, year, region)
  }

  /** The cache after `get_holidays`: the returned list stored under its key. */
  function Stored(cache: HolidayCache, custom: CustomHolidays, library: Library,
                  country: string, year: int, region: Option<string>): HolidayCache
  {
    cache[CacheKey(country, year, region) := Listed(cache, custom, library, country, year, region)]
  }

  /** A second request for the same holidays returns the first answer and leaves the
      cache as it was. */
  lemma ListedIdempotent(cache: HolidayCache, custom: CustomHolidays, library: Library,
                         country: string, year: int, region: Option<string>)
    ensures var c := Stored(cache, custom, library, country, year, region);
      && Listed(c, custom, library, country, year, region) == Listed(cache, custom, library, country, year, region)
      && Stored(c, custom, library, country, year, region) == c
  {
  }

  /** A missing region and an empty one share a cache entry with the region "national". */
  lemma NationalKeyShared(country: string, year: int)
    ensures CacheKey(country, year, None) == CacheKey(country, year, Some("")) == CacheKey(country, year, Some("national"))
  {
  }

  /** `start_date <= d <= start_date + impact_days - 1`. */
  predicate Covers(h: HolidayData, d: Day)
  {
    h.date <= d <= h.date + h.impactDays - 1
  }

  /** `min(h for h in hs if h.date > target, key=date)`: the first of the earliest
      holidays after the target. */
  function Earliest(hs: seq<HolidayData>, target: Day): Option<HolidayData>
  {
    if |hs| == 0 then None
    else
      var rest := Earliest(hs[1..], target);
      if hs[0].date > target && (rest.None? || hs[0].date <= rest.value.date) then Some(hs[0]) else rest
  }

  /** None exactly when no holiday is after the target; otherwise a holiday after the
      target, no later than any other such, and the first of those on its date. */
  lemma {:induction false} EarliestSpec(hs: seq<HolidayData>, target: Day)
    ensures Earliest(hs, target).None? <==> forall h :: h in hs ==> h.date <= target
    ensures Earliest(hs, target).Some? ==>
      var e := Earliest(hs, target).value;
      && e in hs && e.date > target
      && (forall h :: h in hs && h.date > target ==> e.date <= h.date)
      && exists i :: 0 <= i < |hs| && hs[i] == e && forall j :: 0 <= j < i && hs[j].date > target ==> hs[j].date > e.date
  {
    if |hs| > 0 {
      EarliestSpec(hs[1..], target);
      assert forall h :: h in hs <==> h == hs[0] || h in hs[1..];
      var r := Earliest(hs, target);
      var rest := Earliest(hs[1..], target);
      if r.Some? {
        if hs[0].date > target && (rest.None? || hs[0].date <= rest.value.date) {
          assert hs[0] == r.value;
        } else {
          var i :| 0 <= i < |hs[1..]| && hs[1..][i] == rest.value
            && forall j :: 0 <= j < i && hs[1..][j].date > target ==> hs[1..][j].date > rest.value.date;
          assert hs[i + 1] == r.value;
          forall j | 0 <= j < i + 1 && hs[j].date > target
            ensures hs[j].date > r.value.date
          {
            if j > 0 {
              assert hs[j] == hs[1..][j - 1];
            }
          }
        }
      }
    }
  }

  /** `get_next_holiday` as written: the list `get_holidays` returned for the year is
      the cached list itself, so extending it with next year's holidays (from November
      on) changes the cache entry of the year too. The result and the new cache. */
  function NextHolidayAsWritten(cache: HolidayCache, custom: CustomHolidays, library: Library,
                                target: Day, country: string, region: Option<string>): (Option<HolidayData>, HolidayCache)
  {
    var year := Year(target);
    var hs := Listed(cache, custom, library, country, year, region);
    var c := Stored(cache, custom, library, country, year, region);
    if Month(target) >= 11 then
      var next := Listed(c, custom, library, country, year + 1, region);
      var c2 := Stored(c, custom, library, country, year + 1, region);
      (Earliest(hs + next, target), c2[CacheKey(country, year, region) := hs + next])
    else (Earliest(hs, target), c)
  }

  /** `get_next_holiday` extending a copy of the year's list: the same answer, and the
      cache only gains the entries `get_holidays` stores. */
  function NextHolidayCopying(cache: HolidayCache, custom: CustomHolidays, library: Library,
                              target: Day, country: string, region: Option<string>): (Option<HolidayData>, HolidayCache)
  {
    var year := Year(target);
    var hs := Listed(cache, custom, library, country, year, region);
    var c := Stored(cache, custom, library, country, year, region);
    if Month(target) >= 11 then
      var next := Listed(c, custom, library, country, year + 1, region);
      (Earliest(hs + next, target), Stored(c, custom, library, country, year + 1, region))
    else (Earliest(hs, target), c)
  }

  /** Two years never share a cache key. */
  lemma CacheKeysDiffer(country: string, year: int, other: int, region: Option<string>)
    requires year != other
    ensures CacheKey(country, year, region) != CacheKey(country, other, region)
  {
    var a, b := IntToString(year), IntToString(other);
    var prefix := "holidays_" + country + "_";
    var r := "_" + RegionText(region);
    assert CacheKey(country, year, region) == prefix + a + r;
    assert CacheKey(country, other, region) == prefix + b + r;
    if CacheKey(country, year, region) == CacheKey(country, other, region) {
      assert a + r == b + r by {
        assert (prefix + a + r)[|prefix|..] == a + r;
        assert (prefix + b + r)[|prefix|..] == b + r;
      }
      assert a == (a + r)[..|a|] && b == (b + r)[..|b|];
      ParseIntOfIntToString(year);
      ParseIntOfIntToString(other);
    }
  }

  lemma NoUnderscoreInIntToString(i: int)
    ensures '_' !in IntToString(i)
  {
    var s := IntToString(i);
    if i < 0 {
      assert s == "-" + NatToString(-i);
      assert forall k :: 1 <= k < |s| ==> s[k] == NatToString(-i)[k - 1];
    }
  }

  /** From November on, the as-written `get_next_holiday` leaves next year's holidays
      in the cache entry of the year, so a later `get_holidays` for the year returns
      them too; extending a copy instead keeps that entry as `get_holidays` left it.
      Both give the same next holiday. */
  lemma NextHolidayAliasing(cache: HolidayCache, custom: CustomHolidays, library: Library,
                            target: Day, country: string, region: Option<string>)
    ensures NextHolidayAsWritten(cache, custom, library, target, country, region).0
         == NextHolidayCopying(cache, custom, library, target, country, region).0
    ensures var year := Year(target);
      var hs := Listed(cache, custom, library, country, year, region);
      var c := Stored(cache, custom, library, country, year, region);
      var next := Listed(c, custom, library, country, year + 1, region);
      && (Month(target) >= 11 ==>
            Listed(NextHolidayAsWritten(cache, custom, library, target, country, region).1, custom, library, country, year, region)
              == hs + next)
      && Listed(NextHolidayCopying(cache, custom, library, target, country, region).1, custom, library, country, year, region)
           == hs
  {
    var year := Year(target);
    if Month(target) >= 11 {
      CacheKeysDiffer(country, year + 1, year, region);
    }
  }

  /** `add_custom_holiday`: the holiday appended to the list of its year under
      "country_region", both created when missing. */
  function AddedCustom(custom: CustomHolidays, country: string, region: string, holiday: HolidayData): CustomHolidays
  {
    var key := CustomKey(country, region);
    var byYear := if key in custom then custom[key] else map[];
    var year := Year(holiday.date);
    var list := if year in byYear then byYear[year] else [];
    custom[key := byYear[year := list + [holiday]]]
  }

  /** After adding, a compiled list for the holiday's year and that region merges the
      holiday last; every other key and year is unchanged. A list already cached is
      not recomputed, so it does not show the holiday. */
  lemma AddedCustomSpec(custom: CustomHolidays, country: string, region: string, holiday: HolidayData, cache: HolidayCache, library: Library)
    requires region != ""
    ensures var added := AddedCustom(custom, country, region, holiday);
      var year := Year(holiday.date);
      && CustomFor(added, country, year, Some(region)) == CustomFor(custom, country, year, Some(region)) + [holiday]
      && (forall k :: k in custom && k != CustomKey(country, region) ==> k in added && added[k] == custom[k])
      && (forall y :: y != year ==> CustomFor(added, country, y, Some(region)) == CustomFor(custom, country, y, Some(region)))
      && (CacheKey(country, year, Some(region)) in cache ==>
            Listed(cache, added, library, country, year, Some(region)) == Listed(cache, custom, library, country, year, Some(region)))
  {
  }

  class HolidayProvider {
    const library: Library
    /** The holiday lists already returned, by cache key (the TTL is not modelled). */
    var cache: HolidayCache
    /** `custom_holidays`. */
    var custom: CustomHolidays

    constructor(library: Library)
      ensures this.library == library && cache == map[] && custom == map[]
    {
      this.library := library;
      cache := map[];
      custom := map[];
    }

    /** `get_holidays`: the cached list, or the compiled one, which is then cached. */
    method GetHolidays(country: string, year: int, region: Option<string>) returns (hs: seq<HolidayData>)
      modifies this
      ensures hs == Listed(old(cache), custom, library, country, year, region)
      ensures cache == Stored(old(cache), custom, library, country, year, region)
      ensures custom == old(custom)
    {
      var key := CacheKey(country, year, region);
      if key in cache {
        return cache[key];
      }
      hs := Compile(country, year, region);
      cache := cache[key := hs];
    }

    /** The cache-miss branch of `get_holidays`: the library's holidays, then the custom
        ones of a non-empty region, stably sorted by date. */
    method Compile(country: string, year: int, region: Option<string>) returns (hs: seq<HolidayData>)
      ensures hs == Compiled(library, custom, country, year, region)
    {
      var listed := [];
      var items := library(country, year);
      if items.Some? {
        listed := LibraryRecords(country, region, items.value);
      }
      assert listed == LibraryList(library, country, year, region);
      var merged := listed;
      if region.Some? && region.value != "" && CustomKey(country, region.value) in custom {
        var byYear := custom[CustomKey(country, region.value)];
        if year in byYear {
          merged := listed + byYear[year];
        }
      }
      assert merged == listed + CustomFor(custom, country, year, region);
      hs := SortBy(merged, DateOf);
    }

    /** `is_holiday_period`: some holiday of the date's year covers the date. */
    method IsHolidayPeriod(target: Day, country: string, region: Option<string>) returns (b: bool)
      modifies this
      ensures var hs := Listed(old(cache), custom, library, country, Year(target), region);
        b <==> exists h :: h in hs && Covers(h, target)
      ensures cache == Stored(old(cache), custom, library, country, Year(target), region)
      ensures custom == old(custom)
    {
      var hs := GetHolidays(country, Year(target), region);
      var i := 0;
      while i < |hs|
        invariant 0 <= i <= |hs|
        invariant forall k :: 0 <= k < i ==> !Covers(hs[k], target)
      {
        if hs[i].date <= target <= hs[i].date + hs[i].impactDays - 1 {
          assert hs[i] in hs && Covers(hs[i], target);
          return true;
        }
        i := i + 1;
      }
      return false;
    }

    /** `get_next_holiday`, including the change it makes to the cached list of the
      year (see `NextHolidayAliasing`). */
    method GetNextHoliday(target: Day, country: string, region: Option<string>) returns (next: Option<HolidayData>)
      modifies this
      ensures (next, cache) == NextHolidayAsWritten(old(cache), old(custom), library, target, country, region)
      ensures custom == old(custom)
    {
      var year := Year(target);
      var hs := GetHolidays(country, year, region);
      if Month(target) >= 11 {
        var more := GetHolidays(country, year + 1, region);
        hs := hs + more;
        cache := cache[CacheKey(country, year, region) := hs];
      }
      next := NextAfter(hs, target);
    }

    /** `add_custom_holiday`. */
    method AddCustomHoliday(country: string, region: string, holiday: HolidayData)
      modifies this
      ensures custom == AddedCustom(old(custom), country, region, holiday)
      ensures cache == old(cache)
    {
      var key := CustomKey(country, region);
      var byYear := if key in custom then custom[key] else map[];
      var year := Year(holiday.date);
      var list := if year in byYear then byYear[year] else [];
      custom := custom[key := byYear[year := list + [holiday]]];
    }
  }

  /** The loop of `get_holidays` over the library's items. */
  method LibraryRecords(country: string, region: Option<string>, items: seq<(Day, string)>) returns (hs: seq<HolidayData>)
    ensures hs == LibraryHolidays(country, region, items)
  {
    hs := [];
    var i := 0;
    while i < |items|
      invariant 0 <= i <= |items|
      invariant |hs| == i
      invariant forall j :: 0 <= j < i ==> hs[j] == LibraryHoliday(country, region, items[j])
    {
      var (date, name) := items[i];
      var kind := ClassifyHoliday(name, country);
      var impact := ImpactDays(name, kind);
      hs := hs + [HolidayData(country, region, date, name, kind, true, impact)];
      i := i + 1;
    }
  }

  /** The filter and `min` of `get_next_holiday`. */
  method NextAfter(hs: seq<HolidayData>, target: Day) returns (next: Option<HolidayData>)
    ensures next == Earliest(hs, target)
  {
    next := None;
    var i := |hs|;
    while i > 0
      invariant 0 <= i <= |hs|
      invariant next == Earliest(hs[i..], target)
    {
      i := i - 1;
      assert hs[i..][1..] == hs[i + 1..];
      if hs[i].date > target && (next.None? || hs[i].date <= next.value.date) {
        next := Some(hs[i]);
      }
    }
  }

  // Usage statistics

  /** The values of `APIUsageStats`. */
  datatype Usage = Usage(dailyCalls: int, monthlyCalls: int, dailyCost: real, monthlyCost: real, lastResetDate: Option<Day>)

  /** `_update_usage_stats` on `today`: the daily figures restart when the date
      changes, then one call is counted by day and by month. */
  function Recorded(u: Usage, today: Day, costPerCall: real): (r: Usage)
  {
    var base := if u.lastResetDate != Some(today) then u.(dailyCalls := 0, dailyCost := 0.0, lastResetDate := Some(today)) else u;
    base.(dailyCalls := base.dailyCalls + 1, monthlyCalls := base.monthlyCalls + 1,
          dailyCost := base.dailyCost + costPerCall, monthlyCost := base.monthlyCost + costPerCall)
  }

  /** The usage after one recorded call per entry of `days`, in order. */
  function RecordedOver(u: Usage, days: seq<Day>, costPerCall: real): Usage
  {
    if |days| == 0 then u else Recorded(RecordedOver(u, days[..|days| - 1], costPerCall), days[|days| - 1], costPerCall)
  }

  /** How many entries at the end of `days` equal its last one. */
  function TrailingRun(days: seq<Day>): nat
  {
    if |days| <= 1 then |days|
    else if days[|days| - 1] == days[|days| - 2] then TrailingRun(days[..|days| - 1]) + 1
    else 1
  }

  /** Over a run of calls, the monthly count grows by one per call and is never reset,
      the reset date is the last call's date, and the daily count is the number of
      calls on that date since the date last changed (plus the earlier count when no
      change happened at all). */
  lemma {:induction false} RecordedOverSpec(u: Usage, days: seq<Day>, costPerCall: real)
    requires |days| > 0
    ensures var r := RecordedOver(u, days, costPerCall);
      && r.monthlyCalls == u.monthlyCalls + |days|
      && r.lastResetDate == Some(days[|days| - 1])
      && r.dailyCalls == TrailingRun(days) + (if TrailingRun(days) == |days| && u.lastResetDate == Some(days[0]) then u.dailyCalls else 0)
    decreases |days|
  {
    if |days| > 1 {
      var init := days[..|days| - 1];
      RecordedOverSpec(u, init, costPerCall);
      TrailingRunBound(init);
      assert init[0] == days[0] && init[|init| - 1] == days[|days| - 2];
      if days[|days| - 1] == days[|days| - 2] {
        assert TrailingRun(days) == TrailingRun(init) + 1;
      } else {
        assert TrailingRun(days) == 1 && TrailingRun(init) <= |init| < |days|;
      }
    }
  }

  lemma {:induction false} TrailingRunBound(days: seq<Day>)
    ensures TrailingRun(days) <= |days|
    ensures |days| > 0 ==> TrailingRun(days) >= 1
    decreases |days|
  {
    if |days| > 1 {
      TrailingRunBound(days[..|days| - 1]);
    }
  }

  /** `APIUsageStats` as the weather provider holds it, updated in place. */
  class UsageStats {
    var dailyCalls: int
    var monthlyCalls: int
    var dailyCost: real
    var monthlyCost: real
    var lastResetDate: Option<Day>

    constructor()
      ensures Snapshot() == Usage(0, 0, 0.0, 0.0, None)
    {
      dailyCalls, monthlyCalls := 0, 0;
      dailyCost, monthlyCost := 0.0, 0.0;
      lastResetDate := None;
    }

    function Snapshot(): Usage
      reads this
    {
      Usage(dailyCalls, monthlyCalls, dailyCost, monthlyCost, lastResetDate)
    }

    /** `_update_usage_stats` with `date.today()` given as `today`. */
    method Update(today: Day, costPerCall: real)
      modifies this
      ensures Snapshot() == Recorded(old(Snapshot()), today, costPerCall)
    {
      if lastResetDate != Some(today) {
        dailyCalls := 0;
        dailyCost := 0.0;
        lastResetDate := Some(today);
      }
      dailyCalls := dailyCalls + 1;
      monthlyCalls := monthlyCalls + 1;
      dailyCost := dailyCost + costPerCall;
      monthlyCost := monthlyCost + costPerCall;
    }
  }

  /** The Visual Crossing provider charges nothing per call. */
  const CostPerCall: real := 0.0

  // Weather conditions

  /** The condition map of the Visual Crossing parsers, in its insertion order. */
  const ConditionKeys: seq<string> :=
    ["clear", "partly cloudy", "cloudy", "overcast", "rain", "snow", "thunderstorm", "fog", "mist"]
  const ConditionValues: seq<WeatherCondition> :=
    [Clear, Cloudy, Cloudy, Cloudy, Rain, Snow, Storm, Fog, Fog]

  /** The condition of the first key, in map order, that occurs in the text; Clear
      when none does. */
  method MatchCondition(conditions: string) returns (w: WeatherCondition)
    ensures var lower := Lower(conditions);
      || (exists k :: 0 <= k < |ConditionKeys| && Contains(lower, ConditionKeys[k]) && w == ConditionValues[k]
                      && forall j :: 0 <= j < k ==> !Contains(lower, ConditionKeys[j]))
      || (w == Clear && forall k :: 0 <= k < |ConditionKeys| ==> !Contains(lower, ConditionKeys[k]))
  {
    var lower := Lower(conditions);
    var keys, values := ConditionKeys, ConditionValues;
    w := Clear;
    var i := 0;
    while i < |keys|
      invariant 0 <= i <= |keys| && keys == ConditionKeys && values == ConditionValues
      invariant forall j :: 0 <= j < i ==> !Contains(lower, keys[j])
    {
      if Find(lower, keys[i]) {
        return values[i];
      }
      i := i + 1;
    }
  }

  // Data quality

  /** `len(weather_data) / total_days`, 0 for an empty or reversed range. */
  function Completeness(points: nat, totalDays: int): (c: real)
    ensures c >= 0.0
    ensures totalDays > 0 ==> c * (totalDays as real) == points as real
  {
    if totalDays > 0 then (points as real) / (totalDays as real) else 0.0
  }

  /** The scores of the requested sources, weather, holidays and events in that order. */
  function QualityScores(weatherPoints: nat, anyHoliday: bool, request: ExternalFactorRequest): seq<real>
  {
    var totalDays := request.endDate - request.startDate + 1;
    (if request.includeWeather then [MinReal(Completeness(weatherPoints, totalDays), 1.0)] else [])
    + (if request.includeHolidays then [if anyHoliday || totalDays < 365 then 1.0 else 0.8] else [])
    + (if request.includeEvents then [0.5] else [])
  }

  /** `_calculate_data_quality`: the mean of the scores, 1.0 when no source is asked for. */
  function DataQuality(weatherPoints: nat, anyHoliday: bool, request: ExternalFactorRequest): (q: real)
  {
    var scores := QualityScores(weatherPoints, anyHoliday, request);
    if |scores| == 0 then 1.0 else Mean(scores)
  }

  lemma {:induction false} SumWithinUnit(xs: seq<real>)
    requires forall i :: 0 <= i < |xs| ==> 0.0 <= xs[i] <= 1.0
    ensures 0.0 <= Sum(xs) <= |xs| as real
    decreases |xs|
  {
    if |xs| > 0 {
      SumWithinUnit(xs[..|xs| - 1]);
    }
  }

  /** The score lies in [0, 1], and is 1.0 when no source is asked for. */
  lemma DataQualityBounds(weatherPoints: nat, anyHoliday: bool, request: ExternalFactorRequest)
    ensures 0.0 <= DataQuality(weatherPoints, anyHoliday, request) <= 1.0
    ensures !request.includeWeather && !request.includeHolidays && !request.includeEvents ==>
      DataQuality(weatherPoints, anyHoliday, request) == 1.0
  {
    var scores := QualityScores(weatherPoints, anyHoliday, request);
    if |scores| > 0 {
      SumWithinUnit(scores);
      UnitShare(Sum(scores), |scores| as real);
    }
  }

  lemma UnitShare(a: real, n: real)
    requires n > 0.0 && 0.0 <= a <= n
    ensures 0.0 <= a / n <= 1.0
  {
  }

  /** With one source the score is that source's: the share of days with a weather
      point, at most 1; for holidays 1.0 unless no holiday was found over a year or
      more, then 0.8; for events 0.5. */
  lemma DataQualitySingle(weatherPoints: nat, anyHoliday: bool, request: ExternalFactorRequest)
    ensures request.includeWeather && !request.includeHolidays && !request.includeEvents ==>
      DataQuality(weatherPoints, anyHoliday, request) ==
        MinReal(Completeness(weatherPoints, request.endDate - request.startDate + 1), 1.0)
    ensures !request.includeWeather && request.includeHolidays && !request.includeEvents ==>
      (DataQuality(weatherPoints, anyHoliday, request) == 0.8 <==>
         !anyHoliday && request.endDate - request.startDate + 1 >= 365)
    ensures !request.includeWeather && !request.includeHolidays && request.includeEvents ==>
      DataQuality(weatherPoints, anyHoliday, request) == 0.5
  {
    var scores := QualityScores(weatherPoints, anyHoliday, request);
    if |scores| == 1 {
      assert Sum(scores) == scores[0] by {
        assert scores[..0] == [];
      }
      assert Mean(scores) == scores[0];
    }
  }

  /** With all three sources the score is the mean of the three. */
  lemma DataQualityAll(weatherPoints: nat, anyHoliday: bool, request: ExternalFactorRequest)
    requires request.includeWeather && request.includeHolidays && request.includeEvents
    ensures var totalDays := request.endDate - request.startDate + 1;
      DataQuality(weatherPoints, anyHoliday, request) ==
        (MinReal(Completeness(weatherPoints, totalDays), 1.0) + (if anyHoliday || totalDays < 365 then 1.0 else 0.8) + 0.5) / 3.0
  {
    var scores := QualityScores(weatherPoints, anyHoliday, request);
    assert |scores| == 3;
    assert Sum([scores[0]]) == scores[0] by {
      assert [scores[0]][..0] == [];
    }
    SumAppend([scores[0]], scores[1]);
    SumAppend([scores[0], scores[1]], scores[2]);
    assert scores == [scores[0], scores[1]] + [scores[2]];
  }

  // The external-data service

  /** `[h for h in hs if start <= h.date <= end]`. */
  function Within(hs: seq<HolidayData>, start: Day, end: Day): (r: seq<HolidayData>)
    ensures |r| <= |hs|
    ensures forall h :: h in r <==> h in hs && start <= h.date <= end
  {
    if |hs| == 0 then []
    else (if start <= hs[0].date <= end then [hs[0]] else []) + Within(hs[1..], start, end)
  }

  /** The holidays `get_external_factors` gathers for the years year..last, each year's
      list filtered to the range, and the cache afterwards. */
  function Sweep(cache: HolidayCache, custom: CustomHolidays, library: Library, country: string,
                 region: Option<string>, year: int, last: int, start: Day, end: Day): (HolidayCache, seq<HolidayData>)
    decreases last - year + 1
  {
    if year > last then (cache, [])
    else
      var hs := Listed(cache, custom, library, country, year, region);
      var rest := Sweep(Stored(cache, custom, library, country, year, region), custom, library, country, region, year + 1, last, start, end);
      (rest.0, Within(hs, start, end) + rest.1)
  }

  /** Every holiday gathered lies within the requested dates. */
  lemma {:induction false} SweepWithinRange(cache: HolidayCache, custom: CustomHolidays, library: Library, country: string,
                                            region: Option<string>, year: int, last: int, start: Day, end: Day)
    ensures forall h :: h in Sweep(cache, custom, library, country, region, year, last, start, end).1 ==> start <= h.date <= end
    decreases last - year + 1
  {
    if year <= last {
      SweepWithinRange(Stored(cache, custom, library, country, year, region), custom, library, country, region, year + 1, last, start, end);
    }
  }

  /** With nothing cached yet, the holidays gathered for a single-year range are the
      compiled holidays of that year that fall in the range, in date order. */
  lemma SweepOneYear(custom: CustomHolidays, library: Library, country: string, region: Option<string>,
                     year: int, start: Day, end: Day)
    ensures Sweep(map[], custom, library, country, region, year, year, start, end).1
         == Within(Compiled(library, custom, country, year, region), start, end)
  {
    var hs := Compiled(library, custom, country, year, region);
    assert Within(hs, start, end) + [] == Within(hs, start, end);
  }

  /** The holidays gathered so far are those of the years before `year`, and the
      rest of the sweep starts from the current cache. */
  ghost predicate SweepInv(c0: HolidayCache, cache: HolidayCache, custom: CustomHolidays, library: Library, country: string,
                           region: Option<string>, first: int, year: int, last: int, start: Day, end: Day, gathered: seq<HolidayData>)
  {
    var whole := Sweep(c0, custom, library, country, region, first, last, start, end);
    var rest := Sweep(cache, custom, library, country, region, year, last, start, end);
    whole == (rest.0, gathered + rest.1)
  }

  lemma SweepEntry(cache: HolidayCache, custom: CustomHolidays, library: Library, country: string,
                   region: Option<string>, first: int, last: int, start: Day, end: Day)
    ensures SweepInv(cache, cache, custom, library, country, region, first, first, last, start, end, [])
  {
    var whole := Sweep(cache, custom, library, country, region, first, last, start, end);
    assert [] + whole.1 == whole.1;
  }

  lemma SweepStep(c0: HolidayCache, cache: HolidayCache, custom: CustomHolidays, library: Library, country: string,
                  region: Option<string>, first: int, year: int, last: int, start: Day, end: Day,
                  gathered: seq<HolidayData>, hs: seq<HolidayData>)
    requires year <= last
    requires SweepInv(c0, cache, custom, library, country, region, first, year, last, start, end, gathered)
    requires hs == Listed(cache, custom, library, country, year, region)
    ensures SweepInv(c0, Stored(cache, custom, library, country, year, region), custom, library, country, region,
                     first, year + 1, last, start, end, gathered + Within(hs, start, end))
  {
    var rest := Sweep(Stored(cache, custom, library, country, year, region), custom, library, country, region, year + 1, last, start, end);
    assert gathered + (Within(hs, start, end) + rest.1) == gathered + Within(hs, start, end) + rest.1;
  }

  lemma SweepExit(c0: HolidayCache, cache: HolidayCache, custom: CustomHolidays, library: Library, country: string,
                  region: Option<string>, first: int, year: int, last: int, start: Day, end: Day, gathered: seq<HolidayData>)
    requires year > last
    requires SweepInv(c0, cache, custom, library, country, region, first, year, last, start, end, gathered)
    ensures Sweep(c0, custom, library, country, region, first, last, start, end) == (cache, gathered)
  {
    assert gathered + [] == gathered;
  }

  /** `request.country or "KW"`. */
  function CountryOf(request: ExternalFactorRequest): string
  {
    if request.country.Some? && request.country.value != "" then request.country.value else "KW"
  }

  /** "start to end" in ISO dates. */
  function DateRange(request: ExternalFactorRequest): string
  {
    IsoDate(request.startDate) + " to " + IsoDate(request.endDate)
  }

  class ExternalDataService {
    const config: ExternalFactorConfig
    const holidayProvider: HolidayProvider
    /** A weather provider exists when an API key is configured and weather is enabled. */
    const hasWeatherProvider: bool

    constructor(config: ExternalFactorConfig, library: Library)
      ensures this.config == config && fresh(holidayProvider)
      ensures holidayProvider.library == library && holidayProvider.cache == map[] && holidayProvider.custom == map[]
      ensures hasWeatherProvider <==> config.apiKey.Some? && config.apiKey.value != "" && config.weatherEnabled
    {
      this.config := config;
      holidayProvider := new HolidayProvider(library);
      hasWeatherProvider := config.apiKey.Some? && config.apiKey.value != "" && config.weatherEnabled;
    }

    /** The weather provider is asked when the request includes weather and weather is
        enabled. */
    predicate WantsWeather(request: ExternalFactorRequest)
    {
      request.includeWeather && hasWeatherProvider && config.weatherEnabled
    }

    /** The holiday part of `get_external_factors`: for every year from the start's
        to the end's, the provider's holidays that fall in the range, in year order. */
    method CollectHolidays(request: ExternalFactorRequest) returns (holidayData: seq<HolidayData>)
      modifies holidayProvider
      ensures (holidayProvider.cache, holidayData) ==
        Sweep(old(holidayProvider.cache), holidayProvider.custom, holidayProvider.library, CountryOf(request),
              request.region, Year(request.startDate), Year(request.endDate), request.startDate, request.endDate)
      ensures holidayProvider.custom == old(holidayProvider.custom)
    {
      holidayData := [];
      var country := CountryOf(request);
      var first, last := Year(request.startDate), Year(request.endDate);
      var year := first;
      ghost var c0 := holidayProvider.cache;
      SweepEntry(c0, holidayProvider.custom, holidayProvider.library, country, request.region, first, last,
                 request.startDate, request.endDate);
      while year <= last
        invariant holidayProvider.custom == old(holidayProvider.custom)
        invariant SweepInv(c0, holidayProvider.cache, holidayProvider.custom, holidayProvider.library, country,
                           request.region, first, year, last, request.startDate, request.endDate, holidayData)
        decreases last - year + 1
      {
        ghost var before := holidayProvider.cache;
        var hs := holidayProvider.GetHolidays(country, year, request.region);
        SweepStep(c0, before, holidayProvider.custom, holidayProvider.library, country,
                  request.region, first, year, last, request.startDate, request.endDate, holidayData, hs);
        holidayData := holidayData + Within(hs, request.startDate, request.endDate);
        year := year + 1;
      }
      SweepExit(c0, holidayProvider.cache, holidayProvider.custom, holidayProvider.library, country,
                request.region, first, year, last, request.startDate, request.endDate, holidayData);
    }

    /** `get_external_factors`, given what the weather provider returns for the
        request's location and dates: weather when asked for, the holidays of every
        year of the range that fall in it, no events, and the quality score. */
    method GetExternalFactors(request: ExternalFactorRequest, weather: seq<WeatherData>) returns (s: ExternalFactorSummary)
      modifies holidayProvider
      ensures s.location == request.location && s.dateRange == DateRange(request)
      ensures s.weatherData == (if WantsWeather(request) then weather else [])
      ensures s.eventData == []
      ensures s.weatherCorrelationScore.None? && s.holidayImpactScore.None? && s.seasonalAdjustment.None?
      ensures request.includeHolidays && config.holidaysEnabled ==>
        (holidayProvider.cache, s.holidayData) ==
          Sweep(old(holidayProvider.cache), holidayProvider.custom, holidayProvider.library, CountryOf(request),
                request.region, Year(request.startDate), Year(request.endDate), request.startDate, request.endDate)
      ensures !(request.includeHolidays && config.holidaysEnabled) ==>
        s.holidayData == [] && holidayProvider.cache == old(holidayProvider.cache)
      ensures holidayProvider.custom == old(holidayProvider.custom)
      ensures s.dataQualityScore == DataQuality(|s.weatherData|, s.holidayData != [], request)
    {
      var weatherData := if WantsWeather(request) then weather else [];
      var holidayData := [];
      if request.includeHolidays && config.holidaysEnabled {
        holidayData := CollectHolidays(request);
      }
      var quality := DataQuality(|weatherData|, holidayData != [], request);
      s := ExternalFactorSummary(request.location, DateRange(request), weatherData, holidayData, [],
                                 None, None, None, quality);
    }
  }
}
