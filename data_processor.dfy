/** The extraction loop of `process_berry_data`: one pass over the berry
    records collects their names and growth times and tracks the smallest
    and largest growth time with the first berry that has each. */
module DataProcessor {
  import opened Values

  /** The two fields of a berry record the loop reads. */
  datatype Berry = Berry(name: string, growthTime: int)

  /** The running minimum or maximum: `Unset` is the sentinel `float('inf')`
      (for the minimum) or `float('-inf')` (for the maximum), which every
      integer growth time beats. */
  datatype Extremum = Unset | Time(hours: int)

  /** What the loop leaves behind: `berries_names`, `growth_times`, the two
      extrema in `result_data`, and the locals `min_berry` and `max_berry`. */
  datatype Extraction = Extraction(
    names: seq<string>,
    growthTimes: seq<int>,
    minTime: Extremum,
    minBerry: string,
    maxTime: Extremum,
    maxBerry: string)

  /** `k` is the first record with the smallest growth time. */
  ghost predicate IsFirstMinimum(berries: seq<Berry>, k: int)
  {
    0 <= k < |berries| &&
    (forall j :: 0 <= j < |berries| ==> berries[k].growthTime <= berries[j].growthTime) &&
    (forall j :: 0 <= j < k ==> berries[j].growthTime > berries[k].growthTime)
  }

  /** `k` is the first record with the largest growth time. */
  ghost predicate IsFirstMaximum(berries: seq<Berry>, k: int)
  {
    0 <= k < |berries| &&
    (forall j :: 0 <= j < |berries| ==> berries[k].growthTime >= berries[j].growthTime) &&
    (forall j :: 0 <= j < k ==> berries[j].growthTime < berries[k].growthTime)
  }

  /** `result_data["berries_names"]` and `growth_times` list every record
      in order; the extrema are attained by the first record having them,
      because the comparisons are strict; with no records, the sentinels
      and the empty names survive. */
  method ExtractGrowthData(berries: seq<Berry>) returns (x: Extraction)
    ensures |x.names| == |berries| && |x.growthTimes| == |berries|
    ensures forall i :: 0 <= i < |berries| ==> x.names[i] == berries[i].name
    ensures forall i :: 0 <= i < |berries| ==> x.growthTimes[i] == berries[i].growthTime
    ensures berries == [] ==> x.minTime == Unset && x.minBerry == "" && x.maxTime == Unset && x.maxBerry == ""
    ensures berries != [] ==>
              exists k :: IsFirstMinimum(berries, k) && x.minTime == Time(berries[k].growthTime) && x.minBerry == berries[k].name
    ensures berries != [] ==>
              exists k :: IsFirstMaximum(berries, k) && x.maxTime == Time(berries[k].growthTime) && x.maxBerry == berries[k].name
  {
    var names: seq<string> := [];
    var growthTimes: seq<int> := [];
    var minTime, maxTime := Unset, Unset;
    var minBerry, maxBerry := "", "";
    ghost var minAt, maxAt := 0, 0;
    for i := 0 to |berries|
      invariant |names| == i && |growthTimes| == i
      invariant forall j :: 0 <= j < i ==> names[j] == berries[j].name && growthTimes[j] == berries[j].growthTime
      invariant i == 0 ==> minTime == Unset && minBerry == "" && maxTime == Unset && maxBerry == ""
      invariant i > 0 ==> IsFirstMinimum(berries[..i], minAt) && minTime == Time(berries[minAt].growthTime) && minBerry == berries[minAt].name
      invariant i > 0 ==> IsFirstMaximum(berries[..i], maxAt) && maxTime == Time(berries[maxAt].growthTime) && maxBerry == berries[maxAt].name
    {
      var berry := berries[i];
      names := names + [berry.name];
      if minTime.Unset? || berry.growthTime < minTime.hours {
        minTime := Time(berry.growthTime);
        minBerry := berry.name;
        minAt := i;
      }
      if maxTime.Unset? || berry.growthTime > maxTime.hours {
        maxTime := Time(berry.growthTime);
        maxBerry := berry.name;
        maxAt := i;
      }
      growthTimes := growthTimes + [berry.growthTime];
    }
    assert berries[..|berries|] == berries;
    x := Extraction(names, growthTimes, minTime, minBerry, maxTime, maxBerry);
  }

  /** The integer part of what `process_berry_data` reports. */
  datatype Summary = Summary(
    names: seq<string>,
    minTime: int,
    minBerry: string,
    maxTime: int,
    maxBerry: string,
    frequency: nat)

  /** `process_berry_data` without its floating-point statistics and its
      histogram: `statistics.median` raises on no data and
      `statistics.variance` on fewer than two points, so the call raises for
      fewer than two records; otherwise it reports the names, both extrema
      with their berries, and the number of growth times. */
  method ProcessBerryData(berries: seq<Berry>) returns (r: Outcome<Summary>)
    ensures r.Raised? <==> |berries| < 2
    ensures r.Raised? ==> r.error == StatisticsError
    ensures r.Ok? ==> r.value.frequency == |berries|
    ensures r.Ok? ==> |r.value.names| == |berries| && forall i :: 0 <= i < |berries| ==> r.value.names[i] == berries[i].name
    ensures r.Ok? ==> exists k :: IsFirstMinimum(berries, k) && r.value.minTime == berries[k].growthTime && r.value.minBerry == berries[k].name
    ensures r.Ok? ==> exists k :: IsFirstMaximum(berries, k) && r.value.maxTime == berries[k].growthTime && r.value.maxBerry == berries[k].name
  {
    var x := ExtractGrowthData(berries);
    if |x.growthTimes| < 2 {
      return Raised(StatisticsError);
    }
    r := Ok(Summary(x.names, x.minTime.hours, x.minBerry, x.maxTime.hours, x.maxBerry, |x.growthTimes|));
  }

  /** The three records of the unit test: the minimum 5 belongs to berry2,
      the maximum 10 to berry1, and the names keep their order. */
  method ProcessTestBerries() returns (r: Outcome<Summary>)
    ensures r.Ok?
    ensures r.value.names == ["berry1", "berry2", "berry3"]
    ensures r.value.minTime == 5 && r.value.minBerry == "berry2"
    ensures r.value.maxTime == 10 && r.value.maxBerry == "berry1"
    ensures r.value.frequency == 3
  {
    var berries := [Berry("berry1", 10), Berry("berry2", 5), Berry("berry3", 7)];
    r := ProcessBerryData(berries);
    ghost var k :| IsFirstMinimum(berries, k) && r.value.minTime == berries[k].growthTime && r.value.minBerry == berries[k].name;
    assert berries[k].growthTime <= berries[1].growthTime;
    ghost var m :| IsFirstMaximum(berries, m) && r.value.maxTime == berries[m].growthTime && r.value.maxBerry == berries[m].name;
    assert berries[m].growthTime >= berries[0].growthTime;
    assert r.value.names == ["berry1", "berry2", "berry3"];
  }
}
