/**
 * The bookkeeping of `HealthStoreHelper` around its health-data queries:
 * per-day maps built from query results, the `massResults` and
 * `energyResults` they feed, the once-only "did execute" flags of the two
 * observer callbacks, and `convertAll`, which turns the two maps into one
 * record per day. The queries themselves are not modelled; their results
 * arrive as the arguments of the handler methods.
 */
module HealthStore {
  import opened Wrappers
  import opened Days

  type Uuid = nat

  /** A health quantity, in the canonical unit of its type; unit conversion is not modelled. */
  datatype Quantity = Quantity(amount: real)

  /** The opaque position from which an anchored query resumes. */
  datatype QueryAnchor = QueryAnchor(token: nat)

  /** A sample delivered by the anchored mass query; `quantity` is `None` when it is not a quantity sample. */
  datatype Sample = Sample(uuid: Uuid, startDate: Instant, quantity: Option<Quantity>)

  /** A quantity sample, the value type of `massResults`. */
  datatype QuantitySample = QuantitySample(uuid: Uuid, startDate: Instant, quantity: Quantity)

  /** A deletion delivered by the anchored mass query. */
  datatype DeletedObject = DeletedObject(uuid: Uuid)

  /** One interval of the energy statistics collection, with its cumulative sum if there is one. */
  datatype Statistics = Statistics(startDate: Instant, sumQuantity: Option<Quantity>)

  /** What `convertAll` hands to `convert` for one day: the date and the optional mass and energy. */
  datatype DailyData = DailyData(date: Day, mass: Option<Quantity>, energy: Option<Quantity>)

  /** The `didProcessValues` closure of the anchored mass query that is currently executing. */
  datatype MassProcessing = NoMassProcessing | RemoveDeletedThenMerge | ReplaceMass

  /** The `didProcessValues` closure of the statistics query that is currently executing. */
  datatype EnergyProcessing = NoEnergyProcessing | ReplaceEnergy

  /** `sample as? HKQuantitySample`. */
  function AsQuantitySample(s: Sample): (r: Option<QuantitySample>)
    ensures r.Some? <==> s.quantity.Some?
    ensures r.Some? ==> r.value.uuid == s.uuid && r.value.startDate == s.startDate && r.value.quantity == s.quantity.value
  {
    match s.quantity
    case Some(q) => Some(QuantitySample(s.uuid, s.startDate, q))
    case None => None
  }

  /**
   * The map `values` built by the anchored query's handler: each sample in
   * turn is stored under its start of day, so a later sample of the same day
   * overwrites an earlier one; assigning a failed cast removes the day.
   */
  function SamplesPerDay(samples: seq<Sample>): (values: map<Day, QuantitySample>)
    ensures forall d :: d in values ==>
      exists i :: 0 <= i < |samples| && StartOfDay(samples[i].startDate) == d && AsQuantitySample(samples[i]) == Some(values[d])
    decreases |samples|
  {
    if samples == [] then map[]
    else
      var prior := SamplesPerDay(samples[..|samples| - 1]);
      var last := samples[|samples| - 1];
      match AsQuantitySample(last)
      case Some(q) => prior[StartOfDay(last.startDate) := q]
      case None => prior - {StartOfDay(last.startDate)}
  }

  /** Reference definition: the index of the last sample that starts on day `d`. */
  function LastSampleOnDay(samples: seq<Sample>, d: Day): (r: Option<nat>)
    ensures r.Some? ==> r.value < |samples| && StartOfDay(samples[r.value].startDate) == d
    ensures r.Some? ==> forall j :: r.value < j < |samples| ==> StartOfDay(samples[j].startDate) != d
    ensures r.None? ==> forall j :: 0 <= j < |samples| ==> StartOfDay(samples[j].startDate) != d
    decreases |samples|
  {
    if samples == [] then None
    else if StartOfDay(samples[|samples| - 1].startDate) == d then Some(|samples| - 1)
    else LastSampleOnDay(samples[..|samples| - 1], d)
  }

  /**
   * The per-day map holds a day exactly when the last sample starting that
   * day is a quantity sample, and then it holds that sample.
   */
  lemma {:induction false} SamplesPerDayLastWins(samples: seq<Sample>, d: Day)
    ensures var values := SamplesPerDay(samples);
      match LastSampleOnDay(samples, d)
      case None => d !in values
      case Some(i) => (d in values <==> samples[i].quantity.Some?) && (d in values ==> Some(values[d]) == AsQuantitySample(samples[i]))
    decreases |samples|
  {
    if samples != [] {
      SamplesPerDayLastWins(samples[..|samples| - 1], d);
      var prefix := samples[..|samples| - 1];
      if StartOfDay(samples[|samples| - 1].startDate) != d {
        assert forall j :: 0 <= j < |prefix| ==> prefix[j] == samples[j];
      }
    }
  }

  /**
   * The map `caloriesPerDate` built from the enumerated statistics: every
   * interval with a sum is stored under its start of day, later ones winning;
   * an interval without a sum is skipped.
   */
  function EnergyPerDay(statistics: seq<Statistics>): (calories: map<Day, Quantity>)
    ensures forall d :: d in calories ==>
      exists i :: 0 <= i < |statistics| && StartOfDay(statistics[i].startDate) == d && statistics[i].sumQuantity == Some(calories[d])
    decreases |statistics|
  {
    if statistics == [] then map[]
    else
      var prior := EnergyPerDay(statistics[..|statistics| - 1]);
      var last := statistics[|statistics| - 1];
      match last.sumQuantity
      case Some(q) => prior[StartOfDay(last.startDate) := q]
      case None => prior
  }

  /** Reference definition: the index of the last interval starting on day `d` that has a sum. */
  function LastSumOnDay(statistics: seq<Statistics>, d: Day): (r: Option<nat>)
    ensures r.Some? ==> r.value < |statistics| && StartOfDay(statistics[r.value].startDate) == d
    ensures r.Some? ==> statistics[r.value].sumQuantity.Some?
    ensures r.Some? ==>
      forall j :: r.value < j < |statistics| && StartOfDay(statistics[j].startDate) == d ==> statistics[j].sumQuantity.None?
    ensures r.None? ==>
      forall j :: 0 <= j < |statistics| && StartOfDay(statistics[j].startDate) == d ==> statistics[j].sumQuantity.None?
    decreases |statistics|
  {
    if statistics == [] then None
    else
      var last := statistics[|statistics| - 1];
      if StartOfDay(last.startDate) == d && last.sumQuantity.Some? then Some(|statistics| - 1)
      else LastSumOnDay(statistics[..|statistics| - 1], d)
  }

  /**
   * The energy map holds exactly the days that have an interval with a sum,
   * and for each the sum of the last such interval.
   */
  lemma {:induction false} EnergyPerDayLastWins(statistics: seq<Statistics>, d: Day)
    ensures var calories := EnergyPerDay(statistics);
      match LastSumOnDay(statistics, d)
      case None => d !in calories
      case Some(i) => d in calories && calories[d] == statistics[i].sumQuantity.value
    decreases |statistics|
  {
    if statistics != [] {
      EnergyPerDayLastWins(statistics[..|statistics| - 1], d);
    }
  }

  /** `deletions.contains(where: { $0.uuid == uuid })`. */
  function IsDeleted(deletions: seq<DeletedObject>, uuid: Uuid): (r: bool)
    ensures r <==> exists k :: 0 <= k < |deletions| && deletions[k].uuid == uuid
    decreases |deletions|
  {
    deletions != [] && (deletions[0].uuid == uuid || IsDeleted(deletions[1..], uuid))
  }

  /** `massResults.filter`: drop every entry whose sample was deleted. */
  function WithoutDeleted(results: map<Day, QuantitySample>, deletions: seq<DeletedObject>): (r: map<Day, QuantitySample>)
    ensures forall d :: d in r <==> d in results && !IsDeleted(deletions, results[d].uuid)
    ensures forall d :: d in r ==> r[d] == results[d]
  {
    map d | d in results && !IsDeleted(deletions, results[d].uuid) :: results[d]
  }

  /** `existing.merge(incoming) { first, _ in first }`: existing values win a conflict. */
  function MergeKeepingExisting(existing: map<Day, QuantitySample>, incoming: map<Day, QuantitySample>): (r: map<Day, QuantitySample>)
    ensures r.Keys == existing.Keys + incoming.Keys
    ensures forall d :: d in existing ==> r[d] == existing[d]
    ensures forall d :: d in incoming && d !in existing ==> r[d] == incoming[d]
  {
    incoming + existing
  }

  /** The new `massResults` once the current anchored query's closure has processed `values`. */
  function ProcessMassValues(processing: MassProcessing, massResults: map<Day, QuantitySample>,
                             values: map<Day, QuantitySample>, deletions: seq<DeletedObject>): (r: map<Day, QuantitySample>)
    ensures processing == NoMassProcessing ==> r == massResults
    ensures processing != NoMassProcessing ==> values.Keys <= r.Keys
    ensures forall d :: d in r ==> (d in values && r[d] == values[d]) || (d in massResults && r[d] == massResults[d])
  {
    match processing
    case NoMassProcessing => massResults
    case RemoveDeletedThenMerge => MergeKeepingExisting(WithoutDeleted(massResults, deletions), values)
    case ReplaceMass => values
  }

  /**
   * After the first mass callback, an old entry survives only if its sample
   * was not deleted and keeps its value; a day only the new results have is
   * added; nothing else appears.
   */
  lemma FirstMassUpdateFiltersThenMerges(massResults: map<Day, QuantitySample>,
                                         values: map<Day, QuantitySample>, deletions: seq<DeletedObject>, d: Day)
    ensures var r := ProcessMassValues(RemoveDeletedThenMerge, massResults, values, deletions);
      && (d in massResults && IsDeleted(deletions, massResults[d].uuid) && d !in values ==> d !in r)
      && (d in massResults && !IsDeleted(deletions, massResults[d].uuid) ==> r[d] == massResults[d])
      && (d in values && (d !in massResults || IsDeleted(deletions, massResults[d].uuid)) ==> r[d] == values[d])
      && (d in r <==> d in values || (d in massResults && !IsDeleted(deletions, massResults[d].uuid)))
  {
  }

  /**
   * On later mass callbacks the per-day map of the delivered samples replaces
   * `massResults` wholesale: a day is kept exactly when its last delivered
   * sample is a quantity sample, with that sample, whatever was there before.
   */
  lemma LaterMassUpdateReplaces(massResults: map<Day, QuantitySample>,
                                samples: seq<Sample>, deletions: seq<DeletedObject>, d: Day)
    ensures var r := ProcessMassValues(ReplaceMass, massResults, SamplesPerDay(samples), deletions);
      && r == SamplesPerDay(samples)
      && match LastSampleOnDay(samples, d)
         case None => d !in r
         case Some(i) => (d in r <==> samples[i].quantity.Some?) && (d in r ==> Some(r[d]) == AsQuantitySample(samples[i]))
  {
    SamplesPerDayLastWins(samples, d);
  }

  /** Every non-empty set of days has a least element. */
  lemma {:induction false} HasMinimum(days: set<Day>)
    requires days != {}
    ensures exists m :: m in days && forall d :: d in days ==> m <= d
    decreases |days|
  {
    if forall x :: x !in days {
      assert false;
    }
    var x :| x in days;
    if days != {x} {
      var rest := days - {x};
      HasMinimum(rest);
      var m :| m in rest && forall d :: d in rest ==> m <= d;
      var least := if x < m then x else m;
      forall d | d in days
        ensures least <= d
      {
        if d != x {
          assert d in rest;
        }
      }
      assert least in days;
    } else {
      assert forall d :: d in days ==> x <= d;
    }
  }

  /** The least day of a non-empty set. */
  function MinDay(days: set<Day>): (m: Day)
    requires days != {}
    ensures m in days && forall d :: d in days ==> m <= d
  {
    HasMinimum(days);
    var m :| m in days && forall d :: d in days ==> m <= d;
    m
  }

  /** `Set.sorted()`: the days of a set in strictly ascending order. */
  function SortedDays(days: set<Day>): (r: seq<Day>)
    ensures forall i, j :: 0 <= i < j < |r| ==> r[i] < r[j]
    ensures forall d :: d in r <==> d in days
    ensures |r| == |days|
    decreases |days|
  {
    if days == {} then []
    else
      var m := MinDay(days);
      [m] + SortedDays(days - {m})
  }

  /** The tuple `(date, massValue, energyValue)` built for one day. */
  function DataForDay(date: Day, massResults: map<Day, QuantitySample>, energyResults: map<Day, Quantity>): (r: DailyData)
    ensures r.date == date
    ensures r.mass.Some? <==> date in massResults
    ensures r.mass.Some? ==> r.mass.value == massResults[date].quantity
    ensures r.energy.Some? <==> date in energyResults
    ensures r.energy.Some? ==> r.energy.value == energyResults[date]
  {
    DailyData(date,
              if date in massResults then Some(massResults[date].quantity) else None,
              if date in energyResults then Some(energyResults[date]) else None)
  }

  /** The records `convertAll` builds, one per date, in the order of `dates`. */
  function DataForDays(dates: seq<Day>, massResults: map<Day, QuantitySample>, energyResults: map<Day, Quantity>): (r: seq<DailyData>)
    ensures |r| == |dates| && forall i :: 0 <= i < |dates| ==> r[i].date == dates[i]
  {
    seq(|dates|, i requires 0 <= i < |dates| => DataForDay(dates[i], massResults, energyResults))
  }

  /**
   * `convertAll`: one record per day that either map has, in strictly
   * ascending date order (so no day twice).
   */
  function ConvertAll(massResults: map<Day, QuantitySample>, energyResults: map<Day, Quantity>): (r: seq<DailyData>)
    ensures |r| == |energyResults.Keys + massResults.Keys|
    ensures forall i, j :: 0 <= i < j < |r| ==> r[i].date < r[j].date
    ensures forall i :: 0 <= i < |r| ==> r[i].date in massResults || r[i].date in energyResults
  {
    var dates := SortedDays(energyResults.Keys + massResults.Keys);
    DataForDays(dates, massResults, energyResults)
  }

  /** Every day of either map has a record in the output of `convertAll`. */
  lemma ConvertAllCoversEveryDay(massResults: map<Day, QuantitySample>, energyResults: map<Day, Quantity>, d: Day)
    requires d in massResults || d in energyResults
    ensures exists i :: 0 <= i < |ConvertAll(massResults, energyResults)| && ConvertAll(massResults, energyResults)[i].date == d
  {
    var dates := SortedDays(energyResults.Keys + massResults.Keys);
    var i :| 0 <= i < |dates| && dates[i] == d;
    assert ConvertAll(massResults, energyResults)[i].date == d;
  }

  /**
   * In each record of `convertAll`, mass is present exactly when the day has
   * a mass sample (and is that sample's quantity), and energy exactly when
   * the day has an energy sum (and is that sum).
   */
  lemma ConvertAllValues(massResults: map<Day, QuantitySample>, energyResults: map<Day, Quantity>)
    ensures var r := ConvertAll(massResults, energyResults);
      forall i :: 0 <= i < |r| ==>
        && (r[i].mass.Some? <==> r[i].date in massResults)
        && (r[i].date in massResults ==> r[i].mass.value == massResults[r[i].date].quantity)
        && (r[i].energy.Some? <==> r[i].date in energyResults)
        && (r[i].date in energyResults ==> r[i].energy.value == energyResults[r[i].date])
  {
  }

  class HealthStoreHelper {
    var didExecuteAnchoredQuery: bool
    var didExecuteStatisticsQuery: bool
    var anchor: Option<QueryAnchor>
    var energyResults: map<Day, Quantity>
    var massResults: map<Day, QuantitySample>
    var massProcessing: MassProcessing
    var energyProcessing: EnergyProcessing

    /**
     * Each flag agrees with the closure its current query carries: until the
     * first mass callback the anchored query has none, and after it always
     * one; until the first energy callback the statistics query has none.
     */
    ghost predicate Valid()
      reads this
    {
      && (!didExecuteAnchoredQuery ==> massProcessing == NoMassProcessing)
      && (didExecuteAnchoredQuery ==> massProcessing != NoMassProcessing)
      && (!didExecuteStatisticsQuery ==> energyProcessing == NoEnergyProcessing)
    }

    constructor ()
      ensures Valid()
      ensures !didExecuteAnchoredQuery && !didExecuteStatisticsQuery && anchor == None
      ensures energyResults == map[] && massResults == map[]
      ensures massProcessing == NoMassProcessing && energyProcessing == NoEnergyProcessing
    {
      didExecuteAnchoredQuery := false;
      didExecuteStatisticsQuery := false;
      anchor := None;
      energyResults := map[];
      massResults := map[];
      massProcessing := NoMassProcessing;
      energyProcessing := NoEnergyProcessing;
    }

    /**
     * The mass observer callback: the first one starts an anchored query
     * that removes deleted samples and merges; every later one replaces it
     * by a query whose results replace `massResults`.
     */
    method MassObserverCallback()
      requires Valid()
      modifies this
      ensures Valid()
      ensures didExecuteAnchoredQuery
      ensures massProcessing == if old(didExecuteAnchoredQuery) then ReplaceMass else RemoveDeletedThenMerge
      ensures didExecuteStatisticsQuery == old(didExecuteStatisticsQuery) && energyProcessing == old(energyProcessing)
      ensures anchor == old(anchor) && massResults == old(massResults) && energyResults == old(energyResults)
    {
      if !didExecuteAnchoredQuery {
        massProcessing := RemoveDeletedThenMerge;
        didExecuteAnchoredQuery := true;
      } else {
        massProcessing := ReplaceMass;
      }
    }

    /**
     * The energy observer callback: the first one executes the lazily made
     * statistics query, which has no closure and keeps none until the
     * second; every later one replaces it by a query whose results replace
     * `energyResults`.
     */
    method EnergyObserverCallback()
      requires Valid()
      modifies this
      ensures Valid()
      ensures didExecuteStatisticsQuery
      ensures energyProcessing == if old(didExecuteStatisticsQuery) then ReplaceEnergy else NoEnergyProcessing
      ensures didExecuteAnchoredQuery == old(didExecuteAnchoredQuery) && massProcessing == old(massProcessing)
      ensures anchor == old(anchor) && massResults == old(massResults) && energyResults == old(energyResults)
    {
      if !didExecuteStatisticsQuery {
        didExecuteStatisticsQuery := true;
      } else {
        energyProcessing := ReplaceEnergy;
      }
    }

    /**
     * The anchored query's results and update handler: without samples or
     * deletions nothing changes; otherwise the anchor advances, the samples
     * are collected per day and the current closure processes them.
     */
    method AnchorUpdateHandler(samples: Option<seq<Sample>>, deletions: Option<seq<DeletedObject>>, newAnchor: Option<QueryAnchor>)
      requires Valid()
      modifies this
      ensures Valid()
      ensures samples.None? || deletions.None? ==> anchor == old(anchor) && massResults == old(massResults)
      ensures samples.Some? && deletions.Some? ==> anchor == newAnchor
      ensures samples.Some? && deletions.Some? ==>
        massResults == ProcessMassValues(massProcessing, old(massResults), SamplesPerDay(samples.value), deletions.value)
      ensures samples.Some? && deletions.Some? && massProcessing == ReplaceMass ==>
        massResults == SamplesPerDay(samples.value)
      ensures samples.Some? && deletions.Some? && massProcessing == RemoveDeletedThenMerge ==>
        massResults == MergeKeepingExisting(WithoutDeleted(old(massResults), deletions.value), SamplesPerDay(samples.value))
      ensures didExecuteAnchoredQuery == old(didExecuteAnchoredQuery) && massProcessing == old(massProcessing)
      ensures didExecuteStatisticsQuery == old(didExecuteStatisticsQuery) && energyProcessing == old(energyProcessing)
      ensures energyResults == old(energyResults)
    {
      if samples.None? || deletions.None? {
        return;
      }
      var all := samples.value;
      anchor := newAnchor;
      var values: map<Day, QuantitySample> := map[];
      for i := 0 to |all|
        invariant values == SamplesPerDay(all[..i])
      {
        assert all[..i + 1][..i] == all[..i];
        var day := StartOfDay(all[i].startDate);
        match AsQuantitySample(all[i])
        case Some(q) =>
          values := values[day := q];
        case None =>
          values := values - {day};
      }
      assert all[..|all|] == all;
      match massProcessing
      case NoMassProcessing =>
      case RemoveDeletedThenMerge =>
        massResults := MergeKeepingExisting(WithoutDeleted(massResults, deletions.value), values);
      case ReplaceMass =>
        massResults := values;
    }

    /**
     * The statistics query's initial results handler. `statistics` is the
     * collection (`None` when there are no results) and `enumerated` what
     * enumerating it over the last three months yields. Nothing changes
     * without results or with an empty collection.
     */
    method StatisticsResultsHandler(statistics: Option<seq<Statistics>>, enumerated: seq<Statistics>)
      requires Valid()
      modifies this
      ensures Valid()
      ensures (statistics.None? || statistics.value == [] || energyProcessing == NoEnergyProcessing)
        ==> energyResults == old(energyResults)
      ensures statistics.Some? && statistics.value != [] && energyProcessing == ReplaceEnergy
        ==> energyResults == EnergyPerDay(enumerated)
      ensures didExecuteAnchoredQuery == old(didExecuteAnchoredQuery) && massProcessing == old(massProcessing)
      ensures didExecuteStatisticsQuery == old(didExecuteStatisticsQuery) && energyProcessing == old(energyProcessing)
      ensures anchor == old(anchor) && massResults == old(massResults)
    {
      if statistics.None? || statistics.value == [] {
        return;
      }
      var caloriesPerDate: map<Day, Quantity> := map[];
      for i := 0 to |enumerated|
        invariant caloriesPerDate == EnergyPerDay(enumerated[..i])
      {
        assert enumerated[..i + 1][..i] == enumerated[..i];
        if enumerated[i].sumQuantity.Some? {
          caloriesPerDate := caloriesPerDate[StartOfDay(enumerated[i].startDate) := enumerated[i].sumQuantity.value];
        }
      }
      assert enumerated[..|enumerated|] == enumerated;
      match energyProcessing
      case NoEnergyProcessing =>
      case ReplaceEnergy =>
        energyResults := caloriesPerDate;
    }
  }
}
