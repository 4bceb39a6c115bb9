# CalorieBurner core, modelled in Dafny

CalorieBurner is an iOS app that records a body mass and a dietary energy
intake per day. This project models its three pieces of original logic:

- **The date-indexed cache** behind the calendar table
  (`DailyFetchedResultsController`, file `daily_fetched_results.dfy`). The
  days from `startingDate` to `endingDate`, both included, are laid out one
  per section, each in row 0. `dateCache` maps a day to its position. The
  controller keeps it in step with the persistence layer's change
  notifications: inserts are cached, then updates, then deletions are
  evicted. It also fills it from a fetch. The declared `objectCache`
  (position to record) is never created, so every write to it is lost and
  `object(at:)` always answers nothing. The model keeps that as it is. The
  central invariant (`Valid`, built on `Coherent`) is that every cached
  entry is an in-bounds day mapped to the position the lookup would compute
  anyway. So a date lookup does not depend on what is cached
  (`LookupIgnoresCache`).
- **The health-results bookkeeping** of `HealthStoreHelper`
  (`health_store.dfy`). The anchored mass query collects its samples per
  start of day, and a later sample of a day overwrites an earlier one. The
  statistics query collects per-day energy sums. The first mass observer
  callback starts a query that drops entries whose sample was deleted and
  then merges, keeping existing values. Every later callback starts a query
  whose results replace `massResults` wholesale. `convertAll` turns the two
  maps into one `(date, mass?, energy?)` record per day, in ascending date
  order.
- **The onboarding page navigation** (`onboarding.dfy`): the page before
  and the page after a given page, with nothing at either end and nothing
  for an unknown page. The source's `abs((i ± 1) % count)` is modelled with
  Swift's truncating `%`. The contracts of `PageBefore` and `PageAfter`
  show it never wraps, because the guards exclude the ends.

Dates are integer day numbers (midnight-normalised, module `Days`). The
start dates of samples and statistics are instants in seconds, and
`StartOfDay` maps them to day numbers. The library's "whole days between"
is subtraction. Records, samples and pages are values: a `Daily` carries
an identity and its `created` day, and a sample carries its uuid.

Behaviours of the code the model keeps as written:

- The deletion loop matches a record by its current `created` date, not by
  identity (`EvictEach`,
  CalorieBurner/DailyFetchedResultsController.swift:84-88). An entry left
  behind for a record whose date changed still maps its day to that day's
  computed position. So it cannot make a date lookup wrong.
- The position-to-record lookup never finds anything, because
  `objectCache` is never created
  (CalorieBurner/DailyFetchedResultsController.swift:24,40,125-127).
- The first energy observer callback executes the lazily created
  statistics query. That query has no processing closure. So
  `energyResults` is first filled only after the second energy callback.
- A later mass callback replaces `massResults` with the new query's results
  (`LaterMassUpdateReplaces`).

Two consequences of the code, read from it and proved about the model:

- `numberOfSections` is the whole-day difference between the two bounds,
  but the in-bounds days run from the start to the end inclusive. So on a
  valid controller the ending date's section equals the section count
  (`NumberOfSections`), one past the last section index
  (CalorieBurner/DailyFetchedResultsController.swift:33 against :110,115).
- Every anchored query after the first is built with the stored `anchor`
  (CalorieBurner/HealthKit/HealthStoreHelper.swift:219). If the framework
  then delivers only the samples newer than the anchor, the wholesale
  replacement at :121 drops the days delivered earlier. The model states
  the replacement itself (`LaterMassUpdateReplaces`); what the framework
  delivers for an anchor is not part of this model.

## Model

| member | source | states |
|---|---|---|
| Days.DaysBetween | CalorieBurner/DailyFetchedResultsController.swift:115 | the whole days from one midnight to another: counting that many days forward from the first reaches the second, and it is negative exactly when the second is earlier |
| Days.StartOfDay | CalorieBurner/HealthKit/HealthStoreHelper.swift:209 | the day returned contains the instant: it starts at or before it and ends after it |
| DailyFetchedResults.CacheDate | CalorieBurner/DailyFetchedResultsController.swift:103-107 | caching an out-of-bounds day leaves the cache unchanged; an in-bounds day gains its computed position; no other day's entry changes |
| DailyFetchedResults.CacheDays | CalorieBurner/DailyFetchedResultsController.swift:65-79 | after caching a batch, the cache holds its old days plus exactly the batch's in-bounds days; every new entry comes from the batch |
| DailyFetchedResults.EvictDays | CalorieBurner/DailyFetchedResultsController.swift:81-89 | the deleted records' days are removed; every other entry keeps its value |
| DailyFetchedResults.ApplyChanges | CalorieBurner/DailyFetchedResultsController.swift:62-89 | without `userInfo` nothing changes; otherwise a day is cached afterwards exactly when no deleted record has it and it was cached before or an inserted or updated record has it in bounds; such a day holds its computed position, every other kept day its old entry |
| DailyFetchedResults.EmptyBatch | CalorieBurner/DailyFetchedResultsController.swift:65-67 | an empty batch changes nothing, so skipping empty sets (the `count > 0` guards) agrees with processing them |
| DailyFetchedResults.CacheDaysStep | CalorieBurner/DailyFetchedResultsController.swift:68-70 | caching one more record extends the batch by its day, so the loop's result does not depend on iteration order |
| DailyFetchedResults.CacheDaysCoherent | CalorieBurner/DailyFetchedResultsController.swift:103-107 | caching keeps every entry equal to its computed position |
| DailyFetchedResults.CacheDateIdempotent | CalorieBurner/DailyFetchedResultsController.swift:103-107 | caching the same record twice equals caching it once |
| DailyFetchedResults.CachedEntriesAreComputed | CalorieBurner/DailyFetchedResultsController.swift:62-89 | any change notification keeps the cache coherent |
| DailyFetchedResults.InsertedAndDeletedIsUncached | CalorieBurner/DailyFetchedResultsController.swift:62-89 | a record in both the inserted and the deleted set ends up uncached, because deletions run last |
| DailyFetchedResults.UntouchedDaysUnchanged | CalorieBurner/DailyFetchedResultsController.swift:62-89 | a day that no inserted, updated or deleted record has keeps its entry or its absence |
| DailyFetchedResults.DeletionEvictsOnlyItsDay | CalorieBurner/DailyFetchedResultsController.swift:81-89 | deleting a record removes only its day's entry; with no entry for that day, the cache is unchanged |
| DailyFetchedResults.LookupIgnoresCache | CalorieBurner/DailyFetchedResultsController.swift:109-123 | on a valid controller, the date lookup equals the cache-free reference: nothing out of bounds, otherwise row 0 and the day's offset from the start |
| DailyFetchedResults.DailyFetchedResultsController.constructor | CalorieBurner/DailyFetchedResultsController.swift:35-52 | only `dateCache` is created (empty); `objectCache` and `objects` stay absent; the bounds are stored |
| DailyFetchedResults.DailyFetchedResultsController.NumberOfSections | CalorieBurner/DailyFetchedResultsController.swift:33 | the section count is the whole-day difference from the start to the end (negative when the bounds are reversed); every in-bounds day's section lies between 0 and it; the ending date's section equals it |
| DailyFetchedResults.DailyFetchedResultsController.IndexPathForDate | CalorieBurner/DailyFetchedResultsController.swift:109-123 | nothing for a date before the start or after the end (both bounds included); an uncached in-bounds date gets row 0, section = days since start; on a valid controller, the answer is the cache-free reference |
| DailyFetchedResults.DailyFetchedResultsController.ObjectAt | CalorieBurner/DailyFetchedResultsController.swift:125-127 | with `objectCache` absent, which it always is, the answer is nothing for every position |
| DailyFetchedResults.DailyFetchedResultsController.IndexPathForObject | CalorieBurner/DailyFetchedResultsController.swift:129-138 | answers exactly when the record's day is cached, never computing, for any record (the in-bounds assert is not needed for the answer); on a valid controller a cached answer agrees with the date lookup |
| DailyFetchedResults.DailyFetchedResultsController.Cache | CalorieBurner/DailyFetchedResultsController.swift:103-107 | the new `dateCache` is one cache step on the old one; `objectCache` stays absent; the invariant is kept |
| DailyFetchedResults.DailyFetchedResultsController.CacheEach | CalorieBurner/DailyFetchedResultsController.swift:68-70 | caching every record of a set, in any order, yields the batch result |
| DailyFetchedResults.DailyFetchedResultsController.EvictEach | CalorieBurner/DailyFetchedResultsController.swift:81-89 | the deletion loop removes exactly the deleted records' days from the cache |
| DailyFetchedResults.DailyFetchedResultsController.ManagedObjectContextDidChange | CalorieBurner/DailyFetchedResultsController.swift:62-90 | the new cache is inserts, then updates, then deletions applied to the old one; no `userInfo` changes nothing; the invariant is kept |
| DailyFetchedResults.DailyFetchedResultsController.PerformFetch | CalorieBurner/DailyFetchedResultsController.swift:92-101 | a fetch error is rethrown and nothing changes; otherwise `objects` is the fetched list and each record's in-bounds day is cached |
| HealthStore.AsQuantitySample | CalorieBurner/HealthKit/HealthStoreHelper.swift:209 | the cast succeeds exactly for quantity samples and keeps uuid, start date and quantity |
| HealthStore.SamplesPerDay | CalorieBurner/HealthKit/HealthStoreHelper.swift:207-210 | every entry of the per-day map is a delivered quantity sample starting on that day |
| HealthStore.LastSampleOnDay | CalorieBurner/HealthKit/HealthStoreHelper.swift:207-210 | reference definition: the index found starts on the day and no later sample does; with none found, no sample starts that day |
| HealthStore.SamplesPerDayLastWins | CalorieBurner/HealthKit/HealthStoreHelper.swift:207-210 | the per-day map, keyed by start of day, holds a day exactly when that day's last sample is a quantity sample, and then holds that sample (a later sample overwrites an earlier one) |
| HealthStore.EnergyPerDay | CalorieBurner/HealthKit/HealthStoreHelper.swift:184-189 | every entry of the energy map is the sum of an enumerated interval starting on that day |
| HealthStore.LastSumOnDay | CalorieBurner/HealthKit/HealthStoreHelper.swift:184-189 | reference definition: the interval found starts on the day and has a sum; no later one of that day does |
| HealthStore.EnergyPerDayLastWins | CalorieBurner/HealthKit/HealthStoreHelper.swift:182-189 | the energy map holds exactly the days that have an interval with a sum, keyed by start of day, with the last such sum |
| HealthStore.IsDeleted | CalorieBurner/HealthKit/HealthStoreHelper.swift:112 | the scan finds the uuid exactly when some deleted object carries it |
| HealthStore.WithoutDeleted | CalorieBurner/HealthKit/HealthStoreHelper.swift:111-113 | an entry survives exactly when its sample's uuid is not among the deletions, and keeps its value |
| HealthStore.MergeKeepingExisting | CalorieBurner/HealthKit/HealthStoreHelper.swift:114 | the keys are the union; on a conflict the existing value wins; new days take the incoming value |
| HealthStore.ProcessMassValues | CalorieBurner/HealthKit/HealthStoreHelper.swift:111-121 | with no closure `massResults` is unchanged; with either closure every newly delivered day is present; every resulting entry is either the delivered value or the old one |
| HealthStore.FirstMassUpdateFiltersThenMerges | CalorieBurner/HealthKit/HealthStoreHelper.swift:110-115 | after the first callback's query processes a batch: a deleted entry survives only if re-delivered, and a kept entry keeps its value; new days are added; no other day appears |
| HealthStore.LaterMassUpdateReplaces | CalorieBurner/HealthKit/HealthStoreHelper.swift:120-122 | on later callbacks `massResults` becomes the per-day map of the delivered samples, whatever it held before: a day is present exactly when its last delivered sample is a quantity sample, with that sample |
| HealthStore.SortedDays | CalorieBurner/HealthKit/HealthStoreHelper.swift:319-321 | the days of the set, each once, in strictly ascending order |
| HealthStore.DataForDay | CalorieBurner/HealthKit/HealthStoreHelper.swift:323-325 | the record for a day carries that day, a mass exactly when `massResults` has the day (its sample's quantity) and an energy exactly when `energyResults` has it (its sum) |
| HealthStore.DataForDays | CalorieBurner/HealthKit/HealthStoreHelper.swift:322-326 | one record per given date, in the given order |
| HealthStore.ConvertAll | CalorieBurner/HealthKit/HealthStoreHelper.swift:318-327 | as many records as days in the union of both maps' keys, in strictly ascending date order (no duplicates); every record's day is a key of one of the maps |
| HealthStore.ConvertAllCoversEveryDay | CalorieBurner/HealthKit/HealthStoreHelper.swift:319-322 | every day of either map has a record |
| HealthStore.ConvertAllValues | CalorieBurner/HealthKit/HealthStoreHelper.swift:323-325 | mass is present iff the day is a key of `massResults` (and is its sample's quantity); energy is present iff the day is a key of `energyResults` (and is its sum) |
| HealthStore.HealthStoreHelper.constructor | CalorieBurner/HealthKit/HealthStoreHelper.swift:40-68 | both flags false, no anchor, both maps empty, the lazy queries without processing closures |
| HealthStore.HealthStoreHelper.MassObserverCallback | CalorieBurner/HealthKit/HealthStoreHelper.swift:105-125 | the flag becomes true and stays so; the first callback installs filter-then-merge processing, every later one replacement; the maps are not touched |
| HealthStore.HealthStoreHelper.EnergyObserverCallback | CalorieBurner/HealthKit/HealthStoreHelper.swift:129-142 | the flag becomes true and stays so; the first callback runs the closure-less lazy query; later ones install replacement |
| HealthStore.HealthStoreHelper.AnchorUpdateHandler | CalorieBurner/HealthKit/HealthStoreHelper.swift:202-215 | without samples or deletions nothing changes (the anchor included); otherwise the anchor advances and `massResults` is the current processing applied to the per-day map of the samples: with replacement installed, exactly that map; with filter-then-merge, the old entries whose samples were not deleted merged with it, old values winning |
| HealthStore.HealthStoreHelper.StatisticsResultsHandler | CalorieBurner/HealthKit/HealthStoreHelper.swift:174-193 | no results or an empty collection change nothing; otherwise, with replacement installed, `energyResults` becomes the per-day sums of the enumerated intervals |
| Onboarding.IndexOf | CalorieBurner/OnboardingViewController.swift:37 | nothing iff the page is absent; otherwise the first position holding the page |
| Onboarding.SwiftRemainder | CalorieBurner/OnboardingViewController.swift:39 | Swift's truncating remainder: differs from the dividend by a multiple of the divisor, is smaller than the divisor in magnitude and has the dividend's sign (so it is the dividend itself when that is already in range) |
| Onboarding.PageBefore | CalorieBurner/OnboardingViewController.swift:36-41 | nothing iff the page is unknown or first; otherwise the page at the previous position (the remainder never wraps) |
| Onboarding.PageAfter | CalorieBurner/OnboardingViewController.swift:43-48 | nothing iff the page is unknown or at the last position; otherwise the page at the next position, with no wrap-around |
| Onboarding.PresentationIndex | CalorieBurner/OnboardingViewController.swift:50-52 | the number of pages, which is never a valid position among them |
| Onboarding.IndexOfDistinct | CalorieBurner/OnboardingViewController.swift:37 | with distinct pages, the page at position k is found at k |
| Onboarding.BeforeAfterRoundTrip | CalorieBurner/OnboardingViewController.swift:36-48 | with distinct pages, "before" of "after" of any non-last page is that page |
| Onboarding.AfterBeforeRoundTrip | CalorieBurner/OnboardingViewController.swift:36-48 | with distinct pages, "after" of "before" of any non-first page is that page |

## Left out

- HealthKit itself: authorization, query construction and execution, `stop`, background delivery, `writeData`, the step-count and average weight/height queries. These are asynchronous calls into a framework that is not part of this model. Query results arrive as arguments of the handler methods. The closure a running query carries is a field (`massProcessing`, `energyProcessing`).
- Concurrent delivery: HealthKit runs the observer and query handlers on its own queues, and nothing synchronises `massResults` and `energyResults` with `convertAll`. The model runs each handler to completion, one at a time.
- The `fatalError` on an observer error and the `abort` in the background-delivery completion: the app terminates there.
- The queries' `completion` callbacks: calls into the framework.
- `enumerateStatistics(from:to:)`: what it yields over the last three months is an input (`enumerated`). The window is computed from the clock, and the enumeration belongs to the framework.
- Unit conversions (`doubleValue(for:)` in kilograms and kilocalories) and floating point: quantities are opaque values.
- `convert(data:context:)`, `Daily(context:date:)` and `updateValues`: their source is not part of this model. `ConvertAll` returns the `(date, mass?, energy?)` tuples that `convert` would receive.
- `fetchUserProfile`: it returns a hard-coded mock, and its age arithmetic goes through the calendar.
- `NotificationCenter` registration, `deinit`, and the Core Data fetch itself: a fetch is given as its result (records or an error).
- `titleForSection`, `prettyDateFormatter` and the `print` calls: locale formatting and console output.
- Calendar arithmetic: time zones and daylight-saving shifts are not modelled; every day is 86400 seconds long.
- Records are values, not shared objects. A record whose `created` date changes appears as a value with the same `id` and a new day.
- The debug-build `assert` in `indexPath(for: Daily)` that the record's day is in bounds: the lookup is modelled for every record, as a release build runs it.
- `pages` is an implicitly unwrapped optional; reading it while nil traps. The model always has a sequence.
- The onboarding `viewDidLoad` (storyboard instantiation), `PageThreeViewController`, the monthly calendar view controller and the calendar data source: UI wiring and presentation.
