# Last-location timing page, modelled in Dafny

The page fetches the caller's last known location from a backend on each
click of "Get Last Location". It records when each fetch started, the
address it returned and how long it took. It shows the recorded list with
the fastest, slowest and average execution time. This project models the
two pieces of logic in `src/App.tsx`:

- `records.dfy` (module `Records`): the `Result` record, its `Address`, and
  the two seed records the page starts with.
- `statistics.dfy` (module `Statistics`): `calculateStats` as pure functions.
  `Min`, `Max` and `Sum` are left folds, as `Math.min(...)`, `Math.max(...)`
  and `reduce` compute them. The average is an exact `real`.
- `tracker.dfy` (module `Tracker`): the page state as the class
  `ResultTracker`, with fields `results` and `isLoading`. The click handler is
  split at its one suspension point. `BeginFetch` sets loading, reads the clock
  and captures the list. `SettleFetch` records the fetch's outcome and clears
  loading. `HandleOnClick` runs the two back to back. The pure functions
  `Settled` and `Click` specify the new list. `Replay` applies a series of
  non-overlapping clicks.

The wall clock (`Date.now()`) is a parameter: each reading is an integer
argument. The backend call is a parameter too: its outcome is the value
`Success(address, endTime)` or `Failure`. The handler builds the new list from
the `results` it captured when it started, so `Settled` appends to that
snapshot. `SettleFetch` proves that, when the snapshot is the current list
(one fetch in flight), the outcome is exactly `Click`.

## Model

| member | source | states |
|---|---|---|
| `Records.InitialResults` | src/App.tsx:17-34 | the seed list has two records: 5th Ave, Random City, 900 ms, stamped with the first clock reading; then Main Road, New Town, 400 ms, stamped 2000 ms after the second reading |
| `Records.TimesAppend` | src/App.tsx:65 | the execution times of a list with one more record are the old times followed by that record's time |
| `Records.Times` | src/App.tsx:65 | reference definition with no contract of its own: the execution times of the list, one per record, in the list's order, as `results.map(result => result.executionTime)` gives them |
| `Statistics.Min` | src/App.tsx:66 | for a non-empty list of times, the result is one of the times and no time is smaller |
| `Statistics.Max` | src/App.tsx:67 | for a non-empty list of times, the result is one of the times and no time is larger |
| `Statistics.CalculateStats` | src/App.tsx:62-71 | an empty list gives {0, 0, 0}; otherwise `fastest` is one of the execution times and no larger than any of them, `slowest` is one of them and no smaller than any, and `average` is the sum of the times divided by their count |
| `Statistics.Sum` | src/App.tsx:68 | reference definition with no contract of its own: the sum of the times, accumulated left to right from 0, as `times.reduce((a, b) => a + b, 0)` computes it |
| `Statistics.SumBounds` | src/App.tsx:68 | when every time lies between two bounds, the sum lies between the count times each bound |
| `Statistics.AverageBetween` | src/App.tsx:65-68 | for a non-empty list, fastest <= average <= slowest |
| `Statistics.SumAppend` | src/App.tsx:68 | the running sum of one more time is the old sum plus that time |
| `Statistics.ExtremesAfterAppend` | src/App.tsx:65-67 | appending a record to a non-empty list makes the fastest the smaller of the old fastest and the new time, and the slowest the larger of the old slowest and the new time |
| `Statistics.AverageAfterAppend` | src/App.tsx:68 | appending a record to a non-empty list makes the new average times the new count equal the old average times the old count plus the new time |
| `Statistics.StatsOfSingleton` | src/App.tsx:63-68 | a list of one record has that record's time as fastest, slowest and average |
| `Statistics.InitialStats` | src/App.tsx:17-34 | the seed list has statistics {400, 900, 650} whatever the clock readings were |
| `Tracker.NewResult` | src/App.tsx:43-52 | the new record carries the start time and the returned address; start time plus execution time is the end time; the time is non-negative when the end time is not before the start |
| `Tracker.Settled` | src/App.tsx:54-56 | on success, the result is the captured snapshot followed by exactly one new record built from the start time, the address and the elapsed time; on failure, the current list is unchanged |
| `Tracker.Click` | src/App.tsx:40-60 | a successful click adds exactly one record at the end, with timestamp = start, the returned address and executionTime = end - start, and keeps every earlier record; a failed click leaves the list unchanged |
| `Tracker.Replay` | src/App.tsx:40-60 | reference definition with no contract of its own: the list after a series of clicks, each one run by the handler after the previous one settled, applying `Click` to each in turn |
| `Tracker.Successes` | src/App.tsx:40-60 | reference definition with no contract of its own: how many clicks of a series had a fetch that resolved, that is, how many of them take the handler's success path |
| `Tracker.ReplayAppendOnly` | src/App.tsx:54 | after any series of non-overlapping clicks, the old list is a prefix of the new one and the new one is longer by the number of successes; with no success the list is unchanged |
| `Tracker.ClickStats` | src/App.tsx:46-71 | for any clock readings, the new statistics are the old ones updated by the added record's time (fastest, slowest, and the total behind the average); when the clock did not go backwards, that time is non-negative |
| `Tracker.SeedScenarios` | src/App.tsx:17-60 | from the seed list, a fetch resolving with Oak St, Springfield after 250 ms gives three records, the last with that address and 250 ms; a rejected fetch leaves the two seed records |
| `Tracker.ResultTracker.constructor` | src/App.tsx:37-38 | the initial state is the seed list with loading false, and its statistics are {400, 900, 650} |
| `Tracker.ResultTracker.BeginFetch` | src/App.tsx:42-45 | loading becomes true while the fetch is pending; the list is unchanged; the handler keeps the start time and the list as it stood |
| `Tracker.ResultTracker.SettleFetch` | src/App.tsx:46-58 | loading is false afterwards on both paths; the list becomes what `Settled` gives, which is `Click` of the old list when the captured list is the current one |
| `Tracker.ResultTracker.HandleOnClick` | src/App.tsx:40-60 | after a whole click, loading is false and the list is `Click` of the old list, on success and on failure alike |

## Left out

- Rendering: the button and its `disabled` attribute, the table and the CSS. They only map the state to markup.
- `fetchLastLocation`: it is a foreign asynchronous call. Only its outcome is modelled, as a parameter.
- `Date.now()`: each reading is an integer parameter. Nothing makes the end reading at least the start reading, so non-negative times are stated only under `endTime >= now`.
- `console.error` on a failed fetch: it is a diagnostic side effect and changes no state.
- `useMemo` caching and React's render and closure mechanics: the statistics are a function of the current list.
- Overlapping clicks: the model keeps the captured-list semantics in `Settled`, but no lemma describes interleavings. The source relies on the disabled button to prevent them.
- `Min` and `Max` always return the minimum and maximum. `Math.min(...times)` and `Math.max(...times)` spread the whole list into arguments, and a JavaScript engine throws a RangeError once the list is longer than its argument limit. That failure for very long lists is not modelled.
- The average uses exact rational arithmetic. JavaScript's floating-point division is not modelled.
- Execution times and timestamps are unbounded integers. JavaScript number precision limits are not modelled.
