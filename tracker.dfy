/** The page's state: the list of recorded results and the loading flag, and
    the click handler that fetches the last location and records how long it
    took. The fetch itself and the wall clock are outside the model: the
    clock readings are parameters and the fetch's outcome is a value. */
module Tracker {
  import opened Records
  import opened Statistics

  /** How the location fetch settled: resolved with an address at clock
      reading `endTime`, or rejected. */
  datatype FetchOutcome = Success(address: Address, endTime: int) | Failure

  /** What the handler holds while the fetch is pending: the clock reading
      taken when it started and the list of results it saw then. */
  datatype PendingFetch = PendingFetch(timestamp: int, snapshot: seq<Result>)

  /** The record a successful fetch adds: stamped with the start time,
      carrying the returned address and the elapsed time. */
  function NewResult(timestamp: int, address: Address, endTime: int): (r: Result)
    ensures r.timestamp == timestamp && r.address == address
    ensures timestamp + r.executionTime == endTime
    ensures endTime >= timestamp ==> r.executionTime >= 0
  {
    Result(timestamp, address, endTime - timestamp)
  }

  /** The results once `pending` settles with `outcome`, when the list is
      `current` at that moment: on success, the snapshot taken at the start
      with the new record appended; on failure, `current` untouched. */
  function Settled(current: seq<Result>, pending: PendingFetch, outcome: FetchOutcome): (r: seq<Result>)
    ensures outcome.Failure? ==> r == current
    ensures outcome.Success? ==>
      |r| == |pending.snapshot| + 1 && r[..|pending.snapshot|] == pending.snapshot &&
      r[|pending.snapshot|] == NewResult(pending.timestamp, outcome.address, outcome.endTime)
  {
    match outcome
    case Failure => current
    case Success(address, endTime) => pending.snapshot + [NewResult(pending.timestamp, address, endTime)]
  }

  /** The results after one whole click on `results`, started at clock
      reading `now`: a success adds exactly one record at the end and keeps
      every earlier one; a failure changes nothing. */
  function Click(results: seq<Result>, now: int, outcome: FetchOutcome): (r: seq<Result>)
    ensures outcome.Failure? ==> r == results
    ensures outcome.Success? ==>
      |r| == |results| + 1 && r[..|results|] == results &&
      r[|results|] == Result(now, outcome.address, outcome.endTime - now)
  {
    Settled(results, PendingFetch(now, results), outcome)
  }

  /** One click whose fetch runs alone: the clock reading when it starts and
      the outcome of its fetch. */
  datatype ClickEvent = ClickEvent(now: int, outcome: FetchOutcome)

  /** The results after a series of clicks, each starting after the
      previous one settled. */
  function Replay(results: seq<Result>, clicks: seq<ClickEvent>): seq<Result>
    decreases |clicks|
  {
    if clicks == [] then results
    else
      var last := clicks[|clicks| - 1];
      Click(Replay(results, clicks[..|clicks| - 1]), last.now, last.outcome)
  }

  /** How many of `clicks` succeeded. */
  function Successes(clicks: seq<ClickEvent>): nat
  {
    if clicks == [] then 0
    else Successes(clicks[..|clicks| - 1]) + (if clicks[|clicks| - 1].outcome.Success? then 1 else 0)
  }

  /** The list is append-only: after any series of clicks the old list is a
      prefix of the new one, which has grown by one record per success. */
  lemma {:induction false} ReplayAppendOnly(results: seq<Result>, clicks: seq<ClickEvent>)
    ensures |Replay(results, clicks)| == |results| + Successes(clicks)
    ensures Replay(results, clicks)[..|results|] == results
    ensures Successes(clicks) == 0 ==> Replay(results, clicks) == results
  {
    if clicks != [] {
      var prefix := clicks[..|clicks| - 1];
      var last := clicks[|clicks| - 1];
      ReplayAppendOnly(results, prefix);
      var mid := Replay(results, prefix);
      var r := Click(mid, last.now, last.outcome);
      if last.outcome.Success? {
        assert r[..|results|] == r[..|mid|][..|results|];
      }
    }
  }

  /** The record a success adds has a non-negative execution time whenever
      the clock did not go backwards, and the statistics take it into account
      whatever the clock said. */
  lemma ClickStats(results: seq<Result>, now: int, address: Address, endTime: int)
    ensures var r := Click(results, now, Success(address, endTime));
      && (endTime >= now ==> r[|results|].executionTime >= 0)
      && (results == [] ==> CalculateStats(r) == Stats(endTime - now, endTime - now, (endTime - now) as real))
      && (results != [] ==> CalculateStats(r).fastest == Min2(CalculateStats(results).fastest, endTime - now))
      && (results != [] ==> CalculateStats(r).slowest == Max2(CalculateStats(results).slowest, endTime - now))
      && (results != [] ==> CalculateStats(r).average * (|results| + 1) as real
                            == CalculateStats(results).average * |results| as real + (endTime - now) as real)
  {
    var x := NewResult(now, address, endTime);
    assert Click(results, now, Success(address, endTime)) == results + [x];
    if results == [] {
      assert results + [x] == [x];
      StatsOfSingleton(x);
    } else {
      ExtremesAfterAppend(results, x);
      AverageAfterAppend(results, x);
    }
  }

  /** From the seed list, a fetch that resolves with Oak St, Springfield
      250 ms after it started leaves three records, the last of them with
      that address and an execution time of 250; a rejected fetch leaves the
      two seed records. */
  lemma SeedScenarios(now1: int, now2: int, now: int)
    ensures var r := Click(InitialResults(now1, now2), now, Success(Address("Oak St", "Springfield"), now + 250));
      |r| == 3 && r[2] == Result(now, Address("Oak St", "Springfield"), 250) && r[..2] == InitialResults(now1, now2)
    ensures Click(InitialResults(now1, now2), now, Failure) == InitialResults(now1, now2)
  {
  }

  /** The page's state. */
  class ResultTracker {
    var results: seq<Result>
    var isLoading: bool

    /** The state on first render: the two seed records, not loading. */
    constructor (now1: int, now2: int)
      ensures results == InitialResults(now1, now2) && !isLoading
      ensures CalculateStats(results) == Stats(400, 900, 650.0)
    {
      results := InitialResults(now1, now2);
      isLoading := false;
      InitialStats(now1, now2);
    }

    /** The handler up to the fetch: loading is set, the clock is read and
        the current list is captured. */
    method BeginFetch(now: int) returns (pending: PendingFetch)
      modifies this
      ensures isLoading && results == old(results)
      ensures pending == PendingFetch(now, old(results))
    {
      isLoading := true;
      pending := PendingFetch(now, results);
    }

    /** The handler after the fetch settles: on success the new record is
        appended to the captured list; on failure the list stays as it is;
        in both cases loading is cleared. */
    method SettleFetch(pending: PendingFetch, outcome: FetchOutcome)
      modifies this
      ensures !isLoading
      ensures results == Settled(old(results), pending, outcome)
      ensures pending.snapshot == old(results) ==> results == Click(old(results), pending.timestamp, outcome)
    {
      match outcome {
        case Success(address, endTime) =>
          var newResult := NewResult(pending.timestamp, address, endTime);
          results := pending.snapshot + [newResult];
        case Failure =>
      }
      isLoading := false;
    }

    /** One click whose fetch runs alone: loading is true while the fetch is
        pending and false afterwards; the list is updated as Click says. */
    method HandleOnClick(now: int, outcome: FetchOutcome)
      modifies this
      ensures !isLoading
      ensures results == Click(old(results), now, outcome)
    {
      var pending := BeginFetch(now);
      assert isLoading;
      SettleFetch(pending, outcome);
    }
  }
}
