/** The records the location page keeps: one Result per successful fetch of
    the last known location, and the two seed records it starts with. */
module Records {

  /** A street address as returned by the location backend. */
  datatype Address = Address(street: string, city: string)

  /** One recorded fetch: when it started (milliseconds since the epoch),
      the address it returned, and how long it took in milliseconds. */
  datatype Result = Result(timestamp: int, address: Address, executionTime: int)

  /** The seed list shown before any fetch. The two timestamps are two reads
      of the wall clock, `now1` for the first record and `now2` for the second,
      which is dated 2000 ms after its read. */
  function InitialResults(now1: int, now2: int): (r: seq<Result>)
    ensures |r| == 2
    ensures r[0].address == Address("5th Ave", "Random City") && r[0].executionTime == 900
    ensures r[1].address == Address("Main Road", "New Town") && r[1].executionTime == 400
    ensures r[0].timestamp == now1 && r[1].timestamp == now2 + 2000
  {
    [ Result(now1, Address("5th Ave", "Random City"), 900),
      Result(now2 + 2000, Address("Main Road", "New Town"), 400) ]
  }

  /** The execution times of `results`, in order (`results.map(r => r.executionTime)`). */
  function Times(results: seq<Result>): (t: seq<int>)
  {
    seq(|results|, i requires 0 <= i < |results| => results[i].executionTime)
  }

  lemma TimesAppend(results: seq<Result>, x: Result)
    ensures Times(results + [x]) == Times(results) + [x.executionTime]
  {
  }
}
