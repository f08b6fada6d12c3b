/** The background loop of enviro.py: the global window `curr_data` becomes
    a field of a Sampler object, one loop iteration becomes Tick, and the
    loop itself becomes Background over the ticks it runs before the stop
    flag is cleared. Clock reads, sensor reads, file names and file writes
    are outside the model: each tick's time and record are inputs, and the
    aggregate the tick would write is its result. */
module Sampler {
  import opened Readings
  import opened Aggregation
  import opened Window

  const DataReadInterval: nat := 10
  const SecondsPerAggregate: nat := 60

  /** `int(seconds_per_aggreate / data_read_interval)`: the quotient
      truncated to a whole number of samples. */
  function AggregateSize(secondsPerAggregate: nat, readInterval: nat): (n: nat)
    requires readInterval > 0
    ensures n * readInterval <= secondsPerAggregate < (n + 1) * readInterval
  {
    secondsPerAggregate / readInterval
  }

  /** The configured window holds six samples: one minute of ten-second reads. */
  lemma DefaultAggregateSize()
    ensures AggregateSize(SecondsPerAggregate, DataReadInterval) == 6
  {
  }

  /** A window of records built by read_data always shares its keys, so
      sum_data never raises on it once it holds a record. */
  lemma CompleteShareKeys(w: seq<Reading>)
    requires |w| > 0
    requires forall i :: 0 <= i < |w| ==> Complete(w[i])
    ensures SharesKeys(w)
  {
    forall i | 0 <= i < |w|
      ensures w[0].fields.Keys <= w[i].fields.Keys
    {
      forall k | k in w[0].fields
        ensures k in w[i].fields
      {
        CompleteHasAll(w[i], k);
      }
    }
  }

  /** Updating a window of records built by read_data with another such
      record keeps every record well formed. */
  lemma UpdateComplete(w: seq<Reading>, n: nat, r: Reading)
    requires forall i :: 0 <= i < |w| ==> Complete(w[i])
    requires Complete(r)
    ensures forall i :: 0 <= i < |Update(w, n, r)| ==> Complete(Update(w, n, r)[i])
  {
  }

  class Sampler {
    /** data_aggregate_size */
    const size: nat
    /** curr_data: the records of the current window, oldest first */
    var window: seq<Reading>

    ghost predicate Valid()
      reads this
    {
      && size >= 1
      && (forall i :: 0 <= i < |window| ==> Complete(window[i]))
      && (size >= 2 ==> |window| <= size)
    }

    /** The module-level state at start-up: an empty window. */
    constructor (size: nat)
      requires size >= 1
      ensures Valid()
      ensures this.size == size && window == []
    {
      this.size := size;
      window := [];
    }

    /** One iteration of the background loop at time t with the record just
        read: cut and extend the window, then, on a save tick, average it.
        The result is the aggregate that would be written, or None. */
    method Tick(t: int, record: Reading) returns (saved: Option<Aggregate>)
      requires Valid() && Complete(record)
      modifies this
      ensures Valid()
      ensures window == Update(old(window), size, record)
      ensures SharesKeys(window)
      ensures saved.Some? <==> ShouldSave(t, size, |window|)
      ensures saved.Some? ==> saved.value == Average(window)
    {
      ghost var before := window;
      var cut := SliceFrom(window, -(size - 1));
      window := cut + [record];
      assert window == Update(before, size, record) by {
        CutKeepsNewest(before, size);
      }
      assert Valid() by {
        UpdateComplete(before, size, record);
        if size >= 2 {
          UpdateBounded(before, size, record);
        }
      }
      assert SharesKeys(window) by {
        CompleteShareKeys(window);
      }
      if ShouldSave(t, size, |window|) {
        var res := SumData(window);
        saved := Some(res.value);
      } else {
        saved := None;
      }
    }

    /** The `while run_flag` loop over the ticks it runs before the stop
        flag is cleared: tick j happens at times[j] and reads records[j].
        Returns the aggregates written, with their tick times. */
    method Background(times: seq<int>, records: seq<Reading>) returns (written: seq<(int, Aggregate)>)
      requires Valid()
      requires |times| == |records|
      requires forall i :: 0 <= i < |records| ==> Complete(records[i])
      modifies this
      ensures Valid()
      ensures window == WindowAfter(old(window), size, records)
      ensures written == Written(old(window), size, times, records)
    {
      ghost var w0 := window;
      written := [];
      var j := 0;
      while j < |records|
        invariant 0 <= j <= |records|
        invariant Valid()
        invariant WindowAfter(window, size, records[j..]) == WindowAfter(w0, size, records)
        invariant written + Written(window, size, times[j..], records[j..])
                  == Written(w0, size, times, records)
      {
        var t, record := times[j], records[j];
        ghost var before := window;
        var saved := Tick(t, record);
        assert times[j..][1..] == times[j + 1..] && records[j..][1..] == records[j + 1..];
        LoopStep(Written(w0, size, times, records), size, times[j..], records[j..], before, window, saved, written);
        written := written + if saved.Some? then [(t, saved.value)] else [];
        j := j + 1;
      }
    }
  }

  /** What one tick writes, given the window w before it and the record r
      read at time t: the average of the updated window, exactly when the
      save test holds. A window whose records do not share their fields
      would make sum_data raise instead; that cannot happen to a Sampler,
      whose Tick ensures SharesKeys, so such a tick is given as writing
      nothing. */
  ghost function Emitted(w: seq<Reading>, n: nat, t: int, r: Reading): seq<(int, Aggregate)>
    requires n >= 1
  {
    var v := Update(w, n, r);
    if ShouldSave(t, n, |v|) && SharesKeys(v) then [(t, Average(v))] else []
  }

  /** The aggregates the background loop writes over a run of ticks from
      window w, with their tick times, oldest first. */
  ghost function Written(w: seq<Reading>, n: nat, times: seq<int>, records: seq<Reading>)
    : seq<(int, Aggregate)>
    requires n >= 1 && |times| == |records|
    decreases |records|
  {
    if records == [] then []
    else Emitted(w, n, times[0], records[0]) + Written(Update(w, n, records[0]), n, times[1..], records[1..])
  }

  /** One iteration of the background loop keeps "written so far, then
      what the remaining ticks write" equal to what the whole run writes:
      the tick from window w to window v that saved `saved` wrote what
      Emitted says. */
  lemma LoopStep(total: seq<(int, Aggregate)>, n: nat, ts: seq<int>, rs: seq<Reading>,
                 w: seq<Reading>, v: seq<Reading>, saved: Option<Aggregate>, done: seq<(int, Aggregate)>)
    requires n >= 1 && |ts| == |rs| && |rs| > 0
    requires done + Written(w, n, ts, rs) == total
    requires v == Update(w, n, rs[0]) && SharesKeys(v)
    requires saved.Some? <==> ShouldSave(ts[0], n, |v|)
    requires saved.Some? ==> saved.value == Average(v)
    ensures (done + if saved.Some? then [(ts[0], saved.value)] else []) + Written(v, n, ts[1..], rs[1..]) == total
  {
  }

  /** For records built by read_data the SharesKeys guard of Emitted always
      holds: a tick writes exactly when the save test holds. */
  lemma EmittedComplete(w: seq<Reading>, n: nat, t: int, r: Reading)
    requires n >= 1
    requires forall i :: 0 <= i < |w| ==> Complete(w[i])
    requires Complete(r)
    ensures |Emitted(w, n, t, r)| == (if ShouldSave(t, n, |Update(w, n, r)|) then 1 else 0)
  {
    UpdateComplete(w, n, r);
    CompleteShareKeys(Update(w, n, r));
  }

  /** Every aggregate written carries a tick time that is a multiple of the
      window size, and there is at most one per tick. */
  lemma {:induction false} WrittenOnBoundaries(w: seq<Reading>, n: nat, times: seq<int>, records: seq<Reading>)
    requires n >= 1 && |times| == |records|
    ensures |Written(w, n, times, records)| <= |records|
    ensures forall i :: 0 <= i < |Written(w, n, times, records)| ==> Written(w, n, times, records)[i].0 % n == 0
    decreases |records|
  {
    if records != [] {
      WrittenOnBoundaries(Update(w, n, records[0]), n, times[1..], records[1..]);
    }
  }
}
