/** The averaging step of enviro.py (sum_data): one aggregate record per
    window, holding the first record's time and the per-field mean. */
module Aggregation {
  import opened Readings

  /** What sum_data returns: the window's first time and one mean per
      numeric field of the first record. */
  datatype Aggregate = Aggregate(time: string, means: map<Field, real>)

  /** The exceptions sum_data can raise: an empty window (the lookup of the
      first record fails) and a record that lacks a field of the first one. */
  datatype SumError = EmptyWindow | MissingKey(index: nat, key: Field)

  datatype Result<T> = Ok(value: T) | Err(error: SumError)

  /** Every record carries `key`. */
  predicate HasKey(data: seq<Reading>, key: Field) {
    forall i :: 0 <= i < |data| ==> key in data[i].fields
  }

  /** Every record carries every field of `keys`. */
  predicate HasKeys(data: seq<Reading>, keys: set<Field>) {
    forall i :: 0 <= i < |data| ==> keys <= data[i].fields.Keys
  }

  /** Every record carries every field of the first one, which is what
      sum_data needs to finish without an exception. */
  predicate SharesKeys(data: seq<Reading>) {
    |data| > 0 && HasKeys(data, data[0].fields.Keys)
  }

  /** The sum of one field over the records, exact (the source adds floats). */
  function FieldSum(data: seq<Reading>, key: Field): real
    requires HasKey(data, key)
    decreases |data|
  {
    if data == [] then 0.0
    else data[0].fields[key] + FieldSum(data[1..], key)
  }

  /** The aggregate sum_data computes over a window that shares its keys. */
  function Average(data: seq<Reading>): (a: Aggregate)
    requires SharesKeys(data)
    ensures a.time == data[0].time
    ensures a.means.Keys == data[0].fields.Keys
  {
    Aggregate(data[0].time,
              map k | k in data[0].fields :: FieldSum(data, k) / (|data| as real))
  }

  datatype Option<T> = None | Some(value: T)

  /** sum_data's first loop: a zero total for every key. */
  method Zeros(keys: set<Field>) returns (totals: map<Field, real>)
    ensures totals.Keys == keys
    ensures forall k :: k in totals ==> totals[k] == 0.0
  {
    totals := map[];
    var todo := keys;
    while todo != {}
      invariant todo <= keys
      invariant totals.Keys == keys - todo
      invariant forall k :: k in totals ==> totals[k] == 0.0
      decreases todo
    {
      var key :| key in todo;
      totals := totals[key := 0.0];
      todo := todo - {key};
    }
  }

  /** sum_data's last loop: every total divided by the number of records. */
  method DivideAll(totals: map<Field, real>, n: real) returns (means: map<Field, real>)
    requires n != 0.0
    ensures means.Keys == totals.Keys
    ensures forall k :: k in totals ==> means[k] == totals[k] / n
  {
    means := totals;
    var todo := totals.Keys;
    while todo != {}
      invariant todo <= totals.Keys
      invariant means.Keys == totals.Keys
      invariant forall k :: k in totals && k !in todo ==> means[k] == totals[k] / n
      invariant forall k :: k in todo ==> means[k] == totals[k]
      decreases todo
    {
      var key :| key in todo;
      means := means[key := means[key] / n];
      todo := todo - {key};
    }
  }

  /** One pass of sum_data's inner loop: add each field of `keys` from
      `record` to its running total, stopping at the first field the record
      lacks. */
  method AddFields(totals: map<Field, real>, keys: set<Field>, record: Reading)
    returns (next: map<Field, real>, gap: Option<Field>)
    requires totals.Keys == keys
    ensures gap.None? <==> keys <= record.fields.Keys
    ensures gap.Some? ==> gap.value in keys && gap.value !in record.fields
    ensures gap.None? ==> next.Keys == keys
    ensures gap.None? ==> forall k :: k in keys ==> next[k] == totals[k] + record.fields[k]
  {
    next := totals;
    var pending := keys;
    while pending != {}
      invariant pending <= keys
      invariant next.Keys == keys
      invariant forall k :: k in keys && k !in pending ==>
                  k in record.fields && next[k] == totals[k] + record.fields[k]
      invariant forall k :: k in pending ==> next[k] == totals[k]
      decreases pending
    {
      var key :| key in pending;
      if key !in record.fields {
        return next, Some(key);
      }
      next := next[key := next[key] + record.fields[key]];
      pending := pending - {key};
    }
    gap := None;
  }

  /** sum_data: set every total to zero, add each record's fields in order,
      then divide by the number of records. It fails exactly when the window
      is empty or some record lacks a field of the first one, and then
      reports the first such record. */
  method SumData(data: seq<Reading>) returns (res: Result<Aggregate>)
    ensures res == Err(EmptyWindow) <==> |data| == 0
    ensures res.Ok? <==> SharesKeys(data)
    ensures res.Ok? ==> res.value == Average(data)
    ensures res.Err? && res.error.MissingKey? ==>
              var i, k := res.error.index, res.error.key;
              0 < i < |data| && k in data[0].fields && k !in data[i].fields
              && HasKeys(data[..i], data[0].fields.Keys)
  {
    if |data| == 0 {
      return Err(EmptyWindow);
    }
    var keys := data[0].fields.Keys;
    var totals := Zeros(keys);

    var j := 0;
    while j < |data|
      invariant 0 <= j <= |data|
      invariant totals.Keys == keys
      invariant HasKeys(data[..j], keys)
      invariant forall k :: k in keys ==> totals[k] == FieldSum(data[..j], k)
    {
      var gap;
      totals, gap := AddFields(totals, keys, data[j]);
      if gap.Some? {
        return Err(MissingKey(j, gap.value));
      }
      assert data[..j + 1] == data[..j] + [data[j]];
      forall k | k in keys
        ensures FieldSum(data[..j + 1], k) == FieldSum(data[..j], k) + data[j].fields[k]
      {
        FieldSumAppend(data[..j], [data[j]], k);
      }
      j := j + 1;
    }
    assert data[..j] == data;

    var means := DivideAll(totals, |data| as real);
    assert means == Average(data).means;
    res := Ok(Aggregate(data[0].time, means));
  }

  /** Adding the records in two parts gives the same total. */
  lemma {:induction false} FieldSumAppend(a: seq<Reading>, b: seq<Reading>, key: Field)
    requires HasKey(a, key) && HasKey(b, key)
    ensures HasKey(a + b, key)
    ensures FieldSum(a + b, key) == FieldSum(a, key) + FieldSum(b, key)
    decreases |a|
  {
    if a == [] {
      assert a + b == b;
    } else {
      assert (a + b)[1..] == a[1..] + b;
      FieldSumAppend(a[1..], b, key);
    }
  }

  /** A field that is the same in every record sums to that value times the
      number of records. */
  lemma {:induction false} FieldSumConstant(data: seq<Reading>, key: Field, v: real)
    requires forall i :: 0 <= i < |data| ==> key in data[i].fields && data[i].fields[key] == v
    ensures FieldSum(data, key) == (|data| as real) * v
    decreases |data|
  {
    if data != [] {
      FieldSumConstant(data[1..], key, v);
    }
  }

  /** A field bounded in every record has its sum bounded accordingly. */
  lemma {:induction false} FieldSumBounds(data: seq<Reading>, key: Field, lo: real, hi: real)
    requires forall i :: 0 <= i < |data| ==> key in data[i].fields && lo <= data[i].fields[key] <= hi
    ensures (|data| as real) * lo <= FieldSum(data, key) <= (|data| as real) * hi
    decreases |data|
  {
    if data != [] {
      var m := (|data| - 1) as real;
      FieldSumBounds(data[1..], key, lo, hi);
      assert (|data| as real) * lo == m * lo + lo && (|data| as real) * hi == m * hi + hi;
    }
  }

  /** The mean of a field that never changes over the window is that value. */
  lemma MeanOfConstant(data: seq<Reading>, key: Field, v: real)
    requires SharesKeys(data) && key in data[0].fields
    requires forall i :: 0 <= i < |data| ==> data[i].fields[key] == v
    ensures Average(data).means[key] == v
  {
    FieldSumConstant(data, key, v);
  }

  /** The mean lies between the smallest and the largest value of the field. */
  lemma MeanWithinBounds(data: seq<Reading>, key: Field, lo: real, hi: real)
    requires SharesKeys(data) && key in data[0].fields
    requires forall i :: 0 <= i < |data| ==> lo <= data[i].fields[key] <= hi
    ensures lo <= Average(data).means[key] <= hi
  {
    FieldSumBounds(data, key, lo, hi);
    var n := |data| as real;
    var m := Average(data).means[key];
    assert m * n == FieldSum(data, key);
    assert n * lo <= m * n <= n * hi;
  }

  /** A window of six temperatures 20, 20, 21, 21, 22, 22 averages to 21. */
  lemma SixTemperatures()
    ensures var data := [Reading("t", map[Temp := 20.0]), Reading("t", map[Temp := 20.0]),
                         Reading("t", map[Temp := 21.0]), Reading("t", map[Temp := 21.0]),
                         Reading("t", map[Temp := 22.0]), Reading("t", map[Temp := 22.0])];
            SharesKeys(data) && Average(data).means[Temp] == 21.0
  {
    var data := [Reading("t", map[Temp := 20.0]), Reading("t", map[Temp := 20.0]),
                 Reading("t", map[Temp := 21.0]), Reading("t", map[Temp := 21.0]),
                 Reading("t", map[Temp := 22.0]), Reading("t", map[Temp := 22.0])];
    assert data[..2] == data[..2][..1] + data[..2][1..];
    FieldSumConstant(data[..2], Temp, 20.0);
    FieldSumConstant(data[2..4], Temp, 21.0);
    FieldSumConstant(data[4..], Temp, 22.0);
    FieldSumAppend(data[..2], data[2..4], Temp);
    assert data[..2] + data[2..4] == data[..4];
    FieldSumAppend(data[..4], data[4..], Temp);
    assert data[..4] + data[4..] == data;
  }
}
