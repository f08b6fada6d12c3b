/** One sampling tick's record, as read_data in enviro.py builds it.

    The sensor libraries are not modelled: their readings arrive as
    parameters, and the particulate library's per-size counts arrive as a
    Cumulative value. */
module Readings {

  /** A record: the formatted time of the tick, and the numeric fields by
      name. The source keeps both in one dictionary under the key "time" and
      the field names; the time is split out here because it is the one
      value that is text rather than a number. */
  datatype Reading = Reading(time: string, fields: map<Field, real>)

  /** The numeric keys read_data writes, one constructor per dictionary key:
      'temp', 'humi', 'pres', 'oxi', 'red', 'nh3', 'pm03', 'pm05', 'pm10',
      'pm25', 'pm50' and 'pm100'. */
  datatype Field = Temp | Humi | Pres | Oxi | Red | Nh3 | Pm03 | Pm05 | Pm10 | Pm25 | Pm50 | Pm100

  /** Particle counts per litre of air as the particulate library reports
      them for the diameters 10, 5, 2.5, 1, 0.5 and 0.3 micrometres: each
      count includes every larger particle, so it grows as the diameter
      shrinks. */
  datatype Cumulative = Cumulative(c100: int, c50: int, c25: int, c10: int, c05: int, c03: int)

  /** Particle counts split into six disjoint size classes. */
  datatype Buckets = Buckets(pm100: int, pm50: int, pm25: int, pm10: int, pm05: int, pm03: int)

  /** A record carries every numeric field, as every record read_data
      builds does. */
  predicate Complete(r: Reading) {
    && Temp in r.fields && Humi in r.fields && Pres in r.fields
    && Oxi in r.fields && Red in r.fields && Nh3 in r.fields
    && Pm03 in r.fields && Pm05 in r.fields && Pm10 in r.fields
    && Pm25 in r.fields && Pm50 in r.fields && Pm100 in r.fields
  }

  /** Complete names every field there is. */
  lemma CompleteHasAll(r: Reading, f: Field)
    requires Complete(r)
    ensures f in r.fields
  {
  }

  /** Counts that a sensor can produce: non-negative and growing towards
      the smaller diameters. */
  predicate Ordered(c: Cumulative) {
    0 <= c.c100 <= c.c50 <= c.c25 <= c.c10 <= c.c05 <= c.c03
  }

  predicate NonNegative(b: Buckets) {
    b.pm100 >= 0 && b.pm50 >= 0 && b.pm25 >= 0 && b.pm10 >= 0 && b.pm05 >= 0 && b.pm03 >= 0
  }

  function Total(b: Buckets): int {
    b.pm100 + b.pm50 + b.pm25 + b.pm10 + b.pm05 + b.pm03
  }

  /** The subtractions of read_data: each bucket is its cumulative count
      minus every larger bucket already computed. The contract states what
      that amounts to: each bucket is the difference of two adjacent
      cumulative counts, all six add up to the smallest-diameter count, and
      the buckets are non-negative exactly when the counts are ordered. */
  function Split(c: Cumulative): (b: Buckets)
    ensures b.pm100 == c.c100
    ensures b.pm50 == c.c50 - c.c100
    ensures b.pm25 == c.c25 - c.c50
    ensures b.pm10 == c.c10 - c.c25
    ensures b.pm05 == c.c05 - c.c10
    ensures b.pm03 == c.c03 - c.c05
    ensures Total(b) == c.c03
    ensures NonNegative(b) <==> Ordered(c)
  {
    var pm100 := c.c100;
    var pm50 := c.c50 - pm100;
    var pm25 := c.c25 - pm100 - pm50;
    var pm10 := c.c10 - pm100 - pm50 - pm25;
    var pm05 := c.c05 - pm100 - pm50 - pm25 - pm10;
    var pm03 := c.c03 - pm100 - pm50 - pm25 - pm10 - pm05;
    Buckets(pm100, pm50, pm25, pm10, pm05, pm03)
  }

  /** The inverse of Split: running totals from the largest bucket down. */
  function Accumulate(b: Buckets): (c: Cumulative)
    ensures c.c100 == b.pm100
    ensures c.c03 == Total(b)
    ensures NonNegative(b) ==> Ordered(c)
  {
    var c100 := b.pm100;
    var c50 := c100 + b.pm50;
    var c25 := c50 + b.pm25;
    var c10 := c25 + b.pm10;
    var c05 := c10 + b.pm05;
    Cumulative(c100, c50, c25, c10, c05, c05 + b.pm03)
  }

  /** Splitting loses nothing: the counts can be rebuilt from the buckets,
      and every bucket vector is the split of some counts. */
  lemma SplitRoundTrip(c: Cumulative, b: Buckets)
    ensures Accumulate(Split(c)) == c
    ensures Split(Accumulate(b)) == b
  {
  }

  /** The record read_data returns, after the sensors have been read.
      `time` is the already formatted tick time; the gas readings are
      scaled from ohms to kilo-ohms. */
  function ReadData(time: string, temperature: real, pressure: real, humidity: real,
                    oxidising: real, reducing: real, nh3: real, counts: Cumulative): (r: Reading)
    ensures r.time == time
    ensures Complete(r)
    ensures r.fields[Temp] == temperature && r.fields[Pres] == pressure && r.fields[Humi] == humidity
    ensures r.fields[Oxi] * 1000.0 == oxidising && r.fields[Red] * 1000.0 == reducing
    ensures r.fields[Nh3] * 1000.0 == nh3
    ensures var b := Split(counts);
            && r.fields[Pm100] == b.pm100 as real && r.fields[Pm50] == b.pm50 as real
            && r.fields[Pm25] == b.pm25 as real && r.fields[Pm10] == b.pm10 as real
            && r.fields[Pm05] == b.pm05 as real && r.fields[Pm03] == b.pm03 as real
    ensures r.fields[Pm100] + r.fields[Pm50] + r.fields[Pm25] + r.fields[Pm10]
            + r.fields[Pm05] + r.fields[Pm03] == counts.c03 as real
    ensures Ordered(counts) <==>
            (r.fields[Pm100] >= 0.0 && r.fields[Pm50] >= 0.0 && r.fields[Pm25] >= 0.0
             && r.fields[Pm10] >= 0.0 && r.fields[Pm05] >= 0.0 && r.fields[Pm03] >= 0.0)
  {
    var b := Split(counts);
    Reading(time, map[
      Temp := temperature,
      Humi := humidity,
      Pres := pressure,
      Oxi := oxidising / 1000.0,
      Red := reducing / 1000.0,
      Nh3 := nh3 / 1000.0,
      Pm03 := b.pm03 as real,
      Pm05 := b.pm05 as real,
      Pm10 := b.pm10 as real,
      Pm25 := b.pm25 as real,
      Pm50 := b.pm50 as real,
      Pm100 := b.pm100 as real])
  }
}
