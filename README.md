# enviro.py sampling and aggregation, in Dafny

`enviro.py` runs a background thread that reads an Enviro+ board's
sensors every `data_read_interval` seconds. Each record goes into a sliding
window, `curr_data`. On every tick whose time is a multiple of
`data_aggregate_size` and whose window is at least half full, the thread
writes the per-field average of the window, computed by `sum_data`, to a JSON
file. This project models that loop and proves properties of it.

- `readings.dfy` (module `Readings`): the record that `read_data` builds, with
  its fields as a `Field` enumeration. It includes the particulate
  subtractions, which turn the sensor's cumulative per-diameter counts into
  six disjoint size buckets. `Accumulate` is their inverse.
- `window.dfy` (module `Window`): Python's slice `curr_data[-(n-1):]`, written
  out for negative, zero and out-of-range starts. `Update` is a reference
  definition of one tick's window update. `WindowAfter` feeds a run of
  records. `ShouldSave` is the save test.
- `aggregation.dfy` (module `Aggregation`): `sum_data` as a method with the
  source's three loops (zero, accumulate, divide). `Average` specifies it,
  and `FieldSum` is the exact sum of one field. The lemmas bound and
  evaluate means.
- `sampler.dfy` (module `Sampler`): the global window becomes the `window`
  field of class `Sampler`.
  - `Tick` is one iteration of the `while run_flag` loop.
  - `Background` is the loop over a finite run of ticks.
  - The ghost functions `Emitted` and `Written` say what one tick and a whole
    run write.

Clock readings, sensor readings and the file a tick writes are not part of the
model. Each tick's time and record are inputs. The aggregate a tick would
save is `Tick`'s result, and the aggregates a run would save are
`Background`'s result.

Code and comments disagree in one place, and the model follows the code. The
comment at `enviro.py:11-13` describes aggregation by a period in seconds.
The save test at `enviro.py:116` takes the tick time modulo
`data_aggregate_size`, which is a number of samples (6 by default), not
modulo `seconds_per_aggreate`.

## Model

| member | source | states |
|---|---|---|
| Readings.Split | enviro.py:61-66 | each bucket is the difference of two adjacent cumulative counts; the six buckets sum to the 0.3 µm count; all buckets are non-negative exactly when the counts are ordered |
| Readings.Accumulate | enviro.py:61-66 | running totals from the largest bucket: the 10 µm count is the first bucket and the 0.3 µm count is the total; non-negative buckets give ordered counts |
| Readings.SplitRoundTrip | enviro.py:61-66 | bucket subtraction loses nothing: accumulating the split gives back the counts, and splitting the accumulation gives back the buckets |
| Readings.ReadData | enviro.py:61-82 | the record carries the tick time and every numeric field; temperature, pressure and humidity are unchanged; the gases are scaled by 1/1000; each particulate key holds its own bucket of Split (`pm100` the 10 µm bucket, …, `pm03` the 0.3 µm bucket); the particulate fields sum to the 0.3 µm count and are non-negative exactly when the counts are ordered |
| Window.SliceFrom | enviro.py:112 | Python's `s[start:]` is a suffix of s no longer than s |
| Window.Update | enviro.py:112-113 | reference definition of one tick's update: the newest Kept(len, n) old records in their order, then the new record (no contract of its own; CutKeepsNewest, UpdateShape, UpdateBounded and UpdateSizeOne state its properties) |
| Window.CutKeepsNewest | enviro.py:112 | `curr_data[-(n-1):]` keeps exactly the newest Kept(len, n) records: min(len, n-1) for n ≥ 2, all of them for n = 1 (the `[-0:]` slice) |
| Window.UpdateShape | enviro.py:112-113 | after an update the new record is last, preceded by the newest old records in their original order: min(len, n-1) of them when n ≥ 2 |
| Window.UpdateBounded | enviro.py:112-113 | for a size of 2 or more the window never holds more than n records |
| Window.UpdateSizeOne | enviro.py:112-113 | for a size of 1 the cut keeps the whole window, so the window only grows |
| Window.WindowAfter | enviro.py:107-113 | definition of the window after a run of records is fed in order, one Update per tick (no contract of its own; WindowAfterSnoc, WindowAfterElements, WindowAfterIsSuffix and LengthAfter state its properties) |
| Window.WindowAfterSnoc | enviro.py:107-113 | feeding one more record at the end of a run is one more update |
| Window.WindowAfterElements | enviro.py:107-113 | the window only ever holds records it started with or was given |
| Window.WindowAfterIsSuffix | enviro.py:107-113 | starting from the empty window (line 39), after k ticks the window is exactly the newest min(k, n) records (all k when n = 1), oldest first |
| Window.LengthAfter | enviro.py:107-113 | starting from the empty window, the length after k ticks is min(k, n) for n ≥ 2 and k for n = 1 |
| Window.ShouldSave | enviro.py:116 | definition of the save test as written: `t % data_aggregate_size == 0` and `len >= data_aggregate_size / 2` in true division (no contract of its own; ShouldSaveIff gives its integer form) |
| Window.ShouldSaveIff | enviro.py:116 | the save test, which uses true division, holds exactly when t mod n = 0 and 2·len ≥ n |
| Window.NoEarlySave | enviro.py:112-116 | after a cold start, a save on tick k implies 2·k ≥ n |
| Window.DefaultSizeGate | enviro.py:116 | with the default size 6, a boundary tick with 2 records does not save and one with 3 records does |
| Aggregation.FieldSum | enviro.py:91-93 | definition of the exact sum of one field over the records, defined only when every record has the field (no contract of its own; FieldSumAppend, FieldSumConstant and FieldSumBounds state its properties, and SumData's loop invariant ties the running totals to it) |
| Aggregation.Average | enviro.py:85-97 | the aggregate has the first record's time and exactly the first record's numeric keys |
| Aggregation.Zeros | enviro.py:89-90 | the first loop gives a zero total for every key of the first record |
| Aggregation.AddFields | enviro.py:92-93 | the inner loop adds each field of the record to its total; it stops on a key the record lacks (the KeyError) exactly when the record misses a key |
| Aggregation.DivideAll | enviro.py:94-96 | every total is divided by the number of records, and no key is added or lost |
| Aggregation.SumData | enviro.py:85-97 | an empty window is the error from `data[0]`; success happens exactly when every record has the first record's keys, and then the result is Average; otherwise the error names the first record missing a key; the loop invariant is that totals equal the FieldSum of the records so far |
| Aggregation.FieldSumAppend | enviro.py:91-93 | summing a field over two parts gives the sum of the part sums |
| Aggregation.FieldSumConstant | enviro.py:91-93 | a field with the same value v in n records sums to n·v |
| Aggregation.FieldSumBounds | enviro.py:91-93 | a field bounded by lo and hi in every record sums to between n·lo and n·hi |
| Aggregation.MeanOfConstant | enviro.py:94-96 | the mean of a field that never changes is that value |
| Aggregation.MeanWithinBounds | enviro.py:94-96 | the mean lies between the smallest and the largest value of the field |
| Aggregation.SixTemperatures | enviro.py:85-97 | temperatures 20, 20, 21, 21, 22, 22 average to 21 |
| Sampler.AggregateSize | enviro.py:14 | `int(seconds / interval)` is the largest number of whole intervals that fit in the period |
| Sampler.DefaultAggregateSize | enviro.py:9-14 | the configured sizes give a window of 6 samples |
| Sampler.CompleteShareKeys | enviro.py:68-82 | a non-empty window of records built by read_data shares the first record's keys, so sum_data cannot raise on it |
| Sampler.UpdateComplete | enviro.py:112-113 | updating a window of complete records with a complete record gives a window of complete records |
| Sampler.Sampler.constructor | enviro.py:39 | the window starts empty |
| Sampler.Sampler.Tick | enviro.py:108-120 | the new window is Update(old window, n, record), the slice computed as in Python; the window shares its keys; the tick saves exactly when ShouldSave holds on the new window, and what it saves is the window's Average |
| Sampler.Sampler.Background | enviro.py:107-122 | after a run of ticks the window is WindowAfter(old window, n, records), and the aggregates written, with their times, are Written(old window, n, times, records) |
| Sampler.LoopStep | enviro.py:107-122 | one loop iteration keeps the identity "written so far + written by the remaining ticks = written by the whole run" |
| Sampler.Emitted | enviro.py:116-120 | definition of what one tick writes: the tick time and the Average of the updated window when ShouldSave holds and the window shares its keys, otherwise nothing; the SharesKeys guard stands for the case where sum_data would raise (no contract of its own; EmittedComplete shows the guard always holds for complete records) |
| Sampler.Written | enviro.py:107-122 | definition of what a whole run writes: the concatenation of Emitted over the ticks in order, each tick starting from the window the previous one left (no contract of its own; Background is proved equal to it, and WrittenOnBoundaries states its properties) |
| Sampler.EmittedComplete | enviro.py:116-120 | for complete records a tick writes one aggregate when the save test holds and nothing otherwise |
| Sampler.WrittenOnBoundaries | enviro.py:116-120 | a run writes at most one aggregate per tick, and every written time is a multiple of the window size |

## Left out

- Sensor reads (`bme280`, `gas.read_all`, `pms5003.read`) and the particulate error handler (enviro.py:46-59) are foreign calls and blocking I/O. Their readings are parameters of `ReadData`, with the particle counts as a `Cumulative` value. That handler never retries as written: line 57 concatenates a string with the `RuntimeError` object, which raises `TypeError`, so the first sensor error ends the background thread before `reset()` (line 58) runs.
- Rounding: `round(..., 1)` in read_data and sum_data, and `round(x / 1000)` for reducing and nh3 (enviro.py:70-75, 96), are float operations. The model computes exact real sums and means without rounding, so Readings.ReadData and Aggregation.SumData state the unrounded values.
- Floating-point addition in sum_data: totals are exact reals, so the order in which records are added does not matter in the model.
- Aggregation.SumData: keys are visited in an arbitrary order (a set), not in Python's dictionary insertion order. When a later record misses several keys, the model may report a different missing key than Python's KeyError, but it reports the same record.
- Time formatting (`filename`, `asctime(localtime(t))`, enviro.py:42-43, 69): the record's time is an input string.
- Clock reads (`int(floor(time()))`, enviro.py:108) and `sleep(data_read_interval)` (enviro.py:122): each tick's time is an input.
- File output (`save_data_to_json`, `os.path.join`, the `print` at enviro.py:117-120 and 99-102): what would be written is returned instead.
- Flask routes `index`, `get_data_files` and `serve_enviro_data` (enviro.py:124-139) are web plumbing over the file system.
- Threading, `run_flag`, `join` and directory creation (enviro.py:141-160): Background models a finite run of ticks, the run before the flag is cleared. The globals `record` and `hist_data` are not used by the modelled logic.
- Sampler.Sampler.constructor: requires a size of at least 1. With size 0 (`seconds_per_aggreate < data_read_interval`), `t % 0` raises ZeroDivisionError on the first tick, so such a sampler never saves anything.
- Sampler.Emitted: on a window whose records do not share keys, sum_data would raise and end the thread. Emitted writes nothing for such a tick instead. Sampler.Sampler.Tick proves that this never happens to a Sampler, whose records are all complete.
