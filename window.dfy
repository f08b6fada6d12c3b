/** The sliding window of enviro.py's background loop and its save test:
    before each new record is appended, the window is cut with Python's
    slice `curr_data[-(n - 1):]`, n being data_aggregate_size. */
module Window {

  function Min(a: nat, b: nat): nat {
    if a <= b then a else b
  }

  /** Python's `s[start:]`: a negative start counts from the end, and a
      start outside the list is clamped to it. */
  function SliceFrom<T>(s: seq<T>, start: int): (r: seq<T>)
    ensures |r| <= |s| && r == s[|s| - |r|..]
  {
    if start < 0 then
      (if |s| + start < 0 then s else s[|s| + start..])
    else if start <= |s| then s[start..]
    else []
  }

  /** How many old records survive the cut, by size: every one of them when
      n is 1 (the slice `[-0:]` is the whole list), at most n - 1 otherwise,
      and for n = 0 all but the oldest (the slice `[1:]`). */
  function Kept(len: nat, n: nat): nat {
    if n == 1 then len
    else if n == 0 then (if len == 0 then 0 else len - 1)
    else Min(len, n - 1)
  }

  /** Python's slice keeps exactly the newest Kept(|w|, n) records. */
  lemma CutKeepsNewest<T>(w: seq<T>, n: nat)
    ensures SliceFrom(w, -(n - 1)) == w[|w| - Kept(|w|, n)..]
  {
  }

  /** One tick's update of the window, as a reference definition: the
      newest Kept(|w|, n) old records in their order, then the new one. The
      background loop computes it with the slice, and CutKeepsNewest shows
      the two agree. */
  function Update<T>(w: seq<T>, n: nat, r: T): seq<T> {
    w[|w| - Kept(|w|, n)..] + [r]
  }

  /** After an update the new record is last, and before it come the newest
      old records in their original order: min(|w|, n - 1) of them for a
      size of 2 or more. */
  lemma UpdateShape<T>(w: seq<T>, n: nat, r: T)
    ensures var u := Update(w, n, r);
            && 1 <= |u| && u[|u| - 1] == r
            && (n >= 2 ==> |u| == Min(|w|, n - 1) + 1)
            && (forall i :: 0 <= i < |u| - 1 ==> u[i] == w[|w| - (|u| - 1) + i])
  {
  }

  /** For a size of 2 or more the window never holds more than n records,
      whatever it held before. */
  lemma UpdateBounded<T>(w: seq<T>, n: nat, r: T)
    requires n >= 2
    ensures |Update(w, n, r)| <= n
  {
  }

  /** For a size of 1 the cut keeps everything, so the window only grows. */
  lemma UpdateSizeOne<T>(w: seq<T>, r: T)
    ensures Update(w, 1, r) == w + [r]
  {

  }

  /** The window after the records `rs` have been fed to it one tick at a
      time, starting from `w`. */
  function WindowAfter<T>(w: seq<T>, n: nat, rs: seq<T>): seq<T>
    decreases |rs|
  {
    if rs == [] then w
    else WindowAfter(Update(w, n, rs[0]), n, rs[1..])
  }

  /** Feeding one more record at the end is one more Update. */
  lemma {:induction false} WindowAfterSnoc<T>(w: seq<T>, n: nat, rs: seq<T>, r: T)
    ensures WindowAfter(w, n, rs + [r]) == Update(WindowAfter(w, n, rs), n, r)
    decreases |rs|
  {
    if rs == [] {
      assert rs + [r] == [r];
    } else {
      assert (rs + [r])[1..] == rs[1..] + [r];
      WindowAfterSnoc(Update(w, n, rs[0]), n, rs[1..], r);
    }
  }

  /** The window only ever holds records it started with or was given. */
  lemma {:induction false} WindowAfterElements<T>(w: seq<T>, n: nat, rs: seq<T>, x: T)
    requires x in WindowAfter(w, n, rs)
    ensures x in w || x in rs
    decreases |rs|
  {
    if rs != [] {
      var v := Update(w, n, rs[0]);
      WindowAfterElements(v, n, rs[1..], x);
      if x in v {
        assert x in w[|w| - Kept(|w|, n)..] || x == rs[0];
      }
    }
  }

  /** How many records the window holds after k ticks from empty. */
  function Held(k: nat, n: nat): nat
    requires n >= 1
  {
    if n == 1 then k else Min(k, n)
  }

  /** Updating a window that is the newest h records of s gives the newest
      Kept(h, n) of them followed by the new record. */
  lemma UpdateOfSuffix<T>(s: seq<T>, h: nat, n: nat, x: T)
    requires h <= |s|
    ensures Update(s[|s| - h..], n, x) == (s + [x])[|s| - Kept(h, n)..]
  {
  }

  /** One more tick from empty holds the survivors of the cut plus one. */
  lemma HeldStep(k: nat, n: nat)
    requires n >= 1
    ensures Held(k, n) <= k && Kept(Held(k, n), n) <= Held(k, n)
    ensures Kept(Held(k, n), n) + 1 == Held(k + 1, n)
  {
  }

  /** Starting from an empty window, after k ticks the window holds exactly
      the newest Held(k, n) records, oldest first: min(k, n) of them for a
      size of 2 or more, all k of them for a size of 1. */
  lemma {:induction false} WindowAfterIsSuffix<T>(n: nat, rs: seq<T>)
    requires n >= 1
    ensures WindowAfter([], n, rs) == rs[|rs| - Held(|rs|, n)..]
    decreases |rs|
  {
    if rs != [] {
      var k := |rs| - 1;
      var prev := rs[..k];
      var h := Held(k, n);
      HeldStep(k, n);
      var i := k - Kept(h, n);
      assert WindowAfter([], n, rs) == rs[i..] by {
        WindowAfterIsSuffix(n, prev);
        assert prev + [rs[k]] == rs;
        WindowAfterSnoc([], n, prev, rs[k]);
        calc {
          WindowAfter([], n, rs);
          Update(WindowAfter([], n, prev), n, rs[k]);
          Update(prev[k - h..], n, rs[k]);
          { UpdateOfSuffix(prev, h, n, rs[k]); }
          (prev + [rs[k]])[i..];
          { assert prev + [rs[k]] == rs; }
          rs[i..];
        }
      }
    }
  }

  /** From an empty window the length after k ticks is min(k, n) for a
      size of 2 or more, and k for a size of 1. */
  lemma LengthAfter<T>(n: nat, rs: seq<T>)
    requires n >= 1
    ensures n >= 2 ==> |WindowAfter([], n, rs)| == Min(|rs|, n)
    ensures n == 1 ==> |WindowAfter([], n, rs)| == |rs|
  {
    WindowAfterIsSuffix(n, rs);
    HeldStep(|rs|, n);
  }

  /** The save test of the background loop: the tick time is a multiple of
      the window size (the source divides by data_aggregate_size, not by the
      aggregation period in seconds) and the window holds at least half of
      its size, compared as Python's true division does. Python's `%` by a
      positive divisor agrees with Dafny's for every integer t. */
  predicate ShouldSave(t: int, size: nat, len: nat)
    requires size > 0
  {
    t % size == 0 && len as real >= size as real / 2.0
  }

  /** The half-size test on naturals is exactly 2 * len >= size. */
  lemma ShouldSaveIff(t: int, size: nat, len: nat)
    requires size > 0
    ensures ShouldSave(t, size, len) <==> t % size == 0 && 2 * len >= size
  {
  }

  /** After a cold start the first save needs at least half a window of
      ticks: a save on the k-th tick from empty implies 2 * k >= n. */
  lemma NoEarlySave<T>(t: int, n: nat, rs: seq<T>)
    requires n >= 1
    requires ShouldSave(t, n, |WindowAfter([], n, rs)|)
    ensures 2 * |rs| >= n
  {
    WindowAfterIsSuffix(n, rs);
    HeldStep(|rs|, n);
  }

  /** With the default size of 6, two records on a boundary tick are not
      enough to save and three are. */
  lemma DefaultSizeGate(t: int)
    requires t % 6 == 0
    ensures !ShouldSave(t, 6, 2) && ShouldSave(t, 6, 3)
  {
  }
}
