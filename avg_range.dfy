/**
 * `MovingAverage`: a fixed window of the 60 most recent throughput samples,
 * kept in two arrays written round-robin, with a fill counter (`high_water`)
 * that saturates at the window size.
 *
 * `average` sums the filled slots and divides; the model returns the two
 * integer sums and leaves the `f64` division out.
 */
module AvgRange {

  /** Number of slots of each window array (`[u64; 60]`). */
  const WindowSize: nat := 60

  /** One `(bytes, time)` sample handed to `add`. */
  datatype Sample = Sample(bytes: nat, time: nat)

  function Min(a: nat, b: nat): nat
  {
    if a <= b then a else b
  }

  /** The samples of `h` that a 60-slot window can still hold: the most recent ones, oldest first. */
  function LastWindow(h: seq<Sample>): seq<Sample>
  {
    h[|h| - Min(|h|, WindowSize)..]
  }

  /** Sum of the `bytes` of the samples in `s`. */
  function SumBytes(s: seq<Sample>): nat
  {
    if s == [] then 0 else SumBytes(s[..|s| - 1]) + s[|s| - 1].bytes
  }

  /** Sum of the `time` of the samples in `s`. */
  function SumTime(s: seq<Sample>): nat
  {
    if s == [] then 0 else SumTime(s[..|s| - 1]) + s[|s| - 1].time
  }

  /** `s` rotated left by `r` places. */
  function Rotated<T>(s: seq<T>, r: nat): seq<T>
    requires r <= |s|
  {
    s[r..] + s[..r]
  }

  /**
   * Where the samples of the history `h` sit in slots `0 .. min(|h|, 60)`
   * after they have been added one by one to a new window: sample `j` went
   * to slot `j % 60`, and later samples overwrote earlier ones.
   */
  function WindowSlots(h: seq<Sample>): (w: seq<Sample>)
    ensures |w| == Min(|h|, WindowSize)
  {
    var last := LastWindow(h);
    Rotated(last, |last| - |h| % WindowSize)
  }

  lemma {:induction false} SumsOfConcat(a: seq<Sample>, b: seq<Sample>)
    ensures SumBytes(a + b) == SumBytes(a) + SumBytes(b)
    ensures SumTime(a + b) == SumTime(a) + SumTime(b)
  {
    if b != [] {
      var b' := b[..|b| - 1];
      assert (a + b)[..|a + b| - 1] == a + b';
      SumsOfConcat(a, b');
    } else {
      assert a + b == a;
    }
  }

  /** Rotating a window does not change what it sums to. */
  lemma {:induction false} RotatedSums(s: seq<Sample>, r: nat)
    requires r <= |s|
    ensures SumBytes(Rotated(s, r)) == SumBytes(s)
    ensures SumTime(Rotated(s, r)) == SumTime(s)
  {
    var front, back := s[..r], s[r..];
    assert Rotated(s, r) == back + front;
    assert s == front + back;
    SumsOfConcat(back, front);
    SumsOfConcat(front, back);
  }

  /** The filled slots hold exactly the most recent `min(n, 60)` samples, in some rotation. */
  lemma WindowSlotsSums(h: seq<Sample>)
    ensures SumBytes(WindowSlots(h)) == SumBytes(LastWindow(h))
    ensures SumTime(WindowSlots(h)) == SumTime(LastWindow(h))
  {
    var last := LastWindow(h);
    RotatedSums(last, |last| - |h| % WindowSize);
  }

  /** Advancing the wrap-around index by one is counting one more sample modulo 60. */
  lemma IndexAdvance(n: nat)
    ensures (n % WindowSize + 1) % WindowSize == (n + 1) % WindowSize
    ensures n % WindowSize < WindowSize
    ensures n < WindowSize ==> n % WindowSize == n
  {
  }

  /** Before the window is full, slot `j` holds sample `j`, and a new sample is appended. */
  lemma WindowSlotsAfterAddFilling(h: seq<Sample>, s: Sample)
    requires |h| < WindowSize
    ensures WindowSlots(h) == h
    ensures WindowSlots(h + [s]) == h + [s]
  {
    var h' := h + [s];
    assert LastWindow(h) == h;
    assert LastWindow(h') == h';
    IndexAdvance(|h|);
    assert |h'| % WindowSize == if |h'| < WindowSize then |h'| else 0;
  }

  /** The last window after one more sample: the oldest sample drops out. */
  lemma LastWindowShift(h: seq<Sample>, s: Sample)
    requires |h| >= WindowSize
    ensures LastWindow(h + [s]) == LastWindow(h)[1..] + [s]
  {
    var n := |h|;
    assert LastWindow(h) == h[n - WindowSize..];
    assert LastWindow(h + [s]) == (h + [s])[n + 1 - WindowSize..];
  }

  lemma RotatedIndex<T>(s: seq<T>, r: nat, k: nat)
    requires r <= |s| && k < |s|
    ensures Rotated(s, r)[k] == if k < |s| - r then s[r + k] else s[k - (|s| - r)]
  {
  }

  /**
   * Dropping the oldest element of `w`, appending `x` and rotating one place
   * less is overwriting slot `i` of the rotated `w`.
   */
  lemma RotatedShift<T>(w: seq<T>, x: T, i: nat)
    requires i < |w|
    ensures Rotated(w[1..] + [x], |w| - 1 - i) == Rotated(w, |w| - i)[i := x]
  {
    var w' := w[1..] + [x];
    var left, right := Rotated(w', |w| - 1 - i), Rotated(w, |w| - i)[i := x];
    forall k | 0 <= k < |w|
      ensures left[k] == right[k]
    {
      RotatedIndex(w', |w| - 1 - i, k);
      RotatedIndex(w, |w| - i, k);
    }
  }

  /** Rotating by the whole length is no rotation. */
  lemma RotatedWhole<T>(s: seq<T>)
    ensures Rotated(s, |s|) == Rotated(s, 0)
  {
    assert Rotated(s, |s|) == s == Rotated(s, 0);
  }

  /** The wrap-around index after one more sample: the next slot, or slot 0 after the last. */
  lemma NextIndex(n: nat)
    ensures n % WindowSize < WindowSize
    ensures (n + 1) % WindowSize == if n % WindowSize < WindowSize - 1 then n % WindowSize + 1 else 0
  {
    IndexAdvance(n);
    IndexAdvance(n % WindowSize + 1);
  }

  /** A full window's slots are its last 60 samples rotated by `60 - n % 60`. */
  lemma FullWindowSlots(h: seq<Sample>)
    requires |h| >= WindowSize
    ensures |LastWindow(h)| == WindowSize
    ensures |h| % WindowSize <= WindowSize
    ensures WindowSlots(h) == Rotated(LastWindow(h), WindowSize - |h| % WindowSize)
  {
  }

  /** Once the window is full, a new sample overwrites the slot at the wrap-around index. */
  lemma WindowSlotsAfterAddFull(h: seq<Sample>, s: Sample)
    requires |h| >= WindowSize
    ensures |h| % WindowSize < |WindowSlots(h)|
    ensures WindowSlots(h + [s]) == WindowSlots(h)[|h| % WindowSize := s]
  {
    var w, i, j := LastWindow(h), |h| % WindowSize, (|h| + 1) % WindowSize;
    var w' := w[1..] + [s];
    NextIndex(|h|);
    FullWindowSlots(h);
    FullWindowSlots(h + [s]);
    LastWindowShift(h, s);
    assert WindowSlots(h) == Rotated(w, WindowSize - i);
    assert WindowSlots(h + [s]) == Rotated(w', WindowSize - j);
    RotatedShift(w, s, i);
    if i < WindowSize - 1 {
      assert WindowSize - j == WindowSize - 1 - i;
    } else {
      RotatedWhole(w');
    }
  }

  /**
   * Adding a sample to the history writes it into slot `n % 60` of the
   * window and leaves every other filled slot as it was.
   */
  lemma WindowSlotsAfterAdd(h: seq<Sample>, s: Sample)
    ensures |WindowSlots(h + [s])| == Min(|h| + 1, WindowSize)
    ensures |h| % WindowSize < |WindowSlots(h + [s])| && WindowSlots(h + [s])[|h| % WindowSize] == s
    ensures forall k :: 0 <= k < |WindowSlots(h)| && k != |h| % WindowSize ==>
      WindowSlots(h + [s])[k] == WindowSlots(h)[k]
  {
    IndexAdvance(|h|);
    if |h| < WindowSize {
      WindowSlotsAfterAddFilling(h, s);
    } else {
      WindowSlotsAfterAddFull(h, s);
    }
  }

  /**
   * The window invariant on the contents of the two arrays: slot `k <
   * highWater` holds the sample `WindowSlots(h)` puts there, the slots not
   * yet filled are still zero, and `index` and `highWater` are the number
   * of samples modulo and capped at 60.
   */
  ghost predicate WindowHolds(bytes: seq<nat>, time: seq<nat>, index: nat, highWater: nat, h: seq<Sample>)
  {
    && |bytes| == WindowSize
    && |time| == WindowSize
    && index == |h| % WindowSize
    && highWater == Min(|h|, WindowSize)
    && (forall k :: 0 <= k < highWater ==>
          bytes[k] == WindowSlots(h)[k].bytes && time[k] == WindowSlots(h)[k].time)
    && (forall k :: highWater <= k < WindowSize ==> bytes[k] == 0 && time[k] == 0)
  }

  /** One `add` on the array contents keeps the window invariant, with the sample appended to the history. */
  lemma AddKeepsWindow(bytes: seq<nat>, time: seq<nat>, index: nat, highWater: nat, h: seq<Sample>, b: nat, t: nat)
    requires WindowHolds(bytes, time, index, highWater, h)
    ensures index < WindowSize
    ensures WindowHolds(bytes[index := b], time[index := t], (index + 1) % WindowSize,
                        if highWater < WindowSize then highWater + 1 else WindowSize, h + [Sample(b, t)])
  {
    IndexAdvance(|h|);
    WindowSlotsAfterAdd(h, Sample(b, t));
    var highWater' := if highWater < WindowSize then highWater + 1 else WindowSize;
    var bytes', time' := bytes[index := b], time[index := t];
    assert highWater < WindowSize ==> index == highWater;
    forall k | 0 <= k < highWater'
      ensures bytes'[k] == WindowSlots(h + [Sample(b, t)])[k].bytes
      ensures time'[k] == WindowSlots(h + [Sample(b, t)])[k].time
    {
      if k != index {
        assert k < highWater;
      }
    }
    forall k | highWater' <= k < WindowSize
      ensures bytes'[k] == 0 && time'[k] == 0
    {
      assert highWater <= k && k != index;
    }
  }

  class MovingAverage {
    const windowBytes: array<nat>
    const windowTime: array<nat>
    var index: nat
    var highWater: nat

    /** Every sample handed to `Add` so far, oldest first. */
    ghost var History: seq<Sample>

    /** Two distinct arrays whose contents, with `index` and `highWater`, hold the window of `History`. */
    ghost predicate Valid()
      reads this, windowBytes, windowTime
    {
      && windowBytes != windowTime
      && WindowHolds(windowBytes[..], windowTime[..], index, highWater, History)
    }

    /** `MovingAverage::new`: both windows zero, `index` and `high_water` zero. */
    constructor ()
      ensures Valid() && fresh(windowBytes) && fresh(windowTime)
      ensures History == [] && index == 0 && highWater == 0
      ensures forall k :: 0 <= k < WindowSize ==> windowBytes[k] == 0 && windowTime[k] == 0
    {
      windowBytes := new nat[WindowSize](_ => 0);
      windowTime := new nat[WindowSize](_ => 0);
      index := 0;
      highWater := 0;
      History := [];
    }

    /**
     * `add`: write the sample into the slot at `index`, leave every other slot
     * alone, advance `index` modulo 60 and raise `high_water` until it reaches 60.
     */
    method Add(bytes: nat, time: nat)
      requires Valid()
      modifies this, windowBytes, windowTime
      ensures Valid()
      ensures History == old(History) + [Sample(bytes, time)]
      ensures windowBytes[old(index)] == bytes && windowTime[old(index)] == time
      ensures forall k :: 0 <= k < WindowSize && k != old(index) ==>
        windowBytes[k] == old(windowBytes[k]) && windowTime[k] == old(windowTime[k])
      ensures index == (old(index) + 1) % WindowSize
      ensures highWater == if old(highWater) < WindowSize then old(highWater) + 1 else WindowSize
    {
      AddKeepsWindow(windowBytes[..], windowTime[..], index, highWater, History, bytes, time);
      windowBytes[index] := bytes;
      windowTime[index] := time;
      History := History + [Sample(bytes, time)];
      index := (index + 1) % WindowSize;
      if highWater < WindowSize {
        highWater := highWater + 1;
      }
      assert windowBytes[..] == old(windowBytes[..])[old(index) := bytes];
      assert windowTime[..] == old(windowTime[..])[old(index) := time];
    }

    /**
     * `average` without its final division: the byte and millisecond sums
     * over slots `0 .. high_water`, which are the sums over the most recent
     * `min(n, 60)` samples and never include an overwritten one.
     */
    method Average() returns (sumBytes: nat, sumTime: nat)
      requires Valid()
      ensures sumBytes == SumBytes(LastWindow(History))
      ensures sumTime == SumTime(LastWindow(History))
    {
      ghost var slots := WindowSlots(History);
      sumBytes, sumTime := 0, 0;
      for i := 0 to highWater
        invariant sumBytes == SumBytes(slots[..i])
        invariant sumTime == SumTime(slots[..i])
      {
        assert slots[..i + 1][..i] == slots[..i];
        sumBytes := sumBytes + windowBytes[i];
        sumTime := sumTime + windowTime[i];
      }
      assert slots[..highWater] == slots;
      WindowSlotsSums(History);
    }
  }

  lemma SingleSums(x: Sample)
    ensures SumBytes([x]) == x.bytes && SumTime([x]) == x.time
  {
    assert [x][..0] == [];
  }

  /** The sums of a history of two samples. */
  lemma PairSums(a: Sample, b: Sample)
    ensures LastWindow([a, b]) == [a, b]
    ensures SumBytes([a, b]) == a.bytes + b.bytes && SumTime([a, b]) == a.time + b.time
  {
    assert [a, b] == [a] + [b];
    SumsOfConcat([a], [b]);
    SingleSums(a);
    SingleSums(b);
  }

  /** Two samples in a new window: the sums are those of the two samples. */
  method AverageOfTwo(bytes1: nat, time1: nat, bytes2: nat, time2: nat) returns (sumBytes: nat, sumTime: nat)
    ensures sumBytes == bytes1 + bytes2 && sumTime == time1 + time2
  {
    var avg := new MovingAverage();
    avg.Add(bytes1, time1);
    avg.Add(bytes2, time2);
    sumBytes, sumTime := avg.Average();
    assert avg.History == [Sample(bytes1, time1), Sample(bytes2, time2)];
    PairSums(Sample(bytes1, time1), Sample(bytes2, time2));
  }

  /** Two samples of 1000 and 2000 bytes, 500 ms each: 3000 bytes over 1000 ms, 3 bytes per millisecond. */
  method TwoSampleAverage() returns (sumBytes: nat, sumTime: nat)
    ensures sumBytes == 3000 && sumTime == 1000
    ensures sumBytes == 3 * sumTime
  {
    sumBytes, sumTime := AverageOfTwo(1000, 500, 2000, 500);
  }
}
