/** The arithmetic the emitter's pool and timing rest on, as pure definitions with
    their properties: the "leaky bucket" emission interval, the wrap-around search
    for a free pool slot, the selection made by a bulk emission, the free-slot hint
    and the active-particle counter, and the values a particle draws when it spawns. */
module Emission {
  import opened Common

  // ---------------------------------------------------------------------------
  // The emission interval

  /** What one frame adds to the interval: the frame time, but never more than one
      target interval, so a long frame cannot queue up more than one emission. */
  function ClampedStep(tpf: real, target: real): (r: real)
    ensures r <= tpf && r <= target
    ensures r == tpf || r == target
  {
    if tpf <= target then tpf else target
  }

  /** `calcParticlesPerEmission()`: the interval as a multiple of the target interval
      times the particles per emission, cast to `int` (truncation toward zero). */
  function EmissionCount(current: real, target: real, perEmission: int): int
    requires target > 0.0
  {
    TruncToInt(current / target * perEmission as real)
  }

  /** The emitter has not outlived its life: a zero life means "forever". */
  function IsAlive(emitterLife: real, emittedTime: real): bool {
    emitterLife == 0.0 || emittedTime < emitterLife
  }

  /** The start delay has passed: a zero delay means "no delay". */
  function DelayReady(emitterDelay: real, emittedTime: real): bool {
    emitterDelay == 0.0 || emittedTime >= emitterDelay
  }

  /** The interval after one enabled frame: add the clamped frame time and, when the
      sum exceeds the target interval, take exactly one target interval off. */
  function FrameInterval(current: real, target: real, tpf: real): real {
    var c := current + ClampedStep(tpf, target);
    if c <= target then c else c - target
  }

  /** The number of `emitNextParticle` calls a frame makes: none unless the interval
      exceeds the target, none before the delay or after the emitter's life, and none
      for a negative count. */
  function FrameAttempts(current: real, target: real, tpf: real, perEmission: int,
                         emitterDelay: real, emitterLife: real, emittedTime: real): int
    requires target > 0.0
  {
    var c := current + ClampedStep(tpf, target);
    if c <= target then 0
    else if DelayReady(emitterDelay, emittedTime) && IsAlive(emitterLife, emittedTime)
    then Max(EmissionCount(c, target, perEmission), 0)
    else 0
  }

  /** An interval that lies in (target, 2 target] yields between one and two batches
      of `perEmission` particles. */
  lemma EmissionCountBounds(current: real, target: real, perEmission: int)
    requires target > 0.0 && target < current <= 2.0 * target
    requires perEmission >= 0
    ensures perEmission <= EmissionCount(current, target, perEmission) <= 2 * perEmission
  {
    RatioBetween(current, target);
    ScaledBetween(current / target, perEmission as real);
    var y := current / target * perEmission as real;
    assert y >= perEmission as real;
    assert y <= 2.0 * perEmission as real;
    var r := TruncToInt(y);
    assert r as real <= y < r as real + 1.0;
    assert perEmission as real < r as real + 1.0;
    assert (r + 1) as real == r as real + 1.0;
  }

  lemma RatioBetween(current: real, target: real)
    requires target > 0.0 && target < current <= 2.0 * target
    ensures 1.0 < current / target <= 2.0
  {
    var x := current / target;
    assert x * target == current;
  }

  lemma ScaledBetween(x: real, p: real)
    requires 1.0 < x <= 2.0 && p >= 0.0
    ensures p <= x * p <= 2.0 * p
  {
    ProductNonNegative(x - 1.0, p);
    ProductNonNegative(2.0 - x, p);
  }

  /** One frame keeps the interval in (0, target] when it starts there, whatever the
      (non-negative) frame time. */
  lemma FrameKeepsBounds(current: real, target: real, tpf: real)
    requires 0.0 < target && 0.0 < current <= target && tpf >= 0.0
    ensures 0.0 < FrameInterval(current, target, tpf) <= target
  {
  }

  /** The interval after a run of frames. */
  function RunInterval(current: real, target: real, frames: seq<real>): real
    decreases |frames|
  {
    if |frames| == 0 then current
    else RunInterval(FrameInterval(current, target, frames[0]), target, frames[1..])
  }

  /** Starting from `resetInterval` (the interval equal to the target), the interval
      stays in (0, target] between frames over any run of non-negative frame times. */
  lemma {:induction false} RunKeepsBounds(current: real, target: real, frames: seq<real>)
    requires 0.0 < target && 0.0 < current <= target
    requires forall i :: 0 <= i < |frames| ==> frames[i] >= 0.0
    ensures 0.0 < RunInterval(current, target, frames) <= target
    decreases |frames|
  {
    if |frames| > 0 {
      FrameKeepsBounds(current, target, frames[0]);
      RunKeepsBounds(FrameInterval(current, target, frames[0]), target, frames[1..]);
    }
  }

  /** On a frame that starts in (0, target], the emitter attempts no emissions when
      the interval does not exceed the target, and otherwise (delay passed and emitter
      alive) between one and two batches. */
  lemma FrameAttemptsBounds(current: real, target: real, tpf: real, perEmission: int,
                            emitterDelay: real, emitterLife: real, emittedTime: real)
    requires 0.0 < target && 0.0 < current <= target && tpf >= 0.0 && perEmission >= 0
    ensures var n := FrameAttempts(current, target, tpf, perEmission, emitterDelay, emitterLife, emittedTime);
      0 <= n <= 2 * perEmission
    ensures current + ClampedStep(tpf, target) > target &&
            DelayReady(emitterDelay, emittedTime) && IsAlive(emitterLife, emittedTime) ==>
      FrameAttempts(current, target, tpf, perEmission, emitterDelay, emitterLife, emittedTime) >= perEmission
    ensures current + ClampedStep(tpf, target) <= target ==>
      FrameAttempts(current, target, tpf, perEmission, emitterDelay, emitterLife, emittedTime) == 0
  {
    var c := current + ClampedStep(tpf, target);
    if c > target {
      EmissionCountBounds(c, target, perEmission);
    }
  }

  /** A frame far longer than the target interval, arriving when the interval is
      full, attempts exactly two batches and leaves the interval full again. */
  lemma LongFrameEmitsTwoBatches(perEmission: int)
    requires perEmission >= 0
    ensures FrameAttempts(0.1, 0.1, 1.0, perEmission, 0.0, 0.0, 1.0) == 2 * perEmission
    ensures FrameInterval(0.1, 0.1, 1.0) == 0.1
  {
    assert 0.2 / 0.1 * perEmission as real == 2.0 * perEmission as real;
  }

  // ---------------------------------------------------------------------------
  // The wrap-around search for a free slot

  /** The pool slot `k` places after `from`, wrapping around the end of an `n`-slot
      pool. */
  function Cyc(from: nat, k: nat, n: nat): (r: nat)
    requires from < n && k <= n
    ensures r < n
  {
    if from + k < n then from + k else from + k - n
  }

  /** The first offset from `k` on whose slot is not active, or `|flags|` when every
      slot from offset `k` to the end of the round is active. */
  function FreeOffset(flags: seq<bool>, from: nat, k: nat): (r: nat)
    requires from < |flags| && k <= |flags|
    ensures k <= r <= |flags|
    ensures forall j :: k <= j < r ==> flags[Cyc(from, j, |flags|)]
    ensures r < |flags| ==> !flags[Cyc(from, r, |flags|)]
    decreases |flags| - k
  {
    if k == |flags| then k
    else if !flags[Cyc(from, k, |flags|)] then k
    else FreeOffset(flags, from, k + 1)
  }

  /** Where the hint goes after slot `from` is activated by `emitNextParticle`: the
      first inactive slot found by walking on from `from` and wrapping around at
      the end, or -1 when the walk comes back to `from` without finding one. */
  function NextFree(flags: seq<bool>, from: nat): int
    requires from < |flags|
  {
    var k := FreeOffset(flags, from, 1);
    if k == |flags| then -1 else Cyc(from, k, |flags|)
  }

  /** Slot `i` lies strictly after `from` and strictly before `to` on the cyclic walk. */
  predicate CyclicBetween(from: nat, i: nat, to: nat) {
    if from < to then from < i < to else from < i || i < to
  }

  /** The offset at which the walk from `from` reaches slot `i`. */
  function OffsetOf(from: nat, i: nat, n: nat): (k: nat)
    requires from < n && i < n
    ensures k < n && Cyc(from, k, n) == i
    ensures k == 0 <==> i == from
  {
    if from <= i then i - from else i + n - from
  }

  /** With the slot just activated at `from`, the search returns -1 exactly when every
      slot of the pool is active; otherwise it returns an inactive slot other than
      `from`, and every slot it walked past on the way is active. */
  lemma NextFreeSpec(flags: seq<bool>, from: nat)
    requires from < |flags| && flags[from]
    ensures NextFree(flags, from) == -1 <==> forall i :: 0 <= i < |flags| ==> flags[i]
    ensures NextFree(flags, from) != -1 ==>
      var r := NextFree(flags, from);
      0 <= r < |flags| && r != from && !flags[r] &&
      forall i :: 0 <= i < |flags| && CyclicBetween(from, i, r) ==> flags[i]
  {
    var n := |flags|;
    var k := FreeOffset(flags, from, 1);
    if k == n {
      forall i | 0 <= i < n ensures flags[i] {
        var o := OffsetOf(from, i, n);
        if o != 0 {
          assert flags[Cyc(from, o, n)];
        }
      }
    } else {
      var r := Cyc(from, k, n);
      assert OffsetOf(from, r, n) == k;
      forall i | 0 <= i < n && CyclicBetween(from, i, r) ensures flags[i] {
        var o := OffsetOf(from, i, n);
        assert 1 <= o < k;
      }
    }
  }

  /** Walking one active slot further does not change where the search ends. */
  lemma FreeOffsetSkip(flags: seq<bool>, from: nat, k: nat)
    requires from < |flags| && k < |flags| && flags[Cyc(from, k, |flags|)]
    ensures FreeOffset(flags, from, k) == FreeOffset(flags, from, k + 1)
  {
  }

  // ---------------------------------------------------------------------------
  // Bulk emission

  /** The number of inactive slots among the first `j`. */
  function InactiveBefore(flags: seq<bool>, j: nat): (c: nat)
    requires j <= |flags|
    ensures c <= j
  {
    if j == 0 then 0 else InactiveBefore(flags, j - 1) + (if flags[j - 1] then 0 else 1)
  }

  /** The number of inactive slots in the pool. */
  function CountInactive(flags: seq<bool>): nat {
    InactiveBefore(flags, |flags|)
  }

  /** The slots `emitNumParticles(count)` activates: an inactive slot is taken while
      fewer than `count` inactive slots come before it. */
  predicate Chosen(flags: seq<bool>, count: int, j: nat)
    requires j < |flags|
  {
    !flags[j] && InactiveBefore(flags, j) < count
  }

  /** Counting inactive slots is monotone in the prefix length. */
  lemma {:induction false} InactiveBeforeMonotone(flags: seq<bool>, i: nat, j: nat)
    requires i <= j <= |flags|
    ensures InactiveBefore(flags, i) <= InactiveBefore(flags, j)
    decreases j - i
  {
    if i < j {
      InactiveBeforeMonotone(flags, i, j - 1);
    }
  }

  /** The chosen slots are the lowest-indexed inactive ones: an inactive slot below a
      chosen slot is chosen too. */
  lemma ChosenAreLowest(flags: seq<bool>, count: int, i: nat, j: nat)
    requires i < j < |flags| && Chosen(flags, count, j) && !flags[i]
    ensures Chosen(flags, count, i)
  {
    InactiveBeforeMonotone(flags, i, j);
  }

  /** The number of chosen slots among the first `j`. */
  function ChosenBefore(flags: seq<bool>, count: int, j: nat): nat
    requires j <= |flags|
  {
    if j == 0 then 0
    else ChosenBefore(flags, count, j - 1) + (if Chosen(flags, count, j - 1) then 1 else 0)
  }

  /** Among the first `j` slots, `emitNumParticles(count)` activates `count` of the
      inactive ones, or all of them when there are fewer (none for a negative count). */
  lemma {:induction false} ChosenBeforeIsMin(flags: seq<bool>, count: int, j: nat)
    requires j <= |flags|
    ensures ChosenBefore(flags, count, j) == Min(InactiveBefore(flags, j), Max(count, 0))
  {
    if j > 0 {
      ChosenBeforeIsMin(flags, count, j - 1);
    }
  }

  // ---------------------------------------------------------------------------
  // The free-slot hint and the active counter

  /** `setNextIndex(index)`: the hint moves to `index` unless it already points at a
      slot no higher than `index`. */
  function OfferIndex(hint: int, index: int): int {
    if index >= hint && hint != -1 then hint else index
  }

  /** A slot offered to an empty hint (-1) becomes the hint; otherwise the hint only
      ever moves down, to the lower of the two slots. */
  lemma OfferIndexLowers(hint: int, index: int)
    ensures hint == -1 ==> OfferIndex(hint, index) == index
    ensures hint != -1 ==> OfferIndex(hint, index) == Min(hint, index)
  {
  }

  /** `notifyParticleDeactivated()`: one less, unless the counter is already negative. */
  function Decrement(count: int): int {
    if count < 0 then count else count - 1
  }

  /** `n` deactivation notifications in a row. */
  function DecrementTimes(count: int, n: nat): int {
    if n == 0 then count else Decrement(DecrementTimes(count, n - 1))
  }

  /** From a counter of at least -1, `n` notifications count down by `n` but stop at
      -1: the counter never goes below -1. */
  lemma {:induction false} DecrementTimesFloor(count: int, n: nat)
    requires count >= -1
    ensures DecrementTimes(count, n) == Max(count - n, -1)
  {
    if n > 0 {
      DecrementTimesFloor(count, n - 1);
    }
  }

  /** Notifications compose: `n` and then `m` are `n + m`. */
  lemma {:induction false} DecrementTimesAdd(count: int, n: nat, m: nat)
    ensures DecrementTimes(DecrementTimes(count, n), m) == DecrementTimes(count, n + m)
  {
    if m > 0 {
      DecrementTimesAdd(count, n, m - 1);
    }
  }

  // ---------------------------------------------------------------------------
  // Spawn values

  /** How `initialize` draws a particle's start life and force from a `[min, max]`
      range with a random `r`: the maximum when the two bounds are equal, otherwise
      `min + r * (max - min)`. */
  function Draw(lo: real, hi: real, r: real): real {
    if lo != hi then Times(hi - lo, r) + lo else hi
  }

  /** With `r` in [0, 1) a drawn value lies in the range, and below the maximum
      unless the range is a single value. */
  lemma DrawInRange(lo: real, hi: real, r: real)
    requires lo <= hi && 0.0 <= r < 1.0
    ensures lo <= Draw(lo, hi, r) <= hi
    ensures lo < hi ==> Draw(lo, hi, r) < hi
  {
    if lo != hi {
      ProductBelow(hi - lo, r);
    }
  }

  /** The life fraction `update` computes for a particle: how much of its start life
      has been used up. */
  function BlendOf(startLife: real, life: real): real
    requires startLife != 0.0
  {
    (startLife - life) / startLife
  }

  /** For a particle still alive (0 < life <= startLife) the fraction lies in [0, 1):
      0 at spawn, approaching 1 as the life runs out. */
  lemma BlendInRange(startLife: real, life: real)
    requires 0.0 < life <= startLife
    ensures 0.0 <= BlendOf(startLife, life) < 1.0
    ensures life == startLife ==> BlendOf(startLife, life) == 0.0
  {
    var x := BlendOf(startLife, life);
    assert x * startLife == startLife - life;
    if x >= 1.0 {
      var e := x - 1.0;
      ProductNonNegative(e, startLife);
      assert false;
    }
    if x < 0.0 {
      var m := -x;
      ProductNonNegative(m, startLife);
      assert false;
    }
  }
}
