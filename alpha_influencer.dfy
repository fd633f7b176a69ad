/** The alpha influencer (`AlphaInfluencer`): a list of alpha keyframes kept in
    lock-step with the step list of curves, and a per-particle step machine that walks
    the keyframes cyclically and writes the interpolated alpha into the particle. */
module Alpha {
  import opened Common
  import opened InterpolatedInfluencer

  /** The cyclic successor of keyframe `i` among `n`: the next one, or the first
      after the last. */
  function Successor(i: nat, n: nat): (r: nat)
    requires i < n
    ensures r < n
    ensures r == (i + 1) % n
  {
    if i == n - 1 then 0 else i + 1
  }

  /** `k` successor steps from the first keyframe. */
  function Walk(k: nat, n: nat): (r: nat)
    requires n > 0
    ensures r < n
  {
    if k == 0 then 0 else Successor(Walk(k - 1, n), n)
  }

  /** Within the first round the walk from keyframe 0 visits keyframe `k` at step `k`. */
  lemma {:induction false} WalkFirstRound(k: nat, n: nat)
    requires k < n
    ensures Walk(k, n) == k
  {
    if k > 0 {
      WalkFirstRound(k - 1, n);
    }
  }

  /** The walk is periodic: after `n` more steps it is back at the same keyframe, so
      every keyframe is visited in order and the walk starts over after the last. */
  lemma {:induction false} WalkPeriodic(k: nat, n: nat)
    requires n > 0
    ensures Walk(k + n, n) == Walk(k, n)
  {
    if k == 0 {
      WalkFirstRound(n - 1, n);
    } else {
      WalkPeriodic(k - 1, n);
      assert Walk(k + n, n) == Successor(Walk(k - 1 + n, n), n);
    }
  }

  /** jME's `FastMath.interpolateLinear(scale, start, end)`: the start value for a
      non-positive scale, the end value from scale 1 on, the straight line between. */
  function InterpolateLinear(scale: real, start: real, end: real): real {
    if start == end then start
    else if scale <= 0.0 then start
    else if scale >= 1.0 then end
    else (1.0 - scale) * start + scale * end
  }

  /** The interpolated value always lies between the two keyframe values. */
  lemma InterpolateLinearBetween(scale: real, start: real, end: real)
    ensures (start <= end ==> start <= InterpolateLinear(scale, start, end) <= end)
    ensures (end <= start ==> end <= InterpolateLinear(scale, start, end) <= start)
  {
    if start != end && 0.0 < scale < 1.0 {
      var v := (1.0 - scale) * start + scale * end;
      assert v == start + scale * (end - start);
      var d := if start <= end then end - start else start - end;
      ProductNonNegative(1.0 - scale, d);
      ProductNonNegative(scale, d);
    }
  }

  /** The alpha shown at keyframe `index` with eased progress `blend`: the linear
      interpolation from that keyframe to its cyclic successor. */
  function AlphaAt(alphas: seq<real>, index: nat, blend: real): real
    requires index < |alphas|
  {
    InterpolateLinear(blend, alphas[index], alphas[Successor(index, |alphas|)])
  }

  /** The per-particle step duration: the fixed duration when cycling, otherwise the
      particle's life shared equally among the `n - 1` transitions. */
  function StepDuration(cycle: bool, fixedDuration: real, startLife: real, n: nat): real
    requires cycle || n >= 2
  {
    if cycle then fixedDuration else startLife / (n as real - 1.0)
  }

  /** One frame of the step machine on (index, elapsed interval): add the frame time,
      wrap an index past the end to 0, and on reaching the duration advance one
      keyframe and take one duration off the interval. */
  function Step(index: nat, interval: real, duration: real, n: nat, tpf: real): (nat, real)
    requires n > 0
  {
    var elapsed := interval + tpf;
    var current := if index >= n then 0 else index;
    if elapsed >= duration then (Successor(current, n), elapsed - duration)
    else (current, elapsed)
  }

  /** With a positive duration and a frame no longer than one step, a particle whose
      elapsed interval lies in [0, duration) keeps it there, and its index stays a
      keyframe index. */
  lemma StepKeepsBounds(index: nat, interval: real, duration: real, n: nat, tpf: real)
    requires n > 0 && duration > 0.0
    requires 0.0 <= interval < duration && 0.0 <= tpf <= duration
    ensures var (i, t) := Step(index, interval, duration, n, tpf); i < n && 0.0 <= t < duration
  {
  }

  /** Keyframes 1 -> 0 over a two-second life with the linear curve: the alpha is
      1 at spawn, falls linearly and strictly, and reaches 0 at the end of life. */
  lemma FadeOut(t: real, u: real)
    requires 0.0 <= t < u <= 2.0
    ensures AlphaAt([1.0, 0.0], 0, 0.0 / 2.0) == 1.0
    ensures AlphaAt([1.0, 0.0], 0, t / 2.0) == 1.0 - t / 2.0
    ensures AlphaAt([1.0, 0.0], 0, u / 2.0) < AlphaAt([1.0, 0.0], 0, t / 2.0)
    ensures AlphaAt([1.0, 0.0], 0, 2.0 / 2.0) == 0.0
  {
  }

  /** The alpha influencer's per-particle state. The Java influencer keeps it in
      `ParticleData` fields (`alphaIndex`, `alphaInterval`, `alphaDuration`,
      `alphaInterpolation`, `startlife`) that the particle class does not declare, so
      it is a record of its own here, next to the particle's `alpha`. */
  class AlphaParticleData {
    var alphaIndex: int
    var alphaInterval: real
    var alphaDuration: real
    var alphaInterpolation: Interpolation
    var alpha: real
    var startLife: real

    constructor (startLife: real)
      ensures this.startLife == startLife && alpha == 1.0
      ensures alphaIndex == 0 && alphaInterval == 0.0 && alphaDuration == 0.0
    {
      this.startLife := startLife;
      alpha := 1.0;
      alphaIndex := 0;
      alphaInterval := 0.0;
      alphaDuration := 0.0;
      alphaInterpolation := Linear;
    }
  }

  class AlphaInfluencer {
    /** The step list inherited from `AbstractInterpolatedParticleInfluencer`. */
    const steps: InterpolatedParticleInfluencer
    var alphas: seq<real>
    var startAlpha: real
    /** Only assigned when an influencer is loaded, which is not part of this model. */
    var randomStartAlpha: bool

    /** One keyframe value per curve. */
    ghost predicate Valid()
      reads this, steps
    {
      |alphas| == |steps.interpolations|
    }

    constructor ()
      ensures Valid() && fresh(steps)
      ensures alphas == [] && steps.interpolations == [] && startAlpha == 1.0
      ensures !steps.cycle && steps.enabled && !randomStartAlpha
    {
      steps := new InterpolatedParticleInfluencer();
      alphas := [];
      startAlpha := 1.0;
      randomStartAlpha := false;
    }

    /** `addAlpha(alpha)`: appends a keyframe with the linear curve. */
    method AddAlpha(alpha: real)
      requires Valid()
      modifies this, steps
      ensures Valid()
      ensures alphas == old(alphas) + [alpha]
      ensures steps.interpolations == old(steps.interpolations) + [Linear]
      ensures steps.cycle == old(steps.cycle) && steps.fixedDuration == old(steps.fixedDuration)
      ensures steps.enabled == old(steps.enabled) && steps.blend == old(steps.blend)
      ensures randomStartAlpha == old(randomStartAlpha) && startAlpha == old(startAlpha)
    {
      AddAlphaWith(alpha, Linear);
    }

    /** `addAlpha(alpha, interpolation)`: appends a keyframe and its curve together. */
    method AddAlphaWith(alpha: real, c: Interpolation)
      requires Valid()
      modifies this, steps
      ensures Valid()
      ensures alphas == old(alphas) + [alpha]
      ensures steps.interpolations == old(steps.interpolations) + [c]
      ensures steps.cycle == old(steps.cycle) && steps.fixedDuration == old(steps.fixedDuration)
      ensures steps.enabled == old(steps.enabled) && steps.blend == old(steps.blend)
      ensures randomStartAlpha == old(randomStartAlpha) && startAlpha == old(startAlpha)
    {
      steps.AddInterpolation(c);
      alphas := alphas + [alpha];
    }

    /** `updateAlpha(alpha, index)`: replaces keyframe `index` only. */
    method UpdateAlpha(alpha: real, index: int)
      requires Valid() && 0 <= index < |alphas|
      modifies this`alphas
      ensures Valid()
      ensures alphas == old(alphas)[index := alpha]
    {
      alphas := alphas[index := alpha];
    }

    /** `removeLast()`: drops the last keyframe and its curve; nothing on an empty list. */
    method RemoveLast()
      requires Valid()
      modifies this`alphas, steps
      ensures Valid()
      ensures old(|alphas|) == 0 ==> alphas == [] && steps.interpolations == old(steps.interpolations)
      ensures old(|alphas|) > 0 ==> alphas == old(alphas[..|alphas| - 1])
      ensures old(|alphas|) > 0 ==>
        steps.interpolations == old(steps.interpolations[..|steps.interpolations| - 1])
      ensures steps.cycle == old(steps.cycle) && steps.fixedDuration == old(steps.fixedDuration)
      ensures steps.enabled == old(steps.enabled)
    {
      if |alphas| == 0 {
        return;
      }
      var index := |alphas| - 1;
      var o := steps.RemoveInterpolation(index);
      alphas := alphas[..index];
    }

    /** `removeAlpha(index)`: drops keyframe `index` and its curve. The curve list
        throws first for an index outside it, leaving both lists as they were. */
    method RemoveAlpha(index: int) returns (o: Outcome)
      requires Valid()
      modifies this`alphas, steps
      ensures Valid()
      ensures o.Pass? <==> 0 <= index < old(|alphas|)
      ensures o.Fail? ==> alphas == old(alphas) && steps.interpolations == old(steps.interpolations)
      ensures o.Pass? ==> alphas == old(alphas[..index] + alphas[index + 1..])
      ensures o.Pass? ==>
        steps.interpolations == old(steps.interpolations[..index] + steps.interpolations[index + 1..])
      ensures steps.cycle == old(steps.cycle) && steps.fixedDuration == old(steps.fixedDuration)
      ensures steps.enabled == old(steps.enabled)
    {
      o := steps.RemoveInterpolation(index);
      if o.Fail? {
        return;
      }
      assert steps.interpolations == old(steps.interpolations[..index] + steps.interpolations[index + 1..]);
      alphas := alphas[..index] + alphas[index + 1..];
    }

    /** `removeAll()`: empties both lists. */
    method RemoveAll()
      modifies this`alphas, steps
      ensures Valid()
      ensures alphas == [] && steps.interpolations == []
      ensures steps.cycle == old(steps.cycle) && steps.fixedDuration == old(steps.fixedDuration)
      ensures steps.enabled == old(steps.enabled)
    {
      steps.ClearInterpolations();
      alphas := [];
    }

    /** `firstInitializeImpl`: an influencer without keyframes gets the fade 1 -> 0 with
        linear curves; a single keyframe disables the influencer; two or more are kept. */
    method FirstInitialize()
      requires Valid()
      modifies this, steps
      ensures Valid()
      ensures old(|alphas|) == 0 ==> alphas == [1.0, 0.0] && steps.interpolations == [Linear, Linear]
      ensures old(|alphas|) == 0 ==> steps.enabled == old(steps.enabled)
      ensures old(|alphas|) == 1 ==> !steps.enabled
      ensures old(|alphas|) >= 1 ==> alphas == old(alphas) && steps.interpolations == old(steps.interpolations)
      ensures old(|alphas|) >= 2 ==> steps.enabled == old(steps.enabled)
      ensures steps.cycle == old(steps.cycle) && steps.fixedDuration == old(steps.fixedDuration)
      ensures steps.blend == old(steps.blend)
      ensures randomStartAlpha == old(randomStartAlpha) && startAlpha == old(startAlpha)
    {
      if |alphas| == 0 {
        AddAlpha(1.0);
        AddAlpha(0.0);
      } else if |alphas| == 1 {
        steps.enabled := false;
      }
    }

    /** `initializeImpl`: a spawning particle starts at keyframe 0, or at the drawn
        index `randomIndex` in [0, n-1] when random start is on, with no elapsed time,
        its own step duration, and the alpha and curve of its start keyframe. */
    method Initialize(p: AlphaParticleData, randomIndex: int)
      requires Valid() && |alphas| >= 1
      requires steps.cycle || |alphas| >= 2
      requires 0 <= randomIndex <= |alphas| - 1
      modifies p
      ensures p.alphaIndex == (if randomStartAlpha then randomIndex else 0)
      ensures 0 <= p.alphaIndex < |alphas|
      ensures p.alphaInterval == 0.0
      ensures p.alphaDuration == StepDuration(steps.cycle, steps.fixedDuration, p.startLife, |alphas|)
      ensures p.alpha == alphas[p.alphaIndex]
      ensures p.alphaInterpolation == steps.interpolations[p.alphaIndex]
      ensures p.startLife == old(p.startLife)
    {
      if randomStartAlpha {
        p.alphaIndex := randomIndex;
      } else {
        p.alphaIndex := 0;
      }
      p.alphaInterval := 0.0;
      p.alphaDuration := if steps.cycle then steps.fixedDuration
        else p.startLife / (|steps.interpolations| as real - 1.0);
      p.alpha := alphas[p.alphaIndex];
      p.alphaInterpolation := steps.interpolations[p.alphaIndex];
    }

    /** The private `updateAlpha(particleData)`: advance one keyframe (wrapping to 0),
        take its curve, and take one duration off the elapsed interval. */
    method Advance(p: AlphaParticleData)
      requires Valid() && 0 <= p.alphaIndex < |alphas|
      modifies p`alphaIndex, p`alphaInterpolation, p`alphaInterval
      ensures p.alphaIndex == Successor(old(p.alphaIndex), |alphas|)
      ensures p.alphaInterpolation == steps.interpolations[p.alphaIndex]
      ensures p.alphaInterval == old(p.alphaInterval) - p.alphaDuration
    {
      p.alphaIndex := p.alphaIndex + 1;
      if p.alphaIndex >= |alphas| {
        p.alphaIndex := 0;
      }
      p.alphaInterpolation := steps.interpolations[p.alphaIndex];
      p.alphaInterval := p.alphaInterval - p.alphaDuration;
    }

    /** `updateImpl`: one frame of the particle's step machine, then its alpha is the
        interpolation from the current keyframe to its cyclic successor, by the eased
        fraction of the step elapsed. */
    method Update(p: AlphaParticleData, tpf: real, ease: (Interpolation, real) -> real)
      requires Valid() && |alphas| >= 1
      requires p.alphaIndex >= 0 && p.alphaDuration != 0.0
      modifies p`alphaIndex, p`alphaInterpolation, p`alphaInterval, p`alpha
      modifies this`startAlpha, steps`blend
      ensures (p.alphaIndex, p.alphaInterval) ==
        Step(old(p.alphaIndex), old(p.alphaInterval), p.alphaDuration, |alphas|, tpf)
      ensures 0 <= p.alphaIndex < |alphas|
      ensures old(p.alphaInterval) + tpf < p.alphaDuration ==>
        p.alphaInterpolation == old(p.alphaInterpolation)
      ensures old(p.alphaInterval) + tpf >= p.alphaDuration ==>
        p.alphaInterpolation == steps.interpolations[p.alphaIndex]
      ensures steps.blend == ease(p.alphaInterpolation, p.alphaInterval / p.alphaDuration)
      ensures startAlpha == alphas[p.alphaIndex]
      ensures p.alpha == AlphaAt(alphas, p.alphaIndex, steps.blend)
    {
      p.alphaInterval := p.alphaInterval + tpf;
      if p.alphaIndex >= |alphas| {
        p.alphaIndex := 0;
      }
      if p.alphaInterval >= p.alphaDuration {
        Advance(p);
      }
      var index := p.alphaIndex;
      steps.blend := ease(p.alphaInterpolation, p.alphaInterval / p.alphaDuration);
      startAlpha := alphas[index];
      var endAlpha;
      if index == |alphas| - 1 {
        endAlpha := alphas[0];
      } else {
        endAlpha := alphas[index + 1];
      }
      p.alpha := InterpolateLinear(steps.blend, startAlpha, endAlpha);
    }

    /** `reset`: a dying particle's alpha drops to 0. */
    method Reset(p: AlphaParticleData)
      modifies p`alpha
      ensures p.alpha == 0.0
    {
      p.alpha := 0.0;
    }
  }
}
