# Particle pool of the tonegod particle emitter

This project is a Dafny model of the simulation core of the tonegod particle
emitter for jMonkeyEngine. Its five parts are:

- **The emitter, `ParticleEmitterNode`.**
  - A fixed pool of particle records.
  - A free-slot hint `nextIndex`, moved by a wrap-around search.
  - An active-particle counter.
  - Bulk emission and removal.
  - A "leaky bucket" emission interval that decides how many particles a frame
    spawns, gated by the emitter's delay and life.
  - Validated configuration setters.
  - The influencer chain, with the per-particle data slots that follow an
    influencer when it is inserted or removed.
- **The particle record, `ParticleData`.** A lazily grown slot array and a
  lifecycle of initialize, update and reset.
- **The keyframe step list, `AbstractInterpolatedParticleInfluencer`.** An
  index-checked list of easing curves and the `cycle`/`fixedDuration` pair.
- **The alpha influencer, `AlphaInfluencer`.** Alpha keyframes kept in
  lock-step with their curves, and a per-particle step machine that walks the
  keyframes cyclically.
- **The stretch-axis enum, `ForcedStretchAxis`.**

## Files

| file | module | what it holds |
|---|---|---|
| `common.dfy` | `Common` | Option, Outcome, Result, vectors, curve references, Java's float-to-int cast |
| `stretch_axis.dfy` | `StretchAxis` | the axis enum, its lookup table, names, and the save/load round trip |
| `slot_store.dfy` | `SlotStore` | the slot array of a particle as pure functions, and the shifts used for re-indexing |
| `emission.dfy` | `Emission` | the leaky bucket, the cyclic free-slot search, the counts of `emitNumParticles`, the hint and counter arithmetic, the random draws |
| `interpolated_influencer.dfy` | `InterpolatedInfluencer` | the step list as a class, and its saved form |
| `alpha_influencer.dfy` | `Alpha` | the alpha influencer class, its per-particle record, and the step machine |
| `emitter.dfy` | `ParticleEmitter` | the `ParticleData` and `ParticleEmitterNode` classes, which call each other, and the lifecycle functions they are proved against |

## State and how it is modelled

**Motion fields.** A particle's kinematic and timing fields form one `Motion`
value. The functions `Spawned` and `Updated` give what `initialize` and `update`
make of that value, and the methods are proved equal to them.

**The pool.**
- The emitter sees its pool through two ghost views: `ActiveFlags()`, the
  sequence of active flags, and `Motions()`, the sequence of motion fields.
- The methods that spawn, update or kill particles state their new pool in
  terms of these views, for example
  `Motions() == Replaced(old(Motions()), pick, spawned, n)`.
- The frame's emission steps (`EmitBatch`, `EmitFrame`, `RunFrame`) are the
  exception. They state how many `emitNextParticle()` calls they make, counted
  by the ghost field `emitCalls`. The effect of each call on the pool is stated
  by `EmitNextParticle`. `RunFrame` also states that the hook log after the frame
  begins with the particle loop's calls.
- The invariant `Valid()` says:
  - record `i` sits in slot `i`;
  - no record has more life than it started with;
  - the hint and the counter are at least -1;
  - an initialized emitter has exactly `maxParticles` records.

**Influencer hooks.** The influencers are other code. Each call the emitter makes
into one is appended to the log `hookCalls`, as (hook, chain position, particle).
The contracts state which dispatch loops ran, and in what order.

**Inputs from outside.** Randomness, the emission shape's samples, the easing
curves and the world translation all come in as parameters:
- a `Spawn` value per spawn, the random numbers being in [0, 1);
- `draw: int -> Spawn`, which gives the draws of the spawn at slot or hint `j`;
- `ease`, the easing curve;
- `translationAt`, the shape point of a triangle.

**Numbers.** Java `float` values are Dafny `real`s. Java's `(int)` cast, which
truncates toward zero, is written out in `TruncToInt`. Frame times `tpf` are
taken to be non-negative.

## Behaviour as written

The model follows the code in two places where a reader might expect otherwise.

**The active counter can drift.**
- `reset` does not check whether the particle was active.
- `notifyParticleDeactivated` stops at -1.
- So the counter is not the number of active particles. A freshly built pool
  of `m > 0` idle records reports -1, as `FreshPoolCountsMinusOne` shows.
- `killAllParticles` on an idle pool lowers the counter again, down to -1.

**The hint can point at an active slot.**
- `emitAllParticles` and `emitNumParticles` never move the hint.
- After they run, `nextIndex` can name a slot they have just activated.
- `emitNextParticle` then re-spawns that active slot, and the counter counts it
  twice.
- `EmitNextParticle`'s contract states this literally: slot `k` becomes active
  whatever it was, and the count goes up by one.

## Model

| member | source | states |
|---|---|---|
| StretchAxis.Ordinal | src/tonegod/emitter/ForcedStretchAxis.java:10-16 | the ordinal of an axis is its position in `VALUES = [X, Y, Z]` |
| StretchAxis.ValueOf | src/tonegod/emitter/ForcedStretchAxis.java:19-21 | `valueOf(i)` succeeds exactly for 0 <= i < 3, and fails with an index error otherwise |
| StretchAxis.ValueOfOrdinal | src/tonegod/emitter/ForcedStretchAxis.java:16-21 | looking an axis up by its own ordinal gives the axis back |
| StretchAxis.OrdinalOfValueOf | src/tonegod/emitter/ForcedStretchAxis.java:16-21 | every successful lookup returns the axis whose ordinal is the index |
| StretchAxis.SaveLoadRoundTrip | src/main/java/tonegod/emitter/ParticleEmitterNode.java:2371 | an axis saved as its ordinal loads back as the same axis; a missing field loads as X (line 2443) |
| StretchAxis.ToString | src/tonegod/emitter/ForcedStretchAxis.java:11-36 | the UI name of each axis is the one given to its constant: "X", "Y", "Z" in declaration order (`UiNames[Ordinal(a)]`), a single letter |
| StretchAxis.ToStringInjective | src/tonegod/emitter/ForcedStretchAxis.java:11-13 | distinct axes have distinct names |
| Common.TruncToInt | src/main/java/tonegod/emitter/ParticleEmitterNode.java:2121 | the `(int)` cast lands within one below a non-negative value and within one above a negative value |
| SlotStore.Reserve | src/main/java/tonegod/emitter/particle/ParticleData.java:178-184 | after reserving slot `id` the array holds it; a first allocation has `max(defaultSize, id+1)` slots; growth keeps every old slot and adds empty ones |
| SlotStore.ReserveKeepsSlots | src/main/java/tonegod/emitter/particle/ParticleData.java:178-184 | reserving changes the content of no slot |
| SlotStore.HasData | src/main/java/tonegod/emitter/particle/ParticleData.java:239-241 | `hasData` is false for every id outside the array |
| SlotStore.SetThenGet | src/main/java/tonegod/emitter/particle/ParticleData.java:218-252 | after `setData(id, x)`, `getData(id)` is `x`, every other slot is unchanged, and the length is kept |
| SlotStore.RemoveClearsOnly | src/main/java/tonegod/emitter/particle/ParticleData.java:227-231 | `removeData(id)` empties slot `id` only, keeps the length, and is a no-op out of range |
| SlotStore.InitializeData | src/main/java/tonegod/emitter/particle/ParticleData.java:195-210 | afterwards the slot is filled with the returned object, which is the existing one if there was one and the newly created one otherwise; other slots keep their content |
| SlotStore.InitializeDataIdempotent | src/main/java/tonegod/emitter/particle/ParticleData.java:195-210 | a second `initializeData` changes nothing and returns the same object |
| SlotStore.MoveDataSlots | src/main/java/tonegod/emitter/ParticleEmitterNode.java:1462-1478 | moving `prev` to `next` leaves in `next` what `prev` held (or nothing), empties `prev`, and keeps every other slot |
| SlotStore.ShiftUpSlots | src/main/java/tonegod/emitter/ParticleEmitterNode.java:1380-1382 | the top-down moves of `addInfluencer(inf, k)` shift slot `j` to `j+1` for `k <= j < size`, empty slot `k`, and lose nothing |
| SlotStore.SlideDownSlots | src/main/java/tonegod/emitter/ParticleEmitterNode.java:1419-1421 | the bottom-up moves of `removeInfluencer(k)` bring slot `j+1` to `j` for `k <= j < size`, empty slot `size`, and keep the slots below `k` |
| Emission.ClampedStep | src/main/java/tonegod/emitter/ParticleEmitterNode.java:2038 | a frame adds the frame time or the target interval, whichever is smaller |
| Emission.FrameKeepsBounds | src/main/java/tonegod/emitter/ParticleEmitterNode.java:2038-2052 | one frame keeps the interval within (0, target] |
| Emission.RunKeepsBounds | src/main/java/tonegod/emitter/ParticleEmitterNode.java:2038-2052 | any sequence of frames with non-negative times keeps the interval within (0, target] when starting from `resetInterval` |
| Emission.EmissionCountBounds | src/main/java/tonegod/emitter/ParticleEmitterNode.java:2120-2122 | with the interval past the target but within two targets, `calcParticlesPerEmission` is between one and two batches |
| Emission.FrameAttemptsBounds | src/main/java/tonegod/emitter/ParticleEmitterNode.java:2038-2052 | a frame makes between 0 and two batches of attempts; none unless the interval passes the target; at least one batch when it does and the delay and life allow |
| Emission.LongFrameEmitsTwoBatches | src/main/java/tonegod/emitter/ParticleEmitterNode.java:2038-2052 | a frame of 1 s at 10 emissions per second from a full interval attempts two batches and leaves the interval full |
| Emission.FreeOffset | src/main/java/tonegod/emitter/ParticleEmitterNode.java:2139-2149 | the search skips only active slots and stops at the first inactive one, or after a full round |
| Emission.NextFreeSpec | src/main/java/tonegod/emitter/ParticleEmitterNode.java:2127-2152 | the search gives -1 exactly when every slot is active; otherwise it gives an inactive slot with every slot cyclically between the start and it active |
| Emission.InactiveBefore | src/main/java/tonegod/emitter/ParticleEmitterNode.java:2177-2187 | the number of inactive slots before slot `j` is at most `j` |
| Emission.ChosenAreLowest | src/main/java/tonegod/emitter/ParticleEmitterNode.java:2173-2190 | `emitNumParticles` picks the lowest-indexed inactive slots: an inactive slot below a picked one is picked |
| Emission.ChosenBeforeIsMin | src/main/java/tonegod/emitter/ParticleEmitterNode.java:2173-2190 | the slots picked among the first `j` number `min(#inactive before j, max(count, 0))` |
| Emission.OfferIndexLowers | src/main/java/tonegod/emitter/ParticleEmitterNode.java:2284-2287 | `setNextIndex(i)` gives `i` when there was no hint and `min(hint, i)` otherwise |
| Emission.DecrementTimesFloor | src/main/java/tonegod/emitter/ParticleEmitterNode.java:2235-2238 | `n` deactivations bring a counter of at least -1 to `max(count - n, -1)` |
| Emission.DecrementTimesAdd | src/main/java/tonegod/emitter/ParticleEmitterNode.java:2235-2238 | `n` deactivations followed by `m` more are `n + m` deactivations |
| Emission.DrawInRange | src/main/java/tonegod/emitter/particle/ParticleData.java:325-339 | a life or force drawn with `r` in [0, 1) lies in [min, max], below max for a proper range, and is exactly max for a one-value range |
| Emission.BlendInRange | src/main/java/tonegod/emitter/particle/ParticleData.java:279 | progress `(startLife - life)/startLife` lies in [0, 1) for 0 < life <= startLife, and is 0 at full life |
| InterpolatedInfluencer.IdsOf | src/main/java/tonegod/emitter/influencers/impl/AbstractInterpolatedParticleInfluencer.java:141-145 | one id per curve |
| InterpolatedInfluencer.CurvesOfIdsOf | src/main/java/tonegod/emitter/influencers/impl/AbstractInterpolatedParticleInfluencer.java:141-160 | reading back the ids written for a curve list gives the same list, in order |
| InterpolatedInfluencer.DecodeEncode | src/main/java/tonegod/emitter/influencers/impl/AbstractInterpolatedParticleInfluencer.java:137-165 | loading what `write` saved reproduces the curves, `cycle` and `fixedDuration`, the defaults included |
| InterpolatedInfluencer.InterpolatedParticleInfluencer.constructor | src/main/java/tonegod/emitter/influencers/impl/AbstractInterpolatedParticleInfluencer.java:47-49 | an empty step list, not cycling |
| InterpolatedInfluencer.InterpolatedParticleInfluencer.GetStepCount | src/main/java/tonegod/emitter/influencers/impl/AbstractInterpolatedParticleInfluencer.java:52-54 | the step count is the length of the curve list |
| InterpolatedInfluencer.InterpolatedParticleInfluencer.AddInterpolation | src/main/java/tonegod/emitter/influencers/impl/AbstractInterpolatedParticleInfluencer.java:61-63 | appends the curve; nothing else changes |
| InterpolatedInfluencer.InterpolatedParticleInfluencer.RemoveInterpolation | src/main/java/tonegod/emitter/influencers/impl/AbstractInterpolatedParticleInfluencer.java:70-72 | removes position `i` and shifts the later curves down by one; an index outside the list fails and changes nothing |
| InterpolatedInfluencer.InterpolatedParticleInfluencer.ClearInterpolations | src/main/java/tonegod/emitter/influencers/impl/AbstractInterpolatedParticleInfluencer.java:77-79 | empties the list; nothing else changes |
| InterpolatedInfluencer.InterpolatedParticleInfluencer.SetCycle | src/main/java/tonegod/emitter/influencers/impl/AbstractInterpolatedParticleInfluencer.java:91-93 | sets the flag |
| InterpolatedInfluencer.InterpolatedParticleInfluencer.SetFixedDuration | src/main/java/tonegod/emitter/influencers/impl/AbstractInterpolatedParticleInfluencer.java:96-104 | cycling exactly when `d != 0`; the duration is `d` (0 in the other branch) |
| InterpolatedInfluencer.InterpolatedParticleInfluencer.GetInterpolation | src/main/java/tonegod/emitter/influencers/impl/AbstractInterpolatedParticleInfluencer.java:115-120 | fails exactly for `i < 0` or `i >= size`; otherwise gives curve `i` |
| InterpolatedInfluencer.InterpolatedParticleInfluencer.UpdateInterpolation | src/main/java/tonegod/emitter/influencers/impl/AbstractInterpolatedParticleInfluencer.java:123-128 | fails exactly out of range and then changes nothing; otherwise replaces position `i` only |
| InterpolatedInfluencer.InterpolatedParticleInfluencer.Write | src/main/java/tonegod/emitter/influencers/impl/AbstractInterpolatedParticleInfluencer.java:137-150 | saves one id per curve, in list order, with the two fields |
| InterpolatedInfluencer.InterpolatedParticleInfluencer.Read | src/main/java/tonegod/emitter/influencers/impl/AbstractInterpolatedParticleInfluencer.java:153-165 | appends the curves of the saved ids; a missing `cycle` is false and a missing `fixedDuration` is 0.125; a missing id list fails before anything changes |
| InterpolatedInfluencer.InterpolatedParticleInfluencer.Clone | src/main/java/tonegod/emitter/influencers/impl/AbstractInterpolatedParticleInfluencer.java:169-176 | a fresh object with the same curves, `cycle` and `fixedDuration` |
| Alpha.Successor | src/main/java/tonegod/emitter/influencers/impl/AlphaInfluencer.java:82-88 | the end keyframe is `(index + 1) mod n`: the next one, or the first after the last |
| Alpha.WalkFirstRound | src/main/java/tonegod/emitter/influencers/impl/AlphaInfluencer.java:100-105 | from keyframe 0, step `k < n` is at keyframe `k` |
| Alpha.WalkPeriodic | src/main/java/tonegod/emitter/influencers/impl/AlphaInfluencer.java:100-105 | stepping through the keyframes comes back to the same keyframe after `n` steps |
| Alpha.InterpolateLinearBetween | src/main/java/tonegod/emitter/influencers/impl/AlphaInfluencer.java:90 | the interpolated alpha lies between the two keyframe values |
| Alpha.StepKeepsBounds | src/main/java/tonegod/emitter/influencers/impl/AlphaInfluencer.java:62-72 | with a frame no longer than one step, the index stays a keyframe index and the elapsed interval stays within [0, duration) |
| Alpha.FadeOut | src/main/java/tonegod/emitter/influencers/impl/AlphaInfluencer.java:113-125 | the default keyframes [1, 0] with a linear curve fade a particle from 1 to 0, strictly decreasing |
| Alpha.AlphaParticleData.constructor | src/main/java/tonegod/emitter/particle/ParticleData.java:152-165 | a particle starts at full alpha with no step progress |
| Alpha.AlphaInfluencer.constructor | src/main/java/tonegod/emitter/influencers/impl/AlphaInfluencer.java:50-53 | no keyframes, no curves, start alpha 1 |
| Alpha.AlphaInfluencer.AddAlpha | src/main/java/tonegod/emitter/influencers/impl/AlphaInfluencer.java:167-169 | appends the alpha and a linear curve, so the two lists keep the same length |
| Alpha.AlphaInfluencer.AddAlphaWith | src/main/java/tonegod/emitter/influencers/impl/AlphaInfluencer.java:177-180 | appends the alpha and the given curve |
| Alpha.AlphaInfluencer.UpdateAlpha | src/main/java/tonegod/emitter/influencers/impl/AlphaInfluencer.java:209-211 | replaces keyframe `i` only |
| Alpha.AlphaInfluencer.RemoveLast | src/main/java/tonegod/emitter/influencers/impl/AlphaInfluencer.java:216-225 | no-op on an empty list; otherwise drops the last alpha and the last curve |
| Alpha.AlphaInfluencer.RemoveAlpha | src/main/java/tonegod/emitter/influencers/impl/AlphaInfluencer.java:232-235 | drops index `i` from both lists; an index outside the list fails and changes nothing |
| Alpha.AlphaInfluencer.RemoveAll | src/main/java/tonegod/emitter/influencers/impl/AlphaInfluencer.java:240-243 | empties both lists |
| Alpha.AlphaInfluencer.FirstInitialize | src/main/java/tonegod/emitter/influencers/impl/AlphaInfluencer.java:113-125 | an empty list becomes [1, 0] with linear curves; a single keyframe disables the influencer; two or more are left as they are |
| Alpha.AlphaInfluencer.Initialize | src/main/java/tonegod/emitter/influencers/impl/AlphaInfluencer.java:128-144 | sets the start index (0, or the random one), interval 0, the duration (`fixedDuration` when cycling, else `startLife/(n-1)`), and the alpha and curve of the start keyframe |
| Alpha.AlphaInfluencer.Advance | src/main/java/tonegod/emitter/influencers/impl/AlphaInfluencer.java:100-110 | one step on to the cyclic successor, with its curve, and one duration off the interval |
| Alpha.AlphaInfluencer.Update | src/main/java/tonegod/emitter/influencers/impl/AlphaInfluencer.java:62-93 | the index and interval follow `Step`; the index is a keyframe index; the curve changes only on a step; the alpha interpolates from keyframe `index` to its successor by the eased `interval/duration` |
| Alpha.AlphaInfluencer.Reset | src/main/java/tonegod/emitter/influencers/impl/AlphaInfluencer.java:156-159 | the particle's alpha becomes 0 |
| ParticleEmitter.SpawnedFacts | src/main/java/tonegod/emitter/particle/ParticleData.java:314-341 | a spawned particle has life equal to its start life, drawn from [lifeMin, lifeMax] (exactly lifeMax for a one-value range); a force from the force range the same way; progress 0; and unit size |
| ParticleEmitter.EdgeOffset | src/main/java/tonegod/emitter/particle/ParticleData.java:363-377 | the bottom edge starts one height further along the edge direction than the centre, the top edge one height back |
| ParticleEmitter.UpdatedFacts | src/main/java/tonegod/emitter/particle/ParticleData.java:265-297 | an update keeps the start life and never raises life above it; a static particle keeps its life and any other loses exactly `tpf`; an expiring one does not move; a surviving non-static one has progress in [0, 1) and moves by `velocity * tpf` |
| ParticleEmitter.Dispatch | src/main/java/tonegod/emitter/ParticleEmitterNode.java:2062-2118 | a dispatch loop calls the hook of every influencer once, in chain order |
| ParticleEmitter.PoolSweep | src/main/java/tonegod/emitter/ParticleEmitterNode.java:1433-1437 | a pool sweep calls one influencer's hook on every particle, in pool order |
| ParticleEmitter.ChosenSlots | src/main/java/tonegod/emitter/ParticleEmitterNode.java:2173-2190 | slot `j` is picked exactly when it is inactive and fewer than `count` inactive slots come before it |
| ParticleEmitter.FreshPoolCountsMinusOne | src/main/java/tonegod/emitter/ParticleEmitterNode.java:834-847 | right after a pool of `m > 0` records is built from a zero count, the counter reads -1 |
| ParticleEmitter.EmissionCountRanges | src/main/java/tonegod/emitter/ParticleEmitterNode.java:2120-2122 | the emission count is at most one batch for an interval in (0, target] and one or two batches in (target, 2 target] |
| ParticleEmitter.ParticleData.constructor | src/main/java/tonegod/emitter/particle/ParticleData.java:152-170 | an inactive record for its slot, with no data slots, unit size and full alpha, announced through every influencer's `createData` |
| ParticleEmitter.ParticleData.IsActive | src/main/java/tonegod/emitter/particle/ParticleData.java:475-477 | the active flag |
| ParticleEmitter.ParticleData.ReserveDataSlot | src/main/java/tonegod/emitter/particle/ParticleData.java:178-184 | the slot array becomes `Reserve(old, id, defaultSize)` |
| ParticleEmitter.ParticleData.HasData | src/main/java/tonegod/emitter/particle/ParticleData.java:239-241 | true exactly when the slot exists and is filled |
| ParticleEmitter.ParticleData.GetData | src/main/java/tonegod/emitter/particle/ParticleData.java:250-252 | the slot's content, or an index error exactly when the slot does not exist |
| ParticleEmitter.ParticleData.SetData | src/main/java/tonegod/emitter/particle/ParticleData.java:218-220 | writes slot `id`; an index error, with nothing changed, exactly when the slot does not exist |
| ParticleEmitter.ParticleData.RemoveData | src/main/java/tonegod/emitter/particle/ParticleData.java:227-231 | the slot array becomes `RemoveData(old, id)` |
| ParticleEmitter.ParticleData.InitializeData | src/main/java/tonegod/emitter/particle/ParticleData.java:195-210 | the slots and the result are those of `SlotStore.InitializeData` |
| ParticleEmitter.ParticleData.MoveData | src/main/java/tonegod/emitter/ParticleEmitterNode.java:1468-1477 | one particle's part of `moveInfluencerData` is `SlotStore.MoveData` |
| ParticleEmitter.ParticleData.Initialize | src/main/java/tonegod/emitter/particle/ParticleData.java:314-378 | the record becomes active with `Spawned` motion fields; the counter goes up by one; the influencers' `initialize` loop runs once |
| ParticleEmitter.ParticleData.Update | src/main/java/tonegod/emitter/particle/ParticleData.java:265-298 | the motion fields become `Updated`; an expiring particle is reset (inactive, counter decremented, `reset` loop, hint offered); any other keeps its flag and runs the `update` loop |
| ParticleEmitter.ParticleData.Reset | src/main/java/tonegod/emitter/particle/ParticleData.java:439-444 | the record becomes inactive whatever it was; the counter is decremented (floor -1); the `reset` loop runs; the hint becomes `OfferIndex(hint, index)` |
| ParticleEmitter.ParticleEmitterNode.constructor | src/main/java/tonegod/emitter/ParticleEmitterNode.java:466-506 | the constructor's defaults: an empty pool of configured size 100, life 0.999, force 0.15..0.5, one particle per emission, 100 emissions per second with a full interval |
| ParticleEmitter.ParticleEmitterNode.NotifyParticleActivated | src/main/java/tonegod/emitter/ParticleEmitterNode.java:2227-2229 | the counter goes up by exactly one |
| ParticleEmitter.ParticleEmitterNode.NotifyParticleDeactivated | src/main/java/tonegod/emitter/ParticleEmitterNode.java:2235-2238 | the counter goes down by one unless it is already negative |
| ParticleEmitter.ParticleEmitterNode.SetNextIndex | src/main/java/tonegod/emitter/ParticleEmitterNode.java:2284-2287 | the hint becomes `OfferIndex(hint, index)` and never rises |
| ParticleEmitter.ParticleEmitterNode.OnCreated | src/main/java/tonegod/emitter/ParticleEmitterNode.java:2078-2086 | the `createData` loop, in chain order |
| ParticleEmitter.ParticleEmitterNode.InitializeInfluencers | src/main/java/tonegod/emitter/ParticleEmitterNode.java:2094-2102 | the `initialize` loop, in chain order |
| ParticleEmitter.ParticleEmitterNode.UpdateInfluencers | src/main/java/tonegod/emitter/ParticleEmitterNode.java:2062-2070 | the `update` loop, in chain order |
| ParticleEmitter.ParticleEmitterNode.ResetInfluencers | src/main/java/tonegod/emitter/ParticleEmitterNode.java:2110-2118 | the `reset` loop, in chain order |
| ParticleEmitter.ParticleEmitterNode.ResetInterval | src/main/java/tonegod/emitter/ParticleEmitterNode.java:2263-2265 | the interval becomes the target |
| ParticleEmitter.ParticleEmitterNode.IsAlive | src/main/java/tonegod/emitter/ParticleEmitterNode.java:2273-2275 | alive exactly when the emitter life is 0 or not yet reached |
| ParticleEmitter.ParticleEmitterNode.CalcParticlesPerEmission | src/main/java/tonegod/emitter/ParticleEmitterNode.java:2120-2122 | the truncated `interval/target*perEmission`; at most one batch between frames and one or two batches inside a frame that emits |
| ParticleEmitter.ParticleEmitterNode.Reset | src/main/java/tonegod/emitter/ParticleEmitterNode.java:2253-2258 | every particle is killed, the interval is full and the clock is at 0 |
| ParticleEmitter.ParticleEmitterNode.SetEmissionsPerSecond | src/main/java/tonegod/emitter/ParticleEmitterNode.java:879-890 | fails exactly below 0.1 and then changes nothing; otherwise target `1/eps` and a full interval |
| ParticleEmitter.ParticleEmitterNode.SetSpriteCount | src/main/java/tonegod/emitter/ParticleEmitterNode.java:1600-1608 | fails exactly for a column or row count below 1 and then changes nothing; otherwise stores the counts |
| ParticleEmitter.ParticleEmitterNode.SetEnabled | src/main/java/tonegod/emitter/ParticleEmitterNode.java:1757-1762 | enabling restarts the clock; disabling keeps it |
| ParticleEmitter.ParticleEmitterNode.SetLifeMinMax | src/main/java/tonegod/emitter/ParticleEmitterNode.java:1142-1146 | stores both bounds |
| ParticleEmitter.ParticleEmitterNode.SetForceMinMax | src/main/java/tonegod/emitter/ParticleEmitterNode.java:1224-1228 | stores both bounds |
| ParticleEmitter.ParticleEmitterNode.SetEmitterLife | src/main/java/tonegod/emitter/ParticleEmitterNode.java:636-638 | stores the emitter life |
| ParticleEmitter.ParticleEmitterNode.SetEmitterDelay | src/main/java/tonegod/emitter/ParticleEmitterNode.java:609-611 | stores the delay |
| ParticleEmitter.ParticleEmitterNode.SetParticlesPerEmission | src/main/java/tonegod/emitter/ParticleEmitterNode.java:906-909 | stores the batch size |
| ParticleEmitter.ParticleEmitterNode.SetStaticParticles | src/main/java/tonegod/emitter/ParticleEmitterNode.java:946-949 | stores the flag |
| ParticleEmitter.ParticleEmitterNode.SetRandomEmissionPoint | src/main/java/tonegod/emitter/ParticleEmitterNode.java:1062-1065 | stores the flag |
| ParticleEmitter.ParticleEmitterNode.SetEmissionPoint | src/main/java/tonegod/emitter/ParticleEmitterNode.java:1022-1025 | stores the emission point |
| ParticleEmitter.ParticleEmitterNode.SetForcedStretchAxis | src/main/java/tonegod/emitter/ParticleEmitterNode.java:1003-1006 | stores the axis |
| ParticleEmitter.ParticleEmitterNode.InitParticles | src/main/java/tonegod/emitter/ParticleEmitterNode.java:834-847 | a fresh pool of exactly `maxParticles` records, record `i` in slot `i`, each idle and inactive; one deactivation per record; the hint at 0 for a non-empty pool, unchanged for an empty one; each record's `createData` then `reset` loops, in pool order |
| ParticleEmitter.ParticleEmitterNode.Initialize | src/main/java/tonegod/emitter/ParticleEmitterNode.java:1815-1853 | an initialized emitter is left as it is; a failing set-up disables the emitter and changes nothing else; a succeeding one is initialized with a fresh pool of `maxParticles` idle records without data slots, the counter lowered once per record (`DecrementTimes`, floor -1), the hint at 0 for a non-empty pool, and in the hook log, in pool order, each record's `createData` loop followed by its `reset` loop (`CreationCalls`) |
| ParticleEmitter.ParticleEmitterNode.SetMaxParticles | src/main/java/tonegod/emitter/ParticleEmitterNode.java:674-688 | a negative size fails and changes nothing; before initialization only the size is stored; after it every old particle is killed and a fresh pool of exactly `m` inactive records is built |
| ParticleEmitter.ParticleEmitterNode.EmitNextParticle | src/main/java/tonegod/emitter/ParticleEmitterNode.java:2127-2152 | each call counts one in `emitCalls`; a no-op for hint -1 or a hint at or past the configured size; an index error, with nothing changed, for a hint inside the configured size but outside the built pool; otherwise slot `hint` becomes active with `Spawned` fields, its `initialize` loop runs, and the hint moves to `NextFree`, the next inactive slot cyclically, or -1 when the pool is full |
| ParticleEmitter.ParticleEmitterNode.InitializeAt | src/main/java/tonegod/emitter/ParticleEmitterNode.java:2133 | `particles[i].initialize(this)` as a change of the pool: slot `i` becomes active with the motion `Spawned` from its old one, the counter rises by one, one `OnInitialize` dispatch over the chain is logged, and nothing else changes |
| ParticleEmitter.ParticleEmitterNode.MoveHint | src/main/java/tonegod/emitter/ParticleEmitterNode.java:2135-2151 | the search after a spawn: the hint becomes `NextFree` of the pool's flags from the spawned slot (the next idle slot in wrap-around order, or -1 when none is idle) |
| ParticleEmitter.ParticleEmitterNode.SpawnAtHint | src/main/java/tonegod/emitter/ParticleEmitterNode.java:2133-2151 | the body of `emitNextParticle()` past its guard: the slot at the hint is spawned as by `InitializeAt` and the hint then moves to `NextFree` from that slot |
| ParticleEmitter.ParticleEmitterNode.FindNextFree | src/main/java/tonegod/emitter/ParticleEmitterNode.java:2135-2151 | the wrap-around search of an active start slot terminates with `NextFree(flags, from)` |
| ParticleEmitter.ParticleEmitterNode.EmitAllParticles | src/main/java/tonegod/emitter/ParticleEmitterNode.java:2157-2166 | every slot becomes active; exactly the inactive ones are spawned, in pool order, and counted; the active ones are untouched; the hint does not move |
| ParticleEmitter.ParticleEmitterNode.SpawnStep | src/main/java/tonegod/emitter/ParticleEmitterNode.java:2160-2162 | one pass of the `emitAllParticles` loop: the pool after slot `i` is `Activated`/`Replaced` through `i + 1` of the chosen slots, the counter rises exactly when slot `i` is spawned, and the hook log is `Calls` through `i + 1` |
| ParticleEmitter.ParticleEmitterNode.SpawnInactive | src/main/java/tonegod/emitter/ParticleEmitterNode.java:2159-2163 | the loop spawns each inactive slot and counts each spawn |
| ParticleEmitter.ParticleEmitterNode.EmitNumParticles | src/main/java/tonegod/emitter/ParticleEmitterNode.java:2173-2190 | exactly the `ChosenSlots` (the lowest-indexed inactive ones) are spawned, `min(#inactive, max(count, 0))` of them; the others are untouched; the hint does not move |
| ParticleEmitter.ParticleEmitterNode.ChosenStep | src/main/java/tonegod/emitter/ParticleEmitterNode.java:2179-2186 | one pass of the `emitNumParticles` loop: the running counter becomes `Min` of the idle slots before `i + 1` and `max(count, 0)`, the pool and hook log extend through `i + 1`, and the active count rises by the counter's growth |
| ParticleEmitter.ParticleEmitterNode.SpawnChosen | src/main/java/tonegod/emitter/ParticleEmitterNode.java:2175-2187 | the counting loop with its early exit spawns the picked slots; the count follows the running minimum |
| ParticleEmitter.ParticleEmitterNode.KillAllParticles | src/main/java/tonegod/emitter/ParticleEmitterNode.java:2195-2200 | every slot is inactive; one deactivation per slot, active or not; the `reset` loops run in pool order; the hint ends at 0 for a non-empty pool and is unchanged for an empty one |
| ParticleEmitter.ParticleEmitterNode.KillParticleAt | src/main/java/tonegod/emitter/ParticleEmitterNode.java:2245-2248 | resets slot `index` only; fails with nothing changed outside the pool |
| ParticleEmitter.ParticleEmitterNode.KillParticle | src/main/java/tonegod/emitter/ParticleEmitterNode.java:2207-2212 | resets the given record if it is in the pool, and changes nothing otherwise |
| ParticleEmitter.ParticleEmitterNode.InitializeInfluencerData | src/main/java/tonegod/emitter/ParticleEmitterNode.java:1445-1454 | for an influencer that keeps data, every particle initializes slot `index` with the object created for it; otherwise nothing changes |
| ParticleEmitter.ParticleEmitterNode.InitializeInfluencer | src/main/java/tonegod/emitter/ParticleEmitterNode.java:1433-1437 | the influencer's `initialize` hook on every particle, in pool order |
| ParticleEmitter.ParticleEmitterNode.StoreInfluencerData | src/main/java/tonegod/emitter/ParticleEmitterNode.java:1486-1495 | for an influencer that keeps data, its `storeUsedData` hook on every particle; otherwise nothing |
| ParticleEmitter.ParticleEmitterNode.MoveInfluencerData | src/main/java/tonegod/emitter/ParticleEmitterNode.java:1462-1478 | every particle's slots become `MoveData(old, prev, next)` |
| ParticleEmitter.ParticleEmitterNode.AddInfluencer | src/main/java/tonegod/emitter/ParticleEmitterNode.java:1327-1332 | appends the influencer; its slot (the last position) is initialized in every particle and its `initialize` hook runs on every particle |
| ParticleEmitter.ParticleEmitterNode.AddInfluencerAt | src/main/java/tonegod/emitter/ParticleEmitterNode.java:1369-1395 | the chain becomes `old[..k] + [inf] + old[k..]`; every particle's slots are shifted up from `k` (`ShiftUp`) before slot `k` is set up; a position past the end fails and changes nothing |
| ParticleEmitter.ParticleEmitterNode.ShiftInfluencerData | src/main/java/tonegod/emitter/ParticleEmitterNode.java:1380-1382 | the top-down `moveInfluencerData(i, i + 1)` loop of `addInfluencer`: every record's data list becomes `ShiftUp` of the old one (the slots from `index` move up one place) |
| ParticleEmitter.ParticleEmitterNode.RemoveInfluencer | src/main/java/tonegod/emitter/ParticleEmitterNode.java:1411-1425 | a negative index is a no-op; an index past the end fails and changes nothing; otherwise the data is stored, every particle's slots slide down (`SlideDown`), and entry `k` leaves the chain |
| ParticleEmitter.ParticleEmitterNode.SlideInfluencerData | src/main/java/tonegod/emitter/ParticleEmitterNode.java:1419-1421 | the bottom-up `moveInfluencerData(i + 1, i)` loop of `removeInfluencer`: every record's data list becomes `SlideDown` of the old one (the slots above `index` move down one place) |
| ParticleEmitter.ParticleEmitterNode.RemoveAllInfluencers | src/main/java/tonegod/emitter/ParticleEmitterNode.java:1545-1548 | the chain is empty |
| ParticleEmitter.ParticleEmitterNode.UpdateLogicalState | src/main/java/tonegod/emitter/ParticleEmitterNode.java:2019-2053 | nothing while disabled; a failed initialization stops the frame before the clock and the emissions; otherwise the clock advances by `tpf`, the interval becomes `FrameInterval` and `emitNextParticle()` is called `FrameAttempts` times (the ghost counter `emitCalls`), and the invariant and the interval bounds are kept; a failed set-up also leaves the pool and the hook log as they were; its frame keeps the configuration, the influencer chain and the target interval in every case |
| ParticleEmitter.ParticleEmitterNode.PrepareFrame | src/main/java/tonegod/emitter/ParticleEmitterNode.java:2026-2028 | the lazy initialization as the frame sees it: the frame goes on exactly when the emitter was initialized or its set-up succeeds; a failed set-up leaves it disabled and uninitialized |
| ParticleEmitter.ParticleEmitterNode.RunFrame | src/main/java/tonegod/emitter/ParticleEmitterNode.java:2029-2052 | one frame of an initialized emitter: the clock advances by `tpf`, the interval becomes `FrameInterval`, `emitCalls` grows by `FrameAttempts`, and the hook log after the frame begins with the particle loop's calls on the pool before the frame (`UpdateCalls`), so every update and reset of the frame comes before any emission |
| ParticleEmitter.ParticleEmitterNode.EmitFrame | src/main/java/tonegod/emitter/ParticleEmitterNode.java:2038-2052 | the interval becomes `FrameInterval`, kept in (0, target], and `emitCalls` grows by `FrameAttempts`; the hook log is only appended to |
| ParticleEmitter.ParticleEmitterNode.EmitBatch | src/main/java/tonegod/emitter/ParticleEmitterNode.java:2046-2048 | `emitCalls` grows by `max(count, 0)`, one `emitNextParticle()` call per round; the hook log is only appended to |
| ParticleEmitter.ParticleEmitterNode.UpdateActiveParticles | src/main/java/tonegod/emitter/ParticleEmitterNode.java:2031-2035 | every active particle gets `Updated` motion fields and the inactive ones keep theirs; exactly the active ones whose life runs out become inactive; the counter becomes `CountAfterUpdates` and the hint `HintAfterUpdates` (each ending slot lowers the counter and is offered to the hint, in slot order); the hook log gains `UpdateCalls`: the `reset` loop for each ending slot and the `update` loop for every other active one, in slot order |
| ParticleEmitter.ParticleEmitterNode.AdvanceParticles | src/main/java/tonegod/emitter/ParticleEmitterNode.java:2031-2035 | the particle loop as the emission step sees it: the invariant is kept and the hook log gains exactly `UpdateCalls` |
| ParticleEmitter.ParticleEmitterNode.UpdateLoop | src/main/java/tonegod/emitter/ParticleEmitterNode.java:2032-2036 | the update loop over the pool: from nothing updated it reaches `UpdatedThrough` the whole pool, so flags, motions, counter, hint and hook log are those of the reference definitions |
| ParticleEmitter.ParticleEmitterNode.UpdateStep | src/main/java/tonegod/emitter/ParticleEmitterNode.java:2033-2035 | one pass of the update loop: `UpdatedThrough(i)` becomes `UpdatedThrough(i + 1)`, an idle slot being skipped; configuration and chain unchanged |
| ParticleEmitter.ParticleEmitterNode.UpdateActiveStep | src/main/java/tonegod/emitter/ParticleEmitterNode.java:2034 | `particleData.update(this, tpf)` on an active slot: its flag drops exactly when it `Expires`, its motion becomes the updated one, and the counter, hint and hook log are `CountAfterUpdates`, `HintAfterUpdates` and `UpdateCalls` through `i + 1` |
| ParticleEmitter.CountAfterUpdatesFloor | src/main/java/tonegod/emitter/particle/ParticleData.java:439-444 | the particle loop lowers a counter of at least -1 once per ended life, to `max(count - ended, -1)` |
| ParticleEmitter.HintAfterUpdatesBounds | src/main/java/tonegod/emitter/particle/ParticleData.java:439-444 | after the particle loop the hint is at least -1, a non-negative hint has not risen, the hint lies in [0, j] for every slot `j` whose life ended, and it is unchanged when none ended |
| ParticleEmitter.ParticleEmitterNode.UpdateAt | src/main/java/tonegod/emitter/ParticleEmitterNode.java:2032-2034 | one particle's update as a change of slot `i` of the pool: it gets `Updated` fields, and only it changes; when its life ends it becomes inactive, the counter is decremented, the hint is offered `i` and the `reset` loop runs; otherwise it stays active, counter and hint stay, and the `update` loop runs |

## Left out

- Rendering, materials, textures, meshes and the scene graph are not part of
  this model. This includes the texture part of `setSpriteCount`.
- The demo scene nodes, animation fields and `setParent` are not part of this model.
- Serialization and cloning through the jME capsule and `Cloner` are left out.
  Only two saved forms are modelled: the id list of the step list, and the
  ordinal of the stretch axis.
- The easing curves are left out. A curve is an id, and its effect is the
  parameter `ease`.
- Emission-shape sampling is left out. Its results are fields of `Spawn`
  values, and the point of a triangle for a static particle is `translationAt`.
- Vector normalization is not modelled. The emission direction in a `Spawn` is
  taken as already normalized, so a particle's initial speed is `|force|`.
- Float rounding, and `NaN` from a division by zero, are not modelled.
- Alpha.AlphaInfluencer.Update: requires a non-zero step duration and at least
  one keyframe. With a zero duration the Java code divides by zero in float, and
  with no keyframe it indexes an empty list.
- Randomness (`FastMath.nextRandomFloat` and `nextRandomInt`) comes in as
  parameters. This includes the random start keyframe of the alpha influencer.
- `DEFAULT_PARTICLE_DATA_SIZE`, which is read from a system property, is a
  constructor argument.
- The influencers' own hook bodies are not part of this model. The emitter
  records each call in `hookCalls`, and the calls change no particle field.
  So the edge offset uses the unit size that `initialize` sets, not a size an
  influencer's `initialize` hook may have changed.
- `updateLogicalState`'s call to `super` is left out. Its lazy jME
  `initialize()` is reduced to a flag `initSucceeds` that says whether the
  engine set-up throws. The Java set-up can also throw after `initParticles()`,
  in the texture lookup (ParticleEmitterNode.java:1853-1857). That leaves a
  rebuilt pool on a disabled, uninitialized emitter, while the model's failing
  branch leaves the pool untouched.
- `requiresUpdate` only flags the mesh for rendering, so it is not modelled.
- `removeInfluencer(influencer)`, `removeInfluencer(type)` and
  `addInfluencers(...)` are left out. They are lookups or loops over the
  modelled `removeInfluencer(int)` and `addInfluencer`, with influencer
  identity from outside.
- The getters are left out. Each only returns a field.
- ParticleEmitter.ParticleEmitterNode.AddInfluencerAt: positions are `nat`, so
  a negative position is not modelled. In the Java code it always throws. With
  at least one particle, the move loop first shifts every particle's slots, and
  then `moveInfluencerData(-1, 0)` reads `data[-1]` of the first particle. With
  an empty pool, `influencers.get(index)` throws instead (line 1388).
- ParticleEmitter.ParticleEmitterNode.RunFrame: does not state the pool after
  the frame, only the clock, the interval, the number of `emitNextParticle()`
  calls and the particle loop's share of the hook log. The particle loop's effect
  on the pool is stated by `UpdateActiveParticles`, and each emission's by
  `EmitNextParticle`.
- ParticleEmitter.ParticleEmitterNode.EmitFrame: states the number of
  `emitNextParticle()` calls, not the pool after them.
- ParticleEmitter.ParticleEmitterNode.EmitBatch: states the number of
  `emitNextParticle()` calls, not the pool after them.
- ParticleEmitter.ParticleEmitterNode.UpdateLogicalState: says nothing more than
  `RunFrame` about the particles once the frame runs.
- ParticleEmitter.ParticleEmitterNode.UpdateLogicalState: requires `tpf >= 0`, and
  so do `ParticleData.Update`, `UpdatedFacts`, `RunFrame`, `AdvanceParticles`,
  `EmitFrame`, `UpdateActiveParticles` and `UpdateAt`. Frames with a negative
  `tpf` are not modelled. Java accepts any float there. With a negative `tpf`,
  `life -= tpf` raises a particle's life above its start life, so its blend turns
  negative. `emittedTime` goes back. `currentInterval += tpf` lowers the interval,
  which can then drop to 0 or below, and the frame emits nothing.
- Common.TruncToInt: does not model saturation of the cast at the 32-bit
  integer range.
- Alpha.AlphaInfluencer.Initialize: requires at least one keyframe, and two or
  more when not cycling. The `firstInitializeImpl` step before it makes this
  true for an enabled influencer, and with fewer the Java code divides by zero
  or indexes an empty list.
- Alpha.AlphaInfluencer.UpdateAlpha: requires the index inside the list. Out of
  range, the store goes to rlib's `UnsafeArray.set` (AlphaInfluencer.java:35,
  210), which is not part of this model and is assumed to throw.
- `randomStartAlpha` is never assigned outside `read`, which is not part of this
  model, so it stays false in the model.
