/** The particle emitter (`ParticleEmitterNode`) and its particle records
    (`ParticleData`): a fixed pool of particle records with a free-slot hint and an
    active counter, the per-frame timing that decides how many particles to spawn,
    bulk emission and removal, the influencer chain with its per-particle data slots,
    and each particle's lifecycle (spawn, per-frame update, reset).

    The influencers themselves are outside this model: a call the emitter makes into
    an influencer ("hook") is recorded, in order, in the emitter's `hookCalls` log,
    and an influencer's data object is a `DataObject` value. Random draws and the
    emission shape's samples are supplied as `Spawn` values, the easing curve as a
    function `ease`. */
module ParticleEmitter {
  import opened Common
  import opened SlotStore
  import opened Emission
  import opened StretchAxis

  /** Where on the emission shape a particle starts: the sampled point, or that
      point moved along the emission direction by the particle's height. */
  datatype EmissionPoint = Center | EdgeTop | EdgeBottom

  /** An influencer in the emitter's chain, as far as the emitter sees it: an
      identity and whether it keeps a per-particle data object. */
  datatype Influencer = Influencer(id: int, usedDataObject: bool)

  /** The influencer hooks the emitter calls: `createData`, `initialize`, `update`,
      `reset` and `storeUsedData`. */
  datatype HookKind = OnCreate | OnInitialize | OnUpdate | OnReset | OnStore

  /** One hook call: the hook, the position of the influencer in the chain it is
      called with, and the pool index of the particle it is called on. */
  datatype HookCall = HookCall(kind: HookKind, influencer: int, particle: int)

  /** The values one spawn draws: the two random numbers for life and force, and
      what the emission shape yields (the triangle chosen, the point on it, the
      random offset, the normalized emission direction, and the normalized direction
      sampled again for the edge offset), plus the emitter's world translation. */
  datatype Spawn = Spawn(
    rLife: real,
    rForce: real,
    triangleIndex: int,
    translation: Vec3,
    randomTranslation: Vec3,
    direction: Vec3,
    edgeDirection: Vec3,
    worldTranslation: Vec3)

  /** The emitter settings a spawn reads. */
  datatype SpawnSettings = SpawnSettings(
    lifeMin: real,
    lifeMax: real,
    forceMin: real,
    forceMax: real,
    randomEmissionPoint: bool,
    emissionPoint: EmissionPoint)

  /** The emitter settings a particle update reads. */
  datatype FrameSettings = FrameSettings(
    staticParticles: bool,
    randomEmissionPoint: bool,
    interpolation: Interpolation)

  /** A particle record's kinematic and timing fields: everything but its pool
      index, its active flag and its data slots. */
  datatype Motion = Motion(
    life: real,
    startLife: real,
    blend: real,
    interpBlend: real,
    force: real,
    initialLength: real,
    position: Vec3,
    velocity: Vec3,
    randomOffset: Vec3,
    initialPosition: Vec3,
    size: Vec3,
    triangleIndex: int,
    alpha: real)

  /** The fields of a newly constructed particle record: unit size and full alpha. */
  const Idle := Motion(0.0, 0.0, 0.0, 0.0, 0.0, 0.0, Zero, Zero, Zero, Zero, One, 0, 1.0)

  // ---------------------------------------------------------------------------
  // The particle lifecycle as functions on particle fields

  function Abs(x: real): real { if x < 0.0 then -x else x }

  /** The edge offset of an emission point applied to a shape point. */
  function EdgeShifted(point: EmissionPoint, base: Vec3, edgeDirection: Vec3, height: real): Vec3 {
    match point
    case Center => base
    case EdgeBottom => base.Add(edgeDirection.Scale(height))
    case EdgeTop => base.Sub(edgeDirection.Scale(height))
  }

  /** Where a spawned particle starts: the shape point (plus the random offset when
      random emission points are on), then for an edge emission point moved by the
      particle height along the edge direction, forward for the bottom edge and
      backward for the top edge. */
  function SpawnPosition(cfg: SpawnSettings, s: Spawn, height: real): Vec3 {
    var base := if cfg.randomEmissionPoint then s.translation.Add(s.randomTranslation) else s.translation;
    EdgeShifted(cfg.emissionPoint, base, s.edgeDirection, height)
  }

  /** What `initialize` makes of a particle record's fields. */
  function Spawned(m: Motion, cfg: SpawnSettings, s: Spawn): (r: Motion)
    ensures r.life == r.startLife
  {
    var startLife := Draw(cfg.lifeMin, cfg.lifeMax, s.rLife);
    var force := Draw(cfg.forceMin, cfg.forceMax, s.rForce);
    m.(blend := 0.0, size := One, startLife := startLife, life := startLife,
       force := force, triangleIndex := s.triangleIndex,
       randomOffset := if cfg.randomEmissionPoint then s.randomTranslation else m.randomOffset,
       position := SpawnPosition(cfg, s, One.y),
       velocity := s.direction.Scale(force), initialLength := Abs(force),
       initialPosition := s.worldTranslation)
  }

  /** A spawned particle has its full life ahead, a life and a force drawn from the
      configured ranges (exactly the bound when a range is a single value), no
      progress and unit size, and keeps its alpha and eased progress. */
  lemma SpawnedFacts(m: Motion, cfg: SpawnSettings, s: Spawn)
    requires cfg.lifeMin <= cfg.lifeMax && cfg.forceMin <= cfg.forceMax
    requires 0.0 <= s.rLife < 1.0 && 0.0 <= s.rForce < 1.0
    ensures var r := Spawned(m, cfg, s);
      r.life == r.startLife && r.blend == 0.0 && r.size == One &&
      cfg.lifeMin <= r.startLife <= cfg.lifeMax &&
      cfg.forceMin <= r.force <= cfg.forceMax &&
      r.alpha == m.alpha && r.interpBlend == m.interpBlend
    ensures cfg.lifeMin == cfg.lifeMax ==> Spawned(m, cfg, s).startLife == cfg.lifeMax
    ensures cfg.forceMin == cfg.forceMax ==> Spawned(m, cfg, s).force == cfg.forceMax
  {
    DrawInRange(cfg.lifeMin, cfg.lifeMax, s.rLife);
    DrawInRange(cfg.forceMin, cfg.forceMax, s.rForce);
  }

  /** A particle at a bottom edge emission point starts one height further along the
      edge direction than at the centre, and at a top edge one height back. */
  lemma EdgeOffset(cfg: SpawnSettings, s: Spawn)
    ensures var c := SpawnPosition(cfg.(emissionPoint := Center), s, 1.0);
      SpawnPosition(cfg.(emissionPoint := EdgeBottom), s, 1.0) == c.Add(s.edgeDirection) &&
      SpawnPosition(cfg.(emissionPoint := EdgeTop), s, 1.0) == c.Sub(s.edgeDirection)
  {
  }

  /** Whether a particle's update ends its life: a non-static particle whose life
      runs out in this frame. */
  predicate Expires(m: Motion, cfg: FrameSettings, tpf: real) {
    !cfg.staticParticles && m.life - tpf <= 0.0
  }

  /** The position a static particle is pinned to: the shape point of its triangle,
      plus its random offset when random emission points are on. */
  function StaticPosition(m: Motion, cfg: FrameSettings, translationAt: int -> Vec3): Vec3 {
    if cfg.randomEmissionPoint then translationAt(m.triangleIndex).Add(m.randomOffset)
    else translationAt(m.triangleIndex)
  }

  /** What `update` makes of a particle record's fields in one frame: a non-static
      particle loses the frame time from its life and either expires (and is reset,
      see `Expires`) or gets its progress, eased progress and a step along its
      velocity; a static particle keeps its life and is pinned to its shape point. */
  function Updated(m: Motion, cfg: FrameSettings, tpf: real,
                   ease: (Interpolation, real) -> real, translationAt: int -> Vec3): Motion
    requires tpf >= 0.0 && m.life <= m.startLife
  {
    if cfg.staticParticles then m.(position := StaticPosition(m, cfg, translationAt))
    else
      var life := m.life - tpf;
      if life <= 0.0 then m.(life := life)
      else
        var blend := BlendOf(m.startLife, life);
        m.(life := life, blend := blend, interpBlend := ease(cfg.interpolation, blend),
           position := m.position.Add(m.velocity.Scale(tpf)))
  }

  /** An update keeps the start life, never lets the life exceed it, moves an expiring
      particle nowhere, and leaves a surviving non-static particle with progress in
      [0, 1), exactly the frame time less life, and one frame's step along its
      velocity. */
  lemma UpdatedFacts(m: Motion, cfg: FrameSettings, tpf: real,
                     ease: (Interpolation, real) -> real, translationAt: int -> Vec3)
    requires tpf >= 0.0 && m.life <= m.startLife
    ensures var r := Updated(m, cfg, tpf, ease, translationAt);
      r.startLife == m.startLife && r.life <= r.startLife &&
      (cfg.staticParticles ==> r.life == m.life) &&
      (!cfg.staticParticles ==> r.life == m.life - tpf) &&
      (Expires(m, cfg, tpf) ==> r.position == m.position && r.blend == m.blend) &&
      (!Expires(m, cfg, tpf) && !cfg.staticParticles ==>
        0.0 <= r.blend < 1.0 && r.position == m.position.Add(m.velocity.Scale(tpf)))
  {
    if !cfg.staticParticles && m.life - tpf > 0.0 {
      BlendInRange(m.startLife, m.life - tpf);
    }
  }

  // ---------------------------------------------------------------------------
  // The hook log

  /** One dispatch loop: hook `kind` called on particle `p` by each of `m`
      influencers, in chain order. */
  function Dispatch(kind: HookKind, m: nat, p: int): (r: seq<HookCall>)
    ensures |r| == m
    ensures forall i :: 0 <= i < m ==> r[i] == HookCall(kind, i, p)
  {
    seq(m, i => HookCall(kind, i, p))
  }

  /** Hook `kind` of the influencer at position `influencer` called on each of the
      first `n` particles of the pool, in pool order. */
  function PoolSweep(kind: HookKind, influencer: int, n: nat): (r: seq<HookCall>)
    ensures |r| == n
    ensures forall j :: 0 <= j < n ==> r[j] == HookCall(kind, influencer, j)
  {
    seq(n, j => HookCall(kind, influencer, j))
  }

  /** The log `log` followed by the dispatch loops of hook `kind` run for every
      picked particle among the first `n` of the pool, in pool order. */
  function Calls(log: seq<HookCall>, kind: HookKind, m: nat, pick: seq<bool>, n: nat): seq<HookCall>
    requires n <= |pick|
  {
    if n == 0 then log
    else if pick[n - 1] then Calls(log, kind, m, pick, n - 1) + Dispatch(kind, m, n - 1)
    else Calls(log, kind, m, pick, n - 1)
  }

  /** The log `log` followed by the hooks of `initParticles`: for each new particle
      in pool order, the `createData` loop of its construction and then the `reset`
      loop. */
  function CreationCalls(log: seq<HookCall>, m: nat, n: nat): seq<HookCall>
  {
    if n == 0 then log
    else CreationCalls(log, m, n - 1) + Dispatch(OnCreate, m, n - 1) + Dispatch(OnReset, m, n - 1)
  }

  /** Every slot picked. */
  function AllPicked(n: nat): (r: seq<bool>)
    ensures |r| == n && forall j :: 0 <= j < n ==> r[j]
  {
    seq(n, _ => true)
  }

  /** The slots not active. */
  function Inactive(flags: seq<bool>): (r: seq<bool>)
    ensures |r| == |flags| && forall j :: 0 <= j < |flags| ==> r[j] == !flags[j]
  {
    seq(|flags|, j requires 0 <= j < |flags| => !flags[j])
  }

  /** The slots `emitNumParticles(count)` picks. */
  function ChosenSlots(flags: seq<bool>, count: int): (r: seq<bool>)
    ensures |r| == |flags| && forall j :: 0 <= j < |flags| ==> r[j] == Chosen(flags, count, j)
  {
    seq(|flags|, j requires 0 <= j < |flags| => Chosen(flags, count, j))
  }

  /** The activity flags once the picked slots among the first `i` are spawned. */
  function Activated(flags: seq<bool>, pick: seq<bool>, i: nat): (r: seq<bool>)
    requires |pick| == |flags| && i <= |flags|
    ensures |r| == |flags|
    ensures forall j :: 0 <= j < |flags| ==> r[j] == (flags[j] || (j < i && pick[j]))
  {
    seq(|flags|, j requires 0 <= j < |flags| => flags[j] || (j < i && pick[j]))
  }

  /** `sp` holds every record's motion fields as `initialize` would make them, slot
      `j` with the draws `draw(j)`. The trigger keeps the spawning arithmetic out of
      the sweeps' proofs until a slot is actually spawned. */
  predicate SpawnedFrom(sp: seq<Motion>, ms: seq<Motion>, cfg: SpawnSettings, draw: int -> Spawn) {
    |sp| == |ms| &&
    forall j {:trigger Spawned(ms[j], cfg, draw(j))} :: 0 <= j < |ms| ==> sp[j] == Spawned(ms[j], cfg, draw(j))
  }

  /** Every record's motion fields as `initialize` would make them, slot `j` with
      the draws `draw(j)`. */
  function SpawnedAll(ms: seq<Motion>, cfg: SpawnSettings, draw: int -> Spawn): (r: seq<Motion>)
    ensures |r| == |ms|
    ensures forall j :: 0 <= j < |ms| ==> r[j] == Spawned(ms[j], cfg, draw(j))
    ensures SpawnedFrom(r, ms, cfg, draw)
  {
    seq(|ms|, j requires 0 <= j < |ms| => Spawned(ms[j], cfg, draw(j)))
  }

  /** `up` holds every record's motion fields as one `update` would make them. As
      with `SpawnedFrom`, the trigger keeps the update arithmetic out of the sweep's
      proof until a slot is actually updated. */
  predicate UpdatedFrom(up: seq<Motion>, ms: seq<Motion>, cfg: FrameSettings, tpf: real,
                        ease: (Interpolation, real) -> real, translationAt: int -> Vec3) {
    |up| == |ms| && tpf >= 0.0 &&
    forall j {:trigger Updated(ms[j], cfg, tpf, ease, translationAt)} :: 0 <= j < |ms| ==>
      ms[j].life <= ms[j].startLife && up[j] == Updated(ms[j], cfg, tpf, ease, translationAt)
  }

  /** Every record's motion fields after one `update`. */
  function UpdatedAll(ms: seq<Motion>, cfg: FrameSettings, tpf: real,
                      ease: (Interpolation, real) -> real, translationAt: int -> Vec3): (r: seq<Motion>)
    requires tpf >= 0.0 && forall j :: 0 <= j < |ms| ==> ms[j].life <= ms[j].startLife
    ensures |r| == |ms|
    ensures forall j :: 0 <= j < |ms| ==> r[j] == Updated(ms[j], cfg, tpf, ease, translationAt)
    ensures UpdatedFrom(r, ms, cfg, tpf, ease, translationAt)
  {
    seq(|ms|, j requires 0 <= j < |ms| => Updated(ms[j], cfg, tpf, ease, translationAt))
  }

  /** The activity flags once the active slots among the first `i` are updated: an
      active slot whose life runs out is deactivated. */
  function Survived(flags: seq<bool>, ms: seq<Motion>, cfg: FrameSettings, tpf: real, i: nat): (r: seq<bool>)
    requires |ms| == |flags| && i <= |flags|
    ensures |r| == |flags|
    ensures forall j :: 0 <= j < |flags| ==>
      r[j] == (if j < i then flags[j] && !Expires(ms[j], cfg, tpf) else flags[j])
  {
    seq(|flags|, j requires 0 <= j < |flags| => if j < i then flags[j] && !Expires(ms[j], cfg, tpf) else flags[j])
  }

  /** Updating slot `i` moves the flags one slot on. */
  lemma SurvivedStep(flags: seq<bool>, ms: seq<Motion>, cfg: FrameSettings, tpf: real, i: nat)
    requires |ms| == |flags| && i < |flags|
    ensures Survived(flags, ms, cfg, tpf, i)[i] == flags[i]
    ensures Survived(flags, ms, cfg, tpf, i + 1) ==
      Survived(flags, ms, cfg, tpf, i)[i := flags[i] && !Expires(ms[i], cfg, tpf)]
  {
  }

  /** The motion fields `ms` with those of the picked slots among the first `i`
      replaced by `sp`. */
  function Replaced(ms: seq<Motion>, pick: seq<bool>, sp: seq<Motion>, i: nat): (r: seq<Motion>)
    requires |pick| == |ms| == |sp| && i <= |ms|
    ensures |r| == |ms|
    ensures forall j :: 0 <= j < |ms| ==> r[j] == (if j < i && pick[j] then sp[j] else ms[j])
  {
    seq(|ms|, j requires 0 <= j < |ms| => if j < i && pick[j] then sp[j] else ms[j])
  }

  /** Spawning slot `i` moves the flags one slot on. */
  lemma ActivatedStep(flags: seq<bool>, pick: seq<bool>, i: nat)
    requires |pick| == |flags| && i < |flags|
    ensures Activated(flags, pick, i)[i] == flags[i]
    ensures Activated(flags, pick, i + 1) ==
      if pick[i] then Activated(flags, pick, i)[i := true] else Activated(flags, pick, i)
  {
  }

  /** Spawning slot `i` moves the motion fields one slot on. */
  lemma ReplacedStep(ms: seq<Motion>, pick: seq<bool>, sp: seq<Motion>, i: nat)
    requires |pick| == |ms| == |sp| && i < |ms|
    ensures Replaced(ms, pick, sp, i)[i] == ms[i]
    ensures Replaced(ms, pick, sp, i + 1) ==
      if pick[i] then Replaced(ms, pick, sp, i)[i := sp[i]] else Replaced(ms, pick, sp, i)
  {
  }

  /** `pc[j]` counts the picked slots among the first `j`. */
  predicate RunningCount(pc: seq<int>, pick: seq<bool>) {
    |pc| == |pick| + 1 && pc[0] == 0 &&
    forall j :: 0 <= j < |pick| ==> pc[j + 1] == pc[j] + (if pick[j] then 1 else 0)
  }

  /** The number of inactive slots before each slot, and in the whole pool last. */
  function InactiveCounts(flags: seq<bool>): (ib: seq<int>)
    ensures RunningCount(ib, Inactive(flags))
    ensures forall j :: 0 <= j < |ib| ==> ib[j] >= 0
  {
    seq(|flags| + 1, j requires 0 <= j <= |flags| => InactiveBefore(flags, j))
  }

  /** Slots from `i` on that are not picked change nothing. */
  lemma UnpickedRest(flags: seq<bool>, ms: seq<Motion>, pick: seq<bool>, sp: seq<Motion>, i: nat)
    requires |pick| == |flags| == |ms| == |sp| && i <= |flags|
    requires forall j :: i <= j < |flags| ==> !pick[j]
    ensures Activated(flags, pick, |flags|) == Activated(flags, pick, i)
    ensures Replaced(ms, pick, sp, |flags|) == Replaced(ms, pick, sp, i)
  {
  }

  /** Unpicked particles after the first `i` add no calls. */
  lemma {:induction false} CallsUnpickedTail(log: seq<HookCall>, kind: HookKind, m: nat, pick: seq<bool>, i: nat, n: nat)
    requires i <= n <= |pick|
    requires forall j :: i <= j < n ==> !pick[j]
    ensures Calls(log, kind, m, pick, n) == Calls(log, kind, m, pick, i)
    decreases n - i
  {
    if i < n {
      CallsUnpickedTail(log, kind, m, pick, i, n - 1);
    }
  }

  /** Whether the particle loop of a frame ends the life of slot `j`: the slot is
      active when the loop reaches it, and its update runs its life out. */
  predicate EndsAt(flags: seq<bool>, ms: seq<Motion>, cfg: FrameSettings, tpf: real, j: nat)
    requires j < |flags| == |ms|
  {
    flags[j] && Expires(ms[j], cfg, tpf)
  }

  /** The number of slots among the first `n` whose life the particle loop ends. */
  function EndedBefore(flags: seq<bool>, ms: seq<Motion>, cfg: FrameSettings, tpf: real, n: nat): (c: nat)
    requires n <= |flags| == |ms|
    ensures c <= n
  {
    if n == 0 then 0
    else EndedBefore(flags, ms, cfg, tpf, n - 1) + (if EndsAt(flags, ms, cfg, tpf, n - 1) then 1 else 0)
  }

  /** The active counter once the particle loop has passed the first `n` slots,
      from `count`: each slot whose life ends sends one deactivation. */
  function CountAfterUpdates(count: int, flags: seq<bool>, ms: seq<Motion>, cfg: FrameSettings, tpf: real,
                             n: nat): int
    requires n <= |flags| == |ms|
  {
    if n == 0 then count
    else if EndsAt(flags, ms, cfg, tpf, n - 1) then Decrement(CountAfterUpdates(count, flags, ms, cfg, tpf, n - 1))
    else CountAfterUpdates(count, flags, ms, cfg, tpf, n - 1)
  }

  /** The free-slot hint once the particle loop has passed the first `n` slots,
      from `hint`: each slot whose life ends offers itself through `setNextIndex`. */
  function HintAfterUpdates(hint: int, flags: seq<bool>, ms: seq<Motion>, cfg: FrameSettings, tpf: real,
                            n: nat): int
    requires n <= |flags| == |ms|
  {
    if n == 0 then hint
    else if EndsAt(flags, ms, cfg, tpf, n - 1) then OfferIndex(HintAfterUpdates(hint, flags, ms, cfg, tpf, n - 1), n - 1)
    else HintAfterUpdates(hint, flags, ms, cfg, tpf, n - 1)
  }

  /** The log `log` followed by the hooks the particle loop runs on the first `n`
      slots, in pool order: nothing for an inactive slot, the `reset` loop for a slot
      whose life ends, and the `update` loop for any other. */
  function UpdateCalls(log: seq<HookCall>, m: nat, flags: seq<bool>, ms: seq<Motion>, cfg: FrameSettings,
                       tpf: real, n: nat): seq<HookCall>
    requires n <= |flags| == |ms|
  {
    if n == 0 then log
    else if !flags[n - 1] then UpdateCalls(log, m, flags, ms, cfg, tpf, n - 1)
    else if Expires(ms[n - 1], cfg, tpf) then UpdateCalls(log, m, flags, ms, cfg, tpf, n - 1) + Dispatch(OnReset, m, n - 1)
    else UpdateCalls(log, m, flags, ms, cfg, tpf, n - 1) + Dispatch(OnUpdate, m, n - 1)
  }

  /** The particle loop lowers the counter once per ended life, and never below -1. */
  lemma {:induction false} CountAfterUpdatesFloor(count: int, flags: seq<bool>, ms: seq<Motion>, cfg: FrameSettings,
                                                 tpf: real, n: nat)
    requires n <= |flags| == |ms| && count >= -1
    ensures CountAfterUpdates(count, flags, ms, cfg, tpf, n) == DecrementTimes(count, EndedBefore(flags, ms, cfg, tpf, n))
    ensures CountAfterUpdates(count, flags, ms, cfg, tpf, n) == Max(count - EndedBefore(flags, ms, cfg, tpf, n), -1)
  {
    if n > 0 {
      CountAfterUpdatesFloor(count, flags, ms, cfg, tpf, n - 1);
    }
    DecrementTimesFloor(count, EndedBefore(flags, ms, cfg, tpf, n));
  }

  /** After the particle loop the hint is at least -1. A hint that was set is never
      raised. Every slot whose life ended has been offered, so the hint is a slot at
      or below it. With no life ended the hint is unchanged. */
  lemma {:induction false} HintAfterUpdatesBounds(hint: int, flags: seq<bool>, ms: seq<Motion>, cfg: FrameSettings,
                                                 tpf: real, n: nat)
    requires n <= |flags| == |ms| && hint >= -1
    ensures HintAfterUpdates(hint, flags, ms, cfg, tpf, n) >= -1
    ensures hint >= 0 ==> 0 <= HintAfterUpdates(hint, flags, ms, cfg, tpf, n) <= hint
    ensures forall j :: 0 <= j < n && EndsAt(flags, ms, cfg, tpf, j) ==>
      0 <= HintAfterUpdates(hint, flags, ms, cfg, tpf, n) <= j
    ensures EndedBefore(flags, ms, cfg, tpf, n) == 0 ==> HintAfterUpdates(hint, flags, ms, cfg, tpf, n) == hint
  {
    if n > 0 {
      HintAfterUpdatesBounds(hint, flags, ms, cfg, tpf, n - 1);
    }
  }

  // ---------------------------------------------------------------------------
  // The particle record

  class ParticleData {
    /** The record's slot in the emitter's pool. */
    const index: nat
    var active: bool
    /** The per-influencer data slots: empty until the first reservation. */
    var data: Slots
    /** The kinematic and timing fields, written together. */
    var motion: Motion

    /** `new ParticleData(emitter)` for slot `i` of the pool: an inactive record with
        unit size, full alpha and no data slots, announced to every influencer
        through `createData`. The source numbers the record only after its
        constructor returns, so while the `createData` hooks run its `index` field
        still reads 0; here the slot is set first, and the hook log names the record
        by its slot. */
    constructor (e: ParticleEmitterNode, i: nat)
      modifies e`hookCalls
      ensures index == i && !active && data == [] && motion == Idle
      ensures e.hookCalls == old(e.hookCalls) + Dispatch(OnCreate, |e.influencers|, index)
    {
      index := i;
      active := false;
      data := [];
      motion := Idle;
      new;
      e.OnCreated(this);
    }

    /** `isActive()`. */
    method IsActive() returns (b: bool)
      ensures b == active
    {
      b := active;
    }

    /** `reserveDataSlot(id, defaultSize)`. */
    method ReserveDataSlot(id: nat, defaultSize: int)
      modifies this`data
      ensures data == Reserve(old(data), id, defaultSize)
    {
      if |data| == 0 {
        data := seq(Max(defaultSize, id + 1), _ => None);
      } else if id >= |data| {
        data := data + seq(id + 1 - |data|, _ => None);
      }
    }

    /** `hasData(id)`: false for a slot the array does not have. */
    method HasData(id: nat) returns (b: bool)
      ensures b <==> id < |data| && data[id].Some?
    {
      b := |data| > id && data[id].Some?;
    }

    /** `getData(id)`: the slot's content (possibly empty); the array access throws
        for a slot the array does not have. */
    method GetData(id: nat) returns (r: Result<Option<DataObject>>)
      ensures r.Ok? <==> id < |data|
      ensures r.Ok? ==> r.value == data[id]
      ensures r.Err? ==> r.error == IndexOutOfBounds
    {
      if id >= |data| {
        return Err(IndexOutOfBounds);
      }
      r := Ok(data[id]);
    }

    /** `setData(id, x)`: writes slot `id`; the array access throws for a slot the
        array does not have, and then nothing changes. */
    method SetData(id: nat, x: DataObject) returns (o: Outcome)
      modifies this`data
      ensures o.Pass? <==> id < |old(data)|
      ensures o.Pass? ==> data == SlotStore.SetData(old(data), id, x)
      ensures o.Fail? ==> o.error == IndexOutOfBounds && data == old(data)
    {
      if id >= |data| {
        return Fail(IndexOutOfBounds);
      }
      data := data[id := Some(x)];
      o := Pass;
    }

    /** `removeData(id)`. */
    method RemoveData(id: nat)
      modifies this`data
      ensures data == SlotStore.RemoveData(old(data), id)
    {
      if |data| > id {
        data := data[id := None];
      }
    }

    /** `initializeData(influencer, id, defaultSize)`: `created` is the object the
        influencer's `newDataObject` would return, used only for an empty slot. */
    method InitializeData(id: nat, defaultSize: int, created: DataObject) returns (obj: DataObject)
      modifies this`data
      ensures (data, obj) == SlotStore.InitializeData(old(data), id, defaultSize, created)
    {
      ReserveDataSlot(id, defaultSize);
      var has := HasData(id);
      if !has {
        var _ := SetData(id, created);
        return created;
      }
      var got := GetData(id);
      obj := got.value.value;
    }

    /** One particle's part of `moveInfluencerData(prev, next)`. */
    method MoveData(prev: nat, next: nat, defaultSize: int)
      modifies this`data
      ensures data == SlotStore.MoveData(old(data), prev, next, defaultSize)
    {
      var has := HasData(prev);
      if !has {
        RemoveData(next);
        return;
      }
      var got := GetData(prev);
      var x := got.value.value;
      ReserveDataSlot(next, defaultSize);
      var _ := SetData(next, x);
      RemoveData(prev);
    }

    /** `initialize(emitter)`: counts the particle as activated, activates it, draws
        its life and force, places it on the emission shape with its velocity, runs
        the influencers' `initialize` hooks, and then applies the edge offset. */
    method Initialize(e: ParticleEmitterNode, s: Spawn)
      modifies this`active, this`motion, e`activeParticleCount, e`hookCalls
      ensures active && motion == Spawned(old(motion), e.SpawnSettingsOf(), s)
      ensures e.activeParticleCount == old(e.activeParticleCount) + 1
      ensures e.hookCalls == old(e.hookCalls) + Dispatch(OnInitialize, |e.influencers|, index)
    {
      e.NotifyParticleActivated();
      active := true;
      var startLife := Draw(e.lifeMin, e.lifeMax, s.rLife);
      var force := Draw(e.forceMin, e.forceMax, s.rForce);
      var randomOffset := if e.randomEmissionPoint then s.randomTranslation else motion.randomOffset;
      var position := if e.randomEmissionPoint then s.translation.Add(randomOffset) else s.translation;
      motion := motion.(blend := 0.0, size := One, startLife := startLife, life := startLife,
                        force := force, triangleIndex := s.triangleIndex,
                        randomOffset := randomOffset, position := position,
                        velocity := s.direction.Scale(force), initialLength := Abs(force),
                        initialPosition := s.worldTranslation);
      e.InitializeInfluencers(this);
      motion := motion.(position := EdgeShifted(e.emissionPoint, motion.position, s.edgeDirection, motion.size.y));
    }

    /** `update(emitter, tpf)`: one frame of the particle; an expiring particle is
        reset. */
    method Update(e: ParticleEmitterNode, tpf: real, ease: (Interpolation, real) -> real,
                  translationAt: int -> Vec3)
      requires tpf >= 0.0 && motion.life <= motion.startLife
      modifies this`motion, this`active, e`activeParticleCount, e`hookCalls, e`nextIndex
      ensures motion == Updated(old(motion), e.FrameSettingsOf(), tpf, ease, translationAt)
      ensures Expires(old(motion), e.FrameSettingsOf(), tpf) ==> (
        !active &&
        e.activeParticleCount == Decrement(old(e.activeParticleCount)) &&
        e.hookCalls == old(e.hookCalls) + Dispatch(OnReset, |e.influencers|, index) &&
        e.nextIndex == OfferIndex(old(e.nextIndex), index))
      ensures !Expires(old(motion), e.FrameSettingsOf(), tpf) ==> (
        active == old(active) &&
        e.activeParticleCount == old(e.activeParticleCount) &&
        e.hookCalls == old(e.hookCalls) + Dispatch(OnUpdate, |e.influencers|, index) &&
        e.nextIndex == old(e.nextIndex))
    {
      if !e.staticParticles {
        var life := motion.life - tpf;
        motion := motion.(life := life);
        if life <= 0.0 {
          Reset(e);
          return;
        }
        var blend := (motion.startLife - life) / motion.startLife;
        motion := motion.(blend := blend, interpBlend := ease(e.interpolation, blend));
      }
      e.UpdateInfluencers(this, tpf);
      motion := motion.(position := motion.position.Add(motion.velocity.Scale(tpf)));
      if e.staticParticles {
        if e.randomEmissionPoint {
          motion := motion.(position := translationAt(motion.triangleIndex).Add(motion.randomOffset));
        } else {
          motion := motion.(position := translationAt(motion.triangleIndex));
        }
      }
    }

    /** `reset(emitter)`: deactivates the particle whatever its state, counts it as
        deactivated, runs the influencers' `reset` hooks and offers its slot as the
        next free one. */
    method Reset(e: ParticleEmitterNode)
      modifies this`active, e`activeParticleCount, e`hookCalls, e`nextIndex
      ensures !active
      ensures e.activeParticleCount == Decrement(old(e.activeParticleCount))
      ensures e.hookCalls == old(e.hookCalls) + Dispatch(OnReset, |e.influencers|, index)
      ensures e.nextIndex == OfferIndex(old(e.nextIndex), index)
    {
      active := false;
      e.NotifyParticleDeactivated();
      e.ResetInfluencers(this);
      e.SetNextIndex(index);
    }
  }

  // ---------------------------------------------------------------------------
  // The emitter

  class ParticleEmitterNode {
    var particles: array<ParticleData>
    /** The records of the pool, as a set. */
    ghost var records: set<ParticleData>
    var influencers: seq<Influencer>
    /** The influencer hooks called so far, in order. */
    var hookCalls: seq<HookCall>
    /** The number of `emitNextParticle()` calls so far. */
    ghost var emitCalls: nat
    var nextIndex: int
    var activeParticleCount: int
    var maxParticles: int
    var particleDataSize: int
    var emissionsPerSecond: real
    var targetInterval: real
    var currentInterval: real
    var emittedTime: real
    var emitterLife: real
    var emitterDelay: real
    var particlesPerEmission: int
    var lifeMin: real
    var lifeMax: real
    var forceMin: real
    var forceMax: real
    var spriteCols: int
    var spriteRows: int
    var enabled: bool
    var initialized: bool
    var staticParticles: bool
    var randomEmissionPoint: bool
    var emissionPoint: EmissionPoint
    var interpolation: Interpolation
    var stretchAxis: ForcedStretchAxis

    /** Which pool slots are active. */
    ghost function ActiveFlags(): (f: seq<bool>)
      requires Indexed()
      reads this`particles, this`records, particles, records`active
      ensures |f| == particles.Length
      ensures forall i :: 0 <= i < particles.Length ==> f[i] == particles[i].active
    {
      ActivePrefix(particles.Length)
    }

    /** Which of the first `n` pool slots are active. */
    ghost function ActivePrefix(n: nat): (f: seq<bool>)
      requires n <= particles.Length && Indexed()
      reads this`particles, this`records, particles, records`active
      ensures |f| == n
      ensures forall i :: 0 <= i < n ==> f[i] == particles[i].active
    {
      if n == 0 then [] else ActivePrefix(n - 1) + [particles[n - 1].active]
    }

    /** The motion fields of the pool's records. */
    ghost function Motions(): (ms: seq<Motion>)
      requires Indexed()
      reads this`particles, this`records, particles, records`motion
      ensures |ms| == particles.Length
      ensures forall i :: 0 <= i < particles.Length ==> ms[i] == particles[i].motion
    {
      MotionPrefix(particles.Length)
    }

    /** The motion fields of the first `n` records. */
    ghost function MotionPrefix(n: nat): (ms: seq<Motion>)
      requires n <= particles.Length && Indexed()
      reads this`particles, this`records, particles, records`motion
      ensures |ms| == n
      ensures forall i :: 0 <= i < n ==> ms[i] == particles[i].motion
    {
      if n == 0 then [] else MotionPrefix(n - 1) + [particles[n - 1].motion]
    }

    ghost function SpawnSettingsOf(): SpawnSettings
      reads this`lifeMin, this`lifeMax, this`forceMin, this`forceMax, this`randomEmissionPoint, this`emissionPoint
    {
      SpawnSettings(lifeMin, lifeMax, forceMin, forceMax, randomEmissionPoint, emissionPoint)
    }

    ghost function FrameSettingsOf(): FrameSettings
      reads this`staticParticles, this`randomEmissionPoint, this`interpolation
    {
      FrameSettings(staticParticles, randomEmissionPoint, interpolation)
    }

    /** The hint and the counter are at least -1 and the configured pool size is not
        negative. */
    ghost predicate Counters()
      reads this`nextIndex, this`activeParticleCount, this`maxParticles
    {
      nextIndex >= -1 && activeParticleCount >= -1 && maxParticles >= 0
    }

    /** Between frames the emission interval lies in (0, targetInterval]. */
    ghost predicate IntervalInRange()
      reads this
    {
      0.0 < currentInterval <= targetInterval
    }

    /** Record `i` of the pool is the record of slot `i`, so the records are
        distinct. */
    ghost predicate Indexed()
      reads this`particles, this`records, particles
    {
      forall i :: 0 <= i < particles.Length ==> particles[i].index == i && particles[i] in records
    }

    /** No record has more life left than it started with. */
    ghost predicate LifeBounded()
      reads this`particles, this`records, particles, records`motion
    {
      Indexed() &&
      forall i :: 0 <= i < particles.Length ==> particles[i].motion.life <= particles[i].motion.startLife
    }

    /** The emitter's invariant; an initialized emitter has a pool of `maxParticles`. */
    ghost predicate Valid()
      reads this`nextIndex, this`activeParticleCount, this`maxParticles, this`initialized
      reads this`particles, this`records, particles, records`motion
    {
      Counters() && Indexed() && LifeBounded() && (initialized ==> particles.Length == maxParticles)
    }

    /** `new ParticleEmitterNode()`, with the particle data size that the system
        property supplies: an empty pool of 100 (built on initialization), life
        0.999 s, force 0.15..0.5, one particle per emission, a 1x1 sprite grid,
        disabled and not initialized. The constructor's `reset()` (on the empty pool)
        and `setEmissionsPerSecond(100)` leave the clock at 0 and the interval full
        at 1/100 s; they are applied here as the values they produce. */
    constructor (dataSize: int)
      ensures Valid() && IntervalInRange()
      ensures particles.Length == 0 && influencers == [] && hookCalls == [] && emitCalls == 0
      ensures nextIndex == 0 && activeParticleCount == 0 && maxParticles == 100
      ensures particleDataSize == dataSize
      ensures emissionsPerSecond == 100.0 && targetInterval == 1.0 / 100.0
      ensures currentInterval == targetInterval && emittedTime == 0.0
      ensures emitterLife == 0.0 && emitterDelay == 0.0 && particlesPerEmission == 1
      ensures lifeMin == 0.999 && lifeMax == 0.999 && forceMin == 0.15 && forceMax == 0.5
      ensures spriteCols == 1 && spriteRows == 1
      ensures !enabled && !initialized && !staticParticles && !randomEmissionPoint
      ensures emissionPoint == Center && interpolation == Linear && stretchAxis == Y
    {
      particles := new ParticleData[0];
      records := {};
      influencers := [];
      hookCalls := [];
      emitCalls := 0;
      nextIndex := 0;
      activeParticleCount := 0;
      maxParticles := 100;
      particleDataSize := dataSize;
      emissionsPerSecond := 100.0;
      targetInterval := 1.0 / 100.0;
      currentInterval := 1.0 / 100.0;
      emittedTime := 0.0;
      emitterLife := 0.0;
      emitterDelay := 0.0;
      particlesPerEmission := 1;
      lifeMin := 0.999;
      lifeMax := 0.999;
      forceMin := 0.15;
      forceMax := 0.5;
      spriteCols := 1;
      spriteRows := 1;
      enabled := false;
      initialized := false;
      staticParticles := false;
      randomEmissionPoint := false;
      emissionPoint := Center;
      interpolation := Linear;
      stretchAxis := Y;
    }

    // ----- counters and the free-slot hint

    /** `notifyParticleActivated()`. */
    method NotifyParticleActivated()
      modifies this`activeParticleCount
      ensures activeParticleCount == old(activeParticleCount) + 1
    {
      activeParticleCount := activeParticleCount + 1;
    }

    /** `notifyParticleDeactivated()`. */
    method NotifyParticleDeactivated()
      modifies this`activeParticleCount
      ensures activeParticleCount == Decrement(old(activeParticleCount))
    {
      if activeParticleCount < 0 {
        return;
      }
      activeParticleCount := activeParticleCount - 1;
    }

    /** `setNextIndex(index)`. */
    method SetNextIndex(index: int)
      modifies this`nextIndex
      ensures nextIndex == OfferIndex(old(nextIndex), index)
    {
      if index >= nextIndex && nextIndex != -1 {
        return;
      }
      nextIndex := index;
    }

    // ----- the influencer dispatch loops

    /** Calls hook `kind` of every influencer, in chain order, on particle `p`. */
    method RunHooks(kind: HookKind, p: ParticleData)
      modifies this`hookCalls
      ensures hookCalls == old(hookCalls) + Dispatch(kind, |influencers|, p.index)
    {
      var i := 0;
      while i < |influencers|
        invariant 0 <= i <= |influencers|
        invariant hookCalls == old(hookCalls) + Dispatch(kind, i, p.index)
      {
        hookCalls := hookCalls + [HookCall(kind, i, p.index)];
        i := i + 1;
        assert Dispatch(kind, i, p.index) == Dispatch(kind, i - 1, p.index) + [HookCall(kind, i - 1, p.index)];
      }
    }

    /** `onCreated(p)`: the influencers' `createData` hooks. */
    method OnCreated(p: ParticleData)
      modifies this`hookCalls
      ensures hookCalls == old(hookCalls) + Dispatch(OnCreate, |influencers|, p.index)
    {
      RunHooks(OnCreate, p);
    }

    /** `initializeInfluencers(p)`: the influencers' `initialize` hooks. */
    method InitializeInfluencers(p: ParticleData)
      modifies this`hookCalls
      ensures hookCalls == old(hookCalls) + Dispatch(OnInitialize, |influencers|, p.index)
    {
      RunHooks(OnInitialize, p);
    }

    /** `updateInfluencers(p, tpf)`: the influencers' `update` hooks. */
    method UpdateInfluencers(p: ParticleData, tpf: real)
      modifies this`hookCalls
      ensures hookCalls == old(hookCalls) + Dispatch(OnUpdate, |influencers|, p.index)
    {
      RunHooks(OnUpdate, p);
    }

    /** `resetInfluencers(p)`: the influencers' `reset` hooks. */
    method ResetInfluencers(p: ParticleData)
      modifies this`hookCalls
      ensures hookCalls == old(hookCalls) + Dispatch(OnReset, |influencers|, p.index)
    {
      RunHooks(OnReset, p);
    }

    // ----- timing

    /** `resetInterval()`: the interval is full. */
    method ResetInterval()
      modifies this`currentInterval
      ensures currentInterval == targetInterval
    {
      currentInterval := targetInterval;
    }

    /** `isAlive()`. */
    method IsAlive() returns (b: bool)
      ensures b == Emission.IsAlive(emitterLife, emittedTime)
      ensures b <==> emitterLife == 0.0 || emittedTime < emitterLife
    {
      b := emitterLife == 0.0 || emittedTime < emitterLife;
    }

    /** `calcParticlesPerEmission()`: the interval's share of the target, times the
        particles per emission, truncated. Between frames (the interval at most the
        target) that is at most one batch; inside a frame, where it is called with
        the interval past the target but within two targets, it is one or two
        batches. */
    method CalcParticlesPerEmission() returns (n: int)
      requires targetInterval > 0.0
      ensures n == EmissionCount(currentInterval, targetInterval, particlesPerEmission)
      ensures 0.0 < currentInterval <= targetInterval && particlesPerEmission >= 0 ==>
        0 <= n <= particlesPerEmission
      ensures targetInterval < currentInterval <= 2.0 * targetInterval && particlesPerEmission >= 0 ==>
        particlesPerEmission <= n <= 2 * particlesPerEmission
    {
      n := TruncToInt(currentInterval / targetInterval * particlesPerEmission as real);
      EmissionCountRanges(currentInterval, targetInterval, particlesPerEmission);
    }

    /** `reset()`: kills every particle, fills the interval and restarts the
        emitter's clock. */
    method Reset()
      requires Valid()
      modifies this`activeParticleCount, this`hookCalls, this`nextIndex, this`currentInterval
      modifies this`emittedTime, records`active
      ensures Valid()
      ensures forall j :: 0 <= j < particles.Length ==> !particles[j].active
      ensures activeParticleCount == DecrementTimes(old(activeParticleCount), particles.Length)
      ensures nextIndex == if particles.Length > 0 then 0 else old(nextIndex)
      ensures hookCalls ==
        Calls(old(hookCalls), OnReset, |influencers|, AllPicked(particles.Length), particles.Length)
      ensures currentInterval == targetInterval && emittedTime == 0.0
    {
      KillAllParticles();
      ResetInterval();
      emittedTime := 0.0;
    }

    // ----- configuration

    /** `setEmissionsPerSecond(eps)`: rejects fewer than 0.1 emissions per second
        before changing anything; otherwise sets the target interval to `1/eps` and
        fills the interval. */
    method SetEmissionsPerSecond(eps: real) returns (o: Outcome)
      modifies this`emissionsPerSecond, this`targetInterval, this`currentInterval
      ensures o.Pass? ==> IntervalInRange()
      ensures o.Fail? <==> eps < 0.1
      ensures o.Fail? ==> o.error == IllegalArgument
      ensures o.Fail? ==> (emissionsPerSecond == old(emissionsPerSecond) &&
        targetInterval == old(targetInterval) && currentInterval == old(currentInterval))
      ensures o.Pass? ==> (emissionsPerSecond == eps && targetInterval == 1.0 / eps &&
        currentInterval == targetInterval)
    {
      if eps < 0.1 {
        return Fail(IllegalArgument);
      }
      emissionsPerSecond := eps;
      targetInterval := 1.0 / eps;
      ResetInterval();
      o := Pass;
    }

    /** `setSpriteCount(cols, rows)` (its texture part is not modelled): rejects a
        column or row count below 1 before changing anything. */
    method SetSpriteCount(cols: int, rows: int) returns (o: Outcome)
      modifies this`spriteCols, this`spriteRows
      ensures o.Fail? <==> cols < 1 || rows < 1
      ensures o.Fail? ==> o.error == IllegalArgument
      ensures o.Fail? ==> spriteCols == old(spriteCols) && spriteRows == old(spriteRows)
      ensures o.Pass? ==> spriteCols == cols && spriteRows == rows
    {
      if cols < 1 || rows < 1 {
        return Fail(IllegalArgument);
      }
      spriteCols := cols;
      spriteRows := rows;
      o := Pass;
    }

    /** `setEnabled(b)`: enabling restarts the emitter's clock. */
    method SetEnabled(b: bool)
      modifies this`enabled, this`emittedTime
      ensures enabled == b
      ensures b ==> emittedTime == 0.0
      ensures !b ==> emittedTime == old(emittedTime)
    {
      enabled := b;
      if b {
        emittedTime := 0.0;
      }
    }

    /** `setLifeMinMax(min, max)`. */
    method SetLifeMinMax(min: real, max: real)
      modifies this`lifeMin, this`lifeMax
      ensures lifeMin == min && lifeMax == max
    {
      lifeMin := min;
      lifeMax := max;
    }

    /** `setForceMinMax(min, max)`. */
    method SetForceMinMax(min: real, max: real)
      modifies this`forceMin, this`forceMax
      ensures forceMin == min && forceMax == max
    {
      forceMin := min;
      forceMax := max;
    }

    /** `setEmitterLife(life)`; 0 means the emitter never stops. */
    method SetEmitterLife(life: real)
      modifies this`emitterLife
      ensures emitterLife == life
    {
      emitterLife := life;
    }

    /** `setEmitterDelay(delay)`; 0 means no delay. */
    method SetEmitterDelay(delay: real)
      modifies this`emitterDelay
      ensures emitterDelay == delay
    {
      emitterDelay := delay;
    }

    /** `setParticlesPerEmission(n)`. */
    method SetParticlesPerEmission(n: int)
      modifies this`particlesPerEmission
      ensures particlesPerEmission == n
    {
      particlesPerEmission := n;
    }

    /** `setStaticParticles(b)`. */
    method SetStaticParticles(b: bool)
      modifies this`staticParticles
      ensures staticParticles == b
    {
      staticParticles := b;
    }

    /** `setRandomEmissionPoint(b)`. */
    method SetRandomEmissionPoint(b: bool)
      modifies this`randomEmissionPoint
      ensures randomEmissionPoint == b
    {
      randomEmissionPoint := b;
    }

    /** `setEmissionPoint(p)`. */
    method SetEmissionPoint(p: EmissionPoint)
      modifies this`emissionPoint
      ensures emissionPoint == p
    {
      emissionPoint := p;
    }

    /** `setForcedStretchAxis(a)`. */
    method SetForcedStretchAxis(a: ForcedStretchAxis)
      modifies this`stretchAxis
      ensures stretchAxis == a
    {
      stretchAxis := a;
    }

    // ----- the pool

    /** `initParticles()`: a fresh pool of `maxParticles` records, record `i` created
        for slot `i` (running the `createData` hooks) and reset. */
    method InitParticles()
      requires Counters()
      modifies this`particles, this`records, this`activeParticleCount, this`hookCalls, this`nextIndex
      ensures Counters() && Indexed() && LifeBounded()
      ensures fresh(particles) && fresh(records) && particles.Length == maxParticles
      ensures forall j :: 0 <= j < particles.Length ==>
        fresh(particles[j]) && !particles[j].active && particles[j].motion == Idle &&
        particles[j].data == []
      ensures activeParticleCount == DecrementTimes(old(activeParticleCount), maxParticles)
      ensures nextIndex == if maxParticles > 0 then 0 else old(nextIndex)
      ensures hookCalls == CreationCalls(old(hookCalls), |influencers|, particles.Length)
    {
      var created: seq<ParticleData> := [];
      var i := 0;
      while i < maxParticles
        invariant 0 <= i <= maxParticles && |created| == i
        invariant forall j :: 0 <= j < i ==>
          fresh(created[j]) && created[j].index == j && !created[j].active &&
          created[j].motion == Idle && created[j].data == []
        invariant activeParticleCount == DecrementTimes(old(activeParticleCount), i)
        invariant activeParticleCount >= -1
        invariant nextIndex == if i > 0 then 0 else old(nextIndex)
        invariant nextIndex >= -1
        invariant hookCalls == CreationCalls(old(hookCalls), |influencers|, i)
      {
        var p := new ParticleData(this, i);
        p.Reset(this);
        created := created + [p];
        i := i + 1;
      }
      particles := new ParticleData[maxParticles](j requires 0 <= j < |created| => created[j]);
      records := set j | 0 <= j < |created| :: created[j];
      assert particles[..] == created;
    }

    /** `initialize()` reduced to the pool: when the engine set-up succeeds the pool
        is built and the emitter is initialized; when it throws, the emitter is
        disabled and stays uninitialized. An initialized emitter is left as it is. */
    method Initialize(succeeds: bool) returns (ok: bool)
      requires Valid()
      modifies this`particles, this`records, this`activeParticleCount, this`hookCalls, this`nextIndex
      modifies this`initialized, this`enabled
      ensures Valid()
      ensures old(initialized) ==> ok && unchanged(this)
      ensures !old(initialized) ==> ok == succeeds
      ensures !old(initialized) && !succeeds ==> (!enabled && !initialized &&
        particles == old(particles) && records == old(records) && hookCalls == old(hookCalls) &&
        nextIndex == old(nextIndex) && activeParticleCount == old(activeParticleCount))
      ensures !old(initialized) && succeeds ==> (initialized && enabled == old(enabled) &&
        fresh(particles) && fresh(records) && particles.Length == maxParticles &&
        (forall j :: 0 <= j < particles.Length ==>
           fresh(particles[j]) && !particles[j].active && particles[j].motion == Idle && particles[j].data == []) &&
        activeParticleCount == DecrementTimes(old(activeParticleCount), maxParticles) &&
        nextIndex == (if maxParticles > 0 then 0 else old(nextIndex)) &&
        hookCalls == CreationCalls(old(hookCalls), |influencers|, particles.Length))
    {
      if initialized {
        return true;
      }
      if !succeeds {
        enabled := false;
        return false;
      }
      InitParticles();
      initialized := true;
      ok := true;
    }

    /** `setMaxParticles(m)`: rejects a negative size before changing anything;
        otherwise records it and, once the emitter is initialized, kills every
        particle and builds a new pool of `m` records. */
    method SetMaxParticles(m: int) returns (o: Outcome)
      requires Valid()
      modifies this`maxParticles, this`particles, this`records, this`activeParticleCount, this`hookCalls
      modifies this`nextIndex, records`active
      ensures Valid()
      ensures o.Fail? <==> m < 0
      ensures o.Fail? ==> (o.error == IllegalArgument && unchanged(this) &&
        (forall j :: 0 <= j < particles.Length ==> particles[j].active == old(particles[j].active)))
      ensures o.Pass? ==> maxParticles == m
      ensures o.Pass? && !initialized ==> (particles == old(particles) &&
        activeParticleCount == old(activeParticleCount) && nextIndex == old(nextIndex) &&
        hookCalls == old(hookCalls))
      ensures o.Pass? && initialized ==> (
        (forall j :: 0 <= j < old(particles.Length) ==> !old(particles[j]).active) &&
        fresh(particles) && particles.Length == m &&
        (forall j :: 0 <= j < m ==>
           fresh(particles[j]) && !particles[j].active && particles[j].motion == Idle && particles[j].data == []) &&
        activeParticleCount == DecrementTimes(old(activeParticleCount), old(particles.Length) + m) &&
        nextIndex == (if old(particles.Length) + m > 0 then 0 else old(nextIndex)) &&
        hookCalls == CreationCalls(
          Calls(old(hookCalls), OnReset, |influencers|, AllPicked(old(particles.Length)), old(particles.Length)),
          |influencers|, particles.Length))
    {
      if m < 0 {
        return Fail(IllegalArgument);
      }
      if !initialized {
        maxParticles := m;
        return Pass;
      }
      ghost var count0 := activeParticleCount;
      ghost var n0 := particles.Length;
      maxParticles := m;
      KillAllParticles();
      DecrementTimesAdd(count0, n0, m);
      InitParticles();
      o := Pass;
    }

    /** `emitNextParticle()`: does nothing without a free-slot hint inside the
        configured pool size; otherwise spawns the particle at the hint and moves the
        hint by the wrap-around search. A hint inside the configured size but outside
        a pool that has not been built yet makes the array access throw. */
    method EmitNextParticle(s: Spawn) returns (o: Outcome)
      requires Valid()
      modifies this`emitCalls, this`nextIndex, this`activeParticleCount, this`hookCalls
      modifies records`active, records`motion
      ensures Valid() && emitCalls == old(emitCalls) + 1
      ensures o.Fail? <==> 0 <= old(nextIndex) < maxParticles && old(nextIndex) >= particles.Length
      ensures o.Fail? ==> o.error == IndexOutOfBounds
      ensures (old(nextIndex) == -1 || old(nextIndex) >= maxParticles || o.Fail?) ==>
        unchanged(this`nextIndex, this`activeParticleCount, this`hookCalls) &&
        ActiveFlags() == old(ActiveFlags()) && Motions() == old(Motions())
      ensures old(nextIndex) != -1 && old(nextIndex) < maxParticles && o.Pass? ==> (
        var k := old(nextIndex);
        0 <= k < particles.Length &&
        ActiveFlags() == old(ActiveFlags())[k := true] &&
        Motions() == old(Motions())[k := Spawned(old(particles[k].motion), SpawnSettingsOf(), s)] &&
        activeParticleCount == old(activeParticleCount) + 1 &&
        hookCalls == old(hookCalls) + Dispatch(OnInitialize, |influencers|, k) &&
        nextIndex == NextFree(ActiveFlags(), k))
    {
      emitCalls := emitCalls + 1;
      if nextIndex == -1 || nextIndex >= maxParticles {
        return Pass;
      }
      if nextIndex >= particles.Length {
        return Fail(IndexOutOfBounds);
      }
      SpawnAtHint(s);
      o := Pass;
    }

    /** The spawning part of `emitNextParticle()`, once the hint is a slot of the
        pool. */
    method SpawnAtHint(s: Spawn)
      requires Valid() && 0 <= nextIndex < particles.Length
      modifies this`nextIndex, this`activeParticleCount, this`hookCalls, records`active, records`motion
      ensures Valid()
      ensures var k := old(nextIndex);
        ActiveFlags() == old(ActiveFlags())[k := true] &&
        Motions() == old(Motions())[k := Spawned(old(particles[k].motion), SpawnSettingsOf(), s)] &&
        activeParticleCount == old(activeParticleCount) + 1 &&
        hookCalls == old(hookCalls) + Dispatch(OnInitialize, |influencers|, k) &&
        nextIndex == NextFree(ActiveFlags(), k)
    {
      InitializeAt(nextIndex, s);
      MoveHint();
    }

    /** The hint moves from the slot just spawned to the next inactive one. */
    method MoveHint()
      requires Valid() && 0 <= nextIndex < particles.Length && particles[nextIndex].active
      modifies this`nextIndex
      ensures Valid() && nextIndex == NextFree(ActiveFlags(), old(nextIndex))
    {
      var searchIndex := FindNextFree(nextIndex);
      nextIndex := searchIndex;
    }

    /** The search of `emitNextParticle()`: walks on from slot `from`, which is
        active, to the first inactive slot, wrapping around at the end of the pool,
        and gives -1 when the walk comes back to `from`. */
    method FindNextFree(from: nat) returns (searchIndex: int)
      requires Indexed() && from < particles.Length && particles[from].active
      ensures searchIndex == NextFree(ActiveFlags(), from)
    {
      var n := particles.Length;
      ghost var flags := ActiveFlags();
      searchIndex := from;
      var initIndex := from;
      var loop := 0;
      ghost var k: nat := 0;
      while particles[searchIndex].active
        invariant 0 <= k < n && searchIndex == Cyc(initIndex, k, n)
        invariant loop == if initIndex + k >= n then 1 else 0
        invariant k == 0 || FreeOffset(flags, initIndex, 1) == FreeOffset(flags, initIndex, k)
        invariant forall j :: 0 <= j < n ==> flags[j] == particles[j].active
        decreases n - k
      {
        FreeOffsetSkip(flags, initIndex, k);
        searchIndex := searchIndex + 1;
        k := k + 1;
        if searchIndex > n - 1 {
          searchIndex := 0;
          loop := loop + 1;
        }
        if searchIndex == initIndex && loop == 1 {
          searchIndex := -1;
          break;
        }
      }
    }

    /** Spawns the inactive particle of slot `i`: one `initialize(emitter)` call
        seen as a change of the whole pool. */
    method InitializeAt(i: nat, s: Spawn)
      requires Valid() && i < particles.Length
      modifies this`activeParticleCount, this`hookCalls, records`active, records`motion
      ensures Valid()
      ensures ActiveFlags() == old(ActiveFlags())[i := true]
      ensures Motions() == old(Motions())[i := Spawned(old(particles[i].motion), SpawnSettingsOf(), s)]
      ensures activeParticleCount == old(activeParticleCount) + 1
      ensures hookCalls == old(hookCalls) + Dispatch(OnInitialize, |influencers|, i)
    {
      particles[i].Initialize(this, s);
    }

    /** One step of the sweeps of `emitAllParticles` and `emitNumParticles`: slot
        `i` is spawned when `spawn` holds, `spawn` being whether the sweep picks it.
        `flags`, `m0`, `count0` and `log0` are the pool, the counter and the log
        before the sweep, `pick` the slots the sweep picks. */
    method SpawnStep(spawn: bool, i: nat, draw: int -> Spawn, ghost flags: seq<bool>, ghost m0: seq<Motion>,
                     ghost pick: seq<bool>, ghost sp: seq<Motion>, ghost log0: seq<HookCall>)
      requires Valid() && i < particles.Length
      requires |flags| == |pick| == |m0| == particles.Length && SpawnedFrom(sp, m0, SpawnSettingsOf(), draw)
      requires spawn == pick[i] && (pick[i] ==> !flags[i])
      requires ActiveFlags() == Activated(flags, pick, i) && Motions() == Replaced(m0, pick, sp, i)
      requires hookCalls == Calls(log0, OnInitialize, |influencers|, pick, i)
      modifies this`activeParticleCount, this`hookCalls, records`active, records`motion
      ensures Valid() && SpawnSettingsOf() == old(SpawnSettingsOf())
      ensures ActiveFlags() == Activated(flags, pick, i + 1) && Motions() == Replaced(m0, pick, sp, i + 1)
      ensures activeParticleCount == old(activeParticleCount) + (if spawn then 1 else 0)
      ensures hookCalls == Calls(log0, OnInitialize, |influencers|, pick, i + 1)
    {
      ActivatedStep(flags, pick, i);
      ReplacedStep(m0, pick, sp, i);
      if spawn {
        assert particles[i].motion == m0[i];
        InitializeAt(i, draw(i));
        assert sp[i] == Spawned(m0[i], SpawnSettingsOf(), draw(i));
      }
    }

    /** `emitAllParticles()`: spawns every inactive particle (slot `j` with the draws
        `draw(j)`), leaves the active ones as they are and does not move the hint. */
    method EmitAllParticles(draw: int -> Spawn)
      requires Valid()
      modifies this`activeParticleCount, this`hookCalls, records`active, records`motion
      ensures Valid()
      ensures ActiveFlags() == AllPicked(particles.Length)
      ensures Motions() == Replaced(old(Motions()), Inactive(old(ActiveFlags())),
        SpawnedAll(old(Motions()), SpawnSettingsOf(), draw), particles.Length)
      ensures activeParticleCount == old(activeParticleCount) + CountInactive(old(ActiveFlags()))
      ensures hookCalls ==
        Calls(old(hookCalls), OnInitialize, |influencers|, Inactive(old(ActiveFlags())), particles.Length)
    {
      ghost var flags := ActiveFlags();
      ghost var pick := Inactive(flags);
      ghost var m0 := Motions();
      SpawnInactive(draw, flags, m0, pick, SpawnedAll(m0, SpawnSettingsOf(), draw), InactiveCounts(flags),
                    activeParticleCount, hookCalls);
      assert Activated(flags, pick, particles.Length) == AllPicked(particles.Length);
    }

    /** The loop of `emitAllParticles()`. */
    method SpawnInactive(draw: int -> Spawn, ghost flags: seq<bool>, ghost m0: seq<Motion>, ghost pick: seq<bool>,
                         ghost sp: seq<Motion>, ghost ib: seq<int>, ghost count0: int, ghost log0: seq<HookCall>)
      requires Valid() && SpawnedFrom(sp, m0, SpawnSettingsOf(), draw)
      requires flags == ActiveFlags() && m0 == Motions() && pick == Inactive(flags) && RunningCount(ib, pick)
      requires count0 == activeParticleCount && log0 == hookCalls
      modifies this`activeParticleCount, this`hookCalls, records`active, records`motion
      ensures Valid() && SpawnSettingsOf() == old(SpawnSettingsOf())
      ensures ActiveFlags() == Activated(flags, pick, particles.Length)
      ensures Motions() == Replaced(m0, pick, sp, particles.Length)
      ensures activeParticleCount == count0 + ib[particles.Length]
      ensures hookCalls == Calls(log0, OnInitialize, |influencers|, pick, particles.Length)
    {
      var i := 0;
      while i < particles.Length
        invariant 0 <= i <= particles.Length
        invariant Valid() && SpawnSettingsOf() == old(SpawnSettingsOf())
        invariant ActiveFlags() == Activated(flags, pick, i)
        invariant Motions() == Replaced(m0, pick, sp, i)
        invariant activeParticleCount == count0 + ib[i]
        invariant hookCalls == Calls(log0, OnInitialize, |influencers|, pick, i)
      {
        SpawnStep(!particles[i].active, i, draw, flags, m0, pick, sp, log0);
        i := i + 1;
      }
    }

    /** `emitNumParticles(count)`: spawns the lowest-indexed `count` inactive
        particles (all of them when there are fewer, none for a negative count),
        leaves the others as they are and does not move the hint. */
    method EmitNumParticles(count: int, draw: int -> Spawn)
      requires Valid()
      modifies this`activeParticleCount, this`hookCalls, records`active, records`motion
      ensures Valid()
      ensures ActiveFlags() == Activated(old(ActiveFlags()), ChosenSlots(old(ActiveFlags()), count), particles.Length)
      ensures Motions() == Replaced(old(Motions()), ChosenSlots(old(ActiveFlags()), count),
        SpawnedAll(old(Motions()), SpawnSettingsOf(), draw), particles.Length)
      ensures activeParticleCount ==
        old(activeParticleCount) + Min(CountInactive(old(ActiveFlags())), Max(count, 0))
      ensures hookCalls ==
        Calls(old(hookCalls), OnInitialize, |influencers|, ChosenSlots(old(ActiveFlags()), count), particles.Length)
    {
      ghost var flags := ActiveFlags();
      ghost var m0 := Motions();
      SpawnChosen(count, draw, flags, m0, ChosenSlots(flags, count), SpawnedAll(m0, SpawnSettingsOf(), draw),
                  InactiveCounts(flags), activeParticleCount, hookCalls);
    }

    /** The loop of `emitNumParticles(count)`; `ib` counts the inactive slots
        before each slot. */
    method SpawnChosen(count: int, draw: int -> Spawn, ghost flags: seq<bool>, ghost m0: seq<Motion>,
                       ghost pick: seq<bool>, ghost sp: seq<Motion>, ghost ib: seq<int>, ghost count0: int,
                       ghost log0: seq<HookCall>)
      requires Valid() && SpawnedFrom(sp, m0, SpawnSettingsOf(), draw)
      requires flags == ActiveFlags() && m0 == Motions() && |pick| == |flags|
      requires RunningCount(ib, Inactive(flags)) && forall j :: 0 <= j < |ib| ==> ib[j] >= 0
      requires forall j :: 0 <= j < |flags| ==> pick[j] == (!flags[j] && ib[j] < count)
      requires count0 == activeParticleCount && log0 == hookCalls
      modifies this`activeParticleCount, this`hookCalls, records`active, records`motion
      ensures Valid() && SpawnSettingsOf() == old(SpawnSettingsOf())
      ensures ActiveFlags() == Activated(flags, pick, particles.Length)
      ensures Motions() == Replaced(m0, pick, sp, particles.Length)
      ensures activeParticleCount == count0 + Min(ib[particles.Length], Max(count, 0))
      ensures hookCalls == Calls(log0, OnInitialize, |influencers|, pick, particles.Length)
    {
      var counter := 0;
      var i := 0;
      while i < particles.Length
        invariant 0 <= i <= particles.Length
        invariant Valid() && SpawnSettingsOf() == old(SpawnSettingsOf())
        invariant counter == Min(ib[i], Max(count, 0))
        invariant ActiveFlags() == Activated(flags, pick, i)
        invariant Motions() == Replaced(m0, pick, sp, i)
        invariant activeParticleCount == count0 + counter
        invariant hookCalls == Calls(log0, OnInitialize, |influencers|, pick, i)
      {
        counter := ChosenStep(i, count, counter, draw, flags, m0, pick, sp, ib, log0);
        if counter > count {
          UnpickedRest(flags, m0, pick, sp, i + 1);
          CallsUnpickedTail(log0, OnInitialize, |influencers|, pick, i + 1, particles.Length);
          i := i + 1;
          break;
        }
        i := i + 1;
      }
    }

    /** One slot of the `emitNumParticles` sweep: slot `i` is spawned when it is
        inactive and fewer than `count` have been spawned, and the counter follows. */
    method ChosenStep(i: nat, count: int, counter: int, draw: int -> Spawn, ghost flags: seq<bool>,
                      ghost m0: seq<Motion>, ghost pick: seq<bool>, ghost sp: seq<Motion>, ghost ib: seq<int>,
                      ghost log0: seq<HookCall>) returns (next: int)
      requires Valid() && SpawnedFrom(sp, m0, SpawnSettingsOf(), draw) && i < particles.Length
      requires |flags| == |m0| == |pick| == particles.Length
      requires RunningCount(ib, Inactive(flags)) && forall j :: 0 <= j < |ib| ==> ib[j] >= 0
      requires forall j :: 0 <= j < |flags| ==> pick[j] == (!flags[j] && ib[j] < count)
      requires counter == Min(ib[i], Max(count, 0))
      requires ActiveFlags() == Activated(flags, pick, i) && Motions() == Replaced(m0, pick, sp, i)
      requires hookCalls == Calls(log0, OnInitialize, |influencers|, pick, i)
      modifies this`activeParticleCount, this`hookCalls, records`active, records`motion
      ensures Valid() && SpawnSettingsOf() == old(SpawnSettingsOf())
      ensures next == Min(ib[i + 1], Max(count, 0))
      ensures ActiveFlags() == Activated(flags, pick, i + 1) && Motions() == Replaced(m0, pick, sp, i + 1)
      ensures activeParticleCount == old(activeParticleCount) + next - counter
      ensures hookCalls == Calls(log0, OnInitialize, |influencers|, pick, i + 1)
    {
      var spawn := !particles[i].active && counter < count;
      SpawnStep(spawn, i, draw, flags, m0, pick, sp, log0);
      next := if spawn then counter + 1 else counter;
    }

    /** `killAllParticles()`: resets every particle, active or not, in pool order. */
    method KillAllParticles()
      requires Counters() && Indexed()
      modifies this`activeParticleCount, this`hookCalls, this`nextIndex, records`active
      ensures Counters()
      ensures forall j :: 0 <= j < particles.Length ==> !particles[j].active
      ensures activeParticleCount == DecrementTimes(old(activeParticleCount), particles.Length)
      ensures nextIndex == if particles.Length > 0 then 0 else old(nextIndex)
      ensures hookCalls ==
        Calls(old(hookCalls), OnReset, |influencers|, AllPicked(particles.Length), particles.Length)
    {
      ghost var pick := AllPicked(particles.Length);
      var i := 0;
      while i < particles.Length
        invariant 0 <= i <= particles.Length
        invariant forall j :: 0 <= j < i ==> !particles[j].active
        invariant activeParticleCount == DecrementTimes(old(activeParticleCount), i) >= -1
        invariant nextIndex == if i > 0 then 0 else old(nextIndex)
        invariant hookCalls == Calls(old(hookCalls), OnReset, |influencers|, pick, i)
      {
        particles[i].Reset(this);
        i := i + 1;
      }
    }

    /** `killParticle(index)`: resets particle `index`; the array access throws for
        an index outside the pool, and then nothing changes. */
    method KillParticleAt(index: int) returns (o: Outcome)
      requires Valid()
      modifies this`activeParticleCount, this`hookCalls, this`nextIndex, records`active
      ensures Valid()
      ensures o.Fail? <==> !(0 <= index < particles.Length)
      ensures o.Fail? ==> (o.error == IndexOutOfBounds && unchanged(this) &&
        forall j :: 0 <= j < particles.Length ==> particles[j].active == old(particles[j].active))
      ensures o.Pass? ==> (
        !particles[index].active &&
        (forall j :: 0 <= j < particles.Length && j != index ==> particles[j].active == old(particles[j].active)) &&
        activeParticleCount == Decrement(old(activeParticleCount)) &&
        hookCalls == old(hookCalls) + Dispatch(OnReset, |influencers|, index) &&
        nextIndex == OfferIndex(old(nextIndex), index))
    {
      if !(0 <= index < particles.Length) {
        return Fail(IndexOutOfBounds);
      }
      particles[index].Reset(this);
      o := Pass;
    }

    /** `killParticle(p)`: resets `p` when it is one of the pool's records, and
        otherwise does nothing. */
    method KillParticle(toKill: ParticleData)
      requires Valid()
      modifies this`activeParticleCount, this`hookCalls, this`nextIndex, records`active
      ensures Valid()
      ensures toKill !in old(particles[..]) ==> (
        unchanged(this) && forall j :: 0 <= j < particles.Length ==> particles[j].active == old(particles[j].active))
      ensures toKill in old(particles[..]) ==> (
        !toKill.active &&
        (forall j :: 0 <= j < particles.Length && particles[j] != toKill ==> particles[j].active == old(particles[j].active)) &&
        activeParticleCount == Decrement(old(activeParticleCount)) &&
        hookCalls == old(hookCalls) + Dispatch(OnReset, |influencers|, toKill.index) &&
        nextIndex == OfferIndex(old(nextIndex), toKill.index))
    {
      ghost var ps := particles[..];
      var i := 0;
      while i < particles.Length
        invariant 0 <= i <= particles.Length && Counters()
        invariant toKill !in ps[..i] ==> (
          unchanged(this) && forall j :: 0 <= j < particles.Length ==> particles[j].active == old(particles[j].active))
        invariant toKill in ps[..i] ==> (
          toKill.index < i && !toKill.active &&
          (forall j :: 0 <= j < particles.Length && particles[j] != toKill ==> particles[j].active == old(particles[j].active)) &&
          activeParticleCount == Decrement(old(activeParticleCount)) &&
          hookCalls == old(hookCalls) + Dispatch(OnReset, |influencers|, toKill.index) &&
          nextIndex == OfferIndex(old(nextIndex), toKill.index))
      {
        assert ps[..i + 1] == ps[..i] + [ps[i]];
        if particles[i] == toKill {
          toKill.Reset(this);
        }
        i := i + 1;
      }
      assert ps[..i] == ps;
    }

    // ----- the influencer chain and the data slots

    /** `initializeInfluencerData(influencer, index)`: for an influencer that keeps
        data objects, every particle initializes slot `index` with the object the
        influencer creates for it; otherwise nothing happens. */
    method InitializeInfluencerData(inf: Influencer, index: nat)
      requires Indexed()
      modifies records`data
      ensures forall j :: 0 <= j < particles.Length ==>
        particles[j].data == (if inf.usedDataObject
                              then InitializeData(old(particles[j].data), index, particleDataSize, DataObject(inf.id, j)).0
                              else old(particles[j].data))
    {
      if !inf.usedDataObject {
        return;
      }
      var i := 0;
      while i < particles.Length
        invariant 0 <= i <= particles.Length
        invariant forall j :: 0 <= j < i ==>
          particles[j].data == InitializeData(old(particles[j].data), index, particleDataSize, DataObject(inf.id, j)).0
        invariant forall j :: i <= j < particles.Length ==> particles[j].data == old(particles[j].data)
      {
        var _ := particles[i].InitializeData(index, particleDataSize, DataObject(inf.id, particles[i].index));
        i := i + 1;
      }
    }

    /** `initializeInfluencer(influencer, index)`: the influencer's `initialize` hook,
        called with position `index` on every particle of the pool. */
    method InitializeInfluencer(inf: Influencer, index: nat)
      requires Indexed()
      modifies this`hookCalls
      ensures hookCalls == old(hookCalls) + PoolSweep(OnInitialize, index, particles.Length)
    {
      var i := 0;
      while i < particles.Length
        invariant 0 <= i <= particles.Length
        invariant hookCalls == old(hookCalls) + PoolSweep(OnInitialize, index, i)
      {
        hookCalls := hookCalls + [HookCall(OnInitialize, index, particles[i].index)];
        i := i + 1;
        assert PoolSweep(OnInitialize, index, i) ==
          PoolSweep(OnInitialize, index, i - 1) + [HookCall(OnInitialize, index, i - 1)];
      }
    }

    /** `storeInfluencerData(influencer, index)`: for an influencer that keeps data
        objects, its `storeUsedData` hook on every particle; otherwise nothing. */
    method StoreInfluencerData(inf: Influencer, index: nat)
      requires Indexed()
      modifies this`hookCalls
      ensures hookCalls == old(hookCalls) + (if inf.usedDataObject then PoolSweep(OnStore, index, particles.Length) else [])
    {
      if !inf.usedDataObject {
        return;
      }
      var i := 0;
      while i < particles.Length
        invariant 0 <= i <= particles.Length
        invariant hookCalls == old(hookCalls) + PoolSweep(OnStore, index, i)
      {
        hookCalls := hookCalls + [HookCall(OnStore, index, particles[i].index)];
        i := i + 1;
        assert PoolSweep(OnStore, index, i) ==
          PoolSweep(OnStore, index, i - 1) + [HookCall(OnStore, index, i - 1)];
      }
    }

    /** `moveInfluencerData(prev, next)`: every particle moves its slot `prev` to slot
        `next`. */
    method MoveInfluencerData(prev: nat, next: nat)
      requires Indexed()
      modifies records`data
      ensures forall j :: 0 <= j < particles.Length ==>
        particles[j].data == SlotStore.MoveData(old(particles[j].data), prev, next, particleDataSize)
    {
      var i := 0;
      while i < particles.Length
        invariant 0 <= i <= particles.Length
        invariant forall j :: 0 <= j < i ==>
          particles[j].data == SlotStore.MoveData(old(particles[j].data), prev, next, particleDataSize)
        invariant forall j :: i <= j < particles.Length ==> particles[j].data == old(particles[j].data)
      {
        particles[i].MoveData(prev, next, particleDataSize);
        i := i + 1;
      }
    }

    /** `addInfluencer(influencer)`: appends it to the chain, then initializes its
        data slot (the last position) in every particle and runs its `initialize`
        hook on every particle. */
    method AddInfluencer(inf: Influencer)
      requires Valid()
      modifies this`influencers, this`hookCalls, records`data
      ensures Valid()
      ensures influencers == old(influencers) + [inf]
      ensures forall j :: 0 <= j < particles.Length ==>
        particles[j].data == (if inf.usedDataObject
                              then InitializeData(old(particles[j].data), |old(influencers)|, particleDataSize, DataObject(inf.id, j)).0
                              else old(particles[j].data))
      ensures hookCalls == old(hookCalls) + PoolSweep(OnInitialize, |old(influencers)|, particles.Length)
    {
      influencers := influencers + [inf];
      InitializeInfluencerData(inf, |influencers| - 1);
      InitializeInfluencer(inf, |influencers| - 1);
    }

    /** `addInfluencer(influencer, index)`: inserts it at position `index` of the
        chain. Every particle first shifts its slots `index..` up by one, from the
        top down, then the new influencer's slot and `initialize` hooks are set up at
        `index`. An index past the end of the chain makes the list access throw
        before anything changes. */
    method AddInfluencerAt(inf: Influencer, index: nat) returns (o: Outcome)
      requires Valid()
      modifies this`influencers, this`hookCalls, records`data
      ensures Valid()
      ensures o.Fail? <==> index > |old(influencers)|
      ensures o.Fail? ==> (o.error == IndexOutOfBounds && influencers == old(influencers) &&
        hookCalls == old(hookCalls) &&
        forall j :: 0 <= j < particles.Length ==> particles[j].data == old(particles[j].data))
      ensures o.Pass? ==> influencers == old(influencers)[..index] + [inf] + old(influencers)[index..]
      ensures o.Pass? ==> forall j :: 0 <= j < particles.Length ==>
        var shifted := ShiftUp(old(particles[j].data), index, |old(influencers)|, particleDataSize);
        particles[j].data == (if inf.usedDataObject
                              then InitializeData(shifted, index, particleDataSize, DataObject(inf.id, j)).0
                              else shifted)
      ensures o.Pass? ==> hookCalls == old(hookCalls) + PoolSweep(OnInitialize, index, particles.Length)
    {
      if index > |influencers| {
        return Fail(IndexOutOfBounds);
      }
      var temp := influencers[..index] + [inf];
      ShiftInfluencerData(index, |influencers|);
      InitializeInfluencerData(inf, |temp| - 1);
      InitializeInfluencer(inf, |temp| - 1);
      influencers := temp + influencers[index..];
      o := Pass;
    }

    /** `removeInfluencer(index)`: a negative index is ignored; an index past the end
        of the chain makes the list access throw before anything changes. Otherwise
        the influencer stores its data (its `storeUsedData` hooks), every particle
        slides its slots above `index` down by one, from the bottom up, and the
        influencer leaves the chain. */
    method RemoveInfluencer(index: int) returns (o: Outcome)
      requires Valid()
      modifies this`influencers, this`hookCalls, records`data
      ensures Valid()
      ensures o.Fail? <==> index >= |old(influencers)|
      ensures o.Fail? ==> o.error == IndexOutOfBounds
      ensures (index < 0 || o.Fail?) ==> (influencers == old(influencers) &&
        hookCalls == old(hookCalls) &&
        forall j :: 0 <= j < particles.Length ==> particles[j].data == old(particles[j].data))
      ensures 0 <= index && o.Pass? ==> (
        influencers == old(influencers)[..index] + old(influencers)[index + 1..] &&
        hookCalls == old(hookCalls) +
          (if old(influencers)[index].usedDataObject then PoolSweep(OnStore, index, particles.Length) else []) &&
        forall j :: 0 <= j < particles.Length ==>
          particles[j].data == SlideDown(old(particles[j].data), index, |old(influencers)|, particleDataSize))
    {
      if index < 0 {
        return Pass;
      }
      if index >= |influencers| {
        return Fail(IndexOutOfBounds);
      }
      StoreInfluencerData(influencers[index], index);
      SlideInfluencerData(index, |influencers|);
      influencers := influencers[..index] + influencers[index + 1..];
      o := Pass;
    }

    /** The move loop of `addInfluencer(influencer, index)`: from the top down,
        every position from `size - 1` to `index` gives its data to the one above. */
    method ShiftInfluencerData(index: nat, size: nat)
      requires Indexed() && index <= size
      modifies records`data
      ensures forall j :: 0 <= j < particles.Length ==>
        particles[j].data == ShiftUp(old(particles[j].data), index, size, particleDataSize)
    {
      var k := size;
      while k > index
        invariant index <= k <= size
        invariant forall j :: 0 <= j < particles.Length ==>
          particles[j].data == ShiftUp(old(particles[j].data), k, size, particleDataSize)
      {
        MoveInfluencerData(k - 1, k);
        k := k - 1;
      }
    }

    /** The move loop of `removeInfluencer(index)`: every position from `index` to
        `size - 1` takes the data of the one above it. */
    method SlideInfluencerData(index: nat, size: nat)
      requires Indexed() && index <= size
      modifies records`data
      ensures forall j :: 0 <= j < particles.Length ==>
        particles[j].data == SlideDown(old(particles[j].data), index, size, particleDataSize)
    {
      var i := index;
      while i < size
        invariant index <= i <= size
        invariant forall j :: 0 <= j < particles.Length ==>
          particles[j].data == SlideDown(old(particles[j].data), index, i, particleDataSize)
      {
        MoveInfluencerData(i + 1, i);
        i := i + 1;
      }
    }

    /** `removeAllInfluencers()`: empties the chain; the particles' data slots are
        left as they are. */
    method RemoveAllInfluencers()
      modifies this`influencers
      ensures influencers == []
    {
      influencers := [];
    }

    // ----- the frame

    /** `updateLogicalState(tpf)`: nothing while disabled; an emitter that is not yet
        initialized is initialized first (and stays idle, disabled, if that fails).
        Then the clock advances, every active particle is updated, the frame time
        (at most one target interval) is added to the interval, and when the
        interval exceeds the target, `calcParticlesPerEmission()` particles are
        emitted if the delay has passed and the emitter is alive, and one target
        interval is taken off. Emission at hint `j` draws `draw(j)`. */
    method UpdateLogicalState(tpf: real, initSucceeds: bool, ease: (Interpolation, real) -> real,
                              translationAt: int -> Vec3, draw: int -> Spawn)
      requires Valid() && IntervalInRange() && tpf >= 0.0
      modifies this`particles, this`records, this`initialized, this`enabled, this`emittedTime
      modifies this`currentInterval, this`emitCalls, this`nextIndex, this`activeParticleCount, this`hookCalls
      modifies records`active, records`motion
      ensures Valid() && IntervalInRange()
      ensures !old(enabled) ==> (unchanged(this) &&
        forall j :: 0 <= j < particles.Length ==> unchanged(particles[j]))
      ensures old(enabled) && !old(initialized) && !initSucceeds ==> (
        !enabled && !initialized && emitCalls == old(emitCalls) &&
        particles == old(particles) && hookCalls == old(hookCalls) &&
        emittedTime == old(emittedTime) && currentInterval == old(currentInterval))
      ensures old(enabled) && (old(initialized) || initSucceeds) ==> (
        initialized && enabled &&
        targetInterval == old(targetInterval) &&
        emittedTime == old(emittedTime) + tpf &&
        currentInterval == FrameInterval(old(currentInterval), targetInterval, tpf) &&
        emitCalls == old(emitCalls) + FrameAttempts(old(currentInterval), targetInterval, tpf,
                                                     particlesPerEmission, emitterDelay, emitterLife, emittedTime))
    {
      if !enabled {
        return;
      }
      var ok := PrepareFrame(initSucceeds);
      if !ok {
        return;
      }
      assert records == old(records) || fresh(records);
      RunFrame(tpf, ease, translationAt, draw);
    }

    /** `Initialize` as the frame sees it: the frame runs exactly when the emitter
        was initialized or its set-up succeeds, and a failed set-up leaves it
        disabled. */
    method PrepareFrame(succeeds: bool) returns (ok: bool)
      requires Valid() && IntervalInRange()
      modifies this`particles, this`records, this`activeParticleCount, this`hookCalls, this`nextIndex
      modifies this`initialized, this`enabled
      ensures Valid() && IntervalInRange()
      ensures records == old(records) || fresh(records)
      ensures ok == (old(initialized) || succeeds)
      ensures ok ==> initialized && enabled == old(enabled)
      ensures !ok ==> !enabled && !initialized && particles == old(particles) && hookCalls == old(hookCalls)
    {
      ok := Initialize(succeeds);
    }

    /** The frame of an enabled, initialized emitter in `updateLogicalState(tpf)`: the
        clock advances, every active particle is updated, and the emission part
        follows. */
    method RunFrame(tpf: real, ease: (Interpolation, real) -> real, translationAt: int -> Vec3,
                    draw: int -> Spawn)
      requires Valid() && initialized && IntervalInRange() && tpf >= 0.0
      modifies this`emittedTime, this`currentInterval, this`emitCalls, this`nextIndex, this`activeParticleCount
      modifies this`hookCalls, records`active, records`motion
      ensures Valid() && IntervalInRange()
      ensures emittedTime == old(emittedTime) + tpf
      ensures currentInterval == FrameInterval(old(currentInterval), targetInterval, tpf)
      ensures old(UpdateCalls(hookCalls, |influencers|, ActiveFlags(), Motions(), FrameSettingsOf(), tpf,
                              particles.Length)) <= hookCalls
      ensures emitCalls == old(emitCalls) + FrameAttempts(old(currentInterval), targetInterval, tpf, particlesPerEmission,
                                        emitterDelay, emitterLife, emittedTime)
    {
      emittedTime := emittedTime + tpf;
      AdvanceParticles(tpf, ease, translationAt);
      EmitFrame(tpf, draw);
    }

    /** `UpdateActiveParticles` as the emission step after it sees it: the pool stays
        valid and the hook log gains the particle loop's calls. */
    method AdvanceParticles(tpf: real, ease: (Interpolation, real) -> real, translationAt: int -> Vec3)
      requires Valid() && tpf >= 0.0
      modifies this`activeParticleCount, this`hookCalls, this`nextIndex, records`active, records`motion
      ensures Valid()
      ensures hookCalls ==
        old(UpdateCalls(hookCalls, |influencers|, ActiveFlags(), Motions(), FrameSettingsOf(), tpf, particles.Length))
    {
      ghost var _ := UpdateActiveParticles(tpf, ease, translationAt);
    }

    /** The emission part of `updateLogicalState(tpf)`: the frame time, at most one
        target interval, is added to the interval; when the interval then exceeds the
        target, `calcParticlesPerEmission()` particles are emitted if the delay has
        passed and the emitter is alive, and one target interval is taken off. */
    method EmitFrame(tpf: real, draw: int -> Spawn)
      requires Valid() && initialized && IntervalInRange() && tpf >= 0.0
      modifies this`currentInterval, this`emitCalls, this`nextIndex, this`activeParticleCount, this`hookCalls
      modifies records`active, records`motion
      ensures Valid() && IntervalInRange() && old(hookCalls) <= hookCalls
      ensures currentInterval == FrameInterval(old(currentInterval), targetInterval, tpf)
      ensures emitCalls == old(emitCalls) + FrameAttempts(old(currentInterval), targetInterval, tpf, particlesPerEmission,
                                        emitterDelay, emitterLife, emittedTime)
    {
      ghost var start := currentInterval;
      currentInterval := currentInterval + (if tpf <= targetInterval then tpf else targetInterval);
      if currentInterval <= targetInterval {
        return;
      }
      var delayIsReady := emitterDelay == 0.0 || emittedTime >= emitterDelay;
      var emitterIsAlive := IsAlive();
      if delayIsReady && emitterIsAlive {
        var count := CalcParticlesPerEmission();
        EmitBatch(count, draw);
      }
      currentInterval := currentInterval - targetInterval;
      FrameKeepsBounds(start, targetInterval, tpf);
    }

    /** The emission loop of `updateLogicalState`: `count` calls of
        `emitNextParticle()`, none for a negative count; the call at hint `j` draws
        `draw(j)`. The pool of an initialized emitter has the configured size, so
        no call fails. */
    method EmitBatch(count: int, draw: int -> Spawn)
      requires Valid() && initialized
      modifies this`emitCalls, this`nextIndex, this`activeParticleCount, this`hookCalls
      modifies records`active, records`motion
      ensures Valid() && emitCalls == old(emitCalls) + Max(count, 0) && old(hookCalls) <= hookCalls
    {
      var i := 0;
      while i < count
        invariant Valid() && 0 <= i <= Max(count, 0) && emitCalls == old(emitCalls) + i
        invariant old(hookCalls) <= hookCalls
      {
        var o := EmitNextParticle(draw(nextIndex));
        assert o.Pass?;
        i := i + 1;
      }
    }

    /** The pool once the particle loop has passed the first `i` slots, from activity
        flags `flags`, motion fields `m0`, counter `count0`, hint `hint0` and hook log
        `log0`; `up` holds the fields of each slot after one `update`. */
    ghost predicate UpdatedThrough(i: nat, tpf: real, flags: seq<bool>, m0: seq<Motion>, up: seq<Motion>,
                                   count0: int, hint0: int, log0: seq<HookCall>)
      requires Indexed() && i <= particles.Length && |flags| == |m0| == |up| == particles.Length
      reads this`particles, this`records, particles, records`active, records`motion
      reads this`activeParticleCount, this`nextIndex, this`hookCalls, this`influencers
      reads this`staticParticles, this`randomEmissionPoint, this`interpolation
    {
      var cfg := FrameSettingsOf();
      ActiveFlags() == Survived(flags, m0, cfg, tpf, i) && Motions() == Replaced(m0, flags, up, i) &&
      activeParticleCount == CountAfterUpdates(count0, flags, m0, cfg, tpf, i) &&
      nextIndex == HintAfterUpdates(hint0, flags, m0, cfg, tpf, i) &&
      hookCalls == UpdateCalls(log0, |influencers|, flags, m0, cfg, tpf, i)
    }

    /** The particle loop of `updateLogicalState`: `update` on every particle that is
        active when the loop reaches it. */
    method UpdateActiveParticles(tpf: real, ease: (Interpolation, real) -> real, translationAt: int -> Vec3)
      returns (ghost up: seq<Motion>)
      requires Valid() && tpf >= 0.0
      modifies this`activeParticleCount, this`hookCalls, this`nextIndex, records`active, records`motion
      ensures Valid()
      ensures UpdatedFrom(up, old(Motions()), FrameSettingsOf(), tpf, ease, translationAt)
      ensures ActiveFlags() == Survived(old(ActiveFlags()), old(Motions()), FrameSettingsOf(), tpf, particles.Length)
      ensures Motions() == Replaced(old(Motions()), old(ActiveFlags()), up, particles.Length)
      ensures activeParticleCount ==
        CountAfterUpdates(old(activeParticleCount), old(ActiveFlags()), old(Motions()), FrameSettingsOf(), tpf, particles.Length)
      ensures nextIndex ==
        HintAfterUpdates(old(nextIndex), old(ActiveFlags()), old(Motions()), FrameSettingsOf(), tpf, particles.Length)
      ensures hookCalls ==
        UpdateCalls(old(hookCalls), |influencers|, old(ActiveFlags()), old(Motions()), FrameSettingsOf(), tpf, particles.Length)
    {
      ghost var flags := ActiveFlags();
      ghost var m0 := Motions();
      ghost var count0, hint0, log0 := activeParticleCount, nextIndex, hookCalls;
      up := UpdatedAll(m0, FrameSettingsOf(), tpf, ease, translationAt);
      UpdateLoop(tpf, ease, translationAt, flags, m0, up, count0, hint0, log0);
    }

    /** The loop itself, with the pool before it given as `flags`, `m0`, `count0`,
        `hint0` and `log0`. */
    method UpdateLoop(tpf: real, ease: (Interpolation, real) -> real, translationAt: int -> Vec3,
                      ghost flags: seq<bool>, ghost m0: seq<Motion>, ghost up: seq<Motion>,
                      ghost count0: int, ghost hint0: int, ghost log0: seq<HookCall>)
      requires Valid() && tpf >= 0.0
      requires |flags| == |m0| == particles.Length && UpdatedFrom(up, m0, FrameSettingsOf(), tpf, ease, translationAt)
      requires UpdatedThrough(0, tpf, flags, m0, up, count0, hint0, log0)
      modifies this`activeParticleCount, this`hookCalls, this`nextIndex, records`active, records`motion
      ensures Valid()
      ensures UpdatedThrough(particles.Length, tpf, flags, m0, up, count0, hint0, log0)
    {
      var i := 0;
      while i < particles.Length
        invariant 0 <= i <= particles.Length
        invariant Valid() && FrameSettingsOf() == old(FrameSettingsOf())
        invariant UpdatedThrough(i, tpf, flags, m0, up, count0, hint0, log0)
      {
        UpdateStep(i, tpf, ease, translationAt, flags, m0, up, count0, hint0, log0);
        i := i + 1;
      }
    }

    /** One step of the particle loop of `updateLogicalState`: slot `i` is updated
        when it is active. `flags` and `m0` are the pool before the loop, `up` its
        motion fields after one `update`. */
    method UpdateStep(i: nat, tpf: real, ease: (Interpolation, real) -> real, translationAt: int -> Vec3,
                      ghost flags: seq<bool>, ghost m0: seq<Motion>, ghost up: seq<Motion>,
                      ghost count0: int, ghost hint0: int, ghost log0: seq<HookCall>)
      requires Valid() && i < particles.Length && tpf >= 0.0
      requires |flags| == |m0| == particles.Length && UpdatedFrom(up, m0, FrameSettingsOf(), tpf, ease, translationAt)
      requires UpdatedThrough(i, tpf, flags, m0, up, count0, hint0, log0)
      modifies this`activeParticleCount, this`hookCalls, this`nextIndex, records`active, records`motion
      ensures Valid() && FrameSettingsOf() == old(FrameSettingsOf()) && influencers == old(influencers)
      ensures UpdatedThrough(i + 1, tpf, flags, m0, up, count0, hint0, log0)
    {
      SurvivedStep(flags, m0, FrameSettingsOf(), tpf, i);
      ReplacedStep(m0, flags, up, i);
      var active := particles[i].IsActive();
      if active {
        UpdateActiveStep(i, tpf, ease, translationAt, flags, m0, up, count0, hint0, log0);
      }
    }

    /** `UpdateStep` at an active slot. */
    method UpdateActiveStep(i: nat, tpf: real, ease: (Interpolation, real) -> real, translationAt: int -> Vec3,
                            ghost flags: seq<bool>, ghost m0: seq<Motion>, ghost up: seq<Motion>,
                            ghost count0: int, ghost hint0: int, ghost log0: seq<HookCall>)
      requires Valid() && i < particles.Length && tpf >= 0.0 && particles[i].active
      requires |flags| == |m0| == particles.Length && UpdatedFrom(up, m0, FrameSettingsOf(), tpf, ease, translationAt)
      requires UpdatedThrough(i, tpf, flags, m0, up, count0, hint0, log0)
      requires Survived(flags, m0, FrameSettingsOf(), tpf, i)[i] == flags[i]
      requires Replaced(m0, flags, up, i)[i] == m0[i]
      modifies this`activeParticleCount, this`hookCalls, this`nextIndex, records`active, records`motion
      ensures Valid() && FrameSettingsOf() == old(FrameSettingsOf()) && influencers == old(influencers)
      ensures ActiveFlags() == old(ActiveFlags())[i := flags[i] && !Expires(m0[i], FrameSettingsOf(), tpf)]
      ensures Motions() == old(Motions())[i := up[i]]
      ensures activeParticleCount == CountAfterUpdates(count0, flags, m0, FrameSettingsOf(), tpf, i + 1)
      ensures nextIndex == HintAfterUpdates(hint0, flags, m0, FrameSettingsOf(), tpf, i + 1)
      ensures hookCalls == UpdateCalls(log0, |influencers|, flags, m0, FrameSettingsOf(), tpf, i + 1)
    {
      assert particles[i].motion == m0[i];
      UpdateAt(i, tpf, ease, translationAt);
      assert up[i] == Updated(m0[i], FrameSettingsOf(), tpf, ease, translationAt);
    }

    /** Updates the particle of slot `i`: one `update(emitter, tpf)` call seen as a
        change of the whole pool. */
    method UpdateAt(i: nat, tpf: real, ease: (Interpolation, real) -> real, translationAt: int -> Vec3)
      requires Valid() && i < particles.Length && tpf >= 0.0
      modifies this`activeParticleCount, this`hookCalls, this`nextIndex, records`active, records`motion
      ensures Valid()
      ensures ActiveFlags() ==
        old(ActiveFlags())[i := old(particles[i].active) && !Expires(old(particles[i].motion), FrameSettingsOf(), tpf)]
      ensures Motions() ==
        old(Motions())[i := Updated(old(particles[i].motion), FrameSettingsOf(), tpf, ease, translationAt)]
      ensures Expires(old(particles[i].motion), FrameSettingsOf(), tpf) ==> (
        activeParticleCount == Decrement(old(activeParticleCount)) &&
        nextIndex == OfferIndex(old(nextIndex), i) &&
        hookCalls == old(hookCalls) + Dispatch(OnReset, |influencers|, i))
      ensures !Expires(old(particles[i].motion), FrameSettingsOf(), tpf) ==> (
        activeParticleCount == old(activeParticleCount) && nextIndex == old(nextIndex) &&
        hookCalls == old(hookCalls) + Dispatch(OnUpdate, |influencers|, i))
    {
      UpdatedFacts(particles[i].motion, FrameSettingsOf(), tpf, ease, translationAt);
      particles[i].Update(this, tpf, ease, translationAt);
    }
  }

  /** The emission count is at most one batch for an interval in (0, target] and one
      or two batches for an interval in (target, 2 target]. */
  lemma EmissionCountRanges(current: real, target: real, perEmission: int)
    requires target > 0.0
    ensures 0.0 < current <= target && perEmission >= 0 ==>
      0 <= EmissionCount(current, target, perEmission) <= perEmission
    ensures target < current <= 2.0 * target && perEmission >= 0 ==>
      perEmission <= EmissionCount(current, target, perEmission) <= 2 * perEmission
  {
    if perEmission >= 0 {
      if 0.0 < current <= target {
        CountWithinOneBatch(current, target, perEmission);
      } else if target < current <= 2.0 * target {
        EmissionCountBounds(current, target, perEmission);
      }
    }
  }

  /** The emission count for an interval in (0, target] is at most one batch. */
  lemma CountWithinOneBatch(current: real, target: real, perEmission: int)
    requires 0.0 < current <= target && perEmission >= 0
    ensures 0 <= EmissionCount(current, target, perEmission) <= perEmission
  {
    var x := current / target;
    assert x * target == current;
    ProductNonNegative(x, perEmission as real);
    ProductNonNegative(1.0 - x, perEmission as real);
    var y := x * perEmission as real;
    assert 0.0 <= y <= perEmission as real;
    var r := TruncToInt(y);
    assert r as real <= y < r as real + 1.0;
  }

  /** The active counter is off by one right after a pool is built: the `reset` of
      each new record counts a deactivation, one of which the counter's floor at -1
      absorbs, so a fresh pool of `m > 0` idle records reports -1 active particles. */
  lemma FreshPoolCountsMinusOne(m: nat)
    requires m > 0
    ensures DecrementTimes(0, m) == -1
  {
    DecrementTimesFloor(0, m);
  }
}
