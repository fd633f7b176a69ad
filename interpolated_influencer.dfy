/** The keyframe step list shared by interpolated influencers
    (`AbstractInterpolatedParticleInfluencer`): an ordered list of easing-curve
    references, one per keyframe step, and the `cycle`/`fixedDuration` pair that
    decides how long a step lasts. */
module InterpolatedInfluencer {
  import opened Common

  /** The saved form of a step list: the curve ids, and the two fields. A field is
      `None` when it is absent from the capsule; a jME capsule leaves out a field whose
      value equals the default it is written with. */
  datatype SavedSteps = SavedSteps(
    interpolationIds: Option<seq<int>>,
    cycle: Option<bool>,
    fixedDuration: Option<real>)

  const DefaultCycle := false
  const DefaultFixedDuration := 0.125

  /** The ids of a list of curves, in list order (`InterpolationManager.getId` per entry). */
  function IdsOf(cs: seq<Interpolation>): (ids: seq<int>)
    ensures |ids| == |cs|
  {
    if |cs| == 0 then [] else IdsOf(cs[..|cs| - 1]) + [cs[|cs| - 1].id]
  }

  /** The curves registered under a list of ids (`InterpolationManager.getInterpolation`). */
  function CurvesOf(ids: seq<int>): (cs: seq<Interpolation>)
    ensures |cs| == |ids|
  {
    if |ids| == 0 then [] else CurvesOf(ids[..|ids| - 1]) + [Interpolation(ids[|ids| - 1])]
  }

  /** Entry `i` of the id list is the id of curve `i`. */
  lemma {:induction false} IdsOfAt(cs: seq<Interpolation>, i: nat)
    requires i < |cs|
    ensures IdsOf(cs)[i] == cs[i].id
  {
    if i < |cs| - 1 {
      IdsOfAt(cs[..|cs| - 1], i);
    }
  }

  /** Reading back the ids written for a list of curves yields the same list. */
  lemma {:induction false} CurvesOfIdsOf(cs: seq<Interpolation>)
    ensures CurvesOf(IdsOf(cs)) == cs
  {
    if |cs| > 0 {
      var init := cs[..|cs| - 1];
      CurvesOfIdsOf(init);
      assert IdsOf(cs)[..|cs| - 1] == IdsOf(init);
      assert cs == init + [cs[|cs| - 1]];
    }
  }

  /** What `write` puts in the capsule for a step list. */
  function Encode(cs: seq<Interpolation>, cycle: bool, fixedDuration: real): SavedSteps {
    SavedSteps(
      Some(IdsOf(cs)),
      if cycle == DefaultCycle then None else Some(cycle),
      if fixedDuration == DefaultFixedDuration then None else Some(fixedDuration))
  }

  /** Loading what was saved from a fresh (empty) step list reproduces the list, the
      cycle flag and the fixed duration. */
  lemma DecodeEncode(cs: seq<Interpolation>, cycle: bool, fixedDuration: real)
    ensures var s := Encode(cs, cycle, fixedDuration);
      s.interpolationIds.Some? &&
      [] + CurvesOf(s.interpolationIds.value) == cs &&
      s.cycle.GetOr(DefaultCycle) == cycle &&
      s.fixedDuration.GetOr(DefaultFixedDuration) == fixedDuration
  {
    CurvesOfIdsOf(cs);
  }

  class InterpolatedParticleInfluencer {
    var interpolations: seq<Interpolation>
    var fixedDuration: real
    var blend: real
    var cycle: bool
    /** The `enabled` flag of the influencer base class (`AbstractParticleInfluencer`,
        which is not part of this model). */
    var enabled: bool

    constructor ()
      ensures interpolations == [] && fixedDuration == 0.0 && blend == 0.0
      ensures !cycle && enabled
    {
      interpolations := [];
      fixedDuration := 0.0;
      blend := 0.0;
      cycle := false;
      enabled := true;
    }

    /** `getStepCount()`: the number of keyframe steps is the length of the curve list. */
    method GetStepCount() returns (n: int)
      ensures n == |interpolations|
    {
      n := |interpolations|;
    }

    /** `addInterpolation(i)`: appends a step. */
    method AddInterpolation(c: Interpolation)
      modifies this
      ensures interpolations == old(interpolations) + [c]
      ensures cycle == old(cycle) && fixedDuration == old(fixedDuration)
      ensures blend == old(blend) && enabled == old(enabled)
    {
      interpolations := interpolations + [c];
    }

    /** `removeInterpolation(index)`: removes step `index` and shifts the later steps
        down; the list throws for an index outside it and then nothing changes. */
    method RemoveInterpolation(index: int) returns (o: Outcome)
      modifies this
      ensures o.Pass? <==> 0 <= index < old(|interpolations|)
      ensures o.Fail? ==> o.error == IndexOutOfBounds && interpolations == old(interpolations)
      ensures o.Pass? ==> |interpolations| == old(|interpolations|) - 1
      ensures o.Pass? ==> interpolations[..index] == old(interpolations[..index])
      ensures o.Pass? ==> forall j :: index <= j < |interpolations| ==>
        interpolations[j] == old(interpolations[j + 1])
      ensures cycle == old(cycle) && fixedDuration == old(fixedDuration)
      ensures blend == old(blend) && enabled == old(enabled)
    {
      if 0 <= index < |interpolations| {
        interpolations := interpolations[..index] + interpolations[index + 1..];
        o := Pass;
      } else {
        o := Fail(IndexOutOfBounds);
      }
    }

    /** `clearInterpolations()`: empties the step list. */
    method ClearInterpolations()
      modifies this
      ensures interpolations == []
      ensures cycle == old(cycle) && fixedDuration == old(fixedDuration)
      ensures blend == old(blend) && enabled == old(enabled)
    {
      interpolations := [];
    }

    /** `setCycle(cycle)`. */
    method SetCycle(c: bool)
      modifies this`cycle
      ensures cycle == c
    {
      cycle := c;
    }

    /** `setFixedDuration(d)`: a non-zero duration switches cycling on with that step
        duration; zero switches it off and clears the duration. */
    method SetFixedDuration(d: real)
      modifies this`cycle, this`fixedDuration
      ensures cycle <==> d != 0.0
      ensures fixedDuration == d
    {
      if d != 0.0 {
        cycle := true;
        fixedDuration := d;
      } else {
        cycle := false;
        fixedDuration := 0.0;
      }
    }

    /** `getInterpolation(index)`: step `index`, or the "isn't correct" error for an
        index outside the list. */
    method GetInterpolation(index: int) returns (r: Result<Interpolation>)
      ensures r.Ok? <==> 0 <= index < |interpolations|
      ensures r.Ok? ==> r.value == interpolations[index]
      ensures r.Err? ==> r.error == IndexOutOfBounds
    {
      if index < 0 || index >= |interpolations| {
        return Err(IndexOutOfBounds);
      }
      r := Ok(interpolations[index]);
    }

    /** `updateInterpolation(c, index)`: replaces only step `index`; an index outside
        the list is an error and leaves the list as it was. */
    method UpdateInterpolation(c: Interpolation, index: int) returns (o: Outcome)
      modifies this`interpolations
      ensures o.Pass? <==> 0 <= index < old(|interpolations|)
      ensures o.Fail? ==> o.error == IndexOutOfBounds && interpolations == old(interpolations)
      ensures o.Pass? ==> interpolations == old(interpolations)[index := c]
    {
      if index < 0 || index >= |interpolations| {
        return Fail(IndexOutOfBounds);
      }
      interpolations := interpolations[index := c];
      o := Pass;
    }

    /** `write(exporter)`: one id per step, in list order, then the two fields. */
    method Write() returns (saved: SavedSteps)
      ensures saved == Encode(interpolations, cycle, fixedDuration)
      ensures saved.interpolationIds.Some? && |saved.interpolationIds.value| == |interpolations|
      ensures forall i :: 0 <= i < |interpolations| ==>
        saved.interpolationIds.value[i] == interpolations[i].id
    {
      var ids: seq<int> := [];
      var i := 0;
      while i < |interpolations|
        invariant 0 <= i <= |interpolations|
        invariant ids == IdsOf(interpolations[..i])
      {
        assert interpolations[..i + 1][..i] == interpolations[..i];
        ids := ids + [interpolations[i].id];
        i := i + 1;
      }
      assert interpolations[..i] == interpolations;
      saved := SavedSteps(
        Some(ids),
        if cycle == DefaultCycle then None else Some(cycle),
        if fixedDuration == DefaultFixedDuration then None else Some(fixedDuration));
      forall k | 0 <= k < |interpolations|
        ensures saved.interpolationIds.value[k] == interpolations[k].id
      {
        IdsOfAt(interpolations, k);
      }
    }

    /** `read(importer)`: appends the curves of the saved ids to the current list and
        sets the two fields, defaulting to no cycle and a 0.125 s step. A missing id
        array makes the loop over it throw before anything is assigned. */
    method Read(saved: SavedSteps) returns (o: Outcome)
      modifies this`interpolations, this`cycle, this`fixedDuration
      ensures o.Pass? <==> saved.interpolationIds.Some?
      ensures o.Fail? ==> o.error == NullPointer
      ensures o.Fail? ==> interpolations == old(interpolations)
      ensures o.Fail? ==> cycle == old(cycle) && fixedDuration == old(fixedDuration)
      ensures o.Pass? ==> interpolations == old(interpolations) + CurvesOf(saved.interpolationIds.value)
      ensures o.Pass? ==> cycle == saved.cycle.GetOr(DefaultCycle)
      ensures o.Pass? ==> fixedDuration == saved.fixedDuration.GetOr(DefaultFixedDuration)
    {
      if saved.interpolationIds.None? {
        return Fail(NullPointer);
      }
      var ids := saved.interpolationIds.value;
      ghost var start := interpolations;
      var i := 0;
      while i < |ids|
        invariant 0 <= i <= |ids|
        invariant interpolations == start + CurvesOf(ids[..i])
      {
        assert ids[..i + 1][..i] == ids[..i];
        interpolations := interpolations + [Interpolation(ids[i])];
        i := i + 1;
      }
      assert ids[..i] == ids;
      cycle := saved.cycle.GetOr(DefaultCycle);
      fixedDuration := saved.fixedDuration.GetOr(DefaultFixedDuration);
      o := Pass;
    }

    /** `clone()`: a new influencer with its own copy of the step list and the same
        cycle flag and fixed duration. */
    method Clone() returns (c: InterpolatedParticleInfluencer)
      ensures fresh(c)
      ensures c.interpolations == interpolations
      ensures c.cycle == cycle && c.fixedDuration == fixedDuration
      ensures c.blend == blend && c.enabled == enabled
    {
      c := new InterpolatedParticleInfluencer();
      c.blend := blend;
      c.enabled := enabled;
      c.interpolations := [] + interpolations;
      c.cycle := cycle;
      c.fixedDuration := fixedDuration;
    }
  }
}
