/** The `ForcedStretchAxis` enum: three axes declared in the order X, Y, Z, a
    lookup of an axis by its ordinal and a UI name per axis. The emitter saves an
    axis as its ordinal and loads it back through `valueOf`. */
module StretchAxis {
  import opened Common

  datatype ForcedStretchAxis = X | Y | Z

  /** `VALUES`, the constants in declaration order. */
  const Values: seq<ForcedStretchAxis> := [X, Y, Z]

  /** `ordinal()`: the position of the constant in the declaration. */
  function Ordinal(a: ForcedStretchAxis): (r: nat)
    ensures r < |Values| && Values[r] == a
  {
    match a
    case X => 0
    case Y => 1
    case Z => 2
  }

  /** `valueOf(int)`: `VALUES[index]`, which throws for an index outside the table. */
  function ValueOf(index: int): (r: Result<ForcedStretchAxis>)
    ensures r.Ok? <==> 0 <= index < 3
  {
    if 0 <= index < |Values| then Ok(Values[index]) else Err(IndexOutOfBounds)
  }

  /** The UI names passed to the constants' constructors, in declaration order. */
  const UiNames: seq<string> := ["X", "Y", "Z"]

  /** `toString()`: the UI name given to the constant, the one-letter name of the
      axis at its position in the declaration. */
  function ToString(a: ForcedStretchAxis): (r: string)
    ensures |r| == 1
    ensures r == UiNames[Ordinal(a)]
  {
    match a
    case X => "X"
    case Y => "Y"
    case Z => "Z"
  }

  /** The value the emitter reads back for a saved "stretchAxis" field: the stored
      ordinal, or the ordinal of X when the field is absent. */
  function ReadStretchAxis(stored: Option<int>): Result<ForcedStretchAxis> {
    ValueOf(stored.GetOr(Ordinal(X)))
  }

  /** Looking an axis up by its own ordinal gives the axis back. */
  lemma ValueOfOrdinal(a: ForcedStretchAxis)
    ensures ValueOf(Ordinal(a)) == Ok(a)
  {
  }

  /** Every index `valueOf` accepts is the ordinal of the axis it returns, so the
      lookup table and the ordinals are inverse to each other. */
  lemma OrdinalOfValueOf(index: int)
    requires ValueOf(index).Ok?
    ensures Ordinal(ValueOf(index).value) == index
  {
  }

  /** Saving an axis as its ordinal and loading it yields the same axis; a missing
      field loads as X. */
  lemma SaveLoadRoundTrip(a: ForcedStretchAxis)
    ensures ReadStretchAxis(Some(Ordinal(a))) == Ok(a)
    ensures ReadStretchAxis(None) == Ok(X)
  {
  }

  /** Distinct axes have distinct UI names. */
  lemma ToStringInjective(a: ForcedStretchAxis, b: ForcedStretchAxis)
    ensures ToString(a) == ToString(b) ==> a == b
  {
  }
}
