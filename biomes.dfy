/**
 * Biome bands: an ordered table of (name, height, color) entries looked up by
 * first match. Both the 2D colour map of MapGenerator.GenerateMap and the
 * per-vertex colouring of MarchingCubesMesh use this lookup; they differ only
 * in what they yield when no band matches.
 */
module Biomes {
  import opened Wrappers

  /** Unity's Color: four single-precision channels, modelled as reals. */
  datatype Color = Color(r: real, g: real, b: real, a: real)

  /** Color.white. */
  const White := Color(1.0, 1.0, 1.0, 1.0)

  /** default(Color), the value every slot of a fresh Color[] holds. */
  const Clear := Color(0.0, 0.0, 0.0, 0.0)

  /** MapGenerator.BiomeType. */
  datatype BiomeType = BiomeType(name: string, height: real, color: Color)

  /**
   * The result of a single-precision division `a / b` with finite operands.
   * A zero divisor does not throw: it yields an infinity or NaN.
   */
  datatype Quotient = Finite(value: real) | PositiveInfinity | NegativeInfinity | NotANumber

  function Divide(a: real, b: real): (q: Quotient)
    ensures q.Finite? <==> b != 0.0
    ensures q.Finite? ==> q.value * b == a
    ensures q == NotANumber <==> a == 0.0 && b == 0.0
    ensures q == PositiveInfinity <==> b == 0.0 && a > 0.0
    ensures q == NegativeInfinity <==> b == 0.0 && a < 0.0
  {
    if b != 0.0 then Finite(a / b)
    else if a > 0.0 then PositiveInfinity
    else if a < 0.0 then NegativeInfinity
    else NotANumber
  }

  /** The comparison `q <= bound` for a finite bound: every comparison with NaN is false. */
  predicate AtMost(q: Quotient, bound: real) {
    match q
    case Finite(v) => v <= bound
    case NegativeInfinity => true
    case PositiveInfinity => false
    case NotANumber => false
  }

  /** Band `i` is the first, in table order, whose height is at least the sample. */
  predicate IsFirstMatch(regions: seq<BiomeType>, sample: Quotient, i: int) {
    && 0 <= i < |regions|
    && AtMost(sample, regions[i].height)
    && forall j | 0 <= j < i :: !AtMost(sample, regions[j].height)
  }

  /** The sample exceeds the height of every band. */
  predicate NoMatch(regions: seq<BiomeType>, sample: Quotient) {
    forall j | 0 <= j < |regions| :: !AtMost(sample, regions[j].height)
  }

  /**
   * Index of the first band, at or after `from`, whose height is at least the
   * sample; None when no such band exists.
   */
  function FirstRegionFrom(regions: seq<BiomeType>, sample: Quotient, from: nat): (r: Option<nat>)
    requires from <= |regions|
    ensures r.Some? ==> from <= r.value < |regions| && AtMost(sample, regions[r.value].height)
    ensures r.Some? ==> forall j | from <= j < r.value :: !AtMost(sample, regions[j].height)
    ensures r.None? <==> forall j | from <= j < |regions| :: !AtMost(sample, regions[j].height)
    decreases |regions| - from
  {
    if from == |regions| then None
    else if AtMost(sample, regions[from].height) then Some(from)
    else FirstRegionFrom(regions, sample, from + 1)
  }

  /** The first band, in table order, that the sample does not exceed. */
  function FirstRegion(regions: seq<BiomeType>, sample: Quotient): (r: Option<nat>)
    ensures r.Some? ==> IsFirstMatch(regions, sample, r.value)
    ensures r.None? <==> NoMatch(regions, sample)
  {
    FirstRegionFrom(regions, sample, 0)
  }

  /** At most one band is the first match. */
  lemma FirstMatchUnique(regions: seq<BiomeType>, sample: Quotient, i: int, k: int)
    requires IsFirstMatch(regions, sample, i) && IsFirstMatch(regions, sample, k)
    ensures i == k
  {
  }

  /**
   * The colour of the first matching band, or `fallback` when none matches:
   * Color.white for mesh vertices, default(Color) for the 2D colour map.
   */
  function ColorFor(regions: seq<BiomeType>, sample: Quotient, fallback: Color): Color
  {
    match FirstRegion(regions, sample)
    case Some(i) => regions[i].color
    case None => fallback
  }

  /** The lookup yields the first matching band's colour, and the fallback when no band matches. */
  lemma ColorForCases(regions: seq<BiomeType>, sample: Quotient, fallback: Color)
    ensures NoMatch(regions, sample) ==> ColorFor(regions, sample, fallback) == fallback
    ensures forall i | IsFirstMatch(regions, sample, i) :: ColorFor(regions, sample, fallback) == regions[i].color
  {
    forall i | IsFirstMatch(regions, sample, i) ensures ColorFor(regions, sample, fallback) == regions[i].color {
      FirstMatchUnique(regions, sample, i, FirstRegion(regions, sample).value);
    }
  }

  /**
   * First match is by table order, not by closeness: with bands 0.3, 0.7 and
   * 1.0 a sample of 0.5 takes the second band, 0.9 the third and 0.1 the
   * first, and a band listed out of order still shadows the ones after it.
   */
  lemma {:induction false} FirstMatchWins(a: Color, b: Color, c: Color)
    ensures var bands := [BiomeType("low", 0.3, a), BiomeType("mid", 0.7, b), BiomeType("high", 1.0, c)];
      && ColorFor(bands, Finite(0.5), White) == b
      && ColorFor(bands, Finite(0.9), White) == c
      && ColorFor(bands, Finite(0.1), White) == a
      && ColorFor(bands, Finite(1.5), White) == White
    ensures ColorFor([BiomeType("high", 1.0, c), BiomeType("low", 0.3, a)], Finite(0.1), White) == c
  {
    var bands := [BiomeType("low", 0.3, a), BiomeType("mid", 0.7, b), BiomeType("high", 1.0, c)];
    assert AtMost(Finite(0.5), bands[1].height) && !AtMost(Finite(0.5), bands[0].height);
    assert AtMost(Finite(0.9), bands[2].height) && !AtMost(Finite(0.9), bands[1].height);
    assert AtMost(Finite(0.1), bands[0].height);
  }
}
