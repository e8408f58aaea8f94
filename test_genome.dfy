/**
 * `TestGenome` (genomes.py): a body described by two numpy arrays, vertex
 * magnitudes and angle weights, that `mutate` resamples in place, that
 * `crossover` replaces by blends of two parents, and from which
 * `create_body` builds a fan of triangles around the origin.
 */
module Genomes {
  import opened Wrappers
  import opened GenomeSpec
  import opened Numbers

  /** The exception a Python call ends with. */
  datatype PyError = NameError(name: string)

  class TestGenome {
    var magnitudes: array<real>
    var angles: array<real>
    var fitness: real
    /** `wheels_flags`: an attribute only a completed `crossover` would set. */
    var wheelsFlags: Option<seq<int>>

    /** Both arrays are separate, of one length, and within their draw ranges. */
    ghost predicate Valid()
      reads this, magnitudes, angles
    {
      magnitudes != angles
      && magnitudes.Length == angles.Length
      && InRange(magnitudes[..], MagnitudeLow, MagnitudeHigh)
      && InRange(angles[..], AngleLow, AngleHigh)
    }

    /**
     * `TestGenome(body_vertices)`: `magDraws` and `angleDraws` are the two
     * uniform draws of `body_vertices` values.
     */
    constructor (bodyVertices: nat, magDraws: seq<real>, angleDraws: seq<real>)
      requires |magDraws| == bodyVertices && |angleDraws| == bodyVertices
      requires InRange(magDraws, MagnitudeLow, MagnitudeHigh) && InRange(angleDraws, AngleLow, AngleHigh)
      ensures Valid()
      ensures fresh(magnitudes) && fresh(angles)
      ensures magnitudes.Length == bodyVertices
      ensures magnitudes[..] == magDraws && angles[..] == angleDraws
      ensures fitness == 0.0 && wheelsFlags == None
    {
      magnitudes := new real[bodyVertices](i requires 0 <= i < bodyVertices => magDraws[i]);
      angles := new real[bodyVertices](i requires 0 <= i < bodyVertices => angleDraws[i]);
      fitness := 0.0;
      wheelsFlags := None;
    }

    /**
     * `mutate`: every magnitude (angle) whose draw in `magDraws`
     * (`angleDraws`) is below the mutation rate is replaced, in index order,
     * by the next value of `magValues` (`angleValues`).
     */
    method Mutate(magDraws: seq<real>, magValues: seq<real>, angleDraws: seq<real>, angleValues: seq<real>)
      requires Valid()
      requires |magDraws| == magnitudes.Length && |angleDraws| == angles.Length
      requires |magValues| == CountSelected(Mask(magDraws)) && |angleValues| == CountSelected(Mask(angleDraws))
      requires InRange(magValues, MagnitudeLow, MagnitudeHigh) && InRange(angleValues, AngleLow, AngleHigh)
      modifies magnitudes, angles
      ensures Valid()
      ensures magnitudes[..] == Resampled(old(magnitudes[..]), Mask(magDraws), magValues)
      ensures angles[..] == Resampled(old(angles[..]), Mask(angleDraws), angleValues)
    {
      var magMask := Mask(magDraws);
      var angleMask := Mask(angleDraws);
      ghost var m0, a0 := magnitudes[..], angles[..];
      ResampleWhere(magnitudes, magMask, magValues);
      ResampleWhere(angles, angleMask, angleValues);
      ResampledInRange(m0, magMask, magValues, MagnitudeLow, MagnitudeHigh);
      ResampledInRange(a0, angleMask, angleValues, AngleLow, AngleHigh);
    }

    /** `a[np.where(mask)] = values`, in place. */
    static method ResampleWhere(a: array<real>, mask: seq<bool>, values: seq<real>)
      requires |mask| == a.Length && |values| == CountSelected(mask)
      modifies a
      ensures a[..] == Resampled(old(a[..]), mask, values)
    {
      ghost var a0 := a[..];
      RankBelowCount(mask);
      forall i | 0 <= i < a.Length && mask[i] {
        a[i] := values[CountSelected(mask[..i])];
      }
      forall i | 0 <= i < a.Length
        ensures a[i] == Resampled(a0, mask, values)[i]
      {
        ResampledAt(a0, mask, values, i);
      }
    }

    /** A fresh array holding `Blend(a, b, t)`. */
    static method BlendArray(a: array<real>, b: array<real>, t: seq<real>) returns (r: array<real>)
      requires a.Length == b.Length == |t|
      ensures fresh(r)
      ensures r[..] == Blend(a[..], b[..], t)
    {
      r := new real[a.Length];
      forall i | 0 <= i < a.Length {
        r[i] := Mix(t[i], a[i], b[i]);
      }
      forall i | 0 <= i < a.Length
        ensures r[i] == Blend(a[..], b[..], t)[i]
      {
        BlendAt(a[..], b[..], t, i);
      }
    }

    /**
     * The part of `crossover` that runs: with the weights `t` (one uniform
     * draw per vertex), `self` receives `(1 - t) * self + t * other` and
     * `other` receives `t * self + (1 - t) * other`, all four as new arrays.
     * When `other` is `self`, the second assignment wins.
     */
    method BlendWith(other: TestGenome, t: seq<real>)
      requires Valid() && other.Valid()
      requires other.magnitudes.Length == magnitudes.Length && |t| == magnitudes.Length
      requires InRange(t, AngleLow, AngleHigh)
      modifies this, other
      ensures Valid() && other.Valid()
      ensures fresh(magnitudes) && fresh(angles) && fresh(other.magnitudes) && fresh(other.angles)
      ensures other.magnitudes[..] == Blend(old(other.magnitudes[..]), old(magnitudes[..]), t)
      ensures other.angles[..] == Blend(old(other.angles[..]), old(angles[..]), t)
      ensures other != this ==> magnitudes[..] == Blend(old(magnitudes[..]), old(other.magnitudes[..]), t)
      ensures other != this ==> angles[..] == Blend(old(angles[..]), old(other.angles[..]), t)
      ensures fitness == old(fitness) && wheelsFlags == old(wheelsFlags)
      ensures other.fitness == old(other.fitness) && other.wheelsFlags == old(other.wheelsFlags)
    {
      var newMagnitudes := BlendArray(other.magnitudes, magnitudes, t);
      var newAngles := BlendArray(other.angles, angles, t);
      var selfMagnitudes := BlendArray(magnitudes, other.magnitudes, t);
      var selfAngles := BlendArray(angles, other.angles, t);
      BlendInRange(other.magnitudes[..], magnitudes[..], t, MagnitudeLow, MagnitudeHigh);
      BlendInRange(other.angles[..], angles[..], t, AngleLow, AngleHigh);
      BlendInRange(magnitudes[..], other.magnitudes[..], t, MagnitudeLow, MagnitudeHigh);
      BlendInRange(angles[..], other.angles[..], t, AngleLow, AngleHigh);
      magnitudes := selfMagnitudes;
      angles := selfAngles;
      other.magnitudes := newMagnitudes;
      other.angles := newAngles;
    }

    /**
     * `crossover` as written: both genomes are blended, then the statement
     * setting `wheels_flags` reads the name `body_vertices`, which is not
     * defined in the method, so every call ends in a `NameError` with both
     * genomes already changed and `wheels_flags` still unset.
     */
    method Crossover(other: TestGenome, t: seq<real>) returns (raised: Option<PyError>)
      requires Valid() && other.Valid()
      requires other.magnitudes.Length == magnitudes.Length && |t| == magnitudes.Length
      requires InRange(t, AngleLow, AngleHigh)
      modifies this, other
      ensures raised == Some(NameError("body_vertices"))
      ensures Valid() && other.Valid()
      ensures fresh(magnitudes) && fresh(angles) && fresh(other.magnitudes) && fresh(other.angles)
      ensures other.magnitudes[..] == Blend(old(other.magnitudes[..]), old(magnitudes[..]), t)
      ensures other.angles[..] == Blend(old(other.angles[..]), old(angles[..]), t)
      ensures other != this ==> magnitudes[..] == Blend(old(magnitudes[..]), old(other.magnitudes[..]), t)
      ensures other != this ==> angles[..] == Blend(old(angles[..]), old(other.angles[..]), t)
      ensures wheelsFlags == old(wheelsFlags) && other.wheelsFlags == old(other.wheelsFlags)
      ensures fitness == old(fitness) && other.fitness == old(other.fitness)
    {
      BlendWith(other, t);
      raised := Some(NameError("body_vertices"));
    }

    /**
     * `crossover` as evidently intended: the same blend, then `wheels_flags`
     * set to one 0/1 draw per vertex (`flags`), sized by the genome's own
     * vertex count.
     */
    method CrossoverCorrected(other: TestGenome, t: seq<real>, flags: seq<int>)
      requires Valid() && other.Valid()
      requires other.magnitudes.Length == magnitudes.Length && |t| == magnitudes.Length
      requires InRange(t, AngleLow, AngleHigh)
      requires |flags| == magnitudes.Length && forall i :: 0 <= i < |flags| ==> 0 <= flags[i] < 2
      modifies this, other
      ensures Valid() && other.Valid()
      ensures fresh(magnitudes) && fresh(angles) && fresh(other.magnitudes) && fresh(other.angles)
      ensures other.magnitudes[..] == Blend(old(other.magnitudes[..]), old(magnitudes[..]), t)
      ensures other.angles[..] == Blend(old(other.angles[..]), old(angles[..]), t)
      ensures other != this ==> magnitudes[..] == Blend(old(magnitudes[..]), old(other.magnitudes[..]), t)
      ensures other != this ==> angles[..] == Blend(old(angles[..]), old(other.angles[..]), t)
      ensures wheelsFlags == Some(flags) && |wheelsFlags.value| == magnitudes.Length
      ensures other != this ==> other.wheelsFlags == old(other.wheelsFlags)
      ensures fitness == old(fitness) && other.fitness == old(other.fitness)
    {
      BlendWith(other, t);
      wheelsFlags := Some(flags);
    }

    /**
     * `create_body` and `_create_body_part`, without the physics world: one
     * vertex per `(magnitude, angle)` pair at its cumulative fraction of a
     * full turn, then one triangle per vertex joining it, the next vertex
     * (cyclically) and the origin.
     */
    method CreateBody() returns (r: Result<Body, BodyError>)
      ensures r == BodyFrom(magnitudes[..], angles[..])
    {
      ghost var mags, angs := magnitudes[..], angles[..];
      var total := Sum(angles[..]);
      var n := Min(magnitudes.Length, angles.Length);
      var vertices: seq<Point> := [];
      var running := 0.0;
      for i := 0 to n
        invariant running == Sum(angs[..i])
        invariant total == 0.0 ==> i == 0
        invariant total != 0.0 ==> vertices == Vertices(mags[..i], angs[..i], total)
      {
        SumStep(angs, i);
        running := running + angles[i];
        if total == 0.0 {
          return Err(ZeroAngleTotal);
        }
        VerticesStep(mags, angs, total, i);
        vertices := vertices + [Polar(magnitudes[i], Fraction(running, total))];
      }
      if total == 0.0 {
        return Ok(Body([], []));
      }
      VerticesPrefix(mags, angs, total);
      var parts: seq<Fixture> := [];
      for i := 0 to |vertices|
        invariant parts == Ring(vertices)[..i]
      {
        parts := parts + [Fixture([vertices[i], vertices[(i + 1) % |vertices|], Origin], PartDensity)];
      }
      assert Ring(vertices)[..|vertices|] == Ring(vertices);
      return Ok(Body(vertices, parts));
    }
  }
}
