/** Complex baseband samples.  Rounding is not modelled: components are reals. */
module Iq {

  datatype Sample = Sample(i: real, q: real)

  const ZERO := Sample(0.0, 0.0)

  function Add(a: Sample, b: Sample): Sample {
    Sample(a.i + b.i, a.q + b.q)
  }

  function Scale(a: Sample, f: real): Sample {
    Sample(f * a.i, f * a.q)
  }

  /** Rotation of `a` by the angle whose cosine and sine are `r.i` and `r.q`. */
  function Rotate(a: Sample, r: Sample): Sample {
    Sample(a.i * r.i - a.q * r.q, a.i * r.q + a.q * r.i)
  }

  /** The stream read at any integer position; everything outside it is silence. */
  function At(x: seq<Sample>, n: int): Sample {
    if 0 <= n < |x| then x[n] else ZERO
  }

  function Zeros(n: nat): (z: seq<Sample>)
    ensures |z| == n && forall k :: 0 <= k < n ==> z[k] == ZERO
  {
    seq(n, _ => ZERO)
  }

  function Flatten(slots: seq<seq<Sample>>): seq<Sample> {
    if slots == [] then [] else Flatten(slots[..|slots| - 1]) + slots[|slots| - 1]
  }
}
