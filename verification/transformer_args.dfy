/**
  `TransformerArgs`: the per-axis arguments of the point transformers,
  given either as one value for every axis or as an explicit list of one to
  four values, and normalised to one value for each of the four axis slots
  x, y, z, u. The values are only copied, never computed with, so their
  type is a parameter.
*/
module TransformerArgs {

  /** A scalar (`f64`) or an array `[f64; k]` with `k` in 1..4. */
  datatype Args<V> = Uniform(value: V) | Explicit(values: seq<V>)
  {
    /** The array lengths that implement `TransformerArgs`. */
    predicate Valid()
    {
      Explicit? ==> 1 <= |values| <= 4
    }
  }

  /**
    `expand(default)`: a scalar fills every slot and ignores the default; an
    array of `k` values fills slots `0..k` with them in order and the
    remaining slots with the default.
  */
  function Expand<V>(args: Args<V>, default: V): (r: seq<V>)
    requires args.Valid()
    ensures |r| == 4
    ensures args.Uniform? ==> forall i | 0 <= i < 4 :: r[i] == args.value
    ensures args.Explicit? ==> forall i | 0 <= i < |args.values| :: r[i] == args.values[i]
    ensures args.Explicit? ==> forall i | |args.values| <= i < 4 :: r[i] == default
  {
    match args
    case Uniform(v) => [v, v, v, v]
    case Explicit(s) =>
      if |s| == 1 then [s[0], default, default, default]
      else if |s| == 2 then [s[0], s[1], default, default]
      else if |s| == 3 then [s[0], s[1], s[2], default]
      else s
  }

  /** Reference definition: the supplied values followed by as many defaults as leave four slots. */
  function Padded<V>(s: seq<V>, default: V): (r: seq<V>)
    requires |s| <= 4
  {
    s + seq(4 - |s|, _ => default)
  }

  /** Expanding an explicit list is padding it to four slots with the default. */
  lemma ExpandIsPadded<V>(s: seq<V>, default: V)
    requires 1 <= |s| <= 4
    ensures Expand(Explicit(s), default) == Padded(s, default)
  {
  }

  /** A scalar fills all four slots with itself, whatever the default. */
  lemma ExpandUniform<V>(v: V, d1: V, d2: V)
    ensures Expand(Uniform(v), d1) == [v, v, v, v]
    ensures Expand(Uniform(v), d1) == Expand(Uniform(v), d2)
  {
  }

  /** `[a]` expands to `[a, d, d, d]`. */
  lemma ExpandOne<V>(a: V, d: V)
    ensures Expand(Explicit([a]), d) == [a, d, d, d]
  {
  }

  /** `[a, b]` expands to `[a, b, d, d]`. */
  lemma ExpandTwo<V>(a: V, b: V, d: V)
    ensures Expand(Explicit([a, b]), d) == [a, b, d, d]
  {
  }

  /** `[a, b, c]` expands to `[a, b, c, d]`. */
  lemma ExpandThree<V>(a: V, b: V, c: V, d: V)
    ensures Expand(Explicit([a, b, c]), d) == [a, b, c, d]
  {
  }

  /** A four-element array comes back unchanged, whatever the default. */
  lemma ExpandFour<V>(s: seq<V>, d: V)
    requires |s| == 4
    ensures Expand(Explicit(s), d) == s
  {
  }

  /** Expanding is idempotent: an expanded result, expanded again as a four-element array, is itself. */
  lemma ExpandIdempotent<V>(args: Args<V>, d: V, d': V)
    requires args.Valid()
    ensures Expand(Explicit(Expand(args, d)), d') == Expand(args, d)
  {
  }

  /** A scalar means the same as the four-element array repeating it. */
  lemma UniformIsRepeatedExplicit<V>(v: V, d: V)
    ensures Expand(Uniform(v), d) == Expand(Explicit([v, v, v, v]), d)
  {
  }

  /**
    Two argument lists of the same length that expand alike under some
    default are the same list: expanding loses nothing that was supplied.
  */
  lemma ExpandInjective<V>(s: seq<V>, t: seq<V>, d: V)
    requires 1 <= |s| <= 4 && |s| == |t|
    requires Expand(Explicit(s), d) == Expand(Explicit(t), d)
    ensures s == t
  {
  }
}
