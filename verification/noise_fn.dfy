/**
  The tree shape of the noise-function composition algebra.

  A noise function is either an external generator (a leaf) or a composite
  node that owns one to three noise-function children, or a displacement
  node that owns a source and up to four per-axis displacement functions.
  The references and boxes through which a noise function can also be used
  are wrapper nodes of their own.

  A node is usable as a `NoiseFn<T, DIM>` for some coordinate type `T` and
  dimension `DIM`; the pair is a `Signature` here, and `WellDimensioned`
  says at which signatures a tree can be evaluated.

  Evaluation is left uninterpreted: an `Interp` supplies the generators'
  outputs and what each kind of node does with its children's outputs, and
  `Eval` evaluates a tree depth-first through it.
*/
module NoiseFn {

  /** Unsigned 32-bit seed values. */
  newtype U32 = x: int | 0 <= x < 0x1_0000_0000

  /** Coordinate types a point can be made of; `F64` is the one the displacement builders demand. */
  datatype Coord = F64 | OtherCoord(name: string)

  /** The `<T, DIM>` pair of a `NoiseFn<T, DIM>` implementation. */
  datatype Signature = Signature(coord: Coord, dim: nat)

  /** Whether a generator carries a seed (implements `Seedable`) and, if so, which one. */
  datatype Seeding = NotSeedable | SeededWith(seed: U32)

  /**
    An external noise generator: which generator it is, the signatures it
    implements `NoiseFn` for, and its seed.
  */
  datatype Generator = Generator(kind: string, sigs: set<Signature>, seeding: Seeding)

  /** The generator implements `Seedable`. */
  predicate IsSeedable(g: Generator)
  {
    g.seeding.SeededWith?
  }

  /** The unary output remaps. */
  datatype Modifier = Abs | Clamp | Curve | Exponent | Negate | ScaleBias | Terrace

  /** The binary output combiners. */
  datatype Combiner = Add | Max | Min | Multiply | Power

  /** The ternary selectors: two sources and a control. */
  datatype Selector = Blend | Select

  /** The transformers that change the input point before delegating to their source. */
  datatype PointTransform = RotatePoint | ScalePoint | TranslatePoint | Turbulence(aux: Generator)

  datatype Node =
    | Leaf(generator: Generator)
    | Cache(source: Node)
    | Modify(modifier: Modifier, source: Node)
    | Combine(combiner: Combiner, source1: Node, source2: Node)
    | Choose(selector: Selector, source1: Node, source2: Node, control: Node)
    | Transform(transform: PointTransform, source: Node)
    | Displace(source: Node, x: Axis, y: Axis, z: Axis, u: Axis)
    | Ref(target: Node)
    | Boxed(target: Node)

  /** One axis slot of a displacement node: the unit marker `()` or a displacement function. */
  datatype Axis = NoDisplacement | Displacement(displacer: Node)

  /** The noise functions an axis slot holds, none for the unit marker. */
  function AxisNodes(a: Axis): seq<Node>
  {
    match a
    case NoDisplacement => []
    case Displacement(f) => [f]
  }

  /** The noise-function children of a node, in the order its constructor takes them. */
  function Children(n: Node): seq<Node>
  {
    match n
    case Leaf(_) => []
    case Cache(src) => [src]
    case Modify(_, src) => [src]
    case Combine(_, a, b) => [a, b]
    case Choose(_, a, b, c) => [a, b, c]
    case Transform(_, src) => [src]
    case Displace(src, x, y, z, u) => [src] + AxisNodes(x) + AxisNodes(y) + AxisNodes(z) + AxisNodes(u)
    case Ref(t) => [t]
    case Boxed(t) => [t]
  }

  /**
    A displacement slot fits dimension `dim` at axis index `i`: the axes the
    point has carry a displacement function, the others the unit marker.
  */
  predicate AxisFits(a: Axis, i: nat, dim: nat)
  {
    if i < dim then a.Displacement? else a.NoDisplacement?
  }

  /**
    `n` can be evaluated as a `NoiseFn` of signature `s`: every generator in
    it implements `s`, every child has the parent's signature, and every
    displacement node works on `f64` points of dimension 2, 3 or 4 with a
    displacement function exactly for the axes that dimension has.
  */
  predicate WellDimensioned(n: Node, s: Signature)
  {
    match n
    case Leaf(g) => s in g.sigs
    case Cache(src) => WellDimensioned(src, s)
    case Modify(_, src) => WellDimensioned(src, s)
    case Combine(_, a, b) => WellDimensioned(a, s) && WellDimensioned(b, s)
    case Choose(_, a, b, c) => WellDimensioned(a, s) && WellDimensioned(b, s) && WellDimensioned(c, s)
    case Transform(_, src) => WellDimensioned(src, s)
    case Displace(src, x, y, z, u) =>
      && s.coord == F64
      && 2 <= s.dim <= 4
      && WellDimensioned(src, s)
      && AxisFits(x, 0, s.dim) && AxisFits(y, 1, s.dim) && AxisFits(z, 2, s.dim) && AxisFits(u, 3, s.dim)
      && (x.Displacement? ==> WellDimensioned(x.displacer, s))
      && (y.Displacement? ==> WellDimensioned(y.displacer, s))
      && (z.Displacement? ==> WellDimensioned(z.displacer, s))
      && (u.Displacement? ==> WellDimensioned(u.displacer, s))
    case Ref(t) => WellDimensioned(t, s)
    case Boxed(t) => WellDimensioned(t, s)
  }

  /** Every node of the tree, the root first, then each child's subtrees in child order. */
  function Subtrees(n: Node): (r: seq<Node>)
    ensures |r| >= 1 && r[0] == n
  {
    match n
    case Leaf(_) => [n]
    case Cache(src) => [n] + Subtrees(src)
    case Modify(_, src) => [n] + Subtrees(src)
    case Combine(_, a, b) => [n] + Subtrees(a) + Subtrees(b)
    case Choose(_, a, b, c) => [n] + Subtrees(a) + Subtrees(b) + Subtrees(c)
    case Transform(_, src) => [n] + Subtrees(src)
    case Displace(src, x, y, z, u) =>
      [n] + Subtrees(src)
      + (if x.Displacement? then Subtrees(x.displacer) else [])
      + (if y.Displacement? then Subtrees(y.displacer) else [])
      + (if z.Displacement? then Subtrees(z.displacer) else [])
      + (if u.Displacement? then Subtrees(u.displacer) else [])
    case Ref(t) => [n] + Subtrees(t)
    case Boxed(t) => [n] + Subtrees(t)
  }

  /** The value one displacement slot contributes at a point: nothing for the unit marker. */
  datatype Offset<F> = Unchanged | OffsetBy(value: F)

  /**
    An uninterpreted evaluation semantics: the output of every generator at
    every point, and what each kind of node computes from its children's
    outputs (or, for a transformer, which point it hands its source).
  */
  datatype Interp<!P, !F> = Interp(
    leaf: (Generator, P) -> F,
    remap: (Modifier, F) -> F,
    combine: (Combiner, F, F) -> F,
    choose: (Selector, F, F, F) -> F,
    warp: (PointTransform, P) -> P,
    displace: (P, seq<Offset<F>>) -> P)

  /**
    `get`: evaluates a tree at a point depth-first. A cache yields what its
    source yields at the same point, and a reference or a box yields what
    the node behind it yields. Displacement functions are sampled at the
    original point and the source at the displaced one.
  */
  function Eval<P, F>(I: Interp<P, F>, n: Node, p: P): F
  {
    match n
    case Leaf(g) => I.leaf(g, p)
    case Cache(src) => Eval(I, src, p)
    case Modify(m, src) => I.remap(m, Eval(I, src, p))
    case Combine(c, a, b) => I.combine(c, Eval(I, a, p), Eval(I, b, p))
    case Choose(sel, a, b, c) => I.choose(sel, Eval(I, a, p), Eval(I, b, p), Eval(I, c, p))
    case Transform(t, src) => Eval(I, src, I.warp(t, p))
    case Displace(src, x, y, z, u) =>
      var offsets := [
        if x.Displacement? then OffsetBy(Eval(I, x.displacer, p)) else Unchanged,
        if y.Displacement? then OffsetBy(Eval(I, y.displacer, p)) else Unchanged,
        if z.Displacement? then OffsetBy(Eval(I, z.displacer, p)) else Unchanged,
        if u.Displacement? then OffsetBy(Eval(I, u.displacer, p)) else Unchanged];
      Eval(I, src, I.displace(p, offsets))
    case Ref(t) => Eval(I, t, p)
    case Boxed(t) => Eval(I, t, p)
  }

  /** A well-dimensioned node's children all have the parent's signature. */
  lemma ChildrenShareSignature(n: Node, s: Signature)
    requires WellDimensioned(n, s)
    ensures forall c :: c in Children(n) ==> WellDimensioned(c, s)
  {
  }

  /** Conversely, a node that is not a displacement node is well-dimensioned when its children are (and a leaf when its generator implements the signature). */
  lemma ChildrenDetermineSignature(n: Node, s: Signature)
    requires !n.Displace?
    requires n.Leaf? ==> s in n.generator.sigs
    requires forall c :: c in Children(n) ==> WellDimensioned(c, s)
    ensures WellDimensioned(n, s)
  {
    match n
    case Leaf(_) =>
    case Cache(src) => assert src in Children(n);
    case Modify(_, src) => assert src in Children(n);
    case Combine(_, a, b) => assert a in Children(n) && b in Children(n);
    case Choose(_, a, b, c) => assert a in Children(n) && b in Children(n) && c in Children(n);
    case Transform(_, src) => assert src in Children(n);
    case Ref(t) => assert t in Children(n);
    case Boxed(t) => assert t in Children(n);
  }

  /** The well-dimensioned invariant is hereditary: every node of a well-dimensioned tree has the root's signature. */
  lemma {:induction false} EverySubtreeWellDimensioned(n: Node, s: Signature)
    requires WellDimensioned(n, s)
    ensures forall m :: m in Subtrees(n) ==> WellDimensioned(m, s)
  {
    match n
    case Leaf(_) =>
    case Cache(src) => EverySubtreeWellDimensioned(src, s);
    case Modify(_, src) => EverySubtreeWellDimensioned(src, s);
    case Combine(_, a, b) =>
      EverySubtreeWellDimensioned(a, s);
      EverySubtreeWellDimensioned(b, s);
    case Choose(_, a, b, c) =>
      EverySubtreeWellDimensioned(a, s);
      EverySubtreeWellDimensioned(b, s);
      EverySubtreeWellDimensioned(c, s);
    case Transform(_, src) => EverySubtreeWellDimensioned(src, s);
    case Displace(src, x, y, z, u) =>
      EverySubtreeWellDimensioned(src, s);
      if x.Displacement? { EverySubtreeWellDimensioned(x.displacer, s); }
      if y.Displacement? { EverySubtreeWellDimensioned(y.displacer, s); }
      if z.Displacement? { EverySubtreeWellDimensioned(z.displacer, s); }
      if u.Displacement? { EverySubtreeWellDimensioned(u.displacer, s); }
    case Ref(t) => EverySubtreeWellDimensioned(t, s);
    case Boxed(t) => EverySubtreeWellDimensioned(t, s);
  }

  /** Every displacement node inside a well-dimensioned tree is 2-, 3- or 4-dimensional over `f64`. */
  lemma DisplacementOnlyAtDims234(n: Node, s: Signature, m: Node)
    requires WellDimensioned(n, s)
    requires m in Subtrees(n) && m.Displace?
    ensures s.coord == F64 && s.dim in {2, 3, 4}
  {
    EverySubtreeWellDimensioned(n, s);
  }
}
