/**
  The fluent builder methods of `NoiseFn`. Each consumes the receiver
  (`self`) and returns a new node that owns it, together with the other
  noise functions the method takes, in the order the method takes them.

  Every builder states two things about its result: its noise-function
  children, in order, and the signatures at which it is well-dimensioned.
  The second is an if-and-only-if: the result can be used as a
  `NoiseFn<T, DIM>` exactly when the receiver and every other child can,
  and the displacement builders add that `<T, DIM>` must be `<f64, 2>`,
  `<f64, 3>` or `<f64, 4>` respectively.
*/
module Builders {
  import opened NoiseFn

  // Unary builders: the receiver is the only child.

  function AbsOf(self: Node): (r: Node)
    ensures Children(r) == [self]
    ensures forall s :: WellDimensioned(r, s) <==> WellDimensioned(self, s)
  {
    Modify(Abs, self)
  }

  function CacheOf(self: Node): (r: Node)
    ensures Children(r) == [self]
    ensures forall s :: WellDimensioned(r, s) <==> WellDimensioned(self, s)
  {
    Cache(self)
  }

  function ClampOf(self: Node): (r: Node)
    ensures Children(r) == [self]
    ensures forall s :: WellDimensioned(r, s) <==> WellDimensioned(self, s)
  {
    Modify(Clamp, self)
  }

  function CurveOf(self: Node): (r: Node)
    ensures Children(r) == [self]
    ensures forall s :: WellDimensioned(r, s) <==> WellDimensioned(self, s)
  {
    Modify(Curve, self)
  }

  function ExponentOf(self: Node): (r: Node)
    ensures Children(r) == [self]
    ensures forall s :: WellDimensioned(r, s) <==> WellDimensioned(self, s)
  {
    Modify(Exponent, self)
  }

  function NegateOf(self: Node): (r: Node)
    ensures Children(r) == [self]
    ensures forall s :: WellDimensioned(r, s) <==> WellDimensioned(self, s)
  {
    Modify(Negate, self)
  }

  function ScaleBiasOf(self: Node): (r: Node)
    ensures Children(r) == [self]
    ensures forall s :: WellDimensioned(r, s) <==> WellDimensioned(self, s)
  {
    Modify(ScaleBias, self)
  }

  function TerraceOf(self: Node): (r: Node)
    ensures Children(r) == [self]
    ensures forall s :: WellDimensioned(r, s) <==> WellDimensioned(self, s)
  {
    Modify(Terrace, self)
  }

  function RotatePointOf(self: Node): (r: Node)
    ensures Children(r) == [self]
    ensures forall s :: WellDimensioned(r, s) <==> WellDimensioned(self, s)
  {
    Transform(RotatePoint, self)
  }

  function ScalePointOf(self: Node): (r: Node)
    ensures Children(r) == [self]
    ensures forall s :: WellDimensioned(r, s) <==> WellDimensioned(self, s)
  {
    Transform(ScalePoint, self)
  }

  function TranslatePointOf(self: Node): (r: Node)
    ensures Children(r) == [self]
    ensures forall s :: WellDimensioned(r, s) <==> WellDimensioned(self, s)
  {
    Transform(TranslatePoint, self)
  }

  /**
    `turbulence::<F>()`: `aux` stands for `F::default()`, the source type of
    the internal displacement functions, which must be `Seedable`. Those
    internal sources are not noise-function children of the tree.
  */
  function TurbulenceOf(self: Node, aux: Generator): (r: Node)
    requires IsSeedable(aux)
    ensures Children(r) == [self]
    ensures forall s :: WellDimensioned(r, s) <==> WellDimensioned(self, s)
  {
    Transform(Turbulence(aux), self)
  }

  // Binary builders: the receiver first, `other` second.

  function AddOf(self: Node, other: Node): (r: Node)
    ensures Children(r) == [self, other]
    ensures forall s :: WellDimensioned(r, s) <==> WellDimensioned(self, s) && WellDimensioned(other, s)
  {
    Combine(Add, self, other)
  }

  function MaxOf(self: Node, other: Node): (r: Node)
    ensures Children(r) == [self, other]
    ensures forall s :: WellDimensioned(r, s) <==> WellDimensioned(self, s) && WellDimensioned(other, s)
  {
    Combine(Max, self, other)
  }

  function MinOf(self: Node, other: Node): (r: Node)
    ensures Children(r) == [self, other]
    ensures forall s :: WellDimensioned(r, s) <==> WellDimensioned(self, s) && WellDimensioned(other, s)
  {
    Combine(Min, self, other)
  }

  function MultiplyOf(self: Node, other: Node): (r: Node)
    ensures Children(r) == [self, other]
    ensures forall s :: WellDimensioned(r, s) <==> WellDimensioned(self, s) && WellDimensioned(other, s)
  {
    Combine(Multiply, self, other)
  }

  function PowerOf(self: Node, other: Node): (r: Node)
    ensures Children(r) == [self, other]
    ensures forall s :: WellDimensioned(r, s) <==> WellDimensioned(self, s) && WellDimensioned(other, s)
  {
    Combine(Power, self, other)
  }

  // Ternary builders: the receiver, `other`, then `control`.

  function BlendOf(self: Node, other: Node, control: Node): (r: Node)
    ensures Children(r) == [self, other, control]
    ensures forall s :: WellDimensioned(r, s) <==>
      WellDimensioned(self, s) && WellDimensioned(other, s) && WellDimensioned(control, s)
  {
    Choose(Blend, self, other, control)
  }

  function SelectOf(self: Node, other: Node, control: Node): (r: Node)
    ensures Children(r) == [self, other, control]
    ensures forall s :: WellDimensioned(r, s) <==>
      WellDimensioned(self, s) && WellDimensioned(other, s) && WellDimensioned(control, s)
  {
    Choose(Select, self, other, control)
  }

  // Displacement builders: the receiver, then one displacement function per
  // axis the dimension has; the remaining slots hold the unit marker.

  function DisplaceXY(self: Node, xDisplace: Node, yDisplace: Node): (r: Node)
    ensures Children(r) == [self, xDisplace, yDisplace]
    ensures r.Displace? && r.z == NoDisplacement && r.u == NoDisplacement
    ensures forall s :: WellDimensioned(r, s) <==>
      && s == Signature(F64, 2)
      && WellDimensioned(self, s) && WellDimensioned(xDisplace, s) && WellDimensioned(yDisplace, s)
  {
    Displace(self, Displacement(xDisplace), Displacement(yDisplace), NoDisplacement, NoDisplacement)
  }

  function DisplaceXYZ(self: Node, xDisplace: Node, yDisplace: Node, zDisplace: Node): (r: Node)
    ensures Children(r) == [self, xDisplace, yDisplace, zDisplace]
    ensures r.Displace? && r.u == NoDisplacement
    ensures forall s :: WellDimensioned(r, s) <==>
      && s == Signature(F64, 3)
      && WellDimensioned(self, s) && WellDimensioned(xDisplace, s)
      && WellDimensioned(yDisplace, s) && WellDimensioned(zDisplace, s)
  {
    Displace(self, Displacement(xDisplace), Displacement(yDisplace), Displacement(zDisplace), NoDisplacement)
  }

  function DisplaceXYZU(self: Node, xDisplace: Node, yDisplace: Node, zDisplace: Node, uDisplace: Node): (r: Node)
    ensures Children(r) == [self, xDisplace, yDisplace, zDisplace, uDisplace]
    ensures forall s :: WellDimensioned(r, s) <==>
      && s == Signature(F64, 4)
      && WellDimensioned(self, s) && WellDimensioned(xDisplace, s)
      && WellDimensioned(yDisplace, s) && WellDimensioned(zDisplace, s) && WellDimensioned(uDisplace, s)
  {
    Displace(self, Displacement(xDisplace), Displacement(yDisplace), Displacement(zDisplace), Displacement(uDisplace))
  }

  // What the order of children means for evaluation.

  /** A unary modifier's output is its remap of the receiver's output at the same point. */
  lemma ModifierEvaluatesReceiver<P, F>(I: Interp<P, F>, self: Node, p: P)
    ensures Eval(I, AbsOf(self), p) == I.remap(Abs, Eval(I, self, p))
    ensures Eval(I, ClampOf(self), p) == I.remap(Clamp, Eval(I, self, p))
    ensures Eval(I, CurveOf(self), p) == I.remap(Curve, Eval(I, self, p))
    ensures Eval(I, ExponentOf(self), p) == I.remap(Exponent, Eval(I, self, p))
    ensures Eval(I, NegateOf(self), p) == I.remap(Negate, Eval(I, self, p))
    ensures Eval(I, ScaleBiasOf(self), p) == I.remap(ScaleBias, Eval(I, self, p))
    ensures Eval(I, TerraceOf(self), p) == I.remap(Terrace, Eval(I, self, p))
  {
  }

  /** A cache yields exactly what the receiver yields. */
  lemma CacheEvaluatesReceiver<P, F>(I: Interp<P, F>, self: Node, p: P)
    ensures Eval(I, CacheOf(self), p) == Eval(I, self, p)
  {
  }

  /**
    A binary combiner hands the receiver's output to its combining operation
    first and `other`'s second; since `power` need not be symmetric, swapping
    the operands can change the result.
  */
  lemma CombinerEvaluatesInOrder<P, F>(I: Interp<P, F>, self: Node, other: Node, p: P)
    ensures Eval(I, PowerOf(self, other), p) == I.combine(Power, Eval(I, self, p), Eval(I, other, p))
    ensures Eval(I, PowerOf(other, self), p) == I.combine(Power, Eval(I, other, p), Eval(I, self, p))
    ensures Eval(I, AddOf(self, other), p) == I.combine(Add, Eval(I, self, p), Eval(I, other, p))
    ensures Eval(I, MaxOf(self, other), p) == I.combine(Max, Eval(I, self, p), Eval(I, other, p))
    ensures Eval(I, MinOf(self, other), p) == I.combine(Min, Eval(I, self, p), Eval(I, other, p))
    ensures Eval(I, MultiplyOf(self, other), p) == I.combine(Multiply, Eval(I, self, p), Eval(I, other, p))
  {
  }

  /** A selector sees the receiver's, `other`'s and `control`'s outputs in that order. */
  lemma SelectorEvaluatesInOrder<P, F>(I: Interp<P, F>, self: Node, other: Node, control: Node, p: P)
    ensures Eval(I, BlendOf(self, other, control), p)
         == I.choose(Blend, Eval(I, self, p), Eval(I, other, p), Eval(I, control, p))
    ensures Eval(I, SelectOf(self, other, control), p)
         == I.choose(Select, Eval(I, self, p), Eval(I, other, p), Eval(I, control, p))
  {
  }

  /**
    `displace_xy` samples both displacement functions at the original point
    and evaluates the receiver at the displaced point; the z and u slots
    contribute nothing.
  */
  lemma DisplaceXYEvaluation<P, F>(I: Interp<P, F>, self: Node, xDisplace: Node, yDisplace: Node, p: P)
    ensures Eval(I, DisplaceXY(self, xDisplace, yDisplace), p)
         == Eval(I, self, I.displace(p, [OffsetBy(Eval(I, xDisplace, p)), OffsetBy(Eval(I, yDisplace, p)), Unchanged, Unchanged]))
  {
  }

  /**
    `displace_xyz` samples its three displacement functions at the original
    point and evaluates the receiver at the displaced point; the u slot
    contributes nothing.
  */
  lemma DisplaceXYZEvaluation<P, F>(I: Interp<P, F>, self: Node, xDisplace: Node, yDisplace: Node, zDisplace: Node, p: P)
    ensures Eval(I, DisplaceXYZ(self, xDisplace, yDisplace, zDisplace), p)
         == Eval(I, self, I.displace(p, [OffsetBy(Eval(I, xDisplace, p)), OffsetBy(Eval(I, yDisplace, p)),
                                         OffsetBy(Eval(I, zDisplace, p)), Unchanged]))
  {
  }

  /** `displace_xyzu` samples all four displacement functions at the original point. */
  lemma DisplaceXYZUEvaluation<P, F>(I: Interp<P, F>, self: Node, xDisplace: Node, yDisplace: Node, zDisplace: Node, uDisplace: Node, p: P)
    ensures Eval(I, DisplaceXYZU(self, xDisplace, yDisplace, zDisplace, uDisplace), p)
         == Eval(I, self, I.displace(p, [OffsetBy(Eval(I, xDisplace, p)), OffsetBy(Eval(I, yDisplace, p)),
                                         OffsetBy(Eval(I, zDisplace, p)), OffsetBy(Eval(I, uDisplace, p))]))
  {
  }

  /**
    A point transformer evaluates the receiver at the point its transform
    yields: rotated, scaled, translated, or displaced by turbulence driven by
    the auxiliary source `aux`.
  */
  lemma TransformerEvaluatesWarpedPoint<P, F>(I: Interp<P, F>, self: Node, aux: Generator, p: P)
    requires IsSeedable(aux)
    ensures Eval(I, RotatePointOf(self), p) == Eval(I, self, I.warp(RotatePoint, p))
    ensures Eval(I, ScalePointOf(self), p) == Eval(I, self, I.warp(ScalePoint, p))
    ensures Eval(I, TranslatePointOf(self), p) == Eval(I, self, I.warp(TranslatePoint, p))
    ensures Eval(I, TurbulenceOf(self, aux), p) == Eval(I, self, I.warp(Turbulence(aux), p))
  {
  }

  /**
    Under the model's rule for displacement nodes (one displacement function
    exactly on each axis of the dimension, the unit marker on the rest), no
    displacement builder yields a tree usable at any signature but its own.
  */
  lemma DisplaceOnlyAtItsDimension(self: Node, xd: Node, yd: Node, zd: Node, ud: Node, s: Signature)
    ensures WellDimensioned(DisplaceXY(self, xd, yd), s) ==> s.coord == F64 && s.dim == 2
    ensures WellDimensioned(DisplaceXYZ(self, xd, yd, zd), s) ==> s.coord == F64 && s.dim == 3
    ensures WellDimensioned(DisplaceXYZU(self, xd, yd, zd, ud), s) ==> s.coord == F64 && s.dim == 4
  {
  }
}
