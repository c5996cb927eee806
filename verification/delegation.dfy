/**
  Evaluation through `&M` and `Box<M>`. Both implement `NoiseFn` by
  delegating `get` unchanged to the node they point at, so any stack of
  references and boxes, and any number of them anywhere inside a tree, is
  invisible to evaluation and to the signatures the tree can be used at.
*/
module Delegation {
  import opened NoiseFn

  /** One level of indirection: a shared reference or an owning box. */
  datatype Handle = ByRef | ByBox

  /** `n` behind the handles `hs`, the first handle outermost. */
  function Wrap(hs: seq<Handle>, n: Node): (r: Node)
    ensures |hs| > 0 ==> r.Ref? || r.Boxed?
  {
    if |hs| == 0 then n
    else match hs[0]
      case ByRef => Ref(Wrap(hs[1..], n))
      case ByBox => Boxed(Wrap(hs[1..], n))
  }

  /** The node behind every outer reference and box. */
  function Underlying(n: Node): (r: Node)
    ensures !r.Ref? && !r.Boxed?
  {
    match n
    case Ref(t) => Underlying(t)
    case Boxed(t) => Underlying(t)
    case _ => n
  }

  /** The tree with every reference and box, at any depth, replaced by the node behind it. */
  function Unwrapped(n: Node): (r: Node)
    ensures !r.Ref? && !r.Boxed?
  {
    match n
    case Leaf(_) => n
    case Cache(src) => Cache(Unwrapped(src))
    case Modify(m, src) => Modify(m, Unwrapped(src))
    case Combine(c, a, b) => Combine(c, Unwrapped(a), Unwrapped(b))
    case Choose(sel, a, b, c) => Choose(sel, Unwrapped(a), Unwrapped(b), Unwrapped(c))
    case Transform(t, src) => Transform(t, Unwrapped(src))
    case Displace(src, x, y, z, u) =>
      Displace(Unwrapped(src),
        if x.Displacement? then Displacement(Unwrapped(x.displacer)) else x,
        if y.Displacement? then Displacement(Unwrapped(y.displacer)) else y,
        if z.Displacement? then Displacement(Unwrapped(z.displacer)) else z,
        if u.Displacement? then Displacement(Unwrapped(u.displacer)) else u)
    case Ref(t) => Unwrapped(t)
    case Boxed(t) => Unwrapped(t)
  }

  /** No node of the tree is a reference or a box. */
  predicate HandleFree(n: Node)
  {
    forall m :: m in Subtrees(n) ==> !m.Ref? && !m.Boxed?
  }

  /** `impl NoiseFn for &M`: a reference evaluates to what its target evaluates to. */
  lemma RefDelegates<P, F>(I: Interp<P, F>, n: Node, p: P)
    ensures Eval(I, Ref(n), p) == Eval(I, n, p)
    ensures forall s :: WellDimensioned(Ref(n), s) <==> WellDimensioned(n, s)
  {
  }

  /** `impl NoiseFn for Box<M>`: a box evaluates to what its contents evaluate to. */
  lemma BoxDelegates<P, F>(I: Interp<P, F>, n: Node, p: P)
    ensures Eval(I, Boxed(n), p) == Eval(I, n, p)
    ensures forall s :: WellDimensioned(Boxed(n), s) <==> WellDimensioned(n, s)
  {
  }

  /** Any stack of references and boxes is transparent to `get`. */
  lemma {:induction false} WrapTransparent<P, F>(I: Interp<P, F>, hs: seq<Handle>, n: Node, p: P)
    ensures Eval(I, Wrap(hs, n), p) == Eval(I, n, p)
    decreases |hs|
  {
    if |hs| > 0 {
      WrapTransparent(I, hs[1..], n, p);
    }
  }

  /** A stack of references and boxes can be used at exactly the signatures its innermost node can. */
  lemma {:induction false} WrapKeepsSignatures(hs: seq<Handle>, n: Node, s: Signature)
    ensures WellDimensioned(Wrap(hs, n), s) <==> WellDimensioned(n, s)
    decreases |hs|
  {
    if |hs| > 0 {
      WrapKeepsSignatures(hs[1..], n, s);
    }
  }

  /** Stripping the outer handles of a wrapped node that is not itself a handle gives that node back. */
  lemma {:induction false} UnderlyingOfWrap(hs: seq<Handle>, n: Node)
    requires !n.Ref? && !n.Boxed?
    ensures Underlying(Wrap(hs, n)) == n
    decreases |hs|
  {
    if |hs| > 0 {
      UnderlyingOfWrap(hs[1..], n);
    }
  }

  /** The node behind the outer handles evaluates like the handle does. */
  lemma {:induction false} UnderlyingTransparent<P, F>(I: Interp<P, F>, n: Node, p: P)
    ensures Eval(I, Underlying(n), p) == Eval(I, n, p)
  {
    match n
    case Ref(t) => UnderlyingTransparent(I, t, p);
    case Boxed(t) => UnderlyingTransparent(I, t, p);
    case _ =>
  }

  /** Removing every reference and box anywhere in a tree leaves its value at every point unchanged. */
  lemma {:induction false} UnwrappedTransparent<P, F>(I: Interp<P, F>, n: Node, p: P)
    ensures Eval(I, Unwrapped(n), p) == Eval(I, n, p)
  {
    match n
    case Leaf(_) =>
    case Cache(src) => UnwrappedTransparent(I, src, p);
    case Modify(_, src) => UnwrappedTransparent(I, src, p);
    case Combine(_, a, b) =>
      UnwrappedTransparent(I, a, p);
      UnwrappedTransparent(I, b, p);
    case Choose(_, a, b, c) =>
      UnwrappedTransparent(I, a, p);
      UnwrappedTransparent(I, b, p);
      UnwrappedTransparent(I, c, p);
    case Transform(t, src) => UnwrappedTransparent(I, src, I.warp(t, p));
    case Displace(src, x, y, z, u) =>
      if x.Displacement? { UnwrappedTransparent(I, x.displacer, p); }
      if y.Displacement? { UnwrappedTransparent(I, y.displacer, p); }
      if z.Displacement? { UnwrappedTransparent(I, z.displacer, p); }
      if u.Displacement? { UnwrappedTransparent(I, u.displacer, p); }
      var offsets := [
        if x.Displacement? then OffsetBy(Eval(I, x.displacer, p)) else Unchanged,
        if y.Displacement? then OffsetBy(Eval(I, y.displacer, p)) else Unchanged,
        if z.Displacement? then OffsetBy(Eval(I, z.displacer, p)) else Unchanged,
        if u.Displacement? then OffsetBy(Eval(I, u.displacer, p)) else Unchanged];
      UnwrappedTransparent(I, src, I.displace(p, offsets));
    case Ref(t) => UnwrappedTransparent(I, t, p);
    case Boxed(t) => UnwrappedTransparent(I, t, p);
  }

  /** Removing every reference and box keeps the signatures a tree can be used at. */
  lemma {:induction false} UnwrappedKeepsSignatures(n: Node, s: Signature)
    ensures WellDimensioned(Unwrapped(n), s) <==> WellDimensioned(n, s)
  {
    match n
    case Leaf(_) =>
    case Cache(src) => UnwrappedKeepsSignatures(src, s);
    case Modify(_, src) => UnwrappedKeepsSignatures(src, s);
    case Combine(_, a, b) =>
      UnwrappedKeepsSignatures(a, s);
      UnwrappedKeepsSignatures(b, s);
    case Choose(_, a, b, c) =>
      UnwrappedKeepsSignatures(a, s);
      UnwrappedKeepsSignatures(b, s);
      UnwrappedKeepsSignatures(c, s);
    case Transform(_, src) => UnwrappedKeepsSignatures(src, s);
    case Displace(src, x, y, z, u) =>
      UnwrappedKeepsSignatures(src, s);
      if x.Displacement? { UnwrappedKeepsSignatures(x.displacer, s); }
      if y.Displacement? { UnwrappedKeepsSignatures(y.displacer, s); }
      if z.Displacement? { UnwrappedKeepsSignatures(z.displacer, s); }
      if u.Displacement? { UnwrappedKeepsSignatures(u.displacer, s); }
    case Ref(t) => UnwrappedKeepsSignatures(t, s);
    case Boxed(t) => UnwrappedKeepsSignatures(t, s);
  }

  /** The unwrapped tree holds no reference or box at any depth. */
  lemma {:induction false} UnwrappedIsHandleFree(n: Node)
    ensures HandleFree(Unwrapped(n))
  {
    match n
    case Leaf(_) =>
    case Cache(src) => UnwrappedIsHandleFree(src);
    case Modify(_, src) => UnwrappedIsHandleFree(src);
    case Combine(_, a, b) =>
      UnwrappedIsHandleFree(a);
      UnwrappedIsHandleFree(b);
    case Choose(_, a, b, c) =>
      UnwrappedIsHandleFree(a);
      UnwrappedIsHandleFree(b);
      UnwrappedIsHandleFree(c);
    case Transform(_, src) => UnwrappedIsHandleFree(src);
    case Displace(src, x, y, z, u) =>
      UnwrappedIsHandleFree(src);
      if x.Displacement? { UnwrappedIsHandleFree(x.displacer); }
      if y.Displacement? { UnwrappedIsHandleFree(y.displacer); }
      if z.Displacement? { UnwrappedIsHandleFree(z.displacer); }
      if u.Displacement? { UnwrappedIsHandleFree(u.displacer); }
    case Ref(t) => UnwrappedIsHandleFree(t);
    case Boxed(t) => UnwrappedIsHandleFree(t);
  }
}
