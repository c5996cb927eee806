# Noise-function composition algebra

A Dafny model of two pieces of the composition layer of the noise-rs
library (a Rust library that builds procedural noise fields by composing
small noise functions into expression trees):

- **Per-axis argument normalisation** (`TransformerArgs::expand`), in
  `transformer_args.dfy`. The point transformers take their per-axis
  parameters either as one scalar or as an array of one to four values.
  `expand(default)` turns either into a four-slot array `[x, y, z, u]`:
  a scalar fills every slot, and an array fills its slots in order, with the
  default filling the rest. The model is the variant
  `Uniform(v) | Explicit(s)`, where `1 <= |s| <= 4`. The value type is a
  type parameter, because `expand` only copies values.
- **The tree shape of the `NoiseFn` builder algebra** (`noise_fn.dfy`,
  `builders.dfy`, `delegation.dfy`, `seedable.dfy`).
  - Every fluent method (`abs`, `add`, …, `turbulence`) consumes its
    receiver and returns a new node that owns it, plus any other noise
    functions it is given.
  - `Node` is that expression tree. `Signature` is the `<T, DIM>` pair of a
    `NoiseFn<T, DIM>` implementation. `WellDimensioned(n, s)` says that `n`
    can be used at signature `s`: every child has the parent's signature,
    and a displacement node works on `f64` points of dimension 2, 3 or 4,
    with one displacement function per axis of that dimension.
  - A value of a type that names `T` and `DIM`, such as `Abs<T, Self, DIM>`
    or `Add<T, Self, Other, DIM>`, has a single signature. A generator,
    `Cache<Self>`, the point transformers, `&M` and `Box<M>` can have
    several. A model tree stands for all the Rust values of that shape, so
    `WellDimensioned(n, s)` means "n can be built at s".
    A builder's "usable at" statements below are meant in that sense.
  - Each builder is a function `AbsOf`, `AddOf`, …, `TurbulenceOf`. Its
    contract gives the result's children in order, and gives, as an
    if-and-only-if, the signatures at which the result is well-dimensioned.
  - Evaluation (`get`) is uninterpreted. An `Interp` supplies the
    generators' outputs and what each kind of node does with its children's
    outputs, and `Eval` is the definition of `get`: it evaluates a tree
    through the `Interp`, depth-first. What it promises is stated by the
    lemmas about it (`RefDelegates`, `BoxDelegates`, `WrapTransparent` and
    the builders' evaluation lemmas).
  - `Ref` and `Boxed` nodes stand for `&M` and `Box<M>`. They delegate
    unchanged to the node behind them. `delegation.dfy` proves that any
    stack of them is transparent, and so is any number of them anywhere in
    a tree.
  - `Seedable` is a seed field on a generator, with a builder-style
    `SetSeed` and `Seed` as the `seed()` accessor. The round trip between
    them is stated by `SetSeed` and `SetOwnSeed`.

Points (`[T; DIM]`) and outputs (`f64`) are the type parameters `P` and `F`
of `Interp` and `Eval`. Seeds are `U32`, the integers in `0 .. 2^32`.

## Model

| member | source | states |
|---|---|---|
| TransformerArgs.Expand | src/noise_fns/transformers.rs:9-53 | the result has exactly four slots; a scalar fills every slot; an array of k values fills slots 0..k with them in order and slots k..4 with the default |
| TransformerArgs.ExpandIsPadded | src/noise_fns/transformers.rs:21-53 | expanding an explicit list equals the independent reference definition: the list followed by 4 - k copies of the default |
| TransformerArgs.ExpandUniform | src/noise_fns/transformers.rs:13-19 | a scalar gives `[v, v, v, v]`, and the default has no effect |
| TransformerArgs.ExpandOne | src/noise_fns/transformers.rs:21-28 | `[a]` gives `[a, d, d, d]` |
| TransformerArgs.ExpandTwo | src/noise_fns/transformers.rs:30-37 | `[a, b]` gives `[a, b, d, d]` |
| TransformerArgs.ExpandThree | src/noise_fns/transformers.rs:39-46 | `[a, b, c]` gives `[a, b, c, d]` |
| TransformerArgs.ExpandFour | src/noise_fns/transformers.rs:48-53 | a four-element array comes back unchanged, whatever the default |
| TransformerArgs.ExpandIdempotent | src/noise_fns/transformers.rs:48-52 | an expanded result, expanded again as a four-element array with any default, is unchanged |
| TransformerArgs.UniformIsRepeatedExplicit | src/noise_fns/transformers.rs:13-19 | a scalar means the same as the four-element array that repeats it |
| TransformerArgs.ExpandInjective | src/noise_fns/transformers.rs:21-53 | two lists of the same length that expand alike are equal, so no supplied value is lost |
| NoiseFn.ChildrenShareSignature | src/noise_fns.rs:36-51 | every child of a node that is well-dimensioned at a signature is well-dimensioned at that signature |
| NoiseFn.ChildrenDetermineSignature | src/noise_fns.rs:29-72 | conversely, a non-displacement node is well-dimensioned when all its children are (a leaf, when its generator implements the signature) |
| NoiseFn.EverySubtreeWellDimensioned | src/noise_fns.rs:26-216 | the invariant is hereditary: every node of a well-dimensioned tree is well-dimensioned at the root's signature |
| NoiseFn.DisplacementOnlyAtDims234 | src/noise_fns.rs:74-117 | a well-dimensioned tree that contains a displacement node has `f64` coordinates and dimension 2, 3 or 4 |
| Builders.AbsOf | src/noise_fns.rs:29-34 | the only child is the receiver; the result is usable at exactly the receiver's signatures |
| Builders.AddOf | src/noise_fns.rs:36-42 | children are the receiver then `other`; the result is usable at a signature iff both children are |
| Builders.BlendOf | src/noise_fns.rs:44-51 | children are the receiver, `other`, `control` in that order; the result is usable at a signature iff all three are |
| Builders.CacheOf | src/noise_fns.rs:53-58 | the only child is the receiver; the result is usable at exactly the receiver's signatures |
| Builders.ClampOf | src/noise_fns.rs:60-65 | the only child is the receiver; the result is usable at exactly the receiver's signatures |
| Builders.CurveOf | src/noise_fns.rs:67-72 | the only child is the receiver; the result is usable at exactly the receiver's signatures |
| Builders.DisplaceXY | src/noise_fns.rs:74-85 | children are the receiver, x, y; the z and u slots hold the unit marker; the result is usable only at `<f64, 2>` (under the model's displacement rule, see Left out), and there iff all three children are |
| Builders.DisplaceXYZ | src/noise_fns.rs:87-100 | children are the receiver, x, y, z; the u slot holds the unit marker; the result is usable only at `<f64, 3>` (under the model's displacement rule, see Left out), and there iff all four children are |
| Builders.DisplaceXYZU | src/noise_fns.rs:102-117 | children are the receiver, x, y, z, u; the result is usable only at `<f64, 4>` (under the model's displacement rule, see Left out), and there iff all five children are |
| Builders.ExponentOf | src/noise_fns.rs:119-124 | the only child is the receiver; the result is usable at exactly the receiver's signatures |
| Builders.MaxOf | src/noise_fns.rs:126-132 | children are the receiver then `other`; the result is usable at a signature iff both are |
| Builders.MinOf | src/noise_fns.rs:134-140 | children are the receiver then `other`; the result is usable at a signature iff both are |
| Builders.MultiplyOf | src/noise_fns.rs:142-148 | children are the receiver then `other`; the result is usable at a signature iff both are |
| Builders.NegateOf | src/noise_fns.rs:150-155 | the only child is the receiver; the result is usable at exactly the receiver's signatures |
| Builders.PowerOf | src/noise_fns.rs:157-163 | children are the receiver then `other`; the result is usable at a signature iff both are |
| Builders.RotatePointOf | src/noise_fns.rs:165-170 | the only child is the receiver; the result is usable at exactly the receiver's signatures; `TransformerEvaluatesWarpedPoint` shows it evaluates the receiver at the rotation of the point |
| Builders.ScaleBiasOf | src/noise_fns.rs:172-177 | the only child is the receiver; the result is usable at exactly the receiver's signatures |
| Builders.ScalePointOf | src/noise_fns.rs:179-184 | the only child is the receiver; the result is usable at exactly the receiver's signatures; `TransformerEvaluatesWarpedPoint` shows it evaluates the receiver at the scaling of the point |
| Builders.SelectOf | src/noise_fns.rs:186-193 | children are the receiver, `other`, `control` in that order; the result is usable at a signature iff all three are |
| Builders.TerraceOf | src/noise_fns.rs:195-200 | the only child is the receiver; the result is usable at exactly the receiver's signatures |
| Builders.TranslatePointOf | src/noise_fns.rs:202-207 | the only child is the receiver; the result is usable at exactly the receiver's signatures; `TransformerEvaluatesWarpedPoint` shows it evaluates the receiver at the translation of the point |
| Builders.TurbulenceOf | src/noise_fns.rs:209-215 | needs a seedable auxiliary source type; the only noise-function child is the receiver; the result is usable at exactly the receiver's signatures; `TransformerEvaluatesWarpedPoint` shows it evaluates the receiver at the point its `aux`-driven turbulence yields |
| Builders.ModifierEvaluatesReceiver | src/noise_fns.rs:29-200 | each unary modifier's output at a point is its remap of the receiver's output at that same point |
| Builders.CacheEvaluatesReceiver | src/noise_fns.rs:53-58 | a cache yields what the receiver yields at every point |
| Builders.CombinerEvaluatesInOrder | src/noise_fns.rs:36-163 | a binary combiner passes the receiver's output as its first operand and `other`'s as its second; `power` with swapped operands passes them swapped |
| Builders.SelectorEvaluatesInOrder | src/noise_fns.rs:44-193 | blend and select see the receiver's, `other`'s and `control`'s outputs in that order |
| Builders.DisplaceXYEvaluation | src/noise_fns.rs:74-85 | `displace_xy` samples both displacement functions at the original point, leaves z and u unchanged, and evaluates the receiver at the displaced point |
| Builders.DisplaceXYZEvaluation | src/noise_fns.rs:87-100 | `displace_xyz` samples its three displacement functions at the original point, leaves u unchanged, and evaluates the receiver at the displaced point |
| Builders.DisplaceXYZUEvaluation | src/noise_fns.rs:102-117 | `displace_xyzu` samples all four displacement functions at the original point and evaluates the receiver at the displaced point |
| Builders.TransformerEvaluatesWarpedPoint | src/noise_fns.rs:165-215 | `rotate_point`, `scale_point`, `translate_point` and `turbulence` each evaluate the receiver at the point their own transform yields; turbulence's transform is driven by its seedable auxiliary source |
| Builders.DisplaceOnlyAtItsDimension | src/noise_fns.rs:74-117 | the source's where-clauses only constrain the builders' inputs to `<f64, 2>`, `<f64, 3>` or `<f64, 4>`; under the model's own rule for displacement nodes (see Left out), the built tree is then usable only at that signature |
| Delegation.RefDelegates | src/noise_fns.rs:218-226 | a reference evaluates to what its target evaluates to at the same point, and is usable at the same signatures |
| Delegation.BoxDelegates | src/noise_fns.rs:228-236 | a box evaluates to what its contents evaluate to at the same point, and is usable at the same signatures |
| Delegation.WrapTransparent | src/noise_fns.rs:218-236 | any stack of references and boxes evaluates like the node at its bottom |
| Delegation.WrapKeepsSignatures | src/noise_fns.rs:218-236 | any stack of references and boxes is usable at exactly the signatures of the node at its bottom |
| Delegation.UnderlyingOfWrap | src/noise_fns.rs:218-236 | stripping the outer handles of a wrapped non-handle node gives that node back |
| Delegation.UnderlyingTransparent | src/noise_fns.rs:218-236 | the node behind the outer handles evaluates like the handle |
| Delegation.UnwrappedTransparent | src/noise_fns.rs:218-236 | removing every reference and box at any depth leaves the tree's value at every point unchanged |
| Delegation.UnwrappedKeepsSignatures | src/noise_fns.rs:218-236 | removing every reference and box at any depth keeps the signatures the tree is usable at |
| Delegation.UnwrappedIsHandleFree | src/noise_fns.rs:218-236 | the unwrapped tree holds no reference or box at any depth |
| Seedable.SetSeed | src/noise_fns.rs:238-245 | `set_seed` returns a generator of the same kind and signatures, still seedable, and `seed()` on it returns the seed just set |
| Seedable.SetSeedLastWins | src/noise_fns.rs:240-244 | setting the seed twice keeps only the last one |
| Seedable.SetOwnSeed | src/noise_fns.rs:240-244 | setting the seed a generator already carries changes nothing |
| Seedable.EqualSeedsEqualOutput | src/noise_fns.rs:238-245 | two generators of the same kind and signatures, given the same seed, evaluate alike at every point |
| Seedable.SetSeedKeepsSignatures | src/noise_fns.rs:238-245 | re-seeding a leaf keeps the signatures it is usable at |

## Left out

- Numeric behaviour of every node: the sums, products, clamp bounds, curve and terrace interpolation, select falloff, blend, exponent, rotation, scaling, translation, displacement arithmetic and turbulence. Their implementation files are not part of this model, and they are `f64` arithmetic. An `Interp` leaves each of them uninterpreted.
- Builders.CacheOf, Builders.CacheEvaluatesReceiver: the cache's memo slot is not modelled. The model treats a cache as value-transparent, meaning a hit returns what its source would return at the same point. `src/noise_fns/cache.rs` is not part of this model. Without the memo, nothing in the model tells a cache apart from a reference: both yield their one child's value at the same point and keep its signatures.
- Configuration setters of the nodes (clamp bounds, control points, scale and bias, rotation angles, turbulence frequency, power and roughness) and their configuration-time checks: their source is not part of this model. The builders produce nodes with default configuration, so the model carries no parameters for them.
- The `NoiseFn` implementations of the individual node types are not part of this model. `WellDimensioned` therefore asks only that children share the parent's signature, for every node except displacement. For displacement it also asks for `f64` coordinates of dimension 2, 3 or 4, with a displacement function exactly on the axes that dimension has and the unit marker on the rest, which is the shape the displacement builders produce.
- Builders.TurbulenceOf: turbulence's internal displacement sources and how it seeds them are not modelled. `aux` stands for `F::default()` and only its `Seedable` bound is checked.
- Concrete generators (Perlin, simplex, Worley, value noise, constant, checkerboard) and seed derivation. They are external leaves: a `Generator` is only its kind, the signatures it implements, and its seed.
- The `*_constant` convenience combiners and the "anything convertible into a point" form of `get` are not in `src/noise_fns.rs` and are not modelled.
- Rust mechanics: lifetimes, `?Sized`, `Sized` bounds, `#[inline]`, module re-exports (`src/noise_fns.rs:1-11`, `src/noise_fns/transformers.rs:1-7`).
- Thread safety of the cache, and concurrency in general: the model is sequential.
- `examples/checkerboard.rs` renders images to files (I/O), and its generator's source is not part of this model.
