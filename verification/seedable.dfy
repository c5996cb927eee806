/**
  The `Seedable` capability: `set_seed` consumes a generator and returns one
  of the same kind carrying the new seed, and `seed` reads it back.
*/
module Seedable {
  import opened NoiseFn

  /** `seed()`: the seed the generator carries, the one its last `set_seed` stored. */
  function Seed(g: Generator): U32
    requires IsSeedable(g)
  {
    g.seeding.seed
  }

  /**
    `set_seed(seed)`: the same generator, still seedable, with the same
    signatures, carrying `seed`.
  */
  function SetSeed(g: Generator, seed: U32): (r: Generator)
    requires IsSeedable(g)
    ensures IsSeedable(r) && Seed(r) == seed
    ensures r.kind == g.kind && r.sigs == g.sigs
  {
    g.(seeding := SeededWith(seed))
  }

  /** Setting twice keeps only the last seed. */
  lemma SetSeedLastWins(g: Generator, a: U32, b: U32)
    requires IsSeedable(g)
    ensures SetSeed(SetSeed(g, a), b) == SetSeed(g, b)
  {
  }

  /** Setting the seed a generator already carries changes nothing. */
  lemma SetOwnSeed(g: Generator)
    requires IsSeedable(g)
    ensures SetSeed(g, Seed(g)) == g
  {
  }

  /**
    Two generators of the same kind and signatures given the same seed are
    the same generator, so they evaluate alike at every point. A generator
    here is nothing but its kind, signatures and seed, so this holds by
    construction: the `Seedable` contract that equal seeds give equal
    output is made true by the choice of what a generator carries.
  */
  lemma EqualSeedsEqualOutput<P, F>(I: Interp<P, F>, g1: Generator, g2: Generator, seed: U32, p: P)
    requires IsSeedable(g1) && IsSeedable(g2)
    requires g1.kind == g2.kind && g1.sigs == g2.sigs
    ensures Eval(I, Leaf(SetSeed(g1, seed)), p) == Eval(I, Leaf(SetSeed(g2, seed)), p)
  {
  }

  /** Re-seeding a leaf keeps the signatures it can be used at. */
  lemma SetSeedKeepsSignatures(g: Generator, seed: U32, s: Signature)
    requires IsSeedable(g)
    ensures WellDimensioned(Leaf(SetSeed(g, seed)), s) <==> WellDimensioned(Leaf(g), s)
  {
  }
}
