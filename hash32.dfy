/** The bit-level pieces of the xmur3 string hash, on 32-bit words: the
    per-code-unit seeding step built from MurmurHash3's multiply-and-rotate,
    the fmix32 avalanche that advances the stream, and the specification
    functions that say what a seeded state and the n-th output are. */
module Hash32 {

  /** A UTF-16 code unit, as `charCodeAt` yields it. */
  type CodeUnit = bv16

  const TwoTo32: int := 0x1_0000_0000

  /** Initial state before the length is mixed in. */
  const Seed0: bv32 := 1779033703
  /** MurmurHash3's c1, the seeding multiplier (3432918353). */
  const C1: bv32 := 0xcc9e2d51
  /** The two fmix32 multipliers (2246822507 and 3266489909). */
  const F1: bv32 := 0x85ebca6b
  const F2: bv32 := 0xc2b2ae35

  /** `Math.imul`: the low 32 bits of the product of two 32-bit patterns. */
  function Imul(a: bv32, b: bv32): bv32
  {
    a * b
  }

  /** `h ^ (h >>> k)`: xor with a zero-filling right shift of itself. */
  function XorShiftRight(h: bv32, k: bv6): bv32
    requires k < 32
  {
    h ^ (h >> k)
  }

  /** `h ^ c` for a code unit `c`, which `^` widens with zeros. */
  function XorUnit(h: bv32, c: CodeUnit): bv32
  {
    h ^ c as bv32
  }

  /** `h << 13 | h >>> 19`, where `>>>` shifts in zeros. */
  function Rotl13(h: bv32): (r: bv32)
    ensures r == h.RotateLeft(13)
  {
    (h << 13) | (h >> 19)
  }

  /** The rotation loses no bits. */
  lemma Rotl13Inverse(h: bv32)
    ensures Rotl13(h).RotateRight(13) == h
  {
  }

  /** `>>> 0`: the unsigned number with the same bit pattern. */
  function Unsigned(h: bv32): (n: nat)
    ensures n < TwoTo32
    ensures n as bv32 == h
  {
    h as nat
  }

  // ---------------------------------------------------------------------
  // Seeding

  /** The length as `^` sees it: truncated to 32 bits. */
  function InitialState(s: seq<CodeUnit>): bv32
  {
    Seed0 ^ (|s| % TwoTo32) as bv32
  }

  /** One iteration of the seeding loop: xor in the code unit, multiply by c1,
      rotate left by 13. */
  function MixUnit(h: bv32, c: CodeUnit): bv32
  {
    Rotl13(Imul(XorUnit(h, c), C1))
  }

  /** A step applied to every code unit of `s` in turn, starting from `h`;
      the recursion peels off the last unit. The shape of the seeding loop,
      for any step. */
  function Fold(step: (bv32, CodeUnit) -> bv32, h: bv32, s: seq<CodeUnit>): bv32
    decreases |s|
  {
    if s == [] then h else step(Fold(step, h, s[..|s| - 1]), s[|s| - 1])
  }

  /** The same fold read front to back, as `for (i = 0; i < str.length; i++)`
      runs it. */
  function FoldForward(step: (bv32, CodeUnit) -> bv32, h: bv32, s: seq<CodeUnit>): bv32
    decreases |s|
  {
    if s == [] then h else FoldForward(step, step(h, s[0]), s[1..])
  }

  /** The first code unit is stepped first, then the rest of the string. */
  lemma {:induction false} FoldFirst(step: (bv32, CodeUnit) -> bv32, h: bv32, c: CodeUnit, s: seq<CodeUnit>)
    ensures Fold(step, h, [c] + s) == Fold(step, step(h, c), s)
    decreases |s|
  {
    if s == [] {
      assert ([c] + s)[..0] == [];
    } else {
      var init := s[..|s| - 1];
      assert ([c] + s)[..|s|] == [c] + init;
      FoldFirst(step, h, c, init);
    }
  }

  /** Both readings of the fold agree. */
  lemma {:induction false} FoldIsForward(step: (bv32, CodeUnit) -> bv32, h: bv32, s: seq<CodeUnit>)
    ensures Fold(step, h, s) == FoldForward(step, h, s)
    decreases |s|
  {
    if s != [] {
      assert s == [s[0]] + s[1..];
      FoldFirst(step, h, s[0], s[1..]);
      FoldIsForward(step, step(h, s[0]), s[1..]);
    }
  }

  /** Folding over a concatenation folds over its two parts in turn. */
  lemma {:induction false} FoldAppend(step: (bv32, CodeUnit) -> bv32, h: bv32, s: seq<CodeUnit>, t: seq<CodeUnit>)
    ensures Fold(step, h, s + t) == Fold(step, Fold(step, h, s), t)
    decreases |t|
  {
    if t == [] {
      assert s + t == s;
    } else {
      assert (s + t)[..|s + t| - 1] == s + t[..|t| - 1];
      FoldAppend(step, h, s, t[..|t| - 1]);
    }
  }

  /** Extending a prefix by one unit applies one more step. */
  lemma FoldPrefixStep(step: (bv32, CodeUnit) -> bv32, h: bv32, s: seq<CodeUnit>, k: nat)
    requires k < |s|
    ensures Fold(step, h, s[..k + 1]) == step(Fold(step, h, s[..k]), s[k])
  {
    assert s[..k + 1][..k] == s[..k];
  }

  /** The seeding loop run over `s` from state `h`. */
  function Absorb(h: bv32, s: seq<CodeUnit>): bv32
  {
    Fold(MixUnit, h, s)
  }

  /** The state the seeding loop leaves for the string `s`. */
  function SeededState(s: seq<CodeUnit>): bv32
  {
    Absorb(InitialState(s), s)
  }

  lemma SeededStateEmpty()
    ensures SeededState([]) == 1779033703
  {
  }

  // ---------------------------------------------------------------------
  // Avalanche

  /** MurmurHash3's fmix32 finaliser, the three in-place updates of `h`.
      Zero is a fixed point of it. */
  function Fmix(h: bv32): (r: bv32)
    ensures h == 0 ==> r == 0
  {
    var h1 := Imul(XorShiftRight(h, 16), F1);
    var h2 := Imul(XorShiftRight(h1, 13), F2);
    XorShiftRight(h2, 16)
  }

  /** fmix32 applied `n` times. */
  function FmixPow(h: bv32, n: nat): bv32
  {
    if n == 0 then h else Fmix(FmixPow(h, n - 1))
  }

  /** Stepping `m` times and then `n` times is stepping `m + n` times. */
  lemma {:induction false} FmixPowAdd(h: bv32, m: nat, n: nat)
    ensures FmixPow(FmixPow(h, m), n) == FmixPow(h, m + n)
  {
    if n > 0 {
      FmixPowAdd(h, m, n - 1);
    }
  }

  /** A zero state stays zero however many times it is stepped. */
  lemma {:induction false} FmixPowZero(n: nat)
    ensures FmixPow(0, n) == 0
  {
    if n > 0 {
      FmixPowZero(n - 1);
    }
  }

  // ---------------------------------------------------------------------
  // The stream

  /** The `n`-th value (counting from 0) returned by the step function of a
      hasher seeded with `s`: fmix32 applied `n + 1` times to the seeded
      state, read as an unsigned number. */
  function Output(s: seq<CodeUnit>, n: nat): nat
  {
    Unsigned(FmixPow(SeededState(s), n + 1))
  }

  /** Scaling a raw output by 2^32: exact in double precision, in [0, 1). */
  function Unit(raw: nat): (x: real)
    requires raw < TwoTo32
    ensures 0.0 <= x < 1.0
    ensures x == 0.0 <==> raw == 0
  {
    raw as real / 4294967296.0
  }

  /** Scaling keeps the order of raw outputs, so no two raw values collide. */
  lemma UnitMonotone(a: nat, b: nat)
    requires a < b < TwoTo32
    ensures Unit(a) < Unit(b)
  {
  }
}
