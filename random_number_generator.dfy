/** The streaming xmur3 hasher, the generator that scales its values into
    [0, 1), and the salted single-shot pseudoRandom built on them. */
module RandomNumberGenerator {
  import opened Hash32

  /** The object behind the closure `xmur3(str)` returns: it owns the
      32-bit state `h` that every call advances. `seed` and `calls` are
      bookkeeping for the proof only. */
  class Hasher {
    var h: bv32
    ghost const seed: seq<CodeUnit>
    ghost var calls: nat

    /** After `calls` calls the state is fmix32 applied `calls` times to
        the state the seeding loop left. */
    ghost predicate Valid()
      reads this
    {
      h == FmixPow(SeededState(seed), calls)
    }

    /** The seeding loop: start from 1779033703 xor the length, then mix in
        every code unit in string order. */
    constructor (str: seq<CodeUnit>)
      ensures seed == str && calls == 0
      ensures h == SeededState(str)
      ensures Valid()
    {
      var x := InitialState(str);
      var i := 0;
      while i < |str|
        invariant 0 <= i <= |str|
        invariant x == Absorb(InitialState(str), str[..i])
      {
        assert str[..i + 1][..i] == str[..i];
        x := Imul(XorUnit(x, str[i]), C1);
        x := Rotl13(x);
        i := i + 1;
      }
      assert str[..|str|] == str;
      h := x;
      seed := str;
      calls := 0;
    }

    /** One call of the closure: replace the state by its fmix32 avalanche
        and return the new state's bit pattern as an unsigned number. Only
        this hasher's own state changes. */
    method Next() returns (r: nat)
      requires Valid()
      modifies this
      ensures Valid()
      ensures calls == old(calls) + 1
      ensures h == Fmix(old(h)) && r == Unsigned(h)
      ensures r == Output(seed, old(calls))
      ensures r < TwoTo32
    {
      h := Imul(XorShiftRight(h, 16), F1);
      h := Imul(XorShiftRight(h, 13), F2);
      h := XorShiftRight(h, 16);
      r := Unsigned(h);
      calls := calls + 1;
    }
  }

  /** Determinism: two hashers seeded with the same string and called the
      same number of times are in the same state. */
  lemma SameSeedSameState(a: Hasher, b: Hasher)
    requires a.Valid() && b.Valid()
    requires a.seed == b.seed && a.calls == b.calls
    ensures a.h == b.h
  {
  }

  /** Two such hashers return the same next value and stay in step. */
  method SameSeedSameDraw(a: Hasher, b: Hasher) returns (x: nat, y: nat)
    requires a != b && a.Valid() && b.Valid()
    requires a.seed == b.seed && a.calls == b.calls
    modifies a, b
    ensures x == y
    ensures a.Valid() && b.Valid() && a.calls == b.calls && a.h == b.h
  {
    x := a.Next();
    y := b.Next();
  }

  /** Independence: drawing from one hasher leaves every other hasher, and
      so every other stream, exactly as it was. */
  method DrawFromOne(a: Hasher, b: Hasher) returns (r: nat)
    requires a != b && a.Valid() && b.Valid()
    modifies a
    ensures a.Valid() && a.calls == old(a.calls) + 1
    ensures b.h == old(b.h) && b.calls == old(b.calls) && b.Valid()
    ensures r == Output(a.seed, old(a.calls))
  {
    r := a.Next();
  }

  /** The function `randomNumberGenerator(seed)` returns: every call draws
      the next raw value and divides it by 2^32. */
  class Generator {
    const random: Hasher

    ghost predicate Valid()
      reads this, random
    {
      random.Valid()
    }

    constructor (seed: seq<CodeUnit>)
      ensures fresh(random)
      ensures random.seed == seed && random.calls == 0
      ensures Valid()
    {
      random := new Hasher(seed);
    }

    method Next() returns (x: real)
      requires Valid()
      modifies random
      ensures Valid()
      ensures random.calls == old(random.calls) + 1
      ensures x == Unit(Output(random.seed, old(random.calls)))
      ensures 0.0 <= x < 1.0
    {
      var raw := random.Next();
      x := Unit(raw);
    }
  }

  /** The fixed salt put in front of every pseudoRandom seed: the code
      units of the string "6555705619766379". */
  const Salt: seq<CodeUnit> := [54, 53, 53, 53, 55, 48, 53, 54, 49, 57, 55, 54, 54, 51, 55, 57]

  lemma SaltSpellsDigits()
    ensures |Salt| == |"6555705619766379"|
    ensures forall i :: 0 <= i < |Salt| ==> Salt[i] as int == "6555705619766379"[i] as int
  {
    SaltSpellsDigitsBelow8();
    SaltSpellsDigitsFrom8();
  }

  lemma SaltSpellsDigitsBelow8()
    ensures forall i :: 0 <= i < 8 ==> Salt[i] as int == "6555705619766379"[i] as int
  {
  }

  lemma SaltSpellsDigitsFrom8()
    ensures forall i :: 8 <= i < 16 ==> Salt[i] as int == "6555705619766379"[i] as int
  {
  }

  /** The value pseudoRandom gives for `seed`: the first value of a
      generator seeded with the salt followed by the seed. */
  function SaltedValue(seed: seq<CodeUnit>): real
  {
    Unit(Output(Salt + seed, 0))
  }

  /** The states the seeding loop passes through over the salt, for a salted
      seed of one code unit (17 units in all, so the loop starts from
      1779033703 xor 17). */
  const SaltStates: seq<bv32> := [1779033718, 1665666243, 3942302588, 870523927, 2367182758, 3325833330, 1541166536, 1438756671, 1591422003, 685001066, 424178729, 1081067995, 1906290884, 2966569567, 2147851995, 3633681547, 1791643146]

  lemma SaltStepsLow()
    ensures forall k :: 0 <= k < 8 ==> MixUnit(SaltStates[k], Salt[k]) == SaltStates[k + 1]
  {
  }

  lemma SaltStepsHigh()
    ensures forall k :: 8 <= k < 16 ==> MixUnit(SaltStates[k], Salt[k]) == SaltStates[k + 1]
  {
  }

  /** Each prefix of the salt leaves the tabulated state. */
  lemma {:induction false} SaltPrefix(k: nat)
    requires k <= 16
    ensures Fold(MixUnit, 1779033703 ^ 17, Salt[..k]) == SaltStates[k]
  {
    if k == 0 {
      assert Salt[..0] == [];
    } else {
      SaltPrefix(k - 1);
      FoldPrefixStep(MixUnit, 1779033703 ^ 17, Salt, k - 1);
      SaltStepsLow();
      SaltStepsHigh();
    }
  }

  /** The seeding loop over the whole salt leaves 1791643146. */
  lemma SaltFold()
    ensures Fold(MixUnit, 1779033703 ^ 17, Salt) == 1791643146
  {
    SaltPrefix(16);
    assert Salt[..16] == Salt;
  }

  /** The state a one-unit seed leaves after the salt: the salt's state
      with that unit mixed in. */
  lemma SaltedOneUnit(c: CodeUnit)
    ensures SeededState(Salt + [c]) == MixUnit(1791643146, c)
  {
    var s := Salt + [c];
    assert |s| == 17;
    assert s[..16] == Salt;
    SaltFold();
  }

  /** The first raw values for the seeds "1" and "2". */
  lemma SaltedOne()
    ensures Output(Salt + [49], 0) == 3151750197
  {
    SaltedOneUnit(49);
    assert MixUnit(1791643146, 49) == 2750772421;
    assert FmixPow(2750772421, 1) == Fmix(2750772421) == 3151750197;
  }

  lemma SaltedTwo()
    ensures Output(Salt + [50], 0) == 2083624267
  {
    SaltedOneUnit(50);
    assert MixUnit(1791643146, 50) == 1391921162;
    assert FmixPow(1391921162, 1) == Fmix(1391921162) == 2083624267;
  }

  /** Seed sensitivity: the seeds "1" and "2" give different values. */
  lemma SeedSensitive()
    ensures SaltedValue([49]) != SaltedValue([50])
  {
    SaltedOne();
    SaltedTwo();
    UnitMonotone(2083624267, 3151750197);
  }

  /** `pseudoRandom(seed)`: a fresh generator for the salted seed, drawn
      once. Its result is determined by the seed alone. */
  method PseudoRandom(seed: seq<CodeUnit>) returns (x: real)
    ensures x == SaltedValue(seed)
    ensures 0.0 <= x < 1.0
  {
    var randomNumber := new Generator(Salt + seed);
    x := randomNumber.Next();
  }

  /** A seeded state of zero is never left: fmix32 maps zero to zero, so
      every value drawn is zero. */
  lemma ZeroStateStream(s: seq<CodeUnit>, n: nat)
    requires SeededState(s) == 0
    ensures Output(s, n) == 0
  {
    FmixPowZero(n + 1);
  }

  /** The two code units 56788, 8693 seed a state of zero, so every value of
      `randomNumberGenerator` for that string is 0. */
  lemma ZeroStreamSeed(n: nat)
    ensures Unit(Output([56788, 8693], n)) == 0.0
  {
    FoldIsForward(MixUnit, 1779033703 ^ 2, [56788, 8693]);
    assert FoldForward(MixUnit, 1779033703 ^ 2, [56788, 8693]) == 0;
    ZeroStateStream([56788, 8693], n);
  }

  /** Pinned values: the first output for the empty seed, and the first
      two for "abc". */
  lemma FixtureEmpty()
    ensures Output([], 0) == 167010153
  {
  }

  lemma FixtureAbc()
    ensures Output([97, 98, 99], 0) == 1792905582
    ensures Output([97, 98, 99], 1) == 3065002282
  {
    FixtureAbcState();
    assert Fmix(50696745) == 1792905582;
    assert Fmix(1792905582) == 3065002282;
  }

  /** The seeding loop over "abc" leaves 50696745. */
  lemma FixtureAbcState()
    ensures SeededState([97, 98, 99]) == 50696745
  {
    var abc: seq<CodeUnit> := [97, 98, 99];
    FoldIsForward(MixUnit, 1779033703 ^ 3, abc);
    FixtureAbcForward();
  }

  lemma FixtureAbcForward()
    ensures FoldForward(MixUnit, 1779033703 ^ 3, [97, 98, 99]) == 50696745
  {
  }
}
